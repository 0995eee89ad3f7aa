/**
 * `Array.prototype.filter` and `Array.prototype.find` over immutable lists,
 * with the facts the screens and the offline fall-backs rely on.
 */
module Seqs {
  import opened Wrappers

  /** `s.filter(keep)`: the elements satisfying `keep`, in their original order. */
  function Filter<T>(keep: T -> bool, s: seq<T>): (r: seq<T>)
    ensures |r| <= |s|
    ensures forall i :: 0 <= i < |r| ==> r[i] in s && keep(r[i])
    ensures forall i :: 0 <= i < |s| && keep(s[i]) ==> s[i] in r
    ensures forall i :: 0 <= i < |s| ==> multiset(r)[s[i]] == if keep(s[i]) then multiset(s)[s[i]] else 0
  {
    if s == [] then []
    else
      var rest := Filter(keep, s[1..]);
      FilterStepCounts(keep, s, rest);
      if keep(s[0]) then [s[0]] + rest else rest
  }

  /** The multiplicities of one step of `Filter`, given those of the step on the tail. */
  lemma {:induction false} FilterStepCounts<T>(keep: T -> bool, s: seq<T>, rest: seq<T>)
    requires s != []
    requires forall i :: 0 <= i < |rest| ==> rest[i] in s[1..]
    requires forall i :: 0 <= i < |s[1..]| ==>
               multiset(rest)[s[1..][i]] == if keep(s[1..][i]) then multiset(s[1..])[s[1..][i]] else 0
    ensures var r := if keep(s[0]) then [s[0]] + rest else rest;
            forall i :: 0 <= i < |s| ==> multiset(r)[s[i]] == if keep(s[i]) then multiset(s)[s[i]] else 0
  {
    var tail := s[1..];
    var r := if keep(s[0]) then [s[0]] + rest else rest;
    assert s == [s[0]] + tail;
    assert multiset(s) == multiset{s[0]} + multiset(tail);
    assert multiset(r) == (if keep(s[0]) then multiset{s[0]} else multiset{}) + multiset(rest);
    forall i | 0 <= i < |s|
      ensures multiset(rest)[s[i]] == if keep(s[i]) then multiset(tail)[s[i]] else 0
    {
      if i > 0 {
        assert s[i] == tail[i - 1];
      } else if s[0] in tail {
        var j :| 0 <= j < |tail| && tail[j] == s[0];
      } else {
        assert multiset(tail)[s[0]] == 0;
        assert s[0] !in rest;
      }
    }
  }

  /** `sub` is `s` with some elements left out and the rest in order. */
  ghost predicate IsSubsequence<T>(sub: seq<T>, s: seq<T>)
    decreases |s|
  {
    sub == [] || (s != [] && ((sub[0] == s[0] && IsSubsequence(sub[1..], s[1..])) || IsSubsequence(sub, s[1..])))
  }

  /** Filtering keeps the order of what it keeps. */
  lemma {:induction false} FilterIsSubsequence<T>(keep: T -> bool, s: seq<T>)
    ensures IsSubsequence(Filter(keep, s), s)
  {
    if s != [] {
      FilterIsSubsequence(keep, s[1..]);
      if keep(s[0]) {
        assert Filter(keep, s)[1..] == Filter(keep, s[1..]);
      }
    }
  }

  /** Filtering what was already filtered with the same test changes nothing. */
  lemma {:induction false} FilterIdempotent<T>(keep: T -> bool, s: seq<T>)
    ensures Filter(keep, Filter(keep, s)) == Filter(keep, s)
  {
    if s != [] {
      FilterIdempotent(keep, s[1..]);
      if keep(s[0]) {
        assert Filter(keep, s)[0] == s[0];
        assert Filter(keep, s)[1..] == Filter(keep, s[1..]);
      }
    }
  }

  /** When every element passes, the whole list is kept. */
  lemma {:induction false} FilterKeepsAll<T>(keep: T -> bool, s: seq<T>)
    requires forall i :: 0 <= i < |s| ==> keep(s[i])
    ensures Filter(keep, s) == s
  {
    if s != [] {
      FilterKeepsAll(keep, s[1..]);
    }
  }

  /** When no element passes, nothing is kept. */
  lemma {:induction false} FilterNone<T>(keep: T -> bool, s: seq<T>)
    ensures (forall i :: 0 <= i < |s| ==> !keep(s[i])) ==> Filter(keep, s) == []
  {
    if s != [] {
      FilterNone(keep, s[1..]);
      assert forall i :: 1 <= i < |s| ==> s[1..][i - 1] == s[i];
    }
  }

  /** Filtering with a test that agrees with another one on `s` gives the same list. */
  lemma {:induction false} FilterCongruent<T>(f: T -> bool, g: T -> bool, s: seq<T>)
    requires forall i :: 0 <= i < |s| ==> f(s[i]) == g(s[i])
    ensures Filter(f, s) == Filter(g, s)
  {
    if s != [] {
      FilterCongruent(f, g, s[1..]);
    }
  }

  /** `s.find(hit)`: the first element satisfying `hit`, or nothing. */
  function Find<T>(hit: T -> bool, s: seq<T>): (r: Option<T>)
    ensures r.None? <==> forall i :: 0 <= i < |s| ==> !hit(s[i])
    ensures r.Some? ==> exists i :: 0 <= i < |s| && s[i] == r.value && hit(s[i])
                                    && forall j :: 0 <= j < i ==> !hit(s[j])
  {
    if s == [] then None
    else if hit(s[0]) then Some(s[0])
    else
      var r := Find(hit, s[1..]);
      assert r.Some? ==> exists i :: 0 <= i < |s| - 1 && s[1..][i] == r.value && hit(s[1..][i])
                                    && forall j :: 0 <= j < i ==> !hit(s[1..][j]);
      assert forall i :: 0 <= i < |s| - 1 ==> s[1..][i] == s[i + 1];
      r
  }
}
