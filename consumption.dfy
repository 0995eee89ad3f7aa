/**
 * The ledger screen: the six spending categories, the total and per-category
 * sums, and the add form whose validated submit prepends one item to the list.
 *
 * Amounts are JavaScript numbers produced by `parseInt` on the text typed into
 * the form, so an amount may be `NaN`, and a sum that meets one is `NaN`.
 */
module Consumption {
  import opened Wrappers
  import opened JsStrings
  import opened Seqs

  // ---------------------------------------------------------------------
  // Numbers and parseInt
  // ---------------------------------------------------------------------

  /** An integer-valued JavaScript number, or `NaN`. */
  datatype Number = Num(value: int) | NaN

  /** `a + b`: `NaN` absorbs everything. */
  function Plus(a: Number, b: Number): (r: Number)
    ensures r.Num? <==> a.Num? && b.Num?
    ensures r.Num? ==> r.value == a.value + b.value
  {
    if a.Num? && b.Num? then Num(a.value + b.value) else NaN
  }

  /** The value of `c` as a digit of base `radix` (10 or 16), if it is one. */
  function RadixDigit(c: char, radix: nat): (d: Option<nat>)
    ensures d.Some? ==> d.value < radix
    ensures radix == 10 ==> (d.Some? <==> IsDigit(c))
    ensures radix == 10 && IsDigit(c) ==> d == Some(DigitValue(c))
  {
    var v: Option<nat> :=
      if '0' <= c <= '9' then Some((c as int) - ('0' as int))
      else if 'a' <= c <= 'z' then Some((c as int) - ('a' as int) + 10)
      else if 'A' <= c <= 'Z' then Some((c as int) - ('A' as int) + 10)
      else None;
    if v.Some? && v.value < radix then v else None
  }

  predicate AllRadixDigits(s: string, radix: nat)
  {
    forall i :: 0 <= i < |s| ==> RadixDigit(s[i], radix).Some?
  }

  /** The length of the longest prefix of `s` made of digits of base `radix`. */
  function DigitPrefix(s: string, radix: nat): (n: nat)
    ensures n <= |s|
    ensures AllRadixDigits(s[..n], radix)
    ensures n < |s| ==> RadixDigit(s[n], radix).None?
  {
    if |s| > 0 && RadixDigit(s[0], radix).Some? then
      var n := 1 + DigitPrefix(s[1..], radix);
      assert forall i :: 1 <= i < n ==> s[..n][i] == s[1..][..n - 1][i - 1];
      n
    else 0
  }

  /** The value of a string of digits of base `radix`, most significant first. */
  function RadixValue(ds: string, radix: nat): nat
    requires AllRadixDigits(ds, radix)
  {
    if ds == [] then 0
    else RadixValue(ds[..|ds| - 1], radix) * radix + RadixDigit(ds[|ds| - 1], radix).value
  }

  /** `-n`. */
  function Negate(n: Number): (r: Number)
    ensures r.Num? <==> n.Num?
    ensures r.Num? ==> r.value == -n.value
  {
    if n.Num? then Num(-n.value) else NaN
  }

  /** Text without sign or leading white space: a `0x`/`0X` prefix selects base 16, and
      the longest run of digits that follows is converted; without a digit the result is
      `NaN`. */
  function ParseUnsigned(u: string): Number
  {
    var hex := |u| >= 2 && u[0] == '0' && (u[1] == 'x' || u[1] == 'X');
    var radix := if hex then 16 else 10;
    var v := if hex then u[2..] else u;
    var n := DigitPrefix(v, radix);
    if n == 0 then NaN else Num(RadixValue(v[..n], radix))
  }

  /** Text without leading white space: one optional sign, then the unsigned part. */
  function ParseSigned(t: string): Number
  {
    if |t| > 0 && t[0] == '-' then Negate(ParseUnsigned(t[1..]))
    else if |t| > 0 && t[0] == '+' then ParseUnsigned(t[1..])
    else ParseUnsigned(t)
  }

  /** `parseInt(s)` without a radix argument: leading white space is skipped first. */
  function ParseInt(s: string): Number
  {
    ParseSigned(TrimStart(s))
  }

  /** On decimal digits the base-10 value is the decimal value. */
  lemma {:induction false} RadixValueDecimal(ds: string)
    requires AllDigits(ds)
    ensures AllRadixDigits(ds, 10) && RadixValue(ds, 10) == DecimalValue(ds)
  {
    if ds != [] {
      RadixValueDecimal(ds[..|ds| - 1]);
    }
  }

  /** A run of decimal digits followed by anything that neither continues it nor turns a
      lone `0` into a hexadecimal prefix is read as its decimal value. */
  lemma {:induction false} ParseIntDecimal(ds: string, rest: string)
    requires |ds| > 0 && AllDigits(ds)
    requires |rest| > 0 ==> !IsDigit(rest[0]) && (ds == "0" ==> rest[0] != 'x' && rest[0] != 'X')
    ensures ParseInt(ds + rest) == Num(DecimalValue(ds))
  {
    var s := ds + rest;
    assert !IsWhiteSpace(s[0]);
    assert TrimStart(s) == s;
    if |s| >= 2 && s[0] == '0' {
      if |ds| >= 2 {
        assert s[1] == ds[1] && IsDigit(ds[1]);
      } else {
        assert ds == "0" && s[1] == rest[0];
      }
      assert s[1] != 'x' && s[1] != 'X';
    }
    assert ParseInt(s) == ParseUnsigned(s);
    assert s[..|ds|] == ds;
    DigitPrefixOf(ds, rest);
    RadixValueDecimal(ds);
  }

  lemma {:induction false} DigitPrefixOf(ds: string, rest: string)
    requires AllDigits(ds)
    requires |rest| > 0 ==> !IsDigit(rest[0])
    ensures DigitPrefix(ds + rest, 10) == |ds|
  {
    if ds != [] {
      assert (ds + rest)[1..] == ds[1..] + rest;
      DigitPrefixOf(ds[1..], rest);
    } else {
      assert ds + rest == rest;
    }
  }

  /** Reading back a rendered non-negative integer gives it back. */
  lemma {:induction false} ParseIntOfNatToString(n: nat)
    ensures ParseInt(NatToString(n)) == Num(n)
  {
    ParseIntDecimal(NatToString(n), "");
    assert NatToString(n) + "" == NatToString(n);
    DecimalValueOfNatToString(n);
  }

  /** A minus sign negates. */
  lemma {:induction false} ParseIntNegative(ds: string)
    requires |ds| > 0 && AllDigits(ds)
    ensures ParseInt("-" + ds) == Num(0 - DecimalValue(ds))
  {
    var s := "-" + ds;
    assert s[0] == '-' && s[1..] == ds;
    NoLeadingWhiteSpace(s);
    assert ParseSigned(s) == Negate(ParseUnsigned(ds));
    UnsignedDecimal(ds);
  }

  lemma {:induction false} NoLeadingWhiteSpace(s: string)
    requires |s| > 0 && !IsWhiteSpace(s[0])
    ensures TrimStart(s) == s && ParseInt(s) == ParseSigned(s)
  {
  }

  lemma {:induction false} UnsignedDecimal(ds: string)
    requires |ds| > 0 && AllDigits(ds)
    ensures ParseUnsigned(ds) == Num(DecimalValue(ds))
  {
    DigitPrefixOf(ds, "");
    assert ds + "" == ds;
    assert ds[..|ds|] == ds;
    RadixValueDecimal(ds);
  }

  /** Leading white space is skipped. */
  lemma {:induction false} ParseIntSkipsWhiteSpace(ws: string, s: string)
    requires forall i :: 0 <= i < |ws| ==> IsWhiteSpace(ws[i])
    ensures ParseInt(ws + s) == ParseInt(s)
  {
    TrimStartSkips(ws, s);
  }

  lemma {:induction false} TrimStartSkips(ws: string, s: string)
    requires forall i :: 0 <= i < |ws| ==> IsWhiteSpace(ws[i])
    ensures TrimStart(ws + s) == TrimStart(s)
  {
    if ws != [] {
      assert (ws + s)[1..] == ws[1..] + s;
      TrimStartSkips(ws[1..], s);
    } else {
      assert ws + s == s;
    }
  }

  /** Text whose first character after the white space is neither a digit nor a sign,
      and the empty text, are `NaN`. */
  lemma {:induction false} ParseIntNaN(s: string)
    requires var t := TrimStart(s); |t| == 0 || (!IsDigit(t[0]) && t[0] != '-' && t[0] != '+')
    ensures ParseInt(s) == NaN
  {
  }

  /** `parseInt("0x1A")` reads hexadecimal. */
  lemma ParseIntHexadecimal()
    ensures ParseInt("0x1A") == Num(26)
  {
    NoLeadingWhiteSpace("0x1A");
    HexValue();
  }

  lemma HexValue()
    ensures ParseUnsigned("0x1A") == Num(26)
  {
    assert "0x1A"[2..] == "1A";
    assert DigitPrefix("1A", 16) == 2;
    assert "1A"[..2] == "1A" && "1A"[..1] == "1" && "1"[..0] == [];
  }

  // ---------------------------------------------------------------------
  // Categories and items
  // ---------------------------------------------------------------------

  /** An entry of the `categories` table; `name` is its `label` field. */
  datatype CategoryInfo = CategoryInfo(id: string, name: string, icon: string)

  const Categories: seq<CategoryInfo> := [
    CategoryInfo("food", "식비", "coffee"),
    CategoryInfo("transport", "교통비", "truck"),
    CategoryInfo("living", "생활용품", "home"),
    CategoryInfo("health", "의료/건강", "heart"),
    CategoryInfo("leisure", "여가/취미", "film"),
    CategoryInfo("etc", "기타", "more-horizontal")
  ]

  /** The table's labels in table order, which is what an item records as its category. */
  function Labels(): (labels: seq<string>)
    ensures |labels| == |Categories|
    ensures forall i :: 0 <= i < |Categories| ==> labels[i] == Categories[i].name
  {
    seq(|Categories|, i requires 0 <= i < |Categories| => Categories[i].name)
  }

  /** The elements of `s` are pairwise distinct. */
  predicate Distinct(s: seq<string>)
  {
    forall i, j :: 0 <= i < j < |s| ==> s[i] != s[j]
  }

  /** The table has six entries with distinct ids and distinct labels. */
  lemma CategoriesDistinct()
    ensures |Categories| == 6
    ensures Distinct(Labels())
    ensures forall i, j :: 0 <= i < j < |Categories| ==> Categories[i].id != Categories[j].id
  {
    var labels := Labels();
    var firsts := [labels[0][0], labels[1][0], labels[2][0], labels[3][0], labels[4][0], labels[5][0]];
    assert firsts == ['식', '교', '생', '의', '여', '기'];
    forall i, j | 0 <= i < j < |labels|
      ensures labels[i] != labels[j]
    {
      assert labels[i][0] == firsts[i] && labels[j][0] == firsts[j];
    }
    var ids := [Categories[0].id, Categories[1].id, Categories[2].id, Categories[3].id,
                Categories[4].id, Categories[5].id];
    assert ids == ["food", "transport", "living", "health", "leisure", "etc"];
    var idFirsts := [ids[0][0], ids[1][0], ids[2][0], ids[3][0], ids[4][0], ids[5][0]];
    assert idFirsts == ['f', 't', 'l', 'h', 'l', 'e'];
    assert ids[2][1] == 'i' && ids[4][1] == 'e';
    forall i, j | 0 <= i < j < |Categories|
      ensures Categories[i].id != Categories[j].id
    {
      assert Categories[i].id == ids[i] && Categories[j].id == ids[j];
      assert ids[i][0] == idFirsts[i] && ids[j][0] == idFirsts[j];
    }
  }

  /** A ledger item; `id` and `date` are opaque strings. */
  datatype Consumption = Consumption(id: string, date: string, category: string, amount: Number, description: string)

  /** The add form; every field holds the text typed or chosen. */
  datatype NewConsumption = NewConsumption(category: string, amount: string, description: string, date: string)

  /** The form as it is opened and after a successful add: empty, dated `today`. */
  function EmptyForm(today: string): NewConsumption
  {
    NewConsumption("", "", "", today)
  }

  /** The form passes the check of `handleAddConsumption`: no field but the date is empty. */
  predicate Complete(form: NewConsumption)
  {
    form.category != "" && form.amount != "" && form.description != ""
  }

  /** The item an add creates from the form. */
  function ItemOf(id: string, form: NewConsumption): (item: Consumption)
    ensures item.id == id && item.date == form.date && item.category == form.category
    ensures item.description == form.description && item.amount == ParseInt(form.amount)
  {
    Consumption(id, form.date, form.category, ParseInt(form.amount), form.description)
  }

  // ---------------------------------------------------------------------
  // Sums
  // ---------------------------------------------------------------------

  /** `items.reduce((sum, item) => sum + item.amount, 0)`, summed from the left. */
  function Total(items: seq<Consumption>): (r: Number)
    ensures r.NaN? <==> exists i :: 0 <= i < |items| && items[i].amount.NaN?
    ensures items == [] ==> r == Num(0)
  {
    if items == [] then Num(0)
    else
      var r := Plus(Total(items[..|items| - 1]), items[|items| - 1].amount);
      assert forall i :: 0 <= i < |items| - 1 ==> items[..|items| - 1][i] == items[i];
      r
  }

  /** Putting an item in front adds its amount to the total. */
  lemma {:induction false} TotalPrepend(x: Consumption, items: seq<Consumption>)
    ensures Total([x] + items) == Plus(x.amount, Total(items))
    decreases |items|
  {
    if items != [] {
      var init := items[..|items| - 1];
      assert ([x] + items)[..|items|] == [x] + init;
      TotalPrepend(x, init);
    }
  }

  /** `items.filter(item => item.category === category)` then summed. */
  function CategoryTotal(items: seq<Consumption>, category: string): (r: Number)
    ensures (forall i :: 0 <= i < |items| ==> items[i].category != category) ==> r == Num(0)
  {
    var keep := (item: Consumption) => item.category == category;
    FilterNone(keep, items);
    Total(Filter(keep, items))
  }

  /** Putting an item in front adds its amount to its own category only. */
  lemma {:induction false} CategoryTotalPrepend(x: Consumption, items: seq<Consumption>, category: string)
    ensures CategoryTotal([x] + items, category)
            == if x.category == category then Plus(x.amount, CategoryTotal(items, category))
               else CategoryTotal(items, category)
  {
    var keep := (item: Consumption) => item.category == category;
    assert ([x] + items)[1..] == items;
    if x.category == category {
      TotalPrepend(x, Filter(keep, items));
    }
  }

  /** The total and every category total after putting `x` in front. */
  lemma {:induction false} PrependSums(x: Consumption, items: seq<Consumption>)
    ensures Total([x] + items) == Plus(x.amount, Total(items))
    ensures forall c :: CategoryTotal([x] + items, c)
                        == if c == x.category then Plus(x.amount, CategoryTotal(items, c))
                           else CategoryTotal(items, c)
  {
    TotalPrepend(x, items);
    forall c
      ensures CategoryTotal([x] + items, c)
              == if c == x.category then Plus(x.amount, CategoryTotal(items, c)) else CategoryTotal(items, c)
    {
      CategoryTotalPrepend(x, items, c);
    }
  }

  /** Every item is filed under one of `labels`. */
  predicate FiledUnder(items: seq<Consumption>, labels: seq<string>)
  {
    forall i :: 0 <= i < |items| ==> items[i].category in labels
  }

  lemma {:induction false} FiledPrepend(x: Consumption, items: seq<Consumption>, labels: seq<string>)
    requires FiledUnder(items, labels) && x.category in labels
    ensures FiledUnder([x] + items, labels)
  {
    assert forall i :: 1 <= i <= |items| ==> ([x] + items)[i] == items[i - 1];
  }

  /** The per-category totals over `labels`, added up. */
  function SumOverCategories(labels: seq<string>, items: seq<Consumption>): Number
  {
    if labels == [] then Num(0) else Plus(CategoryTotal(items, labels[0]), SumOverCategories(labels[1..], items))
  }

  lemma PlusAssociative(a: Number, b: Number, c: Number)
    ensures Plus(Plus(a, b), c) == Plus(a, Plus(b, c))
  {
  }

  lemma PlusSwap(a: Number, b: Number, c: Number)
    ensures Plus(b, Plus(a, c)) == Plus(a, Plus(b, c))
  {
  }

  /** One more item adds its amount to the sum of the category totals exactly when its
      category is one of `labels` (which are distinct). */
  lemma {:induction false} SumOverCategoriesPrepend(labels: seq<string>, x: Consumption, items: seq<Consumption>)
    requires Distinct(labels)
    ensures SumOverCategories(labels, [x] + items)
            == if x.category in labels then Plus(x.amount, SumOverCategories(labels, items))
               else SumOverCategories(labels, items)
    decreases |labels|
  {
    if labels != [] {
      var l, rest := labels[0], labels[1..];
      assert forall i :: 0 <= i < |rest| ==> rest[i] == labels[i + 1];
      assert Distinct(rest);
      SumOverCategoriesPrepend(rest, x, items);
      CategoryTotalPrepend(x, items, l);
      var ct, soc := CategoryTotal(items, l), SumOverCategories(rest, items);
      assert SumOverCategories(labels, items) == Plus(ct, soc);
      assert x.category in labels <==> x.category == l || x.category in rest;
      if x.category == l {
        assert x.category !in rest;
        PlusAssociative(x.amount, ct, soc);
      } else if x.category in rest {
        PlusSwap(x.amount, ct, soc);
      }
    }
  }

  /** When every item is filed under one of the distinct `labels`, the category totals
      add up to the total. */
  lemma {:induction false} CategoryTotalsAddUp(labels: seq<string>, items: seq<Consumption>)
    requires Distinct(labels)
    requires FiledUnder(items, labels)
    ensures SumOverCategories(labels, items) == Total(items)
    decreases |items|
  {
    if items == [] {
      ZeroCategories(labels);
    } else {
      assert items == [items[0]] + items[1..];
      CategoryTotalsAddUp(labels, items[1..]);
      SumOverCategoriesPrepend(labels, items[0], items[1..]);
      TotalPrepend(items[0], items[1..]);
    }
  }

  lemma {:induction false} ZeroCategories(labels: seq<string>)
    ensures SumOverCategories(labels, []) == Num(0)
  {
    if labels != [] {
      ZeroCategories(labels[1..]);
    }
  }

  // ---------------------------------------------------------------------
  // The sample data
  // ---------------------------------------------------------------------

  /** The items `fetchConsumptionData` shows. */
  const SampleConsumptions: seq<Consumption> := [
    Consumption("1", "2025-05-20", "식비", Num(15000), "점심식사"),
    Consumption("2", "2025-05-19", "교통비", Num(1250), "버스 요금"),
    Consumption("3", "2025-05-18", "생활용품", Num(22000), "세제구매"),
    Consumption("4", "2025-05-17", "의료/건강", Num(5000), "약국"),
    Consumption("5", "2025-05-16", "여가/취미", Num(12000), "도서구매")
  ]

  /** The sample items total 55250 and are each filed under a category of the table. */
  lemma SampleTotal()
    ensures Total(SampleConsumptions) == Num(55250)
    ensures FiledUnder(SampleConsumptions, Labels())
  {
    var s := SampleConsumptions;
    assert s[..1][..0] == [];
    assert Total(s[..1]) == Num(15000);
    assert s[..2][..1] == s[..1];
    assert Total(s[..2]) == Num(16250);
    assert s[..3][..2] == s[..2];
    assert Total(s[..3]) == Num(38250);
    assert s[..4][..3] == s[..3];
    assert Total(s[..4]) == Num(43250);
    assert s[..5][..4] == s[..4] && s[..5] == s;
    SampleFiled();
  }

  /** Item `i` of the sample is filed under the label of table entry `i`. */
  lemma SampleFiled()
    ensures FiledUnder(SampleConsumptions, Labels())
  {
    var labels := Labels();
    forall i | 0 <= i < |SampleConsumptions|
      ensures SampleConsumptions[i].category in labels
    {
      assert SampleConsumptions[i].category == Categories[i].name == labels[i];
    }
  }

  // ---------------------------------------------------------------------
  // The screen
  // ---------------------------------------------------------------------

  /** The state of the ledger screen that the add flow changes. */
  class ConsumptionScreen {
    var consumptions: seq<Consumption>
    var newConsumption: NewConsumption
    var showAddModal: bool

    /** Every item, and the form once a category is chosen, is filed under a label of
        the table. */
    ghost predicate Valid()
      reads this
    {
      (newConsumption.category == "" || newConsumption.category in Labels())
      && FiledUnder(consumptions, Labels())
    }

    /** The screen as it mounts: no items, the modal closed, an empty form dated `today`. */
    constructor(today: string)
      ensures consumptions == [] && newConsumption == EmptyForm(today) && !showAddModal
      ensures Valid()
    {
      consumptions := [];
      newConsumption := EmptyForm(today);
      showAddModal := false;
    }

    /** `getTotalAmount()`. */
    function TotalAmount(): Number
      reads this
    {
      Total(consumptions)
    }

    /** `getCategoryAmount(category)`. */
    function CategoryAmount(category: string): Number
      reads this
    {
      CategoryTotal(consumptions, category)
    }

    /** The sample data arrives. */
    method LoadSampleData()
      modifies this
      ensures consumptions == SampleConsumptions
      ensures newConsumption == old(newConsumption) && showAddModal == old(showAddModal)
      ensures old(Valid()) ==> Valid()
    {
      SampleTotal();
      consumptions := SampleConsumptions;
    }

    /** The add button opens the modal; its close buttons close it. */
    method SetShowAddModal(show: bool)
      modifies this
      ensures showAddModal == show
      ensures consumptions == old(consumptions) && newConsumption == old(newConsumption)
      ensures old(Valid()) ==> Valid()
    {
      showAddModal := show;
    }

    /** A category button puts the label of entry `i` into the form. */
    method SelectCategory(i: nat)
      requires i < |Categories|
      modifies this
      ensures newConsumption == old(newConsumption).(category := Categories[i].name)
      ensures consumptions == old(consumptions) && showAddModal == old(showAddModal)
      ensures old(Valid()) ==> Valid()
    {
      newConsumption := newConsumption.(category := Categories[i].name);
    }

    /** Typing into the amount, description or date field. */
    method SetAmount(text: string)
      modifies this
      ensures newConsumption == old(newConsumption).(amount := text)
      ensures consumptions == old(consumptions) && showAddModal == old(showAddModal)
      ensures old(Valid()) ==> Valid()
    {
      newConsumption := newConsumption.(amount := text);
    }

    method SetDescription(text: string)
      modifies this
      ensures newConsumption == old(newConsumption).(description := text)
      ensures consumptions == old(consumptions) && showAddModal == old(showAddModal)
      ensures old(Valid()) ==> Valid()
    {
      newConsumption := newConsumption.(description := text);
    }

    method SetDate(text: string)
      modifies this
      ensures newConsumption == old(newConsumption).(date := text)
      ensures consumptions == old(consumptions) && showAddModal == old(showAddModal)
      ensures old(Valid()) ==> Valid()
    {
      newConsumption := newConsumption.(date := text);
    }

    /** `handleAddConsumption()`, with the new item's id and the date of the fresh form
        passed in; the alert of an incomplete form becomes the `false` result. */
    method HandleAddConsumption(id: string, today: string) returns (added: bool)
      modifies this
      ensures added <==> Complete(old(newConsumption))
      ensures !added ==> consumptions == old(consumptions) && newConsumption == old(newConsumption)
                         && showAddModal == old(showAddModal)
      ensures added ==> consumptions == [ItemOf(id, old(newConsumption))] + old(consumptions)
                        && !showAddModal && newConsumption == EmptyForm(today)
      ensures added ==> Total(consumptions) == Plus(ParseInt(old(newConsumption).amount), Total(old(consumptions)))
      ensures added ==> forall c :: CategoryTotal(consumptions, c)
                          == if c == old(newConsumption).category
                             then Plus(ParseInt(old(newConsumption).amount), CategoryTotal(old(consumptions), c))
                             else CategoryTotal(old(consumptions), c)
      ensures old(Valid()) ==> Valid()
    {
      if !Complete(newConsumption) {
        return false;
      }
      var item := ItemOf(id, newConsumption);
      PrependSums(item, consumptions);
      if Valid() {
        FiledPrepend(item, consumptions, Labels());
      }
      consumptions := [item] + consumptions;
      showAddModal := false;
      newConsumption := EmptyForm(today);
      added := true;
    }

    /** In a valid state the category totals over the table add up to the total. */
    lemma CategoryAmountsAddUp()
      requires Valid()
      ensures SumOverCategories(Labels(), consumptions) == TotalAmount()
    {
      CategoriesDistinct();
      CategoryTotalsAddUp(Labels(), consumptions);
    }
  }
}
