/**
 * The voice-command interpreter: `voiceService.parseVoiceCommand`, the
 * keyword-to-category table `parseCategory` and `voiceService.generateResponse`.
 *
 * The amount pattern `/(.+?)(\d+)원/` is modelled as the regular-expression
 * engine runs it: the leftmost start position, then the shortest non-empty
 * description (`.` matches anything but a line terminator), then the longest
 * digit run, which must be followed by `원`.
 */
module VoiceService {
  import opened Wrappers
  import opened JsStrings

  // ---------------------------------------------------------------------
  // Categories
  // ---------------------------------------------------------------------

  /** The eight spending categories an expense can be filed under. */
  datatype Category = Groceries | Transport | Medical | Household | Telecom | Utilities | Culture | Other
  {
    /** The label the interpreter reports. */
    function Label(): string
    {
      match this
      case Groceries => "식료품"
      case Transport => "교통비"
      case Medical => "의료비"
      case Household => "생활용품"
      case Telecom => "통신비"
      case Utilities => "공과금"
      case Culture => "문화생활"
      case Other => "기타"
    }
  }

  /** The keyword table of `parseCategory`, in the order it is searched. */
  const CategoryTable: seq<(Category, seq<string>)> := [
    (Groceries, ["커피", "음식", "식사", "마트", "장보기", "빵", "우유", "과일"]),
    (Transport, ["버스", "지하철", "택시", "주유", "버스카드", "교통카드"]),
    (Medical, ["병원", "약국", "의료", "치료", "진료", "약"]),
    (Household, ["세제", "화장지", "샴푸", "비누", "생활용품"]),
    (Telecom, ["휴대폰", "인터넷", "전화", "통신"]),
    (Utilities, ["전기", "가스", "수도", "관리비"]),
    (Culture, ["영화", "책", "음악", "게임", "문화"])
  ]

  /** `keywords.some(keyword => text.includes(keyword))`. */
  predicate AnyKeyword(keywords: seq<string>, text: string)
  {
    exists j :: 0 <= j < |keywords| && Contains(text, keywords[j])
  }

  /** The first row of `table` with a keyword hit in `text`, or `Other`. */
  function FirstCategory(table: seq<(Category, seq<string>)>, text: string): (c: Category)
    requires forall i :: 0 <= i < |table| ==> table[i].0 != Other
    ensures c == Other <==> forall i :: 0 <= i < |table| ==> !AnyKeyword(table[i].1, text)
    ensures c != Other ==> exists i :: 0 <= i < |table| && table[i].0 == c && AnyKeyword(table[i].1, text)
                                       && forall j :: 0 <= j < i ==> !AnyKeyword(table[j].1, text)
  {
    if table == [] then Other
    else if AnyKeyword(table[0].1, text) then table[0].0
    else
      var c := FirstCategory(table[1..], text);
      assert forall i :: 0 <= i < |table| - 1 ==> table[1..][i] == table[i + 1];
      c
  }

  /** `parseCategory(description)`: the first category, in table order, one of whose
      keywords occurs in `description`; `기타` when none does. */
  function ParseCategory(description: string): (c: Category)
    ensures c == Other <==> forall i :: 0 <= i < |CategoryTable| ==> !AnyKeyword(CategoryTable[i].1, description)
    ensures c != Other ==> exists i :: 0 <= i < |CategoryTable| && CategoryTable[i].0 == c
                                       && AnyKeyword(CategoryTable[i].1, description)
                                       && forall j :: 0 <= j < i ==> !AnyKeyword(CategoryTable[j].1, description)
  {
    FirstCategory(CategoryTable, description)
  }

  /** The eight labels are distinct, so a label names exactly one category. */
  lemma LabelInjective(c: Category, d: Category)
    requires c.Label() == d.Label()
    ensures c == d
  {
  }

  // ---------------------------------------------------------------------
  // The amount pattern
  // ---------------------------------------------------------------------

  /** The end of the maximal run of digits that starts at `k`. */
  function DigitRunEnd(s: string, k: nat): (e: nat)
    requires k <= |s|
    ensures k <= e <= |s|
    ensures forall i :: k <= i < e ==> IsDigit(s[i])
    ensures e < |s| ==> !IsDigit(s[e])
    decreases |s| - k
  {
    if k < |s| && IsDigit(s[k]) then DigitRunEnd(s, k + 1) else k
  }

  /** A run end is determined by the two facts `DigitRunEnd` promises. */
  lemma {:induction false} DigitRunEndUnique(s: string, k: nat, e: nat)
    requires k <= e <= |s|
    requires forall i :: k <= i < e ==> IsDigit(s[i])
    requires e < |s| ==> !IsDigit(s[e])
    ensures DigitRunEnd(s, k) == e
  {
  }

  /** `(\d+)원` matches at `k`: a digit stands at `k` and the maximal digit run from `k`
      is followed by `원`. (`\d+` backtracking to a shorter run always leaves a digit,
      never `원`, after it.) */
  predicate AmountAt(s: string, k: nat)
  {
    k < |s| && IsDigit(s[k]) && DigitRunEnd(s, k) < |s| && s[DigitRunEnd(s, k)] == '원'
  }

  /** The whole pattern matches with the description `s[start..digits]`: it is non-empty,
      holds no line terminator, and the amount matches at `digits`. */
  ghost predicate RegexMatchAt(s: string, start: int, digits: int)
  {
    0 <= start < digits && AmountAt(s, digits)
    && forall i :: start <= i < digits ==> !IsLineTerminator(s[i])
  }

  /** A match: the description is `s[start..digits]`, the digit run starts at `digits`. */
  datatype Match = Match(start: nat, digits: nat)

  /** The scan behind `text.match`: `k` runs over the candidate digit positions, while
      `lineStart` is the first position after the last line terminator before `k`. */
  function Scan(s: string, lineStart: nat, k: nat): Option<Match>
    requires lineStart <= k <= |s|
    decreases |s| - k
  {
    if k == |s| then None
    else if lineStart < k && AmountAt(s, k) then Some(Match(lineStart, k))
    else Scan(s, if IsLineTerminator(s[k]) then k + 1 else lineStart, k + 1)
  }

  /** `text.match(/(.+?)(\d+)원/)`. */
  function FindMatch(s: string): Option<Match>
  {
    Scan(s, 0, 0)
  }

  /** `lineStart` begins the line that `k` lies on. */
  ghost predicate IsLineStart(s: string, lineStart: nat, k: nat)
  {
    lineStart <= k <= |s|
    && (lineStart > 0 ==> IsLineTerminator(s[lineStart - 1]))
    && forall i :: lineStart <= i < k ==> !IsLineTerminator(s[i])
  }

  /** `m` is the match the engine reports: the least start, then the least digit position. */
  ghost predicate IsFirstMatch(s: string, m: Match)
  {
    RegexMatchAt(s, m.start, m.digits)
    && forall st, d :: RegexMatchAt(s, st, d) ==> m.start < st || (m.start == st && m.digits <= d)
  }

  lemma {:induction false} ScanCorrect(s: string, lineStart: nat, k: nat)
    requires IsLineStart(s, lineStart, k)
    requires forall st, d :: RegexMatchAt(s, st, d) ==> k <= d
    ensures Scan(s, lineStart, k).Some? ==> IsFirstMatch(s, Scan(s, lineStart, k).value)
    ensures Scan(s, lineStart, k).None? ==> forall st, d :: !RegexMatchAt(s, st, d)
    decreases |s| - k
  {
    if k == |s| {
    } else if lineStart < k && AmountAt(s, k) {
      var m := Match(lineStart, k);
      assert RegexMatchAt(s, m.start, m.digits);
      forall st, d | RegexMatchAt(s, st, d)
        ensures m.start < st || (m.start == st && m.digits <= d)
      {
        assert lineStart > 0 ==> IsLineTerminator(s[lineStart - 1]);
      }
    } else {
      var next := if IsLineTerminator(s[k]) then k + 1 else lineStart;
      forall st, d | RegexMatchAt(s, st, d)
        ensures k + 1 <= d
      {
        assert lineStart == k > 0 ==> IsLineTerminator(s[k - 1]);
      }
      ScanCorrect(s, next, k + 1);
    }
  }

  /** `FindMatch` returns the match the regular-expression engine returns, and nothing
      exactly when the pattern matches nowhere. */
  lemma {:induction false} FindMatchCorrect(s: string)
    ensures FindMatch(s).Some? ==> IsFirstMatch(s, FindMatch(s).value)
    ensures FindMatch(s).None? <==> forall st, d :: !RegexMatchAt(s, st, d)
  {
    ScanCorrect(s, 0, 0);
  }

  /** On single-line text the pattern matches iff some `k >= 1` has a digit at `k` whose
      maximal run is followed by `원`; the description then starts at 0 and `k` is the
      least such index. */
  lemma {:induction false} SingleLineMatch(s: string)
    requires forall i :: 0 <= i < |s| ==> !IsLineTerminator(s[i])
    ensures FindMatch(s).Some? <==> exists k :: 1 <= k && AmountAt(s, k)
    ensures FindMatch(s).Some? ==>
              var m := FindMatch(s).value;
              m.start == 0 && 1 <= m.digits && AmountAt(s, m.digits)
              && forall k :: 1 <= k < m.digits ==> !AmountAt(s, k)
  {
    FindMatchCorrect(s);
    if exists k :: 1 <= k && AmountAt(s, k) {
      var k :| 1 <= k && AmountAt(s, k);
      assert RegexMatchAt(s, 0, k);
    }
    if FindMatch(s).Some? {
      var m := FindMatch(s).value;
      forall k | 1 <= k < m.digits
        ensures !AmountAt(s, k)
      {
        assert AmountAt(s, k) ==> RegexMatchAt(s, 0, k);
      }
    }
  }

  // ---------------------------------------------------------------------
  // Commands
  // ---------------------------------------------------------------------

  /** The `type` field of a command. */
  datatype CommandType = Expense | ViewExpenses | ViewWelfare | ViewStats | Help | Greeting | Unknown
  {
    function Name(): string
    {
      match this
      case Expense => "expense"
      case ViewExpenses => "view_expenses"
      case ViewWelfare => "view_welfare"
      case ViewStats => "view_stats"
      case Help => "help"
      case Greeting => "greeting"
      case Unknown => "unknown"
    }
  }

  /** The `data` of an expense command. */
  datatype ExpenseData = ExpenseData(description: string, amount: nat, category: Category)

  /** `{type, data}`; `data` is `None` for `null`. */
  datatype VoiceCommand = VoiceCommand(kind: CommandType, data: Option<ExpenseData>)

  /** An expense carries its data and every other command carries `null`. */
  predicate WellFormed(c: VoiceCommand)
  {
    c.data.Some? <==> c.kind == Expense
  }

  /** The expense extracted from a match: the trimmed description, the value of the digit
      run, and the category of the untrimmed description. */
  function ExpenseOf(s: string, m: Match): ExpenseData
    requires m.start <= m.digits <= |s|
  {
    var description := s[m.start..m.digits];
    var digits := s[m.digits..DigitRunEnd(s, m.digits)];
    ExpenseData(Trim(description), DecimalValue(digits), ParseCategory(description))
  }

  /** The keyword rules that follow the amount rule, in order, first hit wins. */
  function KeywordType(text: string): CommandType
  {
    if Contains(text, "가계부") || Contains(text, "지출") then ViewExpenses
    else if Contains(text, "복지") || Contains(text, "혜택") then ViewWelfare
    else if Contains(text, "통계") || Contains(text, "분석") then ViewStats
    else if Contains(text, "도움") || Contains(text, "사용법") then Help
    else if Contains(text, "안녕") || Contains(text, "금복") then Greeting
    else Unknown
  }

  /** `voiceService.parseVoiceCommand(text)`. */
  function ParseVoiceCommand(text: string): (r: VoiceCommand)
    ensures WellFormed(r)
    ensures r.kind == Expense <==> FindMatch(text).Some?
  {
    match FindMatch(text)
    case Some(m) =>
      ScanBounds(text, 0, 0);
      VoiceCommand(Expense, Some(ExpenseOf(text, m)))
    case None => VoiceCommand(KeywordType(text), None)
  }

  lemma {:induction false} ScanBounds(s: string, lineStart: nat, k: nat)
    requires lineStart <= k <= |s|
    ensures Scan(s, lineStart, k).Some? ==>
              Scan(s, lineStart, k).value.start < Scan(s, lineStart, k).value.digits < |s|
    decreases |s| - k
  {
    if k < |s| && !(lineStart < k && AmountAt(s, k)) {
      ScanBounds(s, if IsLineTerminator(s[k]) then k + 1 else lineStart, k + 1);
    }
  }

  // ---------------------------------------------------------------------
  // Properties of the interpreter
  // ---------------------------------------------------------------------

  /** A text without any amount match is classified by the keyword rules alone, in
      their fixed order: the first rule with a hit decides. */
  lemma {:induction false} KeywordPrecedence(text: string)
    requires FindMatch(text).None?
    ensures ParseVoiceCommand(text).data.None?
    ensures ParseVoiceCommand(text).kind == ViewExpenses <==> Contains(text, "가계부") || Contains(text, "지출")
    ensures ParseVoiceCommand(text).kind == ViewWelfare <==>
              !(Contains(text, "가계부") || Contains(text, "지출")) && (Contains(text, "복지") || Contains(text, "혜택"))
    ensures ParseVoiceCommand(text).kind == ViewStats <==>
              !(Contains(text, "가계부") || Contains(text, "지출")) && !(Contains(text, "복지") || Contains(text, "혜택"))
              && (Contains(text, "통계") || Contains(text, "분석"))
    ensures ParseVoiceCommand(text).kind == Help <==>
              !(Contains(text, "가계부") || Contains(text, "지출")) && !(Contains(text, "복지") || Contains(text, "혜택"))
              && !(Contains(text, "통계") || Contains(text, "분석")) && (Contains(text, "도움") || Contains(text, "사용법"))
    ensures ParseVoiceCommand(text).kind == Greeting <==>
              !(Contains(text, "가계부") || Contains(text, "지출")) && !(Contains(text, "복지") || Contains(text, "혜택"))
              && !(Contains(text, "통계") || Contains(text, "분석")) && !(Contains(text, "도움") || Contains(text, "사용법"))
              && (Contains(text, "안녕") || Contains(text, "금복"))
  {
  }

  /** Below `|pre|`, a text that begins with `pre` has the amount matches of `pre`,
      provided `pre` does not end in a digit. */
  lemma {:induction false} AmountAtPrefix(pre: string, s: string, k: nat)
    requires pre != [] && !IsDigit(pre[|pre| - 1])
    requires |pre| <= |s| && s[..|pre|] == pre
    requires k < |pre|
    ensures AmountAt(s, k) == AmountAt(pre, k)
  {
    var e := DigitRunEnd(pre, k);
    assert e < |pre|;
    assert forall i :: k <= i <= e ==> s[i] == pre[i];
    DigitRunEndUnique(s, k, e);
  }

  /** The match found in description, digits, `원` and a tail. */
  lemma {:induction false} BuiltMatch(pre: string, digits: string, post: string)
    requires pre != [] && !IsDigit(pre[|pre| - 1])
    requires forall i :: 0 <= i < |pre| ==> !IsLineTerminator(pre[i])
    requires FindMatch(pre).None?
    requires |digits| > 0 && AllDigits(digits)
    ensures var s := pre + digits + "원" + post;
            FindMatch(s) == Some(Match(0, |pre|)) && DigitRunEnd(s, |pre|) == |pre| + |digits|
  {
    var s := pre + digits + "원" + post;
    var n := |pre|;
    assert s[..n] == pre;
    assert forall i :: n <= i < n + |digits| ==> s[i] == digits[i - n];
    assert s[n + |digits|] == '원';
    DigitRunEndUnique(s, n, n + |digits|);
    assert RegexMatchAt(s, 0, n);
    SingleLineMatch(pre);
    forall k | 1 <= k < n
      ensures !AmountAt(s, k)
    {
      AmountAtPrefix(pre, s, k);
    }
    FindMatchCorrect(s);
  }

  /** Decoding an utterance built as description, digits, `원` and any tail: when the
      description is one non-empty line that holds no amount of its own and does not end
      in a digit, the command is the expense with that description trimmed, the value of
      the digits, and the category of the untrimmed description. */
  lemma {:induction false} ExpenseRoundTrip(pre: string, digits: string, post: string)
    requires pre != [] && !IsDigit(pre[|pre| - 1])
    requires forall i :: 0 <= i < |pre| ==> !IsLineTerminator(pre[i])
    requires FindMatch(pre).None?
    requires |digits| > 0 && AllDigits(digits)
    ensures ParseVoiceCommand(pre + digits + "원" + post)
            == VoiceCommand(Expense, Some(ExpenseData(Trim(pre), DecimalValue(digits), ParseCategory(pre))))
  {
    var s := pre + digits + "원" + post;
    BuiltMatch(pre, digits, post);
    var m := Match(0, |pre|);
    assert s[m.start..m.digits] == pre;
    assert s[m.digits..DigitRunEnd(s, m.digits)] == digits;
    assert ExpenseOf(s, m) == ExpenseData(Trim(pre), DecimalValue(digits), ParseCategory(pre));
  }

  /** A text without digits holds no amount. */
  lemma {:induction false} NoDigitNoMatch(s: string)
    requires forall i :: 0 <= i < |s| ==> !IsDigit(s[i])
    ensures FindMatch(s).None?
  {
    FindMatchCorrect(s);
  }

  /** A text is `unknown`, with `null` data, exactly when it holds no amount and none of
      the ten keywords. */
  lemma {:induction false} UnknownIff(text: string)
    ensures ParseVoiceCommand(text).kind == Unknown <==>
              FindMatch(text).None?
              && !Contains(text, "가계부") && !Contains(text, "지출") && !Contains(text, "복지")
              && !Contains(text, "혜택") && !Contains(text, "통계") && !Contains(text, "분석")
              && !Contains(text, "도움") && !Contains(text, "사용법") && !Contains(text, "안녕")
              && !Contains(text, "금복")
    ensures ParseVoiceCommand(text).kind == Unknown ==> ParseVoiceCommand(text).data.None?
  {
  }

  /** The empty text is `unknown`. */
  lemma EmptyIsUnknown()
    ensures ParseVoiceCommand("") == VoiceCommand(Unknown, None)
  {
  }

  /** The first characters of the keywords of the category table. */
  const KeywordInitials: set<char> := {
    '커', '음', '식', '마', '장', '빵', '우', '과', '버', '지', '택', '주', '교', '병', '약', '의',
    '치', '진', '세', '화', '샴', '비', '생', '휴', '인', '전', '통', '가', '수', '관', '영', '책',
    '게', '문'
  }

  /** Every keyword of the table is non-empty and begins with one of `KeywordInitials`. */
  lemma {:induction false} KeywordInitialsCover(r: nat, j: nat)
    requires r < |CategoryTable| && j < |CategoryTable[r].1|
    ensures CategoryTable[r].1[j] != [] && CategoryTable[r].1[j][0] in KeywordInitials
  {
  }

  /** A description holding none of the keywords' first characters is `기타`. */
  lemma {:induction false} NoInitialIsOther(text: string)
    requires forall i :: 0 <= i < |text| ==> text[i] !in KeywordInitials
    ensures ParseCategory(text) == Other
  {
    forall r, j | 0 <= r < |CategoryTable| && 0 <= j < |CategoryTable[r].1|
      ensures !Contains(text, CategoryTable[r].1[j])
    {
      KeywordInitialsCover(r, j);
      AbsentFirstChar(text, CategoryTable[r].1[j]);
    }
  }

  /** No keyword of row `r` of the category table starts with a character of `text`. */
  lemma {:induction false} AbsentFirstCharOfRow(text: string, r: nat)
    requires r < |CategoryTable|
    requires forall i, j :: 0 <= i < |text| && 0 <= j < |CategoryTable[r].1| ==> text[i] != CategoryTable[r].1[j][0]
    ensures !AnyKeyword(CategoryTable[r].1, text)
  {
    forall j | 0 <= j < |CategoryTable[r].1|
      ensures !Contains(text, CategoryTable[r].1[j])
    {
      AbsentFirstChar(text, CategoryTable[r].1[j]);
    }
  }

  // ---------------------------------------------------------------------
  // Responses
  // ---------------------------------------------------------------------

  const ViewExpensesReply := "가계부 화면으로 이동합니다."
  const ViewWelfareReply := "복지서비스 화면으로 이동합니다."
  const ViewStatsReply := "통계 화면으로 이동합니다."
  const HelpReply := "음성으로 \"커피 5000원 샀어\"라고 말하면 지출이 자동으로 등록됩니다. 가계부 보기, 복지서비스 확인 등도 가능합니다."
  const GreetingReply := "안녕하세요! 금복입니다. 무엇을 도와드릴까요?"
  const UnknownReply := "잘 이해하지 못했습니다. 다시 말씀해 주세요."

  /** The canned reply of a command kind other than `expense`. */
  function FixedReply(kind: CommandType): string
    requires kind != Expense
  {
    match kind
    case ViewExpenses => ViewExpensesReply
    case ViewWelfare => ViewWelfareReply
    case ViewStats => ViewStatsReply
    case Help => HelpReply
    case Greeting => GreetingReply
    case Unknown => UnknownReply
  }

  /** `voiceService.generateResponse(command)`. An expense reply interpolates the
      description, the amount followed by `원`, and the category label. */
  function GenerateResponse(c: VoiceCommand): (r: string)
    requires WellFormed(c)
    ensures c.kind == Expense ==>
              var e := c.data.value;
              StartsWith(r, e.description + " " + NatToString(e.amount) + "원")
              && Contains(r, e.category.Label() + " 항목으로 등록되었습니다.")
    ensures c.kind != Expense ==> r == FixedReply(c.kind)
  {
    match c.kind
    case Expense =>
      var e := c.data.value;
      var head := e.description + " " + NatToString(e.amount) + "원";
      var tail := e.category.Label() + " 항목으로 등록되었습니다.";
      var r := head + "이 " + tail;
      StartsWithIff(r, head);
      assert r[..|head|] == head;
      ContainsIff(r, tail);
      assert r[|head + "이 "|..|head + "이 "| + |tail|] == tail;
      assert OccursAt(r, tail, |head + "이 "|);
      r
    case _ => FixedReply(c.kind)
  }

  /** The six canned replies differ, so a reply other than an expense's tells which kind
      of command was understood. */
  lemma FixedRepliesDistinct(a: CommandType, b: CommandType)
    requires a != Expense && b != Expense
    requires FixedReply(a) == FixedReply(b)
    ensures a == b
  {
  }

  /** Every command the interpreter produces can be answered: its response is defined,
      and a text with no amount and no keyword gets the "didn't understand" reply. */
  lemma {:induction false} EveryParseIsAnswered(text: string)
    ensures WellFormed(ParseVoiceCommand(text))
    ensures ParseVoiceCommand(text).kind == Unknown ==> GenerateResponse(ParseVoiceCommand(text)) == UnknownReply
  {
  }
}
