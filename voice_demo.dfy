/**
 * The interpreter's result on the demonstration utterances of the voice demo
 * panel and of the simulated recogniser. Each worked example is split into
 * the few facts about its pieces, proved one by one, and the general lemmas
 * of `VoiceService` that combine them. The last two examples compare the
 * interpreter with the home router and the voice button's reply.
 */
module VoiceDemo {
  import opened Wrappers
  import opened JsStrings
  import opened VoiceService
  import Home
  import VoiceButton

  /** One line without digits that does not start the amount: the shape of every
      description in the worked examples. */
  predicate PlainDescription(pre: string)
  {
    pre != [] && forall i :: 0 <= i < |pre| ==> !IsDigit(pre[i]) && !IsLineTerminator(pre[i])
  }

  /** An utterance made of a plain description, a digit run, `원` and a tail is the
      expense with the given trimmed description, amount and category. */
  lemma {:induction false} ExpenseUtterance(pre: string, digits: string, post: string,
                                           description: string, amount: nat, category: Category)
    requires PlainDescription(pre)
    requires |digits| > 0 && AllDigits(digits)
    requires Trim(pre) == description && DecimalValue(digits) == amount && ParseCategory(pre) == category
    ensures ParseVoiceCommand(pre + digits + "원" + post)
            == VoiceCommand(Expense, Some(ExpenseData(description, amount, category)))
  {
    NoDigitNoMatch(pre);
    ExpenseRoundTrip(pre, digits, post);
  }

  /** An utterance without an amount is answered by the keyword rules. */
  lemma {:induction false} KeywordUtterance(text: string, kind: CommandType)
    requires forall i :: 0 <= i < |text| ==> !IsDigit(text[i])
    requires KeywordType(text) == kind
    ensures ParseVoiceCommand(text) == VoiceCommand(kind, None)
  {
    NoDigitNoMatch(text);
  }

  // ---------------------------------------------------------------------
  // '커피 5000원 샀어'
  // ---------------------------------------------------------------------

  lemma Value5000()
    ensures AllDigits("5000") && DecimalValue("5000") == 5000
  {
    assert "5000"[..3] == "500" && "500"[..2] == "50" && "50"[..1] == "5" && "5"[..0] == [];
  }

  lemma CoffeeDescription()
    ensures PlainDescription("커피 ") && Trim("커피 ") == "커피"
  {
    TrimDropsTrailingSpace("커피");
    assert "커피 " == "커피" + " ";
  }

  lemma CoffeeCategory()
    ensures ParseCategory("커피 ") == Groceries
  {
    assert Contains("커피 ", CategoryTable[0].1[0]);
    assert AnyKeyword(CategoryTable[0].1, "커피 ");
  }

  lemma CoffeePieces()
    ensures ParseVoiceCommand("커피 " + "5000" + "원" + " 샀어")
            == VoiceCommand(Expense, Some(ExpenseData("커피", 5000, Groceries)))
  {
    CoffeeDescription();
    CoffeeCategory();
    Value5000();
    ExpenseUtterance("커피 ", "5000", " 샀어", "커피", 5000, Groceries);
  }

  lemma CoffeeText()
    ensures "커피 5000원 샀어" == "커피 " + "5000" + "원" + " 샀어"
  {
  }

  /** `'커피 5000원 샀어'` records 5000 for `커피` under `식료품`. */
  lemma CoffeeExample()
    ensures ParseVoiceCommand("커피 5000원 샀어")
            == VoiceCommand(Expense, Some(ExpenseData("커피", 5000, Groceries)))
  {
    CoffeePieces();
    CoffeeText();
  }

  // ---------------------------------------------------------------------
  // '버스카드 충전 10000원'
  // ---------------------------------------------------------------------

  lemma Value10000()
    ensures AllDigits("10000") && DecimalValue("10000") == 10000
  {
    assert "10000"[..4] == "1000" && "1000"[..3] == "100" && "100"[..2] == "10"
           && "10"[..1] == "1" && "1"[..0] == [];
  }

  lemma BusCardDescription()
    ensures PlainDescription("버스카드 충전 ") && Trim("버스카드 충전 ") == "버스카드 충전"
  {
    assert "버스카드 충전"[6] == '전';
    TrimDropsTrailingSpace("버스카드 충전");
    assert "버스카드 충전 " == "버스카드 충전" + " ";
  }

  lemma BusCardCategory()
    ensures ParseCategory("버스카드 충전 ") == Transport
  {
    AbsentFirstCharOfRow("버스카드 충전 ", 0);
    assert Contains("버스카드 충전 ", CategoryTable[1].1[0]);
    assert AnyKeyword(CategoryTable[1].1, "버스카드 충전 ");
  }

  lemma BusCardPieces()
    ensures ParseVoiceCommand("버스카드 충전 " + "10000" + "원" + "")
            == VoiceCommand(Expense, Some(ExpenseData("버스카드 충전", 10000, Transport)))
  {
    BusCardDescription();
    BusCardCategory();
    Value10000();
    ExpenseUtterance("버스카드 충전 ", "10000", "", "버스카드 충전", 10000, Transport);
  }

  lemma BusCardText()
    ensures "버스카드 충전 10000원" == "버스카드 충전 " + "10000" + "원" + ""
  {
  }

  /** `'버스카드 충전 10000원'` is filed under `교통비`. */
  lemma BusCardExample()
    ensures ParseVoiceCommand("버스카드 충전 10000원")
            == VoiceCommand(Expense, Some(ExpenseData("버스카드 충전", 10000, Transport)))
  {
    BusCardPieces();
    BusCardText();
  }

  // ---------------------------------------------------------------------
  // '병원비 15000원 결제'
  // ---------------------------------------------------------------------

  lemma Value15000()
    ensures AllDigits("15000") && DecimalValue("15000") == 15000
  {
    assert "15000"[..4] == "1500" && "1500"[..3] == "150" && "150"[..2] == "15"
           && "15"[..1] == "1" && "1"[..0] == [];
  }

  lemma HospitalDescription()
    ensures PlainDescription("병원비 ") && Trim("병원비 ") == "병원비"
  {
    TrimDropsTrailingSpace("병원비");
    assert "병원비 " == "병원비" + " ";
  }

  lemma HospitalCategory()
    ensures ParseCategory("병원비 ") == Medical
  {
    AbsentFirstCharOfRow("병원비 ", 0);
    AbsentFirstCharOfRow("병원비 ", 1);
    assert Contains("병원비 ", CategoryTable[2].1[0]);
    assert AnyKeyword(CategoryTable[2].1, "병원비 ");
  }

  lemma HospitalPieces()
    ensures ParseVoiceCommand("병원비 " + "15000" + "원" + " 결제")
            == VoiceCommand(Expense, Some(ExpenseData("병원비", 15000, Medical)))
  {
    HospitalDescription();
    HospitalCategory();
    Value15000();
    ExpenseUtterance("병원비 ", "15000", " 결제", "병원비", 15000, Medical);
  }

  lemma HospitalText()
    ensures "병원비 15000원 결제" == "병원비 " + "15000" + "원" + " 결제"
  {
  }

  /** `'병원비 15000원 결제'` is filed under `의료비`. */
  lemma HospitalExample()
    ensures ParseVoiceCommand("병원비 15000원 결제")
            == VoiceCommand(Expense, Some(ExpenseData("병원비", 15000, Medical)))
  {
    HospitalPieces();
    HospitalText();
  }

  // ---------------------------------------------------------------------
  // '점심 12000원 지출'
  // ---------------------------------------------------------------------

  lemma Value12000()
    ensures AllDigits("12000") && DecimalValue("12000") == 12000
  {
    assert "12000"[..4] == "1200" && "1200"[..3] == "120" && "120"[..2] == "12"
           && "12"[..1] == "1" && "1"[..0] == [];
  }

  lemma LunchDescription()
    ensures PlainDescription("점심 ") && Trim("점심 ") == "점심"
  {
    TrimDropsTrailingSpace("점심");
    assert "점심 " == "점심" + " ";
  }

  lemma LunchCategory()
    ensures ParseCategory("점심 ") == Other
  {
    NoInitialIsOther("점심 ");
  }

  lemma LunchPieces()
    ensures ParseVoiceCommand("점심 " + "12000" + "원" + " 지출")
            == VoiceCommand(Expense, Some(ExpenseData("점심", 12000, Other)))
  {
    LunchDescription();
    LunchCategory();
    Value12000();
    ExpenseUtterance("점심 ", "12000", " 지출", "점심", 12000, Other);
  }

  lemma LunchText()
    ensures "점심 12000원 지출" == "점심 " + "12000" + "원" + " 지출"
  {
  }

  lemma LunchMentionsSpending()
    ensures Contains("점심 12000원 지출", "지출")
  {
    ContainsInContext("점심 12000원 ", "지출", "", "지출");
    assert "점심 12000원 지출" == "점심 12000원 " + "지출" + "";
  }

  /** `'점심 12000원 지출'` is an expense filed under `기타`, although it contains `지출`:
      the amount rule comes before the keyword rules. */
  lemma LunchExample()
    ensures ParseVoiceCommand("점심 12000원 지출")
            == VoiceCommand(Expense, Some(ExpenseData("점심", 12000, Other)))
    ensures Contains("점심 12000원 지출", "지출")
  {
    LunchPieces();
    LunchText();
    LunchMentionsSpending();
  }

  // ---------------------------------------------------------------------
  // '5000원'
  // ---------------------------------------------------------------------

  lemma LeadingMatch()
    ensures FindMatch("5000원") == Some(Match(0, 1))
    ensures DigitRunEnd("5000원", 1) == 4
  {
    assert AmountAt("5000원", 1);
  }

  lemma Value000()
    ensures AllDigits("000") && DecimalValue("000") == 0
  {
    assert "000"[..2] == "00" && "00"[..1] == "0" && "0"[..0] == [];
  }

  lemma LeadingDescription()
    ensures Trim("5") == "5"
  {
    TrimKeeps("5");
  }

  lemma LeadingCategory()
    ensures ParseCategory("5") == Other
  {
    NoInitialIsOther("5");
  }

  lemma LeadingSlices()
    ensures "5000원"[0..1] == "5" && "5000원"[1..4] == "000"
  {
  }

  lemma LeadingCommand()
    ensures ParseVoiceCommand("5000원") == VoiceCommand(Expense, Some(ExpenseOf("5000원", Match(0, 1))))
  {
    LeadingMatch();
  }

  lemma LeadingExpenseData()
    ensures ExpenseOf("5000원", Match(0, 1)) == ExpenseData("5", 0, Other)
  {
    LeadingMatch();
    LeadingSlices();
    LeadingDescription();
    LeadingCategory();
    Value000();
  }

  /** `"5000원"` has to give the description group at least one character, so the
      command records `"5"` and the amount 0. */
  lemma LeadingAmountSplit()
    ensures ParseVoiceCommand("5000원") == VoiceCommand(Expense, Some(ExpenseData("5", 0, Other)))
  {
    LeadingCommand();
    LeadingExpenseData();
  }

  // ---------------------------------------------------------------------
  // ' 5000원'
  // ---------------------------------------------------------------------

  lemma BlankDescription()
    ensures PlainDescription(" ") && Trim(" ") == ""
  {
    assert IsWhiteSpace(" "[0]) && " "[1..] == [];
    assert TrimStart(" ") == [];
  }

  lemma BlankCategory()
    ensures ParseCategory(" ") == Other
  {
    NoInitialIsOther(" ");
  }

  lemma BlankPieces()
    ensures ParseVoiceCommand(" " + "5000" + "원" + "") == VoiceCommand(Expense, Some(ExpenseData("", 5000, Other)))
  {
    BlankDescription();
    BlankCategory();
    Value5000();
    ExpenseUtterance(" ", "5000", "", "", 5000, Other);
  }

  lemma BlankText()
    ensures " 5000원" == " " + "5000" + "원" + ""
  {
  }

  /** A description of white space alone is matched and trimmed away, so the
      command records the empty description. */
  lemma BlankDescriptionExample()
    ensures ParseVoiceCommand(" 5000원") == VoiceCommand(Expense, Some(ExpenseData("", 5000, Other)))
  {
    BlankPieces();
    BlankText();
  }

  // ---------------------------------------------------------------------
  // Keyword utterances
  // ---------------------------------------------------------------------

  lemma LedgerKeyword()
    ensures KeywordType("가계부 보여줘") == ViewExpenses
  {
  }

  lemma WelfareKeyword()
    ensures KeywordType("복지서비스 알려줘") == ViewWelfare
  {
    AbsentFirstChar("복지서비스 알려줘", "가계부");
    AbsentFirstPair("복지서비스 알려줘", "지출");
  }

  /** `'가계부 보여줘'` opens the ledger. */
  lemma LedgerExample()
    ensures ParseVoiceCommand("가계부 보여줘") == VoiceCommand(ViewExpenses, None)
  {
    LedgerKeyword();
    KeywordUtterance("가계부 보여줘", ViewExpenses);
  }

  /** `'복지서비스 알려줘'` opens the welfare list. */
  lemma WelfareExample()
    ensures ParseVoiceCommand("복지서비스 알려줘") == VoiceCommand(ViewWelfare, None)
  {
    WelfareKeyword();
    WelfareNoDigit();
    KeywordUtterance("복지서비스 알려줘", ViewWelfare);
  }

  lemma WelfareNoDigit()
    ensures forall i :: 0 <= i < |"복지서비스 알려줘"| ==> !IsDigit("복지서비스 알려줘"[i])
  {
  }

  lemma GreetingKeyword()
    ensures KeywordType("금복아 안녕") == Greeting
  {
    var s := "금복아 안녕";
    AbsentFirstChar(s, "가계부");
    AbsentFirstChar(s, "지출");
    AbsentFirstPair(s, "복지");
    AbsentFirstChar(s, "혜택");
    AbsentFirstChar(s, "통계");
    AbsentFirstChar(s, "분석");
    AbsentFirstChar(s, "도움");
    AbsentFirstChar(s, "사용법");
    assert s[4..] == "안녕";
  }

  /** `'금복아 안녕'` is a greeting. */
  lemma GreetingExample()
    ensures ParseVoiceCommand("금복아 안녕") == VoiceCommand(Greeting, None)
  {
    GreetingKeyword();
    KeywordUtterance("금복아 안녕", Greeting);
  }

  /** `"마트에서 장보기"` is `식료품`. */
  lemma MarketCategory()
    ensures ParseCategory("마트에서 장보기") == Groceries
  {
    assert Contains("마트에서 장보기", CategoryTable[0].1[3]);
    assert AnyKeyword(CategoryTable[0].1, "마트에서 장보기");
  }

  /** `"아무거나"` is `기타`. */
  lemma AnythingCategory()
    ensures ParseCategory("아무거나") == Other
  {
    NoInitialIsOther("아무거나");
  }

  // ---------------------------------------------------------------------
  // The home router and the voice button on the demonstration utterances
  // ---------------------------------------------------------------------

  /** "점심 12000원 지출" is an expense to the interpreter, and the router opens the ledger. */
  lemma LunchRoutedToLedger()
    ensures Home.HandleVoiceCommand("점심 12000원 지출") == Some(Home.Expenses)
    ensures ParseVoiceCommand("점심 12000원 지출").kind == Expense
  {
    LunchExample();
  }

  // ---------------------------------------------------------------------
  // "금복아 안녕": the button starts a chat before it would greet, while the
  // interpreter reads a greeting.
  // ---------------------------------------------------------------------

  const ChatGreeting := "금복아 안녕"

  /** Of the router's keywords, `'금복아 안녕'` holds only the chat one. */
  lemma ChatGreetingKeywords()
    ensures !Home.MentionsLedger(ChatGreeting) && !Home.MentionsWelfare(ChatGreeting) && Home.MentionsChat(ChatGreeting)
  {
    var s := ChatGreeting;
    assert forall i :: 0 <= i < |s| ==> s[i] in {'금', '복', '아', ' ', '안', '녕'};
    AbsentFirstChar(s, "가계부");
    AbsentFirstChar(s, "지출");
    AbsentFirstPair(s, "복지");
    AbsentFirstChar(s, "혜택");
    assert StartsWith(s, "금복");
  }

  /** `'금복아 안녕'`, a demo command, gets the chat-start reply from the button and the
      greeting from `generateResponse`. */
  lemma ChatBeforeGreeting()
    ensures VoiceButton.SpeakResponse(ChatGreeting) == VoiceButton.ChatReply
    ensures GenerateResponse(ParseVoiceCommand(ChatGreeting)) == VoiceButton.HelloReply
    ensures VoiceButton.ChatReply != VoiceButton.HelloReply
  {
    ChatGreetingKeywords();
    GreetingExample();
    VoiceButton.RepliesDistinct();
  }
}
