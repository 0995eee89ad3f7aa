/**
 * The home screen's decisions: `handleVoiceCommand`, the keyword router that
 * picks the screen to open for a recognised command, and the unread badge on
 * the notification icon.
 */
module Home {
  import opened Wrappers
  import opened JsStrings
  import opened Seqs
  import opened VoiceService

  /** A screen the router can open. */
  datatype Route = Expenses | Welfare | Chatbot
  {
    /** The path passed to `router.push`. */
    function Path(): string
    {
      match this
      case Expenses => "/expenses"
      case Welfare => "/welfare"
      case Chatbot => "/chatbot"
    }
  }

  predicate MentionsLedger(text: string)
  {
    Contains(text, "가계부") || Contains(text, "지출")
  }

  predicate MentionsWelfare(text: string)
  {
    Contains(text, "복지") || Contains(text, "혜택")
  }

  predicate MentionsChat(text: string)
  {
    Contains(text, "금복") || Contains(text, "대화")
  }

  /** `handleVoiceCommand`: the screen it pushes, or `None` when it navigates nowhere. */
  function HandleVoiceCommand(command: string): (r: Option<Route>)
    ensures r.None? <==> !MentionsLedger(command) && !MentionsWelfare(command) && !MentionsChat(command)
  {
    if MentionsLedger(command) then Some(Expenses)
    else if MentionsWelfare(command) then Some(Welfare)
    else if MentionsChat(command) then Some(Chatbot)
    else None
  }

  /** The three rules fire in a fixed order and the first hit wins. */
  lemma RouteOrder(command: string)
    ensures HandleVoiceCommand(command) == Some(Expenses) <==> MentionsLedger(command)
    ensures HandleVoiceCommand(command) == Some(Welfare) <==> !MentionsLedger(command) && MentionsWelfare(command)
    ensures HandleVoiceCommand(command) == Some(Chatbot)
            <==> !MentionsLedger(command) && !MentionsWelfare(command) && MentionsChat(command)
  {
  }

  /** The three routes lead to three different paths. */
  lemma PathsDistinct(a: Route, b: Route)
    requires a != b
    ensures a.Path() != b.Path()
  {
    assert a.Path()[1] != b.Path()[1];
  }

  /** On a text without an amount, the router and the interpreter agree on the ledger
      and the welfare screen; the interpreter has rules the router lacks. */
  lemma {:induction false} RouterAgreesWithInterpreter(command: string)
    requires FindMatch(command).None?
    ensures HandleVoiceCommand(command) == Some(Expenses) <==> ParseVoiceCommand(command).kind == ViewExpenses
    ensures HandleVoiceCommand(command) == Some(Welfare) <==> ParseVoiceCommand(command).kind == ViewWelfare
  {
    KeywordPrecedence(command);
  }

  /** A text the interpreter reads as an expense is still routed by its keywords alone. */
  lemma {:induction false} RouterIgnoresAmounts(command: string)
    requires MentionsLedger(command)
    ensures HandleVoiceCommand(command) == Some(Expenses)
    ensures ParseVoiceCommand(command).kind == Expense || ParseVoiceCommand(command).kind == ViewExpenses
  {
    if FindMatch(command).None? {
      KeywordPrecedence(command);
    }
  }

  // ---------------------------------------------------------------------
  // Example: statistics are not routed.
  // ---------------------------------------------------------------------

  const StatsCommand := "통계 보여줘"

  lemma StatsMentionsNoScreen()
    ensures !MentionsLedger(StatsCommand) && !MentionsWelfare(StatsCommand) && !MentionsChat(StatsCommand)
  {
    var s := StatsCommand;
    assert forall i :: 0 <= i < |s| ==> s[i] in {'통', '계', ' ', '보', '여', '줘'};
    AbsentFirstChar(s, "가계부");
    AbsentFirstChar(s, "지출");
    AbsentFirstChar(s, "복지");
    AbsentFirstChar(s, "혜택");
    AbsentFirstChar(s, "금복");
    AbsentFirstChar(s, "대화");
  }

  lemma StatsParsed()
    ensures ParseVoiceCommand(StatsCommand) == VoiceCommand(ViewStats, None)
  {
    var s := StatsCommand;
    assert forall i :: 0 <= i < |s| ==> !IsDigit(s[i]);
    NoDigitNoMatch(s);
    StatsMentionsNoScreen();
    AbsentFirstChar(s, "가계부");
    AbsentFirstChar(s, "지출");
    assert StartsWith(s, "통계");
  }

  /** "통계 보여줘" is a statistics request to the interpreter, but the router opens nothing. */
  lemma StatsNotRouted()
    ensures HandleVoiceCommand(StatsCommand) == None
    ensures ParseVoiceCommand(StatsCommand).kind == ViewStats
  {
    StatsMentionsNoScreen();
    StatsParsed();
  }

  // ---------------------------------------------------------------------
  // The unread badge
  // ---------------------------------------------------------------------

  datatype Notification = Notification(id: int, title: string, content: string, isRead: bool)

  /** The one notification of the screen's sample dashboard. */
  const SampleNotifications := [Notification(1, "복지서비스 알림", "새로운 노인복지 혜택이 있습니다.", false)]

  function Unread(): Notification -> bool
  {
    (n: Notification) => !n.isRead
  }

  /** `notifications.filter(n => !n.isRead).length > 0`. */
  function ShowBadge(notifications: seq<Notification>): (b: bool)
    ensures b <==> exists i :: 0 <= i < |notifications| && !notifications[i].isRead
  {
    var unread := Filter(Unread(), notifications);
    if |unread| > 0 then
      assert unread[0] in notifications && Unread()(unread[0]);
      true
    else
      false
  }

  /** The sample dashboard shows the badge. */
  lemma SampleShowsBadge()
    ensures ShowBadge(SampleNotifications)
  {
    assert !SampleNotifications[0].isRead;
  }
}
