/**
 * The voice button's choice of what to say back: `speakResponse`, a keyword
 * chain with a default reply, applied to the first recognition alternative in
 * `onSpeechResults`. The speech synthesis call itself is not part of the model.
 */
module VoiceButton {
  import opened Wrappers
  import opened JsStrings
  import opened VoiceService
  import opened Home

  const DefaultReply := "무엇을 도와드릴까요?"
  const LedgerReply := "가계부 화면으로 이동합니다."
  const WelfareReply := "복지서비스 화면으로 이동합니다."
  const ChatReply := "금복이와 대화를 시작합니다."
  const HelloReply := "안녕하세요! 금복입니다. 무엇을 도와드릴까요?"

  /** `speakResponse(text)`: the reply spoken for a recognised text. */
  function SpeakResponse(text: string): (r: string)
    ensures r == DefaultReply <==>
              !MentionsLedger(text) && !MentionsWelfare(text) && !MentionsChat(text) && !Contains(text, "안녕")
  {
    RepliesDistinct();
    if MentionsLedger(text) then LedgerReply
    else if MentionsWelfare(text) then WelfareReply
    else if MentionsChat(text) then ChatReply
    else if Contains(text, "안녕") then HelloReply
    else DefaultReply
  }

  /** The five replies are different texts. */
  lemma RepliesDistinct()
    ensures DefaultReply != LedgerReply && DefaultReply != WelfareReply && DefaultReply != ChatReply
    ensures DefaultReply != HelloReply && LedgerReply != WelfareReply && LedgerReply != ChatReply
    ensures LedgerReply != HelloReply && WelfareReply != ChatReply && WelfareReply != HelloReply
    ensures ChatReply != HelloReply
  {
    assert DefaultReply[0] == '무' && LedgerReply[0] == '가' && WelfareReply[0] == '복';
    assert ChatReply[0] == '금' && HelloReply[0] == '안';
  }

  /** The reply announces the screen the home router opens for the same text: the
      two chains test the same keywords in the same order. */
  lemma {:induction false} ReplyAnnouncesRoute(text: string)
    ensures SpeakResponse(text) == LedgerReply <==> HandleVoiceCommand(text) == Some(Expenses)
    ensures SpeakResponse(text) == WelfareReply <==> HandleVoiceCommand(text) == Some(Welfare)
    ensures SpeakResponse(text) == ChatReply <==> HandleVoiceCommand(text) == Some(Chatbot)
    ensures HandleVoiceCommand(text).None? ==> SpeakResponse(text) == HelloReply || SpeakResponse(text) == DefaultReply
  {
    RepliesDistinct();
  }

  /** On a text without an amount, the ledger and the welfare replies are the ones
      `generateResponse` gives for the interpreter's reading of the text. */
  lemma {:induction false} AgreesWithInterpreter(text: string)
    requires FindMatch(text).None?
    requires MentionsLedger(text) || MentionsWelfare(text)
    ensures SpeakResponse(text) == GenerateResponse(ParseVoiceCommand(text))
  {
    KeywordPrecedence(text);
  }

  /** The text handled, `event.value[0]`: absent when there is no alternative. */
  function RecognizedText(values: seq<string>): (r: Option<string>)
    ensures r.Some? <==> |values| > 0
    ensures r.Some? ==> r.value == values[0]
  {
    if |values| > 0 then Some(values[0]) else None
  }

  /** The reply `onSpeechResults` speaks; `None` where the source has no text to read. */
  function OnSpeechResults(values: seq<string>): (r: Option<string>)
    ensures r.Some? <==> |values| > 0
  {
    match RecognizedText(values)
    case Some(text) => Some(SpeakResponse(text))
    case None => None
  }

  /** Only the first alternative decides the reply. */
  lemma FirstAlternativeDecides(first: string, rest: seq<string>)
    ensures OnSpeechResults([first] + rest) == Some(SpeakResponse(first))
  {
    assert ([first] + rest)[0] == first;
  }
}
