/**
 * The chat screen's state: the message list, the text in the input box and
 * the listening flag, with the handlers that change them. The two timer
 * callbacks of the source (the bot's reply after a send, the dictated text
 * after listening starts) are methods the environment calls later.
 */
module Chatbot {
  import opened JsStrings

  /** One bubble of the conversation; the timestamp is not modelled. */
  datatype Message = Message(id: string, text: string, isUser: bool)

  const GreetingText := "안녕하세요! 금복입니다. 무엇을 도와드릴까요?"
  const BotReplyText := "죄송합니다. 현재 개발 중인 기능입니다. 조금만 기다려주세요."
  const DictatedText := "음성 인식 결과가 여기 표시됩니다"

  /** The list the screen starts with. */
  const GreetingMessage := Message("1", GreetingText, false)

  /** A conversation as the screen builds it: it opens with the greeting, and none of
      the user's messages is blank. */
  predicate Conversation(ms: seq<Message>)
  {
    |ms| > 0 && ms[0] == GreetingMessage
    && forall i :: 0 <= i < |ms| && ms[i].isUser ==> Trim(ms[i].text) != []
  }

  /** Appending a bot message, or a user message that is not blank, keeps a conversation. */
  lemma {:induction false} AppendKeepsConversation(ms: seq<Message>, m: Message)
    requires Conversation(ms)
    requires m.isUser ==> Trim(m.text) != []
    ensures Conversation(ms + [m])
    ensures (ms + [m])[..|ms|] == ms
  {
    var ms' := ms + [m];
    forall i | 0 <= i < |ms'| && ms'[i].isUser ensures Trim(ms'[i].text) != [] {
      if i < |ms| {
        assert ms'[i] == ms[i];
      }
    }
    assert ms'[0] == ms[0];
  }

  /** The dictated text is not blank, so a send right after dictation goes through. */
  lemma DictatedTextSendable()
    ensures Trim(DictatedText) != []
  {
    assert DictatedText[0] == '음';
    NotBlank(DictatedText);
  }

  /** A text that begins with a character other than white space is not blank. */
  lemma NotBlank(s: string)
    requires |s| > 0 && !IsWhiteSpace(s[0])
    ensures Trim(s) != []
  {
    TrimEmptyIff(s);
  }

  class ChatbotScreen {
    var messages: seq<Message>
    var inputText: string
    var isListening: bool

    ghost predicate Valid()
      reads this
    {
      Conversation(messages)
    }

    /** The screen once its mount effect has set the greeting. */
    constructor()
      ensures messages == [GreetingMessage] && inputText == "" && !isListening
      ensures Valid()
    {
      messages := [GreetingMessage];
      inputText := "";
      isListening := false;
    }

    /** `onChangeText={setInputText}`. */
    method SetInputText(text: string)
      modifies this
      ensures inputText == text
      ensures messages == old(messages) && isListening == old(isListening)
      ensures old(Valid()) ==> Valid()
    {
      inputText := text;
    }

    /** `sendMessage`: a blank input is ignored; otherwise the untrimmed input is
        appended as the user's message and the box is cleared. */
    method SendMessage(id: string) returns (sent: bool)
      modifies this
      ensures sent <==> Trim(old(inputText)) != []
      ensures !sent ==> messages == old(messages) && inputText == old(inputText)
      ensures sent ==> messages == old(messages) + [Message(id, old(inputText), true)] && inputText == ""
      ensures isListening == old(isListening)
      ensures old(Valid()) ==> Valid()
    {
      if Trim(inputText) == [] {
        return false;
      }
      var m := Message(id, inputText, true);
      if Valid() {
        AppendKeepsConversation(messages, m);
      }
      messages := messages + [m];
      inputText := "";
      sent := true;
    }

    /** The deferred step of `sendMessage`: the bot's fixed answer is appended. */
    method ReceiveBotReply(id: string)
      modifies this
      ensures messages == old(messages) + [Message(id, BotReplyText, false)]
      ensures inputText == old(inputText) && isListening == old(isListening)
      ensures old(Valid()) ==> Valid()
    {
      if Valid() {
        AppendKeepsConversation(messages, Message(id, BotReplyText, false));
      }
      messages := messages + [Message(id, BotReplyText, false)];
    }

    /** `toggleListening`: flips the flag; a dictation timer is started exactly when
        listening was off, which `started` reports. */
    method ToggleListening() returns (started: bool)
      modifies this
      ensures isListening == !old(isListening)
      ensures started <==> !old(isListening)
      ensures messages == old(messages) && inputText == old(inputText)
      ensures old(Valid()) ==> Valid()
    {
      started := !isListening;
      isListening := !isListening;
    }

    /** The dictation timer firing: listening stops and the dictated text fills the box. */
    method FinishListening()
      modifies this
      ensures !isListening && inputText == DictatedText
      ensures messages == old(messages)
      ensures old(Valid()) ==> Valid()
    {
      isListening := false;
      inputText := DictatedText;
    }
  }
}
