/** The account health chat (src/components/chat/AccountHealthAgent.tsx): the
    message list, the send transitions around the remote call with its
    ten-message history, and the splitting of a reply into paragraphs. The
    remote call is an outcome passed in, success with a reply or failure. */
module AccountHealthAgent {

  import opened Wrappers
  import opened Seqs
  import opened Text

  datatype Role = User | Assistant

  /** Lines 11-16, without the generated id and the timestamp. */
  datatype Message = Message(role: Role, content: string)

  /** An entry of the history sent with a question (lines 87-90). */
  datatype HistoryEntry = HistoryEntry(role: Role, content: string)

  /** What is sent to the remote function (lines 91-96). */
  datatype Request = Request(message: string, conversationHistory: seq<HistoryEntry>)

  /** How the remote call ends: a reply, or an error (thrown or returned). */
  datatype Outcome = Replied(response: string) | Failed

  const HistoryWindow: nat := 10

  /** Lines 40-56. */
  const WelcomeMessage: Message := Message(Assistant,
    "Hello! I'm your Account Health Agent. I have access to your complete account data and can help you with:\n\n" +
    "\U{2022} **Account Performance Analysis** - Review your current health metrics and trends\n" +
    "\U{2022} **Issue Resolution** - Get guidance on active cases and how to resolve them\n" +
    "\U{2022} **Risk Assessment** - Identify potential threats to your account standing\n" +
    "\U{2022} **Policy Guidance** - Understand Amazon policies and compliance requirements\n" +
    "\U{2022} **Strategic Recommendations** - Actionable advice to improve your account health\n\n" +
    "Your current account health score is **978/1000** (Healthy status). You have **4 active cases** that need attention.\n\n" +
    "What would you like to know about your account today?")

  /** Lines 112-117. */
  const ErrorReply := "I apologize, but I encountered an error processing your request. Please try again in a moment."

  /** Lines 59-66. */
  const QuickQuestions: seq<string> := [
    "What's my biggest risk right now?",
    "How can I improve my ODR?",
    "Show me my urgent cases",
    "What should I prioritize today?",
    "Help me understand my health score",
    "Analyze my recent performance"
  ]

  /** Line 69: `messageContent || inputValue.trim()`: a non-empty quick
      question is sent as it is, otherwise the trimmed input. */
  function SendContent(messageContent: Option<string>, inputValue: string): (content: string)
    ensures messageContent.Some? && messageContent.value != "" ==> content == messageContent.value
    ensures content == "" <==> (messageContent.None? || messageContent.value == "") && AllWhitespace(inputValue)
  {
    TrimEmpty(inputValue);
    if messageContent.Some? && messageContent.value != "" then messageContent.value else Trim(inputValue)
  }

  /** Typed input made only of Unicode spaces, such as the ideographic space
      or an em space, trims to nothing, so no message goes out. */
  lemma SpaceOnlyInputNotSent(inputValue: string)
    requires forall i :: 0 <= i < |inputValue| ==> inputValue[i] in {'\U{3000}', '\U{2003}', '\U{00A0}', '\U{2028}'}
    ensures SendContent(None, inputValue) == ""
  {
    assert AllWhitespace(inputValue);
  }

  function ToEntry(m: Message): HistoryEntry
  {
    HistoryEntry(m.role, m.content)
  }

  /** Lines 87-90: the last ten messages, reduced to role and content. */
  function History(messages: seq<Message>): (h: seq<HistoryEntry>)
    ensures |h| == if |messages| < HistoryWindow then |messages| else HistoryWindow
    ensures forall i :: 0 <= i < |h| ==> h[i] == ToEntry(messages[|messages| - |h| + i])
  {
    var window := LastN(messages, HistoryWindow);
    seq(|window|, i requires 0 <= i < |window| => ToEntry(window[i]))
  }

  /** Sending one more message moves the window on by one once it is full. */
  lemma HistorySlides(messages: seq<Message>, m: Message)
    requires |messages| >= HistoryWindow
    ensures History(messages + [m]) == History(messages)[1..] + [ToEntry(m)]
  {
    var a, b := History(messages + [m]), History(messages)[1..] + [ToEntry(m)];
    assert |a| == |b|;
    forall i | 0 <= i < |a| ensures a[i] == b[i] {
      if i < |a| - 1 {
        assert (messages + [m])[|messages| + 1 - HistoryWindow + i] == messages[|messages| - HistoryWindow + i + 1];
      }
    }
  }

  /** Lines 102-118: the message appended when the call ends. */
  function Reply(outcome: Outcome): (m: Message)
    ensures m.role == Assistant
    ensures m.content == if outcome.Replied? then outcome.response else ErrorReply
  {
    match outcome
    case Replied(response) => Message(Assistant, response)
    case Failed => Message(Assistant, ErrorReply)
  }

  /** Line 170. */
  predicate ShowQuickQuestions(messages: seq<Message>)
  {
    |messages| <= 1
  }

  /** Lines 137-142 without the bold and italic markup: every bullet becomes a
      filled circle and the text is cut into one paragraph per line. */
  function FormatMessageContent(content: string): (lines: seq<string>)
    ensures |lines| >= 1
  {
    Split(ReplaceChar(content, '\U{2022}', '\U{25CF}'), '\n')
  }

  /** The paragraphs are the lines of the text: joined they give the text back
      with its bullets replaced, they hold no line break and no bullet, and
      there is one more paragraph than there are line breaks. */
  lemma FormatMessageContentLines(content: string)
    ensures Join(FormatMessageContent(content), '\n') == ReplaceChar(content, '\U{2022}', '\U{25CF}')
    ensures forall k :: 0 <= k < |FormatMessageContent(content)| ==>
      '\n' !in FormatMessageContent(content)[k] && '\U{2022}' !in FormatMessageContent(content)[k]
    ensures |FormatMessageContent(content)| == Count(content, '\n') + 1
  {
    var replaced := ReplaceChar(content, '\U{2022}', '\U{25CF}');
    SplitJoin(replaced, '\n');
    ReplaceCount(content, '\U{2022}', '\U{25CF}', '\n');
    var lines := FormatMessageContent(content);
    forall k | 0 <= k < |lines| ensures '\U{2022}' !in lines[k] {
      SplitPartsOccur(replaced, '\n', k);
    }
  }

  /** Replacing one character by another leaves the count of a third alone. */
  lemma {:induction false} ReplaceCount(s: string, from: char, to: char, c: char)
    requires c != from && c != to
    ensures Count(ReplaceChar(s, from, to), c) == Count(s, c)
  {
    if s != [] {
      ReplaceCount(s[1..], from, to, c);
      assert ReplaceChar(s, from, to)[1..] == ReplaceChar(s[1..], from, to);
    }
  }

  /** Every character of a part occurs in the split string. */
  lemma {:induction false} SplitPartsOccur(s: string, sep: char, k: int)
    requires 0 <= k < |Split(s, sep)|
    ensures forall c :: c in Split(s, sep)[k] ==> c in s
  {
    if s != [] {
      var rest := Split(s[1..], sep);
      if s[0] == sep {
        if k > 0 {
          SplitPartsOccur(s[1..], sep, k - 1);
        }
      } else {
        SplitPartsOccur(s[1..], sep, k);
      }
    }
  }

  class ChatAgent {
    var messages: seq<Message>
    var inputValue: string
    var isLoading: bool
    var isTyping: bool

    /** Lines 23-26 with the welcome effect of lines 38-57 applied. */
    constructor ()
      ensures messages == [WelcomeMessage] && inputValue == "" && !isLoading && !isTyping
      ensures ShowQuickQuestions(messages)
    {
      messages, inputValue, isLoading, isTyping := [WelcomeMessage], "", false, false;
    }

    method SetInput(value: string)
      modifies this
      ensures inputValue == value
      ensures messages == old(messages) && isLoading == old(isLoading) && isTyping == old(isTyping)
    {
      inputValue := value;
    }

    /** Lines 68-97, up to the remote call: an empty message or a send while
        one is under way is ignored; otherwise the user message is appended,
        the input cleared, both flags raised, and the request built with the
        history from before the new message. */
    method BeginSend(messageContent: Option<string>) returns (request: Option<Request>)
      modifies this
      ensures var content := SendContent(messageContent, old(inputValue));
        if content == "" || old(isLoading) then
          request == None && messages == old(messages) && inputValue == old(inputValue) &&
          isLoading == old(isLoading) && isTyping == old(isTyping)
        else
          request == Some(Request(content, History(old(messages)))) &&
          messages == old(messages) + [Message(User, content)] &&
          inputValue == "" && isLoading && isTyping
    {
      var content := SendContent(messageContent, inputValue);
      if content == "" || isLoading {
        return None;
      }
      request := Some(Request(content, History(messages)));
      messages := messages + [Message(User, content)];
      inputValue := "";
      isLoading := true;
      isTyping := true;
    }

    /** Lines 102-122: the reply or the error text is appended and both flags
        are lowered, whatever the outcome. */
    method CompleteSend(outcome: Outcome)
      modifies this
      ensures messages == old(messages) + [Reply(outcome)]
      ensures !isLoading && !isTyping && inputValue == old(inputValue)
    {
      messages := messages + [Reply(outcome)];
      isLoading := false;
      isTyping := false;
    }

    /** A whole send with the remote call ending in `outcome` and no other
        event in between: exactly two messages are added, the user's first. */
    method SendMessage(messageContent: Option<string>, outcome: Outcome) returns (request: Option<Request>)
      modifies this
      ensures request.None? ==> messages == old(messages) && isLoading == old(isLoading)
      ensures request.Some? <==> SendContent(messageContent, old(inputValue)) != "" && !old(isLoading)
      ensures request.Some? ==>
        messages == old(messages) + [Message(User, request.value.message), Reply(outcome)] &&
        request.value.conversationHistory == History(old(messages)) &&
        inputValue == "" && !isLoading && !isTyping && !ShowQuickQuestions(messages)
    {
      ghost var before := messages;
      ghost var content := SendContent(messageContent, inputValue);
      request := BeginSend(messageContent);
      if request.Some? {
        ghost var sent := messages;
        assert request.value.message == content && sent == before + [Message(User, content)];
        CompleteSend(outcome);
        assert messages == sent + [Reply(outcome)];
        assert sent + [Reply(outcome)] == before + [Message(User, content), Reply(outcome)];
      }
    }
  }
}
