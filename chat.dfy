/** The send logic of ChatInterface.tsx: the transcript, the text box, the
    typing indicator and the canned AI reply that arrives after a delay.

    The 1500 ms timer each send schedules is an explicit step, `DeliverReply`.
    The timer's callback closes over the text box as it was when the message
    was sent, so the state keeps, in firing order, the inputs whose replies
    are still pending. `Math.random` becomes the `choice` index of the reply;
    ids and timestamps are left out. */
module Chat {
  import opened Wrappers
  import opened Profiles

  datatype Sender = User | Ai

  datatype Message = Message(
    text: string,
    sender: Sender,
    translation: Option<string>,
    correction: Option<string>)

  /** The ten canned replies of `generateAIResponse`. */
  const Responses: seq<string> := [
    "That's interesting! Tell me more about that.",
    "I love learning about different cultures. What's your favorite tradition?",
    "Your pronunciation is getting better! Keep practicing.",
    "Let me help you with that phrase. In Spanish, we would say 'hola' for hello.",
    "That's a great question! The grammar rule here is quite simple once you understand it.",
    "I enjoy our conversations! How was your day?",
    "Great job! You're making excellent progress with your language skills.",
    "Let's practice that together. Can you try saying it again?",
    "I love that you're so dedicated to learning! What motivates you?",
    "That's a perfect example of how this grammar rule works in real conversation."
  ]

  const TranslationExample: string := "This is a translation example"
  const CorrectionTip: string := "Try using 'excellent' for more emphasis!"

  /** The word whose presence in the user's text earns a correction. */
  const GoodWord: string := "good"

  // ----- String.prototype.trim and String.prototype.includes -----

  /** ECMAScript WhiteSpace and LineTerminator code points, the set `trim` removes. */
  predicate IsWhiteSpace(c: char)
  {
    c == '\t' || c == '\n' || c == '\U{B}' || c == '\U{C}' || c == '\r' || c == ' '
    || c == '\U{A0}' || c == '\U{1680}' || ('\U{2000}' <= c <= '\U{200A}')
    || c == '\U{2028}' || c == '\U{2029}' || c == '\U{202F}' || c == '\U{205F}'
    || c == '\U{3000}' || c == '\U{FEFF}'
  }

  function TrimStart(s: string): string
    decreases |s|
  {
    if s != [] && IsWhiteSpace(s[0]) then TrimStart(s[1..]) else s
  }

  function TrimEnd(s: string): string
    decreases |s|
  {
    if s != [] && IsWhiteSpace(s[|s| - 1]) then TrimEnd(s[..|s| - 1]) else s
  }

  /** `text.trim()`: a piece of the text that neither starts nor ends with white space. */
  function Trim(s: string): (r: string)
    ensures |r| <= |s|
    ensures r == [] || (!IsWhiteSpace(r[0]) && !IsWhiteSpace(r[|r| - 1]))
  {
    TrimStartRemovesLeadingWhiteSpace(s);
    TrimEndRemovesTrailingWhiteSpace(TrimStart(s));
    var r := TrimEnd(TrimStart(s));
    assert r != [] ==> r[0] == TrimStart(s)[0];
    r
  }

  /** `!text.trim()`: the text trims to the empty string. The empty text is
      blank; a text that starts or ends with a non-space is not. */
  predicate Blank(s: string): (r: bool)
    ensures s == [] ==> r
    ensures s != [] && (!IsWhiteSpace(s[0]) || !IsWhiteSpace(s[|s| - 1])) ==> !r
  {
    TrimStartRemovesLeadingWhiteSpace(s);
    TrimEndRemovesTrailingWhiteSpace(TrimStart(s));
    Trim(s) == ""
  }

  /** TrimStart removes exactly the leading white space. */
  lemma {:induction false} TrimStartRemovesLeadingWhiteSpace(s: string)
    ensures |TrimStart(s)| <= |s| && TrimStart(s) == s[|s| - |TrimStart(s)|..]
    ensures forall i :: 0 <= i < |s| - |TrimStart(s)| ==> IsWhiteSpace(s[i])
    ensures TrimStart(s) == [] || !IsWhiteSpace(TrimStart(s)[0])
    decreases |s|
  {
    if s != [] && IsWhiteSpace(s[0]) {
      TrimStartRemovesLeadingWhiteSpace(s[1..]);
    }
  }

  /** TrimEnd removes exactly the trailing white space. */
  lemma {:induction false} TrimEndRemovesTrailingWhiteSpace(s: string)
    ensures |TrimEnd(s)| <= |s| && TrimEnd(s) == s[..|TrimEnd(s)|]
    ensures forall i :: |TrimEnd(s)| <= i < |s| ==> IsWhiteSpace(s[i])
    ensures TrimEnd(s) == [] || !IsWhiteSpace(TrimEnd(s)[|TrimEnd(s)| - 1])
    decreases |s|
  {
    if s != [] && IsWhiteSpace(s[|s| - 1]) {
      TrimEndRemovesTrailingWhiteSpace(s[..|s| - 1]);
    }
  }

  lemma {:induction false} AllWhiteSpaceTrimsAway(s: string)
    requires forall i :: 0 <= i < |s| ==> IsWhiteSpace(s[i])
    ensures TrimStart(s) == []
    decreases |s|
  {
    if s != [] {
      AllWhiteSpaceTrimsAway(s[1..]);
    }
  }

  /** A text is blank exactly when every character of it is white space. */
  lemma BlankIffAllWhiteSpace(s: string)
    ensures Blank(s) <==> forall i :: 0 <= i < |s| ==> IsWhiteSpace(s[i])
  {
    if forall i :: 0 <= i < |s| ==> IsWhiteSpace(s[i]) {
      AllWhiteSpaceTrimsAway(s);
    } else {
      var j :| 0 <= j < |s| && !IsWhiteSpace(s[j]);
      var t := TrimStart(s);
      TrimStartRemovesLeadingWhiteSpace(s);
      TrimEndRemovesTrailingWhiteSpace(t);
      assert |s| - |t| <= j;
      var k := j - (|s| - |t|);
      assert t[k] == s[j];
      assert k < |TrimEnd(t)|;
    }
  }

  predicate StartsWith(s: string, prefix: string)
  {
    |prefix| <= |s| && s[..|prefix|] == prefix
  }

  /** `s.includes(w)`: the empty word is in every text, a text that starts
      with `w` contains it, and no text contains a longer word. */
  predicate Contains(s: string, w: string): (r: bool)
    ensures w == [] ==> r
    ensures StartsWith(s, w) ==> r
    ensures r ==> |w| <= |s|
    decreases |s|
  {
    StartsWith(s, w) || (s != [] && Contains(s[1..], w))
  }

  /** `Contains` holds exactly when `w` occurs at some position of `s`. */
  lemma {:induction false} ContainsIffOccurs(s: string, w: string)
    ensures Contains(s, w) <==> exists i :: 0 <= i <= |s| - |w| && s[i..][..|w|] == w
    decreases |s|
  {
    if StartsWith(s, w) {
      assert s[0..][..|w|] == w;
    } else if s == [] {
      assert !Contains(s, w);
    } else {
      ContainsIffOccurs(s[1..], w);
      if Contains(s[1..], w) {
        var i :| 0 <= i <= |s[1..]| - |w| && s[1..][i..][..|w|] == w;
        assert s[i + 1..] == s[1..][i..];
      }
      if i :| 0 <= i <= |s| - |w| && s[i..][..|w|] == w {
        assert i != 0;
        assert s[1..][i - 1..] == s[i..];
      }
    }
  }

  // ----- the chat state and its steps -----

  /** `messages`, `inputText`, `isTyping`, and the inputs captured by the
      reply timers that have not fired yet. */
  datatype ChatState = ChatState(
    messages: seq<Message>,
    inputText: string,
    isTyping: bool,
    pending: seq<string>)

  const Initial: ChatState := ChatState([], "", false, [])

  /** The text box's `onChange`. */
  function SetInput(s: ChatState, text: string): (r: ChatState)
    ensures r.inputText == text
    ensures r.messages == s.messages && r.isTyping == s.isTyping && r.pending == s.pending
  {
    s.(inputText := text)
  }

  /** The send button is disabled exactly when the text box holds only white space. */
  function SendDisabled(s: ChatState): (r: bool)
    ensures r <==> forall i :: 0 <= i < |s.inputText| ==> IsWhiteSpace(s.inputText[i])
  {
    BlankIffAllWhiteSpace(s.inputText);
    Blank(s.inputText)
  }

  /** `handleSendMessage` up to scheduling the timer. */
  function Send(s: ChatState, selectedChat: Option<Profile>): (r: ChatState)
    ensures Blank(s.inputText) || selectedChat.None? ==> r == s
    ensures !Blank(s.inputText) && selectedChat.Some? ==>
              && r.messages == s.messages + [Message(s.inputText, User, None, None)]
              && r.inputText == ""
              && r.isTyping
              && r.pending == s.pending + [s.inputText]
  {
    if Blank(s.inputText) || selectedChat.None? then s
    else
      ChatState(s.messages + [Message(s.inputText, User, None, None)], "", true, s.pending + [s.inputText])
  }

  /** `generateAIResponse`: a pick from the canned list; the user's text is ignored. */
  function GenerateAIResponse(userMessage: string, choice: nat): (r: string)
    requires choice < |Responses|
    ensures r in Responses
  {
    Responses[choice]
  }

  /** The AI message the timer appends for the captured input. */
  function AiReply(input: string, choice: nat): (r: Message)
    requires choice < |Responses|
    ensures r.sender == Ai && r.text in Responses
    ensures r.translation == Some(TranslationExample)
    ensures r.correction.Some? <==> Contains(input, GoodWord)
    ensures r.correction.Some? ==> r.correction.value == CorrectionTip
  {
    Message(GenerateAIResponse(input, choice), Ai, Some(TranslationExample),
            if Contains(input, GoodWord) then Some(CorrectionTip) else None)
  }

  /** The oldest pending timer fires: one AI message is appended and the
      typing indicator is cleared. */
  function DeliverReply(s: ChatState, choice: nat): (r: ChatState)
    requires s.pending != [] && choice < |Responses|
    ensures r.messages == s.messages + [AiReply(s.pending[0], choice)]
    ensures !r.isTyping
    ensures r.inputText == s.inputText
    ensures r.pending == s.pending[1..]
  {
    ChatState(s.messages + [AiReply(s.pending[0], choice)], s.inputText, false, s.pending[1..])
  }

  /** `handleKeyPress`: Enter without Shift sends; every other key is ignored. */
  function KeyPress(s: ChatState, key: string, shiftKey: bool, selectedChat: Option<Profile>): (r: ChatState)
    ensures key == "Enter" && !shiftKey ==> r == Send(s, selectedChat)
    ensures key != "Enter" || shiftKey ==> r == s
  {
    if key == "Enter" && !shiftKey then Send(s, selectedChat) else s
  }

  // ----- runs of chat events -----

  datatype ChatAction =
    | Type(text: string)
    | ClickSend(selectedChat: Option<Profile>)
    | PressKey(key: string, shiftKey: bool, selectedChat: Option<Profile>)
    | TimerFires(choice: nat)

  /** A timer can only fire when one is pending. */
  predicate Enabled(s: ChatState, a: ChatAction)
  {
    a.TimerFires? ==> s.pending != [] && a.choice < |Responses|
  }

  function Apply(s: ChatState, a: ChatAction): (r: ChatState)
    requires Enabled(s, a)
    ensures s.messages <= r.messages
    ensures |r.messages| <= |s.messages| + 1
  {
    match a
    case Type(text) => SetInput(s, text)
    case ClickSend(chat) => Send(s, chat)
    case PressKey(key, shift, chat) => KeyPress(s, key, shift, chat)
    case TimerFires(choice) => DeliverReply(s, choice)
  }

  predicate IsRun(s: ChatState, actions: seq<ChatAction>)
    decreases |actions|
  {
    actions == [] || (Enabled(s, actions[0]) && IsRun(Apply(s, actions[0]), actions[1..]))
  }

  function Run(s: ChatState, actions: seq<ChatAction>): ChatState
    requires IsRun(s, actions)
    decreases |actions|
  {
    if actions == [] then s else Run(Apply(s, actions[0]), actions[1..])
  }

  /** The transcript is append-only: no run modifies or removes a message. */
  lemma {:induction false} RunIsAppendOnly(s: ChatState, actions: seq<ChatAction>)
    requires IsRun(s, actions)
    ensures s.messages <= Run(s, actions).messages
    decreases |actions|
  {
    if actions != [] {
      RunIsAppendOnly(Apply(s, actions[0]), actions[1..]);
    }
  }

  // ----- pairing of replies with the messages they answer -----

  /** The texts of the user's messages, in order. */
  function UserTexts(ms: seq<Message>): seq<string>
    decreases |ms|
  {
    if ms == [] then []
    else UserTexts(ms[..|ms| - 1]) + (if ms[|ms| - 1].sender == User then [ms[|ms| - 1].text] else [])
  }

  /** The AI messages, in order. */
  function AiMessages(ms: seq<Message>): seq<Message>
    decreases |ms|
  {
    if ms == [] then []
    else AiMessages(ms[..|ms| - 1]) + (if ms[|ms| - 1].sender == Ai then [ms[|ms| - 1]] else [])
  }

  lemma AppendMessage(ms: seq<Message>, m: Message)
    ensures UserTexts(ms + [m]) == UserTexts(ms) + (if m.sender == User then [m.text] else [])
    ensures AiMessages(ms + [m]) == AiMessages(ms) + (if m.sender == Ai then [m] else [])
  {
    assert (ms + [m])[..|ms|] == ms;
  }

  /** The chat invariant: the k-th AI message answers the k-th user message
      and carries a correction exactly when that message contains "good";
      the user messages not answered yet are exactly the pending inputs;
      no user message is blank; and the typing indicator is only on while
      a reply is pending. */
  ghost predicate Consistent(s: ChatState)
  {
    var users := UserTexts(s.messages);
    var replies := AiMessages(s.messages);
    && |users| == |replies| + |s.pending|
    && users[|replies|..] == s.pending
    && (forall k :: 0 <= k < |replies| ==> (replies[k].correction.Some? <==> Contains(users[k], GoodWord)))
    && (forall k :: 0 <= k < |users| ==> !Blank(users[k]))
    && (s.isTyping ==> s.pending != [])
  }

  lemma InitialConsistent()
    ensures Consistent(Initial)
  {
  }

  lemma SendKeepsConsistent(s: ChatState, chat: Option<Profile>)
    requires Consistent(s)
    ensures Consistent(Send(s, chat))
  {
    if !Blank(s.inputText) && chat.Some? {
      var m := Message(s.inputText, User, None, None);
      AppendMessage(s.messages, m);
      var users := UserTexts(s.messages);
      var n := |AiMessages(s.messages)|;
      assert (users + [s.inputText])[n..] == users[n..] + [s.inputText];
    }
  }

  lemma DeliverKeepsConsistent(s: ChatState, choice: nat)
    requires Consistent(s) && s.pending != [] && choice < |Responses|
    ensures Consistent(DeliverReply(s, choice))
  {
    var reply := AiReply(s.pending[0], choice);
    AppendMessage(s.messages, reply);
    var users := UserTexts(s.messages);
    var n := |AiMessages(s.messages)|;
    assert users[n] == s.pending[0] by {
      assert users[n..][0] == users[n];
    }
    assert users[n + 1..] == users[n..][1..];
  }

  lemma ApplyKeepsConsistent(s: ChatState, a: ChatAction)
    requires Consistent(s) && Enabled(s, a)
    ensures Consistent(Apply(s, a))
  {
    match a
    case Type(text) =>
    case ClickSend(chat) => SendKeepsConsistent(s, chat);
    case PressKey(key, shift, chat) => SendKeepsConsistent(s, chat);
    case TimerFires(choice) => DeliverKeepsConsistent(s, choice);
  }

  /** The chat invariant holds after any run of events. */
  lemma {:induction false} RunKeepsConsistent(s: ChatState, actions: seq<ChatAction>)
    requires Consistent(s) && IsRun(s, actions)
    ensures Consistent(Run(s, actions))
    decreases |actions|
  {
    if actions != [] {
      ApplyKeepsConsistent(s, actions[0]);
      RunKeepsConsistent(Apply(s, actions[0]), actions[1..]);
    }
  }

  /** Send followed by its reply, from a quiet chat: exactly two messages
      are added, the user's untrimmed text and a reply whose correction
      depends only on whether that text contains "good". */
  lemma SendThenReply(s: ChatState, chat: Profile, choice: nat)
    requires s.pending == [] && !Blank(s.inputText) && choice < |Responses|
    ensures DeliverReply(Send(s, Some(chat)), choice).messages
            == s.messages + [Message(s.inputText, User, None, None), AiReply(s.inputText, choice)]
    ensures DeliverReply(Send(s, Some(chat)), choice).messages[|s.messages| + 1].correction.Some?
            <==> Contains(s.inputText, GoodWord)
  {
    var sent := Send(s, Some(chat));
    var user := Message(s.inputText, User, None, None);
    assert sent == ChatState(s.messages + [user], "", true, [s.inputText]);
    var reply := AiReply(s.inputText, choice);
    var done := DeliverReply(sent, choice);
    assert done.messages == s.messages + [user] + [reply];
    assert s.messages + [user] + [reply] == s.messages + [user, reply];
  }

  /** The component's state cells and its handlers. */
  class ChatInterface {
    var messages: seq<Message>
    var inputText: string
    var isTyping: bool
    var pending: seq<string>

    function State(): ChatState
      reads this
    {
      ChatState(messages, inputText, isTyping, pending)
    }

    ghost predicate Valid()
      reads this
    {
      Consistent(State())
    }

    constructor ()
      ensures Valid()
      ensures State() == Initial
    {
      messages := [];
      inputText := "";
      isTyping := false;
      pending := [];
    }

    method SetInputText(text: string)
      requires Valid()
      modifies this
      ensures Valid()
      ensures State() == SetInput(old(State()), text)
    {
      inputText := text;
    }

    method HandleSendMessage(selectedChat: Option<Profile>)
      requires Valid()
      modifies this
      ensures Valid()
      ensures State() == Send(old(State()), selectedChat)
    {
      SendKeepsConsistent(State(), selectedChat);
      if Blank(inputText) || selectedChat.None? {
        return;
      }
      messages := messages + [Message(inputText, User, None, None)];
      pending := pending + [inputText];
      inputText := "";
      isTyping := true;
    }

    method HandleKeyPress(key: string, shiftKey: bool, selectedChat: Option<Profile>)
      requires Valid()
      modifies this
      ensures Valid()
      ensures State() == KeyPress(old(State()), key, shiftKey, selectedChat)
    {
      if key == "Enter" && !shiftKey {
        HandleSendMessage(selectedChat);
      }
    }

    /** The callback of the oldest pending 1500 ms timer. */
    method ReplyTimerFires(choice: nat)
      requires Valid()
      requires pending != [] && choice < |Responses|
      modifies this
      ensures Valid()
      ensures State() == DeliverReply(old(State()), choice)
    {
      DeliverKeepsConsistent(State(), choice);
      var input := pending[0];
      messages := messages + [AiReply(input, choice)];
      pending := pending[1..];
      isTyping := false;
    }
  }

}
