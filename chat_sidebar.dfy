/** src/components/chat/ChatSidebar.tsx: the local message list and its three
    send handlers. The clock (`Date.now()`) is a parameter; message ids are its
    decimal rendering, as in the source. */
module Chat {
  import opened Wrappers
  import opened Text
  import opened MediaTime

  datatype Reaction = Like | Dislike | Heart | Laugh

  /** The reaction's name, which is also the text of a reaction message. */
  function ReactionName(r: Reaction): string {
    match r
    case Like => "like"
    case Dislike => "dislike"
    case Heart => "heart"
    case Laugh => "laugh"
  }

  /** A message's `type`, with the fields that belong to it: `reactionType` for
      a reaction, `videoTimestamp` for a timestamp. */
  datatype MessageKind =
    | TextMessage
    | ReactionMessage(reactionType: Reaction)
    | TimestampMessage(videoTimestamp: Seconds)

  datatype Message = Message(id: string, userId: string, userName: string, userEmail: Option<string>,
                             text: string, timestamp: nat, kind: MessageKind)

  /** The signed-in author the sidebar was given. */
  datatype Author = Author(userId: string, userName: string, userEmail: Option<string>)

  /** The list of messages and the input box. */
  datatype ChatState = ChatState(messages: seq<Message>, newMessage: string)

  datatype ChatEvent =
    | Input(text: string)                              // typing in the box
    | SendText(now: nat)                               // form submit
    | SendReaction(reaction: Reaction, now: nat)       // a reaction button
    | SendTimestamp(currentVideoTime: Seconds, now: nat)  // the clock button

  const MomentPrefix: string := "Check out this moment at "

  function NewMessage(a: Author, text: string, now: nat, kind: MessageKind): Message {
    Message(NatToString(now), a.userId, a.userName, a.userEmail, text, now, kind)
  }

  /** The sidebar after one event. */
  function Step(a: Author, s: ChatState, e: ChatEvent): ChatState {
    match e
    case Input(text) => s.(newMessage := text)
    case SendText(now) =>
      if IsBlank(s.newMessage) then s
      else ChatState(s.messages + [NewMessage(a, s.newMessage, now, TextMessage)], "")
    case SendReaction(r, now) =>
      s.(messages := s.messages + [NewMessage(a, ReactionName(r), now, ReactionMessage(r))])
    case SendTimestamp(t, now) =>
      s.(messages := s.messages + [NewMessage(a, MomentPrefix + FormatTime(t), now, TimestampMessage(t))])
  }

  function Run(a: Author, s: ChatState, es: seq<ChatEvent>): ChatState
    decreases |es|
  {
    if es == [] then s else Run(a, Step(a, s, es[0]), es[1..])
  }

  /** Whether an event sends a message from this state. */
  predicate Sends(s: ChatState, e: ChatEvent) {
    e.SendReaction? || e.SendTimestamp? || (e.SendText? && !IsBlank(s.newMessage))
  }

  // ---------------------------------------------------------------------------
  // Properties of the handlers

  /** A message box holding only white space sends nothing and keeps its text. */
  lemma BlankMessageNotSent(a: Author, s: ChatState, now: nat)
    requires AllWhiteSpace(s.newMessage)
    ensures Step(a, s, SendText(now)) == s
  {
    BlankIffAllWhiteSpace(s.newMessage);
  }

  /** A message box with any other character appends exactly one text message
      holding the untrimmed input, and clears the box. */
  lemma TextMessageSent(a: Author, s: ChatState, now: nat)
    requires exists i :: 0 <= i < |s.newMessage| && !IsWhiteSpace(s.newMessage[i])
    ensures var t := Step(a, s, SendText(now));
      && |t.messages| == |s.messages| + 1
      && t.messages[..|s.messages|] == s.messages
      && t.messages[|s.messages|].text == s.newMessage
      && t.messages[|s.messages|].kind == TextMessage
      && t.messages[|s.messages|].userId == a.userId
      && t.newMessage == ""
  {
    BlankIffAllWhiteSpace(s.newMessage);
  }

  /** A reaction message's text and reaction type are both the chosen reaction. */
  lemma ReactionMessageSent(a: Author, s: ChatState, r: Reaction, now: nat)
    ensures var t := Step(a, s, SendReaction(r, now));
      var m := t.messages[|t.messages| - 1];
      && t.messages[..|s.messages|] == s.messages && |t.messages| == |s.messages| + 1
      && m.kind == ReactionMessage(r) && m.text == ReactionName(m.kind.reactionType)
      && t.newMessage == s.newMessage
  {
  }

  /** A timestamp message records the video time, and its text ends with an
      m:ss clock reading back the whole seconds of that time. */
  lemma TimestampMessageSent(a: Author, s: ChatState, v: Seconds, now: nat)
    ensures var t := Step(a, s, SendTimestamp(v, now));
      var m := t.messages[|t.messages| - 1];
      var clock := m.text[|MomentPrefix|..];
      && t.messages[..|s.messages|] == s.messages && |t.messages| == |s.messages| + 1
      && m.kind == TimestampMessage(v)
      && m.text == MomentPrefix + FormatTime(v)
      && |clock| >= 4 && clock[|clock| - 3] == ':'
      && IsDigits(clock[..|clock| - 3]) && IsDigits(clock[|clock| - 2..])
      && (|clock| == 4 || clock[0] != '0')
      && ParseNat(clock[|clock| - 2..]) < 60
      && ParseNat(clock[..|clock| - 3]) * 60 + ParseNat(clock[|clock| - 2..]) == FloorNat(v)
  {
    var clock := FormatTime(v);
    var m := NewMessage(a, MomentPrefix + clock, now, TimestampMessage(v));
    var t := Step(a, s, SendTimestamp(v, now));
    assert t.messages == s.messages + [m];
    assert t.messages[|t.messages| - 1] == m;
    assert m.text[..|MomentPrefix|] == MomentPrefix;
    assert m.text[|MomentPrefix|..] == clock;
    FormatTimeReadsBack(v);
  }

  /** Every handler keeps the earlier messages, in order, as a prefix, and
      adds at most one message. */
  lemma StepKeepsPrefix(a: Author, s: ChatState, e: ChatEvent)
    ensures var t := Step(a, s, e);
      && |s.messages| <= |t.messages| <= |s.messages| + 1
      && t.messages[..|s.messages|] == s.messages
      && (|t.messages| == |s.messages| + 1 <==> Sends(s, e))
  {
  }

  /** Over any sequence of events the list only grows at its end: the messages
      before are a prefix of the messages after. */
  lemma {:induction false} HistoryIsAppendOnly(a: Author, s: ChatState, es: seq<ChatEvent>)
    ensures var t := Run(a, s, es);
      |s.messages| <= |t.messages| && t.messages[..|s.messages|] == s.messages
    decreases |es|
  {
    if es != [] {
      var s1 := Step(a, s, es[0]);
      StepKeepsPrefix(a, s, es[0]);
      HistoryIsAppendOnly(a, s1, es[1..]);
      var t := Run(a, s, es);
      assert t == Run(a, s1, es[1..]);
      assert t.messages[..|s1.messages|] == s1.messages;
      assert t.messages[..|s.messages|] == t.messages[..|s1.messages|][..|s.messages|];
    }
  }

  // ---------------------------------------------------------------------------
  // The component

  class ChatSidebar {
    const author: Author
    var messages: seq<Message>
    var newMessage: string

    function State(): ChatState
      reads this
    {
      ChatState(messages, newMessage)
    }

    /** The sidebar with an empty list and an empty input box. */
    constructor (author: Author)
      ensures this.author == author && State() == ChatState([], "")
    {
      this.author := author;
      messages, newMessage := [], "";
    }

    method SetNewMessage(text: string)
      modifies this
      ensures State() == Step(author, old(State()), Input(text))
    {
      newMessage := text;
    }

    method HandleSendMessage(now: nat)
      modifies this
      ensures State() == Step(author, old(State()), SendText(now))
    {
      if IsBlank(newMessage) {
        return;
      }
      var message := NewMessage(author, newMessage, now, TextMessage);
      messages := messages + [message];
      newMessage := "";
    }

    method HandleSendReaction(reaction: Reaction, now: nat)
      modifies this
      ensures State() == Step(author, old(State()), SendReaction(reaction, now))
    {
      var message := NewMessage(author, ReactionName(reaction), now, ReactionMessage(reaction));
      messages := messages + [message];
    }

    method HandleSendTimestamp(currentVideoTime: Seconds, now: nat)
      modifies this
      ensures State() == Step(author, old(State()), SendTimestamp(currentVideoTime, now))
    {
      var text := MomentPrefix + FormatTime(currentVideoTime);
      var message := NewMessage(author, text, now, TimestampMessage(currentVideoTime));
      messages := messages + [message];
    }
  }
}
