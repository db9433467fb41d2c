/** src/components/session/WaitingRoom.tsx: the room before playback starts.
    `handleContentAdded` works in two steps: at once it raises the loading
    flag and schedules a timer; when that timer fires (1500 ms later) the
    content is stored and the flag lowered. Timers of equal delay fire in the
    order they were scheduled, so the scheduled steps form a queue. */
module Waiting {
  import opened Wrappers
  import opened Uploader

  /** The delay of the deferred step, in milliseconds. */
  const ContentDelayMs: nat := 1500

  const InvitePrefix: string := "Join my CinematicSync session! Session ID: "
  const PinLabel: string := ", PIN: "

  /** The text handleCopyInvite puts on the clipboard. */
  function InviteText(sessionId: string, pin: string): string {
    InvitePrefix + sessionId + PinLabel + pin
  }

  /** The invite carries the session id and the PIN exactly as given, each
      after its label, and nothing after the PIN. */
  lemma InviteTextParts(sessionId: string, pin: string)
    ensures var t := InviteText(sessionId, pin);
      var idEnd := |InvitePrefix| + |sessionId|;
      && |t| == idEnd + |PinLabel| + |pin|
      && t[..|InvitePrefix|] == InvitePrefix
      && t[|InvitePrefix|..idEnd] == sessionId
      && t[idEnd..idEnd + |PinLabel|] == PinLabel
      && t[idEnd + |PinLabel|..] == pin
  {
  }

  /** The description of the success toast of the deferred step. */
  function AddedToast(info: ContentInfo): string {
    (if info.contentType == "url" then "URL" else "File") + " has been added to the session."
  }

  // ---------------------------------------------------------------------------
  // The room as a state machine

  /** The stored content, the loading flag and the deferred steps still to
      run, oldest first. */
  datatype RoomState = RoomState(content: Option<ContentInfo>, isLoading: bool, pending: seq<ContentInfo>)

  datatype RoomEvent =
    | ContentAdded(info: ContentInfo)   // the uploader's onContentAdded
    | TimerFired                        // the oldest scheduled step runs

  const Initial: RoomState := RoomState(None, false, [])

  function Step(s: RoomState, e: RoomEvent): RoomState {
    match e
    case ContentAdded(info) => s.(isLoading := true, pending := s.pending + [info])
    case TimerFired =>
      if s.pending == [] then s
      else RoomState(Some(s.pending[0]), false, s.pending[1..])
  }

  function Run(s: RoomState, es: seq<RoomEvent>): RoomState
    decreases |es|
  {
    if es == [] then s else Run(Step(s, es[0]), es[1..])
  }

  /** The contents the uploader handed over, in order. */
  function Added(es: seq<RoomEvent>): seq<ContentInfo>
    decreases |es|
  {
    if es == [] then []
    else (if es[0].ContentAdded? then [es[0].info] else []) + Added(es[1..])
  }

  /** handleStartSession: `onStart` receives the stored content, and nothing
      happens without one. */
  function Start(s: RoomState): Option<ContentInfo> {
    s.content
  }

  /** Whether the uploader is rendered (lines 174-182). */
  predicate UploaderShown(isHost: bool) {
    isHost
  }

  /** Whether the "Start Session" button is rendered (lines 184 and 205-214). */
  predicate StartControlShown(isHost: bool, content: Option<ContentInfo>) {
    isHost && content.Some?
  }

  /** Only the host is offered the start control, and whenever it is offered,
      pressing it starts the session with the stored content. */
  lemma ShownStartControlStarts(isHost: bool, s: RoomState)
    requires StartControlShown(isHost, s.content)
    ensures isHost && UploaderShown(isHost)
    ensures Start(s).Some?
  {
  }

  /** Adding content changes nothing visible at once except the loading flag;
      the content stays as it was until the scheduled step runs. */
  lemma AddingDefersContent(s: RoomState, info: ContentInfo)
    ensures var t := Step(s, ContentAdded(info));
      t.isLoading && t.content == s.content && t.pending[|t.pending| - 1] == info
  {
  }

  predicate FromAdded(s: RoomState, infos: seq<ContentInfo>) {
    && (s.content.Some? ==> s.content.value in infos)
    && (forall i :: 0 <= i < |s.pending| ==> s.pending[i] in infos)
  }

  lemma {:induction false} RunKeepsFromAdded(s: RoomState, infos: seq<ContentInfo>, es: seq<RoomEvent>)
    requires FromAdded(s, infos)
    ensures FromAdded(Run(s, es), infos + Added(es))
    decreases |es|
  {
    if es != [] {
      var t := Step(s, es[0]);
      var more := if es[0].ContentAdded? then [es[0].info] else [];
      assert FromAdded(t, infos + more);
      RunKeepsFromAdded(t, infos + more, es[1..]);
      assert infos + more + Added(es[1..]) == infos + Added(es);
    }
  }

  /** Whatever happens in the room, the content it can start with is one the
      uploader handed over: the room never invents content. */
  lemma StoredContentWasAdded(es: seq<RoomEvent>)
    ensures var s := Run(Initial, es);
      s.content.Some? ==> s.content.value in Added(es)
  {
    RunKeepsFromAdded(Initial, [], es);
    assert [] + Added(es) == Added(es);
  }

  function Fires(n: nat): seq<RoomEvent> {
    seq(n, _ => TimerFired)
  }

  lemma {:induction false} DrainQueue(s: RoomState, last: ContentInfo)
    requires s.pending != [] && s.pending[|s.pending| - 1] == last
    ensures var t := Run(s, Fires(|s.pending|));
      t.content == Some(last) && !t.isLoading && t.pending == []
    decreases |s.pending|
  {
    var t := Step(s, TimerFired);
    assert Fires(|s.pending|)[0] == TimerFired;
    assert Fires(|s.pending|)[1..] == Fires(|t.pending|);
    if t.pending != [] {
      DrainQueue(t, last);
    }
  }

  /** Once every scheduled step has run, the room holds the content added
      last and is no longer loading. */
  lemma LastAddedWins(s: RoomState, info: ContentInfo)
    ensures var a := Step(s, ContentAdded(info));
      var t := Run(a, Fires(|a.pending|));
      t.content == Some(info) && !t.isLoading && t.pending == []
  {
    DrainQueue(Step(s, ContentAdded(info)), info);
  }

  /** With two calls of the handler in flight, the first deferred step to run
      already lowers the loading flag while the second is still scheduled.
      The screen itself never makes the second call (see ScreenNeverQueuesTwo). */
  lemma LoadingClearsAtFirstStep(a: ContentInfo, b: ContentInfo)
    ensures var t := Run(Initial, [ContentAdded(a), ContentAdded(b), TimerFired]);
      t == RoomState(Some(a), false, [b])
  {
    var s1 := Step(Initial, ContentAdded(a));
    var s2 := Step(s1, ContentAdded(b));
    assert s2.pending == [a, b];
    assert Step(s2, TimerFired) == RoomState(Some(a), false, [b]);
    assert Run(Initial, [ContentAdded(a), ContentAdded(b), TimerFired]) == Run(s1, [ContentAdded(b), TimerFired]);
    assert Run(s1, [ContentAdded(b), TimerFired]) == Run(s2, [TimerFired]);
  }

  // ---------------------------------------------------------------------------
  // The screen: the room hands its loading flag to the uploader (line 179),
  // whose submit buttons are disabled while it is set, so a new addition
  // reaches handleContentAdded only while the room is not loading.

  datatype ScreenEvent =
    | Submit(info: ContentInfo)   // a submit of either uploader form that succeeds
    | Timer                       // the scheduled step runs

  function ScreenStep(s: RoomState, e: ScreenEvent): RoomState {
    match e
    case Submit(info) => if s.isLoading then s else Step(s, ContentAdded(info))
    case Timer => Step(s, TimerFired)
  }

  function ScreenRun(s: RoomState, es: seq<ScreenEvent>): RoomState
    decreases |es|
  {
    if es == [] then s else ScreenRun(ScreenStep(s, es[0]), es[1..])
  }

  /** The loading flag is up exactly while a step is scheduled, and at most
      one is. */
  predicate LoadingMatchesQueue(s: RoomState) {
    (s.isLoading <==> s.pending != []) && |s.pending| <= 1
  }

  lemma {:induction false} ScreenRunKeepsLoadingMatch(s: RoomState, es: seq<ScreenEvent>)
    requires LoadingMatchesQueue(s)
    ensures LoadingMatchesQueue(ScreenRun(s, es))
    decreases |es|
  {
    if es != [] {
      var t := ScreenStep(s, es[0]);
      assert LoadingMatchesQueue(t);
      ScreenRunKeepsLoadingMatch(t, es[1..]);
    }
  }

  /** Through the screen, the room never has two additions in flight, and it
      shows loading exactly while the one addition waits for its timer. */
  lemma ScreenNeverQueuesTwo(es: seq<ScreenEvent>)
    ensures var s := ScreenRun(Initial, es);
      |s.pending| <= 1 && (s.isLoading <==> s.pending != [])
  {
    ScreenRunKeepsLoadingMatch(Initial, es);
  }

  // ---------------------------------------------------------------------------
  // The component

  class WaitingRoom {
    const sessionId: string
    const pin: string
    const isHost: bool
    var content: Option<ContentInfo>
    var isLoading: bool
    var pending: seq<ContentInfo>

    function State(): RoomState
      reads this
    {
      RoomState(content, isLoading, pending)
    }

    /** A room without content, not loading, with nothing scheduled. */
    constructor (sessionId: string, pin: string, isHost: bool)
      ensures this.sessionId == sessionId && this.pin == pin && this.isHost == isHost
      ensures State() == Initial
    {
      this.sessionId, this.pin, this.isHost := sessionId, pin, isHost;
      content, isLoading, pending := None, false, [];
    }

    /** handleContentAdded, its immediate step. */
    method HandleContentAdded(info: ContentInfo)
      modifies this`isLoading, this`pending
      ensures State() == Step(old(State()), ContentAdded(info))
    {
      isLoading := true;
      pending := pending + [info];
    }

    /** A submit from the uploader: it reaches handleContentAdded only when
        the buttons are enabled, that is while the room is not loading. */
    method SubmitFromUploader(info: ContentInfo) returns (accepted: bool)
      modifies this`isLoading, this`pending
      ensures State() == ScreenStep(old(State()), Submit(info))
      ensures accepted == !old(isLoading)
    {
      accepted := !isLoading;
      if accepted {
        HandleContentAdded(info);
      }
    }

    /** handleContentAdded, its deferred step: the oldest scheduled content is
        stored and the success toast's description returned. */
    method FireContentTimer() returns (toast: string)
      requires pending != []
      modifies this`content, this`isLoading, this`pending
      ensures State() == Step(old(State()), TimerFired)
      ensures toast == AddedToast(old(pending)[0])
    {
      var info := pending[0];
      pending := pending[1..];
      content := Some(info);
      isLoading := false;
      toast := AddedToast(info);
    }

    /** handleCopyInvite: the text written to the clipboard. */
    method HandleCopyInvite() returns (clipboard: string)
      ensures clipboard == InviteText(sessionId, pin)
    {
      clipboard := InvitePrefix + sessionId + PinLabel + pin;
    }

    /** handleStartSession: what `onStart` is called with, or None when the
        "No content selected" toast is shown instead. */
    method HandleStartSession() returns (started: Option<ContentInfo>)
      ensures started == Start(State())
      ensures started.Some? <==> content.Some?
    {
      if content.None? {
        return None;
      }
      started := Some(content.value);
    }
  }
}
