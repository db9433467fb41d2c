/** src/components/player/VideoPlayer.tsx: the player's playback-state
    handlers. A remote `session_playback_state` row arrives as a method
    argument; the element's own position is the field `mediaPosition`, and the
    upsert that publishes local changes writes the shared tables directly. */
module Player {
  import opened Wrappers
  import Text
  import opened MediaTime
  import opened Sessions

  /** Minimum spacing, in milliseconds, between two published playback states. */
  const ThrottleMs: int := 500

  /** A remote position further than this many seconds from the local one is
      seeked to. */
  const SeekThreshold: real := 1.0

  /** A slider volume in [0, 1]. */
  type Volume = v: real | 0.0 <= v <= 1.0

  /** The component's state: `isPlaying`, `currentTime`, `volume`, `isMuted`,
      `isUserSeeking` and `lastUpdateTime`, plus the video element's position. */
  datatype PlayerState = PlayerState(
    isPlaying: bool,
    currentTime: Seconds,
    mediaPosition: Seconds,
    volume: Volume,
    isMuted: bool,
    isUserSeeking: bool,
    lastUpdateTime: int)

  /** The `useState` initial values; `lastUpdateTime` starts at the mount time. */
  function Initial(mountTime: nat): PlayerState {
    PlayerState(false, 0.0, 0.0, 1.0, false, false, mountTime)
  }

  /** The events the handlers react to. */
  datatype PlayerEvent =
    | RemoteUpdate(row: PlaybackRow)     // realtime UPDATE of the session's playback row
    | TogglePlay(now: nat)               // play/pause button or click on the video
    | TimeUpdate(elementTime: Seconds)   // the element reports its position
    | VolumeChange(level: Volume)        // volume slider
    | ToggleMute                         // mute button
    | SeekStart                          // press on the progress slider
    | SeekChange(time: Seconds)          // progress slider moved
    | SeekEnd(now: nat)                  // progress slider released

  function Abs(x: real): real {
    if x < 0.0 then -x else x
  }

  /** The publish throttle: a publication within 500 ms of the last one is dropped. */
  predicate Throttled(lastUpdateTime: int, now: nat) {
    now - lastUpdateTime < ThrottleMs
  }

  /** The remote-update handler: own echoes are ignored; otherwise the play flag
      is adopted, and the element seeks to the remote position when the user is
      not dragging the slider and the positions differ by more than a second. */
  function ApplyRemote(userId: string, s: PlayerState, row: PlaybackRow): PlayerState {
    if row.updatedBy == userId then s
    else
      var seek := !s.isUserSeeking && Abs(row.currentTime - s.currentTime) > SeekThreshold;
      s.(isPlaying := row.isPlaying,
         mediaPosition := if seek then row.currentTime else s.mediaPosition)
  }

  /** The row `updatePlaybackState(playing, time)` upserts at `now`, if the
      throttle lets it through. */
  function Publication(sessionId: string, userId: string, s: PlayerState,
                       playing: bool, time: Seconds, now: nat): Option<PlaybackRow> {
    if Throttled(s.lastUpdateTime, now) then None
    else Some(PlaybackRow(sessionId, playing, time, now, userId))
  }

  /** updatePlaybackState's effect on the player: the time of the last
      publication moves to `now` unless the call was throttled. */
  function AfterPublish(s: PlayerState, now: nat): PlayerState {
    if Throttled(s.lastUpdateTime, now) then s else s.(lastUpdateTime := now)
  }

  /** The player's state after one event. */
  function Step(userId: string, s: PlayerState, e: PlayerEvent): PlayerState {
    match e
    case RemoteUpdate(row) => ApplyRemote(userId, s, row)
    case TogglePlay(now) => AfterPublish(s.(isPlaying := !s.isPlaying), now)
    case TimeUpdate(t) =>
      s.(mediaPosition := t, currentTime := if s.isUserSeeking then s.currentTime else t)
    case VolumeChange(v) => s.(volume := v, isMuted := v == 0.0)
    case ToggleMute => s.(isMuted := !s.isMuted)
    case SeekStart => s.(isUserSeeking := true)
    case SeekChange(t) => s.(currentTime := t, mediaPosition := t)
    case SeekEnd(now) => AfterPublish(s.(isUserSeeking := false), now)
  }

  /** The playback row an event publishes, if any: toggling play publishes the
      new flag, releasing the slider the current flag, both with the current time. */
  function Emitted(sessionId: string, userId: string, s: PlayerState, e: PlayerEvent): Option<PlaybackRow> {
    match e
    case TogglePlay(now) => Publication(sessionId, userId, s, !s.isPlaying, s.currentTime, now)
    case SeekEnd(now) => Publication(sessionId, userId, s, s.isPlaying, s.currentTime, now)
    case _ => None
  }

  /** The state after a sequence of events. */
  function Run(userId: string, s: PlayerState, es: seq<PlayerEvent>): PlayerState
    decreases |es|
  {
    if es == [] then s else Run(userId, Step(userId, s, es[0]), es[1..])
  }

  /** The rows published, in order, while a sequence of events is handled. */
  function Emissions(sessionId: string, userId: string, s: PlayerState, es: seq<PlayerEvent>): seq<PlaybackRow>
    decreases |es|
  {
    if es == [] then []
    else
      var head := match Emitted(sessionId, userId, s, es[0]) case Some(r) => [r] case None => [];
      head + Emissions(sessionId, userId, Step(userId, s, es[0]), es[1..])
  }

  /** The volume slider shows 0 while muted, the volume otherwise. */
  function DisplayedVolume(s: PlayerState): Volume {
    if s.isMuted then 0.0 else s.volume
  }

  // ---------------------------------------------------------------------------
  // Properties of the handlers

  /** A row this user wrote changes nothing in the player. */
  lemma OwnEchoChangesNothing(userId: string, s: PlayerState, row: PlaybackRow)
    requires row.updatedBy == userId
    ensures Step(userId, s, RemoteUpdate(row)) == s
  {
  }

  /** A row written by someone else: the play flag becomes the remote one
      unconditionally; the element moves to the remote position exactly when
      the user is not seeking and the gap exceeds one second; nothing else changes. */
  lemma ForeignUpdateEffect(userId: string, s: PlayerState, row: PlaybackRow)
    requires row.updatedBy != userId
    ensures var t := Step(userId, s, RemoteUpdate(row));
      && t.isPlaying == row.isPlaying
      && (!s.isUserSeeking && Abs(row.currentTime - s.currentTime) > 1.0 ==> t.mediaPosition == row.currentTime)
      && (s.isUserSeeking || Abs(row.currentTime - s.currentTime) <= 1.0 ==> t.mediaPosition == s.mediaPosition)
      && t.(isPlaying := s.isPlaying, mediaPosition := s.mediaPosition) == s
  {
  }

  /** Delivering the same remote row twice has the effect of delivering it once. */
  lemma RemoteUpdateIdempotent(userId: string, s: PlayerState, row: PlaybackRow)
    ensures var t := Step(userId, s, RemoteUpdate(row));
      Step(userId, t, RemoteUpdate(row)) == t
  {
  }

  /** A publish attempt within 500 ms of the last one publishes nothing and
      leaves the last-update time alone; any other publishes this user's row
      for this session and moves the last-update time to now. */
  lemma PublishThrottle(sessionId: string, userId: string, s: PlayerState, e: PlayerEvent)
    requires e.TogglePlay? || e.SeekEnd?
    ensures var t := Step(userId, s, e);
      var r := Emitted(sessionId, userId, s, e);
      && (r.None? <==> e.now - s.lastUpdateTime < 500)
      && (r.None? ==> t.lastUpdateTime == s.lastUpdateTime)
      && (r.Some? ==> t.lastUpdateTime == e.now && r.value.updatedAt == e.now
                      && r.value.updatedBy == userId && r.value.sessionId == sessionId
                      && r.value.isPlaying == t.isPlaying && r.value.currentTime == s.currentTime)
  {
  }

  /** Toggling play negates the flag, whoever the user is (there is no host check). */
  lemma TogglePlayNegates(userId: string, s: PlayerState, now: nat)
    ensures Step(userId, s, TogglePlay(now)).isPlaying == !s.isPlaying
  {
  }

  /** After a volume change the player is muted iff the new volume is 0, and
      the slider shows the chosen volume. Muting twice restores the state. */
  lemma VolumeAndMute(userId: string, s: PlayerState, v: Volume)
    ensures var t := Step(userId, s, VolumeChange(v));
      t.isMuted == (v == 0.0) && t.volume == v && DisplayedVolume(t) == v
    ensures Step(userId, s, ToggleMute).isMuted == !s.isMuted
    ensures Step(userId, Step(userId, s, ToggleMute), ToggleMute) == s
  {
  }

  /** Publications are spaced: the first comes at least 500 ms after `last`,
      each later one at least 500 ms after the one before. */
  predicate SpacedAfter(last: int, rows: seq<PlaybackRow>) {
    && (|rows| > 0 ==> rows[0].updatedAt - last >= ThrottleMs)
    && (forall i :: 0 < i < |rows| ==> rows[i].updatedAt - rows[i - 1].updatedAt >= ThrottleMs)
  }

  /** One event: without a publication the last-update time stays put; with
      one, it moves to the row's time, at least 500 ms after the previous. */
  lemma StepPublication(sessionId: string, userId: string, s: PlayerState, e: PlayerEvent)
    ensures var r := Emitted(sessionId, userId, s, e);
      && (r.None? ==> Step(userId, s, e).lastUpdateTime == s.lastUpdateTime)
      && (r.Some? ==> Step(userId, s, e).lastUpdateTime == r.value.updatedAt
                      && r.value.updatedAt - s.lastUpdateTime >= ThrottleMs)
  {
  }

  lemma SpacedCons(last: int, r: PlaybackRow, tail: seq<PlaybackRow>)
    requires r.updatedAt - last >= ThrottleMs
    requires SpacedAfter(r.updatedAt, tail)
    ensures SpacedAfter(last, [r] + tail)
  {
    var all := [r] + tail;
    forall i | 0 < i < |all| ensures all[i].updatedAt - all[i - 1].updatedAt >= ThrottleMs {
      if i > 1 {
        assert all[i] == tail[i - 1] && all[i - 1] == tail[i - 2];
      }
    }
  }

  /** Whatever the events and clock readings (even a clock that goes back),
      the rows a player publishes are at least 500 ms apart. */
  lemma {:induction false} PublicationsAreSpaced(sessionId: string, userId: string, s: PlayerState, es: seq<PlayerEvent>)
    ensures SpacedAfter(s.lastUpdateTime, Emissions(sessionId, userId, s, es))
    decreases |es|
  {
    if es != [] {
      var s1 := Step(userId, s, es[0]);
      var tail := Emissions(sessionId, userId, s1, es[1..]);
      PublicationsAreSpaced(sessionId, userId, s1, es[1..]);
      StepPublication(sessionId, userId, s, es[0]);
      match Emitted(sessionId, userId, s, es[0])
      case None =>
        assert Emissions(sessionId, userId, s, es) == tail;
      case Some(r) =>
        assert Emissions(sessionId, userId, s, es) == [r] + tail;
        SpacedCons(s.lastUpdateTime, r, tail);
    }
  }

  /** Every row a player publishes carries its own user id and session, so when
      the realtime channel delivers it back to that player it changes nothing. */
  lemma {:induction false} PublicationsAreOwnEchoes(sessionId: string, userId: string, s: PlayerState, es: seq<PlayerEvent>)
    ensures forall i :: 0 <= i < |Emissions(sessionId, userId, s, es)| ==>
      var r := Emissions(sessionId, userId, s, es)[i];
      && r.updatedBy == userId && r.sessionId == sessionId
      && (forall t: PlayerState :: Step(userId, t, RemoteUpdate(r)) == t)
    decreases |es|
  {
    if es != [] {
      PublicationsAreOwnEchoes(sessionId, userId, Step(userId, s, es[0]), es[1..]);
    }
  }

  /** An event that leaves slider dragging under way: anything but a slider
      movement or release. */
  predicate KeepsSeekFrozen(e: PlayerEvent) {
    !e.SeekChange? && !e.SeekEnd?
  }

  /** While the user drags the slider, neither time updates from the element nor
      remote rows change `currentTime`, and the drag stays under way. */
  lemma {:induction false} SeekingFreezesCurrentTime(userId: string, s: PlayerState, es: seq<PlayerEvent>)
    requires s.isUserSeeking
    requires forall i :: 0 <= i < |es| ==> KeepsSeekFrozen(es[i])
    ensures Run(userId, s, es).isUserSeeking
    ensures Run(userId, s, es).currentTime == s.currentTime
    decreases |es|
  {
    if es != [] {
      var s1 := Step(userId, s, es[0]);
      assert s1.currentTime == s.currentTime && s1.isUserSeeking;
      SeekingFreezesCurrentTime(userId, s1, es[1..]);
    }
  }

  /** While dragging, a remote row never moves the element either. */
  lemma SeekingIgnoresRemotePosition(userId: string, s: PlayerState, row: PlaybackRow)
    requires s.isUserSeeking
    ensures Step(userId, s, RemoteUpdate(row)).mediaPosition == s.mediaPosition
  {
  }

  /** Releasing the slider ends the drag and, unthrottled, publishes the
      position the slider was left at. */
  lemma SeekReleasePublishesPosition(sessionId: string, userId: string, s: PlayerState, t: Seconds, now: nat)
    requires s.isUserSeeking
    ensures var s1 := Step(userId, s, SeekChange(t));
      && !Step(userId, s1, SeekEnd(now)).isUserSeeking
      && (now - s.lastUpdateTime >= 500 ==>
            Emitted(sessionId, userId, s1, SeekEnd(now)) == Some(PlaybackRow(sessionId, s.isPlaying, t, now, userId)))
  {
  }

  // ---------------------------------------------------------------------------
  // The component

  class VideoPlayer {
    const sessionId: string
    const userId: string
    var isPlaying: bool
    var currentTime: Seconds
    var mediaPosition: Seconds
    var volume: Volume
    var isMuted: bool
    var isUserSeeking: bool
    var lastUpdateTime: int

    function State(): PlayerState
      reads this
    {
      PlayerState(isPlaying, currentTime, mediaPosition, volume, isMuted, isUserSeeking, lastUpdateTime)
    }

    constructor (sessionId: string, userId: string, mountTime: nat)
      ensures this.sessionId == sessionId && this.userId == userId
      ensures State() == Initial(mountTime)
    {
      this.sessionId := sessionId;
      this.userId := userId;
      isPlaying, currentTime, mediaPosition := false, 0.0, 0.0;
      volume, isMuted, isUserSeeking := 1.0, false, false;
      lastUpdateTime := mountTime;
    }

    /** The realtime handler for an UPDATE of this session's playback row; the
        subscription's filter delivers only rows of this session. */
    method OnRemoteUpdate(row: PlaybackRow)
      requires row.sessionId == sessionId
      modifies this
      ensures State() == Step(userId, old(State()), RemoteUpdate(row))
    {
      if row.updatedBy != userId {
        if row.isPlaying != isPlaying {
          isPlaying := row.isPlaying;
        }
        if !isUserSeeking && Abs(row.currentTime - currentTime) > SeekThreshold {
          mediaPosition := row.currentTime;
        }
      }
    }

    /** updatePlaybackState: throttled upsert of this user's playback row. */
    method UpdatePlaybackState(playing: bool, time: Seconds, now: nat, store: SessionStore)
      requires store.Valid()
      modifies this`lastUpdateTime, store
      ensures store.Valid()
      ensures State() == AfterPublish(old(State()), now)
      ensures var r := Publication(sessionId, userId, old(State()), playing, time, now);
        store.playback == if r.Some? then old(store.playback)[sessionId := r.value] else old(store.playback)
      ensures store.sessions == old(store.sessions) && store.viewers == old(store.viewers)
      ensures store.content == old(store.content)
    {
      if now - lastUpdateTime < ThrottleMs {
        return;
      }
      lastUpdateTime := now;
      store.UpsertPlaybackState(PlaybackRow(sessionId, playing, time, now, userId));
    }

    method TogglePlay(now: nat, store: SessionStore)
      requires store.Valid()
      modifies this, store
      ensures store.Valid()
      ensures State() == Step(userId, old(State()), PlayerEvent.TogglePlay(now))
      ensures var r := Emitted(sessionId, userId, old(State()), PlayerEvent.TogglePlay(now));
        store.playback == if r.Some? then old(store.playback)[sessionId := r.value] else old(store.playback)
      ensures store.sessions == old(store.sessions) && store.viewers == old(store.viewers)
      ensures store.content == old(store.content)
    {
      var newPlayingState := !isPlaying;
      isPlaying := newPlayingState;
      UpdatePlaybackState(newPlayingState, currentTime, now, store);
    }

    method HandleTimeUpdate(elementTime: Seconds)
      modifies this
      ensures State() == Step(userId, old(State()), TimeUpdate(elementTime))
    {
      mediaPosition := elementTime;
      if !isUserSeeking {
        currentTime := elementTime;
      }
    }

    method HandleVolumeChange(level: Volume)
      modifies this
      ensures State() == Step(userId, old(State()), VolumeChange(level))
    {
      volume := level;
      isMuted := level == 0.0;
    }

    method ToggleMute()
      modifies this
      ensures State() == Step(userId, old(State()), PlayerEvent.ToggleMute)
    {
      isMuted := !isMuted;
    }

    method HandleSeekStart()
      modifies this
      ensures State() == Step(userId, old(State()), SeekStart)
    {
      isUserSeeking := true;
    }

    method HandleSeekChange(time: Seconds)
      modifies this
      ensures State() == Step(userId, old(State()), SeekChange(time))
    {
      currentTime := time;
      mediaPosition := time;
    }

    method HandleSeekEnd(now: nat, store: SessionStore)
      requires store.Valid()
      modifies this, store
      ensures store.Valid()
      ensures State() == Step(userId, old(State()), SeekEnd(now))
      ensures var r := Emitted(sessionId, userId, old(State()), SeekEnd(now));
        store.playback == if r.Some? then old(store.playback)[sessionId := r.value] else old(store.playback)
      ensures store.sessions == old(store.sessions) && store.viewers == old(store.viewers)
      ensures store.content == old(store.content)
    {
      isUserSeeking := false;
      UpdatePlaybackState(isPlaying, currentTime, now, store);
    }

    /** The elapsed-time label beside the progress bar: an m:ss clock whose
        fields read back as the whole seconds of the shown time. */
    function ElapsedLabel(): (clock: string)
      reads this
      ensures |clock| >= 4 && clock[|clock| - 3] == ':'
      ensures Text.IsDigits(clock[..|clock| - 3]) && Text.IsDigits(clock[|clock| - 2..])
      ensures |clock| == 4 || clock[0] != '0'
      ensures Text.ParseNat(clock[|clock| - 2..]) < 60
      ensures Text.ParseNat(clock[..|clock| - 3]) * 60 + Text.ParseNat(clock[|clock| - 2..]) == FloorNat(currentTime)
    {
      FormatTimeReadsBack(currentTime);
      FormatTime(currentTime)
    }
  }
}
