/** src/components/session/ViewerSession.tsx: the session screen's side
    panels, the viewer list it fetches, and ending or leaving the session.
    The signed-in user is a parameter; the tables are the shared store. */
module Viewing {
  import opened Wrappers
  import opened Text
  import opened Sessions

  // ---------------------------------------------------------------------------
  // The chat and viewer panels

  datatype Panels = Panels(chatOpen: bool, viewersOpen: bool)

  /** The screen opens with the chat shown and the viewer list hidden. */
  const InitialPanels: Panels := Panels(true, false)

  /** toggleChat: flips the chat; opening it closes the viewer list. Both
      tests read the flags as they were before the click. */
  function ToggleChat(p: Panels): Panels {
    Panels(!p.chatOpen, if p.viewersOpen && !p.chatOpen then false else p.viewersOpen)
  }

  /** toggleViewers: flips the viewer list; opening it closes the chat. */
  function ToggleViewers(p: Panels): Panels {
    Panels(if p.chatOpen && !p.viewersOpen then false else p.chatOpen, !p.viewersOpen)
  }

  /** The two panels are never shown together. */
  predicate Exclusive(p: Panels) {
    !(p.chatOpen && p.viewersOpen)
  }

  datatype PanelClick = ChatButton | ViewersButton

  function Click(p: Panels, c: PanelClick): Panels {
    match c
    case ChatButton => ToggleChat(p)
    case ViewersButton => ToggleViewers(p)
  }

  function Clicks(p: Panels, cs: seq<PanelClick>): Panels
    decreases |cs|
  {
    if cs == [] then p else Clicks(Click(p, cs[0]), cs[1..])
  }

  /** Each toggle flips its own panel, and opening a panel closes the other;
      closing a panel leaves the other as it was. */
  lemma ToggleEffects(p: Panels)
    ensures ToggleChat(p).chatOpen == !p.chatOpen
    ensures ToggleChat(p).chatOpen ==> !ToggleChat(p).viewersOpen
    ensures !ToggleChat(p).chatOpen ==> ToggleChat(p).viewersOpen == p.viewersOpen
    ensures ToggleViewers(p).viewersOpen == !p.viewersOpen
    ensures ToggleViewers(p).viewersOpen ==> !ToggleViewers(p).chatOpen
    ensures !ToggleViewers(p).viewersOpen ==> ToggleViewers(p).chatOpen == p.chatOpen
  {
  }

  /** Both toggles keep the panels exclusive. */
  lemma ClickKeepsExclusive(p: Panels, c: PanelClick)
    requires Exclusive(p)
    ensures Exclusive(Click(p, c))
  {
  }

  /** However the buttons are clicked, from the opening screen on the chat and
      the viewer list are never shown together. */
  lemma {:induction false} PanelsStayExclusive(p: Panels, cs: seq<PanelClick>)
    requires Exclusive(p)
    ensures Exclusive(Clicks(p, cs))
    decreases |cs|
  {
    if cs != [] {
      ClickKeepsExclusive(p, cs[0]);
      PanelsStayExclusive(Click(p, cs[0]), cs[1..]);
    }
  }

  lemma NeverBothOpen(cs: seq<PanelClick>)
    ensures Exclusive(Clicks(InitialPanels, cs))
  {
    PanelsStayExclusive(InitialPanels, cs);
  }

  // ---------------------------------------------------------------------------
  // The viewer list

  /** A viewer as the list shows it. */
  datatype Viewer = Viewer(id: string, name: string, email: Option<string>, isHost: bool,
                           connectionQuality: ConnectionQuality)

  /** One fetched row in display form; the host is taken to be the user of
      the first row. */
  function FormatViewer(row: ViewerRow, firstUserId: string): Viewer {
    Viewer(row.userId, row.userName,
           if Includes(row.userId, '@') then Some(row.userId) else None,
           row.userId == firstUserId,
           row.connectionQuality.GetOr(Good))
  }

  /** fetchViewers' transformation of the rows `getSessionViewers` returned. */
  function MapViewers(rows: seq<ViewerRow>): seq<Viewer> {
    if rows == [] then []
    else seq(|rows|, i requires 0 <= i < |rows| => FormatViewer(rows[i], rows[0].userId))
  }

  /** The list keeps the rows' number and order. Each viewer carries its row's
      user id and name; the e-mail is the user id exactly when that contains an
      '@'; a viewer is the host exactly when it shares the first row's user id;
      a missing connection quality shows as good. */
  lemma MappedViewer(rows: seq<ViewerRow>, i: int)
    requires 0 <= i < |rows|
    ensures |MapViewers(rows)| == |rows|
    ensures var v := MapViewers(rows)[i];
      && v.id == rows[i].userId && v.name == rows[i].userName
      && (v.email.Some? <==> exists k :: 0 <= k < |rows[i].userId| && rows[i].userId[k] == '@')
      && (v.email.Some? ==> v.email.value == rows[i].userId)
      && (v.isHost <==> rows[i].userId == rows[0].userId)
      && (rows[i].connectionQuality.None? ==> v.connectionQuality == Good)
      && (rows[i].connectionQuality.Some? ==> v.connectionQuality == rows[i].connectionQuality.value)
  {
  }

  /** With a non-empty list of distinct users, as getSessionViewers returns for
      one session, exactly one viewer is marked host: the first. */
  lemma OneHost(rows: seq<ViewerRow>)
    requires rows != []
    requires forall i, j :: 0 <= i < j < |rows| ==> rows[i].userId != rows[j].userId
    ensures MapViewers(rows)[0].isHost
    ensures forall i :: 0 < i < |rows| ==> !MapViewers(rows)[i].isHost
  {
    forall i | 0 < i < |rows|
      ensures !MapViewers(rows)[i].isHost
    {
      MappedViewer(rows, i);
    }
  }

  // ---------------------------------------------------------------------------
  // The component

  const HomePath: string := "/"

  class ViewerSession {
    const sessionId: string
    const isHost: bool
    const userId: Option<string>
    var chatOpen: bool
    var viewersOpen: bool
    var viewers: seq<Viewer>

    function PanelState(): Panels
      reads this
    {
      Panels(chatOpen, viewersOpen)
    }

    /** The screen as it opens, with the given placeholder list. */
    constructor (sessionId: string, isHost: bool, userId: Option<string>, placeholder: seq<Viewer>)
      ensures this.sessionId == sessionId && this.isHost == isHost && this.userId == userId
      ensures PanelState() == InitialPanels && viewers == placeholder
    {
      this.sessionId, this.isHost, this.userId := sessionId, isHost, userId;
      chatOpen, viewersOpen, viewers := true, false, placeholder;
    }

    method ToggleChatPanel()
      modifies this`chatOpen, this`viewersOpen
      ensures PanelState() == ToggleChat(old(PanelState()))
    {
      var wasChatOpen := chatOpen;
      chatOpen := !wasChatOpen;
      if viewersOpen && !wasChatOpen {
        viewersOpen := false;
      }
    }

    method ToggleViewersPanel()
      modifies this`chatOpen, this`viewersOpen
      ensures PanelState() == ToggleViewers(old(PanelState()))
    {
      var wasViewersOpen := viewersOpen;
      viewersOpen := !wasViewersOpen;
      if chatOpen && !wasViewersOpen {
        chatOpen := false;
      }
    }

    /** fetchViewers: replaces the whole list with the session's rows in
        display form; `rows` is what the query returned. */
    method FetchViewers(store: SessionStore) returns (rows: seq<ViewerRow>)
      requires store.Valid()
      modifies this`viewers
      ensures viewers == MapViewers(rows)
      ensures forall i :: 0 <= i < |rows| ==> rows[i].sessionId == sessionId && rows[i] in store.viewers.Values
      ensures forall k :: k in store.viewers && store.viewers[k].sessionId == sessionId ==> store.viewers[k] in rows
      ensures forall i, j :: 0 <= i < j < |rows| ==> rows[i].userId != rows[j].userId
    {
      rows := store.GetSessionViewers(sessionId, None);
      forall i | 0 <= i < |rows|
        ensures rows[i] in store.viewers.Values
      {
        assert store.viewers[(rows[i].sessionId, rows[i].userId)] == rows[i];
      }
      viewers := MapViewers(rows);
    }

    /** The effect on mount: the list is fetched only for a non-empty session id. */
    method Mount(store: SessionStore) returns (rows: Option<seq<ViewerRow>>)
      requires store.Valid()
      modifies this`viewers
      ensures sessionId == "" ==> rows == None && viewers == old(viewers)
      ensures sessionId != "" ==> rows.Some? && viewers == MapViewers(rows.value)
    {
      if sessionId != "" {
        var fetched := FetchViewers(store);
        rows := Some(fetched);
      } else {
        rows := None;
      }
    }

    /** The effect's cleanup on unmount: a signed-in user leaves a named
        session; nothing else is touched. */
    method Unmount(store: SessionStore)
      requires store.Valid()
      modifies store
      ensures store.Valid()
      ensures userId.Some? && sessionId != "" ==> store.viewers == old(store.viewers) - {(sessionId, userId.value)}
      ensures !(userId.Some? && sessionId != "") ==> store.viewers == old(store.viewers)
      ensures store.sessions == old(store.sessions) && store.content == old(store.content)
      ensures store.playback == old(store.playback)
    {
      if userId.Some? && sessionId != "" {
        var _ := store.RemoveSessionViewer(sessionId, userId.value);
      }
    }

    /** handleEndSession: only the host of a named session marks it ended;
        everyone is then sent home. */
    method HandleEndSession(store: SessionStore) returns (navigateTo: string)
      requires store.Valid()
      modifies store
      ensures store.Valid()
      ensures navigateTo == HomePath
      ensures isHost && sessionId != "" && sessionId in old(store.sessions) ==>
        store.sessions == old(store.sessions)[sessionId := old(store.sessions)[sessionId].(status := Ended)]
      ensures !(isHost && sessionId != "" && sessionId in old(store.sessions)) ==> store.sessions == old(store.sessions)
      ensures store.viewers == old(store.viewers) && store.content == old(store.content)
      ensures store.playback == old(store.playback)
    {
      if isHost && sessionId != "" {
        var _ := store.UpdateSessionStatus(sessionId, Ended);
      }
      navigateTo := HomePath;
    }
  }

  /** Ending the session from a non-host screen never touches the sessions
      table, while the host's screen ends a session that exists, whatever
      other sessions the table holds. */
  method EndSessionWritesOnlyForHost(existing: map<string, SessionRow>, sessionId: string, pin: string,
                                     hostId: string, now: nat)
    returns (hostEnded: bool, viewerEnded: bool)
    requires SessionsKeyed(existing) && sessionId !in existing
    requires sessionId != ""
    ensures hostEnded && !viewerEnded
  {
    var store := new SessionStore();
    store.sessions := existing;
    var _ := store.CreateSession(hostId, sessionId, pin, now);
    var viewerScreen := new ViewerSession(sessionId, false, Some(hostId), []);
    var _ := viewerScreen.HandleEndSession(store);
    viewerEnded := store.sessions[sessionId].status == Ended;
    var hostScreen := new ViewerSession(sessionId, true, Some(hostId), []);
    var _ := hostScreen.HandleEndSession(store);
    hostEnded := store.sessions[sessionId].status == Ended;
  }
}
