/** src/components/pages/JoinSession.tsx: the join form's submit handler. The
    signed-in user is a parameter, the session tables are the shared store, and
    whether the backend fails the join request is a parameter. */
module Join {
  import opened Wrappers
  import opened Text
  import opened Sessions

  datatype AuthUser = AuthUser(id: string, email: Option<string>)

  /** How a submit ends. */
  datatype JoinOutcome =
    | BlankSessionId
    | BlankPin
    | LoginRequired      // redirected to "/login" after a toast
    | InvalidSession
    | JoinFailed         // joinSession threw
    | Joined(path: string)

  const LoginPath: string := "/login"

  /** The error the form shows for each outcome ("" when it shows none). */
  function ErrorText(o: JoinOutcome): string {
    match o
    case BlankSessionId => "Please enter a session ID"
    case BlankPin => "Please enter a PIN"
    case InvalidSession => "Invalid session ID or PIN"
    case JoinFailed => "Failed to join session. Please try again."
    case _ => ""
  }

  /** The waiting-room address a successful join navigates to. */
  function WaitingRoomPath(sessionId: string, pin: string): string {
    "/waiting-room/" + sessionId + "?pin=" + pin + "&host=false"
  }

  /** `user.email || "Anonymous"`: a missing or empty e-mail gives "Anonymous". */
  function DisplayName(user: AuthUser): string {
    if user.email.Some? && user.email.value != "" then user.email.value else "Anonymous"
  }

  /** The checks of handleJoinSession in their order, given whether the session
      validates and whether the join request fails. */
  function Outcome(sessionId: string, pin: string, user: Option<AuthUser>, valid: bool, joinFails: bool): JoinOutcome {
    if IsBlank(sessionId) then BlankSessionId
    else if IsBlank(pin) then BlankPin
    else if user.None? then LoginRequired
    else if !valid then InvalidSession
    else if joinFails then JoinFailed
    else Joined(WaitingRoomPath(sessionId, pin))
  }

  /** Whether the handler reaches the backend (line 47 on): only a filled-in form
      with a signed-in user does. */
  predicate ReachesBackend(sessionId: string, pin: string, user: Option<AuthUser>) {
    !IsBlank(sessionId) && !IsBlank(pin) && user.Some?
  }

  /** The checks come in order: a blank id is reported whatever the PIN, the
      user or the backend say; a blank PIN only with an id; the login redirect
      only for a filled-in form; the backend's answers only once it is reached.
      A join is reported only when the session validated and the join succeeded. */
  lemma OutcomeOrder(sessionId: string, pin: string, user: Option<AuthUser>, valid: bool, joinFails: bool)
    ensures var o := Outcome(sessionId, pin, user, valid, joinFails);
      && (AllWhiteSpace(sessionId) ==> o == BlankSessionId)
      && (o == BlankPin <==> !AllWhiteSpace(sessionId) && AllWhiteSpace(pin))
      && (o == LoginRequired <==> !AllWhiteSpace(sessionId) && !AllWhiteSpace(pin) && user.None?)
      && (!ReachesBackend(sessionId, pin, user) ==> !o.Joined? && o != InvalidSession && o != JoinFailed)
      && (o.Joined? <==> ReachesBackend(sessionId, pin, user) && valid && !joinFails)
      && (o.Joined? ==> o.path == WaitingRoomPath(sessionId, pin))
      && (o == InvalidSession ==> ErrorText(o) == "Invalid session ID or PIN")
  {
    BlankIffAllWhiteSpace(sessionId);
    BlankIffAllWhiteSpace(pin);
  }

  /** Before the backend is reached, its answers do not matter. */
  lemma OutcomeBeforeBackend(sessionId: string, pin: string, user: Option<AuthUser>, valid: bool, joinFails: bool)
    requires !ReachesBackend(sessionId, pin, user)
    ensures Outcome(sessionId, pin, user, valid, joinFails) == Outcome(sessionId, pin, user, false, false)
    ensures !Outcome(sessionId, pin, user, valid, joinFails).Joined?
  {
  }

  /** Once the backend is reached, its answers decide. */
  lemma OutcomeAtBackend(sessionId: string, pin: string, user: Option<AuthUser>, valid: bool, joinFails: bool)
    requires ReachesBackend(sessionId, pin, user)
    ensures Outcome(sessionId, pin, user, valid, joinFails) ==
      if !valid then InvalidSession else if joinFails then JoinFailed else Joined(WaitingRoomPath(sessionId, pin))
  {
  }

  /** The join path carries the id and PIN as typed and always says host=false. */
  lemma WaitingRoomPathParts(sessionId: string, pin: string)
    ensures var p := WaitingRoomPath(sessionId, pin);
      && p[..14] == "/waiting-room/"
      && p[14..14 + |sessionId|] == sessionId
      && p[14 + |sessionId|..19 + |sessionId|] == "?pin="
      && p[19 + |sessionId|..19 + |sessionId| + |pin|] == pin
      && p[19 + |sessionId| + |pin|..] == "&host=false"
  {
  }

  class JoinForm {
    var sessionId: string
    var pin: string
    var error: string
    var isLoading: bool

    constructor ()
      ensures sessionId == "" && pin == "" && error == "" && !isLoading
    {
      sessionId, pin, error, isLoading := "", "", "", false;
    }

    /** The session-id input's onChange. */
    method SetSessionId(text: string)
      modifies this`sessionId
      ensures sessionId == text
    {
      sessionId := text;
    }

    /** The PIN input's onChange. */
    method SetPin(text: string)
      modifies this`pin
      ensures pin == text
    {
      pin := text;
    }

    /** The form checks of handleJoinSession (lines 25-45): clears the error,
        then stops at the first blank field or a missing user. */
    method CheckForm(user: Option<AuthUser>) returns (early: Option<JoinOutcome>)
      modifies this`error
      ensures early.Some? <==> !ReachesBackend(sessionId, pin, user)
      ensures early.Some? ==> early.value == Outcome(sessionId, pin, user, false, false)
      ensures error == if early.Some? then ErrorText(early.value) else ""
    {
      error := "";
      if IsBlank(sessionId) {
        error := "Please enter a session ID";
        return Some(BlankSessionId);
      }
      if IsBlank(pin) {
        error := "Please enter a PIN";
        return Some(BlankPin);
      }
      if user.None? {
        return Some(LoginRequired);
      }
      early := None;
    }

    /** handleJoinSession. Returns how the submit ends and where the page
        navigates, if anywhere. The store changes only when the join goes
        through, and then only by the user's non-host join of the typed session. */
    method HandleJoinSession(user: Option<AuthUser>, store: SessionStore, joinFails: bool, now: nat)
      returns (outcome: JoinOutcome, navigateTo: Option<string>)
      requires store.Valid()
      modifies this`error, this`isLoading, store
      ensures store.Valid()
      ensures outcome == Outcome(sessionId, pin, user, Joinable(old(store.sessions), sessionId, pin), joinFails)
      ensures error == ErrorText(outcome)
      ensures navigateTo == match outcome
        case LoginRequired => Some(LoginPath)
        case Joined(path) => Some(path)
        case _ => None
      ensures ReachesBackend(sessionId, pin, user) ==> !isLoading
      ensures !ReachesBackend(sessionId, pin, user) ==> isLoading == old(isLoading)
      ensures outcome.Joined? ==>
        var key := (sessionId, user.value.id);
        && key in store.viewers
        && store.viewers == old(store.viewers)[key := store.viewers[key]]
        && (key in old(store.viewers) ==>
              store.viewers[key] == old(store.viewers)[key].(connectionQuality := Some(Good), joinedAt := now))
        && (key !in old(store.viewers) ==>
              store.viewers[key] == ViewerRow(sessionId, user.value.id, DisplayName(user.value), now, Some(Good), Waiting))
      ensures !outcome.Joined? ==> store.viewers == old(store.viewers)
      ensures store.sessions == old(store.sessions) && store.content == old(store.content)
      ensures store.playback == old(store.playback)
    {
      ghost var valid := Joinable(store.sessions, sessionId, pin);
      var early := CheckForm(user);
      if early.Some? {
        OutcomeBeforeBackend(sessionId, pin, user, valid, joinFails);
        outcome := early.value;
        navigateTo := if outcome == LoginRequired then Some(LoginPath) else None;
        return;
      }
      OutcomeAtBackend(sessionId, pin, user, valid, joinFails);
      navigateTo := None;
      isLoading := true;
      var isValid := store.ValidateSession(sessionId, pin);
      if !isValid {
        error := "Invalid session ID or PIN";
        outcome := InvalidSession;
      } else if joinFails {
        error := "Failed to join session. Please try again.";
        outcome := JoinFailed;
      } else {
        var row := store.JoinSession(sessionId, user.value.id, DisplayName(user.value), false, now);
        outcome := Joined(WaitingRoomPath(sessionId, pin));
        navigateTo := Some(outcome.path);
      }
      isLoading := false;
    }
  }
}
