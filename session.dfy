/** src/lib/session.ts: identifier and PIN generation, and the session tables
    (`sessions`, `session_viewers`, `session_content`, `session_playback_state`)
    with the functions that insert, update and delete their rows. The hosted
    database is modelled as in-memory maps keyed by each table's identifying
    columns; the clock (`new Date()`) and `Math.random()` are parameters. */
module Sessions {
  import opened Wrappers
  import opened Text
  import opened MediaTime

  // ---------------------------------------------------------------------------
  // Session identifiers and PINs

  const SessionIdPrefix: string := "MOVIE"

  predicate IsBase36LowerDigit(c: char) {
    IsDigit(c) || IsLowerAscii(c)
  }

  predicate IsBase36UpperDigit(c: char) {
    IsDigit(c) || 'A' <= c <= 'Z'
  }

  /** What `Math.random().toString(36)` produces for a number in [0, 1):
      "0" for zero, otherwise "0." followed by lower-case base-36 digits. */
  predicate IsRandomRendering(r: string) {
    r == "0" || (|r| >= 3 && r[..2] == "0." && forall i :: 2 <= i < |r| ==> IsBase36LowerDigit(r[i]))
  }

  /** generateSessionId, given the base-36 rendering of the random number. */
  function GenerateSessionId(rendered: string): string {
    SessionIdPrefix + "-" + ToUpperAscii(Substring(rendered, 2, 8))
  }

  /** A generated identifier is "MOVIE-" followed by at most six upper-case
      base-36 characters: characters 2 to 7 of the rendering, upper-cased. */
  lemma GeneratedSessionIdShape(rendered: string)
    requires IsRandomRendering(rendered)
    ensures var id := GenerateSessionId(rendered);
      && 6 <= |id| <= 12
      && id[..6] == "MOVIE-"
      && (forall i :: 6 <= i < |id| ==> IsBase36UpperDigit(id[i]))
      && (|rendered| >= 8 ==> |id| == 12)
      && (rendered == "0" ==> id == "MOVIE-")
      && (|rendered| >= 2 ==> id[6..] == ToUpperAscii(rendered[2..if |rendered| < 8 then |rendered| else 8]))
  {
    var id := GenerateSessionId(rendered);
    var suffix := Substring(rendered, 2, 8);
    assert id == "MOVIE-" + ToUpperAscii(suffix);
    forall i | 6 <= i < |id| ensures IsBase36UpperDigit(id[i]) {
      assert id[i] == UpperAscii(suffix[i - 6]);
      assert suffix[i - 6] == rendered[i - 4];
    }
  }

  /** generatePin, given the value u in [0, 1) of `Math.random()`:
      `Math.floor(1000 + u * 9000).toString()`. */
  function GeneratePin(u: real): string
    requires 0.0 <= u < 1.0
  {
    var n := (1000.0 + u * 9000.0).Floor;
    assert 1000 <= n;
    NatToString(n)
  }

  /** Every generated PIN is four decimal digits reading a number in 1000..9999. */
  lemma PinIsFourDigits(u: real)
    requires 0.0 <= u < 1.0
    ensures var pin := GeneratePin(u);
      |pin| == 4 && IsDigits(pin) && 1000 <= ParseNat(pin) <= 9999
  {
    var n := (1000.0 + u * 9000.0).Floor;
    assert u * 9000.0 < 9000.0;
    assert 1000 <= n <= 9999;
    assert Pow10(3) == 1000 && Pow10(4) == 10000;
    NatToStringLength(n, 4);
    ParseNatToString(n);
  }

  /** Every PIN from 1000 to 9999 is produced by some random value. */
  lemma EveryPinIsGenerated(n: nat)
    requires 1000 <= n <= 9999
    ensures GeneratePin((n - 1000) as real / 9000.0) == NatToString(n)
  {
    var u := (n - 1000) as real / 9000.0;
    assert u * 9000.0 == (n - 1000) as real;
    assert 1000.0 + u * 9000.0 == n as real;
  }

  // ---------------------------------------------------------------------------
  // Rows

  datatype SessionStatus = Pending | Active | Ended

  /** Admission of a viewer: "pending", "admitted" or "rejected". */
  datatype ViewerStatus = Waiting | Admitted | Rejected

  datatype ConnectionQuality = Good | Fair | Poor | Offline

  datatype SessionRow = SessionRow(sessionId: string, pin: string, hostId: string,
                                   status: SessionStatus, createdAt: nat)

  datatype ViewerRow = ViewerRow(sessionId: string, userId: string, userName: string,
                                 joinedAt: nat, connectionQuality: Option<ConnectionQuality>,
                                 status: ViewerStatus)

  datatype ContentRow = ContentRow(sessionId: string, contentType: string, contentSource: string,
                                   contentTitle: Option<string>, addedAt: nat)

  datatype PlaybackRow = PlaybackRow(sessionId: string, isPlaying: bool, currentTime: Seconds,
                                     updatedAt: nat, updatedBy: string)

  /** Inserting a row whose key is already present fails. */
  datatype DbError = DuplicateKey

  const SystemUpdater: string := "system"

  /** The condition validateSession checks: a session with this id and PIN
      that has not ended. */
  predicate Joinable(sessions: map<string, SessionRow>, sessionId: string, pin: string) {
    sessionId in sessions && sessions[sessionId].pin == pin && sessions[sessionId].status != Ended
  }

  predicate ViewerMatches(row: ViewerRow, sessionId: string, status: Option<ViewerStatus>) {
    row.sessionId == sessionId && (status.Some? ==> row.status == status.value)
  }

  // ---------------------------------------------------------------------------
  // The tables

  /** Every session row sits under its own session_id. */
  predicate SessionsKeyed(sessions: map<string, SessionRow>) {
    forall id :: id in sessions ==> sessions[id].sessionId == id
  }

  /** Every viewer row sits under its own (session_id, user_id). */
  predicate ViewersKeyed(viewers: map<(string, string), ViewerRow>) {
    forall k :: k in viewers ==> viewers[k].sessionId == k.0 && viewers[k].userId == k.1
  }

  class SessionStore {
    /** `sessions`, keyed by session_id. */
    var sessions: map<string, SessionRow>
    /** `session_viewers`, keyed by (session_id, user_id). */
    var viewers: map<(string, string), ViewerRow>
    /** `session_content`, keyed by session_id. */
    var content: map<string, ContentRow>
    /** `session_playback_state`, keyed by session_id. */
    var playback: map<string, PlaybackRow>

    /** Every row sits under the key made of its own identifying columns. */
    ghost predicate Valid()
      reads this
    {
      && SessionsKeyed(sessions)
      && ViewersKeyed(viewers)
      && (forall id :: id in content ==> content[id].sessionId == id)
      && (forall id :: id in playback ==> playback[id].sessionId == id)
    }

    constructor ()
      ensures Valid()
      ensures sessions == map[] && viewers == map[] && content == map[] && playback == map[]
    {
      sessions, viewers, content, playback := map[], map[], map[], map[];
    }

    /** createSession: inserts a "pending" session hosted by userId. */
    method CreateSession(userId: string, sessionId: string, pin: string, now: nat)
      returns (r: Result<SessionRow, DbError>)
      requires Valid()
      modifies this
      ensures Valid()
      ensures old(sessionId in sessions) ==> r == Err(DuplicateKey) && sessions == old(sessions)
      ensures old(sessionId !in sessions) ==>
        && r == Ok(SessionRow(sessionId, pin, userId, Pending, now))
        && sessions == old(sessions)[sessionId := r.value]
      ensures viewers == old(viewers) && content == old(content) && playback == old(playback)
    {
      if sessionId in sessions {
        r := Err(DuplicateKey);
      } else {
        var row := SessionRow(sessionId, pin, userId, Pending, now);
        sessions := sessions[sessionId := row];
        r := Ok(row);
      }
    }

    /** validateSession: true iff a session with this id has this PIN and is
        still "pending" or "active"; an unknown id, a wrong PIN or an ended
        session gives false. */
    method ValidateSession(sessionId: string, pin: string) returns (ok: bool)
      ensures ok <==> sessionId in sessions && sessions[sessionId].pin == pin
                      && sessions[sessionId].status != Ended
    {
      if sessionId !in sessions {
        return false;
      }
      var row := sessions[sessionId];
      ok := row.pin == pin && (row.status == Pending || row.status == Active);
    }

    /** joinSession: refreshes the (session, user) row when it exists, otherwise
        inserts one that is admitted iff the user is the host. */
    method JoinSession(sessionId: string, userId: string, userName: string, isHost: bool, now: nat)
      returns (row: ViewerRow)
      requires Valid()
      modifies this
      ensures Valid()
      ensures (sessionId, userId) in old(viewers) ==>
        row == old(viewers)[(sessionId, userId)].(connectionQuality := Some(Good), joinedAt := now)
      ensures (sessionId, userId) !in old(viewers) ==>
        row == ViewerRow(sessionId, userId, userName, now, Some(Good), if isHost then Admitted else Waiting)
      ensures viewers == old(viewers)[(sessionId, userId) := row]
      ensures sessions == old(sessions) && content == old(content) && playback == old(playback)
    {
      var key := (sessionId, userId);
      if key in viewers {
        row := viewers[key].(connectionQuality := Some(Good), joinedAt := now);
      } else {
        row := ViewerRow(sessionId, userId, userName, now, Some(Good), if isHost then Admitted else Waiting);
      }
      viewers := viewers[key := row];
    }

    /** updateSessionStatus: writes any status, whatever the current one is;
        the updated row, or None when no session has this id. */
    method UpdateSessionStatus(sessionId: string, status: SessionStatus) returns (row: Option<SessionRow>)
      requires Valid()
      modifies this
      ensures Valid()
      ensures sessionId in old(sessions) ==>
        && row == Some(old(sessions)[sessionId].(status := status))
        && sessions == old(sessions)[sessionId := row.value]
      ensures sessionId !in old(sessions) ==> row == None && sessions == old(sessions)
      ensures viewers == old(viewers) && content == old(content) && playback == old(playback)
    {
      if sessionId in sessions {
        var updated := sessions[sessionId].(status := status);
        sessions := sessions[sessionId := updated];
        row := Some(updated);
      } else {
        row := None;
      }
    }

    /** addSessionContent: replaces the session's content with one new row and
        resets its playback state to paused at 0 s, written by "system". */
    method AddSessionContent(sessionId: string, contentType: string, contentSource: string,
                             contentTitle: Option<string>, now: nat)
      returns (row: ContentRow)
      requires Valid()
      modifies this
      ensures Valid()
      ensures row == ContentRow(sessionId, contentType, contentSource, contentTitle, now)
      ensures content == old(content)[sessionId := row]
      ensures playback == old(playback)[sessionId := PlaybackRow(sessionId, false, 0.0, now, SystemUpdater)]
      ensures sessions == old(sessions) && viewers == old(viewers)
    {
      content := map id | id in content && id != sessionId :: content[id];
      row := ContentRow(sessionId, contentType, contentSource, contentTitle, now);
      content := content[sessionId := row];
      playback := playback[sessionId := PlaybackRow(sessionId, false, 0.0, now, SystemUpdater)];
    }

    /** getSessionViewers: every viewer row of the session (with the given
        admission status, when one is given), each exactly once, in an order
        the database does not promise. */
    method GetSessionViewers(sessionId: string, status: Option<ViewerStatus>) returns (rows: seq<ViewerRow>)
      requires Valid()
      ensures forall i :: 0 <= i < |rows| ==>
        && (rows[i].sessionId, rows[i].userId) in viewers
        && viewers[(rows[i].sessionId, rows[i].userId)] == rows[i]
        && ViewerMatches(rows[i], sessionId, status)
      ensures forall k :: k in viewers && ViewerMatches(viewers[k], sessionId, status) ==> viewers[k] in rows
      ensures forall i, j :: 0 <= i < j < |rows| ==> rows[i].userId != rows[j].userId
    {
      rows := [];
      var todo := viewers.Keys;
      while todo != {}
        invariant todo <= viewers.Keys
        invariant forall i :: 0 <= i < |rows| ==>
          && (rows[i].sessionId, rows[i].userId) in viewers - todo
          && viewers[(rows[i].sessionId, rows[i].userId)] == rows[i]
          && ViewerMatches(rows[i], sessionId, status)
        invariant forall k :: k in viewers && k !in todo && ViewerMatches(viewers[k], sessionId, status) ==>
          viewers[k] in rows
        invariant forall i, j :: 0 <= i < j < |rows| ==> rows[i].userId != rows[j].userId
        decreases todo
      {
        var k :| k in todo;
        var row := viewers[k];
        if ViewerMatches(row, sessionId, status) {
          rows := rows + [row];
        }
        todo := todo - {k};
      }
    }

    /** updateViewerConnectionQuality: changes only the (session, user) row. */
    method UpdateViewerConnectionQuality(sessionId: string, userId: string, quality: ConnectionQuality)
      returns (row: Option<ViewerRow>)
      requires Valid()
      modifies this
      ensures Valid()
      ensures (sessionId, userId) in old(viewers) ==>
        && row == Some(old(viewers)[(sessionId, userId)].(connectionQuality := Some(quality)))
        && viewers == old(viewers)[(sessionId, userId) := row.value]
      ensures (sessionId, userId) !in old(viewers) ==> row == None && viewers == old(viewers)
      ensures sessions == old(sessions) && content == old(content) && playback == old(playback)
    {
      var key := (sessionId, userId);
      if key in viewers {
        var updated := viewers[key].(connectionQuality := Some(quality));
        viewers := viewers[key := updated];
        row := Some(updated);
      } else {
        row := None;
      }
    }

    /** updateViewerStatus: changes only the (session, user) row's admission. */
    method UpdateViewerStatus(sessionId: string, userId: string, status: ViewerStatus)
      returns (row: Option<ViewerRow>)
      requires Valid()
      modifies this
      ensures Valid()
      ensures (sessionId, userId) in old(viewers) ==>
        && row == Some(old(viewers)[(sessionId, userId)].(status := status))
        && viewers == old(viewers)[(sessionId, userId) := row.value]
      ensures (sessionId, userId) !in old(viewers) ==> row == None && viewers == old(viewers)
      ensures sessions == old(sessions) && content == old(content) && playback == old(playback)
    {
      var key := (sessionId, userId);
      if key in viewers {
        var updated := viewers[key].(status := status);
        viewers := viewers[key := updated];
        row := Some(updated);
      } else {
        row := None;
      }
    }

    /** removeSessionViewer: deletes only the (session, user) row and returns it. */
    method RemoveSessionViewer(sessionId: string, userId: string) returns (row: Option<ViewerRow>)
      requires Valid()
      modifies this
      ensures Valid()
      ensures row == if (sessionId, userId) in old(viewers) then Some(old(viewers)[(sessionId, userId)]) else None
      ensures viewers == old(viewers) - {(sessionId, userId)}
      ensures sessions == old(sessions) && content == old(content) && playback == old(playback)
    {
      var key := (sessionId, userId);
      row := if key in viewers then Some(viewers[key]) else None;
      viewers := viewers - {key};
    }

    /** The player's upsert of `session_playback_state`: the row replaces the
        session's playback state (last writer wins, no version check). */
    method UpsertPlaybackState(row: PlaybackRow)
      requires Valid()
      modifies this
      ensures Valid()
      ensures playback == old(playback)[row.sessionId := row]
      ensures sessions == old(sessions) && viewers == old(viewers) && content == old(content)
    {
      playback := playback[row.sessionId := row];
    }
  }

  // ---------------------------------------------------------------------------
  // Properties that relate several operations on the tables

  /** A newly created session admits joins with its PIN, refuses any other PIN,
      and refuses every join once its status is written "ended", whatever
      other sessions the table already holds. */
  method CreatedSessionLifecycle(existing: map<string, SessionRow>, hostId: string, sessionId: string,
                                 pin: string, otherPin: string, now: nat)
    returns (validWithPin: bool, validWithOther: bool, validAfterEnd: bool)
    requires SessionsKeyed(existing) && sessionId !in existing
    requires otherPin != pin
    ensures validWithPin && !validWithOther && !validAfterEnd
  {
    var store := new SessionStore();
    store.sessions := existing;
    var created := store.CreateSession(hostId, sessionId, pin, now);
    validWithPin := store.ValidateSession(sessionId, pin);
    validWithOther := store.ValidateSession(sessionId, otherPin);
    var _ := store.UpdateSessionStatus(sessionId, Active);
    var stillValid := store.ValidateSession(sessionId, pin);
    assert stillValid;
    var _ := store.UpdateSessionStatus(sessionId, Ended);
    validAfterEnd := store.ValidateSession(sessionId, pin);
  }

  /** Joining twice leaves one row for the (session, user) pair beside the
      rows already there; the second join does not change the admission
      decided by the first, whatever isHost the second call passes. */
  method RejoinKeepsAdmission(existing: map<(string, string), ViewerRow>, sessionId: string, userId: string,
                              name: string, firstIsHost: bool, secondIsHost: bool, t1: nat, t2: nat)
    returns (first: ViewerRow, second: ViewerRow, table: map<(string, string), ViewerRow>)
    requires ViewersKeyed(existing) && (sessionId, userId) !in existing
    ensures first.status == (if firstIsHost then Admitted else Waiting)
    ensures second.status == first.status && second.joinedAt == t2
    ensures table == existing[(sessionId, userId) := second]
  {
    var store := new SessionStore();
    store.viewers := existing;
    first := store.JoinSession(sessionId, userId, name, firstIsHost, t1);
    second := store.JoinSession(sessionId, userId, name, secondIsHost, t2);
    table := store.viewers;
  }
}
