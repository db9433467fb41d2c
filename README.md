# Cinematic-Sync in Dafny

A model of the watch-party core of Cinematic-Sync. A host creates a session,
which gets an id such as `MOVIE-4F9K2Q` and a four-digit PIN. Viewers join
with the id and PIN. They wait in a waiting room until the host adds content
and starts the session. Then everyone watches one video, and play/pause and
the position are shared through a playback row in the database. A chat runs
beside the video.

The modules follow the source files:

- `Sessions` (`session.ts`) models the four tables (`sessions`,
  `session_viewers`, `session_content`, `session_playback_state`) as map fields
  of a `SessionStore` class. Each helper of `session.ts` is a method on them.
  Session ids and PINs are built from a random draw, which is a parameter.
- `Player` (`VideoPlayer.tsx`) is a state machine: a `PlayerState`, a `Step`
  function per event and a `VideoPlayer` class whose handlers are proved to
  take exactly that step. It covers the realtime handler that ignores the
  user's own echoes, the 500 ms publish throttle, and the slider drag that
  freezes the shown time.
- `Chat` (`ChatSidebar.tsx`) covers the message list and its three send
  handlers.
- `Uploader` (`ContentUploader.tsx`) covers the URL form and the file form.
- `Join` (`JoinSession.tsx`) covers the join form's submit handler, run against
  the tables.
- `Waiting` (`WaitingRoom.tsx`) covers the start gate, the deferred
  content-added step and the invite text.
- `Viewing` (`ViewerSession.tsx`) covers the exclusive chat/viewer panels, the
  viewer-row mapping, ending the session and leaving it.
- `Text` models the JavaScript string operations these rely on: `trim`,
  `toString`, `padStart`, `substring` and `toUpperCase`.
- `MediaTime` models non-negative times in seconds and the `m:ss` formatter.
- `Wrappers` defines `Option` and `Result`.

The browser clock (`Date.now()`) is a natural-number parameter. The
`Math.random()` draw behind a PIN is a real parameter u with 0 <= u < 1, and
the draw behind a session id is given as its base-36 rendering, a string. The
verdict of the URL parser and the object URL of a chosen file are function
parameters. Whether the backend fails the join request is a boolean
parameter.

## Model

| member | source | states |
|---|---|---|
| Text.BlankIffAllWhiteSpace | src/components/pages/JoinSession.tsx:27 | `!s.trim()` holds exactly when every character of `s` is ECMAScript white space or a line terminator, the empty string included |
| Text.ParseNatToString | src/lib/session.ts:12 | the decimal rendering `toString()` of a whole number reads back as that number |
| Text.NatToStringLength | src/lib/session.ts:12 | a number in [10^(k-1), 10^k) renders with exactly k digits |
| Text.PadStart2OfDigit | src/components/player/VideoPlayer.tsx:216 | `padStart(2, "0")` of a seconds count below 60 gives exactly two digits that read back as that count |
| Text.ToUpperAscii | src/lib/session.ts:6 | `toUpperCase()` keeps the length, leaves no letter in 'a'..'z', turns each such letter into the capital at the same alphabet position and keeps every other character where it was |
| Text.ToUpperAsciiIdempotent | src/lib/session.ts:6 | upper-casing an upper-cased string changes nothing |
| MediaTime.FieldsOfTime | src/components/player/VideoPlayer.tsx:213-217 | the seconds field of `m:ss` is below 60, and minutes*60 plus seconds is the whole seconds of the time |
| MediaTime.FormatTimeReadsBack | src/components/chat/ChatSidebar.tsx:162-166 | `formatTime`/`formatVideoTime` give the minutes without a leading zero (a lone "0" aside), a colon three places from the end and two seconds digits below 60, and reading both fields back gives floor(seconds) |
| Sessions.GeneratedSessionIdShape | src/lib/session.ts:4-8 | a generated id is "MOVIE-" followed by at most six upper-case base-36 characters |
| Sessions.PinIsFourDigits | src/lib/session.ts:11-13 | every PIN is four decimal digits with a value from 1000 to 9999 |
| Sessions.EveryPinIsGenerated | src/lib/session.ts:11-13 | every PIN from 1000 to 9999 is produced by some random draw |
| Sessions.SessionStore.CreateSession | src/lib/session.ts:16-41 | inserts a pending session owned by the creator; a session id already present is refused and nothing changes |
| Sessions.SessionStore.ValidateSession | src/lib/session.ts:44-60 | valid exactly when the id exists, the PIN matches and the session has not ended |
| Sessions.SessionStore.JoinSession | src/lib/session.ts:63-117 | a returning viewer keeps their admission status and gets the new join time and good connection; a new viewer is admitted only as host, otherwise pending; only that row changes |
| Sessions.SessionStore.UpdateSessionStatus | src/lib/session.ts:120-137 | writes the given status on the one session row, from any status; a missing session changes nothing and returns no row |
| Sessions.SessionStore.AddSessionContent | src/lib/session.ts:140-184 | replaces the session's content and resets its playback to paused at 0 s, written by "system" |
| Sessions.SessionStore.GetSessionViewers | src/lib/session.ts:187-210 | returns exactly the session's viewer rows, filtered by status when one is given, each user once |
| Sessions.SessionStore.UpdateViewerConnectionQuality | src/lib/session.ts:213-232 | changes only the quality of the (session, user) row; every other row is unchanged |
| Sessions.SessionStore.UpdateViewerStatus | src/lib/session.ts:235-254 | changes only the status of the (session, user) row; every other row is unchanged |
| Sessions.SessionStore.RemoveSessionViewer | src/lib/session.ts:257-272 | deletes only the (session, user) row |
| Sessions.SessionStore.UpsertPlaybackState | src/components/player/VideoPlayer.tsx:132-138 | the session's playback row becomes the published row; other tables are unchanged |
| Sessions.CreatedSessionLifecycle | src/lib/session.ts:16-60 | in a table already holding any other sessions, a new session validates with its PIN, not with another PIN, and no longer validates once ended |
| Sessions.RejoinKeepsAdmission | src/lib/session.ts:72-113 | joining twice, beside any other viewer rows, leaves those rows and one row for the pair, with the first admission status and the later join time |
| Player.OwnEchoChangesNothing | src/components/player/VideoPlayer.tsx:95 | a playback row this user wrote leaves the player unchanged |
| Player.ForeignUpdateEffect | src/components/player/VideoPlayer.tsx:93-113 | another user's row sets the play flag, and moves the element to the remote time only when not seeking and more than 1 s away |
| Player.RemoteUpdateIdempotent | src/components/player/VideoPlayer.tsx:93-113 | applying the same remote row twice equals applying it once |
| Player.PublishThrottle | src/components/player/VideoPlayer.tsx:124-142 | a publish within 500 ms of the last publishes nothing; any other publishes this user's row and records the time |
| Player.TogglePlayNegates | src/components/player/VideoPlayer.tsx:144-155 | toggling negates the play flag for any user; there is no host check |
| Player.VolumeAndMute | src/components/player/VideoPlayer.tsx:169-184 | after a volume change the player is muted exactly at volume 0; muting twice restores the state |
| Player.StepPublication | src/components/player/VideoPlayer.tsx:124-130 | an event that publishes moves the last-update time to the row's time, at least 500 ms after the previous; one that does not leaves it alone |
| Player.PublicationsAreSpaced | src/components/player/VideoPlayer.tsx:124-130 | over any events and clock readings, consecutive published rows are at least 500 ms apart |
| Player.PublicationsAreOwnEchoes | src/components/player/VideoPlayer.tsx:124-142 | every published row carries this player's session and user, so its echo changes nothing |
| Player.SeekingFreezesCurrentTime | src/components/player/VideoPlayer.tsx:157-161 | while the slider is held, neither time updates nor remote rows change the shown time |
| Player.SeekingIgnoresRemotePosition | src/components/player/VideoPlayer.tsx:108 | while the slider is held, a remote row does not move the element |
| Player.SeekReleasePublishesPosition | src/components/player/VideoPlayer.tsx:190-201 | releasing the slider ends the drag and, when not throttled, publishes the position it was left at |
| Player.VideoPlayer.ElapsedLabel | src/components/player/VideoPlayer.tsx:262-264 | the elapsed-time label is minutes without a leading zero, a colon and two digits below 60 that read back as the whole seconds of the shown time |
| Player.VideoPlayer.OnRemoteUpdate | src/components/player/VideoPlayer.tsx:93-113 | for a row of this session, which is all the subscription's filter delivers, the handler takes exactly the remote-update step |
| Player.VideoPlayer.UpdatePlaybackState | src/components/player/VideoPlayer.tsx:124-142 | upserts the row unless throttled, and the store changes only by that upsert |
| Player.VideoPlayer.TogglePlay | src/components/player/VideoPlayer.tsx:144-155 | takes the toggle step and publishes what it emits |
| Player.VideoPlayer.HandleTimeUpdate | src/components/player/VideoPlayer.tsx:157-161 | the shown time follows the element unless the user is seeking |
| Player.VideoPlayer.HandleVolumeChange | src/components/player/VideoPlayer.tsx:169-176 | takes the volume step |
| Player.VideoPlayer.ToggleMute | src/components/player/VideoPlayer.tsx:178-184 | takes the mute step |
| Player.VideoPlayer.HandleSeekStart | src/components/player/VideoPlayer.tsx:186-188 | starts the drag |
| Player.VideoPlayer.HandleSeekChange | src/components/player/VideoPlayer.tsx:190-196 | sets the shown time and the element to the slider's value |
| Player.VideoPlayer.HandleSeekEnd | src/components/player/VideoPlayer.tsx:198-201 | ends the drag and publishes the current flag and time |
| Chat.BlankMessageNotSent | src/components/chat/ChatSidebar.tsx:105 | a box holding only white space sends nothing and keeps its text |
| Chat.TextMessageSent | src/components/chat/ChatSidebar.tsx:103-122 | any other box appends one text message holding the untrimmed input, then clears the box |
| Chat.ReactionMessageSent | src/components/chat/ChatSidebar.tsx:124-142 | a reaction appends one message whose text is the reaction's name, and leaves the input box alone |
| Chat.TimestampMessageSent | src/components/chat/ChatSidebar.tsx:144-160 | a timestamp message records the video time; its text is "Check out this moment at " and the player's m:ss clock of that time: minutes without a leading zero, two seconds digits below 60, reading back the whole seconds |
| Chat.StepKeepsPrefix | src/components/chat/ChatSidebar.tsx:103-160 | every event keeps the old messages as a prefix and adds one message exactly when it sends |
| Chat.HistoryIsAppendOnly | src/components/chat/ChatSidebar.tsx:103-160 | over any events, earlier messages stay, in order, at the front |
| Chat.ChatSidebar.SetNewMessage | src/components/chat/ChatSidebar.tsx:340 | typing takes the input step |
| Chat.ChatSidebar.HandleSendMessage | src/components/chat/ChatSidebar.tsx:103-122 | takes the send-text step |
| Chat.ChatSidebar.HandleSendReaction | src/components/chat/ChatSidebar.tsx:124-142 | takes the reaction step |
| Chat.ChatSidebar.HandleSendTimestamp | src/components/chat/ChatSidebar.tsx:144-160 | takes the timestamp step |
| Uploader.UrlVerdictMeaning | src/components/content/ContentUploader.tsx:28-52 | a URL is accepted exactly when it has a visible character and parses, with the input untrimmed and no title; every refusal shows the same message |
| Uploader.FileVerdictMeaning | src/components/content/ContentUploader.tsx:54-78 | the missing-file error comes first, then a blank title is refused; accepted content is the object URL with the title as typed |
| Uploader.ContentUploader.SetUrlInput | src/components/content/ContentUploader.tsx:118 | typing in the URL field replaces the URL input and nothing else |
| Uploader.ContentUploader.SetFileTitle | src/components/content/ContentUploader.tsx:161 | typing in the title field replaces the title and nothing else |
| Uploader.ContentUploader.HandleUrlSubmit | src/components/content/ContentUploader.tsx:28-52 | hands over the content, or shows the error and hands over nothing |
| Uploader.ContentUploader.HandleFileSubmit | src/components/content/ContentUploader.tsx:54-78 | hands over the content, or shows the error and hands over nothing |
| Uploader.ContentUploader.HandleFileChange | src/components/content/ContentUploader.tsx:80-85 | the first chosen file replaces the current one; an empty choice keeps it |
| Join.OutcomeOrder | src/components/pages/JoinSession.tsx:23-73 | the checks run in order: blank id, blank PIN, login, validity, join failure; a join is reported only when all pass |
| Join.OutcomeBeforeBackend | src/components/pages/JoinSession.tsx:25-45 | before the backend is reached, its answers cannot change the outcome |
| Join.OutcomeAtBackend | src/components/pages/JoinSession.tsx:47-70 | once the backend is reached, validity and then the join request decide |
| Join.WaitingRoomPathParts | src/components/pages/JoinSession.tsx:66 | the join path is "/waiting-room/", the id, "?pin=", the PIN and "&host=false" |
| Join.JoinForm.SetSessionId | src/components/pages/JoinSession.tsx:93 | typing in the session-id field replaces the id and nothing else |
| Join.JoinForm.SetPin | src/components/pages/JoinSession.tsx:106 | typing in the PIN field replaces the PIN and nothing else |
| Join.JoinForm.CheckForm | src/components/pages/JoinSession.tsx:25-45 | stops at the first blank field or a missing user, with that check's error |
| Join.JoinForm.HandleJoinSession | src/components/pages/JoinSession.tsx:23-73 | the outcome, error, navigation and loading flag follow the checks; only a successful join changes the tables, and only the user's own row: a returning viewer keeps every field but gets the new join time and good quality, a new viewer gets a pending row named by the e-mail or "Anonymous", with good quality |
| Waiting.InviteTextParts | src/components/session/WaitingRoom.tsx:93 | the invite is "Join my CinematicSync session! Session ID: ", the id, ", PIN: " and the PIN, nothing more |
| Waiting.ShownStartControlStarts | src/components/session/WaitingRoom.tsx:174-214 | the start control is shown only to the host, and pressing it when shown always calls `onStart`, never the "No content selected" toast |
| Waiting.AddingDefersContent | src/components/session/WaitingRoom.tsx:73-81 | adding content raises the loading flag at once and schedules the content, but does not store it yet |
| Waiting.StoredContentWasAdded | src/components/session/WaitingRoom.tsx:73-90 | after any additions and timer firings, the stored content is one the uploader handed over |
| Waiting.LastAddedWins | src/components/session/WaitingRoom.tsx:82-89 | once every scheduled step has run, the content added last is stored and loading is off |
| Waiting.LoadingClearsAtFirstStep | src/components/session/WaitingRoom.tsx:82-84 | with two calls of the handler in flight, the first deferred step lowers the loading flag while the second is still scheduled |
| Waiting.ScreenRunKeepsLoadingMatch | src/components/content/ContentUploader.tsx:137-143 | with the uploader's submit buttons disabled while loading, any run keeps the flag up exactly while a step is scheduled, with at most one scheduled |
| Waiting.ScreenNeverQueuesTwo | src/components/session/WaitingRoom.tsx:174-182 | through the screen (loading handed to the uploader), the room never has two additions in flight and shows loading exactly while one waits |
| Waiting.WaitingRoom.HandleContentAdded | src/components/session/WaitingRoom.tsx:73-81 | takes the immediate step |
| Waiting.WaitingRoom.SubmitFromUploader | src/components/content/ContentUploader.tsx:216-222 | an uploader submit reaches the handler exactly when the room is not loading |
| Waiting.WaitingRoom.FireContentTimer | src/components/session/WaitingRoom.tsx:82-89 | takes the deferred step of the oldest addition and toasts "URL" or "File" by its type |
| Waiting.WaitingRoom.HandleCopyInvite | src/components/session/WaitingRoom.tsx:92-99 | copies the invite text |
| Waiting.WaitingRoom.HandleStartSession | src/components/session/WaitingRoom.tsx:101-111 | calls `onStart` with the stored content exactly when there is one |
| Viewing.ToggleEffects | src/components/session/ViewerSession.tsx:113-125 | from any panel state, each toggle flips its own panel; opening it closes the other, closing it leaves the other alone |
| Viewing.ClickKeepsExclusive | src/components/session/ViewerSession.tsx:113-125 | both toggles keep the two panels from being open together |
| Viewing.PanelsStayExclusive | src/components/session/ViewerSession.tsx:113-125 | any click sequence from an exclusive state stays exclusive |
| Viewing.NeverBothOpen | src/components/session/ViewerSession.tsx:48-125 | from the opening screen (chat open, viewers closed), chat and viewers are never both open |
| Viewing.MappedViewer | src/components/session/ViewerSession.tsx:95-105 | the list keeps the rows' count and order; e-mail is the user id exactly when it has '@'; host exactly when the user matches the first row; missing quality shows as good |
| Viewing.OneHost | src/components/session/ViewerSession.tsx:99 | for distinct users, exactly the first viewer is marked host |
| Viewing.ViewerSession.ToggleChatPanel | src/components/session/ViewerSession.tsx:113-118 | takes the toggleChat step |
| Viewing.ViewerSession.ToggleViewersPanel | src/components/session/ViewerSession.tsx:120-125 | takes the toggleViewers step |
| Viewing.ViewerSession.FetchViewers | src/components/session/ViewerSession.tsx:91-111 | replaces the whole list with the mapped rows of exactly this session's viewers |
| Viewing.ViewerSession.Mount | src/components/session/ViewerSession.tsx:77-81 | fetches the list only for a non-empty session id |
| Viewing.ViewerSession.Unmount | src/components/session/ViewerSession.tsx:83-88 | a signed-in user's row of a named session is removed, and nothing else changes |
| Viewing.ViewerSession.HandleEndSession | src/components/session/ViewerSession.tsx:127-148 | only the host of a named session writes "ended"; everyone goes to "/" |
| Viewing.EndSessionWritesOnlyForHost | src/components/session/ViewerSession.tsx:129-131 | in a table holding any other sessions, a non-host screen's end does not end a new session, and the host's end does |

## Left out

- The code has no versioned playback store, drift correction, clock-offset
  estimation or ordered delivery. Sync is one upserted row per session plus
  an UPDATE subscription, and the model follows that.
- Video element effects are left out: `play()`, `pause()`, `volume` and `muted`
  writes. A missing element ref is left out too. `mediaPosition` records where
  the element is told to seek.
- Realtime delivery is left out: ordering, loss and duplication. Each delivered
  row is an event, in any order. The handler's stale closure over `isPlaying`
  and `currentTime` is left out as well, so the model reads the current state.
- Player.VideoPlayer.OnRemoteUpdate: the subscription's `session_id` filter is
  the server's work; the model takes its result as the precondition that the
  row belongs to this session.
- Player.VideoPlayer.UpdatePlaybackState: the `updated_at` ISO string is the
  clock reading itself. Upsert errors, which the source only logs, are not
  modelled.
- JavaScript numbers are left out. Times are exact non-negative reals with no
  floating-point rounding, and negative times are outside the model.
- Text.ToUpperAscii: upper-cases ASCII letters only. The session-id input is
  ASCII base-36, so nothing else reaches it.
- How `Math.random().toString(36)` renders a number is not modelled. The
  rendering is a parameter of `GenerateSessionId`.
- Backend failures are not modelled, except the join request's failure
  parameter in `Join`. Network errors, thrown Supabase errors and console
  logging are left out.
- The `session_id` column is treated as a unique key of `sessions`. A second
  insert with the same id is refused.
- Toasts, `navigator.clipboard`, routing beyond the returned path, and the
  page components `CreateSession`, `WaitingRoomPage` and `ViewerSessionPage`
  are not part of this model.
- Hard-coded demo data is not modelled: the initial chat messages, the
  waiting-room viewer list and `viewerCount`. The placeholder list of
  `ViewerSession` is a constructor parameter.
- Left out of the player: the controls-hiding timer, fullscreen and
  `handleLoadedMetadata`/`duration`.
- Left out of the chat: `formatMessageTime` (ChatSidebar.tsx), which depends
  on the locale.
- `session_content` and `session_playback_state` are keyed by `session_id`.
  This is an assumed schema: it is why the playback upsert replaces the
  session's row instead of adding one. The upsert names no conflict column.
- Waiting.LoadingClearsAtFirstStep: calls the handler directly. The
  uploader's submit buttons are disabled while the room is loading, so the
  screen cannot produce two additions in flight. `ScreenNeverQueuesTwo`
  states what the screen does.
- Waiting.WaitingRoom.FireContentTimer: the 1500 ms delay is not modelled.
  The deferred steps run in scheduling order when fired.
