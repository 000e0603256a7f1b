# podrec in Dafny

A model of the core of podrec, a browser-based podcast recording studio. Participants
of a session meet in a WebRTC call that a socket.io relay brokers. Each participant's
browser uploads its recording in numbered chunks. When the host ends the session, a
background worker merges every participant's chunks, in chunk order, into one final
recording and announces it.

The model covers these parts of the system:

- **Assembly worker** (`VideoWorker`). Its effects are the datastore reads, downloads,
  the concat list, the merge, the upload, the FinalRecording row, the published event
  and the scratch-directory removal. They are logged by a `Worker` object, and any call
  may fail. A run performs exactly the prefix of the pure plan `Plan` that comes before
  its first failing call.
- **Signalling relay** (`Signaling.RelayServer`). It tracks connected sockets, their
  rooms, and the number of relay handler sets each socket has registered. Deliveries go
  to an outbox that only grows.
- **Pub/sub bridge** (`EventBridge`). It turns a `recording:completed` envelope into a
  room emit.
- **HTTP side**:
  - the Bearer-token guard (`AuthMiddleware`);
  - the session registry over its two tables (`SessionsService.SessionTables`, with a
    set of failing writes);
  - the session and chunk-upload handlers, as decision functions over the results of
    the calls they make (`SessionController`, `RecordingController`).
- **Client stores**:
  - notification list (`NotificationStore`);
  - upload queue, whose processing loop is a method over a store object
    (`UploadStore.Uploads`);
  - session list (`SessionStore`);
  - studio store (`StudioStore.Studio`, whose tracks, peer connections and socket are
    objects flipped in place).
- **UI helpers**: the duration label and record toggle (`RecordingControls`), and the
  tile list and column choice of the video grid (`VideoGrid`).

`Common` holds:

- `Option`/`Result`;
- JavaScript truthiness;
- `Number.prototype.toString` for integers, `padStart`, `split`/`join` on one character;
- `filter` and conditional `map`, with lemmas about them.

## Model

| member | source | states |
|---|---|---|
| VideoWorker.Worker.HandleJob | backend/src/workers/video.worker.ts:86-106 | The log grows by exactly the plan's calls before the first failing one; the job returns `{status:'completed', sessionId}` exactly when no call fails, and fails otherwise |
| VideoWorker.Worker.ProcessVideo | backend/src/workers/video.worker.ts:15-80 | The run is a run of `Plan`: make the scratch dir, list participants, handle each, remove the dir, stopping at the first failure |
| VideoWorker.Worker.ProcessParticipants | backend/src/workers/video.worker.ts:22-76 | Participants are handled one after the other in findMany order; a failure ends the loop |
| VideoWorker.Worker.ProcessParticipant | backend/src/workers/video.worker.ts:23-75 | One participant: chunk query, skip when empty, else downloads then assembly |
| VideoWorker.Worker.DownloadChunks | backend/src/workers/video.worker.ts:32-38 | One download per chunk in chunk order; on success the local paths are `LocalPaths` in that order |
| VideoWorker.Worker.AssembleParticipant | backend/src/workers/video.worker.ts:41-75 | Concat list, ffmpeg merge, upload under the final key, completed row, then the event |
| VideoWorker.Worker.Perform | backend/src/workers/video.worker.ts:18-79 | One external call: counted; logged exactly when its index is not a fault |
| VideoWorker.RanFirstFault | backend/src/workers/video.worker.ts:15-80 | A run ends in the history `log0 + plan[..k]` for the first fault `k`, and succeeds iff no call failed |
| VideoWorker.ChunksOfSpec | backend/src/workers/video.worker.ts:23-26 | The chunk query returns the participant's rows, each as often as stored, sorted by ascending chunk number |
| VideoWorker.SortByNumber | backend/src/workers/video.worker.ts:25 | Sorted by chunk number and a permutation of its input |
| VideoWorker.ChunkOrderIgnoresArrival | backend/src/workers/video.worker.ts:23-38 | The merge order depends only on which chunk rows exist, not on insertion order, when equal numbers mean equal rows |
| VideoWorker.SortedArrangementUnique | backend/src/workers/video.worker.ts:25 | Two sorted permutations of rows with distinct numbers are equal |
| VideoWorker.DownloadsShape | backend/src/workers/video.worker.ts:32-38 | Download `i` fetches chunk `i`'s stored key into its local `.webm` path |
| VideoWorker.ConcatLines | backend/src/workers/video.worker.ts:42-43 | One `file '<path>'` line per local path, in order |
| VideoWorker.ConcatListLines | backend/src/workers/video.worker.ts:41-44 | Splitting the concat list at newlines gives back exactly one line per chunk, in order (no trailing newline) |
| VideoWorker.ParticipantTrace | backend/src/workers/video.worker.ts:28-75 | A participant without chunks stores no row and publishes nothing; one with chunks stores one completed row and publishes one event |
| VideoWorker.PartsTrace | backend/src/workers/video.worker.ts:22-76 | Over the loop, rows and events follow the participants with chunks, in findMany order |
| VideoWorker.PlanFrame | backend/src/workers/video.worker.ts:15-80 | Every plan starts by creating the scratch directory and querying the participants, and ends by removing the directory |
| VideoWorker.PlanTrace | backend/src/workers/video.worker.ts:15-80 | A run without failure stores exactly one `completed` FinalRecording (public id, bytes) and publishes exactly one `recording:completed` event per participant with chunks |
| VideoWorker.RanTrace | backend/src/workers/video.worker.ts:15-80 | The rows and events of any run are a prefix of those of its plan; all of them on success |
| VideoWorker.RunTwice | backend/src/workers/video.worker.ts:63-72 | A rerun after a partial run stores every row again: the rows of the first run, then all expected rows |
| VideoWorker.ScratchRemovedOnlyOnSuccess | backend/src/workers/video.worker.ts:18-79 | The scratch directory is removed by a run exactly when the run succeeds |
| VideoWorker.PartsPlanKeepsDir | backend/src/workers/video.worker.ts:22-76 | No call of the participant loop removes the scratch directory |
| VideoWorker.FinalKeyLayout | backend/src/workers/video.worker.ts:56 | The final key starts with the session folder `podrec/sessions/<s>/` and ends with `final_<p>` |
| VideoWorker.TempDirInjective | backend/src/workers/video.worker.ts:17 | Distinct sessions get distinct scratch directories |
| VideoWorker.FinalKeyInjective | backend/src/workers/video.worker.ts:56 | `podrec/sessions/<s>/final_<p>` determines `s` and `p` when session ids hold no `/` |
| VideoWorker.BasenameOfName | backend/src/workers/video.worker.ts:35 | A name without separators is its own basename |
| VideoWorker.FirstFault | backend/src/workers/video.worker.ts:15-80 | The position of the first failing call: no earlier call fails, and the call there does |
| Signaling.RelayServer.Connect | backend/src/signaling/index.ts:4 | A connection joins its own room, has no handler sets yet, and keeps ids distinct |
| Signaling.RelayServer.JoinSession | backend/src/signaling/index.ts:8-12 | The socket enters the room, every other connected member gets `user-joined` with its id, and one more handler set is registered |
| Signaling.RelayServer.RelayOffer | backend/src/signaling/index.ts:13-19 | `{source, sdp}` to every member of the target room, the sender included, once per handler set of the sender |
| Signaling.RelayServer.RelayAnswer | backend/src/signaling/index.ts:21-27 | Like an offer |
| Signaling.RelayServer.RelayIceCandidate | backend/src/signaling/index.ts:29-35 | `{source, candidate}` to every member of the target room but the sender, once per handler set |
| Signaling.RelayServer.RunHandlers | backend/src/signaling/index.ts:13-35 | Each registered handler set emits its batch once |
| Signaling.RelayServer.Disconnect | backend/src/signaling/index.ts:38-41 | The socket leaves; `user-left` goes to every remaining connected socket, whatever the rooms |
| Signaling.ToRoomReaches | backend/src/signaling/index.ts:13-27 | `io.to(room)` reaches a socket iff it is connected and in the room |
| Signaling.ToRoomExceptReaches | backend/src/signaling/index.ts:12-35 | `socket.to(room)` reaches a socket iff it is connected, in the room, and not the sender |
| Signaling.ForwardedOncePerJoin | backend/src/signaling/index.ts:8-35 | After `k` joins by the sender, each member of the target room receives a relayed offer `k` times |
| Signaling.DeliverCount | backend/src/signaling/index.ts:40 | A broadcast delivers one copy per listed recipient |
| Signaling.RepeatCount | backend/src/signaling/index.ts:13-35 | `k` handler sets multiply every delivery of a batch by `k` |
| EventBridge.HandleMessage | backend/src/index.ts:31-46 | An emit happens iff the message parses to an object whose `event` is `recording:completed`; it goes to the room named by `sessionId`, with the notice text and both ids; parse failures are caught |
| EventBridge.Bridge.OnMessage | backend/src/index.ts:31-46 | One emit appended per completed envelope, one logged error per parse failure, nothing otherwise |
| EventBridge.NoticeTextRecoversId | backend/src/index.ts:38 | The participant id (or `undefined`) can be read back from the notice text |
| AuthMiddleware.Authenticate | backend/src/middlewares/auth.middleware.ts:8-26 | 401 "No token provided" iff the header is missing or lacks the case-sensitive `Bearer ` prefix; authorised iff the token verifies, with its claims as the user; 401 "Invalid token" when a prefixed token does not verify |
| AuthMiddleware.TokenOf | backend/src/middlewares/auth.middleware.ts:16 | `header.split(' ')[1]` is the first space-free piece after the prefix |
| AuthMiddleware.TokenUpToSpace | backend/src/middlewares/auth.middleware.ts:16 | The token is the text after `Bearer ` up to the next space; the rest is ignored |
| AuthMiddleware.BareBearer | backend/src/middlewares/auth.middleware.ts:11-19 | A bare `Bearer ` header passes the prefix test and the empty token goes to verification |
| AuthMiddleware.LowerCaseSchemeRefused | backend/src/middlewares/auth.middleware.ts:11-14 | A `bearer ` header is refused without verification |
| SessionsService.SessionTables.CreateSession | backend/src/service/sessions.service.ts:10-19 | The session row, then the host participant "Host"; a failing second write leaves the session without a host row |
| SessionsService.SessionTables.FindSessionById | backend/src/service/sessions.service.ts:21-28 | The session with exactly its participants, or nothing iff the id is unknown |
| SessionsService.SessionTables.AddParticipantToSession | backend/src/service/sessions.service.ts:31-45 | Appends exactly the given fields, `isHost` false unless passed; a foreign-key error for an unknown session |
| SessionsService.SessionTables.UpdateSession | backend/src/service/sessions.service.ts:48-53 | Only the session with that id changes, as `ApplyUpdate` says; unknown id and invalid status are errors |
| SessionsService.SessionTables.EndSession | backend/src/service/sessions.service.ts:55-63 | Status `ended` and the end time; unknown id is an error |
| SessionsService.ApplyUpdate | backend/src/service/sessions.service.ts:48-53 | Only the fields present change; an invalid status is rejected iff present |
| SessionsService.ParseStatus | backend/src/service/sessions.service.ts:4-7 | A status parses iff it is `active` or `ended` |
| SessionsService.StatusRoundTrip | backend/src/service/sessions.service.ts:4-7 | Status names and parsing are inverse |
| SessionController.CreateSessionHandler | backend/src/controllers/session.controller.ts:6-19 | 400 without title or host before any call; 201 with only the id; 500 on failure |
| SessionController.GetSessionHandler | backend/src/controllers/session.controller.ts:21-33 | 200 iff found, with the session view; 404 for unknown; 500 on error |
| SessionController.JoinSessionHandler | backend/src/controllers/session.controller.ts:35-60 | displayName checked before the lookup; a participant is added only for an existing session, with `userId \|\| null` and the default `isHost` false; 404 for an unknown session, 500 when the lookup or the insert throws |
| SessionController.UpdateSessionHandler | backend/src/controllers/session.controller.ts:63-73 | Forwards title and status unchecked; 200 with the session or 500 |
| SessionController.EndSessionHandler | backend/src/controllers/session.controller.ts:76-88 | End, then enqueue one `process-session` job; 200 iff both succeed; a failed end enqueues nothing |
| SessionController.EndTwiceEnqueuesTwice | backend/src/controllers/session.controller.ts:79-80 | Ending a session twice enqueues two jobs for it |
| SessionController.StoredUserId | backend/src/controllers/session.controller.ts:53 | A falsy user id is stored as null |
| RecordingController.UploadChunkHandler | backend/src/controllers/recording.controller.ts:13-53 | 400 without a file, 400 with missing metadata, both before any call; else upload then save; 201 only when both succeed |
| RecordingController.OneUploadThenOneSave | backend/src/controllers/recording.controller.ts:30-48 | At most one upload and one save, the upload first; 201 iff all checks and both calls succeed |
| RecordingController.ParseInt | backend/src/controllers/recording.controller.ts:38-40 | `NaN` for a string without a digit; a negative result only after a `-` that follows the leading white space |
| RecordingController.ParseIntRoundTrip | backend/src/controllers/recording.controller.ts:38-40 | `parseInt` reads back every integer written by `toString` |
| RecordingController.ParseLeadingDigits | backend/src/controllers/recording.controller.ts:38-40 | `parseInt` reads the leading digits and ignores what follows |
| RecordingController.ParseNegatedDigits | backend/src/controllers/recording.controller.ts:38-40 | A minus sign negates the digits |
| RecordingController.ChunkKeyLayout | backend/src/controllers/recording.controller.ts:28 | The chunk key starts with the session folder `podrec/sessions/<s>/` and ends with `_chunk_<n>` |
| RecordingController.ChunkKeyInjective | backend/src/controllers/recording.controller.ts:28 | Chunk keys determine session, participant and number when session ids hold no `/` and participant ids no `_` |
| RecordingController.TrimStart | backend/src/controllers/recording.controller.ts:38-40 | The result is a suffix of the input; every character dropped is JavaScript white space and the result does not start with one |
| RecordingController.DigitPrefix | backend/src/controllers/recording.controller.ts:38-40 | The longest run of digits at the front |
| NotificationStore.DelayFor | frontend/lib/stores/notification-store.ts:28-30 | The removal delay is never 0: a given non-zero duration is kept, and anything else than the given duration is the 5000 ms default |
| NotificationStore.AddNotification | frontend/lib/stores/notification-store.ts:20-31 | Appends one notification with the given id if truthy, else `notif_<time>`, and schedules its removal after `duration \|\| 5000` |
| NotificationStore.IdFor | frontend/lib/stores/notification-store.ts:21 | The given id when truthy, `notif_<time>` otherwise |
| NotificationStore.RemoveNotification | frontend/lib/stores/notification-store.ts:32-36 | Exactly the notifications with that id go |
| NotificationStore.RemoveKeepsOrder | frontend/lib/stores/notification-store.ts:34 | The remaining notifications keep their order |
| NotificationStore.AddDuplicates | frontend/lib/stores/notification-store.ts:24-26 | No de-duplication: one more entry under the id |
| NotificationStore.TimerUndoesAdd | frontend/lib/stores/notification-store.ts:28-30 | The scheduled removal undoes the add, together with older entries under the same id |
| NotificationStore.RemoveIdempotent | frontend/lib/stores/notification-store.ts:32-36 | Removing twice is removing once |
| UploadStore.Uploads.AddToQueue | frontend/lib/stores/upload-store.ts:28-37 | New queued items at progress 0 after the existing ones, and one notification |
| UploadStore.Uploads.ProcessQueue | frontend/lib/stores/upload-store.ts:41-73 | Nothing happens without queued items; otherwise the flag is raised, the snapshot is processed in order, and the flag is lowered; exactly the items whose id a queued item carries end completed at 100 |
| UploadStore.Uploads.ProcessItems | frontend/lib/stores/upload-store.ts:49-70 | The items are processed one at a time in snapshot order |
| UploadStore.Uploads.ProcessItem | frontend/lib/stores/upload-store.ts:50-69 | Uploading and a start notice, ten progress steps, completed and a done notice; only items with that id change |
| UploadStore.Uploads.AdvanceProgress | frontend/lib/stores/upload-store.ts:55-65 | The progress goes 10, 20, …, 100 and ends at 100 |
| UploadStore.ProgressLog | frontend/lib/stores/upload-store.ts:56-64 | Progress update `m` sets `10·(m+1)` |
| UploadStore.ProcessedCompose | frontend/lib/stores/upload-store.ts:49-70 | Processing one set of ids and then another is processing both |
| UploadStore.OnlyQueuedTouched | frontend/lib/stores/upload-store.ts:43 | With distinct ids, processing touches exactly the items that were queued |
| UploadStore.UpdateProgress | frontend/lib/stores/upload-store.ts:75-81 | Only the progress of items with that id changes |
| UploadStore.SetItemStatus | frontend/lib/stores/upload-store.ts:83-89 | Only the status of items with that id changes |
| UploadStore.UpdateProgressTwice | frontend/lib/stores/upload-store.ts:75-81 | A later progress update overrides an earlier one |
| UploadStore.ClearCompleted | frontend/lib/stores/upload-store.ts:91-93 | Exactly the completed items go |
| UploadStore.ClearCompletedSplits | frontend/lib/stores/upload-store.ts:92 | Clearing keeps the order of the rest |
| UploadStore.NewItems | frontend/lib/stores/upload-store.ts:29-34 | One queued item per file, id `<name>-<time>`, progress 0 |
| SessionStore.CreateSession | frontend/lib/stores/session-store.ts:24-73 | Loading on entry; the new session (title, 0 participants) is prepended, becomes current and is returned, on both paths; loading off |
| SessionStore.CreateIgnoresResponse | frontend/lib/stores/session-store.ts:37-72 | The server's answer makes no difference |
| SessionStore.CreateTwiceNewestFirst | frontend/lib/stores/session-store.ts:49-67 | The list is newest first |
| SessionStore.FetchSessions | frontend/lib/stores/session-store.ts:75-109 | Success: exactly the two sample sessions "1" and "2"; failure: the list is kept; loading off; selection kept |
| SessionStore.MockSessions | frontend/lib/stores/session-store.ts:90-103 | Two sessions, ids "1" and "2", one and two days old |
| SessionStore.FetchForgetsCreated | frontend/lib/stores/session-store.ts:49-105 | A successful fetch drops a session created before it, which stays selected |
| SessionStore.SetCurrentSession | frontend/lib/stores/session-store.ts:111-113 | Only the selection changes |
| StudioStore.AddParticipant | frontend/lib/stores/studio-store.ts:188 | Appended at the end, no id check |
| StudioStore.RemoveParticipant | frontend/lib/stores/studio-store.ts:189 | Every entry with that id goes, every other entry stays |
| StudioStore.RemoveSplits | frontend/lib/stores/studio-store.ts:189 | Removal keeps the order of what stays |
| StudioStore.AddThenRemove | frontend/lib/stores/studio-store.ts:188-189 | Adding and removing the same id is removing it |
| StudioStore.RemoveIdempotent | frontend/lib/stores/studio-store.ts:189 | Removing twice is removing once |
| StudioStore.Merge | frontend/lib/stores/studio-store.ts:191 | Fields present in the update win and the others are kept; an update the participant already carries changes nothing |
| StudioStore.UpdateParticipant | frontend/lib/stores/studio-store.ts:190-192 | Entries with that id take the present fields; the length and the other entries are unchanged |
| StudioStore.SetLocalAudio | frontend/lib/stores/studio-store.ts:200-202 | Local tiles take the new audio state; remote tiles are untouched |
| StudioStore.SetLocalVideo | frontend/lib/stores/studio-store.ts:213-215 | Local tiles take the new video state; remote tiles are untouched |
| StudioStore.ToggleTwiceRestores | frontend/lib/stores/studio-store.ts:194-205 | Two audio toggles give the local tiles their state back |
| StudioStore.MediaErrorMessage | frontend/lib/stores/studio-store.ts:60-67 | In use iff NotReadable/TrackStart; not found iff NotFound/DevicesNotFound; denied iff NotAllowed/PermissionDenied; the generic message otherwise |
| StudioStore.RemoteParticipants | frontend/lib/stores/studio-store.ts:124 | One remote tile per user, not local, no stream, audio and video on |
| StudioStore.Studio.InitializeMedia | frontend/lib/stores/studio-store.ts:52-70 | The error is cleared; nothing else with a stream present; otherwise the stream is kept, or the mapped error is set and permission is false |
| StudioStore.Studio.ConnectToSession | frontend/lib/stores/studio-store.ts:72-81 | Without a stream only the error notification; otherwise the socket is stored and connected |
| StudioStore.Studio.OnConnect | frontend/lib/stores/studio-store.ts:101-112 | Only the local tile "<name> (You)", then `join-room` with the session id |
| StudioStore.Studio.OnExistingUsers | frontend/lib/stores/studio-store.ts:114-127 | One remote tile per user in order; a fresh open connection per user, merged over the existing ones |
| StudioStore.Studio.OnUserJoined | frontend/lib/stores/studio-store.ts:129-132 | A join notification, then one remote tile |
| StudioStore.Studio.OnOffer | frontend/lib/stores/studio-store.ts:134-143 | A new connection to the sender replaces any earlier one, which is left open |
| StudioStore.Studio.OnUserLeft | frontend/lib/stores/studio-store.ts:159-167 | An existing connection to that socket is closed and dropped; only then; its tiles go |
| StudioStore.StopAll | frontend/lib/stores/studio-store.ts:175 | Every track is stopped and keeps its `enabled` flag |
| StudioStore.CloseAll | frontend/lib/stores/studio-store.ts:176 | Every peer connection is closed |
| StudioStore.Studio.Disconnect | frontend/lib/stores/studio-store.ts:172-186 | Socket disconnected with its emits kept, tracks stopped with their `enabled` flags kept, connections closed; everything reset but `isRecording` |
| StudioStore.Studio.ToggleAudio | frontend/lib/stores/studio-store.ts:194-205 | Nothing without a stream or track; otherwise the first audio track's `enabled` flips (it is not stopped) and the local tiles follow |
| StudioStore.Studio.ToggleVideo | frontend/lib/stores/studio-store.ts:207-218 | Nothing without a stream or track; otherwise the first video track's `enabled` flips (it is not stopped) and the local tiles follow |
| RecordingControls.FormatDuration | frontend/components/studio/recording-controls.tsx:40-44 | At least 5 characters; for a non-negative duration it ends in `:` and two digits |
| RecordingControls.FormatShape | frontend/components/studio/recording-controls.tsx:40-44 | Below 6000 s the label has 5 characters with `:` at index 2 |
| RecordingControls.FormatRoundTrip | frontend/components/studio/recording-controls.tsx:40-44 | Reading the two fields back gives `mins·60 + secs == s` with `secs < 60` |
| RecordingControls.MinutesUncapped | frontend/components/studio/recording-controls.tsx:40-44 | From 6000 s the minutes field has three or more digits |
| RecordingControls.JsRem | frontend/components/studio/recording-controls.tsx:42 | JavaScript `%`: the remainder of the division truncated toward zero, so it has the sign of the dividend and is smaller than the divisor in magnitude |
| RecordingControls.HandleRecordingToggle | frontend/components/studio/recording-controls.tsx:22-28 | Exactly one call: stop iff recording, start iff not |
| VideoGrid.AllParticipants | frontend/components/studio/video-grid.tsx:18-28 | The "local"/"You" tile first, then the store's participants; length plus one |
| VideoGrid.GridCols | frontend/components/studio/video-grid.tsx:30-35 | The class read back: 1 column up to 2 tiles (2 on large screens for 2), 2 up to 4, 2 then 3 beyond |
| VideoGrid.GridColumnsMonotone | frontend/components/studio/video-grid.tsx:30-35 | More tiles never mean fewer columns, at either breakpoint |
| VideoGrid.IsMainView | frontend/components/studio/video-grid.tsx:41 | A tile is the main view iff the store holds no participant |
| VideoGrid.SingleColumnIffAlone | frontend/components/studio/video-grid.tsx:30-39 | A single column on every screen iff the store holds no participant |

## Left out

- I/O and external services are abstract effects or inputs, with their internals not
  modelled: ffmpeg, Cloudinary upload and download streams, Prisma, Redis pub/sub,
  BullMQ, and `jwt.verify` (an oracle function).
- BullMQ retries and redelivery are not modelled. Rerunning a job is a second call on
  the same `Worker` (see `RunTwice`).
- Concurrency between jobs, requests and socket events is not modelled; each handler is
  one atomic step.
- The worker's scratch directory is the relative path `temp/<sessionId>`. The code puts
  it beside the compiled sources.
- `durationMs` is what the upload oracle reports, already rounded. `Math.round` over a
  floating-point duration is not modelled.
- `recording.service.ts` is not part of this model. The chunk metadata insert is a
  `create`, so a re-uploaded chunk adds a second row; the worker lemmas assume no
  duplicate numbers where they need it.
- WebRTC negotiation is not modelled: `createOffer`/`createAnswer` chains,
  `setRemoteDescription`, `addIceCandidate` and the `answer`/`ice-candidate` client
  handlers, which change no store state. ICE emits and `ontrack` stream updates are not
  modelled either. `getUserMedia` is an input outcome.
- Timers (`setTimeout`, `setInterval`) are not modelled as timers. The notification
  timer is returned as a value. The upload progress is the sequence of updates it makes.
- Fresh ids are inputs: `Math.random` ids, `Date` times and database cuids.
  Timestamps are integers (milliseconds); `toISOString` rendering is not modelled.
- NotificationStore: the exported `addNotification` helper (notification-store.ts
  lines 39-41) only forwards its argument to the store action. Callers' notification
  requests are recorded as `NotificationInput` values.
- JSON values of other types in the bridge envelope are not modelled; fields are
  optional strings.
- ParseInt: reads the digits as an exact integer of any size.
  JavaScript's `parseInt` returns a double, which rounds integers beyond 2^53 in
  magnitude.
- ParseIntRoundTrip: holds in JavaScript only for integers of
  magnitude at most 2^53. Beyond that `parseInt` rounds, and from 10^21 on `toString`
  writes an exponent.
- ParseLeadingDigits: the digits' value is exact; JavaScript
  rounds it beyond 2^53.
- ParseNegatedDigits: the negated value is exact; JavaScript
  rounds it beyond 2^53.
- ParseNatRoundTrip: exact at every size, for the same reason.
- ParseNegativeRoundTrip: exact at every size, for the same reason.
- NewItems: one time value is used for every file of a call. The code reads the clock
  once per file, so ids of one batch can differ in their time part.
- RecordingControls.FormatDuration: non-integer durations are not modelled
  (`Math.floor` of a fraction, fractional seconds).
- Event names differ between client and server: the client emits `join-room` and reads
  `sender`, while the server handles `join-session` and sends `source`. Each side is
  modelled as written, without reconciling them. The server never sends
  `existing-users`, and its `user-joined` carries only the socket id.
- The worker removes the scratch directory only after the loop finishes, so a failing
  run leaves it behind. This follows the code, not the claim that it is removed on
  every path.
- `recordingDuration`, `startRecording`, `stopRecording`, `audioEnabled` and
  `videoEnabled` are read by the recording controls but are not fields of the studio
  store. `HandleRecordingToggle` returns which action it calls.
- Out of scope: landing, dashboard, auth pages, lobby, join form, participant list,
  toasts and upload manager (pure rendering), routers, and auth credential issuance.
