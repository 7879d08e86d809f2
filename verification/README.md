# Verified model of the keyboard project generator's backend

The backend turns a keyboard layout into a KiCad project. A server queues the
request as an asynq task and streams the build log to browsers; a worker runs
kbplacer and kicad-cli, publishes log lines to a Redis Stream and uploads the
results. This project models the parts of it that this repository's code
decides, and proves what they promise over every input, every run and every
interleaving. `dafny verify dfyconfig.toml` checks all of it.

| file | what it models |
|---|---|
| `Decimal.dfy`, `Text.dfy`, `Millimetres.dfy`, `Json.dfy` | decimal text, `strings.Split`/`Join`, coordinates, float64 rounding, decoded JSON |
| `Tasks.dfy` | the states of a task |
| `Frames.dfy` | stream entries and the frames made of them |
| `LogProtocol.dfy` | worker, stream, pumps and write loops as one transition system, and what all its runs keep |
| `LogSocket.dfy` | `pumpLogStream` and the write loop as loops over shared state; each of their steps is one of the protocol |
| `LineSplit.dfy`, `LogStream.dfy` | line splitting, `LineWriter` over a mutable buffer, `Publisher` |
| `BuildTask.dfy` | the task handler with its deferred calls, the order of events in `NewPCB`, and the tee of `RunKBPlacer` |
| `Transcripts.dfy` | what a client holds of a build: the handler's stream joined to the protocol's log |
| `TaskQueue.dfy` | POST, GET, DELETE, log sockets, the abandonment sweep, the worker and the clock as one transition system |
| `TaskServer.dfy`, `AccessTracker.dfy` | the handlers, the sweep and the access tracker as imperative code; each step of the former is one of `TaskQueue` |
| `Paths.dfy`, `Slug.dfy`, `Glob.dfy`, `Manifest.dfy` | file and directory names, sheet slugs, the listing of the sheets, the render manifest and the copied files |
| `Storage.dfy`, `Delivery.dfy` | retries with backoff, the uploads, the objects they leave; from exported sheets to stored objects |
| `Settings.dfy`, `KBPlacer.dfy`, `Preset.dfy` | settings to options to command line, with a decoder; the track preset file |

A goroutine or handler that shares state is modelled twice: as the steps it can
take in a transition system, where every interleaving is a run, and as a method
that takes only such steps and yields to a schedule of the others at every point
where they can come between. The slots of that schedule are as arbitrary as the
runs are, and they decide what fails: connections break, Redis goes down, contexts
are cancelled by steps of the others. What happens is recorded, and a contract says
which steps are a method's own, and in which state it saw what it goes by. What is
proved of all runs so holds of the methods.

What the model takes for granted of the services around it, each as a guard of
one step: stream IDs strictly increase; `MAXLEN ~` never leaves fewer than
`maxLen` entries; `DeleteTask` fails on an active task; `GetQueueInfo` fails only
while the queue is absent, so empty, and no other Inspector call of `TaskQueue` fails
for want of Redis (in the log protocol an outage is a step); an XREAD fails only
during an outage or once its context is done; asynq's task IDs are not used twice; a task
leaves the active state after its handler returned, or by a step `Timeout` that
the theorems mention where it matters. The key's expiry is a step too.

Where the code does not keep a promise of its comments, the model follows the
code, and the exact condition is proved:

* The comment at `backend/cmd/server/logs.go:167-173` says that a finished task's
  stream was drained before the pump asks for the task's state. The empty XREAD
  and the question are two steps; an end entry stored between them is not sent
  (`LogProtocol.RaceLosesEnd`). Nothing is missing if and only if nothing was
  dropped unread before and nothing appended between the two
  (`LogProtocol.EarlyStop`).
* A recovered panic makes the handler return nil, so asynq completes the task,
  while its end entry says "failure" (`BuildTask.RecoveredPanic`): exactly when the
  body gets to a panicking stage, the report of a failed upload among them, and neither
  the first report nor the recovery panics (`BuildTask.NilWithFailure`).
* The manifest is said to be deterministic regardless of the glob order
  (`backend/internal/kicad/kicad.go:438-439`); it is so if and only if no child
  sheet's name slugifies to the empty text, as `-` does, or the root is not listed
  (`Manifest.GlobOrderIrrelevant`, `Manifest.UnnamedChild`).
* The listing of the sheets is called safe (`backend/internal/kicad/kicad.go:402-405`),
  but the project's name is a part of its pattern. The exported root is listed if and
  only if that name has no `[` (`Glob.RootIsListed`); with "Board [v2]" the manifest has
  no sheet at all and no error is returned, with "a[" the pattern is in error
  (`Glob.BracketNames`).
* A layout whose project name is empty, `.` or `logs`, holds a NUL, or takes more than
  255 bytes gets no directories, and no other one (`Paths.DirectoriesAreMade`,
  `Paths.NamesWithoutDirectory`).
* The statuses answered for a task can go backwards when two GETs overlap
  (`TaskQueue.OverlappingGets`): the later answer is behind if and only if its
  GetTaskInfo came first and saw another status (`TaskQueue.AnswersFollowReads`), and
  there is a run of that kind if and only if two GETs can be at work at once
  (`TaskQueue.ReportsNeverGoBack`).
* DELETE answers "cancelled" for a task that was started and finished between
  its two calls, and then also drops its result (`TaskQueue.DeleteAfterInspect`, `TaskQueue.CancelledAfterCompletion`).
* `MAX_QUEUE_SIZE` is exceeded by the number of POST handlers that can be between
  check and enqueue, one for clients that take turns; this bound is reached
  (`TaskQueue.AdmissionBoundIsMet`).
* A preset file and the CUSTOM argument can place the diode one nanometre apart: the
  former rounds the float64 of a product, the latter the coordinate itself. They do so
  for 5.0812345 (`Millimetres.SevenDecimals`) and 1/128 (`Millimetres.HalfNanometre`);
  they agree if and only if, below 2^52 nm, neither float64 of a product is a tie that
  the product was rounded up to, or that has an even number below it
  (`Preset.PresetAgreesWithCustom`).

## Model

| member | source | states |
|---|---|---|
| `Decimal.ParseFormatInt` | backend/cmd/server/logs.go:217-220 | the timestamp printed into an entry is read back unchanged |
| `Decimal.ParseInt64Bounds` | backend/cmd/server/logs.go:217-220 | a number out of range is read as the nearest bound, and what is no numeral as 0 |
| `Frames.EncodePublished` | backend/cmd/server/logs.go:208-230 | every published field reaches the frame, and a frame is terminal exactly for a published end entry: no log text forges one |
| `Frames.EncodeAnything` | backend/cmd/server/logs.go:208-230 | of any fields: terminal exactly if "event" is "end"; absent fields are empty |
| `Frames.PublishInjective` | backend/internal/logstream/logstream.go:66-101 | different entries are published as different fields |
| `LogProtocol.RunsKeepInv` | backend/cmd/server/logs.go:110-203 | the stream's and every client's invariant hold after every run of worker, trimming, expiry, timeouts, pumps, write loops and cancellation |
| `LogProtocol.Transcript` | backend/cmd/server/logs.go:149-203 | sent, lost and channelled frames are those of the entries read, in strictly increasing ID order, each once, up to `lastID`; of the entries up to there exactly the `missed` ones were not read, whatever the stream drops later; without these it is a prefix of the log, as always while at most 2000 entries were published |
| `LogProtocol.MissedWasDropped` | backend/cmd/server/logs.go:160-188 | every missed entry had been dropped from the stream when the read that went on behind it was made |
| `LogProtocol.DroppedIsMissed` | backend/cmd/server/logs.go:160-188 | and every entry dropped before such a read is missed |
| `LogProtocol.WriteLoopSendsPrefix` | backend/cmd/server/logs.go:110-141 | the socket gets a prefix of what the pump produced, all of it if the loop left through the closed channel, and nothing after an end frame |
| `LogProtocol.Confluence` | backend/cmd/server/logs.go:152-203 | a client that got the end frame holds the transcript of the whole stream if and only if it missed no entry; any two that missed none hold the same one, whatever became of the stream since |
| `LogProtocol.ClosedStreamIsDrained` | backend/cmd/server/logs.go:155-202 | a client of a closed stream of n entries makes at most ceil(n/500) non-empty reads, and no read of a stream that holds its end entry comes back empty to a running pump |
| `LogProtocol.EarlyStop` | backend/cmd/server/logs.go:165-178 | a pump stopped by `taskStreamFinished` produced all it read; that is the stream as its empty XREAD saw it if and only if nothing was dropped unread, and the whole stream if and only if also nothing was appended before the answer; with the end entry stored, something was |
| `LogProtocol.RaceLosesEnd` | backend/cmd/server/logs.go:167-173 | there is a run in which all went well and a client is cleanly closed without the end frame |
| `LogProtocol.EndIsSent` | backend/cmd/server/logs.go:110-203 | there is a run in which a client is sent the end frame, missed nothing and is closed cleanly |
| `LogProtocol.OneTooMany` | backend/internal/logstream/logstream.go:28-82 | with 2001 published entries one can be missed: the 2000 of `LogProtocol.Transcript` are exact |
| `LogSocket.LogIsReached` | backend/cmd/server/logs.go:95-203 | what happens to a goroutine, its own steps and the slots of the others, is a run of the protocol |
| `LogSocket.World.Take` | backend/cmd/server/logs.go:149-203 | one enabled step of the goroutine's own, recorded as such |
| `LogSocket.World.Yield` | backend/cmd/server/logs.go:95-107 | the others run for the next slot, which is recorded; only after a step of its own, or while it can do nothing or is not connected yet; what is its own stays as it was, and a goroutine that starts in the slot starts fresh |
| `LogSocket.SlotConnects` | backend/cmd/server/logs.go:95-111 | a slot with the client's connect step leaves it connected |
| `LogSocket.Await` | backend/cmd/server/logs.go:95-111 | the goroutine starts, untouched, if the client connects anywhere in the plan |
| `LogSocket.XRead` | backend/cmd/server/logs.go:160-185 | returns the oldest entries past `lastID`, 500 of them or all that are on the stream in the state it answers from, or nil if there are none, or an error, only with Redis down or the context done; the step it took says which |
| `LogSocket.Send` | backend/cmd/server/logs.go:192-200 | puts exactly the frame of the next entry into the channel and advances `lastID`; else the pump was stopped, or waits at a full channel with the others' plan over |
| `LogSocket.SendBatch` | backend/cmd/server/logs.go:187-202 | if the pump goes on, the whole batch was handed over and `lastID` is its last ID |
| `LogSocket.TaskFinished` | backend/cmd/server/logs.go:236-247 | true if and only if in the state it asks in Redis is down, or the task is completed, archived or gone |
| `LogSocket.PumpLogStream` | backend/cmd/server/logs.go:149-203 | takes only its own enabled steps, and stops only for a reason that the state it last saw gives (end frame, finished task, Redis down, context done), or with the others' plan over and nothing to do without them; it handed over the frames of what it read, the entries up to `lastID` but for those dropped first, and as last one an end frame if it saw one |
| `LogSocket.RunPump` | backend/cmd/server/logs.go:95-203 | from an untouched system on, a plan in which the client connects runs the pump to such an end |
| `LogSocket.SelectOnce` | backend/cmd/server/logs.go:116-140 | one ready case is taken, or none is ready; it is left only through the closed channel, a done context or a broken connection |
| `LogSocket.WriteLoop` | backend/cmd/server/logs.go:110-141 | takes only its own enabled steps, and returns only through the closed and empty channel, a done context or a broken connection, or waits with the others' plan over and no frame left; the socket got a prefix of the production, all of it after a clean close |
| `LogSocket.RunWriteLoop` | backend/cmd/server/logs.go:95-141 | the same from an untouched system on, for a plan in which the client connects |
| `LineSplit.SplitIsUnique` | backend/internal/logstream/logstream.go:142-154 | newline-free lines and remainder that rebuild a text are the ones the split gives |
| `LineSplit.SplitRebuilds` | backend/internal/logstream/logstream.go:142-154 | untrimmed lines and remainder rebuild the input byte for byte |
| `LineSplit.ChunkingInvariant` | backend/internal/logstream/logstream.go:142-164 | any chunking emits the lines of the concatenated input and keeps its remainder; with Close it equals one-shot splitting |
| `LineSplit.SplitAreTexts` | backend/internal/logstream/logstream.go:142-172 | the texts are the newline-free lines that with their newlines and a rest make up the input, each without its one final CR exactly if it has one; a rest that is not empty is the last text |
| `LogStream.LineWriter.Write` | backend/internal/logstream/logstream.go:142-172 | publishes, in order, for every complete line of pending bytes plus input that line, without its one final CR exactly if it has one; keeps the newline-free rest, claims all bytes |
| `LogStream.LineWriter.Close` | backend/internal/logstream/logstream.go:158-172 | publishes the rest, without a final CR, if there is one, and empties the buffer |
| `LogStream.Publisher.PublishLine` | backend/internal/logstream/logstream.go:66-82 | one attempt per call; the stream is what came through, and the TTL is armed by the first EXPIRE that succeeds and by no other |
| `LogStream.Publisher.PublishEnd` | backend/internal/logstream/logstream.go:86-101 | the same for the end entry |
| `LogStream.DeliveredIsSubsequence` | backend/internal/logstream/logstream.go:62-82 | with failing XADDs the stream is the subsequence of the attempts that succeeded, in order |
| `BuildTask.RunKBPlacer` | backend/internal/kicad/kicad.go:194-210 | for any output chunks and exit, the published lines are the line split of what was streamed into build.log, which is all of the output if every write succeeded and else the chunks before the first that failed |
| `BuildTask.NewPCB` | backend/internal/kicad/kicad.go:726-880 | all kbplacer lines lie between the preset marker and the image markers; the project is made exactly if every stage succeeded, and it panics exactly if the first stage that does not succeed panics |
| `BuildTask.LinesOfSuccess` | backend/internal/worker/task_handler.go:80-121 | the markers of a build that succeeds, by text and in order, around the line split of all output |
| `BuildTask.Upload` | backend/internal/worker/task_handler.go:96-121 | the body ends with nil exactly if every upload completed and nothing panicked, and with a panic exactly if the report before the uploads, the uploading after some of its POSTs, or the report of how it ended panics |
| `BuildTask.Handle` | backend/internal/worker/task_handler.go:30-122 | on every exit the attempts are the markers, kbplacer's lines, the later markers and one end entry, so that a stream that was empty ends once; "success" exactly if the project was made and all uploads completed without a panic, and then all is stored; what is returned is a function of the outcomes and the POSTs |
| `BuildTask.NilWithFailure` | backend/internal/worker/task_handler.go:61-69 | nil goes with "failure" if and only if the body gets to a panicking stage and neither the first report nor the recovery panics; "success" always goes with nil |
| `BuildTask.RecoveredPanic` | backend/internal/worker/task_handler.go:61-106 | two builds for which it does: the rendering panics, or the upload fails and its report panics |
| `BuildTask.StreamOfAttempts` | backend/internal/worker/task_handler.go:48-121 | whichever XADDs fail, surviving kbplacer lines precede every surviving later marker and the end entry |
| `BuildTask.EndIsLast` | backend/internal/worker/task_handler.go:48-53 | the handler's attempts leave at most one end entry, the last one, and exactly one if and only if its XADD succeeds |
| `Transcripts.ClientHoldsTheBuild` | backend/cmd/server/logs.go:149-203 | of the stream the handler leaves, a client that missed nothing holds a prefix; one that got the end frame holds all of it if and only if it missed nothing, and that is the surviving markers, lines of build.log, later markers and the status, in order |
| `Transcripts.LogIsAdded` | backend/internal/logstream/logstream.go:62-101 | the protocol's log is what its worker's steps appended |
| `AccessTracker.TaskAccessTracker.GetAbandonedTasks` | backend/cmd/server/main.go:50-64 | exactly the tasks idle longer than the timeout, each once |
| `AccessTracker.TaskAccessTracker.UpdateAccess` | backend/cmd/server/main.go:42-47 | the task's access is now, all others are unchanged |
| `AccessTracker.TaskAccessTracker.RemoveTask` | backend/cmd/server/main.go:66-71 | the task is untracked, all others are unchanged |
| `TaskQueue.RunsKeepInv` | backend/cmd/server/main.go:189-614 | accounting, admission bound, forward reads and answers that were read, socket protection and sweep soundness hold after every run |
| `TaskQueue.Conservation` | backend/cmd/server/main.go:403-614 | in every run: enqueued = pending + active + completed + archived + cancelled + evicted |
| `TaskQueue.ActiveUntilFinished` | backend/cmd/server/main.go:206-248 | an active task stays so, whatever DELETE and the sweep do, until the worker finishes it |
| `TaskQueue.PendingUntilStarted` | backend/cmd/server/main.go:557-614 | a task seen pending and still queued is pending if and only if it was not started meanwhile |
| `TaskQueue.DeleteAfterInspect` | backend/cmd/server/main.go:581-598 | a DELETE that saw the task pending fails on a gone or active task and otherwise removes it, finished ones included, which happens exactly if it was started in between |
| `TaskQueue.CancelledAfterCompletion` | backend/cmd/server/main.go:581-598 | a run in which a completed task is removed and reported as cancelled |
| `TaskQueue.AdmissionBound` | backend/cmd/server/main.go:406-463 | pending + active + admissions under way never exceed `MAX_QUEUE_SIZE` + concurrent handlers |
| `TaskQueue.AdmissionBoundIsMet` | backend/cmd/server/main.go:406-463 | a run reaches that bound with queued tasks, for every number of handlers |
| `TaskQueue.AnswersFollowReads` | backend/cmd/server/main.go:495-554 | of two answers about a task the later is behind the earlier along PENDING, PROGRESS, SUCCESS or FAILURE if and only if its GetTaskInfo came first and saw another status |
| `TaskQueue.OverlappingGets` | backend/cmd/server/main.go:487-555 | a run in which PROGRESS is answered and then PENDING |
| `TaskQueue.ReportsNeverGoBack` | backend/cmd/server/main.go:487-555 | answers go backwards in no run if and only if no two GETs can be at work at once, or nothing can be queued |
| `TaskQueue.SweepDealsWithAll` | backend/cmd/server/main.go:189-248 | after a sweep every ID of its snapshot not accessed since is untracked or was found active |
| `TaskQueue.WatchedTasksAreSafe` | backend/cmd/server/logs.go:68-87 | no run takes a task with an open log socket into a snapshot, if and only if connect delay + socket lifetime <= timeout |
| `TaskServer.LogIsReached` | backend/cmd/server/main.go:189-614 | what happens to a handler or the sweep, its own steps and the slots of the others, is a run of `TaskQueue` |
| `TaskServer.World.Apply` | backend/cmd/server/main.go:403-614 | every change is an enabled step; the access tracker follows it; used IDs, cancellations and answers only grow |
| `TaskServer.World.Do` | backend/cmd/server/main.go:403-614 | a handler's step, recorded as its own; the others had their slot since the one before |
| `TaskServer.World.Yield` | backend/cmd/server/main.go:189-248 | the others run for the next slot, which is recorded; a handler's own state stays as it was and no step is added to its own |
| `TaskServer.KicadPostNewTask` | backend/cmd/server/main.go:403-485 | its steps are check, and refusal or enqueue and track, by the reply; 503 exactly if more than `MAX_QUEUE_SIZE` tasks were pending or active at the check; 202 means a new ID, enqueued and tracked as of now |
| `TaskServer.KicadGetTaskStatus` | backend/cmd/server/main.go:487-555 | its steps are access, read and answer; the answer is 404 or the status of the task as it was at the read, and is never behind one given before the call |
| `TaskServer.KicadDeleteTask` | backend/cmd/server/main.go:557-614 | its steps by the reply; 404, 409 and 410 exactly by the state seen; 200 means the task is untracked and out of the queue for good, 500 that it could not be deleted |
| `TaskServer.CheckAbandonedTasks` | backend/cmd/server/main.go:189-203 | the snapshot is exactly the tracker's idle tasks; in the end each was accessed since, or is untracked, or was found active |
| `TaskServer.HandleAbandonedTask` | backend/cmd/server/main.go:206-248 | its steps are exactly those that the state it finds calls for; an active task is left alone, queue and tracker too; any other is untracked in the end |
| `Paths.SanitizeFilename` | backend/internal/kicad/paths.go:9-25 | the loop equals one filter pass, then dot removal, then trim |
| `Paths.DotRunParity` | backend/internal/kicad/paths.go:18-19 | removing ".." leaves of a run of n dots n mod 2 |
| `Paths.SanitizedIsClean` | backend/internal/kicad/paths.go:9-25 | no illegal character, no "..", no outer whitespace is left |
| `Paths.SanitizedFixpoint` | backend/internal/kicad/paths.go:9-25 | exactly the clean names are unchanged, so sanitizing is idempotent |
| `Paths.NoDotsStay` | backend/internal/kicad/paths.go:18-19 | everything that is no dot stays in its place |
| `Paths.TrimSpaceSlices` | backend/internal/kicad/paths.go:21-22 | exactly the Unicode white space at both ends is cut off |
| `Paths.FilepathLosesFront` | backend/internal/kicad/paths.go:29-46 | of a path without ".." one '/' in front, then one '\\', and outer white space are removed |
| `Paths.DirectoryNameIsProjectName` | backend/internal/kicad/kicad.go:468-483 | sanitizing the project's name once more for the directory changes nothing; a layout without a name is "keyboard" |
| `Paths.BytesOfCopies` | backend/internal/kicad/kicad.go:476-500 | a character counts one to four bytes towards the 255 of a name |
| `Paths.DirectoriesAreMade` | backend/internal/kicad/kicad.go:476-500 | project and logs directory can be made if and only if the project's name is not empty, "." or "logs", has no NUL and takes at most 255 bytes, and then are directories of their own with these names |
| `Paths.NamesWithoutDirectory` | backend/internal/kicad/kicad.go:468-500 | the layouts "?", "...", "logs", "a\0" and one of 256 letters get none |
| `Slug.SlugifySheet` | backend/internal/kicad/kicad.go:343-359 | the slug's characters other than hyphens are exactly the characters of the name that are a-z or 0-9 in lower case, in order; two stand next to each other if and only if they do in the name, else with one hyphen between; and it is the runs joined by hyphens |
| `Slug.SlugifiedCorresponds` | backend/internal/kicad/kicad.go:343-359 | the same of the function that the other results are about |
| `Slug.RunsOfJoined` | backend/internal/kicad/kicad.go:343-359 | the runs of joined words are the words: joining loses nothing |
| `Slug.SlugifiedIsSlug` | backend/internal/kicad/kicad.go:343-359 | only [a-z0-9-], no leading, trailing or doubled hyphen, idempotent |
| `Glob.BracketNeverMatchesItself` | backend/internal/kicad/kicad.go:402-405 | a name with '[', taken as a pattern, does not match itself |
| `Glob.ErrorsAreThePattern` | backend/internal/kicad/kicad.go:405-408 | whether a pattern is malformed does not depend on what it is matched with |
| `Glob.MatchFinds` | backend/internal/kicad/kicad.go:402-405 | a pattern matches exactly the names that its characters and classes stand for, one by one |
| `Glob.BadPatterns` | backend/internal/kicad/kicad.go:405-408 | a pattern is malformed if and only if it is no sequence of characters and classes |
| `Glob.ListingFinds` | backend/internal/kicad/kicad.go:402-408 | in any work directory, the listing are the SVGs of the directories that the project's name stands for; an error exactly for a malformed name |
| `Glob.ListedIfPlain` | backend/internal/kicad/kicad.go:402-408 | the listing is all exported sheets, or with '[' in the project's name an error or nothing |
| `Glob.RootIsListed` | backend/internal/kicad/kicad.go:389-408 | the exported root sheet is listed if and only if the project's name has no '[' |
| `Glob.BracketNames` | backend/internal/kicad/kicad.go:402-408 | "Board [v2]" is a pattern for "Board v" and lists nothing, "a[" is malformed |
| `Manifest.GenerateSchematicImage` | backend/internal/kicad/kicad.go:370-449 | fails exactly without the root sheet or with a malformed name; otherwise one render per listed sheet in dictionary order of the tokens, the stable sort of the listing, and the files copied in that order; with '[' in the name nothing is listed |
| `Manifest.TokenOfSheet` | backend/internal/kicad/kicad.go:410-418 | the root has no token, a child that of what follows the project's name and a hyphen |
| `Manifest.StableSortOrders` | backend/internal/kicad/kicad.go:438-446 | the manifest is in dictionary order of the tokens (prefix first, else by the first differing character) and a permutation of the renders |
| `Manifest.StableSortIsStable` | backend/internal/kicad/kicad.go:440-446 | renders with equal sheets keep their order |
| `Manifest.LessIsBefore` | backend/internal/kicad/kicad.go:440-445 | the comparator is the dictionary order of the tokens |
| `Manifest.RootIsFirst` | backend/internal/kicad/kicad.go:438-446 | the root sheet is in the manifest exactly if it is listed, and then comes first when every child has a token |
| `Manifest.GlobOrderIrrelevant` | backend/internal/kicad/kicad.go:410-446 | every listing order gives the same manifest if and only if no child's name slugifies to nothing, or the root is not listed |
| `Manifest.UnnamedChild` | backend/internal/kicad/kicad.go:410-446 | a sheet "-" is such a child: two orders, two manifests |
| `Manifest.NamesFollowSheets` | backend/internal/kicad/kicad.go:415-424 | render names and file names clash exactly when tokens do, and never with "front" or "back" |
| `Manifest.NamesAreDistinct` | backend/internal/kicad/kicad.go:865-874 | all manifest names are distinct if and only if the sheets' tokens are |
| `Manifest.FilesHoldOwnSheets` | backend/internal/kicad/kicad.go:425-436 | every render's file holds its own sheet if and only if sheets sharing a name have the same content |
| `Storage.Filer.SendUpload` | backend/internal/storage/filer.go:92-116 | one POST; success exactly for 200 and 201, retryable exactly for transport errors, 429 and 5xx |
| `Storage.Do` | backend/internal/retry/retry.go:21-49 | between 1 and max(1, attempts) calls; every one but the last failed retryably; stopping short means success, a permanent error, cancellation, or the panic that ends it after that POST; the last call's outcome is returned |
| `Storage.RetriedLengthIsUnique` | backend/internal/retry/retry.go:21-49 | the replies leave no choice of the number of calls |
| `Storage.DelaysAreExact` | backend/internal/retry/retry.go:38-41 | every shift is the exact doubling if and only if the last one fits an int64 |
| `Storage.WrapIsTwosComplement` | backend/internal/retry/retry.go:38-41 | a shift that does not fit wraps around at 64 bits |
| `Storage.BackoffTotal` | backend/internal/retry/retry.go:38-46 | then n uncancelled calls waited baseDelay*(2^(n-1)-1) |
| `Storage.UploadFile` | backend/internal/storage/filer.go:63-87 | one to three POSTs of the same content, one second and two seconds apart; without a panic each but the last failed in transport, with 429 or 5xx, and the last of fewer than three did not, or the context was done; completed at most once, exactly on success unless it panics |
| `Storage.UploadToStorage` | backend/internal/storage/filer.go:140-162 | completed uploads are a prefix of zip and manifest order, all of it exactly on success unless it panics, after whatever number of POSTs; then every object holds its content; at most 3*(1+renders) POSTs |
| `Storage.CompletedMeansStored` | backend/internal/storage/filer.go:118-162 | once all uploads completed, zip and one object per render are stored with the contents of logs |
| `Storage.PathsAreDistinct` | backend/internal/storage/filer.go:118-134 | different renders and the zip are different objects |
| `Delivery.SheetsAreDelivered` | backend/internal/worker/task_handler.go:80-121 | on success the object of every sheet holds that sheet's own image if and only if sheets sharing a render name have the same content, and the PCB renders are in place |
| `Delivery.DistinctNamesShareNothing` | backend/internal/kicad/kicad.go:410-446 | with distinct names in the manifest that is the case |
| `Text.SplitOfJoin` | backend/internal/kicad/kicad.go:164-166 | splitting on the separator undoes joining if no part holds it |
| `Text.CutIsFirst` | backend/internal/kicad/kicad.go:656-668 | "lib:footprint" is cut at its first colon, if it has one |
| `Millimetres.ParseFormatF` | backend/internal/kicad/kicad.go:116 | `%f` prints whole nanometres, halves to even, that read back unchanged |
| `Millimetres.RoundingsAgree` | backend/internal/kicad/preset.go:61-62 | with z the float64 of the product y, math.Round of z is what `%f` prints if and only if, below 2^52, z is no tie that y is below, or is, with an even number below; beyond, if z is the integer y rounds to |
| `Millimetres.SevenDecimals` | backend/internal/kicad/preset.go:61-62 | for 5.0812345 they differ: 5081235 and 5081234 |
| `Millimetres.HalfNanometre` | backend/internal/kicad/preset.go:61-62 | so they do for 1/128 mm: 7813 and 7812 |
| `Millimetres.TruncDropsFraction` | backend/internal/kicad/kicad.go:557 | the conversion to int drops the fraction towards zero |
| `KBPlacer.BuildKBPlacerArgs` | backend/internal/kicad/kicad.go:77-169 | the appended arguments are the table of options in order, and decode to what the options mean |
| `KBPlacer.ArgsRoundTrip` | backend/internal/kicad/kicad.go:77-169 | a decoder that rejects repeats and unknown options recovers the normalised options from the argument list |
| `KBPlacer.ElementsRoundTrip` | backend/internal/kicad/kicad.go:122-166 | splitting `--additional-elements` on ";" gives back the ST, LED and C elements |
| `KBPlacer.NamesDiffer` | backend/internal/kicad/kicad.go:77-169 | no two options have the same name |
| `Settings.AcceptsExactly` | backend/internal/kicad/kicad.go:571-741 | the checks accept exactly the valid settings, whatever their order |
| `Settings.FirstErrorIsReported` | backend/internal/kicad/kicad.go:571-802 | settings are accepted if and only if they meet a list of rules, each with its error; the error reported is that of the first rule in the list that is broken |
| `Settings.PlacementAccepted` | backend/internal/kicad/kicad.go:513-558 | a placement is accepted exactly if its four fields are valid, and is what they say |
| `Settings.PlacementErrorNamesFirst` | backend/internal/kicad/kicad.go:507-558 | the error of a rejected placement names its first offending field, and whether it is absent or bad |
| `Settings.AcceptedSettingsSurvive` | backend/internal/kicad/kicad.go:571-836 | for accepted settings the decoded command line has the rotations, sides, positions, footprints, routing and elements of the settings; diodes are routed exactly for "Switch-Diode only" and "Full"; LEDs are on the board exactly if in the schematic |
| `Preset.PresetPassesThrough` | backend/internal/kicad/preset.go:24-42 | a preset passes untouched or not at all, and brings no diodes |
| `Preset.BuildSwitchPresetFile` | backend/internal/kicad/preset.go:53-69 | the diode is added at math.Round of its coordinates' float64 products, all other keys are unchanged |
| `Preset.PresetAgreesWithCustom` | backend/internal/kicad/preset.go:58-66 | preset file and CUSTOM argument place the diode on the same nanometre if and only if both products agree with their float64s in that sense |

## Left out

- JSON encoding of frames and WebSocket framing, pings, deadlines and the origin check: a frame is its fields, a failing ping or write is a step.
- Bytes that are no UTF-8: in the log stream a Go string is a sequence of characters, one to a byte.
- `LogStream.Publisher.PublishLine`: entries carry no timestamp in that module; `Frames` has it.
- `Transcripts.ClientHoldsTheBuild`: entries are compared without their times; `LogProtocol.Transcript` has them.
- `LogStream.LineWriter.Write`: growth and reuse of the bytes.Buffer's memory are not modelled, only its bytes and read offset.
- `LogProtocol.RunsKeepInv`: asynq's requeue of a task at shutdown, after which a second handler run would append to the same stream, is excluded; a timeout is a step.
- `LogProtocol.ClosedStreamIsDrained`: the bound counts reads that return entries; that the runtime schedules the pump at all is not modelled.
- `LogSocket.PumpLogStream`: the others have a finite plan; when it is over the method may still be waiting. That the block time of an XREAD runs out is modelled only while others are still to run. So do the methods of `TaskServer`, which end in any case.
- `BuildTask.RunKBPlacer`: the tail of build.log in the error message, and the buffered output of kicad-cli.
- `BuildTask.Handle`: panics inside a publish count as panics of the step before it; the progress reports' texts and the files' work directory are left out.
- `TaskQueue.Conservation`: asynq states that the server never causes (scheduled, retry, aggregating) do not occur.
- `TaskQueue.WatchedTasksAreSafe`: a socket's lifetime is counted from its `UpdateAccess` and a delay; time is a monotone integer, and a tick waits for sockets whose time is over.
- `TaskServer.KicadGetTaskStatus`: the result and progress texts beside the status.
- `Slug.SlugifySheet`: `ToLower` is any function on characters; only its fixed points (lower-case letters, digits, hyphen) are assumed, and only for idempotence.
- `Paths.SanitizeFilename`: characters are Unicode code points there, so the replacement of malformed UTF-8 is not modelled.
- `Manifest.GenerateSchematicImage`: kicad-cli's run, and errors of reading and copying files. The temporary directory's own path is taken to hold no pattern character.
- `Glob.Listing`: patterns with '*', '?' or a backslash, which a project name cannot hold.
- `Paths.DirectoriesAreMade`: the file system is Linux's and tells upper from lower case; a full disk, missing rights and the length of the whole path are left out.
- `Storage.Do`: specialised to the one use of `retry.Do`, the POST of an upload; errors of building a request.
- `Settings.FirstErrorIsReported`: errors about layout, directories and files, which come between the last two rules, are left out.
- `Settings.AcceptsExactly`: numbers are reals, so a coordinate or rotation beyond int64 is converted exactly; errors of creating directories and writing files come between the checks of the settings and of the preset path.
- `Millimetres.RoundingsAgree`: a float64 is the real number it stands for, of 53 bits and any exponent; products are rounded to a nearest one, which of two at the same distance is left open. Overflow to infinity and of the conversion to int64 is left out.
- `BundleFootprintLibraries`, the zip, directory walking and copying: library calls.
- Routing of requests, CORS, `FilerProxy`, version and workers endpoints, environment variables: plumbing or a branch each.
- kbplacer's and kicad-cli's own work: their output is arbitrary.
