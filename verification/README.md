# Verified model of the calling extension, its outbox protocol and the contact pipeline

This project models the parts of the repository where order, crashes and concurrency decide
whether data survives, and proves what they promise. `dafny verify dfyconfig.toml` checks all of it.

## What is modelled

**The offline recording and upload protocol** (`Domain`, `Store`, `Delivery`, `DeliveryMeaning`, `Protocol`,
`Correspondence`, `Safety`, `ProtocolTheorems`, `EventOrder`, `SentTruth`, `Locks`). Offscreen recorders, the
background worker's orphan sweeps and its outbox pass, one IndexedDB database and a lossy server form one state
machine. A step is one transaction, one lock operation or one message, so a crash is a stop between two steps, and the
environment (clock, randomness, replies, what the server keeps of what was sent) is an argument of the step. A reply
may be lost after the request was applied, and a request may arrive at any time after it was sent. The server is
constrained only by the contract at `packages/contracts/src/extension.ts:161-168`. The theorems hold in every world
that some sequence of steps reaches.

**The outbox as it is written** (`Pass`, `PassMeaning`, `TokenMeaning`, `Outbox`, `Offscreen`, `RecorderMeaning`,
`Refinement`, `Termination`, `Flush`, `FlushRuns`, `Lanes`). `Database`, `PassRun` and `ActiveRecorder` are classes
whose methods are the transactions, the loops of a pass and the recorder's handlers. Their contracts tie them to the
functions that the state machine is built from. On those functions stand termination against any server, delivery
against a server that works, and the independence of lanes. A pass (`Refinement`), a whole flush (`FlushRuns`) and a
recorder's life (`Offscreen`) are proved to be runs of the state machine, so the theorems about every run hold of the
code's loops and handlers.

**The server's side** (`Server`, `ServerMeaning`). Uploads that race over a segment, the blob store beside the rows,
and the close, as a state machine; it shows that the contract the outbox relies on is met.

**The contact projection** (`Ranking`, `Projection`, `Served`, `Materialize`, `Drain`, `Upserts`, `MergeWrites`,
`ContactUpserts`, `Staleness`, `MergeRuns`, `StaleRows`, `RowHash`). Tables are maps and sets. The SQL batch over a
chunk of ids, with its window functions, is proved to be the plain function of the staging tables for each id, and the
drain loops stand on that. `Upserts` models what the merge of a shard writes: documents, attributes, companies, roles,
phones and emails, with their guards and ranks, and what it marks; `MergeWrites` says all of it of the columns of the
staged rows, and `Served` says of every served column what it holds. `Staleness` proves exactly when that leaves the
serving tables right, and `MergeRuns` what then holds after any commits.

**The ingest** (`Ingest`). Dispatcher, workers and counters, against the sequential ingest.

**Kernels** (`RateLimit`, `ResetPlan`, `Reservoir`, `Sample`, `Text`, `TextMeaning`, `Identifiers`,
`IdentifierMeaning`, `Calls`, `Migration`). The token bucket, the foreign-key closure of the reset plan, reservoir
sampling, document and phone keys and their search plans, the call machine, and the move from a v1 install.

## Where the code does less than it says

Each of these is a lemma with a concrete input or the exact condition, and the code was modelled as it is.

- `StaleRows`: the merge applies every staged row but marks dirty only what rows in the delta name, and of a row with a
  representative only the representative. So an unchanged row can take back a person's name or put back a company's
  status, and a second person can appear, without the serving tables following. `Staleness` has the exact condition.
- `EventOrder`: the server may take an event whose attempt ended long ago. Once the event was given up, later ones may
  have gone before it. The log is in order exactly when no such event is taken after a later one.
- `Server`: a failed upload checks that no row points at its blob and then deletes it. Between the two, another
  upload of the same bytes can insert its row. The bytes are then gone although the close answers `complete`.
- `Identifiers`: eight-digit landlines are stored as phones but planned as DNI numbers; and the normalizer's comment
  lists CSR and CIRE among the type names it takes, but it resolves only their spelled-out forms.
- `Calls`: a call received under a clock reading behind that of the call before it, or under the same reading with an
  id that sorts later, never becomes the current call.
- `Flush`: an empty remote id passes the contract's guard, and then the recording's rows wait forever.
- `Migration`: the import overwrites a queued row that shares a number with a legacy one.
- `RateLimit`: the bound over a window needs clock readings in bucket order; with readings that go back and forth
  there is no bound at all.

## Model

| member | source | states |
|---|---|---|
| ProtocolTheorems.NoAudioIsLost | apps/extension/src/services/deliver.ts:188-218 | in every reachable state a complete recording's server copy is, byte for byte, every chunk it ever stored and nothing else, and until then every one of them is on the device |
| ProtocolTheorems.OnlyConfirmedAudioIsDeleted | apps/extension/src/services/deliver.ts:188-218 | whatever step deletes a chunk, its recording was closing, had a remote id, and was on the server in full and exactly |
| ProtocolTheorems.NothingStoredAfterTheClose | apps/extension/entrypoints/offscreen/main.ts:110-178 | whatever step adds or changes a chunk, its recording is running, has no close queued, and the chunk's number was never used before |
| ProtocolTheorems.StoredWithoutGaps | apps/extension/entrypoints/offscreen/main.ts:92-125 | the chunks a recording stored are numbered 0 to n-1, where n is the segment count of its manifest |
| ProtocolTheorems.ManifestFitsTheServer | apps/extension/src/services/deliver.ts:181-186 | once every stored chunk is uploaded, the manifest's count and bytes are those of the server's copy, so a checking server can complete it |
| ProtocolTheorems.RowsMatch | apps/extension/src/services/recording-store.ts:33-126 | in every reachable state: no remote id iff exactly one create job, closing iff exactly one close job, every segment job has its chunk, a complete recording has no chunk and no job, and a call has at most one recording |
| ProtocolTheorems.SweepSparesRecorders | apps/extension/src/services/recording-lock.ts:34-62 | when the sweep changes a recording's status, no recorder anywhere has that recording |
| EventOrder.EventsArriveInOrderExactlyWhen | apps/extension/src/services/outbox.ts:14-22 | in any run in which the agent does not ask for the dead letters, with lost replies, parking, 401 recovery, new events and requests that arrive at any later time, the server's log is in queue order exactly when no event was taken after its attempt had ended and a later event had been taken |
| EventOrder.AwaitedIsNotOvertaken | apps/extension/src/services/outbox.ts:154-216 | while an attempt waits for its reply, no event queued after it has been taken |
| EventOrder.LateArrivalBreaksOrder | apps/extension/src/services/outbox.ts:43-74 | a concrete run: an event is given up after 20 lost replies, the next one is taken, and then the first one arrives |
| EventOrder.LogGrows | packages/contracts/src/extension.ts:161-168 | no step but the server's taking of an event that was sent, once per id, adds to the log |
| ProtocolTheorems.EventsAreDeliveredOrKept | apps/extension/src/services/outbox.ts:37-74 | with ids that are not reused, every event ever queued is still queued, or the server took it with its number, id, type and payload, or it is a heartbeat |
| ProtocolTheorems.NumbersAreNotReused | apps/extension/src/services/database.ts:99-113 | a sequence number is never given out twice, and a queued row keeps its job |
| ProtocolTheorems.ParkedRowsAreNotSent | apps/extension/src/services/outbox.ts:165-185 | a request goes out only for a row that is queued and not parked |
| SentTruth.CloseSaysWhatHappened | apps/extension/src/services/deliver.ts:246-249 | in every reachable state every close ever sent for a recording says `interrupted` exactly as its row and its close job do, and while it is open its totals are those of the stored chunks |
| SentTruth.SegmentSaysWhatWasStored | apps/extension/src/services/deliver.ts:109-146 | every segment ever sent for a recording carries the bytes stored under its number, and while the chunk is on the device the start stored with it |
| SentTruth.EventSaysWhatWasQueued | apps/extension/src/services/deliver.ts:55-72 | every event ever sent is the one queued under its number, with the time at which it was queued, and the same each time |
| SentTruth.RequestFitsItsRow | apps/extension/src/services/deliver.ts:280-297 | the request in flight is the one the row at hand calls for |
| Locks.LockedExactlyWhen | apps/extension/src/services/recording-lock.ts:14-62 | in every reachable state the lock of a call is held exactly while a recorder of the call or a sweep of its recording is there |
| Locks.OneHolder | apps/extension/src/services/recording-lock.ts:14-62 | no call has two recorders, or a recorder and a sweep, or two sweeps |
| Locks.ARecordingCanBegin | apps/extension/src/services/recording-store.ts:33-53 | in every reachable state a live call without recorder and recording can be recorded: its row, its create job and its lock are then there |
| Locks.AnOrphanCanBeClosed | apps/extension/src/services/recording-store.ts:109-126 | in every reachable state a running recording whose recorder is gone can be closed as interrupted by the next sweep, which gives its lock back |
| Locks.TheAgentCanAct | apps/extension/src/services/outbox.ts:80-97 | in every world an event can be queued and a call put, and the agent's retry makes a parked row live, uncounted and due now |
| FlushRuns.AFlushDeliversEverything | apps/extension/src/services/outbox.ts:221-250 | from any reachable state without parked rows, a forced flush is a run of the state machine; against its server, if that works and answers truthfully, the run ends with an empty queue, every closing recording complete with an exact copy on the server, and every event but a heartbeat taken |
| FlushRuns.FlushIsARun | apps/extension/src/services/outbox.ts:221-229 | the passes until one makes no progress are a run of the state machine that ends idle with the same store |
| FlushRuns.TheServerCanWork | packages/contracts/src/extension.ts:161-168 | whatever request waits, there are server steps after which a reply that does the work is truthful; a close needs the server to have been given all of the recording |
| DeliveryMeaning.SendsExactlyWhen | apps/extension/src/services/deliver.ts:55-277 | which request each job sends, and exactly when; a close only once no segment of its recording is queued |
| DeliveryMeaning.DropsExactlyWhen | apps/extension/src/services/deliver.ts:74-228 | an attempt finds nothing to do exactly when its subject is gone or its work is done; only segments and closes wait |
| DeliveryMeaning.DoneExactlyWhen | apps/extension/src/services/deliver.ts:55-277 | a job is done exactly when the server said what the job asks for, a close when it named the totals sent and still stored; a refusal is a rejection and nothing else is |
| DeliveryMeaning.OnlyDoneChanges | apps/extension/src/services/deliver.ts:55-277 | a reply that does not end the job changes nothing but for segments that are queued again |
| DeliveryMeaning.DoneLeaves | apps/extension/src/services/deliver.ts:74-218 | the end of a job removes its row and changes only what the job is about: the remote id, or the status and the chunks of one recording |
| Safety.InvKept | apps/extension/src/services/database.ts:187-198 | every step of every party keeps the invariant: rows match, locks, recorder variables, local and remote audio, the pass in hand, event order, conservation |
| Safety.ConfirmedMeansUploaded | apps/extension/src/services/deliver.ts:230-277 | a manifest that the server confirms and that still fits the local chunks means everything ever stored is uploaded |
| Correspondence.BeginKeeps | apps/extension/src/services/recording-store.ts:33-53 | the transaction that begins a recording keeps the correspondence of rows, or throws |
| Correspondence.StoreChunkKeeps | apps/extension/src/services/recording-store.ts:80-101 | so does the one that stores a chunk into a running recording |
| Correspondence.FinishKeeps | apps/extension/src/services/recording-store.ts:109-126 | so does the one that ends a recording, whatever its status |
| Correspondence.ReceiveKeeps | apps/extension/src/services/deliver.ts:55-277 | so does what any delivery commits after any reply |
| Correspondence.FailureKeeps | apps/extension/src/services/outbox.ts:43-74 | so does counting a failure, parking and dropping |
| Correspondence.NothingToDrop | apps/extension/src/services/deliver.ts:79-119 | when the rows match, no delivery finds its work already done |
| Store.FailureMovesOn | apps/extension/src/services/outbox.ts:43-74 | a failed row leaves the schedule iff it was refused or failed for the 20th time; a heartbeat is then dropped, another row parked, and any other is due later, within five minutes |
| Store.DeadLettersAreBack | apps/extension/src/services/outbox.ts:80-97 | every parked row is live again with no attempts and due now, and every other row is as it was |
| Store.BackoffBounds | apps/extension/src/services/backoff.ts:9-12 | a delay is at least half its ceiling, below the ceiling, and the ceiling is at most five minutes |
| Store.CeilingDoubles | apps/extension/src/services/backoff.ts:3-12 | the ceiling doubles with each attempt and is five minutes from the ninth on |
| Store.EveryDelayHappens | apps/extension/src/services/backoff.ts:9-12 | the random source decides between all delays from half the ceiling up to it |
| Store.EnqueueMeans | apps/extension/src/services/database.ts:99-113 | a queued job is one new row under the next number, not tried yet, due when asked or at once, and nothing else changes |
| Store.BeginsExactlyWhen | apps/extension/src/services/recording-store.ts:33-53 | a recording begins exactly for a call that is dialing or active and has no recording, with its row and its create job |
| Store.StoreMeans | apps/extension/src/services/recording-store.ts:80-101 | a chunk is stored with its size and start, and its segment is queued |
| Store.FinishMeans | apps/extension/src/services/recording-store.ts:109-126 | a running recording becomes closing with the flag given and queues its close, and any other stays as it is |
| Pass.MissingIsSentAgain | apps/extension/src/services/deliver.ts:153-179 | an answer `missing` is a retry: if every listed chunk is stored each gets one new row in order, due with the close, and otherwise nothing is queued |
| Pass.TokensRotateOncePerPass | apps/extension/src/services/outbox.ts:109-144 | a 401 rotates the tokens once per pass; afterwards it costs the row an attempt, and a refresh that fails ends the pass without one |
| PassMeaning.SentExactlyWhen | apps/extension/src/services/outbox.ts:150-193 | for both values of `force`, in a pass that no 401 ends, a row is sent exactly when it is live, it is due or the pass is forced, and every earlier live row of its lane was sent and was delivered, waits or left the schedule |
| PassMeaning.RowsBecome | apps/extension/src/services/outbox.ts:43-74 | what every row has become after a pass: untouched if it was not sent, and otherwise gone, waiting, counted and due later, parked, or dropped as its outcome says |
| PassMeaning.ProgressExactlyWhen | apps/extension/src/services/outbox.ts:186-193 | a pass made progress exactly when it delivered a row |
| TokenMeaning.EndsEarlyExactlyWhen | apps/extension/src/services/outbox.ts:109-144 | a pass ends early exactly when the tokens cannot be rotated for its first 401 |
| TokenMeaning.LaterOnesAreCounted | apps/extension/src/services/outbox.ts:109-144 | a later 401 of the same pass costs its row an attempt |
| Pass.VisitTouches | apps/extension/src/services/outbox.ts:165-191 | one turn of the loop changes its own row and adds new ones, and no other |
| Termination.ProgressShrinks | apps/extension/src/services/outbox.ts:221-229 | a pass that made progress has a smaller measure (failed attempts left to live closes, live rows), whatever the server answered |
| Termination.FailureShrinks | apps/extension/src/services/outbox.ts:35-74 | counting a failure of a close costs it one of its attempts and adds no row |
| Termination.StopsWithoutProgress | apps/extension/src/services/outbox.ts:221-229 | forced or not, the loop stops after the first pass that made no progress and not before; offline or signed out that is the first |
| Outbox.RunUntilIdle | apps/extension/src/services/outbox.ts:221-229 | the loop of passes ends for both values of `force` against any server, and computes the well-founded recursion over passes |
| Outbox.RunPass | apps/extension/src/services/outbox.ts:154-193 | one pass leaves the store and the progress flag that the specification function gives; offline or signed out it does nothing |
| Outbox.PassRun.Run | apps/extension/src/services/outbox.ts:154-193 | the loop over the listed rows is the fold of single turns, for any answers |
| Outbox.PassRun.AttemptRow | apps/extension/src/services/outbox.ts:109-144 | sends a row and after the pass's first 401 sends it again with new tokens |
| Outbox.PassRun.SettleRow | apps/extension/src/services/outbox.ts:195-216 | settles an outcome in the store and holds the lane of a row that stays on the schedule |
| Outbox.Deliver | apps/extension/src/services/deliver.ts:280-297 | the delivery of any job, for any reply, commits what the plan and the reply call for |
| Outbox.DeliverEvent | apps/extension/src/services/deliver.ts:55-72 | an event is dropped from the queue exactly on success |
| Outbox.DeliverCreate | apps/extension/src/services/deliver.ts:74-107 | a create job stores the remote id and leaves the queue in one transaction, and is dropped when there is nothing to do |
| Outbox.DeliverSegment | apps/extension/src/services/deliver.ts:109-146 | a segment waits for the remote id, and its audio stays when its row goes |
| Outbox.DeliverClose | apps/extension/src/services/deliver.ts:220-277 | a close waits for every segment row, and completes, requeues or retries by the answer |
| Outbox.Database.constructor | apps/extension/src/services/database.ts:131-137 | an empty store whose next sequence number is 1 |
| Outbox.Database.Enqueue | apps/extension/src/services/database.ts:99-113 | one new row under the next number, and that number is returned |
| Outbox.Database.BeginRecording | apps/extension/src/services/recording-store.ts:33-53 | writes the row and its create job, or changes nothing when the call is not live or has a recording |
| Outbox.Database.StoreChunk | apps/extension/src/services/recording-store.ts:80-101 | writes the chunk and its segment job together |
| Outbox.Database.FinishRecording | apps/extension/src/services/recording-store.ts:109-126 | ends a running recording and queues its close, and leaves any other alone |
| Outbox.Database.DropRow | apps/extension/src/services/deliver.ts:33-40 | deletes one row |
| Outbox.Database.RecordFailure | apps/extension/src/services/outbox.ts:43-74 | counts the failure in the row, parks or drops it, and reports whether it left the schedule |
| Outbox.Database.RequeueDeadLetters | apps/extension/src/services/outbox.ts:80-97 | the loop of puts makes every parked row live and leaves the others |
| Outbox.Database.TotalsOf | apps/extension/src/services/deliver.ts:181-186 | the loop over the listed chunks gives the number after the last one and the bytes of all, gaps or not |
| Outbox.Database.RequeueMissing | apps/extension/src/services/deliver.ts:153-179 | the two loops queue all the listed segments, or none when one is gone |
| Outbox.Database.CompleteRecording | apps/extension/src/services/deliver.ts:192-218 | deletes the audio, completes the recording and drops the close together, only if the local totals are those confirmed |
| Outbox.Database.StoreRemoteId | apps/extension/src/services/deliver.ts:97-105 | only the remote id changes, and the job goes |
| Refinement.PassIsARun | apps/extension/src/services/outbox.ts:154-193 | a pass of the code, with the server acting while it waits for replies, is a run of the state machine that ends idle with the same store, as long as each reply may be given when it comes |
| Refinement.TurnIsARun | apps/extension/src/services/outbox.ts:165-191 | one turn of the loop is a run of the state machine, through 401 recovery and both replies |
| Flush.FlushDelivers | apps/extension/src/services/outbox.ts:221-229 | passes against a server that works end with an empty queue, every recording known to the server, and every closing one complete |
| Flush.NobodyWaitsForever | apps/extension/src/services/deliver.ts:118-244 | when every queued row waits, the queue is empty: creates go before segments and those before the close |
| Flush.PassFromKeeps | apps/extension/src/services/outbox.ts:154-193 | a pass keeps the correspondence of rows whatever the server says |
| Flush.EmptyRemoteIdStalls | apps/extension/src/services/deliver.ts:80-123 | a recording whose remote id is the empty string keeps every row it has left waiting in every pass |
| Lanes.LanesDoNotInterfere | apps/extension/src/services/outbox.ts:14-22 | without a 401, a pass sends the same rows of a lane with the same outcomes, and leaves the lane, its recording and its chunks the same, as a pass over that lane's rows alone |
| Lanes.LanesGoInOrder | apps/extension/src/services/outbox.ts:154-216 | a row is sent only if every live row before it in its lane was sent too and was delivered, waits, or left the schedule |
| Lanes.OnlyDueRowsAreSent | apps/extension/src/services/outbox.ts:150-176 | a pass sends live rows only, and without `force` only rows that are due |
| Lanes.SamePlan | apps/extension/src/services/deliver.ts:55-254 | what a delivery decides depends on its own lane only |
| Offscreen.ActiveRecorder.constructor | apps/extension/entrypoints/offscreen/main.ts:102-108 | a recorder starts at number 0 with nothing waiting |
| Offscreen.ActiveRecorder.OnData | apps/extension/entrypoints/offscreen/main.ts:127-134 | empty data is ignored; other data waits in order and starts where the last began to end |
| Offscreen.ActiveRecorder.StoreNext | apps/extension/entrypoints/offscreen/main.ts:110-125 | the number is taken after a successful write only, and after a failed one nothing is stored |
| Offscreen.ActiveRecorder.Record | apps/extension/entrypoints/offscreen/main.ts:110-178 | the handlers, as any possible sequence of data, writes, failures, stop requests, interruptions, the stop event and the close calls them, leave the recorder and the store as the fold of their effects says |
| Offscreen.HandlerIsAStep | apps/extension/entrypoints/offscreen/main.ts:85-178 | each handler does to the recorder's variables and the store exactly what its step of the state machine does |
| Offscreen.RecorderIsARun | apps/extension/entrypoints/offscreen/main.ts:110-178 | a recorder's life is a run of the state machine, so what holds in every run holds of it |
| RecorderMeaning.StoresWhatItHeard | apps/extension/entrypoints/offscreen/main.ts:92-125 | from its start a recorder stores what it heard in order, numbered from 0, each chunk starting where the last one ended, up to the first write that fails |
| RecorderMeaning.ClosesAsInterruptedExactlyWhen | apps/extension/entrypoints/offscreen/main.ts:110-178 | the recording's row and its one close job say interrupted exactly when no stop was asked for, or an interruption or a failed write came after it |
| Offscreen.ActiveRecorder.Finish | apps/extension/entrypoints/offscreen/main.ts:161-178 | the close is queued after every write, interrupted unless a stop was asked for |
| Offscreen.InterruptOrphans | apps/extension/src/services/recording-lock.ts:40-62 | exactly the running recordings whose lock is free become closing and interrupted, each with exactly one new close, and the count is theirs |
| Server.CompleteIsTruthful | apps/web/src/server/extension/service/recordings.ts:488-563 | a close answered `complete`, the first time or again, names its manifest, and the server lists segments 0..n-1 with those bytes then and ever after |
| Server.MissingIsTruthful | apps/web/src/server/extension/service/recordings.ts:451-460 | `missing` lists exactly the absent segments below the manifest's count, and changes nothing |
| Server.FirstBytesStay | apps/web/src/server/extension/service/recordings.ts:241-282 | a stored segment keeps its row and its bytes whatever arrives later |
| Server.OneRecordingPerCall | apps/web/src/server/extension/service/recordings.ts:145-196 | whatever repeats and races, a call has one recording |
| Server.StepKeepsBlobsExactlyWhen | apps/web/src/server/extension/service/recordings.ts:216-239 | a step loses stored bytes exactly when a failed upload deletes a blob that a row, or another upload of the same bytes about to insert, counts on |
| Server.StoredSegmentsHaveTheirBytes | apps/web/src/server/extension/service/recordings.ts:284-349 | while no such delete happens every listed segment has a blob with its hash and size |
| Server.OneAtATimeKeepsBytes | apps/web/src/server/extension/service/recordings.ts:284-349 | it has one in every run in which an upload is let in only while no other of the same bytes is under way |
| Server.RaceLosesBytes | apps/web/src/server/extension/service/recordings.ts:221-239 | two uploads of the same bytes, one of which fails, can leave a listed segment without bytes, and the close still answers `complete` |
| Server.RepeatedRequestsRace | apps/web/src/server/extension/service/recordings.ts:284-306 | a repeated request for a segment that is not stored yet makes two such uploads |
| Server.ListMissing | apps/web/src/server/extension/service/recordings.ts:451-460 | the loop lists the numbers below the count that are not stored, in order |
| ServerMeaning.AnswersExactlyWhen | apps/web/src/server/extension/service/recordings.ts:488-560 | in every reachable state a close is answered `complete` exactly when the recording was completed with this manifest or holds its segments and bytes, and `missing` exactly when an open one lacks a segment |
| ServerMeaning.ClosesExactlyWhen | apps/web/src/server/extension/service/recordings.ts:540-552 | a close completes its recording with its manifest if so answered, and otherwise changes nothing |
| ServerMeaning.CreatesExactlyWhen | apps/web/src/server/extension/service/recordings.ts:149-183 | a recording is created exactly for a call that has none, and the call has one afterwards |
| ServerMeaning.AnUploadIsStored | apps/web/src/server/extension/service/recordings.ts:284-349 | an upload of up to four mebibytes for an unstored segment of a recording that is not complete is stored with its bytes, if nothing throws |
| ServerMeaning.TakesExactlyWhen | apps/web/src/server/extension/service/recordings.ts:358-397 | nothing else is taken in |
| ServerMeaning.NothingStoredOnceComplete | apps/web/src/server/extension/service/recordings.ts:255-262 | a complete recording gains no segment, not even from an upload that was under way |
| ServerMeaning.AFailedUploadCleansUp | apps/web/src/server/extension/service/recordings.ts:221-239 | a failed upload that is not raced leaves its blob exactly when a row points at it |
| Projection.FirstContactIsBest | crates/pipeline/src/materialize.rs:116-150 | a served primary phone or email is the one with the highest weight, the first by text among equals, and there is one exactly when there are any |
| Projection.SecondContactIsNextBest | crates/pipeline/src/materialize.rs:116-135 | a secondary phone is served exactly when there are two, and it is the best of the others |
| Projection.PrimaryRoleIsFirst | crates/pipeline/src/storage/schema.rs:310-326 | the primary role of a document is its latest dated one, or the oldest undated one, and the oldest among equals |
| Projection.PeopleHaveNoGaps | crates/pipeline/src/storage/schema.rs:328-345 | the listed people of a company have positions 1 to the lesser of ten and their number |
| Served.ServedDocument | crates/pipeline/src/materialize.rs:101-233 | every served column of a document that is not marked: its best email, its best phone, the best of the others, the columns of its primary role and that role's company, its searched name and its phones joined in text order |
| Served.ServedCompany | crates/pipeline/src/materialize.rs:235-350 | every served column of a company that is not marked: its best phone and the best of the others, its ten first people each at its place, its searched name and its phones |
| Served.JoinedMeans | crates/pipeline/src/materialize.rs:219-229 | a list is its texts parted by semicolons |
| Ranking.RowNumberFollowsOrder | crates/pipeline/src/storage/schema.rs:316-322 | row numbers follow the order and are not shared |
| Ranking.NthExists | crates/pipeline/src/storage/schema.rs:336-342 | row numbers run from 1 to the number of rows without a gap |
| Ranking.TextLessMeans | crates/pipeline/src/storage/schema.rs:310-345 | a text sorts before another exactly when it is a proper prefix of it, or has the smaller character at the first place where they differ |
| Materialize.WindowNumbers | crates/pipeline/src/materialize.rs:114-126 | ranking a chunk of owners at once gives each the ranking it has alone |
| Materialize.DocsRebuilt | crates/pipeline/src/materialize.rs:101-233 | the batch leaves every document of the chunk as the plain function of the staging tables says, and every other document as it was |
| Materialize.CompaniesRebuilt | crates/pipeline/src/materialize.rs:235-351 | the same for companies, their people, and the phones of their ruc |
| Drain.PipelineDb.DrainDirtyDocs | crates/pipeline/src/materialize.rs:27-62 | for a chunk size of at least one the loop ends with no dirty document, counts them all, and keeps the agreement at each commit; for zero it does nothing |
| Drain.PipelineDb.DrainDirtyCompanies | crates/pipeline/src/materialize.rs:64-99 | the same for companies |
| Drain.PipelineDb.MaterializeServing | crates/pipeline/src/materialize.rs:11-25 | whatever was dirty, the serving tables end as a rebuild from nothing makes them |
| Drain.PipelineDb.constructor | crates/pipeline/src/materialize.rs:11-15 | a store in which everything unmarked agrees |
| Drain.Claim | crates/pipeline/src/materialize.rs:40-44 | claims as many ids as the limit allows, any of them |
| Drain.CleanMeansRebuilt | crates/pipeline/src/materialize.rs:7-10 | with nothing dirty the serving tables are determined by the staging tables |
| Upserts.RoleAfterIs | crates/pipeline/src/merge/sql/merge_core.sql:169-220 | however many source rows meet in one role, it ends with the last name offered if the rank is enough, and with the first document offered if it had none |
| Upserts.IdentityNeverDegrades | crates/pipeline/src/merge/sql/merge_core.sql:18-34 | a name gives way only to one of at least its rank, nothing known is lost, and the same upsert again changes nothing |
| MergeWrites.MaxIsGreatest | crates/pipeline/src/merge/sql/merge_prepare.sql:36-81 | `MAX` is in its set and every other text of the set sorts before it |
| MergeWrites.GivenOfDocument | crates/pipeline/src/merge/sql/merge_prepare.sql:36-63 | the merge is given, for a document, the greatest name and ruc that the staged rows of its key offer |
| MergeWrites.GivenOfCompany | crates/pipeline/src/merge/sql/merge_prepare.sql:67-81 | the merge is given, for a company, the greatest name and, per fact, the greatest text of its staged rows |
| MergeWrites.DocumentsAfter | crates/pipeline/src/merge/sql/merge_core.sql:1-5 | after the merge there are the documents there were and those a row names, each once |
| MergeWrites.AttributesAfterMean | crates/pipeline/src/merge/sql/merge_core.sql:8-44 | what the attributes of every document have become, said of the columns of the staged rows |
| MergeWrites.CompaniesAfterMean | crates/pipeline/src/merge/sql/merge_core.sql:46-111 | what every company has become, column by column, said of the columns of the staged rows |
| MergeWrites.ContactsAfterMean | crates/pipeline/src/merge/sql/merge_phone.sql:14-40 | a phone or email is there after the merge exactly if it was or a row offers it to its owner, with the heavier of the two weights |
| MergeWrites.RoleStaysAs | crates/pipeline/src/merge/sql/merge_core.sql:191-220 | a known role keeps its key, its document and any better-ranked name, and takes the last name offered otherwise |
| MergeWrites.RoleComesAs | crates/pipeline/src/merge/sql/merge_core.sql:151-190 | a new role has a row that says it, with its document and a name such a row offers |
| MergeWrites.SaidRoleIsThere | crates/pipeline/src/merge/sql/merge_core.sql:151-197 | every role that a row says is there after the merge |
| MergeWrites.MarksMean | crates/pipeline/src/merge/shard.rs:77-99 | the ids marked are exactly those of the documents and companies of changed rows, and of the holders of roles at those companies |
| ContactUpserts.ContactsShowExactly | crates/pipeline/src/merge/sql/merge_phone.sql:12-40 | what is served of an owner's phones changes exactly when a phone is new or a heavier one overtakes one of the first two |
| Staleness.AttributeStays | crates/pipeline/src/merge/sql/merge_core.sql:7-44 | the served name and ruc of a document change exactly when the upsert inserts something or its guard passes |
| Staleness.CompanyUpsertShows | crates/pipeline/src/merge/sql/merge_core.sql:73-111 | a company upsert changes a served column exactly when it takes another name by rank or brings a fact with another value; its guard passes for any fact |
| Staleness.PrimaryAfter | crates/pipeline/src/storage/schema.rs:310-326 | a document's primary role changes exactly when it gains a role that goes before it |
| Staleness.OrgStays | crates/pipeline/src/materialize.rs:186-197 | the served columns of the primary role and its company change exactly when the primary role changes, is renamed, or its company is rewritten |
| Staleness.PeopleStay | crates/pipeline/src/storage/schema.rs:328-345 | the listed people of a company change exactly when someone new gets a place up to ten or someone on the list is renamed |
| Staleness.DocViewStays | crates/pipeline/src/materialize.rs:101-233 | for an unmarked document, all that ought to be served changes exactly when a guard of the document, attribute, role, company or phone upsert passes with a change that is served |
| Staleness.CompanyViewStays | crates/pipeline/src/materialize.rs:235-351 | the same for a company, its people and its phones |
| Staleness.AgreementSurvivesExactlyWhen | crates/pipeline/src/merge/shard.rs:77-99 | a merge keeps every unmarked id served correctly exactly when those guards pass for no document and no company that it leaves unmarked |
| MergeRuns.MergeKeepsAgreement | crates/pipeline/src/merge/shard.rs:77-99 | a merge that touches only the documents and companies it marks, and roles at those companies, keeps every unmarked id served correctly |
| MergeRuns.CoveredTouchesOnly | crates/pipeline/src/merge/shard.rs:39-99 | a merge of new rows that each name one document is such a merge |
| MergeRuns.NewSingleRowsAreSafe | crates/pipeline/src/merge/shard.rs:77-99 | so it keeps every unmarked id served correctly |
| MergeRuns.EveryShardMerges | crates/pipeline/src/merge/sql/merge_core.sql:1-5 | whatever the store and the shard, there are ids for the new rows and an order of the role sources, so a merge is never stuck |
| MergeRuns.AfterKeyed | crates/pipeline/src/storage/schema.rs:56-62 | a merge keeps the uniqueness and foreign keys |
| MergeRuns.ServingAgreesInEveryRun | crates/pipeline/src/materialize.rs:7-10 | after any commits of merges and chunks, cut off anywhere, every id is served correctly that is neither marked nor one in which a merge showed without marking it; with none of either, the tables are the rebuilt ones |
| MergeRuns.FirstImportIsServed | crates/pipeline/src/merge/shard.rs:39-99 | while no row is merged twice and none names two documents, every unmarked id is served correctly in every run, whatever the shards, chunks and crashes |
| StaleRows.UnchangedRowPutsTheStatusBack | crates/pipeline/src/merge/sql/merge_core.sql:73-111 | a concrete run: one source says ACTIVO, another BAJA, and the first one merged again unchanged puts ACTIVO back, marks nothing, and BAJA goes on being served |
| StaleRows.UnchangedRowTakesTheNameBack | crates/pipeline/src/merge/sql/merge_core.sql:8-44 | in any store where ranks allow it, an unchanged row takes back a person's name, marks nothing, and breaks the agreement |
| StaleRows.SecondPersonIsNotMarked | crates/pipeline/src/merge/sql/merge_core.sql:125-131 | a row that names a representative and another, new person marks only the representative and breaks the agreement |
| RowHash.HashStore.MergeShard | crates/pipeline/src/merge/shard.rs:39-50 | the delta is the rows that are new or whose hash changed, and afterwards every row of the shard has its hash |
| RowHash.HashStore.MergeSession | crates/pipeline/src/merge/mod.rs:26-35 | the loop folds the shards in order |
| RowHash.ShardByShardIsAtOnce | crates/pipeline/src/merge/mod.rs:26-35 | shards that share no row, one after the other, are the whole ingest at once |
| RowHash.AnyOrder | crates/pipeline/src/merge/mod.rs:26-35 | their order does not matter |
| RowHash.CrashThenRerun | crates/pipeline/src/merge/mod.rs:26-35 | a run cut off after some shards and a whole run after it, sharded in any way, leave the hashes one run leaves |
| RowHash.MergedAgainIsEmpty | crates/pipeline/src/merge/shard.rs:39-50 | merging unchanged rows again gives an empty delta, which marks nothing |
| RowHash.DeltaIsWhatChanged | crates/pipeline/src/merge/shard.rs:100-120 | a row carries this snapshot exactly when it was in the delta |
| Ingest.ShardWorker.constructor | crates/pipeline/src/ingest/worker.rs:120-123 | a worker starts with an empty table and zero counters |
| Ingest.ShardWorker.Commit | crates/pipeline/src/ingest/worker.rs:180-191 | a commit makes the open rows durable |
| Ingest.ShardWorker.StageOne | crates/pipeline/src/ingest/worker.rs:125-178 | counts a record under the five counters and stages it exactly if it names someone |
| Ingest.ShardWorker.Run | crates/pipeline/src/ingest/worker.rs:120-197 | for any batch size the worker's table holds what a sequential pass over its tasks accepts, and nothing is left open |
| Ingest.Dispatch | crates/pipeline/src/ingest/dispatcher.rs:57-102 | round robin: worker w gets, in order, the records whose index is w modulo the workers; it fails exactly when there are more rows than the cap |
| Ingest.IngestToShards | crates/pipeline/src/ingest/mod.rs:24-117 | the session holds each worker's rows and the sum of their counters, for any requested number of workers |
| Ingest.ShardsRefineSequential | crates/pipeline/src/ingest/mod.rs:89-107 | for any number of workers the shards together hold the multiset of rows that a sequential ingest accepts, and the five counters are the same |
| Ingest.DispatchedIsTotal | crates/pipeline/src/merge/mod.rs:37-46 | the summed total is the number of dispatched rows, so the mismatch check never fires |
| Ingest.CountersAreConsistent | crates/pipeline/src/ingest/session.rs:17-24 | accepted and rejected rows add up, and invalid rows are among those they are counted for |
| Ingest.CountersMean | crates/pipeline/src/ingest/worker.rs:125-178 | each counter is the number of tasks whose row meets its condition |
| Ingest.AcceptedMeans | crates/pipeline/src/ingest/worker.rs:125-178 | staged are, in order, exactly the tasks whose row names a person, company, role, document or phone, each under its number with its record's hash |
| Ingest.SharesAreEven | crates/pipeline/src/ingest/dispatcher.rs:57-95 | every worker gets its equal share of the records, and the first ones one more of the remainder |
| Ingest.ShardHolds | crates/pipeline/src/ingest/worker.rs:154-178 | a row is in the shard of the worker its number went to, in no other, and with its record's hash |
| Ingest.ShardsShareNothing | crates/pipeline/src/ingest/dispatcher.rs:85-92 | no two shards share a row number |
| Ingest.WorkerCountDoesNotMatter | crates/pipeline/src/merge/mod.rs:26-35 | what the merge records is the same for any two numbers of workers |
| RateLimit.RateLimiter.constructor | crates/shared/src/rate_limit.rs:20-26 | no bucket exists before the first request |
| RateLimit.RateLimiter.Allow | crates/shared/src/rate_limit.rs:28-54 | decides by the refilled tokens, changes no other key, a cost of zero touches nothing, and every bucket stays between empty and full |
| RateLimit.WindowBound | crates/shared/src/rate_limit.rs:30-54 | in any interval, whatever came before, the cost let through is at most the capacity and the refill over its length |
| RateLimit.SpentIsPaidFor | crates/shared/src/rate_limit.rs:36-52 | what a run lets through is paid for by its first tokens and the refill since |
| RateLimit.StaysInside | crates/shared/src/rate_limit.rs:42-50 | tokens stay between zero and the capacity |
| RateLimit.FullAfterAMinute | crates/shared/src/rate_limit.rs:36-45 | after a minute without requests exactly the costs up to the capacity are let through |
| RateLimit.BackwardsClockOverspends | crates/shared/src/rate_limit.rs:42-45 | with readings that go back and forth in one window of ten seconds any amount is let through, and from the second round on more than the window's bound |
| ResetPlan.Preserved | apps/web/tools/e2e/prepare.ts:265-283 | the loop ends with the least set that holds the seeded tables and is closed under references |
| ResetPlan.TruncateTargets | apps/web/tools/e2e/prepare.ts:285-290 | the listed tables that are not kept, as a filter in the order of the list |
| ResetPlan.CascadeEmptiesExactlyTheRest | apps/web/tools/e2e/prepare.ts:265-290 | truncating them with CASCADE empties exactly the tables that are not kept |
| ResetPlan.SeededAloneIsNotSafe | apps/web/tools/e2e/prepare.ts:265-266 | without the closure a cascade can empty a seeded table |
| Sample.SampleWithHeader | crates/pipeline/src/sample.rs:8-53 | the output is the header and, each once and in file order, exactly the min(cap, n) data rows that the generator's draws from the seed keep |
| Reservoir.EveryRowIsHeldEquallyOften | crates/pipeline/src/sample.rs:6-44 | over all the sequences of draws there can be, each of the n rows is kept in exactly the share cap / n |
| Reservoir.DrawsAreReduced | crates/pipeline/src/sample.rs:78-83 | the words of a generator give every such sequence of draws and no other |
| Sample.PickedByUniformDraws | crates/pipeline/src/sample.rs:30-44 | up to `cap` rows are all kept, and of more those that such a sequence keeps |
| Reservoir.HeldRows | crates/pipeline/src/sample.rs:35-43 | the rows kept are different rows of those read |
| Sample.DeterministicRng.constructor | crates/pipeline/src/sample.rs:60-67 | the state is the seed, or the one constant for a zero seed, and never zero |
| Sample.DeterministicRng.NextWord | crates/pipeline/src/sample.rs:69-76 | the three shifts keep a state that is not zero |
| Sample.DeterministicRng.NextBounded | crates/pipeline/src/sample.rs:78-83 | a draw is below its bound |
| Sample.SortByIndex | crates/pipeline/src/sample.rs:46-46 | the rows in index order, none lost |
| Text.CollectValid | crates/pipeline/src/normalize/doc.rs:57-73 | the loop with its early exit gives the valid characters in upper case exactly when their number is in range |
| Text.TrimTrims | crates/search/src/domain.rs:84-84 | trimming leaves nothing to trim, and leaves trimmed text alone |
| TextMeaning.TrimExactlyWhen | crates/search/src/domain.rs:84-84 | the trimmed text is the one with no white space at its ends that is left when white space is taken from both |
| TextMeaning.FilteredOfParts | crates/pipeline/src/normalize/doc.rs:57-73 | the valid characters of a text are those of its parts, in order |
| TextMeaning.FilteredOne | crates/pipeline/src/normalize/doc.rs:57-73 | a digit, or for alphanumeric numbers a letter in upper case, and no other character |
| TextMeaning.WordsAroundWhite | crates/search/src/domain.rs:42-44 | white space parts the words of what is before it from those of what is after it |
| TextMeaning.OneWord | crates/search/src/domain.rs:42-44 | what has no white space is one word |
| Identifiers.NormalizedIsFindable | crates/pipeline/src/normalize/doc.rs:33-55 | a pair the normalizer stores, printed as TYPE:NUMBER, is planned as that pair |
| Identifiers.PlannableKeysAreStorableKeys | crates/search/src/domain.rs:53-106 | the document keys the planner can ask for are exactly those the normalizer can store |
| Identifiers.OwnTypeNameIsUnderstood | crates/pipeline/src/normalize/doc.rs:46-55 | the normalizer takes its own pair back exactly for DNI, CE and PTP; it does not resolve CSR and CIRE by those names |
| IdentifierMeaning.NormalizesExactlyWhen | crates/pipeline/src/normalize/doc.rs:33-55 | a pair is stored exactly as one of the five types under one of its names, with the valid characters of its number if there are as many as the type has |
| IdentifierMeaning.PlansExactlyWhen | crates/search/src/domain.rs:53-118 | which of the six searches a query is planned as, exactly, by its digits, its colon, its words and the intent |
| Identifiers.NormalizedPhoneStands | crates/pipeline/src/normalize/phone.rs:11-31 | a normalized phone is a fixed point |
| IdentifierMeaning.PhoneExactlyWhen | crates/pipeline/src/normalize/phone.rs:11-31 | a value is a mobile or a fixed phone exactly by the length and first digit of its digits without the country code, and never with a letter in it |
| IdentifierMeaning.IssueExactlyWhen | crates/pipeline/src/normalize/phone.rs:55-78 | which of the five issues a value has, exactly |
| Identifiers.PhoneIsFindableUnlessEightDigits | crates/search/src/domain.rs:97-110 | a stored phone is planned as itself exactly when it does not have eight digits; otherwise it is planned as a DNI |
| Identifiers.SomePhonesHaveEightDigits | crates/pipeline/src/normalize/phone.rs:25-28 | the normalizer stores phones with eight digits |
| Identifiers.NormalizePhones | crates/pipeline/src/normalize/phone.rs:35-53 | each normalized phone once and nothing else, and exactly the issues of the values that are no phones |
| Identifiers.FtsQuery | crates/search/src/query/sqlite.rs:470-493 | the loops build one prefix term per token of at least two bytes, joined by AND |
| IdentifierMeaning.TokenOfParts | crates/search/src/query/sqlite.rs:470-493 | a token is, in lower case, the letters and digits of the parts of its word in order |
| IdentifierMeaning.TokensOfParts | crates/search/src/query/sqlite.rs:470-493 | each word with a token of two bytes or more gives that token, in order |
| IdentifierMeaning.QueryOfParts | crates/search/src/query/sqlite.rs:470-493 | the query of two lists of tokens is their queries joined by AND |
| Identifiers.AcceptedNamesAreSearchable | crates/search/src/domain.rs:35-51 | every text accepted as a name makes at least one term, and no term is empty or needs quotes |
| Calls.CallDesk.constructor | apps/extension/src/background/calls.ts:1-8 | a desk without calls |
| Calls.CallDesk.LatestCall | apps/extension/src/background/calls.ts:25-32 | the reduction over the listed calls |
| Calls.CallDesk.Receive | apps/extension/src/background/calls.ts:62-89 | a claimed call becomes ready, a second claim changes nothing, and a live call refuses a new one |
| Calls.CallDesk.Start | apps/extension/src/background/calls.ts:91-118 | the latest call goes from ready to dialing with its events, or nothing changes |
| Calls.CallDesk.Connect | apps/extension/src/background/calls.ts:120-134 | the latest call goes from dialing to active with its events, or nothing changes |
| Calls.CallDesk.End | apps/extension/src/background/calls.ts:136-170 | the latest call ends from dialing or active with its events, or nothing changes |
| Calls.LatestIsNewest | apps/extension/src/background/calls.ts:24-32 | the latest call is the one received last, the first by id among equals |
| Calls.LiveCallIsLatest | apps/extension/src/background/calls.ts:55-59 | in every run, whatever the clock does, a live call is the latest one, so there is at most one |
| Calls.LifecycleInOrder | apps/extension/src/background/calls.ts:91-170 | the lifecycle events of a call are started, connected if it connected, and ended, each once and in that order |
| Calls.PhasesMoveForward | apps/extension/src/background/calls.ts:40-53 | calls stay, phases only move forward, and an ended call never changes |
| Calls.NewCallIsCurrentExactlyWhen | apps/extension/src/background/calls.ts:62-89 | a new call becomes the current one exactly when its clock reading is ahead of that of the call before it, or the same with an id that sorts first |
| Calls.StartsExactlyWhen | apps/extension/src/background/calls.ts:91-119 | a call can be started exactly when the newest one is ready; that one is then dialing, with its events |
| Calls.ConnectsExactlyWhen | apps/extension/src/background/calls.ts:121-137 | a call can be connected exactly when the newest one is dialing; that one is then active, with its events |
| Calls.EndsExactlyWhen | apps/extension/src/background/calls.ts:139-170 | a call can be ended exactly when the newest one is dialing or active; that one is then ended, with its events |
| Calls.ClaimedExactlyWhen | apps/extension/src/background/calls.ts:62-89 | in every run a new claim is refused exactly while some call is dialing or active; otherwise the call is there and ready |
| Calls.ClaimedOnce | apps/extension/src/background/calls.ts:62-66 | a second claim of a call changes nothing |
| Migration.Stores.constructor | apps/extension/src/services/migration.ts:6-8 | an install as v1 left it |
| Migration.Stores.ImportQueue | apps/extension/src/services/migration.ts:172-189 | one transaction: nothing if already imported, and otherwise every row and the next number |
| Migration.Stores.ImportSession | apps/extension/src/services/migration.ts:191-201 | writes the v1 session only where there is none |
| Migration.Stores.MigrateV1 | apps/extension/src/services/migration.ts:209-228 | a wake that is not cut off is the steps in order |
| Migration.ImportedAtMostOnce | apps/extension/src/services/migration.ts:203-228 | however often it crashes, the queue is imported at most once, v1 data is removed only after that, and every number in use is below the next one |
| Migration.ImportBringsTheV1Rows | apps/extension/src/services/migration.ts:215-223 | the import brings the same rows at whichever wake it commits |
| Migration.DeliveredStaysDelivered | apps/extension/src/services/migration.ts:174-176 | once imported, a row that left the queue never comes back |
| Migration.SessionIsNotOverwritten | apps/extension/src/services/migration.ts:191-201 | no migration step touches an existing session |
| Migration.OneWholeWakeMigrates | apps/extension/src/services/migration.ts:209-228 | one wake that is not cut off imports the queue, moves the session, and removes the v1 data |
| Migration.LosesNothingExactlyWhen | apps/extension/src/services/migration.ts:178-182 | the import loses no row exactly when no two rows, queued or legacy, share a number and differ |
| Migration.ImportKeepsNumbers | apps/extension/src/services/migration.ts:179-186 | after the import the next number is above every number in use |
| Migration.ImportGoesOnCounting | apps/extension/src/services/migration.ts:179-186 | the next number after the import is the least that is not below v1's, not below the old one, and above every imported row's |
| Migration.RowsAreTheJobs | apps/extension/src/services/migration.ts:141-170 | the imported rows are those of the v1 jobs that have a payload, in order, each with its number, times, attempts and error |
| Migration.ImportedRowsAreTheJobs | apps/extension/src/services/migration.ts:172-189 | with distinct numbers every v1 job that has a payload is in the queue after the import, and nothing else is new |
| Migration.SessionIsTheV1Session | apps/extension/src/services/migration.ts:191-201 | an install without a session gets v1's, with its tokens, if v1 knew where it was signed in |

## Left out

- Events accepted after `requeueDeadLetters`: their order is not claimed, because requeued rows have old numbers.
- The text of errors that list segments or totals, `lastSyncAt`, `lastSyncError` and `captureError`: they decide nothing.
- `recordMicrophoneLost` and the payloads of events and metrics: a single flag and plain data.
- HTTP status mapping, token parsing and session storage: a reply is ok, unauthorized, retryable or refused.
- MediaRecorder, audio graphs, permissions, alarms, badges and message ports. Kept is only that the stop event follows the last data.
- `nextDueAt`, `flushDue` and `flushNow`: a minimum, and promises that share one queue of passes. A row that arrives during a pass may wait for the next one.
- The sweep's list of running recordings is read before its locks are taken. The state machine lets a sweep take any recording, which is more than the code does. `InterruptOrphans` takes the set of busy calls as given for the whole loop.
- The recorder's handlers interleave with everything else, so its safety is proved in the state machine. `ActiveRecorder.Record` plays its handlers with nothing between them.
- `Outbox.RunUntilIdle`: nothing else writes to the store while it loops. Interleaving with other writers is in the state machine.
- Integers are unbounded. JavaScript numbers, `i64` counters and SQLite integers are not modelled as finite, except for the 64-bit words of the sampling generator.
- Times, tokens and delays are reals: floating-point rounding is not modelled.
- Strings are sequences of characters, and the tables of the Unicode standard are a parameter with the few laws used. SQLite's text order is by character.
- The hash functions are uninterpreted. The server's blobs assume that no two bodies share a hash.
- Columns that the projection copies unchanged are grouped into one.
- The columns of a merge that are not served: first and last snapshots of a phone, and the source of an email.
- SQLite itself, FTS5 tokenizing, WAL, attach and detach, temp tables and timing statistics.
- Parsing of v1 JSON, of CSV files and of configuration; normalization of names, emails and addresses.
- The ingest's failure paths after a worker error, and snapshot status rows. Only the row cap is modelled.
- Promotion of builds, upload slots, web routes, the realtime client, the web UI and code generation.
- The quality of the sampling generator: uniformity is proved over all draws, not over the words that one seed gives.
- Session and installation ownership checks of the server, content types, and idle timeouts: the sweep may interrupt any open recording.
