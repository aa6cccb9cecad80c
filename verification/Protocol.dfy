/**
 * The recording and upload protocol as a state machine: offscreen recorders, the
 * worker's orphan sweeps and its outbox pass, one database, and a lossy network.
 * A step is one transaction, one lock operation or one message. Every choice of
 * the environment is an argument of the step, and a step that is not possible in
 * a state changes nothing, so a run is any sequence of steps.
 */
module Protocol {
  import opened Domain
  import opened Store
  import opened Delivery

  /** The module state of one offscreen document, from taking the lock until it is gone. */
  datatype Recorder = Recorder(
    callId: Id,
    recording: Option<Id>,
    nextSeq: nat,
    pending: seq<(Blob, Time)>,
    writeFailed: bool,
    stopRequested: bool,
    stopped: bool,
    finished: bool)

  datatype Holder = HeldByRecorder(recorder: nat) | HeldBySweep(sweep: nat)

  /** Where the outbox is with the row `rows[next]`. */
  datatype Phase =
    | Scanning
    | Attempting(row: QueueRow)
    | Awaiting(row: QueueRow, request: Request)
    | Settling(row: QueueRow, outcome: Outcome)

  datatype Worker =
    | Idle
    | Passing(force: bool, rows: Listing, next: nat, held: set<Lane>, refreshed: bool, phase: Phase)

  /**
   * `stored` and `enqueued` are history: every chunk ever stored and every job ever
   * queued. `requeued` says that the agent has asked for the dead letters.
   */
  datatype World = World(
    db: Db,
    locks: map<Id, Holder>,
    recorders: map<nat, Recorder>,
    sweeps: map<nat, Id>,
    worker: Worker,
    sent: set<Request>,
    minted: map<Id, Id>,
    segments: map<ChunkKey, Blob>,
    accepted: seq<Request>,
    stored: map<ChunkKey, Blob>,
    enqueued: map<int, Job>,
    requeued: bool)

  const INITIAL := World(EMPTY_DB, map[], map[], map[], Idle, {}, map[], map[], [], map[], map[], false)

  datatype Step =
    | QueueEvent(id: Id, kind: string, payload: string, now: Time)
    | PutCall(callId: Id, call: CallRow)
    | RetryDead(now: Time)
    | TakeLock(recorder: nat, callId: Id)
    | Begin(recorder: nat, id: Id, now: Time)
    | DataArrives(recorder: nat, blob: Blob, startedAt: Time)
    | StoreNext(recorder: nat, ok: bool, now: Time)
    | AskStop(recorder: nat)
    | Interrupt(recorder: nat)
    | StreamStops(recorder: nat)
    | Finish(recorder: nat, ok: bool, now: Time)
    | Leave(recorder: nat)
    | SweepTake(sweep: nat, r: Id)
    | SweepFinish(sweep: nat, now: Time)
    | WorkerDies
    | StartPass(force: bool)
    | Scan(now: Time)
    | Deliver
    | Mint(callId: Id, remoteId: Id)
    | Keep(request: Request)
    | AcceptEvent(request: Request)
    | Answer(reply: Reply, tokensRotated: bool, t: Ticks)
    | SettleRow(t: Ticks)

  // ----- building blocks -----

  function Jobs(queue: map<int, QueueRow>): map<int, Job> {
    map s | s in queue :: queue[s].job
  }

  /** A transaction takes effect; the history remembers what it queued. */
  function Commit(w: World, db: Db): World {
    w.(db := db, enqueued := w.enqueued + Jobs(db.queue))
  }

  function SetRecorder(w: World, p: nat, recorder: Recorder): World {
    w.(recorders := w.recorders[p := recorder])
  }

  /** The browser frees the lock of a document that is done or dead. */
  function RecorderGone(w: World, p: nat): World {
    if p !in w.recorders then w else
      w.(recorders := w.recorders - {p}, locks := w.locks - {w.recorders[p].callId})
  }

  /** The server holds segments 0..n-1 of `remoteId`, and they add up. */
  function SizeBelow(segments: map<ChunkKey, Blob>, remoteId: Id, n: nat): nat {
    if n == 0 then 0 else
      SizeBelow(segments, remoteId, n - 1) + if (remoteId, n - 1) in segments then |segments[(remoteId, n - 1)]| else 0
  }

  predicate Holds(segments: map<ChunkKey, Blob>, remoteId: Id, totals: Totals) {
    && (forall i: nat :: i < totals.segments ==> (remoteId, i) in segments)
    && SizeBelow(segments, remoteId, totals.segments) == totals.bytes
  }

  predicate IsAccepted(w: World, id: Id) {
    exists i :: 0 <= i < |w.accepted| && w.accepted[i].PostEvent? && w.accepted[i].id == id
  }

  /** What the receiver contract promises about a 2xx. A segment's promises nothing. */
  predicate Truthful(w: World, request: Request, reply: Reply) {
    reply.Ok? ==>
      match request
      case PostEvent(id, _, _, _, _) => IsAccepted(w, id)
      case PostRecording(callId) =>
        reply.body.Created? ==> callId in w.minted && w.minted[callId] == reply.body.recordingId
      case PutSegment(_, _, _, _) => true
      case PostClose(remoteId, _, _) =>
        reply.body.Completed? ==> Holds(w.segments, remoteId, reply.body.totals)
  }

  // ----- the other transactions -----

  function QueueEventStep(w: World, id: Id, kind: string, payload: string, now: Time): World {
    Commit(w, Enqueue(w.db, Event(id, kind, payload), None, now))
  }

  function PutCallStep(w: World, callId: Id, call: CallRow): World {
    Commit(w, w.db.(calls := w.db.calls[callId := call]))
  }

  function RetryDeadStep(w: World, now: Time): World {
    Commit(w, RequeueDeadLetters(w.db, now)).(requeued := true)
  }

  // ----- the recorder -----

  function TakeLockStep(w: World, p: nat, callId: Id): World {
    if p in w.recorders || callId in w.locks then w else
      SetRecorder(w, p, Recorder(callId, None, 0, [], false, false, false, false))
        .(locks := w.locks[callId := HeldByRecorder(p)])
  }

  /** A recorder that may not begin gives its lock back. */
  function BeginStep(w: World, p: nat, id: Id, now: Time): World {
    if p !in w.recorders || w.recorders[p].recording.Some? || id in w.db.recordings then w else
      match BeginRecording(w.db, w.recorders[p].callId, id, now)
      case None => RecorderGone(w, p)
      case Some(db) => SetRecorder(Commit(w, db), p, w.recorders[p].(recording := Some(id)))
  }

  predicate Begun(w: World, p: nat) {
    p in w.recorders && w.recorders[p].recording.Some?
  }

  function DataArrivesStep(w: World, p: nat, blob: Blob, startedAt: Time): World {
    if !Begun(w, p) || w.recorders[p].stopped || blob == [] then w else
      SetRecorder(w, p, w.recorders[p].(pending := w.recorders[p].pending + [(blob, startedAt)]))
  }

  /** The number is taken only after a successful write; after a failed one nothing is stored. */
  function Written(rec: Recorder, ok: bool): Recorder
    requires rec.pending != []
  {
    var popped := rec.(pending := rec.pending[1..]);
    if rec.writeFailed then popped
    else if ok then popped.(nextSeq := rec.nextSeq + 1)
    else popped.(writeFailed := true, stopRequested := false)
  }

  function StoreNextStep(w: World, p: nat, ok: bool, now: Time): World {
    if !Begun(w, p) || w.recorders[p].pending == [] then w else
      var rec := w.recorders[p];
      var r, (blob, startedAt) := rec.recording.value, rec.pending[0];
      if rec.writeFailed || !ok then SetRecorder(w, p, Written(rec, ok))
      else
        SetRecorder(
          Commit(w, Store.StoreChunk(w.db, r, rec.nextSeq, blob, startedAt, now))
            .(stored := w.stored[(r, rec.nextSeq) := blob]),
          p, Written(rec, ok))
  }

  function StopStep(w: World, p: nat, requested: bool): World {
    if p !in w.recorders then w else SetRecorder(w, p, w.recorders[p].(stopRequested := requested))
  }

  function StreamStopsStep(w: World, p: nat): World {
    if !Begun(w, p) then w else SetRecorder(w, p, w.recorders[p].(stopped := true))
  }

  predicate Drained(w: World, p: nat) {
    Begun(w, p) && w.recorders[p].stopped && w.recorders[p].pending == [] && !w.recorders[p].finished
  }

  /** The close waits for every write; it may fail, and the lock is given back all the same. */
  function FinishStep(w: World, p: nat, ok: bool, now: Time): World {
    if !Drained(w, p) then w else
      var rec := w.recorders[p];
      SetRecorder(
        if ok then Commit(w, FinishRecording(w.db, rec.recording.value, !rec.stopRequested, now)) else w,
        p, rec.(finished := true))
  }

  // ----- the orphan sweep -----

  /** The sweep read its list earlier, so the row may be in any status by now. */
  function SweepTakeStep(w: World, k: nat, r: Id): World {
    if k in w.sweeps || r !in w.db.recordings || w.db.recordings[r].callId in w.locks then w else
      w.(sweeps := w.sweeps[k := r], locks := w.locks[w.db.recordings[r].callId := HeldBySweep(k)])
  }

  function SweepFinishStep(w: World, k: nat, now: Time): World {
    if k !in w.sweeps || w.sweeps[k] !in w.db.recordings then w else
      Commit(w, FinishRecording(w.db, w.sweeps[k], true, now))
        .(sweeps := w.sweeps - {k}, locks := w.locks - {w.db.recordings[w.sweeps[k]].callId})
  }

  function WorkerDiesStep(w: World): World {
    w.(worker := Idle, sweeps := map[],
       locks := map c | c in w.locks && w.locks[c].HeldByRecorder? :: w.locks[c])
  }

  // ----- the outbox -----

  function StartPassStep(w: World, force: bool): World {
    if !w.worker.Idle? then w else
      w.(worker := Passing(force, Listed(w.db.queue), 0, {}, false, Scanning))
  }

  predicate InPhase(worker: Worker) {
    worker.Passing? && worker.next < |worker.rows| && !worker.phase.Scanning?
  }

  function Entered(worker: Worker, phase: Phase): Worker
    requires worker.Passing?
  {
    worker.(phase := phase)
  }

  /** On to the next row, with the lane held if it has to be. */
  function Advanced(worker: Worker, hold: bool, lane: Lane): Worker
    requires worker.Passing?
  {
    worker.(next := worker.next + 1, held := if hold then worker.held + {lane} else worker.held, phase := Scanning)
  }

  function Enter(w: World, phase: Phase): World
    requires w.worker.Passing?
  {
    w.(worker := Entered(w.worker, phase))
  }

  function Advance(w: World, hold: bool, lane: Lane): World
    requires w.worker.Passing?
  {
    w.(worker := Advanced(w.worker, hold, lane))
  }

  /** The head of the loop: pass the row by, hold its lane, or read it again and attempt it. */
  function Scanned(queue: map<int, QueueRow>, worker: Worker, now: Time): Worker
    requires worker.Passing?
  {
    if worker.next >= |worker.rows| then Idle
    else
      var (s, queued) := worker.rows[worker.next];
      match Choose(queue, worker.held, worker.force, s, queued, now)
      case Skip => Advanced(worker, false, LaneOf(queued.job))
      case HoldLane => Advanced(worker, true, LaneOf(queued.job))
      case Pick => Entered(worker, Attempting(queue[s]))
  }

  function ScanStep(w: World, now: Time): World {
    if !w.worker.Passing? || !w.worker.phase.Scanning? then w
    else w.(worker := Scanned(w.db.queue, w.worker, now))
  }

  function Transmit(w: World, row: QueueRow, request: Request): World
    requires w.worker.Passing?
  {
    w.(worker := Entered(w.worker, Awaiting(row, request)), sent := w.sent + {request})
  }

  function DeliverStep(w: World): World {
    if !InPhase(w.worker) || !w.worker.phase.Attempting? then w else
      var s, row := w.worker.rows[w.worker.next].0, w.worker.phase.row;
      match PlanOf(w.db, s, row)
      case Drop => Enter(Commit(w, DropRow(w.db, s)), Settling(row, Done))
      case Wait => Enter(w, Settling(row, Waiting))
      case Send(request) => Transmit(w, row, request)
  }

  predicate Answerable(w: World, reply: Reply) {
    && InPhase(w.worker) && w.worker.phase.Awaiting?
    && (w.worker.phase.row.job.Close? ==> w.worker.phase.request.PostClose?)
    && Truthful(w, w.worker.phase.request, reply)
  }

  /** The first 401 of a pass rotates the tokens and sends the row again, or ends the pass. */
  function UnauthorizedStep(w: World, tokensRotated: bool): World
    requires InPhase(w.worker)
  {
    if w.worker.refreshed then Enter(w, Settling(w.worker.phase.row, Retry(STILL_UNAUTHORIZED)))
    else if tokensRotated then w.(worker := w.worker.(refreshed := true, phase := Attempting(w.worker.phase.row)))
    else w.(worker := Idle)
  }

  function AnswerStep(w: World, reply: Reply, tokensRotated: bool, t: Ticks): World {
    if !Answerable(w, reply) then w
    else if reply.Unauthorized? then UnauthorizedStep(w, tokensRotated)
    else
      var row := w.worker.phase.row;
      var (db, outcome) := Receive(w.db, w.worker.rows[w.worker.next].0, row, w.worker.phase.request, reply, t);
      Enter(Commit(w, db), Settling(row, outcome))
  }

  function SettleStep(w: World, t: Ticks): World {
    if !InPhase(w.worker) || !w.worker.phase.Settling? then w else
      var (db, hold) := Settle(w.db, w.worker.rows[w.worker.next].0, w.worker.phase.outcome, t);
      Advance(Commit(w, db), hold, LaneOf(w.worker.phase.row.job))
  }

  // ----- the server -----

  /** One recording per call: a repeated create finds the id that was minted first. */
  function MintStep(w: World, callId: Id, remoteId: Id): World {
    if PostRecording(callId) !in w.sent || callId in w.minted || remoteId in w.minted.Values then w else
      w.(minted := w.minted[callId := remoteId])
  }

  /** Any upload ever sent may arrive, late or twice; the first bytes of a segment stay. */
  function KeepStep(w: World, request: Request): World {
    if !request.PutSegment? || request !in w.sent || (request.remoteId, request.seqNo) in w.segments then w else
      w.(segments := w.segments[(request.remoteId, request.seqNo) := request.blob])
  }

  /** Any event ever sent may arrive, late or twice, whether or not its reply gets through; each id is taken once. */
  function AcceptEventStep(w: World, request: Request): World {
    if !request.PostEvent? || request !in w.sent || IsAccepted(w, request.id) then w
    else w.(accepted := w.accepted + [request])
  }

  // ----- one step, and runs -----

  function Next(w: World, step: Step): World {
    match step
    case QueueEvent(id, kind, payload, now) => QueueEventStep(w, id, kind, payload, now)
    case PutCall(callId, call) => PutCallStep(w, callId, call)
    case RetryDead(now) => RetryDeadStep(w, now)
    case TakeLock(p, callId) => TakeLockStep(w, p, callId)
    case Begin(p, id, now) => BeginStep(w, p, id, now)
    case DataArrives(p, blob, startedAt) => DataArrivesStep(w, p, blob, startedAt)
    case StoreNext(p, ok, now) => StoreNextStep(w, p, ok, now)
    case AskStop(p) => StopStep(w, p, true)
    case Interrupt(p) => StopStep(w, p, false)
    case StreamStops(p) => StreamStopsStep(w, p)
    case Finish(p, ok, now) => FinishStep(w, p, ok, now)
    case Leave(p) => RecorderGone(w, p)
    case SweepTake(k, r) => SweepTakeStep(w, k, r)
    case SweepFinish(k, now) => SweepFinishStep(w, k, now)
    case WorkerDies => WorkerDiesStep(w)
    case StartPass(force) => StartPassStep(w, force)
    case Scan(now) => ScanStep(w, now)
    case Deliver => DeliverStep(w)
    case Answer(reply, tokensRotated, t) => AnswerStep(w, reply, tokensRotated, t)
    case SettleRow(t) => SettleStep(w, t)
    case Mint(callId, remoteId) => MintStep(w, callId, remoteId)
    case Keep(request) => KeepStep(w, request)
    case AcceptEvent(request) => AcceptEventStep(w, request)
  }

  function Run(w: World, steps: seq<Step>): World
    decreases |steps|
  {
    if steps == [] then w else Run(Next(w, steps[0]), steps[1..])
  }
}
