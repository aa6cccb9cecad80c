/** Who holds the locks in every reachable world, and what can therefore always be done. */
module Locks {
  import opened Domain
  import opened Store
  import opened Protocol
  import opened ProtocolTheorems
  import Correspondence
  import opened Delivery
  import Safety
  import SentTruth
  import Refinement

  /** A recorder of the call, or a sweep of its recording, is there. */
  predicate HolderLives(w: World, c: Id)
    requires c in w.locks
  {
    match w.locks[c]
    case HeldByRecorder(p) => p in w.recorders && w.recorders[p].callId == c
    case HeldBySweep(k) => k in w.sweeps && w.sweeps[k] in w.db.recordings && w.db.recordings[w.sweeps[k]].callId == c
  }

  ghost predicate AllHeld(w: World) {
    forall c :: c in w.locks ==> HolderLives(w, c)
  }

  // ----- steps that change no holder -----

  ghost predicate SameHolders(w: World, v: World) {
    && v.locks == w.locks && v.sweeps == w.sweeps
    && (forall p :: p in w.recorders ==> p in v.recorders && v.recorders[p].callId == w.recorders[p].callId)
  }

  ghost predicate CallsKept(w: World, v: World) {
    forall r :: r in w.db.recordings ==> r in v.db.recordings && v.db.recordings[r].callId == w.db.recordings[r].callId
  }

  lemma HoldersStay(w: World, v: World)
    requires AllHeld(w) && SameHolders(w, v) && CallsKept(w, v)
    ensures AllHeld(v)
  {
  }

  lemma StepKeepsCalls(w: World, step: Step)
    requires Safety.Inv(w)
    ensures CallsKept(w, Next(w, step))
  {
    hide Next, Safety.Inv;
    if step.Deliver? {
      DeliverKeepsCalls(w);
    } else {
      SentTruth.NextStepped(w, step);
      RecordingsHaveCalls(w.db, Next(w, step).db);
    }
  }

  lemma DeliverKeepsCalls(w: World)
    ensures Next(w, Deliver).db.recordings == w.db.recordings
  {
    hide QueueEventStep, PutCallStep, RetryDeadStep, TakeLockStep, BeginStep, DataArrivesStep, StoreNextStep, StopStep,
      StreamStopsStep, FinishStep, RecorderGone, SweepTakeStep, SweepFinishStep, WorkerDiesStep, StartPassStep, ScanStep,
      DeliverStep, AnswerStep, SettleStep, MintStep, KeepStep, AcceptEventStep;
    DeliverKeepsHolders(w);
  }

  lemma RecordingsHaveCalls(a: Db, b: Db)
    requires SentTruth.Kept(a, b)
    ensures forall r :: r in a.recordings ==> r in b.recordings && b.recordings[r].callId == a.recordings[r].callId
  {
    hide SentTruth.RowsKept, SentTruth.NewClosesTrue, SentTruth.ChunksKept;
    forall r | r in a.recordings ensures r in b.recordings && b.recordings[r].callId == a.recordings[r].callId {
      assert SentTruth.RecordingKept(a, b, r);
    }
  }

  /** Everything but the recorders, the sweeps and their locks. */
  lemma OthersKeepHolders(w: World, v: World)
    requires v.locks == w.locks && v.sweeps == w.sweeps && v.recorders == w.recorders
    ensures SameHolders(w, v)
  {
  }

  lemma RecorderKeepsHolders(w: World, p: nat, recorder: Recorder)
    requires p in w.recorders && recorder.callId == w.recorders[p].callId
    ensures SameHolders(w, SetRecorder(w, p, recorder))
  {
  }

  lemma StoredKeepsHolders(w: World, db: Db, stored: map<ChunkKey, Blob>, p: nat, recorder: Recorder)
    requires p in w.recorders && recorder.callId == w.recorders[p].callId
    ensures SameHolders(w, SetRecorder(Commit(w, db).(stored := stored), p, recorder))
    ensures SameHolders(w, SetRecorder(Commit(w, db), p, recorder))
  {
    hide Jobs;
  }

  lemma DataKeepsHolders(w: World, p: nat, blob: Blob, startedAt: Time)
    ensures SameHolders(w, DataArrivesStep(w, p, blob, startedAt))
  {
    hide SetRecorder, SameHolders;
    if Begun(w, p) && !w.recorders[p].stopped && blob != [] {
      RecorderKeepsHolders(w, p, w.recorders[p].(pending := w.recorders[p].pending + [(blob, startedAt)]));
    } else {
      OthersKeepHolders(w, w);
    }
  }

  lemma StoreKeepsHolders(w: World, p: nat, ok: bool, now: Time)
    ensures SameHolders(w, StoreNextStep(w, p, ok, now))
  {
    hide SetRecorder, SameHolders, Commit, Store.StoreChunk, Written;
    if Begun(w, p) && w.recorders[p].pending != [] {
      var rec := w.recorders[p];
      var r := rec.recording.value;
      var (blob, startedAt) := rec.pending[0];
      WrittenKeepsCall(rec, ok);
      if rec.writeFailed || !ok {
        RecorderKeepsHolders(w, p, Written(rec, ok));
      } else {
        StoredKeepsHolders(w, Store.StoreChunk(w.db, r, rec.nextSeq, blob, startedAt, now),
                           w.stored[(r, rec.nextSeq) := blob], p, Written(rec, ok));
      }
    } else {
      OthersKeepHolders(w, w);
    }
  }

  lemma WrittenKeepsCall(rec: Recorder, ok: bool)
    requires rec.pending != []
    ensures Written(rec, ok).callId == rec.callId
  {
  }

  lemma StopKeepsHolders(w: World, p: nat, requested: bool)
    ensures SameHolders(w, StopStep(w, p, requested)) && SameHolders(w, StreamStopsStep(w, p))
  {
    hide SetRecorder, SameHolders;
    OthersKeepHolders(w, w);
    if p in w.recorders {
      RecorderKeepsHolders(w, p, w.recorders[p].(stopRequested := requested));
      RecorderKeepsHolders(w, p, w.recorders[p].(stopped := true));
    }
  }

  lemma FinishKeepsHolders(w: World, p: nat, ok: bool, now: Time)
    ensures SameHolders(w, FinishStep(w, p, ok, now))
  {
    hide SetRecorder, SameHolders, Commit, FinishRecording;
    if Drained(w, p) {
      var rec := w.recorders[p];
      RecorderKeepsHolders(w, p, rec.(finished := true));
      StoredKeepsHolders(w, FinishRecording(w.db, rec.recording.value, !rec.stopRequested, now), w.stored, p, rec.(finished := true));
    } else {
      OthersKeepHolders(w, w);
    }
  }

  lemma QueueKeepsHolders(w: World, db: Db)
    ensures SameHolders(w, Commit(w, db)) && SameHolders(w, Commit(w, db).(requeued := true))
  {
    hide Jobs;
  }

  lemma PassKeepsHolders(w: World, force: bool, now: Time)
    ensures SameHolders(w, StartPassStep(w, force)) && SameHolders(w, ScanStep(w, now))
  {
    hide Listed, Scanned, SameHolders;
    var started, scanned := StartPassStep(w, force), ScanStep(w, now);
    assert started == w.(worker := started.worker);
    assert scanned == w.(worker := scanned.worker);
    WorkerKeepsHolders(w, started.worker);
    WorkerKeepsHolders(w, scanned.worker);
  }

  lemma EnterKeepsHolders(w: World, db: Db, phase: Phase)
    requires w.worker.Passing?
    ensures SameHolders(w, Enter(Commit(w, db), phase)) && SameHolders(w, Enter(w, phase))
    ensures Enter(Commit(w, db), phase).db == db && Enter(w, phase).db == w.db
  {
    hide Jobs, Entered;
  }

  lemma TransmitKeepsHolders(w: World, row: QueueRow, request: Request)
    requires w.worker.Passing?
    ensures SameHolders(w, Transmit(w, row, request)) && Transmit(w, row, request).db == w.db
  {
    hide Entered;
  }

  lemma DeliverKeepsHolders(w: World)
    ensures SameHolders(w, DeliverStep(w)) && DeliverStep(w).db.recordings == w.db.recordings
  {
    hide PlanOf, Enter, Transmit, Commit, SameHolders;
    if InPhase(w.worker) && w.worker.phase.Attempting? {
      var s, row := w.worker.rows[w.worker.next].0, w.worker.phase.row;
      match PlanOf(w.db, s, row)
      case Drop => EnterKeepsHolders(w, DropRow(w.db, s), Settling(row, Done));
      case Wait => EnterKeepsHolders(w, w.db, Settling(row, Waiting));
      case Send(request) => TransmitKeepsHolders(w, row, request);
    } else {
      OthersKeepHolders(w, w);
    }
  }

  lemma UnauthorizedKeepsHolders(w: World, rotated: bool)
    requires InPhase(w.worker)
    ensures SameHolders(w, UnauthorizedStep(w, rotated))
  {
    hide Entered, SameHolders;
    var v := UnauthorizedStep(w, rotated);
    assert v == w.(worker := v.worker);
    WorkerKeepsHolders(w, v.worker);
  }

  lemma WorkerKeepsHolders(w: World, worker: Worker)
    ensures SameHolders(w, w.(worker := worker))
  {
  }

  lemma AnswerKeepsHolders(w: World, reply: Reply, rotated: bool, t: Ticks)
    ensures SameHolders(w, AnswerStep(w, reply, rotated, t))
  {
    hide Receive, Enter, Commit, SameHolders, Truthful, UnauthorizedStep;
    if !Answerable(w, reply) {
      OthersKeepHolders(w, w);
    } else if reply.Unauthorized? {
      UnauthorizedKeepsHolders(w, rotated);
    } else {
      var row := w.worker.phase.row;
      var (db, outcome) := Receive(w.db, w.worker.rows[w.worker.next].0, row, w.worker.phase.request, reply, t);
      EnterKeepsHolders(w, db, Settling(row, outcome));
    }
  }

  lemma SettleKeepsHolders(w: World, t: Ticks)
    ensures SameHolders(w, SettleStep(w, t))
  {
    hide Settle, Commit, Advanced, SameHolders;
    if InPhase(w.worker) && w.worker.phase.Settling? {
      var (db, hold) := Settle(w.db, w.worker.rows[w.worker.next].0, w.worker.phase.outcome, t);
      AdvanceKeepsHolders(w, db, hold, LaneOf(w.worker.phase.row.job));
    } else {
      OthersKeepHolders(w, w);
    }
  }

  lemma AdvanceKeepsHolders(w: World, db: Db, hold: bool, lane: Lane)
    requires w.worker.Passing?
    ensures SameHolders(w, Advance(Commit(w, db), hold, lane))
  {
    hide Jobs, Advanced;
  }

  lemma ServerKeepsHolders(w: World, callId: Id, remoteId: Id, request: Request)
    ensures SameHolders(w, MintStep(w, callId, remoteId)) && SameHolders(w, KeepStep(w, request))
    ensures SameHolders(w, AcceptEventStep(w, request))
  {
    hide IsAccepted;
  }

  // ----- steps that take or give back a lock -----

  lemma TakeKeepsHeld(w: World, p: nat, callId: Id)
    requires AllHeld(w)
    ensures AllHeld(TakeLockStep(w, p, callId))
  {
  }

  lemma GoneKeepsHeld(w: World, p: nat)
    requires AllHeld(w)
    ensures AllHeld(RecorderGone(w, p))
  {
  }

  lemma BeginKeepsHeld(w: World, p: nat, id: Id, now: Time)
    requires AllHeld(w)
    ensures AllHeld(BeginStep(w, p, id, now))
  {
    hide RecorderGone, Jobs, RecordingBlocked, AllHeld;
    var v := BeginStep(w, p, id, now);
    GoneKeepsHeld(w, p);
    if p in w.recorders && w.recorders[p].recording.None? && id !in w.db.recordings
       && BeginRecording(w.db, w.recorders[p].callId, id, now).Some? {
      HoldersStay(w, v);
    }
  }

  lemma SweepTakeKeepsHeld(w: World, k: nat, r: Id)
    requires AllHeld(w)
    ensures AllHeld(SweepTakeStep(w, k, r))
  {
  }

  lemma SweepFinishKeepsHeld(w: World, k: nat, now: Time)
    requires AllHeld(w)
    ensures AllHeld(SweepFinishStep(w, k, now))
  {
    hide Jobs, Enqueue;
    var v := SweepFinishStep(w, k, now);
    if k in w.sweeps && w.sweeps[k] in w.db.recordings {
      FinishKeepsCalls(w.db, w.sweeps[k], now);
      forall c | c in v.locks ensures HolderLives(v, c) { assert HolderLives(w, c); }
    }
  }

  lemma FinishKeepsCalls(db: Db, r: Id, now: Time)
    ensures
      var after := FinishRecording(db, r, true, now);
      forall q :: q in db.recordings ==> q in after.recordings && after.recordings[q].callId == db.recordings[q].callId
  {
    hide Enqueue;
    FinishMeans(db, r, true, now);
  }

  lemma DyingKeepsHeld(w: World)
    requires AllHeld(w)
    ensures AllHeld(WorkerDiesStep(w))
  {
  }

  lemma StepKeepsHolders(w: World, step: Step)
    requires !step.TakeLock? && !step.Begin? && !step.Leave? && !step.SweepTake? && !step.SweepFinish? && !step.WorkerDies?
    ensures SameHolders(w, Next(w, step))
  {
    hide SameHolders, Commit, TakeLockStep, BeginStep, DataArrivesStep, StoreNextStep, StopStep, StreamStopsStep, FinishStep,
      RecorderGone, SweepTakeStep, SweepFinishStep, WorkerDiesStep, StartPassStep, ScanStep, DeliverStep, AnswerStep,
      SettleStep, MintStep, KeepStep, AcceptEventStep, Enqueue, RequeueDeadLetters;
    match step
    case QueueEvent(id, kind, payload, now) => QueueKeepsHolders(w, Enqueue(w.db, Event(id, kind, payload), None, now));
    case PutCall(callId, call) => QueueKeepsHolders(w, w.db.(calls := w.db.calls[callId := call]));
    case RetryDead(now) => QueueKeepsHolders(w, RequeueDeadLetters(w.db, now));
    case DataArrives(p, blob, startedAt) => DataKeepsHolders(w, p, blob, startedAt);
    case StoreNext(p, ok, now) => StoreKeepsHolders(w, p, ok, now);
    case AskStop(p) => StopKeepsHolders(w, p, true);
    case Interrupt(p) => StopKeepsHolders(w, p, false);
    case StreamStops(p) => StopKeepsHolders(w, p, true);
    case Finish(p, ok, now) => FinishKeepsHolders(w, p, ok, now);
    case StartPass(force) => PassKeepsHolders(w, force, 0.0);
    case Scan(now) => PassKeepsHolders(w, true, now);
    case Deliver => DeliverKeepsHolders(w);
    case Answer(reply, rotated, t) => AnswerKeepsHolders(w, reply, rotated, t);
    case SettleRow(t) => SettleKeepsHolders(w, t);
    case Mint(callId, remoteId) => ServerKeepsHolders(w, callId, remoteId, PostRecording(callId));
    case Keep(request) => ServerKeepsHolders(w, "", "", request);
    case AcceptEvent(request) => ServerKeepsHolders(w, "", "", request);
  }

  lemma StepKeepsHeld(w: World, step: Step)
    requires Safety.Inv(w) && AllHeld(w)
    ensures AllHeld(Next(w, step))
  {
    StepKeepsCalls(w, step);
    hide Safety.Inv, AllHeld, SameHolders, CallsKept, QueueEventStep, PutCallStep, RetryDeadStep, TakeLockStep, BeginStep,
      DataArrivesStep, StoreNextStep, StopStep, StreamStopsStep, FinishStep, RecorderGone, SweepTakeStep, SweepFinishStep,
      WorkerDiesStep, StartPassStep, ScanStep, DeliverStep, AnswerStep, SettleStep, MintStep, KeepStep, AcceptEventStep;
    match step
    case TakeLock(p, callId) => TakeKeepsHeld(w, p, callId);
    case Begin(p, id, now) => BeginKeepsHeld(w, p, id, now);
    case Leave(p) => GoneKeepsHeld(w, p);
    case SweepTake(k, r) => SweepTakeKeepsHeld(w, k, r);
    case SweepFinish(k, now) => SweepFinishKeepsHeld(w, k, now);
    case WorkerDies => DyingKeepsHeld(w);
    case _ =>
      StepKeepsHolders(w, step);
      HoldersStay(w, Next(w, step));
  }

  lemma {:induction false} RunKeepsHeld(w: World, steps: seq<Step>)
    requires Safety.Inv(w) && AllHeld(w)
    ensures AllHeld(Run(w, steps))
    decreases |steps|
  {
    hide Safety.Inv, AllHeld, Next;
    if steps != [] {
      StepKeepsHeld(w, steps[0]);
      Safety.InvKept(w, steps[0]);
      RunKeepsHeld(Next(w, steps[0]), steps[1..]);
    }
  }

  // ----- what it means -----

  /** In every reachable world a lock is held exactly while a recorder of its call or a sweep of its recording is there. */
  lemma LockedExactlyWhen(w: World, c: Id)
    requires Reachable(w)
    ensures c in w.locks
            <==> || (exists p :: p in w.recorders && w.recorders[p].callId == c)
                 || (exists k :: k in w.sweeps && w.sweeps[k] in w.db.recordings && w.db.recordings[w.sweeps[k]].callId == c)
  {
    ReachableIsHeld(w);
    hide Safety.Inv, Safety.PassInv, Correspondence.Matches;
    SoundLocks(w);
    if c in w.locks { assert HolderLives(w, c); }
  }

  lemma ReachableIsHeld(w: World)
    requires Reachable(w)
    ensures AllHeld(w)
  {
    hide Safety.Inv, Run;
    InitialSound();
    var steps :| w == Run(INITIAL, steps);
    RunKeepsHeld(INITIAL, steps);
  }

  lemma SoundLocks(w: World)
    requires Reachable(w)
    ensures Safety.LocksSound(w)
  {
    hide Reachable, Safety.LocksSound, Safety.PassInv, Correspondence.Matches;
    ReachableIsSound(w);
  }

  /** No call has two holders: neither two recorders, nor a recorder and a sweep, nor two sweeps. */
  lemma OneHolder(w: World)
    requires Reachable(w)
    ensures forall p, q :: p in w.recorders && q in w.recorders && w.recorders[p].callId == w.recorders[q].callId ==> p == q
    ensures forall j, k :: j in w.sweeps && k in w.sweeps && w.sweeps[j] == w.sweeps[k] ==> j == k
    ensures forall p, k :: p in w.recorders && k in w.sweeps ==>
              w.sweeps[k] in w.db.recordings && w.db.recordings[w.sweeps[k]].callId != w.recorders[p].callId
  {
    hide Reachable;
    SoundLocks(w);
  }

  // ----- what can be done -----

  /** A call that is dialing or active, has no recording and no recorder, can be recorded. */
  lemma ARecordingCanBegin(w: World, p: nat, callId: Id, id: Id, now: Time)
    requires Reachable(w) && p !in w.recorders && id !in w.db.recordings
    requires callId in w.db.calls && (w.db.calls[callId].phase == Dialing || w.db.calls[callId].phase == Active)
    requires forall r :: r in w.db.recordings ==> w.db.recordings[r].callId != callId
    requires forall q :: q in w.recorders ==> w.recorders[q].callId != callId
    ensures
      var v := Run(w, [TakeLock(p, callId), Begin(p, id, now)]);
      && p in v.recorders && v.recorders[p] == Recorder(callId, Some(id), 0, [], false, false, false, false)
      && id in v.db.recordings && v.db.recordings[id] == RecordingRow(callId, None, Recording, false)
      && (exists s :: s in v.db.queue && v.db.queue[s].job == CreateRecording(id))
      && callId in v.locks && v.locks[callId] == HeldByRecorder(p)
  {
    hide Reachable, Run, Next;
    LockedExactlyWhen(w, callId);
    SoundLocks(w);
    assert callId !in w.locks;
    var u := Next(w, TakeLock(p, callId));
    RunsTwo(w, TakeLock(p, callId), Begin(p, id, now));
    TakesLock(w, p, callId);
    Begins(u, p, id, now);
  }

  lemma RunsTwo(w: World, a: Step, b: Step)
    ensures Run(w, [a, b]) == Next(Next(w, a), b)
  {
    hide Next;
    Refinement.RunSplits(w, [a], [b]);
    Refinement.RunsOne(w, a);
    Refinement.RunsOne(Next(w, a), b);
    assert [a] + [b] == [a, b];
  }

  lemma TakesLock(w: World, p: nat, callId: Id)
    requires p !in w.recorders && callId !in w.locks
    ensures
      var v := Next(w, TakeLock(p, callId));
      && v.db == w.db && p in v.recorders && v.recorders[p] == Recorder(callId, None, 0, [], false, false, false, false)
      && callId in v.locks && v.locks[callId] == HeldByRecorder(p)
  {
  }

  lemma Begins(w: World, p: nat, id: Id, now: Time)
    requires p in w.recorders && w.recorders[p].recording.None? && id !in w.db.recordings
    requires BeginRecording(w.db, w.recorders[p].callId, id, now).Some?
    ensures
      var v := Next(w, Begin(p, id, now));
      && v.db == BeginRecording(w.db, w.recorders[p].callId, id, now).value && v.locks == w.locks
      && p in v.recorders && v.recorders[p] == w.recorders[p].(recording := Some(id))
      && w.db.nextSequence in v.db.queue && v.db.queue[w.db.nextSequence].job == CreateRecording(id)
      && id in v.db.recordings && v.db.recordings[id] == RecordingRow(w.recorders[p].callId, None, Recording, false)
  {
    hide Jobs, RecordingBlocked;
  }

  /** A recording left running by a recorder that is gone can be closed, as interrupted, by the next worker's sweep. */
  lemma AnOrphanCanBeClosed(w: World, k: nat, r: Id, now: Time)
    requires Reachable(w) && r in w.db.recordings && w.db.recordings[r].status == Recording
    requires forall p :: p in w.recorders ==> w.recorders[p].callId != w.db.recordings[r].callId
    ensures
      var v := Run(w, [WorkerDies] + [SweepTake(k, r), SweepFinish(k, now)]);
      && r in v.db.recordings && v.db.recordings[r].status == Closing && v.db.recordings[r].interrupted
      && (exists s :: s in v.db.queue && v.db.queue[s].job == Close(r, true))
      && w.db.recordings[r].callId !in v.locks
  {
    hide Reachable, Run, Next;
    var u := Next(w, WorkerDies);
    Refinement.RunSplits(w, [WorkerDies], [SweepTake(k, r), SweepFinish(k, now)]);
    Refinement.RunsOne(w, WorkerDies);
    RunsTwo(u, SweepTake(k, r), SweepFinish(k, now));
    SoundLocks(w);
    ReachableIsHeld(w);
    SweepsAreGone(w, w.db.recordings[r].callId);
    Sweeps(u, k, r, now);
  }

  lemma SweepsAreGone(w: World, c: Id)
    requires AllHeld(w) && forall p :: p in w.recorders ==> w.recorders[p].callId != c
    ensures Next(w, WorkerDies).db == w.db && Next(w, WorkerDies).sweeps == map[] && c !in Next(w, WorkerDies).locks
  {
    if c in w.locks { assert HolderLives(w, c); }
  }

  lemma Sweeps(w: World, k: nat, r: Id, now: Time)
    requires k !in w.sweeps && r in w.db.recordings && w.db.recordings[r].status == Recording
    requires w.db.recordings[r].callId !in w.locks
    ensures
      var v := Next(Next(w, SweepTake(k, r)), SweepFinish(k, now));
      && r in v.db.recordings && v.db.recordings[r].status == Closing && v.db.recordings[r].interrupted
      && w.db.nextSequence in v.db.queue && v.db.queue[w.db.nextSequence].job == Close(r, true)
      && w.db.recordings[r].callId !in v.locks
  {
    hide Jobs;
    var u := SweepTakeStep(w, k, r);
    assert u.db == w.db && k in u.sweeps && u.sweeps[k] == r;
    FinishMeans(w.db, r, true, now);
  }

  /** In every world an event can be queued, a call can be put, and the agent can bring a parked row back. */
  lemma TheAgentCanAct(w: World, id: Id, kind: string, payload: string, callId: Id, call: CallRow, s: int, now: Time)
    ensures
      var v := Next(w, QueueEvent(id, kind, payload, now));
      && w.db.nextSequence in v.db.queue && w.db.nextSequence in v.enqueued
      && v.db.queue[w.db.nextSequence] == QueueRow(Event(id, kind, payload), now, 0, now, None, None)
    ensures
      var v := Next(w, PutCall(callId, call));
      callId in v.db.calls && v.db.calls[callId] == call
    ensures s in w.db.queue && w.db.queue[s].deadAt.Some? ==>
      var v := Next(w, RetryDead(now));
      && s in v.db.queue && v.db.queue[s].Live() && v.db.queue[s].job == w.db.queue[s].job
      && v.db.queue[s].attempts == 0 && v.db.queue[s].nextAttemptAt == now
  {
    hide Next, RequeueDeadLetters;
    QueuesEvent(w, id, kind, payload, now);
    PutsCall(w, callId, call);
    RetriesDead(w, now);
    DeadLettersAreBack(w.db, now, s);
  }

  lemma PutsCall(w: World, callId: Id, call: CallRow)
    ensures callId in Next(w, PutCall(callId, call)).db.calls && Next(w, PutCall(callId, call)).db.calls[callId] == call
  {
    hide Jobs;
  }

  lemma RetriesDead(w: World, now: Time)
    ensures Next(w, RetryDead(now)).db == RequeueDeadLetters(w.db, now)
  {
    hide RequeueDeadLetters, Jobs;
  }

  lemma QueuesEvent(w: World, id: Id, kind: string, payload: string, now: Time)
    ensures
      var v := Next(w, QueueEvent(id, kind, payload, now));
      && w.db.nextSequence in v.db.queue && w.db.nextSequence in v.enqueued
      && v.db.queue[w.db.nextSequence] == QueueRow(Event(id, kind, payload), now, 0, now, None, None)
  {
    assert Next(w, QueueEvent(id, kind, payload, now)) == QueueEventStep(w, id, kind, payload, now);
    EnqueueMeans(w.db, Event(id, kind, payload), None, now);
  }
}
