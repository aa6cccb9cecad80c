/** What a request says is what was stored and queued, in every reachable world. */
module SentTruth {
  import opened Domain
  import opened Store
  import opened Delivery
  import opened Correspondence
  import opened Protocol
  import Safety
  import ProtocolTheorems
  import Refinement
  import EventOrder

  // ----- what no transaction changes -----

  /** An ended recording keeps its flag, and a closing one its audio. */
  ghost predicate RecordingKept(a: Db, b: Db, r: Id)
    requires r in a.recordings
  {
    && r in b.recordings && b.recordings[r].callId == a.recordings[r].callId
    && (a.recordings[r].remoteId.Some? ==> b.recordings[r].remoteId == a.recordings[r].remoteId)
    && (a.recordings[r].status != Recording ==>
          b.recordings[r].status != Recording && b.recordings[r].interrupted == a.recordings[r].interrupted)
    && (a.recordings[r].status == Closing && b.recordings[r].status == Closing ==>
          TotalsOf(b.chunks, r) == TotalsOf(a.chunks, r))
    && (b.recordings[r].status == Closing ==> a.recordings[r].status != Complete)
  }

  ghost predicate RecordingsKept(a: Db, b: Db) {
    forall r :: r in a.recordings ==> RecordingKept(a, b, r)
  }

  /** A queued row keeps its job and the time it was queued, and new rows have new numbers. */
  ghost predicate RowsKept(a: Db, b: Db) {
    && (forall s :: s in a.queue && s in b.queue ==>
          b.queue[s].job == a.queue[s].job && b.queue[s].createdAt == a.queue[s].createdAt)
    && (forall s :: s in b.queue && s !in a.queue ==> a.nextSequence <= s)
  }

  /** A new close says of its recording what the recording's row says. */
  ghost predicate NewClosesTrue(a: Db, b: Db) {
    forall s :: s in b.queue && s !in a.queue && b.queue[s].job.Close? ==>
      var job := b.queue[s].job;
      job.recording in b.recordings && b.recordings[job.recording].status == Closing
      && b.recordings[job.recording].interrupted == job.interrupted
  }

  ghost predicate ChunksKept(a: Db, b: Db) {
    forall k :: k in a.chunks && k in b.chunks ==> b.chunks[k].startedAt == a.chunks[k].startedAt
  }

  ghost predicate Kept(a: Db, b: Db) {
    RecordingsKept(a, b) && RowsKept(a, b) && NewClosesTrue(a, b) && ChunksKept(a, b)
  }

  lemma NothingKept(db: Db)
    ensures Kept(db, db)
  {
  }

  lemma EventKept(db: Db, id: Id, kind: string, payload: string, now: Time)
    requires Matches(db)
    ensures Kept(db, Enqueue(db, Event(id, kind, payload), None, now))
  {
    hide TotalsOf, RowMatches;
  }

  lemma DeadLettersKept(db: Db, now: Time)
    ensures Kept(db, RequeueDeadLetters(db, now))
  {
    hide TotalsOf;
  }

  lemma CallKept(db: Db, callId: Id, call: CallRow)
    ensures Kept(db, db.(calls := db.calls[callId := call]))
  {
    hide TotalsOf;
  }

  lemma BeginKept(db: Db, callId: Id, id: Id, now: Time)
    requires Matches(db) && id !in db.recordings && BeginRecording(db, callId, id, now).Some?
    ensures Kept(db, BeginRecording(db, callId, id, now).value)
  {
    hide TotalsOf, RowMatches, RecordingBlocked;
  }

  lemma StoreKept(db: Db, r: Id, i: nat, blob: Blob, startedAt: Time, now: Time)
    requires Matches(db) && r in db.recordings && db.recordings[r].status == Recording && (r, i) !in db.chunks
    ensures Kept(db, StoreChunk(db, r, i, blob, startedAt, now))
  {
    hide TotalsOf, RowMatches;
    var after := StoreChunk(db, r, i, blob, startedAt, now);
    forall q | q in db.recordings && q != r ensures TotalsOf(after.chunks, q) == TotalsOf(db.chunks, q) {
      TotalsLocal(db.chunks, after.chunks, q);
    }
  }

  lemma FinishKept(db: Db, r: Id, interrupted: bool, now: Time)
    requires Matches(db)
    ensures Kept(db, FinishRecording(db, r, interrupted, now))
  {
    hide TotalsOf, RowMatches;
  }

  lemma DropKept(db: Db, s: int)
    ensures Kept(db, DropRow(db, s))
  {
    hide TotalsOf;
  }

  lemma SettleKept(db: Db, s: int, outcome: Outcome, t: Ticks)
    ensures Kept(db, Settle(db, s, outcome, t).0)
  {
    hide TotalsOf, BackoffMs;
  }

  lemma RemoteIdKept(db: Db, s: int, r: Id, remoteId: Id)
    requires r in db.recordings ==> db.recordings[r].remoteId.None?
    ensures Kept(db, StoreRemoteId(db, s, r, remoteId))
  {
    hide TotalsOf;
  }

  lemma CompleteKept(db: Db, s: int, r: Id, totals: Totals)
    requires r in db.recordings ==> db.recordings[r].status == Closing
    ensures Kept(db, CompleteRecording(db, s, r, totals).0)
  {
    hide TotalsOf;
    var after := CompleteRecording(db, s, r, totals).0;
    forall q | q in db.recordings && q != r ensures TotalsOf(after.chunks, q) == TotalsOf(db.chunks, q) {
      TotalsLocal(db.chunks, after.chunks, q);
    }
  }

  lemma RequeueKept(db: Db, r: Id, missing: seq<nat>, due: Time, now: Time)
    requires forall s :: s in db.queue ==> s < db.nextSequence
    ensures Kept(db, EnqueueSegments(db, r, missing, due, now))
  {
    hide TotalsOf;
    Safety.EnqueueSegmentsGrows(db, r, missing, due, now);
  }

  lemma ReceiveKept(db: Db, s: int, row: QueueRow, request: Request, reply: Reply, t: Ticks)
    requires Matches(db) && s in db.queue && db.queue[s] == row && !reply.Unauthorized?
    requires row.job.Close? ==> request.PostClose? && row.job.recording in db.recordings
                                && db.recordings[row.job.recording].status == Closing
    ensures Kept(db, Receive(db, s, row, request, reply, t).0)
  {
    hide TotalsOf, BackoffMs, Kept, RowMatches;
    NothingKept(db);
    DropKept(db, s);
    match row.job
    case CreateRecording(r) =>
      if reply.Ok? && reply.body.Created? {
        CreateFindsNone(db, s, r);
        RemoteIdKept(db, s, r, reply.body.recordingId);
      }
    case Close(r, _) =>
      if reply.Ok? && reply.body.Missing? {
        RequeueKept(db, r, reply.body.seqNos, t.now + BackoffMs(row.attempts + 1, t.random), t.now);
      }
      CompleteKept(db, s, r, request.totals);
    case _ =>
  }

  lemma CreateFindsNone(db: Db, s: int, r: Id)
    requires Matches(db) && s in db.queue && db.queue[s].job == CreateRecording(r)
    ensures r in db.recordings ==> db.recordings[r].remoteId.None?
  {
    if r in db.recordings { assert RowMatches(db, r); }
  }

  // ----- what no step changes -----

  /** What was queued stays on record, and what was stored. */
  ghost predicate Stepped(w: World, v: World) {
    && Kept(w.db, v.db)
    && (v.enqueued == w.enqueued + Jobs(v.db.queue) || (v.enqueued == w.enqueued && v.db.queue == w.db.queue))
    && v.sent == w.sent
    && (v.worker.Passing? && v.worker.phase.Awaiting? ==> v.worker == w.worker)
    && (forall k :: k in w.stored ==> k in v.stored && v.stored[k] == w.stored[k])
  }

  lemma CommitStepped(w: World, v: World, db: Db)
    requires Kept(w.db, db) && v.db == db && v.enqueued == w.enqueued + Jobs(db.queue)
    requires v.sent == w.sent && v.stored == w.stored
    requires v.worker.Passing? && v.worker.phase.Awaiting? ==> v.worker == w.worker
    ensures Stepped(w, v)
  {
  }

  lemma SameStepped(w: World, v: World)
    requires v.db == w.db && v.enqueued == w.enqueued && v.sent == w.sent && v.stored == w.stored
    requires v.worker.Passing? && v.worker.phase.Awaiting? ==> v.worker == w.worker
    ensures Stepped(w, v)
  {
    NothingKept(w.db);
  }

  lemma QueueEventStepped(w: World, id: Id, kind: string, payload: string, now: Time)
    requires Safety.Inv(w)
    ensures Stepped(w, QueueEventStep(w, id, kind, payload, now))
  {
    hide Kept, Jobs, Safety.AudioInv, Safety.PassInv, RowMatches;
    EventKept(w.db, id, kind, payload, now);
  }

  lemma RetryDeadStepped(w: World, now: Time)
    ensures Stepped(w, RetryDeadStep(w, now))
  {
    hide Kept, Jobs, RequeueDeadLetters;
    DeadLettersKept(w.db, now);
  }

  lemma PutCallStepped(w: World, callId: Id, call: CallRow)
    ensures Stepped(w, PutCallStep(w, callId, call))
  {
    hide Kept, Jobs;
    CallKept(w.db, callId, call);
  }

  lemma BeginStepped(w: World, p: nat, id: Id, now: Time)
    requires Safety.Inv(w)
    ensures Stepped(w, BeginStep(w, p, id, now))
  {
    hide Kept, Jobs, Safety.AudioInv, Safety.PassInv, BeginRecording, RowMatches;
    NothingKept(w.db);
    if p in w.recorders && w.recorders[p].recording.None? && id !in w.db.recordings
       && BeginRecording(w.db, w.recorders[p].callId, id, now).Some? {
      BeginKept(w.db, w.recorders[p].callId, id, now);
    }
  }

  lemma StoreNextStepped(w: World, p: nat, ok: bool, now: Time)
    requires Safety.Inv(w)
    ensures Stepped(w, StoreNextStep(w, p, ok, now))
  {
    hide Kept, Jobs, StoreChunk, Written, Safety.Inv;
    NothingKept(w.db);
    if ok && Safety.CanStore(w, p) {
      StoresKept(w, p, now);
    }
  }

  lemma StoresKept(w: World, p: nat, now: Time)
    requires Safety.Inv(w) && Safety.CanStore(w, p)
    ensures
      var rec := w.recorders[p];
      && Kept(w.db, StoreChunk(w.db, rec.recording.value, rec.nextSeq, rec.pending[0].0, rec.pending[0].1, now))
      && (rec.recording.value, rec.nextSeq) !in w.stored
  {
    hide Kept, Safety.PassInv, Safety.LocksSound, Safety.RemoteAudioSound, Safety.CompleteSound, StoreChunk, RowMatches;
    var rec := w.recorders[p];
    Safety.StoresFresh(w, p);
    StoreKept(w.db, rec.recording.value, rec.nextSeq, rec.pending[0].0, rec.pending[0].1, now);
  }

  lemma FinishStepped(w: World, p: nat, ok: bool, now: Time)
    requires Safety.Inv(w)
    ensures Stepped(w, FinishStep(w, p, ok, now))
  {
    hide Kept, Jobs, Safety.AudioInv, Safety.PassInv, FinishRecording, RowMatches;
    NothingKept(w.db);
    if Drained(w, p) { FinishKept(w.db, w.recorders[p].recording.value, !w.recorders[p].stopRequested, now); }
  }

  lemma SweepFinishStepped(w: World, k: nat, now: Time)
    requires Safety.Inv(w)
    ensures Stepped(w, SweepFinishStep(w, k, now))
  {
    hide Kept, Jobs, Safety.AudioInv, Safety.PassInv, FinishRecording, RowMatches;
    NothingKept(w.db);
    if k in w.sweeps { FinishKept(w.db, w.sweeps[k], true, now); }
  }

  lemma SettleStepped(w: World, t: Ticks)
    ensures Stepped(w, SettleStep(w, t))
  {
    hide Kept, Jobs, Settle;
    NothingKept(w.db);
    if InPhase(w.worker) && w.worker.phase.Settling? {
      SettleKept(w.db, w.worker.rows[w.worker.next].0, w.worker.phase.outcome, t);
    }
  }

  lemma EnterStepped(w: World, db: Db, phase: Phase)
    requires w.worker.Passing? && Kept(w.db, db) && !phase.Awaiting?
    ensures Stepped(w, Enter(Commit(w, db), phase))
  {
    hide Kept, Jobs;
  }

  lemma AnswerStepped(w: World, reply: Reply, rotated: bool, t: Ticks)
    requires Safety.Inv(w)
    ensures Stepped(w, AnswerStep(w, reply, rotated, t))
  {
    hide Kept, Jobs, Receive, Truthful, Commit, Enter, UnauthorizedStep, Safety.AudioInv, RowMatches, Safety.SnapshotSound,
      Safety.OrderSound, Safety.EventsConserved, Safety.HistorySound, Safety.SentSound;
    if Answerable(w, reply) && reply.Unauthorized? {
      UnauthorizedStepped(w, rotated);
    } else if Answerable(w, reply) {
      var s, row := w.worker.rows[w.worker.next].0, w.worker.phase.row;
      ReceiveKept(w.db, s, row, w.worker.phase.request, reply, t);
      EnterStepped(w, Receive(w.db, s, row, w.worker.phase.request, reply, t).0,
                   Settling(row, Receive(w.db, s, row, w.worker.phase.request, reply, t).1));
    } else {
      SameStepped(w, w);
    }
  }

  lemma WorkerOnly(w: World, worker: Worker)
    requires worker.Passing? && worker.phase.Awaiting? ==> worker == w.worker
    ensures Stepped(w, w.(worker := worker))
  {
    hide Kept, Jobs;
    NothingKept(w.db);
  }

  lemma UnauthorizedStepped(w: World, rotated: bool)
    requires InPhase(w.worker)
    ensures Stepped(w, UnauthorizedStep(w, rotated))
  {
    var v := UnauthorizedStep(w, rotated);
    UnauthorizedWorker(w, rotated);
    hide Stepped, UnauthorizedStep;
    WorkerOnly(w, v.worker);
  }

  lemma UnauthorizedWorker(w: World, rotated: bool)
    requires InPhase(w.worker)
    ensures
      var v := UnauthorizedStep(w, rotated);
      v == w.(worker := v.worker) && (v.worker.Passing? ==> !v.worker.phase.Awaiting?)
  {
  }

  lemma StartPassStepped(w: World, force: bool)
    ensures Stepped(w, StartPassStep(w, force))
  {
    hide Stepped, Listed;
    WorkerOnly(w, StartPassStep(w, force).worker);
  }

  lemma ScanStepped(w: World, now: Time)
    ensures Stepped(w, ScanStep(w, now))
  {
    hide Stepped, Choose;
    WorkerOnly(w, ScanStep(w, now).worker);
  }

  lemma WorkerDiesStepped(w: World)
    ensures Stepped(w, WorkerDiesStep(w))
  {
    hide Stepped;
    SameStepped(w, WorkerDiesStep(w));
  }

  lemma SweepTakeStepped(w: World, k: nat, r: Id)
    ensures Stepped(w, SweepTakeStep(w, k, r))
  {
    hide Stepped;
    SameStepped(w, SweepTakeStep(w, k, r));
  }

  lemma MintStepped(w: World, callId: Id, remoteId: Id)
    ensures Stepped(w, MintStep(w, callId, remoteId))
  {
    hide Stepped;
    SameStepped(w, MintStep(w, callId, remoteId));
  }

  lemma KeepStepped(w: World, request: Request)
    ensures Stepped(w, KeepStep(w, request))
  {
    hide Stepped;
    SameStepped(w, KeepStep(w, request));
  }

  lemma LogOnly(w: World, accepted: seq<Request>)
    ensures Stepped(w, w.(accepted := accepted))
  {
    hide Kept, Jobs;
    NothingKept(w.db);
  }

  lemma AcceptStepped(w: World, request: Request)
    ensures Stepped(w, AcceptEventStep(w, request))
  {
    hide Stepped, IsAccepted;
    var v := AcceptEventStep(w, request);
    assert v == w.(accepted := v.accepted);
    LogOnly(w, v.accepted);
  }

  lemma RecordersOnly(w: World, locks: map<Id, Holder>, recorders: map<nat, Recorder>)
    ensures Stepped(w, w.(locks := locks, recorders := recorders))
  {
    hide Kept, Jobs;
    NothingKept(w.db);
  }

  lemma OthersStepped(w: World, step: Step)
    requires step.TakeLock? || step.DataArrives? || step.AskStop? || step.Interrupt? || step.StreamStops? || step.Leave?
    ensures Stepped(w, Next(w, step))
  {
    hide QueueEventStep, PutCallStep, RetryDeadStep, BeginStep, StoreNextStep, FinishStep, SweepTakeStep, SweepFinishStep,
      WorkerDiesStep, StartPassStep, ScanStep, DeliverStep, AnswerStep, SettleStep, MintStep, KeepStep, AcceptEventStep, Stepped;
    var v := Next(w, step);
    OnlyRecorders(w, step);
    hide Next;
    RecordersOnly(w, v.locks, v.recorders);
  }

  lemma OnlyRecorders(w: World, step: Step)
    requires step.TakeLock? || step.DataArrives? || step.AskStop? || step.Interrupt? || step.StreamStops? || step.Leave?
    ensures Next(w, step) == w.(locks := Next(w, step).locks, recorders := Next(w, step).recorders)
  {
    hide QueueEventStep, PutCallStep, RetryDeadStep, BeginStep, StoreNextStep, FinishStep, SweepTakeStep, SweepFinishStep,
      WorkerDiesStep, StartPassStep, ScanStep, DeliverStep, AnswerStep, SettleStep, MintStep, KeepStep, AcceptEventStep;
  }

  lemma NextStepped(w: World, step: Step)
    requires Safety.Inv(w) && !step.Deliver?
    ensures Stepped(w, Next(w, step))
  {
    hide Safety.Inv, Stepped, QueueEventStep, PutCallStep, RetryDeadStep, TakeLockStep, BeginStep, DataArrivesStep, StoreNextStep,
      StopStep, StreamStopsStep, FinishStep, RecorderGone, SweepTakeStep, SweepFinishStep, WorkerDiesStep, StartPassStep,
      ScanStep, DeliverStep, AnswerStep, SettleStep, MintStep, KeepStep, AcceptEventStep;
    match step
    case QueueEvent(id, kind, payload, now) => QueueEventStepped(w, id, kind, payload, now);
    case PutCall(callId, call) => PutCallStepped(w, callId, call);
    case RetryDead(now) => RetryDeadStepped(w, now);
    case Begin(p, id, now) => BeginStepped(w, p, id, now);
    case StoreNext(p, ok, now) => StoreNextStepped(w, p, ok, now);
    case Finish(p, ok, now) => FinishStepped(w, p, ok, now);
    case SweepFinish(k, now) => SweepFinishStepped(w, k, now);
    case Answer(reply, rotated, t) => AnswerStepped(w, reply, rotated, t);
    case SettleRow(t) => SettleStepped(w, t);
    case SweepTake(k, r) => SweepTakeStepped(w, k, r);
    case WorkerDies => WorkerDiesStepped(w);
    case StartPass(force) => StartPassStepped(w, force);
    case Scan(now) => ScanStepped(w, now);
    case Mint(callId, remoteId) => MintStepped(w, callId, remoteId);
    case Keep(request) => KeepStepped(w, request);
    case AcceptEvent(request) => AcceptStepped(w, request);
    case _ => OthersStepped(w, step);
  }

  // ----- the invariant -----

  /** Where a close says what became of `r`. */
  ghost predicate CloseOf(w: World, q: Request, r: Id)
    requires q.PostClose?
  {
    && r in w.db.recordings && w.db.recordings[r].remoteId == Some(q.remoteId)
    && w.db.recordings[r].status != Recording && w.db.recordings[r].interrupted == q.interrupted
    && (w.db.recordings[r].status == Closing ==> TotalsOf(w.db.chunks, r) == q.totals)
  }

  ghost predicate SegmentOf(w: World, q: Request, r: Id)
    requires q.PutSegment?
  {
    && Safety.Origin(w, r, q.remoteId, q.seqNo, q.blob)
    && ((r, q.seqNo) in w.db.chunks ==> w.db.chunks[(r, q.seqNo)].startedAt == q.startedAt)
  }

  ghost predicate True(w: World, q: Request) {
    match q
    case PostEvent(_, s, _, _, createdAt) => s in w.db.queue ==> w.db.queue[s].createdAt == createdAt
    case PostRecording(callId) => exists r :: r in w.db.recordings && w.db.recordings[r].callId == callId
    case PutSegment(_, _, _, _) => exists r :: SegmentOf(w, q, r)
    case PostClose(_, _, _) => exists r :: CloseOf(w, q, r)
  }

  ghost predicate AllTrue(w: World) { forall q :: q in w.sent ==> True(w, q) }

  /** The flag of every close ever queued is its recording's. */
  ghost predicate ClosesTrue(w: World) {
    forall s :: s in w.enqueued && w.enqueued[s].Close? ==>
      var r := w.enqueued[s].recording;
      && r in w.db.recordings && w.db.recordings[r].status != Recording
      && w.db.recordings[r].interrupted == w.enqueued[s].interrupted
  }

  /** An event is the same however often it is sent, and so is a segment. */
  ghost predicate SameEachTime(w: World) {
    && (forall p, q :: p in w.sent && q in w.sent && p.PostEvent? && q.PostEvent? && p.sequence == q.sequence ==> p == q)
    && (forall p, q :: p in w.sent && q in w.sent && p.PutSegment? && q.PutSegment? ==>
          p.remoteId == q.remoteId && p.seqNo == q.seqNo ==> p == q)
  }

  /** The request that waits for its reply is the one the row calls for. */
  ghost predicate AwaitedFits(w: World) {
    w.worker.Passing? && w.worker.phase.Awaiting? && w.worker.phase.row.job.Segment? ==>
      var job, q := w.worker.phase.row.job, w.worker.phase.request;
      && q.PutSegment? && q.seqNo == job.seqNo && job.recording in w.db.recordings
      && w.db.recordings[job.recording].remoteId == Some(q.remoteId) && q.remoteId != ""
  }

  ghost predicate Truth(w: World) {
    AllTrue(w) && ClosesTrue(w) && SameEachTime(w) && AwaitedFits(w)
  }

  // ----- a step that sends nothing keeps the truth -----

  lemma TrueStays(w: World, v: World, q: Request)
    requires Safety.HistorySound(w) && Safety.SentSound(w) && Stepped(w, v) && q in w.sent && True(w, q)
    requires forall k :: k in v.db.chunks && k !in w.db.chunks ==> k !in w.stored
    ensures True(v, q)
  {
    hide TotalsOf;
    match q
    case PostEvent(_, s, _, _, _) => assert s < w.db.nextSequence;
    case PostRecording(callId) =>
      var r :| r in w.db.recordings && w.db.recordings[r].callId == callId;
      assert RecordingKept(w.db, v.db, r);
    case PutSegment(_, _, _, _) =>
      var r :| SegmentOf(w, q, r);
      assert RecordingKept(w.db, v.db, r);
      assert SegmentOf(v, q, r);
    case PostClose(_, _, _) =>
      var r :| CloseOf(w, q, r);
      assert RecordingKept(w.db, v.db, r);
      assert CloseOf(v, q, r);
  }

  lemma EnqueuedStays(w: World, v: World, s: int)
    requires Safety.HistorySound(w) && Stepped(w, v) && s in w.enqueued
    ensures s in v.enqueued && v.enqueued[s] == w.enqueued[s]
  {
    hide TotalsOf, RecordingsKept, NewClosesTrue, ChunksKept;
  }

  lemma ClosesStayTrue(w: World, v: World)
    requires Safety.HistorySound(w) && ClosesTrue(w) && Stepped(w, v)
    ensures ClosesTrue(v)
  {
    hide TotalsOf;
    forall s | s in v.enqueued && v.enqueued[s].Close?
      ensures
        var r := v.enqueued[s].recording;
        && r in v.db.recordings && v.db.recordings[r].status != Recording
        && v.db.recordings[r].interrupted == v.enqueued[s].interrupted
    {
      if s in v.db.queue && s !in w.db.queue && s !in w.enqueued {
        assert v.db.queue[s].job == v.enqueued[s];
      } else if s in w.enqueued {
        EnqueuedStays(w, v, s);
        assert RecordingKept(w.db, v.db, w.enqueued[s].recording);
      }
    }
  }

  lemma SteppedKeepsTruth(w: World, v: World)
    requires Safety.HistorySound(w) && Safety.SentSound(w) && Stepped(w, v) && Truth(w)
    requires forall k :: k in v.db.chunks && k !in w.db.chunks ==> k !in w.stored
    ensures Truth(v)
  {
    hide True, ClosesTrue;
    forall q | q in v.sent ensures True(v, q) { TrueStays(w, v, q); }
    ClosesStayTrue(w, v);
    AwaitedStays(w, v);
  }

  lemma AwaitedStays(w: World, v: World)
    requires Stepped(w, v) && AwaitedFits(w)
    ensures AwaitedFits(v)
  {
    hide TotalsOf;
    if v.worker.Passing? && v.worker.phase.Awaiting? && v.worker.phase.row.job.Segment? {
      assert RecordingKept(w.db, v.db, w.worker.phase.row.job.recording);
    }
  }

  lemma NewChunksUnstored(w: World, step: Step)
    requires Safety.Inv(w)
    ensures forall k :: k in Next(w, step).db.chunks && k !in w.db.chunks ==> k !in w.stored
  {
    hide Next, Safety.Inv;
    forall k | k in Next(w, step).db.chunks && k !in w.db.chunks ensures k !in w.stored {
      if step.StoreNext? {
        ProtocolTheorems.StoredFresh(w, step, k);
      } else {
        InvMatches(w);
        ProtocolTheorems.OthersStoreNothing(w, step, k);
      }
    }
  }

  lemma InvMatches(w: World)
    requires Safety.Inv(w)
    ensures Matches(w.db) && Safety.HistorySound(w) && Safety.SentSound(w)
  {
  }

  // ----- a step that sends -----

  /** What is sent for the row at hand. */
  ghost predicate Sends(w: World, v: World, request: Request) {
    && Safety.AtAttempt(w) && PlanOf(w.db, w.worker.rows[w.worker.next].0, w.worker.phase.row) == Send(request)
    && v.db == w.db && v.enqueued == w.enqueued && v.stored == w.stored && v.sent == w.sent + {request}
    && v.worker.Passing? && v.worker.phase == Awaiting(w.worker.phase.row, request)
  }

  lemma DeliverSends(w: World)
    requires Safety.Inv(w)
    ensures
      var v := Next(w, Deliver);
      Stepped(w, v) || exists request :: Sends(w, v, request)
  {
    hide Next, PlanOf, Transmit, Enter, Stepped, Safety.AudioInv, Safety.SnapshotSound, Safety.OrderSound,
      Safety.EventsConserved, Safety.SentSound, Safety.HistorySound, RowMatches, Safety.Fits;
    Refinement.DeliverIsNext(w);
    if Safety.AtAttempt(w) {
      var s, row := w.worker.rows[w.worker.next].0, w.worker.phase.row;
      NothingToDrop(w.db, s, row);
      match PlanOf(w.db, s, row)
      case Wait => WaitStepped(w, row);
      case Send(request) => TransmitSends(w, row, request);
    } else {
      WorkerOnly(w, w.worker);
      assert w.(worker := w.worker) == w;
    }
  }

  lemma WaitStepped(w: World, row: QueueRow)
    requires w.worker.Passing?
    ensures Stepped(w, Enter(w, Settling(row, Waiting)))
  {
    hide Stepped;
    var v := Enter(w, Settling(row, Waiting));
    WorkerOnly(w, v.worker);
  }

  lemma TransmitSends(w: World, row: QueueRow, request: Request)
    requires Safety.AtAttempt(w) && w.worker.phase.row == row
    requires PlanOf(w.db, w.worker.rows[w.worker.next].0, row) == Send(request)
    ensures Sends(w, Transmit(w, row, request), request)
  {
    hide PlanOf;
  }

  /** What is sent is true when it is sent. */
  lemma SendsTruth(w: World, v: World, request: Request)
    requires Safety.Inv(w) && Sends(w, v, request) && ClosesTrue(w)
    ensures True(v, request)
  {
    hide TotalsOf, Safety.SnapshotSound, Safety.OrderSound, Safety.EventsConserved, Safety.SentSound, Safety.LocksSound,
      Safety.RecordersSound, Safety.RemoteAudioSound, Safety.CompleteSound, Safety.Fits;
    var job := w.worker.phase.row.job;
    match job
    case Event(_, _, _) =>
    case CreateRecording(r) =>
    case Segment(r, i) => assert SegmentOf(v, request, r);
    case Close(r, interrupted) =>
      assert RowMatches(w.db, r);
      assert w.enqueued[w.worker.rows[w.worker.next].0] == job;
      assert CloseOf(v, request, r);
  }

  /** No two recordings have one remote id. */
  lemma OneRecording(w: World, q: Id, r: Id)
    requires Matches(w.db) && Safety.RemoteAudioSound(w) && q in w.db.recordings && r in w.db.recordings
    requires w.db.recordings[q].remoteId.Some? && w.db.recordings[q].remoteId == w.db.recordings[r].remoteId
    ensures q == r
  {
    assert w.db.recordings[q].callId == w.db.recordings[r].callId;
    assert RowMatches(w.db, q) && RowMatches(w.db, r);
  }

  /** What was sent before for the same row is the same request. */
  lemma SentAgain(w: World, v: World, request: Request, q: Request)
    requires Safety.Inv(w) && Truth(w) && Sends(w, v, request) && q in w.sent
    requires
      || (q.PostEvent? && request.PostEvent? && q.sequence == request.sequence)
      || (q.PutSegment? && request.PutSegment? && q.remoteId == request.remoteId && q.seqNo == request.seqNo)
    ensures q == request
  {
    hide TotalsOf, Safety.SnapshotSound, Safety.OrderSound, Safety.EventsConserved, Safety.LocksSound, Safety.RecordersSound,
      Safety.CompleteSound, Safety.Fits, ClosesTrue, AwaitedFits, RowMatches;
    var job := w.worker.phase.row.job;
    assert True(w, q);
    if q.PutSegment? {
      var r :| SegmentOf(w, q, r);
      OneRecording(w, r, job.recording);
    }
  }

  lemma SendsKeepsTruth(w: World, v: World, request: Request)
    requires Safety.Inv(w) && Truth(w) && Sends(w, v, request)
    ensures Truth(v)
  {
    hide PlanOf, Safety.Inv, True;
    SendsTruth(w, v, request);
    forall q | q in w.sent ensures True(v, q) { TrueOn(w, v, q); }
    forall p, q | p in v.sent && q in v.sent && p.PostEvent? && q.PostEvent? && p.sequence == q.sequence ensures p == q {
      if p == request && q in w.sent { SentAgain(w, v, request, q); }
      if q == request && p in w.sent { SentAgain(w, v, request, p); }
    }
    forall p, q | p in v.sent && q in v.sent && p.PutSegment? && q.PutSegment? && p.remoteId == q.remoteId && p.seqNo == q.seqNo
      ensures p == q
    {
      if p == request && q in w.sent { SentAgain(w, v, request, q); }
      if q == request && p in w.sent { SentAgain(w, v, request, p); }
    }
    SendsFits(w, v, request);
  }

  lemma TrueOn(w: World, v: World, q: Request)
    requires True(w, q) && v.db == w.db && v.stored == w.stored
    ensures True(v, q)
  {
    hide TotalsOf;
    match q
    case PutSegment(_, _, _, _) =>
      var r :| SegmentOf(w, q, r);
      assert SegmentOf(v, q, r);
    case PostClose(_, _, _) =>
      var r :| CloseOf(w, q, r);
      assert CloseOf(v, q, r);
    case _ =>
  }

  lemma SendsFits(w: World, v: World, request: Request)
    requires Sends(w, v, request)
    ensures AwaitedFits(v)
  {
    hide TotalsOf;
  }

  lemma StepKeepsTruth(w: World, step: Step)
    requires Safety.Inv(w) && Truth(w)
    ensures Truth(Next(w, step))
  {
    hide Safety.Inv, Truth, Next, Stepped, Sends;
    InvMatches(w);
    if step.Deliver? {
      DeliverSends(w);
      var v := Next(w, Deliver);
      if request :| Sends(w, v, request) {
        SendsKeepsTruth(w, v, request);
      } else {
        NewChunksUnstored(w, step);
        SteppedKeepsTruth(w, v);
      }
    } else {
      NextStepped(w, step);
      NewChunksUnstored(w, step);
      SteppedKeepsTruth(w, Next(w, step));
    }
  }

  lemma {:induction false} RunKeepsTruth(w: World, steps: seq<Step>)
    requires Safety.Inv(w) && Truth(w)
    ensures Safety.Inv(Run(w, steps)) && Truth(Run(w, steps))
    decreases |steps|
  {
    hide Safety.Inv, Truth, Next;
    if steps != [] {
      Safety.InvKept(w, steps[0]);
      StepKeepsTruth(w, steps[0]);
      RunKeepsTruth(Next(w, steps[0]), steps[1..]);
    }
  }

  lemma ReachableIsTrue(w: World)
    requires ProtocolTheorems.Reachable(w)
    ensures Safety.Inv(w) && Truth(w)
  {
    hide Safety.Inv, Run;
    ProtocolTheorems.InitialSound();
    var steps :| w == Run(INITIAL, steps);
    RunKeepsTruth(INITIAL, steps);
  }

  // ----- what the server is told -----

  /**
   * Every close that was ever sent for `r` says whether `r` was interrupted, as its row and its close job do, and
   * while it is open it names the chunks that are stored.
   */
  lemma CloseSaysWhatHappened(w: World, q: Request, r: Id)
    requires ProtocolTheorems.Reachable(w) && q in w.sent && q.PostClose?
    requires r in w.db.recordings && w.db.recordings[r].remoteId == Some(q.remoteId)
    ensures w.db.recordings[r].status != Recording && q.interrupted == w.db.recordings[r].interrupted
    ensures forall s :: s in w.enqueued && IsCloseOf(w.enqueued[s], r) ==> w.enqueued[s].interrupted == q.interrupted
    ensures w.db.recordings[r].status == Closing ==>
      && (forall i: nat :: (r, i) in w.stored <==> i < q.totals.segments)
      && q.totals.bytes == BytesBelow(w.db.chunks, r, q.totals.segments)
  {
    hide ProtocolTheorems.Reachable, Safety.PassInv, Safety.LocksSound, Safety.RecordersSound, Safety.CompleteSound,
      SameEachTime, AwaitedFits, Bound, BytesBelow, RowMatches;
    ReachableIsTrue(w);
    assert True(w, q);
    var t :| CloseOf(w, q, t);
    OneRecording(w, t, r);
    if w.db.recordings[r].status == Closing { ProtocolTheorems.NumberedFromZero(w, r); }
  }

  /** A segment goes out under its number, with the bytes and the start that were stored. */
  lemma SegmentSaysWhatWasStored(w: World, q: Request, r: Id)
    requires ProtocolTheorems.Reachable(w) && q in w.sent && q.PutSegment?
    requires r in w.db.recordings && w.db.recordings[r].remoteId == Some(q.remoteId)
    ensures (r, q.seqNo) in w.stored && w.stored[(r, q.seqNo)] == q.blob
    ensures (r, q.seqNo) in w.db.chunks ==> w.db.chunks[(r, q.seqNo)].startedAt == q.startedAt
  {
    hide ProtocolTheorems.Reachable, Safety.PassInv, Safety.LocksSound, Safety.RecordersSound, Safety.CompleteSound,
      SameEachTime, AwaitedFits, ClosesTrue, RowMatches;
    ReachableIsTrue(w);
    assert True(w, q);
    var t :| SegmentOf(w, q, t);
    OneRecording(w, t, r);
  }

  /** An event goes out as it was queued, with the time at which it was queued. */
  lemma EventSaysWhatWasQueued(w: World, q: Request)
    requires ProtocolTheorems.Reachable(w) && q in w.sent && q.PostEvent?
    ensures q.sequence in w.enqueued && w.enqueued[q.sequence] == Event(q.id, q.kind, q.payload)
    ensures q.sequence in w.db.queue ==> w.db.queue[q.sequence].createdAt == q.createdAt
    ensures forall p :: p in w.sent && p.PostEvent? && p.sequence == q.sequence ==> p == q
  {
    hide ProtocolTheorems.Reachable, Safety.AudioInv, AwaitedFits, ClosesTrue;
    ReachableIsTrue(w);
    assert True(w, q);
  }

  /** The request in flight is for the row at hand. */
  lemma RequestFitsItsRow(w: World)
    requires ProtocolTheorems.Reachable(w) && InPhase(w.worker) && w.worker.phase.Awaiting?
    ensures
      var s, job, q := w.worker.rows[w.worker.next].0, w.worker.phase.row.job, w.worker.phase.request;
      match job
      case Event(id, kind, payload) => q.PostEvent? && q.sequence == s && Event(q.id, q.kind, q.payload) == job
      case CreateRecording(r) => r in w.db.recordings && q == PostRecording(w.db.recordings[r].callId)
      case Segment(r, i) =>
        q.PutSegment? && q.seqNo == i && r in w.db.recordings && w.db.recordings[r].remoteId == Some(q.remoteId)
      case Close(r, _) => q.PostClose? && r in w.db.recordings && w.db.recordings[r].remoteId == Some(q.remoteId)
  {
    hide ProtocolTheorems.Reachable, Safety.AudioInv, AllTrue, ClosesTrue, SameEachTime, Safety.SnapshotSound,
      Safety.OrderSound, Safety.EventsConserved, Safety.SentSound;
    ReachableIsTrue(w);
  }
}
