/** The promises of the recording and upload protocol, for every run. */
module ProtocolTheorems {
  import opened Domain
  import opened Store
  import opened Delivery
  import opened Correspondence
  import opened Protocol
  import opened Safety

  /** Some run from the empty database ends in this world. */
  ghost predicate Reachable(w: World) {
    exists steps :: w == Run(INITIAL, steps)
  }

  lemma InitialSound()
    ensures Inv(INITIAL)
  {
  }

  /** In every reachable world the invariant holds. */
  lemma ReachableIsSound(w: World)
    requires Reachable(w)
    ensures Inv(w)
  {
    hide Inv, Run;
    InitialSound();
    var steps :| w == Run(INITIAL, steps);
    RunKeeps(INITIAL, steps);
  }

  /** The server's copy of `r` is, byte for byte, every chunk `r` ever stored and nothing else. */
  ghost predicate CopiedExactly(w: World, r: Id)
    requires r in w.db.recordings && w.db.recordings[r].remoteId.Some?
  {
    var remoteId := w.db.recordings[r].remoteId.value;
    && (forall i: nat :: (remoteId, i) in w.segments <==> (r, i) in w.stored)
    && (forall i: nat :: (r, i) in w.stored ==> w.segments[(remoteId, i)] == w.stored[(r, i)])
  }

  /** No audio is lost: it is all on the server once complete, and all on the device until then. */
  lemma NoAudioIsLost(w: World, r: Id)
    requires Reachable(w)
    requires r in w.db.recordings
    ensures
      && (w.db.recordings[r].status == Complete ==>
            w.db.recordings[r].remoteId.Some? && CopiedExactly(w, r))
      && (w.db.recordings[r].status != Complete ==>
            forall i: nat :: (r, i) in w.stored ==>
              (r, i) in w.db.chunks && w.db.chunks[(r, i)].blob == w.stored[(r, i)])
  {
    ReachableIsSound(w);
    if w.db.recordings[r].status == Complete {
      assert FullyUploaded(w, r);
      OneOwner(w, r);
    }
  }

  lemma OneOwner(w: World, r: Id)
    requires Matches(w.db) && RemoteAudioSound(w)
    requires r in w.db.recordings && w.db.recordings[r].remoteId.Some?
    ensures
      var remoteId := w.db.recordings[r].remoteId.value;
      forall i: nat :: (remoteId, i) in w.segments ==>
        (r, i) in w.stored && w.segments[(remoteId, i)] == w.stored[(r, i)]
  {
    var remoteId := w.db.recordings[r].remoteId.value;
    forall i: nat | (remoteId, i) in w.segments
      ensures (r, i) in w.stored && w.segments[(remoteId, i)] == w.stored[(r, i)]
    {
      assert Genuine(w, remoteId, i, w.segments[(remoteId, i)]);
      var q :| Origin(w, q, remoteId, i, w.segments[(remoteId, i)]);
      assert q == r;
    }
  }

  /** Stored chunks are numbered 0..n-1, so the totals of a manifest are the count and the size. */
  lemma StoredWithoutGaps(w: World, r: Id)
    requires Reachable(w)
    requires r in w.db.recordings && w.db.recordings[r].status != Complete
    ensures
      var n := TotalsOf(w.db.chunks, r).segments;
      forall i: nat :: (r, i) in w.stored <==> i < n
  {
    hide Reachable, TotalsOf;
    ReachableIsSound(w);
    NumberedFromZero(w, r);
  }

  lemma NumberedFromZero(w: World, r: Id)
    requires LocalAudioSound(w) && r in w.db.recordings && w.db.recordings[r].status != Complete
    ensures
      var n := TotalsOf(w.db.chunks, r).segments;
      forall i: nat :: (r, i) in w.stored <==> i < n
  {
    hide Bound, BytesBelow;
    var n := Bound(SeqNos(w.db.chunks, r));
    forall i: nat ensures (r, i) in w.stored <==> i < n {
      if (r, i) in w.stored {
        assert (r, i) in w.db.chunks && i in SeqNos(w.db.chunks, r);
      }
      if i < n {
        assert n - 1 in SeqNos(w.db.chunks, r) && (r, n - 1) in w.db.chunks;
        assert i == n - 1 || (r, i) in w.stored;
      }
    }
  }

  lemma {:induction false} SizesAgree(w: World, r: Id, remoteId: Id, n: nat)
    requires LocalAudioSound(w)
    requires forall i: nat :: i < n ==> (r, i) in w.db.chunks && (remoteId, i) in w.segments
    requires forall i: nat :: i < n ==> w.segments[(remoteId, i)] == w.stored[(r, i)]
    ensures SizeBelow(w.segments, remoteId, n) == BytesBelow(w.db.chunks, r, n)
  {
    if n > 0 { SizesAgree(w, r, remoteId, n - 1); }
  }

  /** When everything is uploaded, the manifest is what the server holds, so a server that checks it can complete. */
  lemma ManifestFitsTheServer(w: World, r: Id)
    requires Reachable(w)
    requires r in w.db.recordings && w.db.recordings[r].status != Complete
    requires w.db.recordings[r].remoteId.Some? && FullyUploaded(w, r)
    ensures
      Holds(w.segments, w.db.recordings[r].remoteId.value, TotalsOf(w.db.chunks, r))
  {
    hide Reachable, BytesBelow, SizeBelow;
    ReachableIsSound(w);
    UploadedMeansHeld(w, r);
  }

  lemma UploadedMeansHeld(w: World, r: Id)
    requires Matches(w.db) && LocalAudioSound(w) && RemoteAudioSound(w)
    requires r in w.db.recordings && w.db.recordings[r].status != Complete
    requires w.db.recordings[r].remoteId.Some? && FullyUploaded(w, r)
    ensures Holds(w.segments, w.db.recordings[r].remoteId.value, TotalsOf(w.db.chunks, r))
  {
    hide BytesBelow, SizeBelow, Matches, RemoteAudioSound, Bound;
    NumberedFromZero(w, r);
    OneOwner(w, r);
    var remoteId, n := w.db.recordings[r].remoteId.value, TotalsOf(w.db.chunks, r).segments;
    forall i: nat | i < n
      ensures (r, i) in w.db.chunks && (remoteId, i) in w.segments && w.segments[(remoteId, i)] == w.stored[(r, i)]
    {
      assert (r, i) in w.stored;
    }
    SizesAgree(w, r, remoteId, n);
  }

  /** The rows of the database call for each other in every reachable state. */
  lemma RowsMatch(w: World, r: Id)
    requires Reachable(w)
    requires r in w.db.recordings
    ensures
      var db := w.db;
      var rec := db.recordings[r];
      && (rec.remoteId.None? <==> exists s :: OnlyCreate(db.queue, r, s))
      && (rec.remoteId.Some? <==> NoCreate(db.queue, r))
      && (rec.status == Closing <==> exists s :: OnlyClose(db.queue, r, s))
      && (rec.status != Closing <==> NoClose(db.queue, r))
      && (rec.status == Complete ==> NoSegment(db.queue, r) && NoChunk(db, r))
      && (forall s :: s in db.queue && IsSegmentOf(db.queue[s].job, r) ==> (r, db.queue[s].job.seqNo) in db.chunks)
      && (forall q :: q in db.recordings && db.recordings[q].callId == rec.callId ==> q == r)
  {
    ReachableIsSound(w);
    assert RowMatches(w.db, r);
  }

  // ----- locks -----

  /** A chunk is stored once, into a recording that runs, and never after its close is queued. */
  lemma NothingStoredAfterTheClose(w: World, step: Step, k: ChunkKey)
    requires Reachable(w)
    requires
      var v := Next(w, step);
      k in v.db.chunks && (k !in w.db.chunks || v.db.chunks[k] != w.db.chunks[k])
    ensures
      && k.0 in w.db.recordings && w.db.recordings[k.0].status == Recording && NoClose(w.db.queue, k.0)
      && k !in w.stored
  {
    hide Reachable, Next;
    ReachableIsSound(w);
    if step.StoreNext? {
      StoredFresh(w, step, k);
    } else {
      OthersStoreNothing(w, step, k);
    }
  }

  lemma StoredFresh(w: World, step: Step, k: ChunkKey)
    requires Inv(w) && step.StoreNext?
    requires
      var v := Next(w, step);
      k in v.db.chunks && (k !in w.db.chunks || v.db.chunks[k] != w.db.chunks[k])
    ensures k.0 in w.db.recordings && w.db.recordings[k.0].status == Recording && NoClose(w.db.queue, k.0)
    ensures k !in w.stored
  {
    hide Next, StoreNextStep, LocksSound, LocalAudioSound, RemoteAudioSound, CompleteSound, PassInv, Begun;
    StoreNextIsNext(w, step);
    StoreWritesOne(w, step.recorder, step.ok, step.now);
    StoresFresh(w, step.recorder);
    assert RowMatches(w.db, k.0);
  }

  /** The sweep closes a recording only when no recorder has it. */
  lemma SweepSparesRecorders(w: World, k: nat, now: Time, r: Id)
    requires Reachable(w)
    requires
      var v := Next(w, SweepFinish(k, now));
      r in w.db.recordings && r in v.db.recordings && v.db.recordings[r].status != w.db.recordings[r].status
    ensures
      forall p :: p in w.recorders ==> w.recorders[p].recording != Some(r)
  {
    hide Reachable, LocksSound, RecordersSound, LocalAudioSound, RemoteAudioSound, CompleteSound, PassInv, Matches, Next;
    ReachableIsSound(w);
    SweepChangesOnly(w, k, now, r);
    forall p | p in w.recorders ensures w.recorders[p].recording != Some(r) {
      SweepFindsNobody(w, k, p);
    }
  }

  lemma SweepChangesOnly(w: World, k: nat, now: Time, r: Id)
    requires r in w.db.recordings
    ensures
      var v := Next(w, SweepFinish(k, now));
      r in v.db.recordings && (v.db.recordings[r] != w.db.recordings[r] ==> k in w.sweeps && w.sweeps[k] == r)
  {
    hide QueueEventStep, PutCallStep, RetryDeadStep, TakeLockStep, BeginStep, DataArrivesStep, StoreNextStep, StopStep,
      StreamStopsStep, FinishStep, RecorderGone, SweepTakeStep, WorkerDiesStep, StartPassStep, ScanStep, DeliverStep,
      AnswerStep, SettleStep, MintStep, KeepStep, AcceptEventStep, Jobs;
  }

  // ----- the queue -----

  /** Event ids are random UUIDs: no two jobs share one. */
  ghost predicate FreshIds(w: World) {
    forall s, t :: s in w.enqueued && t in w.enqueued && w.enqueued[s].Event? && w.enqueued[t].Event? ==>
      w.enqueued[s].id == w.enqueued[t].id ==> s == t
  }

  /** The server took event `s` as it was queued. */
  ghost predicate Took(w: World, s: int)
    requires s in w.enqueued
  {
    exists i :: 0 <= i < |w.accepted| && w.accepted[i].PostEvent? && w.accepted[i].sequence == s
      && Event(w.accepted[i].id, w.accepted[i].kind, w.accepted[i].payload) == w.enqueued[s]
  }

  /** An event queued is still queued, or the server took it as it was; a heartbeat may be dropped. */
  lemma EventsAreDeliveredOrKept(w: World, s: int)
    requires Reachable(w) && FreshIds(w)
    requires s in w.enqueued && w.enqueued[s].Event?
    ensures
      || (s in w.db.queue && w.db.queue[s].job == w.enqueued[s])
      || Took(w, s)
      || IsHeartbeat(w.enqueued[s])
  {
    hide Reachable;
    ReachableIsSound(w);
    if IsAccepted(w, w.enqueued[s].id) {
      var i :| 0 <= i < |w.accepted| && w.accepted[i].PostEvent? && w.accepted[i].id == w.enqueued[s].id;
      assert w.accepted[i] in w.sent;
      assert w.enqueued[w.accepted[i].sequence].Event?;
    }
  }

  lemma NumbersAreNotReused(w: World, s: int)
    requires Reachable(w)
    requires s in w.enqueued
    ensures s < w.db.nextSequence
    ensures s in w.db.queue ==> w.db.queue[s].job == w.enqueued[s]
  {
    ReachableIsSound(w);
  }

  /** A request goes out for a live row only. */
  lemma ParkedRowsAreNotSent(w: World)
    requires Reachable(w)
    requires Next(w, Deliver).sent != w.sent
    ensures
      && w.worker.Passing? && w.worker.next < |w.worker.rows|
      && w.worker.rows[w.worker.next].0 in w.db.queue
      && w.db.queue[w.worker.rows[w.worker.next].0].Live()
  {
    ReachableIsSound(w);
  }

  // ----- who may touch a chunk -----

  lemma BeginLeavesChunks(w: World, p: nat, id: Id, now: Time)
    ensures BeginStep(w, p, id, now).db.chunks == w.db.chunks
  {
    hide RecordingBlocked;
  }

  lemma FinishLeavesChunks(w: World, p: nat, ok: bool, now: Time)
    ensures FinishStep(w, p, ok, now).db.chunks == w.db.chunks
  {
    hide Drained;
  }

  lemma SweepLeavesChunks(w: World, k: nat, now: Time)
    ensures SweepFinishStep(w, k, now).db.chunks == w.db.chunks
  {
  }

  lemma DropLeavesChunks(db: Db, s: int)
    ensures DropRow(db, s).chunks == db.chunks
  {
  }

  lemma TransmitLeavesChunks(w: World, row: QueueRow, request: Request)
    requires w.worker.Passing?
    ensures Transmit(w, row, request).db == w.db
  {
    hide Entered;
  }

  lemma EnterLeavesChunks(w: World, phase: Phase)
    requires w.worker.Passing?
    ensures Enter(w, phase).db == w.db
  {
    hide Entered;
  }

  lemma DeliverLeavesChunks(w: World)
    ensures DeliverStep(w).db.chunks == w.db.chunks
  {
    hide PlanOf, DropRow, Jobs, Enter, Transmit;
    if InPhase(w.worker) && w.worker.phase.Attempting? {
      var s, row := w.worker.rows[w.worker.next].0, w.worker.phase.row;
      match PlanOf(w.db, s, row)
      case Drop =>
        DropLeavesChunks(w.db, s);
        EnterLeavesChunks(Commit(w, DropRow(w.db, s)), Settling(row, Done));
      case Wait => EnterLeavesChunks(w, Settling(row, Waiting));
      case Send(request) => TransmitLeavesChunks(w, row, request);
    }
  }

  lemma FailureLeavesChunks(db: Db, s: int, outcome: Outcome, t: Ticks)
    ensures Settle(db, s, outcome, t).0.chunks == db.chunks
  {
    hide BackoffMs;
  }

  lemma SettleLeavesChunks(w: World, t: Ticks)
    ensures SettleStep(w, t).db.chunks == w.db.chunks
  {
    hide Settle;
    if InPhase(w.worker) && w.worker.phase.Settling? {
      FailureLeavesChunks(w.db, w.worker.rows[w.worker.next].0, w.worker.phase.outcome, t);
    }
  }

  lemma RecorderLeavesChunks(w: World, step: Step)
    requires step.TakeLock? || step.DataArrives? || step.AskStop? || step.Interrupt? || step.StreamStops? || step.Leave?
    ensures Next(w, step).db.chunks == w.db.chunks
  {
    hide QueueEventStep, PutCallStep, RetryDeadStep, BeginStep, StoreNextStep, FinishStep, SweepTakeStep, SweepFinishStep,
      WorkerDiesStep, StartPassStep, ScanStep, DeliverStep, AnswerStep, SettleStep, MintStep, KeepStep, AcceptEventStep;
  }

  lemma WorkerLeavesChunks(w: World, step: Step)
    requires step.WorkerDies? || step.StartPass? || step.Scan? || step.SweepTake?
    ensures Next(w, step).db.chunks == w.db.chunks
  {
    hide QueueEventStep, PutCallStep, RetryDeadStep, TakeLockStep, BeginStep, DataArrivesStep, StoreNextStep, StopStep,
      StreamStopsStep, FinishStep, RecorderGone, SweepFinishStep, Scanned, Listed, DeliverStep, AnswerStep, SettleStep,
      MintStep, KeepStep, AcceptEventStep;
  }

  lemma ServerLeavesChunks(w: World, step: Step)
    requires step.Mint? || step.Keep? || step.AcceptEvent?
    ensures Next(w, step).db.chunks == w.db.chunks
  {
    hide QueueEventStep, PutCallStep, RetryDeadStep, TakeLockStep, BeginStep, DataArrivesStep, StoreNextStep, StopStep,
      StreamStopsStep, FinishStep, RecorderGone, SweepTakeStep, SweepFinishStep, WorkerDiesStep, StartPassStep, ScanStep,
      DeliverStep, AnswerStep, SettleStep, IsAccepted;
  }

  lemma OthersLeaveChunks(w: World, step: Step)
    requires !step.StoreNext? && !step.Answer?
    ensures Next(w, step).db.chunks == w.db.chunks
  {
    hide TakeLockStep, BeginStep, DataArrivesStep, StoreNextStep, StopStep, StreamStopsStep, FinishStep, RecorderGone,
      SweepTakeStep, SweepFinishStep, WorkerDiesStep, StartPassStep, ScanStep, DeliverStep, AnswerStep, SettleStep,
      MintStep, KeepStep, AcceptEventStep, Jobs, Requeued;
    match step
    case Begin(p, id, now) => BeginLeavesChunks(w, p, id, now);
    case Finish(p, ok, now) => FinishLeavesChunks(w, p, ok, now);
    case SweepFinish(k, now) => SweepLeavesChunks(w, k, now);
    case Deliver => DeliverLeavesChunks(w);
    case SettleRow(t) => SettleLeavesChunks(w, t);
    case QueueEvent(_, _, _, _) =>
    case PutCall(_, _) =>
    case RetryDead(_) =>
    case SweepTake(_, _) => WorkerLeavesChunks(w, step);
    case WorkerDies => WorkerLeavesChunks(w, step);
    case StartPass(_) => WorkerLeavesChunks(w, step);
    case Scan(_) => WorkerLeavesChunks(w, step);
    case Mint(_, _) => ServerLeavesChunks(w, step);
    case Keep(_) => ServerLeavesChunks(w, step);
    case AcceptEvent(_) => ServerLeavesChunks(w, step);
    case _ => RecorderLeavesChunks(w, step);
  }

  /** An answer takes the chunks of one recording away, or leaves them all. */
  lemma ReceiveOnlyDeletes(db: Db, s: int, row: QueueRow, request: Request, reply: Reply, t: Ticks)
    requires forall k :: k in db.queue ==> k < db.nextSequence
    requires !reply.Unauthorized? && (row.job.Close? ==> request.PostClose?)
    ensures
      var after := Receive(db, s, row, request, reply, t).0;
      && (forall k :: k in after.chunks ==> k in db.chunks && after.chunks[k] == db.chunks[k])
      && (forall k :: k in db.chunks && k !in after.chunks ==>
            && row.job == Close(k.0, row.job.interrupted) && reply.Ok? && reply.body.Completed?
            && reply.body.totals == request.totals == TotalsOf(db.chunks, k.0))
  {
    hide TotalsOf, BackoffMs;
    if row.job.Close? && reply.Ok? && reply.body.Missing? {
      EnqueueSegmentsGrows(db, row.job.recording, reply.body.seqNos,
                           t.now + BackoffMs(row.attempts + 1, t.random), t.now);
    }
  }

  lemma UnauthorizedLeavesDb(w: World, rotated: bool)
    requires InPhase(w.worker)
    ensures UnauthorizedStep(w, rotated).db == w.db
  {
  }

  lemma AnswerOnlyDeletes(w: World, reply: Reply, rotated: bool, t: Ticks)
    requires forall k :: k in w.db.queue ==> k < w.db.nextSequence
    ensures
      var v := AnswerStep(w, reply, rotated, t);
      && (forall k :: k in v.db.chunks ==> k in w.db.chunks && v.db.chunks[k] == w.db.chunks[k])
      && (forall k :: k in w.db.chunks && k !in v.db.chunks ==>
            && Answerable(w, reply)
            && w.worker.phase.row.job.Close? && w.worker.phase.row.job.recording == k.0 && reply.Ok?
            && reply.body.Completed? && reply.body.totals == w.worker.phase.request.totals == TotalsOf(w.db.chunks, k.0))
  {
    hide Receive, TotalsOf, Truthful, Jobs, Entered, UnauthorizedStep;
    if Answerable(w, reply) && reply.Unauthorized? {
      UnauthorizedLeavesDb(w, rotated);
    } else if Answerable(w, reply) && !reply.Unauthorized? {
      ReceiveOnlyDeletes(w.db, w.worker.rows[w.worker.next].0, w.worker.phase.row, w.worker.phase.request, reply, t);
    }
  }

  lemma OthersStoreNothing(w: World, step: Step, k: ChunkKey)
    requires Matches(w.db) && !step.StoreNext? && k in Next(w, step).db.chunks
    ensures k in w.db.chunks && Next(w, step).db.chunks[k] == w.db.chunks[k]
  {
    hide Next, AnswerStep, RowMatches;
    if step.Answer? {
      AnswerIsNext(w, step);
      AnswerOnlyDeletes(w, step.reply, step.tokensRotated, step.t);
    } else {
      OthersLeaveChunks(w, step);
    }
  }

  lemma AnswerIsNext(w: World, step: Step)
    requires step.Answer?
    ensures Next(w, step) == AnswerStep(w, step.reply, step.tokensRotated, step.t)
  {
    hide AnswerStep;
  }

  /** A store writes one chunk, for a recorder that may store, or changes no chunk at all. */
  lemma StoreWritesOne(w: World, p: nat, ok: bool, now: Time)
    ensures
      var v := StoreNextStep(w, p, ok, now);
      if ok && CanStore(w, p) then
        var k := (w.recorders[p].recording.value, w.recorders[p].nextSeq);
        k in v.db.chunks && v.db.chunks == w.db.chunks[k := v.db.chunks[k]]
      else v.db.chunks == w.db.chunks
  {
    hide Jobs;
  }

  lemma StoreNextIsNext(w: World, step: Step)
    requires step.StoreNext?
    ensures Next(w, step) == StoreNextStep(w, step.recorder, step.ok, step.now)
  {
    hide StoreNextStep;
  }

  /** Audio is deleted only when a closing recording's manifest is confirmed, and all of it is there. */
  lemma OnlyConfirmedAudioIsDeleted(w: World, step: Step, k: ChunkKey)
    requires Reachable(w)
    requires k in w.db.chunks && k !in Next(w, step).db.chunks
    ensures
      && k.0 in w.db.recordings && w.db.recordings[k.0].status == Closing && w.db.recordings[k.0].remoteId.Some?
      && FullyUploaded(w, k.0) && CopiedExactly(w, k.0)
  {
    hide Reachable, Next, AnswerStep, FullyUploaded;
    ReachableIsSound(w);
    if step.Answer? {
      AnswerIsNext(w, step);
      AnswerOnlyDeletes(w, step.reply, step.tokensRotated, step.t);
      DeletedIsConfirmed(w, step.reply, k);
    } else if step.StoreNext? {
      StoreNextIsNext(w, step);
      StoreWritesOne(w, step.recorder, step.ok, step.now);
    } else {
      OthersLeaveChunks(w, step);
    }
  }

  /** The close in flight is of a closing recording that the server knows by the id it was sent to. */
  lemma CloseInFlight(w: World, reply: Reply)
    requires PhaseSound(w) && Answerable(w, reply) && w.worker.phase.row.job.Close?
    requires reply.Ok? && reply.body.Completed?
    ensures
      var r := w.worker.phase.row.job.recording;
      && r in w.db.recordings && w.db.recordings[r].status == Closing
      && w.db.recordings[r].remoteId == Some(w.worker.phase.request.remoteId)
      && Holds(w.segments, w.worker.phase.request.remoteId, reply.body.totals)
  {
    hide Holds, NoSegment;
  }

  lemma DeletedIsConfirmed(w: World, reply: Reply, k: ChunkKey)
    requires Inv(w) && Answerable(w, reply) && k in w.db.chunks
    requires w.worker.phase.row.job.Close? && w.worker.phase.row.job.recording == k.0 && reply.Ok?
    requires reply.body.Completed? && reply.body.totals == w.worker.phase.request.totals == TotalsOf(w.db.chunks, k.0)
    ensures k.0 in w.db.recordings && w.db.recordings[k.0].status == Closing && w.db.recordings[k.0].remoteId.Some?
    ensures FullyUploaded(w, k.0) && CopiedExactly(w, k.0)
  {
    hide TotalsOf, SnapshotSound, OrderSound, EventsConserved, HistorySound, LocksSound, RecordersSound, PhaseSound, Holds,
      Matches, RemoteAudioSound, CompleteSound, Truthful;
    CloseInFlight(w, reply);
    ConfirmedMeansUploaded(w, k.0, w.worker.phase.request.remoteId, reply.body.totals);
    OneOwner(w, k.0);
  }
}
