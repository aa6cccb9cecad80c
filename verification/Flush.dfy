/** A flush against a server that works delivers everything. */
module Flush {
  import opened Domain
  import opened Store
  import opened Delivery
  import opened Correspondence
  import opened Pass
  import opened Termination

  // ----- every pass keeps the correspondence of the rows, whatever the server says -----

  lemma DeliveredKeeps(db: Db, s: int, row: QueueRow, reply: Reply, t: Ticks)
    requires Matches(db) && s in db.queue && db.queue[s] == row
    ensures Matches(Delivered(db, s, row, reply, t).0)
  {
    hide Matches, Receive, RowMatches, TotalsOf;
    NothingToDrop(db, s, row);
    if PlanOf(db, s, row).Send? && !reply.Unauthorized? {
      CloseIsReady(db, s, row);
      ReceiveKeeps(db, s, row, PlanOf(db, s, row).request, reply, t);
    }
  }

  lemma CloseIsReady(db: Db, s: int, row: QueueRow)
    requires Matches(db) && s in db.queue && db.queue[s] == row && PlanOf(db, s, row).Send?
    ensures row.job.Close? ==> PlanOf(db, s, row).request.PostClose? && ReadyToComplete(db, row.job.recording)
  {
    hide TotalsOf;
    if row.job.Close? { assert RowMatches(db, row.job.recording); }
  }

  lemma VisitKeeps(st: PassState, s: int, queued: QueueRow, force: bool, answer: Answer)
    requires Matches(st.db)
    ensures Matches(Visited(st, s, queued, force, answer).db)
  {
    hide Matches, Delivered, Settle;
    if Choose(st.db.queue, st.held, force, s, queued, answer.scannedAt).Pick? {
      var row := st.db.queue[s];
      DeliveredKeeps(st.db, s, row, answer.first, answer.t);
      var (after, outcome) := Delivered(st.db, s, row, answer.first, answer.t);
      if outcome.None? && !st.refreshed && answer.rotated {
        MatchesNumbers(st.db);
        DeliveredAgain(st.db, after, s, row, answer);
        DeliveredKeeps(after, s, row, answer.second, answer.t);
      }
      var tried := Attempted(st.db, s, row, st.refreshed, answer);
      if tried.outcome.Some? { SettleKeeps(tried.db, s, tried.outcome.value, answer.t); }
    }
  }

  lemma MatchesNumbers(db: Db)
    requires Matches(db)
    ensures Numbered(db)
  {
  }

  lemma {:induction false} PassFromKeeps(st: PassState, rows: Listing, force: bool, answers: int -> Answer)
    requires Matches(st.db)
    ensures Matches(PassFrom(st, rows, force, answers).db)
    decreases |rows|
  {
    hide Matches, Visited;
    if rows != [] && !st.ended {
      VisitKeeps(st, rows[0].0, rows[0].1, force, answers(rows[0].0));
      PassFromKeeps(Visited(st, rows[0].0, rows[0].1, force, answers(rows[0].0)), rows[1..], force, answers);
    }
  }

  // ----- a server that works -----

  /** The reply of a server that takes what it is sent and has all of it. */
  predicate Works(chunks: map<ChunkKey, ChunkRow>, job: Job, reply: Reply) {
    reply.Ok? &&
      match job
      case Event(_, _, _) => true
      case CreateRecording(_) => reply.body.Created? && reply.body.recordingId != ""
      case Segment(_, _) => reply.body.Uploaded?
      case Close(r, _) => reply.body == Completed(TotalsOf(chunks, r))
  }

  /** Nothing is parked, and no create job was answered with an empty id. */
  predicate Healthy(db: Db) {
    && (forall s :: s in db.queue ==> db.queue[s].Live())
    && (forall r :: r in db.recordings && db.recordings[r].remoteId.Some? ==> db.recordings[r].remoteId.value != "")
  }

  predicate AllWork(db: Db, rows: Listing, answers: int -> Answer) {
    forall i :: 0 <= i < |rows| ==> Works(db.chunks, rows[i].1.job, answers(rows[i].0).first)
  }

  /** No recording is lost, and none starts or stops running. */
  ghost predicate Onward(before: Db, after: Db) {
    forall r :: r in before.recordings ==>
      r in after.recordings && (after.recordings[r].status == Recording <==> before.recordings[r].status == Recording)
  }

  /** Chunks are only deleted, and only those of the recording that `job` closes. */
  ghost predicate DeletesFor(before: Db, after: Db, job: Job) {
    && (forall k :: k in after.chunks ==> k in before.chunks && after.chunks[k] == before.chunks[k])
    && (forall k :: k in before.chunks && k !in after.chunks ==> IsCloseOf(job, k.0))
  }

  /** Against such a server an attempt is done or waits, and what waits changes nothing. */
  lemma WorkingDelivery(db: Db, s: int, row: QueueRow, reply: Reply, t: Ticks)
    requires Matches(db) && Healthy(db) && s in db.queue && db.queue[s] == row
    requires Works(db.chunks, row.job, reply)
    ensures
      var (after, outcome) := Delivered(db, s, row, reply, t);
      && outcome.Some?
      && (outcome.value.Waiting? || outcome.value.Done?)
      && (outcome.value.Waiting? ==> after == db && PlanOf(db, s, row).Wait?)
      && Healthy(after) && Onward(db, after) && DeletesFor(db, after, row.job)
  {
    hide TotalsOf, Uploadable, SegmentsLeft, Healthy, Onward, DeletesFor;
    var r := if row.job.Event? then "" else row.job.recording;
    if row.job.Close? {
      assert RowMatches(db, r);
      CompletionIsHealthy(db, s, r, TotalsOf(db.chunks, r));
    } else {
      DropIsHealthy(db, s, row.job);
      if row.job.CreateRecording? { CreationIsHealthy(db, s, r, reply); }
    }
    NothingIsHealthy(db, row.job);
  }

  lemma NothingIsHealthy(db: Db, job: Job)
    ensures Onward(db, db) && DeletesFor(db, db, job)
  {
  }

  lemma DropIsHealthy(db: Db, s: int, job: Job)
    requires Healthy(db)
    ensures Healthy(DropRow(db, s)) && Onward(db, DropRow(db, s)) && DeletesFor(db, DropRow(db, s), job)
  {
  }

  lemma CreationIsHealthy(db: Db, s: int, r: Id, reply: Reply)
    requires Healthy(db) && Works(db.chunks, CreateRecording(r), reply)
    ensures
      var after := StoreRemoteId(db, s, r, reply.body.recordingId);
      Healthy(after) && Onward(db, after) && DeletesFor(db, after, CreateRecording(r))
  {
  }

  lemma CompletionIsHealthy(db: Db, s: int, r: Id, totals: Totals)
    requires Healthy(db) && (r in db.recordings ==> db.recordings[r].status == Closing)
    ensures
      var after := CompleteRecording(db, s, r, totals).0;
      Healthy(after) && Onward(db, after) && forall interrupted :: DeletesFor(db, after, Close(r, interrupted))
  {
    hide TotalsOf;
  }

  lemma WorkingVisit(st: PassState, s: int, queued: QueueRow, answer: Answer)
    requires Matches(st.db) && Healthy(st.db) && s in st.db.queue && st.db.queue[s] == queued
    requires st.held == {} && !st.ended && Works(st.db.chunks, queued.job, answer.first)
    ensures
      var after := Visited(st, s, queued, true, answer);
      && after.held == {} && !after.ended
      && Healthy(after.db) && Onward(st.db, after.db) && DeletesFor(st.db, after.db, queued.job)
      && (st.progressed ==> after.progressed)
      && (!after.progressed ==> after.db == st.db && PlanOf(st.db, s, queued).Wait?)
  {
    hide Delivered, Matches, Healthy, Onward, DeletesFor, Works, RecordFailure;
    assert queued.Live() by { HealthyMeansLive(st.db, s); }
    WorkingDelivery(st.db, s, queued, answer.first, answer.t);
  }

  lemma HealthyMeansLive(db: Db, s: int)
    requires Healthy(db) && s in db.queue
    ensures db.queue[s].Live()
  {
  }

  /** A recording has one close, so the manifests still to come stay what they were. */
  lemma WorkStays(before: Db, after: Db, rows: Listing, answers: int -> Answer)
    requires Matches(before) && Intact(before, rows) && rows != [] && AllWork(before, rows, answers)
    requires DeletesFor(before, after, rows[0].1.job)
    ensures AllWork(after, rows[1..], answers)
  {
    hide TotalsOf;
    forall i | 0 < i < |rows| ensures Works(after.chunks, rows[i].1.job, answers(rows[i].0).first) {
      var job := rows[i].1.job;
      if job.Close? {
        assert JobMatches(before, job) && RowMatches(before, job.recording);
        assert !IsCloseOf(rows[0].1.job, job.recording);
        TotalsLocal(before.chunks, after.chunks, job.recording);
      }
    }
  }

  lemma OnwardTransitive(a: Db, b: Db, c: Db)
    requires Onward(a, b) && Onward(b, c)
    ensures Onward(a, c)
  {
  }

  lemma {:induction false} WorkingPass(st: PassState, rows: Listing, answers: int -> Answer)
    requires Matches(st.db) && Healthy(st.db) && Intact(st.db, rows) && AllWork(st.db, rows, answers)
    requires st.held == {} && !st.ended
    ensures
      var after := PassFrom(st, rows, true, answers);
      && Healthy(after.db) && Onward(st.db, after.db)
      && (st.progressed ==> after.progressed)
      && (!after.progressed ==>
            && after.db == st.db
            && forall i :: 0 <= i < |rows| ==> PlanOf(st.db, rows[i].0, rows[i].1).Wait?)
    decreases |rows|
  {
    hide Matches, Healthy, DeletesFor, Works, Visited, PlanOf;
    if rows != [] {
      var (s, queued) := rows[0];
      var next := Visited(st, s, queued, true, answers(s));
      WorkingVisit(st, s, queued, answers(s));
      VisitKeeps(st, s, queued, true, answers(s));
      MatchesNumbers(st.db);
      VisitLeavesIntact(st, rows, true, answers(s));
      WorkStays(st.db, next.db, rows, answers);
      WorkingPass(next, rows[1..], answers);
      OnwardTransitive(st.db, next.db, PassFrom(next, rows[1..], true, answers).db);
    }
  }

  // ----- the flush -----

  /** The server works during every pass of the flush. */
  predicate Working(db: Db, network: Network, n: nat)
    requires Numbered(db)
    decreases CloseBudget(db), LiveRows(db)
  {
    var (ready, answers) := network(n);
    var pass := PassOf(db, ready, true, answers);
    ProgressShrinks(db, ready, true, answers);
    ready && AllWork(db, Listed(db.queue), answers) && (pass.progressed ==> Working(pass.db, network, n + 1))
  }

  /** When every row waits, there is none: the create goes before the segments, and those before the close. */
  lemma NobodyWaitsForever(db: Db)
    requires Matches(db) && Healthy(db)
    requires forall s :: s in db.queue ==> PlanOf(db, s, db.queue[s]).Wait?
    ensures db.queue == map[]
    ensures forall r :: r in db.recordings ==> db.recordings[r].remoteId.Some? && db.recordings[r].status != Closing
  {
    hide TotalsOf;
    forall s | s in db.queue ensures !db.queue[s].job.CreateRecording? && !db.queue[s].job.Event? {
      assert JobMatches(db, db.queue[s].job) && PlanOf(db, s, db.queue[s]).Wait?;
    }
    forall r | r in db.recordings ensures Uploadable(db, r) { assert RowMatches(db, r); }
    forall s | s in db.queue ensures db.queue[s].job.Close? { assert JobMatches(db, db.queue[s].job); }
    assert forall s :: s !in db.queue;
    forall r | r in db.recordings ensures db.recordings[r].status != Closing { assert RowMatches(db, r); }
  }

  lemma {:induction false} FlushDelivers(db: Db, network: Network, n: nat)
    requires Matches(db) && Healthy(db) && Working(db, network, n)
    ensures
      var idle := UntilIdle(db, true, network, n).0;
      && Matches(idle) && idle.queue == map[]
      && (forall r :: r in db.recordings ==>
            && r in idle.recordings && idle.recordings[r].remoteId.Some?
            && idle.recordings[r].status == (if db.recordings[r].status == Recording then Recording else Complete))
    decreases CloseBudget(db), LiveRows(db)
  {
    hide Matches, Healthy, PassFrom, AllWork, PlanOf, CloseBudget, LiveRows, Shrunk;
    MatchesNumbers(db);
    var (ready, answers) := network(n);
    var pass := PassOf(db, ready, true, answers);
    var rows := Listed(db.queue);
    ProgressShrinks(db, ready, true, answers);
    ListedIntact(db);
    WorkingPass(Pass.Begun(db), rows, answers);
    PassFromKeeps(Pass.Begun(db), rows, true, answers);
    if pass.progressed {
      FlushDelivers(pass.db, network, n + 1);
    } else {
      forall s | s in db.queue ensures PlanOf(db, s, db.queue[s]).Wait? {
        assert s in SortedKeys(db.queue.Keys);
      }
      NobodyWaitsForever(db);
    }
  }

  /**
   * Why no remote id may be empty: the create job counts it as an id and leaves the queue, the others
   * count it as none, so every row that is left of the recording waits in every pass.
   */
  lemma EmptyRemoteIdStalls(db: Db, r: Id, s: int)
    requires Matches(db) && r in db.recordings && db.recordings[r].remoteId == Some("")
    requires s in db.queue && LaneOf(db.queue[s].job) == RecordingLane(r)
    ensures PlanOf(db, s, db.queue[s]) == Wait
  {
    hide TotalsOf;
    assert RowMatches(db, r) && JobMatches(db, db.queue[s].job);
    NothingToDrop(db, s, db.queue[s]);
  }
}
