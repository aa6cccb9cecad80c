/** Lanes do not interfere: what a pass does to one lane does not depend on the others. */
module Lanes {
  import opened Domain
  import opened Store
  import opened Delivery
  import opened Correspondence
  import opened Pass

  // ----- what belongs to a lane -----

  /** The lane's rows numbered `lo` to `hi - 1`, in order and without their numbers. */
  function Queued(queue: map<int, QueueRow>, lane: Lane, lo: int, hi: int): seq<QueueRow>
    decreases hi - lo
  {
    if hi <= lo then []
    else Queued(queue, lane, lo, hi - 1)
         + if hi - 1 in queue && LaneOf(queue[hi - 1].job) == lane then [queue[hi - 1]] else []
  }

  /**
   * Two stores look the same to a lane: the rows numbered below `base`, the rows added
   * since, in order, and the recording and its chunks. The numbers of added rows may differ.
   */
  ghost predicate SameLane(a: Db, b: Db, lane: Lane, base: int) {
    && (forall s :: s < base ==>
          (s in a.queue && LaneOf(a.queue[s].job) == lane <==> s in b.queue && LaneOf(b.queue[s].job) == lane))
    && (forall s :: s < base && s in a.queue && LaneOf(a.queue[s].job) == lane ==> b.queue[s] == a.queue[s])
    && base <= a.nextSequence && base <= b.nextSequence
    && Queued(a.queue, lane, base, a.nextSequence) == Queued(b.queue, lane, base, b.nextSequence)
    && (lane.RecordingLane? ==> SameRecording(a, b, lane.recording))
  }

  ghost predicate SameRecording(a: Db, b: Db, r: Id) {
    && (r in a.recordings <==> r in b.recordings)
    && (r in a.recordings ==> b.recordings[r] == a.recordings[r])
    && (forall i: nat :: (r, i) in a.chunks <==> (r, i) in b.chunks)
    && (forall i: nat :: (r, i) in a.chunks ==> b.chunks[(r, i)] == a.chunks[(r, i)])
  }

  function LaneRows(rows: Listing, lane: Lane): Listing {
    if rows == [] then []
    else (if LaneOf(rows[0].1.job) == lane then [rows[0]] else []) + LaneRows(rows[1..], lane)
  }

  function LaneLog(log: seq<Entry>, lane: Lane): seq<Entry> {
    if log == [] then []
    else LaneLog(log[..|log| - 1], lane)
         + if LaneOf(log[|log| - 1].row.job) == lane then [log[|log| - 1]] else []
  }

  /** Where two passes stand, as seen by a lane. */
  ghost predicate SameState(a: PassState, b: PassState, lane: Lane, base: int) {
    && SameLane(a.db, b.db, lane, base)
    && (lane in a.held <==> lane in b.held)
    && LaneLog(a.log, lane) == LaneLog(b.log, lane)
    && !a.ended && !b.ended
  }

  // ----- a turn for another lane leaves this one alone -----

  /** Row `s` and rows of other lanes may differ, and rows of other lanes may be new. */
  ghost predicate Elsewhere(a: Db, b: Db, lane: Lane, s: int) {
    && a.nextSequence <= b.nextSequence
    && (forall k :: k in a.queue && k != s ==> k in b.queue && b.queue[k] == a.queue[k])
    && (forall k :: k in b.queue && k !in a.queue ==> a.nextSequence <= k && LaneOf(b.queue[k].job) != lane)
    && (s in b.queue ==> LaneOf(b.queue[s].job) != lane)
    && (lane.RecordingLane? ==> SameRecording(a, b, lane.recording))
  }

  lemma {:induction false} QueuedElsewhere(a: Db, b: Db, lane: Lane, s: int, lo: int, hi: int)
    requires Elsewhere(a, b, lane, s) && (s in a.queue ==> LaneOf(a.queue[s].job) != lane)
    ensures Queued(a.queue, lane, lo, hi) == Queued(b.queue, lane, lo, hi)
    decreases hi - lo
  {
    if lo < hi { QueuedElsewhere(a, b, lane, s, lo, hi - 1); }
  }

  lemma {:induction false} QueuedBeyond(b: Db, lane: Lane, lo: int, from: int, hi: int)
    requires lo <= from <= hi
    requires forall k :: k in b.queue && from <= k ==> LaneOf(b.queue[k].job) != lane
    ensures Queued(b.queue, lane, lo, hi) == Queued(b.queue, lane, lo, from)
    decreases hi - from
  {
    if from < hi { QueuedBeyond(b, lane, lo, from, hi - 1); }
  }

  lemma ElsewhereIsSame(a: Db, b: Db, lane: Lane, base: int, s: int)
    requires Numbered(a) && base <= a.nextSequence
    requires Elsewhere(a, b, lane, s) && s in a.queue && LaneOf(a.queue[s].job) != lane
    ensures SameLane(a, b, lane, base)
  {
    QueuedElsewhere(a, b, lane, s, base, a.nextSequence);
    assert forall k :: k in b.queue && a.nextSequence <= k ==> LaneOf(b.queue[k].job) != lane;
    QueuedBeyond(b, lane, base, a.nextSequence, b.nextSequence);
  }

  lemma SameLaneTransitive(a: Db, b: Db, c: Db, lane: Lane, base: int)
    requires SameLane(a, b, lane, base) && SameLane(b, c, lane, base)
    ensures SameLane(a, c, lane, base)
  {
  }

  lemma SameLaneSymmetric(a: Db, b: Db, lane: Lane, base: int)
    requires SameLane(a, b, lane, base)
    ensures SameLane(b, a, lane, base)
  {
  }

  lemma {:induction false} EnqueueElsewhere(db: Db, r: Id, missing: seq<nat>, dueAt: Time, now: Time, lane: Lane, s: int)
    requires Numbered(db) && s < db.nextSequence && lane != RecordingLane(r)
    ensures
      var after := EnqueueSegments(db, r, missing, dueAt, now);
      && db.nextSequence <= after.nextSequence && after.recordings == db.recordings && after.chunks == db.chunks
      && (forall k :: k in db.queue ==> k in after.queue && after.queue[k] == db.queue[k])
      && (forall k :: k in after.queue && k !in db.queue ==> db.nextSequence <= k && LaneOf(after.queue[k].job) != lane)
    decreases |missing|
  {
    if missing == [] {
    } else {
      EnqueueElsewhere(Enqueue(db, Segment(r, missing[0]), Some(dueAt), now), r, missing[1..], dueAt, now, lane, s);
    }
  }

  lemma DeliveredElsewhere(db: Db, s: int, row: QueueRow, reply: Reply, t: Ticks, lane: Lane)
    requires Numbered(db) && s in db.queue && db.queue[s] == row && LaneOf(row.job) != lane
    ensures Elsewhere(db, Delivered(db, s, row, reply, t).0, lane, s)
  {
    hide BackoffMs, TotalsOf, Uploadable, SegmentsLeft, SameRecording;
    if row.job.Close? && reply.Ok? && reply.body.Missing? {
      EnqueueElsewhere(db, row.job.recording, reply.body.seqNos,
                       t.now + BackoffMs(row.attempts + 1, t.random), t.now, lane, s);
    }
    if lane.RecordingLane? { OtherRecordingStays(db, s, row, reply, t, lane.recording); }
  }

  lemma OtherRecordingStays(db: Db, s: int, row: QueueRow, reply: Reply, t: Ticks, r: Id)
    requires Numbered(db) && s in db.queue && LaneOf(row.job) != RecordingLane(r)
    ensures SameRecording(db, Delivered(db, s, row, reply, t).0, r)
  {
    hide BackoffMs, TotalsOf, Uploadable, SegmentsLeft;
    if row.job.Close? && reply.Ok? && reply.body.Missing? {
      EnqueueElsewhere(db, row.job.recording, reply.body.seqNos,
                       t.now + BackoffMs(row.attempts + 1, t.random), t.now, RecordingLane(r), s);
    }
  }

  lemma SettledElsewhere(a: Db, b: Db, s: int, outcome: Outcome, t: Ticks, lane: Lane)
    requires Elsewhere(a, b, lane, s)
    ensures Elsewhere(a, Settle(b, s, outcome, t).0, lane, s)
  {
    hide BackoffMs, IsHeartbeat, SameRecording;
    if lane.RecordingLane? { SettledRecording(a, b, s, outcome, t, lane.recording); }
  }

  lemma SettledRecording(a: Db, b: Db, s: int, outcome: Outcome, t: Ticks, r: Id)
    requires SameRecording(a, b, r)
    ensures SameRecording(a, Settle(b, s, outcome, t).0, r)
  {
    hide Failed;
  }

  predicate NoneUnauthorized(rows: Listing, answers: int -> Answer) {
    forall i :: 0 <= i < |rows| ==> !answers(rows[i].0).first.Unauthorized?
  }

  lemma VisitElsewhere(a: PassState, b: PassState, s: int, queued: QueueRow, force: bool, answer: Answer, lane: Lane, base: int)
    requires SameState(a, b, lane, base) && Numbered(a.db)
    requires s in a.db.queue && a.db.queue[s] == queued && LaneOf(queued.job) != lane
    requires !answer.first.Unauthorized?
    ensures SameState(Visited(a, s, queued, force, answer), b, lane, base)
  {
    hide Delivered, Settle, SameLane;
    if Choose(a.db.queue, a.held, force, s, queued, answer.scannedAt).Pick? {
      DeliveredElsewhere(a.db, s, queued, answer.first, answer.t, lane);
      AnswersWithoutRecovery(a.db, s, queued, answer);
      var (after, outcome) := Delivered(a.db, s, queued, answer.first, answer.t);
      SettledElsewhere(a.db, after, s, outcome.value, answer.t, lane);
      var settled := Settle(after, s, outcome.value, answer.t).0;
      assert base <= a.db.nextSequence by { SameLaneBase(a.db, b.db, lane, base); }
      ElsewhereIsSame(a.db, settled, lane, base, s);
      SameLaneSymmetric(a.db, settled, lane, base);
      SameLaneTransitive(settled, a.db, b.db, lane, base);
    }
  }

  lemma SameLaneBase(a: Db, b: Db, lane: Lane, base: int)
    requires SameLane(a, b, lane, base)
    ensures base <= a.nextSequence
  {
  }

  lemma AnswersWithoutRecovery(db: Db, s: int, row: QueueRow, answer: Answer)
    requires !answer.first.Unauthorized?
    ensures Delivered(db, s, row, answer.first, answer.t).1.Some?
  {
    hide Receive, PlanOf;
  }

  // ----- a turn for this lane goes the same in both -----

  lemma {:induction false} QueuedHolds(queue: map<int, QueueRow>, lane: Lane, lo: int, hi: int, row: QueueRow)
    ensures row in Queued(queue, lane, lo, hi)
            <==> exists s :: lo <= s < hi && s in queue && LaneOf(queue[s].job) == lane && queue[s] == row
    decreases hi - lo
  {
    if lo < hi { QueuedHolds(queue, lane, lo, hi - 1, row); }
  }

  lemma SegmentsLeftCarries(a: Db, b: Db, r: Id, base: int)
    requires SameLane(a, b, RecordingLane(r), base) && Numbered(a) && Numbered(b)
    requires SegmentsLeft(a.queue, r)
    ensures SegmentsLeft(b.queue, r)
  {
    var lane := RecordingLane(r);
    var s :| s in a.queue && IsSegmentOf(a.queue[s].job, r);
    if s < base {
      assert b.queue[s] == a.queue[s];
    } else {
      QueuedHolds(a.queue, lane, base, a.nextSequence, a.queue[s]);
      QueuedHolds(b.queue, lane, base, b.nextSequence, a.queue[s]);
    }
  }

  lemma TotalsAgree(a: Db, b: Db, r: Id)
    requires SameRecording(a, b, r)
    ensures TotalsOf(a.chunks, r) == TotalsOf(b.chunks, r)
  {
    hide TotalsOf;
    forall k: ChunkKey | k.0 == r ensures (k in a.chunks <==> k in b.chunks) && (k in a.chunks ==> a.chunks[k] == b.chunks[k]) {
      assert k == (r, k.1);
    }
    TotalsLocal(a.chunks, b.chunks, r);
  }

  lemma SamePlan(a: Db, b: Db, s: int, row: QueueRow, base: int)
    requires SameLane(a, b, LaneOf(row.job), base) && Numbered(a) && Numbered(b)
    ensures PlanOf(a, s, row) == PlanOf(b, s, row)
  {
    hide TotalsOf, SegmentsLeft, Queued;
    if row.job.Close? {
      var r := row.job.recording;
      TotalsAgree(a, b, r);
      if SegmentsLeft(a.queue, r) { SegmentsLeftCarries(a, b, r, base); }
      SameLaneSymmetric(a, b, LaneOf(row.job), base);
      if SegmentsLeft(b.queue, r) { SegmentsLeftCarries(b, a, r, base); }
    }
  }

  lemma {:induction false} QueuedUnchanged(q: map<int, QueueRow>, p: map<int, QueueRow>, lane: Lane, lo: int, hi: int)
    requires forall k :: lo <= k < hi ==> (k in q <==> k in p) && (k in q ==> p[k] == q[k])
    ensures Queued(q, lane, lo, hi) == Queued(p, lane, lo, hi)
    decreases hi - lo
  {
    if lo < hi { QueuedUnchanged(q, p, lane, lo, hi - 1); }
  }

  /** Both stores treat row `s` alike, and nothing else of theirs changes. */
  lemma SameRowChange(a: Db, b: Db, a': Db, b': Db, lane: Lane, base: int, s: int)
    requires SameLane(a, b, lane, base) && s < base
    requires forall k :: k != s ==> (k in a.queue <==> k in a'.queue) && (k in a.queue ==> a'.queue[k] == a.queue[k])
    requires forall k :: k != s ==> (k in b.queue <==> k in b'.queue) && (k in b.queue ==> b'.queue[k] == b.queue[k])
    requires s in a'.queue <==> s in b'.queue
    requires s in a'.queue ==> a'.queue[s] == b'.queue[s]
    requires a'.nextSequence == a.nextSequence && b'.nextSequence == b.nextSequence
    requires lane.RecordingLane? ==> SameRecording(a', b', lane.recording)
    ensures SameLane(a', b', lane, base)
  {
    QueuedUnchanged(a.queue, a'.queue, lane, base, a.nextSequence);
    QueuedUnchanged(b.queue, b'.queue, lane, base, b.nextSequence);
  }

  lemma SameEnqueue(a: Db, b: Db, job: Job, due: Time, now: Time, lane: Lane, base: int)
    requires SameLane(a, b, lane, base) && Numbered(a) && Numbered(b) && LaneOf(job) == lane
    ensures SameLane(Enqueue(a, job, Some(due), now), Enqueue(b, job, Some(due), now), lane, base)
  {
    var a', b' := Enqueue(a, job, Some(due), now), Enqueue(b, job, Some(due), now);
    QueuedUnchanged(a.queue, a'.queue, lane, base, a.nextSequence);
    QueuedUnchanged(b.queue, b'.queue, lane, base, b.nextSequence);
  }

  lemma {:induction false} SameRequeue(a: Db, b: Db, r: Id, missing: seq<nat>, due: Time, now: Time, base: int)
    requires SameLane(a, b, RecordingLane(r), base) && Numbered(a) && Numbered(b)
    ensures SameLane(EnqueueSegments(a, r, missing, due, now), EnqueueSegments(b, r, missing, due, now), RecordingLane(r), base)
    decreases |missing|
  {
    hide SameLane;
    if missing == [] {
    } else {
      var job := Segment(r, missing[0]);
      SameEnqueue(a, b, job, due, now, RecordingLane(r), base);
      SameRequeue(Enqueue(a, job, Some(due), now), Enqueue(b, job, Some(due), now), r, missing[1..], due, now, base);
    }
  }

  lemma SameComplete(a: Db, b: Db, s: int, r: Id, totals: Totals, base: int)
    requires SameLane(a, b, RecordingLane(r), base) && s < base
    ensures CompleteRecording(a, s, r, totals).1 == CompleteRecording(b, s, r, totals).1
    ensures SameLane(CompleteRecording(a, s, r, totals).0, CompleteRecording(b, s, r, totals).0, RecordingLane(r), base)
  {
    hide TotalsOf, Queued;
    TotalsAgree(a, b, r);
    if TotalsOf(a.chunks, r) == totals {
      SameRowChange(a, b, CompleteRecording(a, s, r, totals).0, CompleteRecording(b, s, r, totals).0, RecordingLane(r), base, s);
    }
  }

  lemma SameReceive(a: Db, b: Db, s: int, row: QueueRow, request: Request, reply: Reply, t: Ticks, base: int)
    requires SameLane(a, b, LaneOf(row.job), base) && Numbered(a) && Numbered(b) && s < base
    requires !reply.Unauthorized? && (row.job.Close? ==> request.PostClose?)
    ensures
      var after, also := Receive(a, s, row, request, reply, t), Receive(b, s, row, request, reply, t);
      after.1 == also.1 && SameLane(after.0, also.0, LaneOf(row.job), base)
  {
    hide TotalsOf, BackoffMs, Queued, SameLane, CompleteRecording;
    if reply.Ok? {
      match row.job
      case Event(_, _, _) => SameDrop(a, b, LaneOf(row.job), base, s);
      case Segment(_, _) => SameDrop(a, b, LaneOf(row.job), base, s);
      case CreateRecording(r) =>
        if reply.body.Created? { SameRemoteId(a, b, s, r, reply.body.recordingId, base); }
      case Close(r, _) =>
        match reply.body
        case Missing(missing) =>
          SameRequeue(a, b, r, missing, t.now + BackoffMs(row.attempts + 1, t.random), t.now, base);
          SameGone(a, b, r, missing, base);
        case _ => SameComplete(a, b, s, r, request.totals, base);
    }
  }

  lemma SameGone(a: Db, b: Db, r: Id, missing: seq<nat>, base: int)
    requires SameLane(a, b, RecordingLane(r), base)
    ensures (exists i :: i in missing && (r, i) !in a.chunks) <==> (exists i :: i in missing && (r, i) !in b.chunks)
  {
  }

  lemma SameDrop(a: Db, b: Db, lane: Lane, base: int, s: int)
    requires SameLane(a, b, lane, base) && s < base
    ensures SameLane(DropRow(a, s), DropRow(b, s), lane, base)
  {
    SameRowChange(a, b, DropRow(a, s), DropRow(b, s), lane, base, s);
  }

  lemma SameRemoteId(a: Db, b: Db, s: int, r: Id, remoteId: Id, base: int)
    requires SameLane(a, b, RecordingLane(r), base) && s < base
    ensures SameLane(StoreRemoteId(a, s, r, remoteId), StoreRemoteId(b, s, r, remoteId), RecordingLane(r), base)
  {
    SameRowChange(a, b, StoreRemoteId(a, s, r, remoteId), StoreRemoteId(b, s, r, remoteId), RecordingLane(r), base, s);
  }

  lemma SameDelivered(a: Db, b: Db, s: int, row: QueueRow, reply: Reply, t: Ticks, base: int)
    requires SameLane(a, b, LaneOf(row.job), base) && Numbered(a) && Numbered(b) && s < base
    ensures
      var after, also := Delivered(a, s, row, reply, t), Delivered(b, s, row, reply, t);
      after.1 == also.1 && SameLane(after.0, also.0, LaneOf(row.job), base)
  {
    hide Receive, SameLane, TotalsOf, Uploadable, SegmentsLeft;
    SamePlan(a, b, s, row, base);
    SameDrop(a, b, LaneOf(row.job), base, s);
    if PlanOf(a, s, row).Send? && !reply.Unauthorized? {
      SameReceive(a, b, s, row, PlanOf(a, s, row).request, reply, t, base);
    }
  }

  lemma SameReplace(a: Db, b: Db, s: int, row: Option<QueueRow>, lane: Lane, base: int)
    requires SameLane(a, b, lane, base) && s < base
    ensures SameLane(Replace(a, s, row), Replace(b, s, row), lane, base)
  {
    hide SameLane;
    SameRecordings(a, b, lane, base);
    SameRowChange(a, b, Replace(a, s, row), Replace(b, s, row), lane, base, s);
  }

  lemma SameFailure(a: Db, b: Db, s: int, rejected: bool, error: string, t: Ticks, lane: Lane, base: int)
    requires SameLane(a, b, lane, base) && s < base
    requires s in a.queue <==> s in b.queue
    requires s in a.queue ==> a.queue[s] == b.queue[s]
    ensures
      var after := RecordFailure(a, s, rejected, error, t.now, t.random);
      var also := RecordFailure(b, s, rejected, error, t.now, t.random);
      after.1 == also.1 && SameLane(after.0, also.0, lane, base)
  {
    hide Failed, SameLane, Replace;
    if s in a.queue { SameReplace(a, b, s, Failed(a.queue[s], rejected, error, t.now, t.random).0, lane, base); }
  }

  lemma SameRecordings(a: Db, b: Db, lane: Lane, base: int)
    requires SameLane(a, b, lane, base)
    ensures lane.RecordingLane? ==> SameRecording(a, b, lane.recording)
  {
  }

  lemma SameSettle(a: Db, b: Db, s: int, outcome: Outcome, t: Ticks, lane: Lane, base: int)
    requires SameLane(a, b, lane, base) && s < base
    requires s in a.queue <==> s in b.queue
    requires s in a.queue ==> a.queue[s] == b.queue[s]
    ensures
      var after, also := Settle(a, s, outcome, t), Settle(b, s, outcome, t);
      after.1 == also.1 && SameLane(after.0, also.0, lane, base)
  {
    hide SameLane, RecordFailure;
    match outcome
    case Retry(error) => SameFailure(a, b, s, false, error, t, lane, base);
    case Rejected(error) => SameFailure(a, b, s, true, error, t, lane, base);
    case _ =>
  }

  /** An attempt removes its row or leaves it as it is. */
  lemma DeliveredOwnRow(db: Db, s: int, row: QueueRow, reply: Reply, t: Ticks)
    requires Numbered(db) && s in db.queue && db.queue[s] == row
    ensures
      var (after, outcome) := Delivered(db, s, row, reply, t);
      if outcome == Some(Done) then s !in after.queue else s in after.queue && after.queue[s] == row
  {
    hide BackoffMs, TotalsOf, Uploadable, SegmentsLeft;
    if row.job.Close? && reply.Ok? && reply.body.Missing? {
      EnqueueSegmentsAdds(db, row.job.recording, reply.body.seqNos,
                          t.now + BackoffMs(row.attempts + 1, t.random), t.now, s);
    }
  }

  lemma VisitInLane(a: PassState, b: PassState, s: int, queued: QueueRow, force: bool, answer: Answer, base: int)
    requires SameState(a, b, LaneOf(queued.job), base) && Numbered(a.db) && Numbered(b.db) && s < base
    requires s in a.db.queue && a.db.queue[s] == queued && s in b.db.queue && b.db.queue[s] == queued
    requires !answer.first.Unauthorized?
    ensures SameState(Visited(a, s, queued, force, answer), Visited(b, s, queued, force, answer), LaneOf(queued.job), base)
  {
    hide Delivered, Settle, SameLane;
    var lane := LaneOf(queued.job);
    if Choose(a.db.queue, a.held, force, s, queued, answer.scannedAt).Pick? {
      SameDelivered(a.db, b.db, s, queued, answer.first, answer.t, base);
      AnswersWithoutRecovery(a.db, s, queued, answer);
      var (after, outcome) := Delivered(a.db, s, queued, answer.first, answer.t);
      var also := Delivered(b.db, s, queued, answer.first, answer.t).0;
      DeliveredOwnRow(a.db, s, queued, answer.first, answer.t);
      DeliveredOwnRow(b.db, s, queued, answer.first, answer.t);
      SameSettle(after, also, s, outcome.value, answer.t, lane, base);
    }
  }

  // ----- the pass -----

  lemma {:induction false} LaneRowsIntact(db: Db, rows: Listing, lane: Lane)
    requires Intact(db, rows)
    ensures Intact(db, LaneRows(rows, lane))
    ensures forall i :: 0 <= i < |LaneRows(rows, lane)| ==> LaneRows(rows, lane)[i] in rows
  {
    if rows != [] {
      var rest := LaneRows(rows[1..], lane);
      LaneRowsIntact(db, rows[1..], lane);
      assert forall i :: 0 <= i < |rest| ==> rest[i] in rows;
      hide LaneOf;
      if LaneOf(rows[0].1.job) == lane { IntactWithFirst(db, rows, rest); }
    }
  }

  lemma IntactWithFirst(db: Db, rows: Listing, rest: Listing)
    requires rows != [] && Intact(db, rows) && Intact(db, rest)
    requires forall i :: 0 <= i < |rest| ==> rest[i] in rows[1..]
    ensures Intact(db, [rows[0]] + rest)
  {
    forall i | 0 <= i < |rest| ensures exists j :: 1 <= j < |rows| && rows[j] == rest[i] {
      var k :| 0 <= k < |rows| - 1 && rows[1..][k] == rest[i];
      assert rows[k + 1] == rest[i];
    }
  }

  lemma {:induction false} LaneAlone(
    a: PassState, b: PassState, rows: Listing, force: bool, answers: int -> Answer, lane: Lane, base: int)
    requires SameState(a, b, lane, base) && Numbered(a.db) && Numbered(b.db)
    requires Intact(a.db, rows) && Intact(b.db, LaneRows(rows, lane))
    requires forall i :: 0 <= i < |rows| ==> rows[i].0 < base
    requires NoneUnauthorized(rows, answers)
    ensures SameState(PassFrom(a, rows, force, answers), PassFrom(b, LaneRows(rows, lane), force, answers), lane, base)
    decreases |rows|
  {
    hide Visited, SameLane;
    if rows != [] {
      var (s, queued) := rows[0];
      var a' := Visited(a, s, queued, force, answers(s));
      VisitLeavesIntact(a, rows, force, answers(s));
      if LaneOf(queued.job) == lane {
        var b' := Visited(b, s, queued, force, answers(s));
        assert LaneRows(rows, lane)[0] == rows[0] && LaneRows(rows, lane)[1..] == LaneRows(rows[1..], lane);
        VisitLeavesIntact(b, LaneRows(rows, lane), force, answers(s));
        VisitInLane(a, b, s, queued, force, answers(s), base);
        LaneAlone(a', b', rows[1..], force, answers, lane, base);
      } else {
        assert LaneRows(rows, lane) == LaneRows(rows[1..], lane);
        VisitElsewhere(a, b, s, queued, force, answers(s), lane, base);
        LaneAlone(a', b, rows[1..], force, answers, lane, base);
      }
    }
  }

  /**
   * When no reply is a 401, a pass sends the same rows of a lane with the same outcomes,
   * and leaves the lane in the same state, as a pass over that lane's rows alone.
   */
  lemma LanesDoNotInterfere(db: Db, force: bool, answers: int -> Answer, lane: Lane)
    requires Numbered(db) && NoneUnauthorized(Listed(db.queue), answers)
    ensures
      var all := PassOf(db, true, force, answers);
      var alone := PassFrom(Pass.Begun(db), LaneRows(Listed(db.queue), lane), force, answers);
      && LaneLog(all.log, lane) == LaneLog(alone.log, lane)
      && SameLane(all.db, alone.db, lane, db.nextSequence)
      && (lane in all.held <==> lane in alone.held)
  {
    hide SameLane;
    ListedIntact(db);
    LaneRowsIntact(db, Listed(db.queue), lane);
    assert SameLane(db, db, lane, db.nextSequence) by { SameLaneReflexive(db, lane, db.nextSequence); }
    LaneAlone(Pass.Begun(db), Pass.Begun(db), Listed(db.queue), force, answers, lane, db.nextSequence);
  }

  lemma SameLaneReflexive(db: Db, lane: Lane, base: int)
    requires base <= db.nextSequence
    ensures SameLane(db, db, lane, base)
  {
  }

  // ----- a lane goes in order -----

  ghost predicate Sent(st: PassState, s: int) { exists e :: e in st.log && e.sequence == s }

  /** The row was attempted, and it was delivered, waits, or left the schedule. */
  ghost predicate DealtWith(st: PassState, s: int) {
    exists e :: e in st.log && e.sequence == s
      && (e.outcome.Done? || e.outcome.Waiting? || s !in st.db.queue || !st.db.queue[s].Live())
  }

  ghost predicate InOrder(st: PassState, seen: Listing) {
    forall i, j :: 0 <= i < j < |seen| ==>
      seen[i].1.Live() && LaneOf(seen[i].1.job) == LaneOf(seen[j].1.job) && Sent(st, seen[j].0) ==> DealtWith(st, seen[i].0)
  }

  /** A live row behind the loop holds its lane unless it was dealt with. */
  ghost predicate HeldOrDealtWith(st: PassState, seen: Listing) {
    forall i :: 0 <= i < |seen| && seen[i].1.Live() ==> LaneOf(seen[i].1.job) in st.held || DealtWith(st, seen[i].0)
  }

  ghost predicate Ascending(rows: Listing) {
    forall i, j :: 0 <= i < j < |rows| ==> rows[i].0 < rows[j].0
  }

  ghost predicate SentOnly(st: PassState, seen: Listing) {
    forall e :: e in st.log ==> exists i :: 0 <= i < |seen| && seen[i].0 == e.sequence
  }

  /** What a turn adds to the log and to the held lanes. */
  lemma VisitLogs(st: PassState, s: int, queued: QueueRow, force: bool, answer: Answer)
    requires Numbered(st.db) && s in st.db.queue && st.db.queue[s] == queued && !st.ended
    ensures
      var after := Visited(st, s, queued, force, answer);
      && st.held <= after.held
      && (after.log == st.log || (LaneOf(queued.job) !in st.held && |after.log| == |st.log| + 1
            && after.log[..|st.log|] == st.log && after.log[|st.log|].sequence == s))
      && (!after.ended && queued.Live() ==> LaneOf(queued.job) in after.held || DealtWith(after, s))
  {
    hide Delivered, Settle, Attempted;
    if Choose(st.db.queue, st.held, force, s, queued, answer.scannedAt).Pick? {
      var tried := Attempted(st.db, s, queued, st.refreshed, answer);
      if tried.outcome.Some? {
        var after := Visited(st, s, queued, force, answer);
        assert after.log[|st.log|] in after.log;
        SettledOrHeld(tried.db, s, tried.outcome.value, answer.t);
      }
    }
  }

  lemma SettledOrHeld(db: Db, s: int, outcome: Outcome, t: Ticks)
    ensures
      var (after, hold) := Settle(db, s, outcome, t);
      hold || outcome.Done? || outcome.Waiting? || s !in after.queue || !after.queue[s].Live()
  {
    hide BackoffMs;
  }

  /** What was dealt with stays dealt with. */
  lemma DealtWithStays(st: PassState, after: PassState, s: int, k: int)
    requires TouchesOnly(st.db, after.db, s) && k != s && k < st.db.nextSequence
    requires |st.log| <= |after.log| && after.log[..|st.log|] == st.log
    ensures DealtWith(st, k) ==> DealtWith(after, k)
  {
    if DealtWith(st, k) {
      var e :| e in st.log && e.sequence == k
               && (e.outcome.Done? || e.outcome.Waiting? || k !in st.db.queue || !st.db.queue[k].Live());
      assert e in after.log[..|st.log|];
      assert e in after.log;
    }
  }

  lemma VisitInOrder(st: PassState, seen: Listing, s: int, queued: QueueRow, force: bool, answer: Answer)
    requires Numbered(st.db) && s in st.db.queue && st.db.queue[s] == queued && !st.ended
    requires Ascending(seen + [(s, queued)])
    requires InOrder(st, seen) && HeldOrDealtWith(st, seen) && SentOnly(st, seen)
    ensures
      var after := Visited(st, s, queued, force, answer);
      var now := seen + [(s, queued)];
      InOrder(after, now) && SentOnly(after, now) && (!after.ended ==> HeldOrDealtWith(after, now))
  {
    hide Visited, DealtWith;
    var after := Visited(st, s, queued, force, answer);
    var now := seen + [(s, queued)];
    VisitLogs(st, s, queued, force, answer);
    VisitTouches(st, s, queued, force, answer);
    forall i | 0 <= i < |seen| ensures now[i] == seen[i] && seen[i].0 < s { assert now[i].0 < now[|seen|].0; }
    assert after.log[..|st.log|] == st.log;
    forall i | 0 <= i < |seen| ensures DealtWith(st, seen[i].0) ==> DealtWith(after, seen[i].0) {
      DealtWithStays(st, after, s, seen[i].0);
    }
    forall e | e in after.log ensures e in st.log || e.sequence == s {
      var n :| 0 <= n < |after.log| && after.log[n] == e;
      assert n < |st.log| ==> e == st.log[n];
    }
    forall e | e in after.log ensures exists i :: 0 <= i < |now| && now[i].0 == e.sequence {
      if e in st.log {
        var i :| 0 <= i < |seen| && seen[i].0 == e.sequence;
        assert now[i].0 == e.sequence;
      } else {
        assert now[|seen|].0 == e.sequence;
      }
    }
    assert Sent(after, s) ==> LaneOf(queued.job) !in st.held;
  }

  lemma {:induction false} PassInOrder(st: PassState, seen: Listing, rows: Listing, force: bool, answers: int -> Answer)
    requires Numbered(st.db) && Intact(st.db, rows) && Ascending(seen + rows)
    requires InOrder(st, seen) && SentOnly(st, seen)
    requires !st.ended ==> HeldOrDealtWith(st, seen)
    ensures InOrder(PassFrom(st, rows, force, answers), seen + rows)
    decreases |rows|
  {
    hide Visited, InOrder, HeldOrDealtWith, SentOnly;
    if rows == [] {
      assert seen + rows == seen;
    } else if st.ended {
      UnsentInOrder(st, seen, rows);
    } else {
      var (s, queued) := rows[0];
      assert seen + rows == seen + [(s, queued)] + rows[1..];
      AscendingPrefix(seen + [(s, queued)], rows[1..]);
      VisitInOrder(st, seen, s, queued, force, answers(s));
      VisitLeavesIntact(st, rows, force, answers(s));
      PassInOrder(Visited(st, s, queued, force, answers(s)), seen + [(s, queued)], rows[1..], force, answers);
    }
  }

  lemma AscendingPrefix(a: Listing, b: Listing)
    requires Ascending(a + b)
    ensures Ascending(a)
  {
    forall i, j | 0 <= i < j < |a| ensures a[i].0 < a[j].0 { assert (a + b)[i] == a[i] && (a + b)[j] == a[j]; }
  }

  lemma UnsentInOrder(st: PassState, seen: Listing, rows: Listing)
    requires InOrder(st, seen) && SentOnly(st, seen) && Ascending(seen + rows)
    ensures InOrder(st, seen + rows)
  {
    hide DealtWith;
    var all := seen + rows;
    assert forall i :: 0 <= i < |seen| ==> all[i] == seen[i];
    assert forall j :: |seen| <= j < |all| ==> !Sent(st, all[j].0);
  }

  /** A pass that has sent nothing. */
  lemma BegunInOrder(db: Db, rows: Listing)
    requires Intact(db, rows)
    ensures InOrder(Pass.Begun(db), rows) && InOrder(Pass.Begun(db), []) && Ascending(rows)
    ensures SentOnly(Pass.Begun(db), []) && HeldOrDealtWith(Pass.Begun(db), []) && Pass.Begun(db).db == db
  {
    hide DealtWith, LaneOf;
  }

  lemma PassOfInOrder(db: Db, ready: bool, force: bool, answers: int -> Answer)
    requires Numbered(db)
    ensures InOrder(PassOf(db, ready, force, answers), Listed(db.queue))
  {
    hide PassFrom, DealtWith, Listed, InOrder, SentOnly, Ascending, HeldOrDealtWith, Intact, LaneOf, Pass.Begun;
    var rows := Listed(db.queue);
    ListedIntact(db);
    BegunInOrder(db, rows);
    if ready {
      assert [] + rows == rows;
      PassInOrder(Pass.Begun(db), [], rows, force, answers);
    }
  }

  /** A row is sent only if every live row before it in its lane was delivered, waits, or is parked. */
  lemma LanesGoInOrder(db: Db, ready: bool, force: bool, answers: int -> Answer, s: int, k: int)
    requires Numbered(db) && s < k && s in db.queue && k in db.queue
    requires db.queue[s].Live() && LaneOf(db.queue[s].job) == LaneOf(db.queue[k].job)
    requires Sent(PassOf(db, ready, force, answers), k)
    ensures DealtWith(PassOf(db, ready, force, answers), s)
  {
    hide PassOf, DealtWith, Listed, Sent, LaneOf;
    ListedIntact(db);
    PassOfInOrder(db, ready, force, answers);
    var i := ListedAt(db.queue, s);
    var j := ListedAt(db.queue, k);
    assert i < j;
  }

  // ----- backoff -----

  ghost predicate Due(e: Entry, force: bool, answers: int -> Answer) {
    force || e.row.nextAttemptAt <= answers(e.sequence).scannedAt
  }

  /** A pass that is not forced sends a row only when it is due; and it sends live rows only. */
  lemma {:induction false} OnlyDueRowsAreSent(st: PassState, rows: Listing, force: bool, answers: int -> Answer)
    requires Numbered(st.db) && Intact(st.db, rows)
    requires forall e :: e in st.log ==> e.row.Live() && Due(e, force, answers)
    ensures forall e :: e in PassFrom(st, rows, force, answers).log ==> e.row.Live() && Due(e, force, answers)
    decreases |rows|
  {
    hide Settle, Attempted;
    if rows != [] && !st.ended {
      VisitLeavesIntact(st, rows, force, answers(rows[0].0));
      OnlyDueRowsAreSent(Visited(st, rows[0].0, rows[0].1, force, answers(rows[0].0)), rows[1..], force, answers);
    }
  }
}
