/** What the rows of the database say about each other, and why every transaction keeps it. */
module Correspondence {
  import opened Domain
  import opened Store
  import opened Delivery

  predicate OnlyCreate(q: map<int, QueueRow>, r: Id, s: int) {
    s in q && IsCreateOf(q[s].job, r) && forall t :: t in q && IsCreateOf(q[t].job, r) ==> t == s
  }

  predicate OnlyClose(q: map<int, QueueRow>, r: Id, s: int) {
    s in q && IsCloseOf(q[s].job, r) && forall t :: t in q && IsCloseOf(q[t].job, r) ==> t == s
  }

  predicate NoCreate(q: map<int, QueueRow>, r: Id) { forall t :: t in q ==> !IsCreateOf(q[t].job, r) }
  predicate NoClose(q: map<int, QueueRow>, r: Id) { forall t :: t in q ==> !IsCloseOf(q[t].job, r) }
  predicate NoSegment(q: map<int, QueueRow>, r: Id) { forall t :: t in q ==> !IsSegmentOf(q[t].job, r) }
  predicate NoChunk(db: Db, r: Id) { forall k :: k in db.chunks ==> k.0 != r }

  /** The queue rows of a recording are exactly those its row calls for. */
  ghost predicate RowMatches(db: Db, r: Id)
    requires r in db.recordings
  {
    var rec := db.recordings[r];
    && (rec.remoteId.None? ==> exists s :: OnlyCreate(db.queue, r, s))
    && (rec.remoteId.Some? ==> NoCreate(db.queue, r))
    && (rec.status == Recording ==> NoClose(db.queue, r))
    && (rec.status == Closing ==> exists s :: OnlyClose(db.queue, r, s))
    && (rec.status == Complete ==>
          rec.remoteId.Some? && NoClose(db.queue, r) && NoSegment(db.queue, r) && NoChunk(db, r))
  }

  /** A job names a recording that exists, and a segment job a chunk that is stored. */
  predicate JobMatches(db: Db, job: Job) {
    match job
    case Event(_, _, _) => true
    case CreateRecording(r) => r in db.recordings
    case Segment(r, i) => r in db.recordings && (r, i) in db.chunks
    case Close(r, _) => r in db.recordings
  }

  ghost predicate Matches(db: Db) {
    && (forall s :: s in db.queue ==> s < db.nextSequence)
    && (forall s :: s in db.queue ==> JobMatches(db, db.queue[s].job))
    && (forall k :: k in db.chunks ==> k.0 in db.recordings)
    && (forall r {:trigger RowMatches(db, r)} :: r in db.recordings ==> RowMatches(db, r))
    && (forall r, q :: r in db.recordings && q in db.recordings && r != q ==>
          db.recordings[r].callId != db.recordings[q].callId)
  }

  // ----- queueing and dropping one row -----

  predicate IsCreateOrCloseOf(job: Job, r: Id) { IsCreateOf(job, r) || IsCloseOf(job, r) }

  /** A recording whose row, create job and close job are untouched still matches. */
  lemma RowCarriesOver(before: Db, after: Db, r: Id)
    requires r in before.recordings && RowMatches(before, r)
    requires r in after.recordings && after.recordings[r] == before.recordings[r]
    requires forall t :: t in before.queue && IsCreateOrCloseOf(before.queue[t].job, r) ==>
      t in after.queue && after.queue[t].job == before.queue[t].job
    requires forall t :: t in after.queue && IsCreateOrCloseOf(after.queue[t].job, r) ==>
      t in before.queue && after.queue[t].job == before.queue[t].job
    requires after.recordings[r].status == Complete ==> NoSegment(after.queue, r) && NoChunk(after, r)
    ensures RowMatches(after, r)
  {
    if after.recordings[r].remoteId.None? {
      var s :| OnlyCreate(before.queue, r, s);
      assert OnlyCreate(after.queue, r, s);
    }
    if after.recordings[r].status == Closing {
      var s :| OnlyClose(before.queue, r, s);
      assert OnlyClose(after.queue, r, s);
    }
  }

  lemma EnqueueKeeps(before: Db, after: Db, job: Job)
    requires Matches(before)
    requires after.queue.Keys == before.queue.Keys + {before.nextSequence}
    requires forall s :: s in before.queue ==> after.queue[s].job == before.queue[s].job
    requires after.queue[before.nextSequence].job == job
    requires after.nextSequence == before.nextSequence + 1
    requires after.recordings == before.recordings && after.chunks == before.chunks
    requires job.Event? || (job.Segment? && (job.recording, job.seqNo) in before.chunks
                            && before.recordings[job.recording].status != Complete)
    ensures Matches(after)
  {
    forall r | r in after.recordings ensures RowMatches(after, r) {
      assert RowMatches(before, r);
      RowCarriesOver(before, after, r);
    }
  }

  /** The same jobs under the same numbers: only attempts, times and parking differ. */
  lemma SameJobsKeep(before: Db, after: Db)
    requires Matches(before)
    requires after.queue.Keys == before.queue.Keys
    requires forall s :: s in before.queue ==> after.queue[s].job == before.queue[s].job
    requires after.nextSequence == before.nextSequence
    requires after.recordings == before.recordings && after.chunks == before.chunks
    ensures Matches(after)
  {
    forall r | r in after.recordings ensures RowMatches(after, r) {
      assert RowMatches(before, r);
      RowCarriesOver(before, after, r);
    }
  }

  lemma DropKeeps(db: Db, s: int)
    requires Matches(db)
    requires s in db.queue ==> db.queue[s].job.Event? || db.queue[s].job.Segment?
    ensures Matches(DropRow(db, s))
  {
    forall r | r in db.recordings ensures RowMatches(DropRow(db, s), r) {
      assert RowMatches(db, r);
      RowCarriesOver(db, DropRow(db, s), r);
    }
  }

  // ----- the recorder's transactions -----

  lemma BeginKeeps(db: Db, callId: Id, id: Id, now: Time)
    requires Matches(db) && id !in db.recordings
    ensures BeginRecording(db, callId, id, now).Some? ==> Matches(BeginRecording(db, callId, id, now).value)
  {
    if !RecordingBlocked(db, callId) {
      var after := BeginRecording(db, callId, id, now).value;
      assert OnlyCreate(after.queue, id, db.nextSequence);
      forall r | r in db.recordings ensures RowMatches(after, r) {
        assert RowMatches(db, r);
        RowCarriesOver(db, after, r);
      }
    }
  }

  lemma StoreChunkKeeps(db: Db, r: Id, i: nat, blob: Blob, startedAt: Time, now: Time)
    requires Matches(db) && r in db.recordings && db.recordings[r].status == Recording
    ensures Matches(StoreChunk(db, r, i, blob, startedAt, now))
  {
    var stored := db.(chunks := db.chunks[(r, i) := ChunkRow(blob, |blob|, startedAt)]);
    forall q | q in db.recordings ensures RowMatches(stored, q) {
      assert RowMatches(db, q);
      RowCarriesOver(db, stored, q);
    }
    EnqueueKeeps(stored, StoreChunk(db, r, i, blob, startedAt, now), Segment(r, i));
  }

  lemma FinishKeeps(db: Db, r: Id, interrupted: bool, now: Time)
    requires Matches(db)
    ensures Matches(FinishRecording(db, r, interrupted, now))
  {
    if r in db.recordings && db.recordings[r].status == Recording {
      var after := FinishRecording(db, r, interrupted, now);
      forall q | q in db.recordings ensures RowMatches(after, q) {
        assert RowMatches(db, q);
        if q != r {
          RowCarriesOver(db, after, q);
        } else {
          assert OnlyClose(after.queue, r, db.nextSequence);
          if after.recordings[r].remoteId.None? {
            var t :| OnlyCreate(db.queue, r, t);
            assert OnlyCreate(after.queue, r, t);
          }
        }
      }
    }
  }

  // ----- the outbox's transactions -----

  lemma FailureKeeps(db: Db, s: int, rejected: bool, error: string, now: Time, random: real)
    requires Matches(db)
    ensures Matches(RecordFailure(db, s, rejected, error, now, random).0)
  {
    hide Matches, BackoffMs;
    var after := RecordFailure(db, s, rejected, error, now, random).0;
    if s in db.queue && s !in after.queue {
      DropKeeps(db, s);
    } else {
      SameJobsKeep(db, after);
    }
  }

  lemma RequeueDeadKeeps(db: Db, now: Time)
    requires Matches(db)
    ensures Matches(RequeueDeadLetters(db, now))
  {
    SameJobsKeep(db, RequeueDeadLetters(db, now));
  }

  lemma {:induction false} EnqueueSegmentsKeeps(db: Db, r: Id, missing: seq<nat>, dueAt: Time, now: Time)
    requires Matches(db) && r in db.recordings && db.recordings[r].status != Complete
    requires forall i :: i in missing ==> (r, i) in db.chunks
    ensures Matches(EnqueueSegments(db, r, missing, dueAt, now))
    decreases |missing|
  {
    if missing == [] {
    } else {
      var next := Enqueue(db, Segment(r, missing[0]), Some(dueAt), now);
      assert missing[0] in missing;
      EnqueueKeeps(db, next, Segment(r, missing[0]));
      EnqueueSegmentsKeeps(next, r, missing[1..], dueAt, now);
    }
  }

  lemma StoreRemoteIdKeeps(db: Db, s: int, r: Id, remoteId: Id)
    requires Matches(db) && s in db.queue && IsCreateOf(db.queue[s].job, r)
    ensures Matches(StoreRemoteId(db, s, r, remoteId))
  {
    var after := StoreRemoteId(db, s, r, remoteId);
    assert JobMatches(db, db.queue[s].job) && RowMatches(db, r);
    var t :| OnlyCreate(db.queue, r, t);
    assert t == s;
    forall q | q in db.recordings ensures RowMatches(after, q) {
      assert RowMatches(db, q);
      if q != r {
        RowCarriesOver(db, after, q);
      } else if after.recordings[r].status == Closing {
        var c :| OnlyClose(db.queue, r, c);
        assert OnlyClose(after.queue, r, c);
      }
    }
  }

  lemma CompleteKeeps(db: Db, s: int, r: Id, confirmed: Totals)
    requires Matches(db) && s in db.queue && IsCloseOf(db.queue[s].job, r)
    requires r in db.recordings && db.recordings[r].remoteId.Some? && NoSegment(db.queue, r)
    ensures Matches(CompleteRecording(db, s, r, confirmed).0)
  {
    var after := CompleteRecording(db, s, r, confirmed).0;
    if TotalsOf(db.chunks, r) == confirmed {
      assert RowMatches(db, r);
      var t :| OnlyClose(db.queue, r, t);
      assert t == s;
      forall q | q in db.recordings ensures RowMatches(after, q) {
        assert RowMatches(db, q);
        if q != r { RowCarriesOver(db, after, q); }
      }
      forall t | t in after.queue ensures JobMatches(after, after.queue[t].job) {
        assert JobMatches(db, db.queue[t].job) && !IsSegmentOf(db.queue[t].job, r);
      }
    }
  }

  /** What the close job's attempt may rely on when the answer comes. */
  predicate ReadyToComplete(db: Db, r: Id) {
    && r in db.recordings && db.recordings[r].remoteId.Some? && db.recordings[r].status == Closing
    && NoSegment(db.queue, r)
  }

  lemma ReceiveKeeps(db: Db, s: int, row: QueueRow, request: Request, reply: Reply, t: Ticks)
    requires Matches(db) && s in db.queue && db.queue[s] == row
    requires !reply.Unauthorized?
    requires row.job.Close? ==> request.PostClose? && ReadyToComplete(db, row.job.recording)
    ensures Matches(Receive(db, s, row, request, reply, t).0)
  {
    hide Matches, BackoffMs, TotalsOf;
    if reply.Ok? {
      match row.job
      case Event(_, _, _) => DropKeeps(db, s);
      case CreateRecording(r) =>
        if reply.body.Created? { StoreRemoteIdKeeps(db, s, r, reply.body.recordingId); }
      case Segment(_, _) => DropKeeps(db, s);
      case Close(r, _) =>
        match reply.body
        case Missing(missing) =>
          if forall i :: i in missing ==> (r, i) in db.chunks {
            EnqueueSegmentsKeeps(db, r, missing, t.now + BackoffMs(row.attempts + 1, t.random), t.now);
          }
        case _ => CompleteKeeps(db, s, r, request.totals);
    }
  }

  /** No attempt finds its work already done, so a delivery never drops a row unsent. */
  lemma NothingToDrop(db: Db, s: int, row: QueueRow)
    requires Matches(db) && s in db.queue && db.queue[s] == row
    ensures PlanOf(db, s, row) != Drop
  {
    hide TotalsOf, Uploadable, SegmentsLeft;
    assert JobMatches(db, row.job);
    match row.job
    case Event(_, _, _) =>
    case CreateRecording(r) => assert RowMatches(db, r);
    case Segment(_, _) =>
    case Close(r, _) => assert RowMatches(db, r);
  }

  lemma SettleKeeps(db: Db, s: int, outcome: Outcome, t: Ticks)
    requires Matches(db)
    ensures Matches(Settle(db, s, outcome, t).0)
  {
    hide Matches, RecordFailure;
    match outcome
    case Retry(error) => FailureKeeps(db, s, false, error, t.now, t.random);
    case Rejected(error) => FailureKeeps(db, s, true, error, t.now, t.random);
    case _ =>
  }
}
