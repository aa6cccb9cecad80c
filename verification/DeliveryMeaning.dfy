/** When one attempt sends, waits or finds nothing to do, and what each reply leaves in the store. */
module DeliveryMeaning {
  import opened Domain
  import opened Store
  import opened Delivery

  /** The remote id a segment or a close may go to. */
  predicate Reachable(db: Db, r: Id, remoteId: Id) {
    r in db.recordings && db.recordings[r].remoteId == Some(remoteId) && remoteId != ""
  }

  /** What is sent, for each job, and exactly when: a close only after every segment of its recording left the queue. */
  lemma SendsExactlyWhen(db: Db, s: int, row: QueueRow, q: Request)
    ensures
      PlanOf(db, s, row) == Send(q)
      <==>
      match row.job
      case Event(id, kind, payload) => q == PostEvent(id, s, kind, payload, row.createdAt)
      case CreateRecording(r) =>
        r in db.recordings && db.recordings[r].remoteId == None && q == PostRecording(db.recordings[r].callId)
      case Segment(r, i) =>
        && (r, i) in db.chunks && q.PutSegment? && Reachable(db, r, q.remoteId)
        && q.seqNo == i && q.blob == db.chunks[(r, i)].blob && q.startedAt == db.chunks[(r, i)].startedAt
      case Close(r, interrupted) =>
        && q.PostClose? && Reachable(db, r, q.remoteId) && db.recordings[r].status != Complete
        && (forall k :: k in db.queue && db.queue[k].job.Segment? ==> db.queue[k].job.recording != r)
        && q.totals == TotalsOf(db.chunks, r) && q.interrupted == interrupted
  {
    hide TotalsOf;
  }

  /** There is nothing to do when the work is done already or its subject is gone; otherwise what is not sent waits. */
  lemma DropsExactlyWhen(db: Db, s: int, row: QueueRow)
    ensures
      PlanOf(db, s, row).Drop?
      <==>
      match row.job
      case Event(_, _, _) => false
      case CreateRecording(r) => r in db.recordings ==> db.recordings[r].remoteId.Some?
      case Segment(r, i) => (r, i) !in db.chunks
      case Close(r, _) => r in db.recordings ==> db.recordings[r].status == Complete
    ensures PlanOf(db, s, row).Wait? ==> row.job.Segment? || row.job.Close?
  {
    hide TotalsOf, SegmentsLeft;
  }

  /** A job is done exactly when the server said what its job asks for; a close, when it names the totals sent and kept. */
  lemma DoneExactlyWhen(db: Db, s: int, row: QueueRow, request: Request, reply: Reply, t: Ticks)
    requires !reply.Unauthorized? && (row.job.Close? ==> request.PostClose?)
    ensures
      var outcome := Receive(db, s, row, request, reply, t).1;
      && (outcome == Done
          <==> reply.Ok? &&
               match row.job
               case Event(_, _, _) => true
               case CreateRecording(_) => reply.body.Created?
               case Segment(_, _) => reply.body.Uploaded?
               case Close(r, _) =>
                 reply.body.Completed? && reply.body.totals == request.totals && request.totals == TotalsOf(db.chunks, r))
      && (forall error :: outcome == Rejected(error) <==> reply == Refused(error))
      && outcome != Waiting
  {
    hide TotalsOf, BackoffMs;
  }

  /** A reply that is not the end of the job changes nothing, but for the segments that are sent again. */
  lemma OnlyDoneChanges(db: Db, s: int, row: QueueRow, request: Request, reply: Reply, t: Ticks)
    requires !reply.Unauthorized? && (row.job.Close? ==> request.PostClose?)
    ensures
      var (after, outcome) := Receive(db, s, row, request, reply, t);
      outcome != Done && !(row.job.Close? && reply.Ok? && reply.body.Missing?) ==> after == db
  {
    hide TotalsOf, BackoffMs;
  }

  ghost predicate OthersStay(db: Db, after: Db, r: Id) {
    && after.recordings.Keys == db.recordings.Keys
    && forall k :: k in db.recordings && k != r ==> after.recordings[k] == db.recordings[k]
  }

  /** The recording has its remote id. */
  ghost predicate Named(db: Db, after: Db, r: Id, remoteId: Id) {
    && after.chunks == db.chunks && OthersStay(db, after, r)
    && (r in db.recordings && r in after.recordings ==>
          after.recordings[r] == db.recordings[r].(remoteId := Some(remoteId)))
  }

  /** The recording is complete and its audio is off the device. */
  ghost predicate Cleared(db: Db, after: Db, r: Id) {
    && OthersStay(db, after, r)
    && (r in db.recordings && r in after.recordings ==> after.recordings[r] == db.recordings[r].(status := Complete))
    && (forall k :: k in after.chunks <==> k in db.chunks && k.0 != r)
    && (forall k :: k in after.chunks && k in db.chunks ==> after.chunks[k] == db.chunks[k])
  }

  ghost predicate OnlyRowGone(db: Db, after: Db, s: int) {
    after.queue == db.queue - {s} && after.calls == db.calls && after.nextSequence == db.nextSequence
  }

  lemma IdLeaves(db: Db, s: int, r: Id, remoteId: Id)
    ensures OnlyRowGone(db, StoreRemoteId(db, s, r, remoteId), s) && Named(db, StoreRemoteId(db, s, r, remoteId), r, remoteId)
  {
  }

  lemma CompletionLeaves(db: Db, s: int, r: Id, totals: Totals)
    requires CompleteRecording(db, s, r, totals).1 == Done
    ensures
      var after := CompleteRecording(db, s, r, totals).0;
      OnlyRowGone(db, after, s) && Cleared(db, after, r)
  {
    hide TotalsOf;
  }

  /** What is left when the job is done: its row is gone, and of the rest only what the job is about has changed. */
  lemma DoneLeaves(db: Db, s: int, row: QueueRow, request: Request, reply: Reply, t: Ticks)
    requires !reply.Unauthorized? && (row.job.Close? ==> request.PostClose?)
    requires Receive(db, s, row, request, reply, t).1 == Done
    ensures
      var after := Receive(db, s, row, request, reply, t).0;
      && OnlyRowGone(db, after, s)
      && match row.job
         case CreateRecording(r) => reply.Ok? && reply.body.Created? && Named(db, after, r, reply.body.recordingId)
         case Close(r, _) => Cleared(db, after, r)
         case _ => after.recordings == db.recordings && after.chunks == db.chunks
  {
    hide StoreRemoteId, CompleteRecording, RequeueMissing, OnlyRowGone, Named, Cleared;
    match row.job
    case CreateRecording(r) => IdLeaves(db, s, r, reply.body.recordingId);
    case Close(r, _) =>
      if reply.body.Missing? {
        MissingIsNotDone(db, row, r, reply.body.seqNos, t);
      } else {
        CompletionLeaves(db, s, r, request.totals);
      }
    case _ => RowLeaves(db, s);
  }

  lemma MissingIsNotDone(db: Db, row: QueueRow, r: Id, missing: seq<nat>, t: Ticks)
    ensures RequeueMissing(db, row, r, missing, t).1 != Done
  {
    hide BackoffMs;
  }

  lemma RowLeaves(db: Db, s: int)
    ensures OnlyRowGone(db, DropRow(db, s), s)
  {
  }
}
