/** What one attempt of a queue row reads, asks the server, and commits. */
module Delivery {
  import opened Domain
  import opened Store

  datatype Request =
    | PostEvent(id: Id, sequence: int, kind: string, payload: string, createdAt: Time)
    | PostRecording(callId: Id)
    | PutSegment(remoteId: Id, seqNo: nat, blob: Blob, startedAt: Time)
    | PostClose(remoteId: Id, totals: Totals, interrupted: bool)

  /** The body of a 2xx, as far as the contract's guards recognise it. */
  datatype Body =
    | Unrecognised
    | Created(recordingId: Id)
    | Uploaded(seqNo: nat, sizeBytes: nat)
    | Completed(totals: Totals)
    | Missing(seqNos: seq<nat>)

  datatype Reply =
    | Ok(body: Body)
    | Unauthorized
    | Retryable(error: string)
    | Refused(error: string)

  datatype Outcome = Done | Waiting | Retry(error: string) | Rejected(error: string)

  datatype Plan = Drop | Wait | Send(request: Request)

  /** An empty remote id counts as none here, but not for the create job. */
  predicate Uploadable(db: Db, r: Id) {
    r in db.recordings && db.recordings[r].remoteId.Some? && db.recordings[r].remoteId.value != ""
  }

  predicate SegmentsLeft(queue: map<int, QueueRow>, r: Id) {
    exists s :: s in queue && IsSegmentOf(queue[s].job, r)
  }

  /** What the delivery of `row` decides from its first read of the store. */
  function PlanOf(db: Db, s: int, row: QueueRow): Plan {
    match row.job
    case Event(id, kind, payload) =>
      Send(PostEvent(id, s, kind, payload, row.createdAt))
    case CreateRecording(r) =>
      if r !in db.recordings || db.recordings[r].remoteId.Some? then Drop
      else Send(PostRecording(db.recordings[r].callId))
    case Segment(r, i) =>
      if (r, i) !in db.chunks then Drop
      else if !Uploadable(db, r) then Wait
      else var chunk := db.chunks[(r, i)];
        Send(PutSegment(db.recordings[r].remoteId.value, i, chunk.blob, chunk.startedAt))
    case Close(r, interrupted) =>
      if r !in db.recordings || db.recordings[r].status == Complete then Drop
      else if !Uploadable(db, r) || SegmentsLeft(db.queue, r) then Wait
      else Send(PostClose(db.recordings[r].remoteId.value, TotalsOf(db.chunks, r), interrupted))
  }

  // ----- the head of the outbox loop -----

  type Listing = seq<(int, QueueRow)>

  /** The queue as the store lists it, by sequence number. */
  function Listed(queue: map<int, QueueRow>): (rows: Listing)
    ensures |rows| == |SortedKeys(queue.Keys)|
    ensures forall i :: 0 <= i < |rows| ==>
      rows[i].0 == SortedKeys(queue.Keys)[i] && rows[i].0 in queue && rows[i].1 == queue[rows[i].0]
  {
    var ks := SortedKeys(queue.Keys);
    assert forall i :: 0 <= i < |ks| ==> ks[i] in ks;
    seq(|ks|, i requires 0 <= i < |ks| => (ks[i], queue[ks[i]]))
  }

  datatype Choice = Skip | HoldLane | Pick

  /** What the outbox does with `queued`, which it listed under `s` when the pass began. */
  function Choose(queue: map<int, QueueRow>, held: set<Lane>, force: bool, s: int, queued: QueueRow, now: Time): Choice {
    if !queued.Live() || LaneOf(queued.job) in held then Skip
    else if !force && queued.nextAttemptAt > now then HoldLane
    else if s !in queue then Skip
    else Pick
  }

  /** The clock and the random source, as one attempt reads them. */
  datatype Ticks = Ticks(now: Time, random: real)

  function EnqueueSegments(db: Db, r: Id, missing: seq<nat>, dueAt: Time, now: Time): Db
    decreases |missing|
  {
    if missing == [] then db else
      EnqueueSegments(Enqueue(db, Segment(r, missing[0]), Some(dueAt), now), r, missing[1..], dueAt, now)
  }

  const STILL_UNAUTHORIZED := "server rejected the refreshed session token"
  const UNEXPECTED := "answered with an unexpected body"
  const GONE := "server is missing segments that are no longer on this device"
  const RESENDING := "server is missing segments, sending them again"
  const CHANGED := "local audio changed after the close was sent"
  const MISCOUNTED := "server completed other totals than expected"

  function RequeueMissing(db: Db, row: QueueRow, r: Id, missing: seq<nat>, t: Ticks): (Db, Outcome) {
    if exists i :: i in missing && (r, i) !in db.chunks then (db, Retry(GONE)) else
      (EnqueueSegments(db, r, missing, t.now + BackoffMs(row.attempts + 1, t.random), t.now),
       Retry(RESENDING))
  }

  function CompleteRecording(db: Db, s: int, r: Id, confirmed: Totals): (Db, Outcome) {
    if TotalsOf(db.chunks, r) != confirmed then (db, Retry(CHANGED)) else
      var kept := map k | k in db.chunks && k.0 != r :: db.chunks[k];
      var recordings := if r !in db.recordings then db.recordings
                        else db.recordings[r := db.recordings[r].(status := Complete)];
      (DropRow(db.(chunks := kept, recordings := recordings), s), Done)
  }

  function StoreRemoteId(db: Db, s: int, r: Id, remoteId: Id): Db {
    DropRow(
      if r !in db.recordings then db
      else db.(recordings := db.recordings[r := db.recordings[r].(remoteId := Some(remoteId))]),
      s)
  }

  /** What the delivery commits after a reply other than 401. */
  function Receive(db: Db, s: int, row: QueueRow, request: Request, reply: Reply, t: Ticks): (Db, Outcome)
    requires !reply.Unauthorized?
    requires row.job.Close? ==> request.PostClose?
  {
    match reply
    case Retryable(error) => (db, Retry(error))
    case Refused(error) => (db, Rejected(error))
    case Ok(body) =>
      match row.job
      case Event(_, _, _) => (DropRow(db, s), Done)
      case CreateRecording(r) =>
        if body.Created? then (StoreRemoteId(db, s, r, body.recordingId), Done)
        else (db, Retry(UNEXPECTED))
      case Segment(_, _) =>
        if body.Uploaded? then (DropRow(db, s), Done) else (db, Retry(UNEXPECTED))
      case Close(r, _) =>
        if body.Missing? then RequeueMissing(db, row, r, body.seqNos, t)
        else if !body.Completed? then (db, Retry(UNEXPECTED))
        else if body.totals != request.totals then (db, Retry(MISCOUNTED))
        else CompleteRecording(db, s, r, request.totals)
  }

  /** The transaction that ends an attempt; the result says whether the lane is held. */
  function Settle(db: Db, s: int, outcome: Outcome, t: Ticks): (Db, bool) {
    match outcome
    case Done => (db, false)
    case Waiting => (db, false)
    case Retry(error) => var (after, left) := RecordFailure(db, s, false, error, t.now, t.random); (after, !left)
    case Rejected(error) => var (after, left) := RecordFailure(db, s, true, error, t.now, t.random); (after, !left)
  }
}
