/** The rows the extension stores and the jobs it queues. */
module Domain {
  type Id = string

  /** Epoch milliseconds. Real, because a backoff delay has a fraction. */
  type Time = real

  newtype Byte = b: int | 0 <= b < 256
  type Blob = seq<Byte>

  datatype Option<+T> = None | Some(value: T)

  datatype CallPhase = Ready | Dialing | Active | Ended

  datatype CallRow = CallRow(
    receivedAt: Time,
    startedAt: Option<Time>,
    connectedAt: Option<Time>,
    endedAt: Option<Time>,
    phase: CallPhase)

  predicate IsLiveCall(call: CallRow) {
    call.phase == Dialing || call.phase == Active
  }

  datatype RecordingStatus = Recording | Closing | Complete

  /** `remoteId` is the id the server minted, once the create job has succeeded. */
  datatype RecordingRow = RecordingRow(
    callId: Id,
    remoteId: Option<Id>,
    status: RecordingStatus,
    interrupted: bool)

  datatype ChunkRow = ChunkRow(blob: Blob, bytes: nat, startedAt: Time)

  datatype Job =
    | Event(id: Id, kind: string, payload: string)
    | CreateRecording(recording: Id)
    | Segment(recording: Id, seqNo: nat)
    | Close(recording: Id, interrupted: bool)

  /** Parked when `deadAt` is set. The sequence number is the key of the row. */
  datatype QueueRow = QueueRow(
    job: Job,
    createdAt: Time,
    attempts: int,
    nextAttemptAt: Time,
    lastError: Option<string>,
    deadAt: Option<Time>)
  {
    predicate Live() { deadAt.None? }
  }

  predicate IsHeartbeat(job: Job) {
    job.Event? && job.kind == "executive.heartbeat"
  }

  datatype Lane = EventLane | RecordingLane(recording: Id)

  function LaneOf(job: Job): Lane {
    if job.Event? then EventLane else RecordingLane(job.recording)
  }

  predicate IsCreateOf(job: Job, r: Id) { job.CreateRecording? && job.recording == r }
  predicate IsSegmentOf(job: Job, r: Id) { job.Segment? && job.recording == r }
  predicate IsCloseOf(job: Job, r: Id) { job.Close? && job.recording == r }

  type ChunkKey = (Id, nat)

  /** One value per object store of the database, and the sequence counter. */
  datatype Db = Db(
    calls: map<Id, CallRow>,
    recordings: map<Id, RecordingRow>,
    chunks: map<ChunkKey, ChunkRow>,
    queue: map<int, QueueRow>,
    nextSequence: int)

  const EMPTY_DB := Db(map[], map[], map[], map[], 1)

  lemma LeastExists(s: set<int>, k: int)
    requires k in s
    ensures exists m :: m in s && forall j :: j in s ==> m <= j
  {
    if j :| j in s && j < k {
      LeastExists(s - {k}, j);
      var m :| m in s - {k} && forall i :: i in s - {k} ==> m <= i;
      forall i | i in s ensures m <= i {
        if i != k { assert i in s - {k}; }
      }
    }
  }

  function Least(s: set<int>): (k: int)
    requires exists k :: k in s
    ensures k in s
    ensures forall j :: j in s ==> k <= j
  {
    assert exists k :: k in s && forall j :: j in s ==> k <= j by {
      var k :| k in s;
      LeastExists(s, k);
    }
    var k :| k in s && forall j :: j in s ==> k <= j;
    k
  }

  predicate Increasing(ks: seq<int>) {
    forall i, j :: 0 <= i < j < |ks| ==> ks[i] < ks[j]
  }

  /** The order in which the queue store lists its keys. */
  function SortedKeys(s: set<int>): (ks: seq<int>)
    ensures Increasing(ks)
    ensures forall k :: k in ks <==> k in s
  {
    if exists k :: k in s then
      var k := Least(s);
      [k] + SortedKeys(s - {k})
    else []
  }
}
