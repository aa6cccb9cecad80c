/** The transactions of the extension's database, each one atomic. */
module Store {
  import opened Domain

  // ----- retry delays -----

  const MAX_BACKOFF_MS: real := 300000.0

  function Pow2(n: int): (p: real)
    ensures p > 0.0
    decreases if n < 0 then -n else n
  {
    if n == 0 then 1.0 else if n > 0 then 2.0 * Pow2(n - 1) else Pow2(n + 1) / 2.0
  }

  function BackoffCeiling(attempts: int): real {
    var doubled := Pow2(attempts) * 1000.0;
    if doubled < MAX_BACKOFF_MS then doubled else MAX_BACKOFF_MS
  }

  /** A random point between half the ceiling and all of it. */
  function Spread(ceiling: real, random: real): real {
    ceiling / 2.0 + random * ceiling / 2.0
  }

  function BackoffMs(attempts: int, random: real): real {
    Spread(BackoffCeiling(attempts), random)
  }

  /** So no retry fires at once or waits five minutes. */
  lemma BackoffBounds(attempts: int, random: real)
    requires 0.0 <= random < 1.0
    ensures 0.0 < BackoffCeiling(attempts) / 2.0 <= BackoffMs(attempts, random) < BackoffCeiling(attempts) <= MAX_BACKOFF_MS
  {
    hide Spread;
    SpreadBounds(BackoffCeiling(attempts), random);
  }

  /** The random source decides between all delays from half the ceiling up to it. */
  lemma EveryDelayHappens(attempts: int, delay: real)
    requires BackoffCeiling(attempts) / 2.0 <= delay < BackoffCeiling(attempts)
    ensures exists random :: 0.0 <= random < 1.0 && BackoffMs(attempts, random) == delay
  {
    var ceiling := BackoffCeiling(attempts);
    BackoffBounds(attempts, 0.0);
    var random := (2.0 * delay - ceiling) / ceiling;
    assert random * ceiling == 2.0 * delay - ceiling;
    assert 0.0 <= random < 1.0 by { Below(2.0 * delay - ceiling, ceiling); }
    assert BackoffMs(attempts, random) == delay;
  }

  lemma Below(a: real, b: real)
    requires 0.0 <= a < b
    ensures 0.0 <= a / b < 1.0
  {
  }

  lemma SpreadBounds(ceiling: real, random: real)
    requires 0.0 <= random < 1.0 && ceiling > 0.0
    ensures ceiling / 2.0 <= Spread(ceiling, random) < ceiling
  {
    var spread := random * ceiling;
    assert (1.0 - random) * ceiling > 0.0;
    assert 0.0 <= spread < ceiling;
    assert random * ceiling / 2.0 == spread / 2.0;
  }

  lemma {:induction false} PowAtLeast(n: nat)
    requires n >= 9
    ensures Pow2(n) >= 512.0
    decreases n
  {
    if n == 9 {
      assert Pow2(9) == 2.0 * Pow2(8) && Pow2(8) == 2.0 * Pow2(7) && Pow2(7) == 2.0 * Pow2(6) && Pow2(6) == 2.0 * Pow2(5);
      assert Pow2(5) == 2.0 * Pow2(4) && Pow2(4) == 2.0 * Pow2(3) && Pow2(3) == 2.0 * Pow2(2) && Pow2(2) == 2.0 * Pow2(1);
    } else {
      PowAtLeast(n - 1);
    }
  }

  /** The ceiling doubles with every attempt until it is five minutes, from the ninth on. */
  lemma CeilingDoubles(attempts: nat)
    ensures BackoffCeiling(1) == 2000.0
    ensures attempts >= 9 ==> BackoffCeiling(attempts) == MAX_BACKOFF_MS
    ensures BackoffCeiling(attempts) < MAX_BACKOFF_MS / 2.0 ==> BackoffCeiling(attempts + 1) == 2.0 * BackoffCeiling(attempts)
  {
    assert Pow2(1) == 2.0 * Pow2(0);
    if attempts >= 9 { PowAtLeast(attempts); }
    assert Pow2(attempts + 1) == 2.0 * Pow2(attempts);
  }

  // ----- transactions shared by both contexts -----

  function Enqueue(db: Db, job: Job, dueAt: Option<Time>, now: Time): Db {
    var due := if dueAt.Some? then dueAt.value else now;
    db.(queue := db.queue[db.nextSequence := QueueRow(job, now, 0, due, None, None)],
        nextSequence := db.nextSequence + 1)
  }

  predicate RecordingBlocked(db: Db, callId: Id) {
    || callId !in db.calls
    || !IsLiveCall(db.calls[callId])
    || exists r :: r in db.recordings && db.recordings[r].callId == callId
  }

  /** `id` is fresh. A blocked call throws, which rolls the transaction back. */
  function BeginRecording(db: Db, callId: Id, id: Id, now: Time): Option<Db> {
    if RecordingBlocked(db, callId) then None else
      Some(Enqueue(
        db.(recordings := db.recordings[id := RecordingRow(callId, None, Recording, false)]),
        CreateRecording(id), None, now))
  }

  function StoreChunk(db: Db, r: Id, seqNo: nat, blob: Blob, startedAt: Time, now: Time): Db {
    Enqueue(db.(chunks := db.chunks[(r, seqNo) := ChunkRow(blob, |blob|, startedAt)]),
            Segment(r, seqNo), None, now)
  }

  function FinishRecording(db: Db, r: Id, interrupted: bool, now: Time): Db {
    if r !in db.recordings || db.recordings[r].status != Recording then db else
      Enqueue(
        db.(recordings := db.recordings[r := db.recordings[r].(status := Closing, interrupted := interrupted)]),
        Close(r, interrupted), None, now)
  }

  // ----- what these transactions mean -----

  /** The queue has one row more: live, due when asked or at once, without attempts. */
  predicate QueuedNext(before: Db, after: Db, job: Job, dueAt: Time, now: Time) {
    && after.queue.Keys == before.queue.Keys + {before.nextSequence} && after.nextSequence == before.nextSequence + 1
    && after.queue[before.nextSequence] == QueueRow(job, now, 0, dueAt, None, None)
    && forall s :: s in before.queue && s != before.nextSequence ==> after.queue[s] == before.queue[s]
  }

  lemma EnqueueMeans(db: Db, job: Job, dueAt: Option<Time>, now: Time)
    ensures
      var after := Enqueue(db, job, dueAt, now);
      && QueuedNext(db, after, job, if dueAt.None? then now else dueAt.value, now)
      && after.calls == db.calls && after.recordings == db.recordings && after.chunks == db.chunks
  {
  }

  /** A recording begins exactly when its call is dialing or active and has none yet; its create job is queued with it. */
  lemma BeginsExactlyWhen(db: Db, callId: Id, id: Id, now: Time)
    ensures BeginRecording(db, callId, id, now).Some?
            <==> && callId in db.calls && (db.calls[callId].phase == Dialing || db.calls[callId].phase == Active)
                 && forall r :: r in db.recordings ==> db.recordings[r].callId != callId
    ensures BeginRecording(db, callId, id, now).Some? ==>
      var after := BeginRecording(db, callId, id, now).value;
      && after.recordings == db.recordings[id := RecordingRow(callId, None, Recording, false)]
      && QueuedNext(db, after, CreateRecording(id), now, now)
      && after.calls == db.calls && after.chunks == db.chunks
  {
  }

  /** The chunk is stored with its size and its start, and queued. */
  lemma StoreMeans(db: Db, r: Id, seqNo: nat, blob: Blob, startedAt: Time, now: Time)
    ensures
      var after := StoreChunk(db, r, seqNo, blob, startedAt, now);
      && after.chunks == db.chunks[(r, seqNo) := ChunkRow(blob, |blob|, startedAt)]
      && QueuedNext(db, after, Segment(r, seqNo), now, now)
      && after.calls == db.calls && after.recordings == db.recordings
  {
  }

  /** A running recording becomes closing with its flag and queues its close; any other stays as it is. */
  lemma FinishMeans(db: Db, r: Id, interrupted: bool, now: Time)
    ensures
      var after := FinishRecording(db, r, interrupted, now);
      if r in db.recordings && db.recordings[r].status == Recording then
        var row := db.recordings[r];
        && after.recordings == db.recordings[r := RecordingRow(row.callId, row.remoteId, Closing, interrupted)]
        && QueuedNext(db, after, Close(r, interrupted), now, now)
        && after.calls == db.calls && after.chunks == db.chunks
      else after == db
  {
  }

  // ----- transactions of the outbox -----

  const MAX_ATTEMPTS := 20

  function DropRow(db: Db, s: int): Db {
    db.(queue := db.queue - {s})
  }

  /**
   * What becomes of a row whose attempt failed, and whether its job left the retry
   * schedule. Nothing is left of a heartbeat that would have been parked.
   */
  function Failed(row: QueueRow, rejected: bool, error: string, now: Time, random: real): (Option<QueueRow>, bool) {
    var failed := row.(attempts := row.attempts + 1, lastError := Some(error));
    if !rejected && failed.attempts < MAX_ATTEMPTS then
      (Some(failed.(nextAttemptAt := now + BackoffMs(failed.attempts, random))), false)
    else if IsHeartbeat(row.job) then (None, true)
    else (Some(failed.(deadAt := Some(now))), true)
  }

  function Replace(db: Db, s: int, row: Option<QueueRow>): Db {
    if row.None? then DropRow(db, s) else db.(queue := db.queue[s := row.value])
  }

  function RecordFailure(db: Db, s: int, rejected: bool, error: string, now: Time, random: real): (Db, bool) {
    if s !in db.queue then (db, false) else
      var (row, left) := Failed(db.queue[s], rejected, error, now, random);
      (Replace(db, s, row), left)
  }

  /** A failure is counted once; what is left of the row is due later, or parked, or a heartbeat that is gone. */
  lemma FailureMovesOn(row: QueueRow, rejected: bool, error: string, now: Time, random: real)
    requires 0.0 <= random < 1.0 && row.Live()
    ensures
      var (after, left) := Failed(row, rejected, error, now, random);
      && (left <==> rejected || row.attempts + 1 >= MAX_ATTEMPTS)
      && (after.None? <==> left && IsHeartbeat(row.job))
      && (after.Some? ==> after.value.attempts == row.attempts + 1 && after.value.job == row.job)
      && (after.Some? ==> (after.value.Live() <==> !left) && (!left ==> now < after.value.nextAttemptAt < now + MAX_BACKOFF_MS))
  {
    hide BackoffMs, BackoffCeiling;
    BackoffBounds(row.attempts + 1, random);
  }

  function Requeued(row: QueueRow, now: Time): QueueRow {
    if row.Live() then row else row.(attempts := 0, nextAttemptAt := now, deadAt := None)
  }

  function RequeueDeadLetters(db: Db, now: Time): Db {
    db.(queue := map s | s in db.queue :: Requeued(db.queue[s], now))
  }

  /** Every parked job is back on the schedule with all its attempts, due now; the others are as they were. */
  lemma DeadLettersAreBack(db: Db, now: Time, s: int)
    ensures s in RequeueDeadLetters(db, now).queue <==> s in db.queue
    ensures s in db.queue ==>
      var row, after := db.queue[s], RequeueDeadLetters(db, now).queue[s];
      && after.Live() && after.job == row.job && after.createdAt == row.createdAt
      && (row.Live() ==> after == row)
      && (!row.Live() ==> after.attempts == 0 && after.nextAttemptAt == now && after.lastError == row.lastError)
  {
  }

  // ----- what the chunk store says about one recording -----

  function SeqNos(chunks: map<ChunkKey, ChunkRow>, r: Id): set<nat> {
    set k | k in chunks && k.0 == r :: k.1
  }

  /** The last listed sequence number plus one, or 0 when there is none. */
  function Bound(s: set<nat>): (n: nat)
    ensures forall i :: i in s ==> i < n
    ensures n > 0 ==> n - 1 in s
  {
    var listed := SortedKeys(s);
    if listed == [] then 0 else
      assert forall i :: i in s ==> i in listed;
      listed[|listed| - 1] + 1
  }

  function BytesBelow(chunks: map<ChunkKey, ChunkRow>, r: Id, n: nat): nat {
    if n == 0 then 0 else
      BytesBelow(chunks, r, n - 1) + if (r, n - 1) in chunks then chunks[(r, n - 1)].bytes else 0
  }

  datatype Totals = Totals(segments: nat, bytes: nat)

  function TotalsOf(chunks: map<ChunkKey, ChunkRow>, r: Id): Totals {
    var n := Bound(SeqNos(chunks, r));
    Totals(n, BytesBelow(chunks, r, n))
  }

  lemma {:induction false} BytesLocal(c: map<ChunkKey, ChunkRow>, d: map<ChunkKey, ChunkRow>, r: Id, n: nat)
    requires forall k: ChunkKey :: k.0 == r ==> (k in c <==> k in d) && (k in c ==> c[k] == d[k])
    ensures BytesBelow(c, r, n) == BytesBelow(d, r, n)
  {
    if n > 0 { BytesLocal(c, d, r, n - 1); }
  }

  /** The totals of a recording depend on its own chunks only. */
  lemma TotalsLocal(c: map<ChunkKey, ChunkRow>, d: map<ChunkKey, ChunkRow>, r: Id)
    requires forall k: ChunkKey :: k.0 == r ==> (k in c <==> k in d) && (k in c ==> c[k] == d[k])
    ensures TotalsOf(c, r) == TotalsOf(d, r)
  {
    assert SeqNos(c, r) == SeqNos(d, r);
    BytesLocal(c, d, r, Bound(SeqNos(c, r)));
  }
}
