/** The extension's database and outbox as objects, each method against its transaction. */
module Outbox {
  import opened Domain
  import S = Store
  import opened Delivery
  import opened Pass
  import opened Termination

  /** Puts the parked rows of a listing back, one after the other. */
  function RequeueRows(queue: map<int, QueueRow>, rows: Listing, now: Time): map<int, QueueRow>
    decreases |rows|
  {
    if rows == [] then queue
    else
      var (s, row) := rows[0];
      RequeueRows(if row.Live() then queue else queue[s := row.(attempts := 0, nextAttemptAt := now, deadAt := None)],
                  rows[1..], now)
  }

  lemma {:induction false} RequeueRowsEach(queue: map<int, QueueRow>, rows: Listing, now: Time, s: int)
    requires forall i :: 0 <= i < |rows| ==> rows[i].0 in queue
    requires forall i, j :: 0 <= i < j < |rows| ==> rows[i].0 < rows[j].0
    ensures RequeueRows(queue, rows, now).Keys == queue.Keys
    ensures s in queue && (forall i :: 0 <= i < |rows| ==> rows[i].0 != s) ==> RequeueRows(queue, rows, now)[s] == queue[s]
    ensures forall i :: s in queue && 0 <= i < |rows| && rows[i] == (s, queue[s]) ==>
      RequeueRows(queue, rows, now)[s] == S.Requeued(queue[s], now)
    decreases |rows|
  {
    if rows == [] {
    } else {
      var (k, row) := rows[0];
      var next := if row.Live() then queue else queue[k := row.(attempts := 0, nextAttemptAt := now, deadAt := None)];
      RequeueRowsEach(next, rows[1..], now, s);
    }
  }

  lemma RequeuesAll(queue: map<int, QueueRow>, now: Time)
    ensures RequeueRows(queue, Listed(queue), now) == map s | s in queue :: S.Requeued(queue[s], now)
  {
    hide RequeueRows, Listed;
    ListedIntact(Db(map[], map[], map[], queue, 0));
    var after := RequeueRows(queue, Listed(queue), now);
    RequeueRowsEach(queue, Listed(queue), now, 0);
    forall s | s in queue ensures s in after && after[s] == S.Requeued(queue[s], now) {
      var i := ListedAt(queue, s);
      RequeueRowsEach(queue, Listed(queue), now, s);
    }
  }

  /** Every method is one transaction, or a part of one that its caller finishes. */
  class Database {
    var calls: map<Id, CallRow>
    var recordings: map<Id, RecordingRow>
    var chunks: map<ChunkKey, ChunkRow>
    var queue: map<int, QueueRow>
    var nextSequence: int

    ghost function View(): Db
      reads this
    {
      Db(calls, recordings, chunks, queue, nextSequence)
    }

    constructor ()
      ensures View() == EMPTY_DB
    {
      calls, recordings, chunks, queue, nextSequence := map[], map[], map[], map[], 1;
    }

    method Enqueue(job: Job, dueAt: Option<Time>, now: Time) returns (sequence: int)
      modifies this
      ensures View() == S.Enqueue(old(View()), job, dueAt, now)
      ensures sequence == old(nextSequence)
    {
      sequence := nextSequence;
      nextSequence := sequence + 1;
      var due := now;
      if dueAt.Some? { due := dueAt.value; }
      queue := queue[sequence := QueueRow(job, now, 0, due, None, None)];
    }

    method BeginRecording(callId: Id, id: Id, now: Time) returns (begun: bool)
      modifies this
      ensures begun <==> S.BeginRecording(old(View()), callId, id, now).Some?
      ensures View() == if begun then S.BeginRecording(old(View()), callId, id, now).value else old(View())
    {
      if callId !in calls || !IsLiveCall(calls[callId]) { return false; }
      if exists r :: r in recordings && recordings[r].callId == callId { return false; }
      recordings := recordings[id := RecordingRow(callId, None, Recording, false)];
      var _ := Enqueue(CreateRecording(id), None, now);
      return true;
    }

    method StoreChunk(r: Id, seqNo: nat, blob: Blob, startedAt: Time, now: Time)
      modifies this
      ensures View() == S.StoreChunk(old(View()), r, seqNo, blob, startedAt, now)
    {
      chunks := chunks[(r, seqNo) := ChunkRow(blob, |blob|, startedAt)];
      var _ := Enqueue(Segment(r, seqNo), None, now);
    }

    method FinishRecording(r: Id, interrupted: bool, now: Time)
      modifies this
      ensures View() == S.FinishRecording(old(View()), r, interrupted, now)
    {
      if r !in recordings || recordings[r].status != Recording { return; }
      recordings := recordings[r := recordings[r].(status := Closing, interrupted := interrupted)];
      var _ := Enqueue(Close(r, interrupted), None, now);
    }

    method DropRow(s: int)
      modifies this
      ensures View() == S.DropRow(old(View()), s)
    {
      queue := queue - {s};
    }

    method RecordFailure(s: int, rejected: bool, error: string, now: Time, random: real) returns (left: bool)
      modifies this
      ensures (View(), left) == S.RecordFailure(old(View()), s, rejected, error, now, random)
    {
      if s !in queue { return false; }
      var row := queue[s];
      var failed := row.(attempts := row.attempts + 1, lastError := Some(error));
      if !rejected && failed.attempts < S.MAX_ATTEMPTS {
        queue := queue[s := failed.(nextAttemptAt := now + S.BackoffMs(failed.attempts, random))];
        return false;
      }
      if IsHeartbeat(row.job) {
        queue := queue - {s};
        return true;
      }
      queue := queue[s := failed.(deadAt := Some(now))];
      return true;
    }

    method RequeueDeadLetters(now: Time)
      modifies `queue
      ensures View() == S.RequeueDeadLetters(old(View()), now)
    {
      hide Listed;
      var rows := Listed(queue);
      ghost var before := queue;
      var i := 0;
      while i < |rows|
        invariant 0 <= i <= |rows|
        invariant RequeueRows(queue, rows[i..], now) == RequeueRows(before, rows, now)
      {
        var (s, row) := rows[i];
        if row.deadAt.Some? {
          queue := queue[s := row.(attempts := 0, nextAttemptAt := now, deadAt := None)];
        }
        i := i + 1;
      }
      RequeuesAll(before, now);
    }

    /** The number after the last listed chunk, and the bytes of all of them. */
    method TotalsOf(r: Id) returns (totals: S.Totals)
      ensures totals == S.TotalsOf(chunks, r)
    {
      hide SortedKeys;
      var listed := SortedKeys(S.SeqNos(chunks, r));
      forall i | 0 <= i < |listed| ensures listed[i] in S.SeqNos(chunks, r) && listed[i] >= 0 {
        assert listed[i] in listed;
      }
      var bytes, i := 0, 0;
      while i < |listed|
        invariant 0 <= i <= |listed|
        invariant bytes == S.BytesBelow(chunks, r, if i == 0 then 0 else listed[i - 1] + 1)
      {
        NoChunkBetween(listed, i, r);
        bytes := bytes + chunks[(r, listed[i])].bytes;
        i := i + 1;
      }
      totals := S.Totals(if |listed| == 0 then 0 else listed[|listed| - 1] + 1, bytes);
    }

    /** Two numbers listed one after the other have no chunk between them. */
    lemma NoChunkBetween(listed: seq<int>, i: nat, r: Id)
      requires i < |listed| && listed == SortedKeys(S.SeqNos(chunks, r))
      requires forall j :: 0 <= j < |listed| ==> listed[j] in S.SeqNos(chunks, r) && listed[j] >= 0
      ensures S.BytesBelow(chunks, r, if i == 0 then 0 else listed[i - 1] + 1) == S.BytesBelow(chunks, r, listed[i])
    {
      var lo: nat := if i == 0 then 0 else listed[i - 1] + 1;
      assert forall n: nat :: (r, n) in chunks ==> n in S.SeqNos(chunks, r);
      GapAddsNothing(r, lo, listed[i]);
    }

    lemma {:induction false} GapAddsNothing(r: Id, lo: nat, hi: nat)
      requires lo <= hi && forall n: nat :: lo <= n < hi ==> (r, n) !in chunks
      ensures S.BytesBelow(chunks, r, lo) == S.BytesBelow(chunks, r, hi)
      decreases hi
    {
      if lo < hi { GapAddsNothing(r, lo, hi - 1); }
    }

    method RequeueMissing(row: QueueRow, r: Id, missing: seq<nat>, t: Ticks) returns (outcome: Outcome)
      modifies this
      ensures (View(), outcome) == Delivery.RequeueMissing(old(View()), row, r, missing, t)
    {
      var dueAt := t.now + S.BackoffMs(row.attempts + 1, t.random);
      var gone, i := [], 0;
      while i < |missing|
        invariant 0 <= i <= |missing|
        invariant gone == [] <==> forall k :: k in missing[..i] ==> (r, k) in chunks
      {
        if (r, missing[i]) !in chunks { gone := gone + [missing[i]]; }
        assert missing[..i + 1] == missing[..i] + [missing[i]];
        i := i + 1;
      }
      assert missing[..i] == missing;
      if |gone| > 0 { return Retry(GONE); }
      i := 0;
      while i < |missing|
        invariant 0 <= i <= |missing|
        invariant EnqueueSegments(View(), r, missing[i..], dueAt, t.now)
                  == EnqueueSegments(old(View()), r, missing, dueAt, t.now)
      {
        var _ := Enqueue(Segment(r, missing[i]), Some(dueAt), t.now);
        i := i + 1;
      }
      return Retry(RESENDING);
    }

    method CompleteRecording(s: int, r: Id, confirmed: S.Totals) returns (outcome: Outcome)
      modifies this
      ensures (View(), outcome) == Delivery.CompleteRecording(old(View()), s, r, confirmed)
    {
      var stored := TotalsOf(r);
      if stored != confirmed { return Retry(CHANGED); }
      chunks := map k | k in chunks && k.0 != r :: chunks[k];
      if r in recordings { recordings := recordings[r := recordings[r].(status := Complete)]; }
      queue := queue - {s};
      return Done;
    }

    method StoreRemoteId(s: int, r: Id, remoteId: Id)
      modifies this
      ensures View() == Delivery.StoreRemoteId(old(View()), s, r, remoteId)
    {
      if r in recordings { recordings := recordings[r := recordings[r].(remoteId := Some(remoteId))]; }
      queue := queue - {s};
    }
  }

  /** One `deliver` of a row, given the reply its request would get; no outcome is a 401. */
  method Deliver(db: Database, s: int, row: QueueRow, reply: Reply, t: Ticks) returns (outcome: Option<Outcome>)
    modifies db
    ensures (db.View(), outcome) == Delivered(old(db.View()), s, row, reply, t)
  {
    match row.job
    case Event(_, _, _) => outcome := DeliverEvent(db, s, row, reply, t);
    case CreateRecording(r) => outcome := DeliverCreate(db, s, row, reply, t);
    case Segment(_, _) => outcome := DeliverSegment(db, s, row, reply, t);
    case Close(_, _) => outcome := DeliverClose(db, s, row, reply, t);
  }

  method DeliverEvent(db: Database, s: int, row: QueueRow, reply: Reply, t: Ticks) returns (outcome: Option<Outcome>)
    requires row.job.Event?
    modifies db
    ensures (db.View(), outcome) == Delivered(old(db.View()), s, row, reply, t)
  {
    match reply
    case Unauthorized => return None;
    case Retryable(error) => return Some(Retry(error));
    case Refused(error) => return Some(Rejected(error));
    case Ok(_) =>
      db.DropRow(s);
      return Some(Done);
  }

  method DeliverCreate(db: Database, s: int, row: QueueRow, reply: Reply, t: Ticks) returns (outcome: Option<Outcome>)
    requires row.job.CreateRecording?
    modifies db
    ensures (db.View(), outcome) == Delivered(old(db.View()), s, row, reply, t)
  {
    var r := row.job.recording;
    if r !in db.recordings || db.recordings[r].remoteId.Some? {
      db.DropRow(s);
      return Some(Done);
    }
    match reply
    case Unauthorized => return None;
    case Retryable(error) => return Some(Retry(error));
    case Refused(error) => return Some(Rejected(error));
    case Ok(body) =>
      if !body.Created? { return Some(Retry(UNEXPECTED)); }
      db.StoreRemoteId(s, r, body.recordingId);
      return Some(Done);
  }

  method DeliverSegment(db: Database, s: int, row: QueueRow, reply: Reply, t: Ticks) returns (outcome: Option<Outcome>)
    requires row.job.Segment?
    modifies db
    ensures (db.View(), outcome) == Delivered(old(db.View()), s, row, reply, t)
  {
    var r := row.job.recording;
    if (r, row.job.seqNo) !in db.chunks {
      db.DropRow(s);
      return Some(Done);
    }
    if r !in db.recordings || db.recordings[r].remoteId.None? || db.recordings[r].remoteId.value == "" {
      return Some(Waiting);
    }
    match reply
    case Unauthorized => return None;
    case Retryable(error) => return Some(Retry(error));
    case Refused(error) => return Some(Rejected(error));
    case Ok(body) =>
      if !body.Uploaded? { return Some(Retry(UNEXPECTED)); }
      db.DropRow(s);
      return Some(Done);
  }

  method DeliverClose(db: Database, s: int, row: QueueRow, reply: Reply, t: Ticks) returns (outcome: Option<Outcome>)
    requires row.job.Close?
    modifies db
    ensures (db.View(), outcome) == Delivered(old(db.View()), s, row, reply, t)
  {
    hide S.BackoffMs, S.TotalsOf, EnqueueSegments;
    var r := row.job.recording;
    if r !in db.recordings || db.recordings[r].status == Complete {
      db.DropRow(s);
      return Some(Done);
    }
    var segmentsLeft := exists k :: k in db.queue && IsSegmentOf(db.queue[k].job, r);
    if db.recordings[r].remoteId.None? || db.recordings[r].remoteId.value == "" || segmentsLeft {
      return Some(Waiting);
    }
    var manifest := db.TotalsOf(r);
    match reply
    case Unauthorized => return None;
    case Retryable(error) => return Some(Retry(error));
    case Refused(error) => return Some(Rejected(error));
    case Ok(body) =>
      var ended: Outcome;
      match body {
        case Missing(missing) => ended := db.RequeueMissing(row, r, missing, t);
        case Completed(totals) =>
          if totals != manifest { return Some(Retry(MISCOUNTED)); }
          ended := db.CompleteRecording(s, r, manifest);
        case _ => ended := Retry(UNEXPECTED);
      }
      return Some(ended);
  }

  /** The module state of one pass. */
  class PassRun {
    var refreshed: bool
    var held: set<Lane>
    var progressed: bool

    constructor ()
      ensures !refreshed && held == {} && !progressed
    {
      refreshed, held, progressed := false, {}, false;
    }

    /** Sends the row, and after the first 401 of the pass sends it again with new tokens. */
    method AttemptRow(db: Database, s: int, row: QueueRow, answer: Answer) returns (outcome: Option<Outcome>)
      modifies db, `refreshed
      ensures Attempt(db.View(), outcome, refreshed) == Attempted(old(db.View()), s, row, old(refreshed), answer)
    {
      hide Delivered;
      outcome := Deliver(db, s, row, answer.first, answer.t);
      if outcome.Some? { return; }
      if refreshed { return Some(Retry(STILL_UNAUTHORIZED)); }
      refreshed := true;
      if !answer.rotated { return None; }
      outcome := Deliver(db, s, row, answer.second, answer.t);
      if outcome.None? { outcome := Some(Retry(STILL_UNAUTHORIZED)); }
    }

    method SettleRow(db: Database, s: int, row: QueueRow, outcome: Outcome, t: Ticks) returns (done: bool)
      modifies db, `held
      ensures
        var (after, hold) := Settle(old(db.View()), s, outcome, t);
        && db.View() == after
        && held == if hold then old(held) + {LaneOf(row.job)} else old(held)
      ensures done <==> outcome.Done?
    {
      hide S.RecordFailure;
      match outcome
      case Done => return true;
      case Waiting => return false;
      case Retry(error) =>
        var left := db.RecordFailure(s, false, error, t.now, t.random);
        if !left { held := held + {LaneOf(row.job)}; }
        return false;
      case Rejected(error) =>
        var left := db.RecordFailure(s, true, error, t.now, t.random);
        if !left { held := held + {LaneOf(row.job)}; }
        return false;
    }

    ghost function State(db: Database, ended: bool, log: seq<Entry>): PassState
      reads this, db
    {
      PassState(db.View(), held, refreshed, progressed, ended, log)
    }

    /** The loop of the pass; the log is what it sent. */
    method Run(db: Database, rows: Listing, force: bool, answers: int -> Answer) returns (ghost log: seq<Entry>, ended: bool)
      modifies db, this
      ensures State(db, ended, log) == PassFrom(old(State(db, false, [])), rows, force, answers)
    {
      hide Attempted, Settle;
      log, ended := [], false;
      var i := 0;
      while i < |rows| && !ended
        invariant 0 <= i <= |rows|
        invariant PassFrom(State(db, ended, log), rows[i..], force, answers)
                  == PassFrom(old(State(db, false, [])), rows, force, answers)
      {
        var (s, queued) := rows[i];
        ghost var before := State(db, ended, log);
        var lane, answer := LaneOf(queued.job), answers(s);
        i := i + 1;
        if queued.deadAt.Some? { continue; }
        if lane in held { continue; }
        if !force && queued.nextAttemptAt > answer.scannedAt {
          held := held + {lane};
          continue;
        }
        if s !in db.queue { continue; }
        var row := db.queue[s];
        var outcome := AttemptRow(db, s, row, answer);
        if outcome.None? {
          ended := true;
        } else {
          var done := SettleRow(db, s, row, outcome.value, answer.t);
          progressed := done || progressed;
          log := log + [Entry(s, row, outcome.value)];
        }
        assert State(db, ended, log) == Visited(before, s, queued, force, answer);
      }
    }
  }

  /** One pass; offline or signed out it does nothing. */
  method RunPass(db: Database, ready: bool, force: bool, answers: int -> Answer) returns (progressed: bool)
    modifies db
    ensures
      var pass := PassOf(old(db.View()), ready, force, answers);
      db.View() == pass.db && progressed == pass.progressed
  {
    hide PassFrom;
    if !ready { return false; }
    var run := new PassRun();
    var _, _ := run.Run(db, Listed(db.queue), force, answers);
    return run.progressed;
  }

  /** Passes until one makes no progress. It ends for both values of `force`, whatever the network does. */
  method RunUntilIdle(db: Database, force: bool, network: Network) returns (passes: nat)
    requires Numbered(db.View())
    modifies db
    ensures (db.View(), passes) == UntilIdle(old(db.View()), force, network, 0)
  {
    hide PassOf, CloseBudget, LiveRows;
    ProgressShrinks(db.View(), network(0).0, force, network(0).1);
    var progressed := RunPass(db, network(0).0, force, network(0).1);
    passes := 1;
    while progressed
      invariant Numbered(db.View())
      invariant UntilIdle(old(db.View()), force, network, 0)
                == if progressed then UntilIdle(db.View(), force, network, passes) else (db.View(), passes)
      decreases CloseBudget(db.View()), LiveRows(db.View()), progressed
    {
      ProgressShrinks(db.View(), network(passes).0, force, network(passes).1);
      progressed := RunPass(db, network(passes).0, force, network(passes).1);
      passes := passes + 1;
    }
  }
}
