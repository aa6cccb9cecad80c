/** Passes repeat only while they make progress, and no server can keep them going. */
module Termination {
  import opened Domain
  import opened Store
  import opened Delivery
  import opened Pass

  // ----- sums over the queue -----

  ghost function Total(q: map<int, QueueRow>, weight: QueueRow -> nat): nat
    decreases |q|
  {
    if exists s: int :: s in q then
      var s: int :| s in q;
      weight(q[s]) + Total(q - {s}, weight)
    else 0
  }

  lemma {:induction false} TotalPull(q: map<int, QueueRow>, s: int, weight: QueueRow -> nat)
    requires s in q
    ensures Total(q, weight) == weight(q[s]) + Total(q - {s}, weight)
    decreases |q|
  {
    var t: int :| t in q && Total(q, weight) == weight(q[t]) + Total(q - {t}, weight);
    if t != s {
      TotalPull(q - {t}, s, weight);
      TotalPull(q - {s}, t, weight);
      assert q - {t} - {s} == q - {s} - {t};
    }
  }

  lemma TotalPut(q: map<int, QueueRow>, s: int, row: QueueRow, weight: QueueRow -> nat)
    ensures Total(q[s := row], weight) == Total(q - {s}, weight) + weight(row)
  {
    TotalPull(q[s := row], s, weight);
    assert q[s := row] - {s} == q - {s};
  }

  /** Failed attempts left to a close that is still on the schedule. */
  function CloseWeight(row: QueueRow): nat {
    if !row.job.Close? || !row.Live() then 0
    else if row.attempts < MAX_ATTEMPTS then MAX_ATTEMPTS - row.attempts else 1
  }

  function LiveWeight(row: QueueRow): nat { if row.Live() then 1 else 0 }

  ghost function CloseBudget(db: Db): nat { Total(db.queue, CloseWeight) }
  ghost function LiveRows(db: Db): nat { Total(db.queue, LiveWeight) }

  /** The measure is no larger, and smaller if `strictly`. */
  ghost predicate Shrunk(before: Db, after: Db, strictly: bool) {
    || CloseBudget(after) < CloseBudget(before)
    || (CloseBudget(after) == CloseBudget(before)
        && (if strictly then LiveRows(after) < LiveRows(before) else LiveRows(after) <= LiveRows(before)))
  }

  // ----- one turn of the loop -----

  lemma DropShrinks(before: Db, after: Db, s: int)
    requires s in before.queue && before.queue[s].Live() && after.queue == before.queue - {s}
    ensures Shrunk(before, after, true)
  {
    TotalPull(before.queue, s, CloseWeight);
    TotalPull(before.queue, s, LiveWeight);
  }

  /** A row put back after a failure weighs no more, and less if it is a close. */
  lemma PutShrinks(before: Db, after: Db, s: int, row: QueueRow)
    requires s in before.queue && before.queue[s].Live() && after.queue == before.queue[s := row]
    requires CloseWeight(row) <= CloseWeight(before.queue[s])
    ensures Shrunk(before, after, false)
    ensures CloseBudget(after) - CloseWeight(row) == CloseBudget(before) - CloseWeight(before.queue[s])
  {
    TotalPull(before.queue, s, CloseWeight);
    TotalPull(before.queue, s, LiveWeight);
    TotalPut(before.queue, s, row, CloseWeight);
    TotalPut(before.queue, s, row, LiveWeight);
  }

  /** Counting a failure costs a close one of its attempts. */
  lemma FailureShrinks(db: Db, s: int, rejected: bool, error: string, t: Ticks)
    requires s in db.queue && db.queue[s].Live()
    ensures
      var after := RecordFailure(db, s, rejected, error, t.now, t.random).0;
      Shrunk(db, after, false) && (db.queue[s].job.Close? ==> CloseBudget(after) < CloseBudget(db))
  {
    hide BackoffMs;
    var after := RecordFailure(db, s, rejected, error, t.now, t.random).0;
    if s !in after.queue {
      DropShrinks(db, after, s);
    } else {
      PutShrinks(db, after, s, after.queue[s]);
    }
  }

  lemma {:induction false} EnqueueCostsNoClose(db: Db, r: Id, missing: seq<nat>, dueAt: Time, now: Time, s: int)
    requires forall k :: k in db.queue ==> k < db.nextSequence
    ensures
      var after := EnqueueSegments(db, r, missing, dueAt, now);
      && CloseBudget(after) == CloseBudget(db)
      && (forall k :: k in after.queue ==> k < after.nextSequence)
      && (forall k :: k in db.queue ==> k in after.queue && after.queue[k] == db.queue[k])
    decreases |missing|
  {
    if missing == [] {
    } else {
      var next := Enqueue(db, Segment(r, missing[0]), Some(dueAt), now);
      TotalPut(db.queue, db.nextSequence, next.queue[db.nextSequence], CloseWeight);
      assert db.queue - {db.nextSequence} == db.queue;
      EnqueueCostsNoClose(next, r, missing[1..], dueAt, now, s);
    }
  }

  /** Before its failure is counted, only the close's answer `missing` has added rows. */
  lemma DeliveredShape(db: Db, s: int, row: QueueRow, reply: Reply, t: Ticks)
    requires Numbered(db) && s in db.queue && db.queue[s] == row
    ensures
      var (after, outcome) := Delivered(db, s, row, reply, t);
      && Numbered(after)
      && (outcome.Some? && outcome.value.Done? ==> after.queue == db.queue - {s})
      && (outcome.None? || outcome.value.Waiting? ==> after == db)
      && (outcome.Some? && !outcome.value.Done? ==> s in after.queue && after.queue[s] == row)
      && (outcome.Some? && !outcome.value.Done? ==>
            after.queue == db.queue || (row.job.Close? && CloseBudget(after) == CloseBudget(db) && !outcome.value.Waiting?))
  {
    hide BackoffMs, TotalsOf, Uploadable, SegmentsLeft, CloseBudget;
    if row.job.Close? && reply.Ok? && reply.body.Missing? {
      EnqueueCostsNoClose(db, row.job.recording, reply.body.seqNos,
                          t.now + BackoffMs(row.attempts + 1, t.random), t.now, s);
    }
  }

  lemma AttemptedShape(db: Db, s: int, row: QueueRow, refreshed: bool, answer: Answer)
    requires Numbered(db) && s in db.queue && db.queue[s] == row
    ensures
      var tried := Attempted(db, s, row, refreshed, answer);
      && Numbered(tried.db)
      && (tried.outcome.Some? && tried.outcome.value.Done? ==> tried.db.queue == db.queue - {s})
      && (tried.outcome.None? || tried.outcome.value.Waiting? ==> tried.db == db)
      && (tried.outcome.Some? && !tried.outcome.value.Done? ==> s in tried.db.queue && tried.db.queue[s] == row)
      && (tried.outcome.Some? && !tried.outcome.value.Done? ==>
            || tried.db.queue == db.queue
            || (row.job.Close? && CloseBudget(tried.db) == CloseBudget(db) && !tried.outcome.value.Waiting?))
  {
    hide Delivered, CloseBudget;
    DeliveredShape(db, s, row, answer.first, answer.t);
    var (after, outcome) := Delivered(db, s, row, answer.first, answer.t);
    if outcome.None? && !refreshed && answer.rotated {
      DeliveredShape(after, s, row, answer.second, answer.t);
      var (again, second) := Delivered(after, s, row, answer.second, answer.t);
      if second.None? {
        assert again == db;
        assert Attempted(db, s, row, refreshed, answer).db == again;
      } else {
        assert Attempted(db, s, row, refreshed, answer) == Attempt(again, second, true);
      }
    }
  }

  lemma SettledShrinks(db: Db, tried: Db, s: int, outcome: Outcome, t: Ticks)
    requires Numbered(db) && Numbered(tried) && s in db.queue && db.queue[s].Live()
    requires outcome.Done? ==> tried.queue == db.queue - {s}
    requires outcome.Waiting? ==> tried == db
    requires !outcome.Done? ==> s in tried.queue && tried.queue[s] == db.queue[s]
    requires !outcome.Done? && tried.queue != db.queue ==> db.queue[s].job.Close? && CloseBudget(tried) == CloseBudget(db)
    ensures
      var after := Settle(tried, s, outcome, t).0;
      Numbered(after) && Shrunk(db, after, outcome.Done?)
  {
    hide RecordFailure;
    match outcome
    case Done => DropShrinks(db, tried, s);
    case Waiting =>
    case Retry(error) => FailureNumbered(tried, s, false, error, t);
    case Rejected(error) => FailureNumbered(tried, s, true, error, t);
  }

  lemma FailureNumbered(db: Db, s: int, rejected: bool, error: string, t: Ticks)
    requires Numbered(db) && s in db.queue && db.queue[s].Live()
    ensures
      var after := RecordFailure(db, s, rejected, error, t.now, t.random).0;
      && Numbered(after)
      && Shrunk(db, after, false) && (db.queue[s].job.Close? ==> CloseBudget(after) < CloseBudget(db))
  {
    hide BackoffMs;
    FailureShrinks(db, s, rejected, error, t);
  }

  lemma VisitShrinks(st: PassState, s: int, queued: QueueRow, force: bool, answer: Answer)
    requires Numbered(st.db) && (s in st.db.queue && queued.Live() ==> st.db.queue[s].Live())
    ensures
      var after := Visited(st, s, queued, force, answer);
      && Numbered(after.db)
      && (st.progressed ==> after.progressed)
      && Shrunk(st.db, after.db, after.progressed && !st.progressed)
  {
    hide Attempted, Settle, Shrunk;
    ShrunkReflexive(st.db);
    if Choose(st.db.queue, st.held, force, s, queued, answer.scannedAt).Pick? {
      var row := st.db.queue[s];
      var tried := Attempted(st.db, s, row, st.refreshed, answer);
      AttemptedShape(st.db, s, row, st.refreshed, answer);
      if tried.outcome.Some? {
        SettledShrinks(st.db, tried.db, s, tried.outcome.value, answer.t);
        ShrunkWeakens(st.db, Settle(tried.db, s, tried.outcome.value, answer.t).0);
      }
    }
  }

  lemma ShrunkReflexive(db: Db)
    ensures Shrunk(db, db, false)
  {
  }

  lemma ShrunkWeakens(before: Db, after: Db)
    ensures Shrunk(before, after, true) ==> Shrunk(before, after, false)
  {
  }

  lemma ShrunkTransitive(a: Db, b: Db, c: Db, first: bool, second: bool)
    requires Shrunk(a, b, first) && Shrunk(b, c, second)
    ensures Shrunk(a, c, first || second)
  {
  }

  lemma {:induction false} PassFromShrinks(st: PassState, rows: Listing, force: bool, answers: int -> Answer)
    requires Numbered(st.db) && Intact(st.db, rows)
    ensures
      var after := PassFrom(st, rows, force, answers);
      && Numbered(after.db)
      && (st.progressed ==> after.progressed)
      && Shrunk(st.db, after.db, after.progressed && !st.progressed)
    decreases |rows|
  {
    hide Visited, Shrunk;
    if rows == [] || st.ended {
      ShrunkReflexive(st.db);
    } else {
      var (s, queued) := rows[0];
      var next := Visited(st, s, queued, force, answers(s));
      VisitShrinks(st, s, queued, force, answers(s));
      VisitLeavesIntact(st, rows, force, answers(s));
      PassFromShrinks(next, rows[1..], force, answers);
      var after := PassFrom(next, rows[1..], force, answers);
      ShrunkTransitive(st.db, next.db, after.db, next.progressed && !st.progressed, after.progressed && !next.progressed);
    }
  }

  /** A pass that made progress has a smaller measure, whatever the server answered. */
  lemma ProgressShrinks(db: Db, ready: bool, force: bool, answers: int -> Answer)
    requires Numbered(db)
    ensures
      var after := PassOf(db, ready, force, answers);
      Numbered(after.db) && Shrunk(db, after.db, after.progressed)
  {
    ListedIntact(db);
    PassFromShrinks(Pass.Begun(db), Listed(db.queue), force, answers);
  }

  /** The environment of a flush: is it online and signed in, and what does each pass get to hear. */
  type Network = nat -> (bool, int -> Answer)

  /** Passes, until one makes no progress. That this recursion is well founded is the point. */
  function UntilIdle(db: Db, force: bool, network: Network, n: nat): (Db, nat)
    requires Numbered(db)
    decreases CloseBudget(db), LiveRows(db)
  {
    var (ready, answers) := network(n);
    var pass := PassOf(db, ready, force, answers);
    ProgressShrinks(db, ready, force, answers);
    if pass.progressed then UntilIdle(pass.db, force, network, n + 1) else (pass.db, n + 1)
  }

  /** The store after `n` passes. */
  function AfterPasses(db: Db, force: bool, network: Network, n: nat): Db {
    if n == 0 then db else PassOf(AfterPasses(db, force, network, n - 1), network(n - 1).0, force, network(n - 1).1).db
  }

  ghost predicate MakesProgress(db: Db, force: bool, network: Network, n: nat) {
    PassOf(AfterPasses(db, force, network, n), network(n).0, force, network(n).1).progressed
  }

  lemma {:induction false} StopsFrom(db: Db, force: bool, network: Network, n: nat)
    requires Numbered(AfterPasses(db, force, network, n))
    ensures
      var (after, m) := UntilIdle(AfterPasses(db, force, network, n), force, network, n);
      && n < m && after == AfterPasses(db, force, network, m) && !MakesProgress(db, force, network, m - 1)
      && forall k :: n <= k < m - 1 ==> MakesProgress(db, force, network, k)
    decreases CloseBudget(AfterPasses(db, force, network, n)), LiveRows(AfterPasses(db, force, network, n))
  {
    hide PassOf, CloseBudget, LiveRows;
    ProgressShrinks(AfterPasses(db, force, network, n), network(n).0, force, network(n).1);
    if MakesProgress(db, force, network, n) { StopsFrom(db, force, network, n + 1); }
  }

  /** Forced or not, the loop stops after the first pass that made no progress; offline or signed out none does. */
  lemma StopsWithoutProgress(db: Db, force: bool, network: Network)
    requires Numbered(db)
    ensures
      var (after, m) := UntilIdle(db, force, network, 0);
      && m >= 1 && after == AfterPasses(db, force, network, m) && !MakesProgress(db, force, network, m - 1)
      && forall k: nat :: k < m - 1 ==> MakesProgress(db, force, network, k)
    ensures !network(0).0 ==> UntilIdle(db, force, network, 0) == (db, 1)
  {
    StopsFrom(db, force, network, 0);
  }
}
