/** A pass of the outbox that nothing else interrupts, as a function of what the environment answers. */
module Pass {
  import opened Domain
  import opened Store
  import opened Delivery

  /** What the environment says while one row is handled: the clock, and up to two replies. */
  datatype Answer = Answer(scannedAt: Time, first: Reply, rotated: bool, second: Reply, t: Ticks)

  /** One `deliver`; no outcome is a 401. */
  function Delivered(db: Db, s: int, row: QueueRow, reply: Reply, t: Ticks): (Db, Option<Outcome>) {
    match PlanOf(db, s, row)
    case Drop => (DropRow(db, s), Some(Done))
    case Wait => (db, Some(Waiting))
    case Send(request) =>
      if reply.Unauthorized? then (db, None)
      else var (after, outcome) := Receive(db, s, row, request, reply, t); (after, Some(outcome))
  }

  /** No outcome ends the pass. */
  datatype Attempt = Attempt(db: Db, outcome: Option<Outcome>, refreshed: bool)

  /** A 401 rotates the tokens once per pass and sends the row again. */
  function Attempted(db: Db, s: int, row: QueueRow, refreshed: bool, answer: Answer): Attempt {
    var (after, outcome) := Delivered(db, s, row, answer.first, answer.t);
    if outcome.Some? then Attempt(after, outcome, refreshed)
    else if refreshed then Attempt(after, Some(Retry(STILL_UNAUTHORIZED)), true)
    else if !answer.rotated then Attempt(after, None, true)
    else
      var (again, second) := Delivered(after, s, row, answer.second, answer.t);
      Attempt(again, if second.Some? then second else Some(Retry(STILL_UNAUTHORIZED)), true)
  }

  /** One attempt as the pass made it: the row it sent, and how that ended. */
  datatype Entry = Entry(sequence: int, row: QueueRow, outcome: Outcome)

  datatype PassState = PassState(
    db: Db,
    held: set<Lane>,
    refreshed: bool,
    progressed: bool,
    ended: bool,
    log: seq<Entry>)

  /** One turn of the loop. */
  function Visited(st: PassState, s: int, queued: QueueRow, force: bool, answer: Answer): PassState {
    match Choose(st.db.queue, st.held, force, s, queued, answer.scannedAt)
    case Skip => st
    case HoldLane => st.(held := st.held + {LaneOf(queued.job)})
    case Pick =>
      var row := st.db.queue[s];
      var tried := Attempted(st.db, s, row, st.refreshed, answer);
      if tried.outcome.None? then st.(db := tried.db, refreshed := tried.refreshed, ended := true)
      else
        var (db, hold) := Settle(tried.db, s, tried.outcome.value, answer.t);
        PassState(db, if hold then st.held + {LaneOf(row.job)} else st.held, tried.refreshed,
                  st.progressed || tried.outcome.value.Done?, false,
                  st.log + [Entry(s, row, tried.outcome.value)])
  }

  /** The rest of the loop over what the pass listed. */
  function PassFrom(st: PassState, rows: Listing, force: bool, answers: int -> Answer): PassState
    decreases |rows|
  {
    if rows == [] || st.ended then st
    else PassFrom(Visited(st, rows[0].0, rows[0].1, force, answers(rows[0].0)), rows[1..], force, answers)
  }

  function Begun(db: Db): PassState { PassState(db, {}, false, false, false, []) }

  /** Offline or signed out, a pass does nothing. */
  function PassOf(db: Db, ready: bool, force: bool, answers: int -> Answer): PassState {
    if !ready then Begun(db) else PassFrom(Begun(db), Listed(db.queue), force, answers)
  }

  // ----- a turn of the loop touches its own row and adds new ones -----

  /** The numbers in use are below the next one. */
  predicate Numbered(db: Db) { forall s :: s in db.queue ==> s < db.nextSequence }

  ghost predicate TouchesOnly(before: Db, after: Db, s: int) {
    && before.nextSequence <= after.nextSequence
    && (forall k :: k in before.queue && k != s ==> k in after.queue && after.queue[k] == before.queue[k])
    && (forall k :: k in after.queue && k !in before.queue ==> before.nextSequence <= k < after.nextSequence)
  }

  lemma {:induction false} EnqueueSegmentsAdds(db: Db, r: Id, missing: seq<nat>, dueAt: Time, now: Time, s: int)
    requires Numbered(db) && s < db.nextSequence
    ensures
      var after := EnqueueSegments(db, r, missing, dueAt, now);
      Numbered(after) && TouchesOnly(db, after, s) && (s in db.queue ==> s in after.queue && after.queue[s] == db.queue[s])
    decreases |missing|
  {
    if missing == [] {
    } else {
      EnqueueSegmentsAdds(Enqueue(db, Segment(r, missing[0]), Some(dueAt), now), r, missing[1..], dueAt, now, s);
    }
  }

  /** The `i`th missing segment has a row of its own, due at `dueAt`. */
  predicate QueuedAgain(before: Db, after: Db, job: Job, i: nat, dueAt: Time, now: Time) {
    var s := before.nextSequence + i;
    s in after.queue && after.queue[s] == QueueRow(job, now, 0, dueAt, None, None)
  }

  lemma {:induction false} EachMissingIsQueued(db: Db, r: Id, missing: seq<nat>, dueAt: Time, now: Time, i: nat)
    requires Numbered(db) && i < |missing|
    ensures
      var after := EnqueueSegments(db, r, missing, dueAt, now);
      after.nextSequence == db.nextSequence + |missing| && QueuedAgain(db, after, Segment(r, missing[i]), i, dueAt, now)
    decreases |missing|
  {
    var next := Enqueue(db, Segment(r, missing[0]), Some(dueAt), now);
    EnqueueSegmentsAdds(next, r, missing[1..], dueAt, now, db.nextSequence);
    if i > 0 {
      EachMissingIsQueued(next, r, missing[1..], dueAt, now, i - 1);
    } else if |missing| > 1 {
      EachMissingIsQueued(next, r, missing[1..], dueAt, now, 0);
    }
  }

  /** An answer `missing` is a retry; it queues all of the segments, each due with the close, or none if one is gone. */
  lemma MissingIsSentAgain(db: Db, row: QueueRow, r: Id, missing: seq<nat>, t: Ticks)
    requires Numbered(db)
    ensures
      var (after, outcome) := RequeueMissing(db, row, r, missing, t);
      var dueAt := t.now + BackoffMs(row.attempts + 1, t.random);
      && outcome.Retry?
      && (outcome == Retry(RESENDING) <==> forall i :: i in missing ==> (r, i) in db.chunks)
      && (outcome != Retry(RESENDING) ==> after == db)
      && (outcome == Retry(RESENDING) ==>
            && (missing != [] ==> after.nextSequence == db.nextSequence + |missing|)
            && forall i: nat :: i < |missing| ==> QueuedAgain(db, after, Segment(r, missing[i]), i, dueAt, t.now))
  {
    hide BackoffMs, QueuedAgain;
    var dueAt := t.now + BackoffMs(row.attempts + 1, t.random);
    var queued := EnqueueSegments(db, r, missing, dueAt, t.now);
    forall i: nat | i < |missing|
      ensures QueuedAgain(db, queued, Segment(r, missing[i]), i, dueAt, t.now)
      ensures queued.nextSequence == db.nextSequence + |missing|
    {
      EachMissingIsQueued(db, r, missing, dueAt, t.now, i);
    }
    if missing != [] { EachMissingIsQueued(db, r, missing, dueAt, t.now, 0); }
  }

  /** Once the tokens were rotated, a 401 costs the row an attempt, and nothing more is asked for it. */
  lemma TokensRotateOncePerPass(db: Db, s: int, row: QueueRow, answer: Answer)
    requires Delivered(db, s, row, answer.first, answer.t).1.None?
    ensures Attempted(db, s, row, true, answer).outcome == Some(Retry(STILL_UNAUTHORIZED))
    ensures !answer.rotated ==> Attempted(db, s, row, false, answer) == Attempt(db, None, true)
    ensures answer.rotated && answer.second.Unauthorized? ==>
      Attempted(db, s, row, false, answer).outcome == Some(Retry(STILL_UNAUTHORIZED))
    ensures Attempted(db, s, row, false, answer).refreshed
  {
    hide Receive;
  }

  lemma DeliveredTouches(db: Db, s: int, row: QueueRow, reply: Reply, t: Ticks)
    requires Numbered(db) && s in db.queue
    ensures Numbered(Delivered(db, s, row, reply, t).0) && TouchesOnly(db, Delivered(db, s, row, reply, t).0, s)
  {
    hide BackoffMs, TotalsOf, Uploadable, SegmentsLeft;
    if row.job.Close? && reply.Ok? && reply.body.Missing? {
      EnqueueSegmentsAdds(db, row.job.recording, reply.body.seqNos,
                          t.now + BackoffMs(row.attempts + 1, t.random), t.now, s);
    }
  }

  lemma VisitTouches(st: PassState, s: int, queued: QueueRow, force: bool, answer: Answer)
    requires Numbered(st.db)
    ensures
      var after := Visited(st, s, queued, force, answer);
      Numbered(after.db) && TouchesOnly(st.db, after.db, s)
  {
    hide Delivered, Settle;
    if Choose(st.db.queue, st.held, force, s, queued, answer.scannedAt).Pick? {
      var row := st.db.queue[s];
      var tried := Attempted(st.db, s, row, st.refreshed, answer);
      DeliveredTouches(st.db, s, row, answer.first, answer.t);
      var (after, outcome) := Delivered(st.db, s, row, answer.first, answer.t);
      if outcome.None? && !st.refreshed && answer.rotated { DeliveredAgain(st.db, after, s, row, answer); }
      if tried.outcome.Some? { SettleTouches(tried.db, s, tried.outcome.value, answer.t); }
    }
  }

  /** The second `deliver` of a row finds the store as the first one did. */
  lemma DeliveredAgain(db: Db, after: Db, s: int, row: QueueRow, answer: Answer)
    requires Numbered(db) && s in db.queue && Delivered(db, s, row, answer.first, answer.t) == (after, None)
    ensures after == db
    ensures Numbered(Delivered(after, s, row, answer.second, answer.t).0)
    ensures TouchesOnly(db, Delivered(after, s, row, answer.second, answer.t).0, s)
  {
    DeliveredTouches(db, s, row, answer.second, answer.t);
  }

  lemma SettleTouches(db: Db, s: int, outcome: Outcome, t: Ticks)
    requires Numbered(db)
    ensures Numbered(Settle(db, s, outcome, t).0) && TouchesOnly(db, Settle(db, s, outcome, t).0, s)
    ensures Settle(db, s, outcome, t).0.nextSequence == db.nextSequence
  {
    hide BackoffMs;
  }

  /** The rows still to come are as they were listed. */
  ghost predicate Intact(db: Db, rows: Listing) {
    && (forall i, j :: 0 <= i < j < |rows| ==> rows[i].0 < rows[j].0)
    && (forall i :: 0 <= i < |rows| ==> rows[i].0 in db.queue && db.queue[rows[i].0] == rows[i].1)
  }

  lemma VisitLeavesIntact(st: PassState, rows: Listing, force: bool, answer: Answer)
    requires Numbered(st.db) && Intact(st.db, rows) && rows != []
    ensures
      var after := Visited(st, rows[0].0, rows[0].1, force, answer);
      Numbered(after.db) && Intact(after.db, rows[1..])
  {
    hide Visited;
    VisitTouches(st, rows[0].0, rows[0].1, force, answer);
  }

  lemma ListedIntact(db: Db)
    ensures Intact(db, Listed(db.queue))
  {
  }

  lemma ListedAt(queue: map<int, QueueRow>, s: int) returns (i: nat)
    requires s in queue
    ensures i < |Listed(queue)| && Listed(queue)[i] == (s, queue[s])
  {
    var ks := SortedKeys(queue.Keys);
    assert s in ks;
    i :| 0 <= i < |ks| && ks[i] == s;
  }
}
