/** What a pass does to each row, said of the store before and after it and of what the environment answers. */
module PassMeaning {
  import opened Domain
  import opened Store
  import opened Delivery
  import opened Pass
  import opened Lanes

  /** Nothing happened to the row, and it was not sent. */
  ghost predicate Untouched(before: PassState, after: PassState, s: int) {
    after.db == before.db && after.log == before.log && !Sent(after, s) && !after.ended
  }

  /** The row was sent; its outcome says what became of it, and it holds its lane or was dealt with. */
  ghost predicate SentAs(before: PassState, after: PassState, s: int, queued: QueueRow, outcome: Outcome, answer: Answer) {
    && after.log == before.log + [Entry(s, queued, outcome)]
    && Became(queued, At(after.db.queue, s), outcome, answer.t)
    && after.held == (if DealtWith(after, s) then before.held else before.held + {LaneOf(queued.job)})
    && after.progressed == (before.progressed || outcome.Done?)
  }

  function At(queue: map<int, QueueRow>, s: int): Option<QueueRow> { if s in queue then Some(queue[s]) else None }

  /** The failure was counted, with its error, and the row is otherwise as it was. */
  predicate Counted(row: QueueRow, after: QueueRow, error: string) {
    && after.job == row.job && after.createdAt == row.createdAt
    && after.attempts == row.attempts + 1 && after.lastError == Some(error)
  }

  /** Off the schedule: parked, or gone if it was a heartbeat. */
  predicate LeftSchedule(row: QueueRow, after: Option<QueueRow>, error: string, now: Time) {
    if row.job.Event? && row.job.kind == "executive.heartbeat" then after.None?
    else after.Some? && Counted(row, after.value, error) && after.value.deadAt == Some(now)
  }

  /** What becomes of a live row that was sent. */
  predicate Became(row: QueueRow, after: Option<QueueRow>, outcome: Outcome, t: Ticks) {
    match outcome
    case Done => after.None?
    case Waiting => after == Some(row)
    case Rejected(error) => LeftSchedule(row, after, error, t.now)
    case Retry(error) =>
      if row.attempts + 1 >= 20 then LeftSchedule(row, after, error, t.now)
      else
        && after.Some? && Counted(row, after.value, error) && after.value.Live()
        && after.value.nextAttemptAt == t.now + BackoffMs(row.attempts + 1, t.random)
  }

  lemma SettlesAs(db: Db, s: int, row: QueueRow, outcome: Outcome, t: Ticks)
    requires row.Live() && (if outcome.Done? then s !in db.queue else s in db.queue && db.queue[s] == row)
    ensures
      var (after, hold) := Settle(db, s, outcome, t);
      && Became(row, At(after.queue, s), outcome, t)
      && (hold <==> !outcome.Done? && !outcome.Waiting? && s in after.queue && after.queue[s].Live())
  {
    hide BackoffMs;
  }

  lemma AttemptedOwnRow(db: Db, s: int, row: QueueRow, refreshed: bool, answer: Answer)
    requires Numbered(db) && s in db.queue && db.queue[s] == row
    ensures
      var tried := Attempted(db, s, row, refreshed, answer);
      if tried.outcome == Some(Done) then s !in tried.db.queue else s in tried.db.queue && tried.db.queue[s] == row
  {
    hide Delivered;
    DeliveredOwnRow(db, s, row, answer.first, answer.t);
    var (after, outcome) := Delivered(db, s, row, answer.first, answer.t);
    if outcome.None? {
      DeliveredTouches(db, s, row, answer.first, answer.t);
      DeliveredOwnRow(after, s, row, answer.second, answer.t);
    }
  }

  lemma OneEntry(before: PassState, after: PassState, s: int, queued: QueueRow, outcome: Outcome)
    requires after.log == before.log + [Entry(s, queued, outcome)] && !Sent(before, s)
    ensures DealtWith(after, s)
            <==> outcome.Done? || outcome.Waiting? || s !in after.db.queue || !after.db.queue[s].Live()
    ensures Sent(after, s)
  {
    assert Entry(s, queued, outcome) in after.log;
    forall e | e in after.log && e.sequence == s ensures e == Entry(s, queued, outcome) {
      assert e in before.log ==> Sent(before, s);
    }
  }

  /** One turn: the row is left alone, or its lane is held, or it is sent, or the pass ends. */
  lemma TurnMeans(st: PassState, s: int, queued: QueueRow, force: bool, answer: Answer)
    requires Numbered(st.db) && s in st.db.queue && st.db.queue[s] == queued && !st.ended && !Sent(st, s)
    ensures
      var after, lane := Visited(st, s, queued, force, answer), LaneOf(queued.job);
      var due := force || queued.nextAttemptAt <= answer.scannedAt;
      if !queued.Live() || lane in st.held then after == st
      else if !due then Untouched(st, after, s) && after.held == st.held + {lane} && after.progressed == st.progressed
      else after.ended || exists outcome :: SentAs(st, after, s, queued, outcome, answer)
  {
    hide Delivered, Settle, Attempted, BackoffMs, Became;
    var after := Visited(st, s, queued, force, answer);
    if queued.Live() && LaneOf(queued.job) !in st.held && (force || queued.nextAttemptAt <= answer.scannedAt) {
      var tried := Attempted(st.db, s, queued, st.refreshed, answer);
      AttemptedOwnRow(st.db, s, queued, st.refreshed, answer);
      if tried.outcome.Some? {
        SettlesAs(tried.db, s, queued, tried.outcome.value, answer.t);
        OneEntry(st, after, s, queued, tried.outcome.value);
        assert SentAs(st, after, s, queued, tried.outcome.value, answer);
      }
    }
  }

  // ----- the whole pass -----

  /** Live, due, and no live row before it holds its lane. */
  ghost predicate MayGo(st: PassState, seen: Listing, i: int, force: bool, answers: int -> Answer)
    requires 0 <= i < |seen|
  {
    && seen[i].1.Live() && (force || seen[i].1.nextAttemptAt <= answers(seen[i].0).scannedAt)
    && forall j :: 0 <= j < i && seen[j].1.Live() && LaneOf(seen[j].1.job) == LaneOf(seen[i].1.job) ==> DealtWith(st, seen[j].0)
  }

  /** What was sent of a row, and what is left of it. */
  ghost predicate Entered(st: PassState, s: int, row: QueueRow, t: Ticks) {
    if Sent(st, s) then exists e :: e in st.log && e.sequence == s && e.row == row && Became(row, At(st.db.queue, s), e.outcome, t)
    else At(st.db.queue, s) == Some(row)
  }

  ghost predicate RowsMeant(st: PassState, seen: Listing, force: bool, answers: int -> Answer) {
    forall i :: 0 <= i < |seen| ==>
      && (Sent(st, seen[i].0) <==> MayGo(st, seen, i, force, answers))
      && Entered(st, seen[i].0, seen[i].1, answers(seen[i].0).t)
  }

  /** A lane is held exactly by a live row that was not dealt with. */
  ghost predicate LanesMeant(st: PassState, seen: Listing) {
    forall lane :: lane in st.held
      <==> exists i :: 0 <= i < |seen| && seen[i].1.Live() && LaneOf(seen[i].1.job) == lane && !DealtWith(st, seen[i].0)
  }

  ghost predicate ProgressMeant(st: PassState) {
    st.progressed <==> exists e :: e in st.log && e.outcome.Done?
  }

  ghost predicate Meant(st: PassState, seen: Listing, force: bool, answers: int -> Answer) {
    RowsMeant(st, seen, force, answers) && LanesMeant(st, seen) && ProgressMeant(st) && SentOnly(st, seen)
  }

  /** A turn of another row leaves what is known of this one. */
  lemma OthersStay(before: PassState, after: PassState, s: int, k: int)
    requires k != s && k < before.db.nextSequence && TouchesOnly(before.db, after.db, s)
    requires after.log == before.log || (|after.log| == |before.log| + 1 && after.log[..|before.log|] == before.log
                                          && after.log[|before.log|].sequence == s)
    ensures Sent(after, k) <==> Sent(before, k)
    ensures DealtWith(after, k) <==> DealtWith(before, k)
    ensures At(after.db.queue, k) == At(before.db.queue, k)
    ensures forall row, t :: Entered(before, k, row, t) <==> Entered(after, k, row, t)
  {
    hide Became;
    assert forall e: Entry :: e.sequence == k ==> (e in after.log <==> e in before.log) by {
      forall e: Entry | e.sequence == k ensures e in after.log <==> e in before.log {
        if e in after.log {
          var n :| 0 <= n < |after.log| && after.log[n] == e;
          assert n < |before.log| ==> before.log[n] == e;
        }
        if e in before.log {
          var n :| 0 <= n < |before.log| && before.log[n] == e;
          assert after.log[..|before.log|][n] == e;
        }
      }
    }
  }

  lemma TurnRows(st: PassState, after: PassState, seen: Listing, s: int, queued: QueueRow, force: bool, answers: int -> Answer)
    requires RowsMeant(st, seen, force, answers) && Ascending(seen + [(s, queued)])
    requires forall k :: k != s && k < s ==> (Sent(after, k) <==> Sent(st, k)) && (DealtWith(after, k) <==> DealtWith(st, k))
    requires forall k, row, t :: k != s && k < s ==> (Entered(st, k, row, t) <==> Entered(after, k, row, t))
    requires Sent(after, s) <==> MayGo(after, seen + [(s, queued)], |seen|, force, answers)
    requires Entered(after, s, queued, answers(s).t)
    ensures RowsMeant(after, seen + [(s, queued)], force, answers)
  {
    hide Sent, DealtWith, Entered, LaneOf;
    var now := seen + [(s, queued)];
    forall i | 0 <= i < |seen| ensures now[i] == seen[i] && seen[i].0 < s { assert now[i].0 < now[|seen|].0; }
    forall i | 0 <= i < |now|
      ensures Sent(after, now[i].0) <==> MayGo(after, now, i, force, answers)
      ensures Entered(after, now[i].0, now[i].1, answers(now[i].0).t)
    {
      if i < |seen| { assert MayGo(st, seen, i, force, answers) <==> MayGo(after, now, i, force, answers); }
    }
  }

  lemma TurnLanes(st: PassState, after: PassState, seen: Listing, s: int, queued: QueueRow)
    requires LanesMeant(st, seen) && Ascending(seen + [(s, queued)])
    requires forall k :: k != s && k < s ==> (DealtWith(after, k) <==> DealtWith(st, k))
    requires after.held == if queued.Live() && !DealtWith(after, s) then st.held + {LaneOf(queued.job)} else st.held
    ensures LanesMeant(after, seen + [(s, queued)])
  {
    hide DealtWith, LaneOf;
    var now := seen + [(s, queued)];
    forall i | 0 <= i < |seen| ensures now[i] == seen[i] && seen[i].0 < s { assert now[i].0 < now[|seen|].0; }
    forall lane
      ensures lane in after.held
        <==> exists i :: 0 <= i < |now| && now[i].1.Live() && LaneOf(now[i].1.job) == lane && !DealtWith(after, now[i].0)
    {
      if lane in st.held {
        var i :| 0 <= i < |seen| && seen[i].1.Live() && LaneOf(seen[i].1.job) == lane && !DealtWith(st, seen[i].0);
        assert now[i] == seen[i];
      }
      if lane in after.held && lane !in st.held { assert now[|seen|] == (s, queued); }
      if i :| 0 <= i < |now| && now[i].1.Live() && LaneOf(now[i].1.job) == lane && !DealtWith(after, now[i].0) {
        if i < |seen| { assert now[i] == seen[i]; }
      }
    }
  }

  lemma UnsentYet(st: PassState, seen: Listing, s: int, queued: QueueRow)
    requires SentOnly(st, seen) && Ascending(seen + [(s, queued)])
    ensures !Sent(st, s)
  {
    var now := seen + [(s, queued)];
    forall e | e in st.log ensures e.sequence != s {
      var i :| 0 <= i < |seen| && seen[i].0 == e.sequence;
      assert now[i].0 < now[|seen|].0;
    }
  }

  /** A free lane is one whose earlier live rows were dealt with. */
  lemma FreeLane(st: PassState, after: PassState, seen: Listing, s: int, queued: QueueRow, force: bool, answers: int -> Answer)
    requires LanesMeant(st, seen) && Ascending(seen + [(s, queued)])
    requires forall k :: k != s && k < s ==> (DealtWith(after, k) <==> DealtWith(st, k))
    ensures MayGo(after, seen + [(s, queued)], |seen|, force, answers)
            <==> queued.Live() && (force || queued.nextAttemptAt <= answers(s).scannedAt) && LaneOf(queued.job) !in st.held
  {
    hide DealtWith, LaneOf;
    var now := seen + [(s, queued)];
    forall i | 0 <= i < |seen| ensures now[i] == seen[i] && seen[i].0 < s { assert now[i].0 < now[|seen|].0; }
    if LaneOf(queued.job) in st.held {
      var i :| 0 <= i < |seen| && seen[i].1.Live() && LaneOf(seen[i].1.job) == LaneOf(queued.job) && !DealtWith(st, seen[i].0);
      assert now[i].1.Live() && LaneOf(now[i].1.job) == LaneOf(now[|seen|].1.job);
    }
  }

  lemma NotDealtWith(st: PassState, s: int)
    requires !Sent(st, s)
    ensures !DealtWith(st, s)
  {
  }

  lemma LogShape(st: PassState, after: PassState, seen: Listing, s: int, queued: QueueRow)
    requires SentOnly(st, seen) && ProgressMeant(st)
    requires
      || (after.log == st.log && after.progressed == st.progressed)
      || exists outcome :: after.log == st.log + [Entry(s, queued, outcome)]
           && after.progressed == (st.progressed || outcome.Done?)
    ensures SentOnly(after, seen + [(s, queued)]) && ProgressMeant(after)
  {
    var now := seen + [(s, queued)];
    forall e | e in after.log ensures exists i :: 0 <= i < |now| && now[i].0 == e.sequence {
      if e in st.log {
        var i :| 0 <= i < |seen| && seen[i].0 == e.sequence;
        assert now[i].0 == e.sequence;
      } else {
        assert now[|seen|].0 == e.sequence;
      }
    }
  }

  /** The row that was sent, once more: its entry is in the log. */
  lemma EntersAs(before: PassState, after: PassState, s: int, queued: QueueRow, outcome: Outcome, answer: Answer)
    requires SentAs(before, after, s, queued, outcome, answer)
    ensures Sent(after, s) && Entered(after, s, queued, answer.t)
    ensures |after.log| == |before.log| + 1 && after.log[..|before.log|] == before.log && after.log[|before.log|].sequence == s
  {
    hide Became;
    assert Entry(s, queued, outcome) in after.log;
  }

  lemma TurnKeeps(st: PassState, seen: Listing, s: int, queued: QueueRow, force: bool, answers: int -> Answer)
    requires Numbered(st.db) && s in st.db.queue && st.db.queue[s] == queued && !st.ended
    requires Meant(st, seen, force, answers) && Ascending(seen + [(s, queued)])
    ensures
      var after := Visited(st, s, queued, force, answers(s));
      !after.ended ==> Meant(after, seen + [(s, queued)], force, answers)
  {
    hide Visited, Sent, DealtWith, Entered, MayGo, RowsMeant, LanesMeant, ProgressMeant, SentOnly, Became, SentAs, LaneOf;
    var after := Visited(st, s, queued, force, answers(s));
    UnsentYet(st, seen, s, queued);
    TurnMeans(st, s, queued, force, answers(s));
    VisitTouches(st, s, queued, force, answers(s));
    if !after.ended {
      if queued.Live() && LaneOf(queued.job) !in st.held && (force || queued.nextAttemptAt <= answers(s).scannedAt) {
        var outcome :| SentAs(st, after, s, queued, outcome, answers(s));
        SentTurn(st, after, seen, s, queued, outcome, force, answers);
      } else {
        UnsentTurn(st, after, seen, s, queued, force, answers);
      }
    }
  }

  lemma SentTurn(st: PassState, after: PassState, seen: Listing, s: int, queued: QueueRow, outcome: Outcome, force: bool,
                 answers: int -> Answer)
    requires Numbered(st.db) && s in st.db.queue && TouchesOnly(st.db, after.db, s)
    requires Meant(st, seen, force, answers) && Ascending(seen + [(s, queued)])
    requires SentAs(st, after, s, queued, outcome, answers(s)) && queued.Live() && LaneOf(queued.job) !in st.held
    requires force || queued.nextAttemptAt <= answers(s).scannedAt
    ensures Meant(after, seen + [(s, queued)], force, answers)
  {
    hide Sent, DealtWith, Entered, MayGo, RowsMeant, LanesMeant, ProgressMeant, SentOnly, Became, LaneOf, TouchesOnly;
    EntersAs(st, after, s, queued, outcome, answers(s));
    forall k | k != s && k < s
      ensures Sent(after, k) <==> Sent(st, k)
      ensures DealtWith(after, k) <==> DealtWith(st, k)
    {
      OthersStay(st, after, s, k);
    }
    forall k, row, t | k != s && k < s ensures Entered(st, k, row, t) <==> Entered(after, k, row, t) {
      OthersStay(st, after, s, k);
    }
    FreeLane(st, after, seen, s, queued, force, answers);
    TurnRows(st, after, seen, s, queued, force, answers);
    TurnLanes(st, after, seen, s, queued);
    LogShape(st, after, seen, s, queued);
  }

  lemma UnsentTurn(st: PassState, after: PassState, seen: Listing, s: int, queued: QueueRow, force: bool, answers: int -> Answer)
    requires Numbered(st.db) && s in st.db.queue && st.db.queue[s] == queued && !Sent(st, s)
    requires Meant(st, seen, force, answers) && Ascending(seen + [(s, queued)])
    requires after.db == st.db && after.log == st.log && after.progressed == st.progressed
    requires
      if !queued.Live() || LaneOf(queued.job) in st.held then after.held == st.held
      else after.held == st.held + {LaneOf(queued.job)} && !force && queued.nextAttemptAt > answers(s).scannedAt
    ensures Meant(after, seen + [(s, queued)], force, answers)
  {
    hide DealtWith, MayGo, RowsMeant, LanesMeant, ProgressMeant, SentOnly, Became, LaneOf, TouchesOnly;
    assert !Sent(after, s);
    NotDealtWith(after, s);
    SameTouches(st.db, s);
    forall k | k != s && k < s
      ensures Sent(after, k) <==> Sent(st, k)
      ensures DealtWith(after, k) <==> DealtWith(st, k)
    {
      OthersStay(st, after, s, k);
    }
    forall k, row, t | k != s && k < s ensures Entered(st, k, row, t) <==> Entered(after, k, row, t) {
      OthersStay(st, after, s, k);
    }
    FreeLane(st, after, seen, s, queued, force, answers);
    TurnRows(st, after, seen, s, queued, force, answers);
    TurnLanes(st, after, seen, s, queued);
    LogShape(st, after, seen, s, queued);
  }

  lemma SameTouches(db: Db, s: int)
    ensures TouchesOnly(db, db, s)
  {
  }

  lemma {:induction false} PassKeeps(st: PassState, seen: Listing, rows: Listing, force: bool, answers: int -> Answer)
    requires Numbered(st.db) && Intact(st.db, rows) && Ascending(seen + rows)
    requires !st.ended ==> Meant(st, seen, force, answers)
    ensures
      var after := PassFrom(st, rows, force, answers);
      !after.ended ==> Meant(after, seen + rows, force, answers)
    decreases |rows|
  {
    hide Visited, Meant;
    if rows == [] {
      assert seen + rows == seen;
    } else if !st.ended {
      var (s, queued) := rows[0];
      assert seen + rows == seen + [(s, queued)] + rows[1..];
      AscendingPrefix(seen + [(s, queued)], rows[1..]);
      TurnKeeps(st, seen, s, queued, force, answers);
      VisitLeavesIntact(st, rows, force, answers(s));
      PassKeeps(Visited(st, s, queued, force, answers(s)), seen + [(s, queued)], rows[1..], force, answers);
    }
  }

  lemma BegunMeans(db: Db, force: bool, answers: int -> Answer)
    ensures Meant(Pass.Begun(db), [], force, answers)
  {
  }

  lemma PassIsMeant(db: Db, force: bool, answers: int -> Answer)
    requires Numbered(db) && !PassOf(db, true, force, answers).ended
    ensures Meant(PassOf(db, true, force, answers), Listed(db.queue), force, answers)
  {
    hide PassFrom, Meant, Listed;
    var rows := Listed(db.queue);
    ListedIntact(db);
    BegunMeans(db, force, answers);
    assert [] + rows == rows;
    PassKeeps(Pass.Begun(db), [], rows, force, answers);
  }

  /** The earlier rows of its lane that were live when the pass began. */
  predicate AheadInLane(queue: map<int, QueueRow>, k: int, s: int)
    requires s in queue
  {
    k in queue && k < s && queue[k].Live() && LaneOf(queue[k].job) == LaneOf(queue[s].job)
  }

  /**
   * Online and signed in, in a pass that no 401 ends, a row is sent exactly when it is live, it is due or the pass is
   * forced, and every earlier live row of its lane was sent and was delivered, waits, or left the schedule.
   */
  lemma SentExactlyWhen(db: Db, force: bool, answers: int -> Answer, s: int)
    requires Numbered(db) && s in db.queue && !PassOf(db, true, force, answers).ended
    ensures
      var pass := PassOf(db, true, force, answers);
      Sent(pass, s)
      <==> && db.queue[s].Live()
           && (force || db.queue[s].nextAttemptAt <= answers(s).scannedAt)
           && forall k :: AheadInLane(db.queue, k, s) ==> DealtWith(pass, k)
  {
    hide PassOf, DealtWith, Listed, Sent, LaneOf, Entered, LanesMeant, ProgressMeant, SentOnly;
    PassIsMeant(db, force, answers);
    ListedIntact(db);
    var pass, rows := PassOf(db, true, force, answers), Listed(db.queue);
    var i := ListedAt(db.queue, s);
    assert MayGo(pass, rows, i, force, answers) <==> Sent(pass, s);
    forall k | AheadInLane(db.queue, k, s) ensures exists j :: 0 <= j < i && rows[j] == (k, db.queue[k]) {
      var j := ListedAt(db.queue, k);
      assert j < i;
    }
  }

  /** A row that was not sent is as it was; one that was sent became what its outcome says. */
  lemma RowsBecome(db: Db, force: bool, answers: int -> Answer, s: int)
    requires Numbered(db) && s in db.queue && !PassOf(db, true, force, answers).ended
    ensures
      var pass := PassOf(db, true, force, answers);
      if Sent(pass, s) then
        exists e :: e in pass.log && e.sequence == s && e.row == db.queue[s]
          && Became(db.queue[s], At(pass.db.queue, s), e.outcome, answers(s).t)
      else At(pass.db.queue, s) == Some(db.queue[s])
  {
    hide PassOf, Listed, Sent, Became, MayGo, LanesMeant, ProgressMeant, SentOnly;
    PassIsMeant(db, force, answers);
    var i := ListedAt(db.queue, s);
    assert Entered(PassOf(db, true, force, answers), s, db.queue[s], answers(s).t);
  }

  /** A pass made progress exactly when some row was delivered. */
  lemma ProgressExactlyWhen(db: Db, force: bool, answers: int -> Answer)
    requires Numbered(db) && !PassOf(db, true, force, answers).ended
    ensures
      var pass := PassOf(db, true, force, answers);
      pass.progressed <==> exists e :: e in pass.log && e.outcome.Done?
  {
    hide PassOf, RowsMeant, LanesMeant, SentOnly;
    PassIsMeant(db, force, answers);
  }
}
