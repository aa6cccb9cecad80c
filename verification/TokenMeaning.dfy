/** What a 401 means over a whole pass: the tokens are rotated for the first one, and for no other. */
module TokenMeaning {
  import opened Domain
  import opened Store
  import opened Delivery
  import opened Pass

  /** The pass after the first `i` rows of its listing. */
  function After(db: Db, rows: Listing, i: nat, force: bool, answers: int -> Answer): PassState
    requires i <= |rows|
  {
    PassFrom(Begun(db), rows[..i], force, answers)
  }

  lemma {:induction false} PassFromLast(st: PassState, rows: Listing, force: bool, answers: int -> Answer)
    requires rows != []
    ensures
      var front, (s, queued) := PassFrom(st, rows[..|rows| - 1], force, answers), rows[|rows| - 1];
      PassFrom(st, rows, force, answers) == if front.ended then front else Visited(front, s, queued, force, answers(s))
    decreases |rows|
  {
    hide Visited;
    if |rows| > 1 && !st.ended {
      var (s, queued) := rows[0];
      PassFromLast(Visited(st, s, queued, force, answers(s)), rows[1..], force, answers);
      assert rows[1..][..|rows| - 2] == rows[..|rows| - 1][1..];
    }
  }

  /** Row `i` of the listing was sent, and answered with a 401. */
  ghost predicate Met401(db: Db, rows: Listing, i: nat, force: bool, answers: int -> Answer)
    requires i < |rows|
  {
    var st, (s, queued) := After(db, rows, i, force, answers), rows[i];
    && !st.ended && Choose(st.db.queue, st.held, force, s, queued, answers(s).scannedAt).Pick?
    && PlanOf(st.db, s, st.db.queue[s]).Send? && answers(s).first.Unauthorized?
  }

  ghost predicate NoneBefore(db: Db, rows: Listing, i: nat, force: bool, answers: int -> Answer)
    requires i <= |rows|
  {
    forall j :: 0 <= j < i ==> !Met401(db, rows, j, force, answers)
  }

  /** One row: what it does to the tokens, and what it sends once they were rotated. */
  lemma OneRow(db: Db, rows: Listing, i: nat, force: bool, answers: int -> Answer)
    requires i < |rows|
    ensures
      var st, now, s := After(db, rows, i, force, answers), After(db, rows, i + 1, force, answers), rows[i].0;
      var met := Met401(db, rows, i, force, answers);
      && now.refreshed == (st.refreshed || met)
      && now.ended == (st.ended || (met && !st.refreshed && !answers(s).rotated))
      && (met && now.ended ==> now.db == st.db && now.log == st.log)
      && (met && st.refreshed ==> now.log == st.log + [Entry(s, st.db.queue[s], Retry(STILL_UNAUTHORIZED))])
  {
    hide PassFrom, Choose, Settle, PlanOf, Receive;
    PassFromLast(Begun(db), rows[..i + 1], force, answers);
    assert rows[..i + 1][..i] == rows[..i];
  }

  lemma {:induction false} SoFar(db: Db, rows: Listing, i: nat, force: bool, answers: int -> Answer)
    requires i <= |rows|
    ensures
      var st := After(db, rows, i, force, answers);
      && (st.refreshed <==> !NoneBefore(db, rows, i, force, answers))
      && (st.ended
          <==> exists j :: 0 <= j < i && Met401(db, rows, j, force, answers) && NoneBefore(db, rows, j, force, answers)
                 && !answers(rows[j].0).rotated)
  {
    hide After, Met401;
    if i == 0 {
      NothingYet(db, rows, force, answers);
    } else {
      SoFar(db, rows, i - 1, force, answers);
      OneRow(db, rows, i - 1, force, answers);
      assert NoneBefore(db, rows, i, force, answers)
        <==> NoneBefore(db, rows, i - 1, force, answers) && !Met401(db, rows, i - 1, force, answers);
    }
  }

  lemma NothingYet(db: Db, rows: Listing, force: bool, answers: int -> Answer)
    ensures !After(db, rows, 0, force, answers).refreshed && !After(db, rows, 0, force, answers).ended
  {
  }

  /** A pass ends early exactly when the tokens cannot be rotated for its first 401. */
  lemma EndsEarlyExactlyWhen(db: Db, force: bool, answers: int -> Answer)
    ensures
      var rows := Listed(db.queue);
      PassOf(db, true, force, answers).ended
      <==> exists j :: 0 <= j < |rows| && Met401(db, rows, j, force, answers) && NoneBefore(db, rows, j, force, answers)
             && !answers(rows[j].0).rotated
  {
    hide Listed, PassFrom, Met401, NoneBefore;
    var rows := Listed(db.queue);
    assert rows[..|rows|] == rows;
    SoFar(db, rows, |rows|, force, answers);
  }

  /** A later 401 of the same pass costs its row an attempt. */
  lemma LaterOnesAreCounted(db: Db, rows: Listing, i: nat, j: nat, force: bool, answers: int -> Answer)
    requires i < j < |rows| && Met401(db, rows, i, force, answers) && Met401(db, rows, j, force, answers)
    ensures
      var st, now, s := After(db, rows, j, force, answers), After(db, rows, j + 1, force, answers), rows[j].0;
      now.log == st.log + [Entry(s, st.db.queue[s], Retry(STILL_UNAUTHORIZED))]
  {
    hide After;
    SoFar(db, rows, j, force, answers);
    OneRow(db, rows, j, force, answers);
  }
}
