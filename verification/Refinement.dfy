/** The outbox's pass, as the code goes through it, is one of the runs of the state machine. */
module Refinement {
  import opened Domain
  import opened Store
  import opened Delivery
  import opened Protocol
  import Pass

  // ----- what the server does while the outbox waits for a reply -----

  predicate IsServerStep(step: Step) { step.Mint? || step.Keep? || step.AcceptEvent? }

  predicate ServerOnly(steps: seq<Step>) { forall i :: 0 <= i < |steps| ==> IsServerStep(steps[i]) }

  lemma ServerStepLeaves(w: World, step: Step)
    requires IsServerStep(step)
    ensures Next(w, step).db == w.db && Next(w, step).worker == w.worker
  {
    hide QueueEventStep, PutCallStep, RetryDeadStep, TakeLockStep, BeginStep, DataArrivesStep, StoreNextStep, StopStep,
      StreamStopsStep, FinishStep, RecorderGone, SweepTakeStep, SweepFinishStep, WorkerDiesStep, StartPassStep, ScanStep,
      DeliverStep, AnswerStep, SettleStep, IsAccepted;
  }

  lemma {:induction false} ServerStepsLeave(w: World, steps: seq<Step>)
    requires ServerOnly(steps)
    ensures Run(w, steps).db == w.db && Run(w, steps).worker == w.worker
    decreases |steps|
  {
    hide Next;
    if steps != [] {
      ServerStepLeaves(w, steps[0]);
      ServerStepsLeave(Next(w, steps[0]), steps[1..]);
    }
  }

  // ----- runs -----

  lemma {:induction false} RunSplits(w: World, a: seq<Step>, b: seq<Step>)
    ensures Run(w, a + b) == Run(Run(w, a), b)
    decreases |a|
  {
    hide Next;
    if a == [] {
      assert a + b == b;
    } else {
      assert (a + b)[1..] == a[1..] + b;
      RunSplits(Next(w, a[0]), a[1..], b);
    }
  }

  lemma RunsOne(w: World, step: Step)
    ensures Run(w, [step]) == Next(w, step)
  {
    hide Next;
    assert [step][1..] == [];
  }

  /** Every reply in the run may be given when it comes. */
  predicate AllAnswerable(w: World, steps: seq<Step>)
    decreases |steps|
  {
    steps != [] ==>
      && (steps[0].Answer? ==> Answerable(w, steps[0].reply))
      && AllAnswerable(Next(w, steps[0]), steps[1..])
  }

  lemma {:induction false} AnswerableSplits(w: World, a: seq<Step>, b: seq<Step>)
    requires AllAnswerable(w, a + b)
    ensures AllAnswerable(w, a) && AllAnswerable(Run(w, a), b)
    decreases |a|
  {
    hide Next, Answerable;
    if a == [] {
      assert a + b == b;
    } else {
      assert (a + b)[0] == a[0] && (a + b)[1..] == a[1..] + b;
      AnswerableSplits(Next(w, a[0]), a[1..], b);
    }
  }

  // ----- the steps of one turn -----

  /** What the server does before the first and before the second reply to a row. */
  datatype Meanwhile = Meanwhile(first: seq<Step>, second: seq<Step>)

  /** The row is delivered again, answered again, and settled. */
  function AgainSteps(answer: Pass.Answer, meanwhile: Meanwhile): seq<Step> {
    [Deliver] + (meanwhile.second + [Answer(answer.second, answer.rotated, answer.t)]) + [SettleRow(answer.t)]
  }

  function AnswerSteps(refreshed: bool, answer: Pass.Answer, meanwhile: Meanwhile): seq<Step> {
    meanwhile.first + [Answer(answer.first, answer.rotated, answer.t)]
    + if !answer.first.Unauthorized? || refreshed then [SettleRow(answer.t)]
      else if !answer.rotated then []
      else AgainSteps(answer, meanwhile)
  }

  function TurnSteps(
    st: Pass.PassState, s: int, queued: QueueRow, force: bool, answer: Pass.Answer, meanwhile: Meanwhile): seq<Step>
  {
    [Scan(answer.scannedAt)]
    + if !Choose(st.db.queue, st.held, force, s, queued, answer.scannedAt).Pick? then []
      else if !PlanOf(st.db, s, st.db.queue[s]).Send? then [Deliver] + [SettleRow(answer.t)]
      else [Deliver] + AnswerSteps(st.refreshed, answer, meanwhile)
  }

  /** The state machine stands where the pass stands. */
  ghost predicate Tracks(w: World, st: Pass.PassState, rows: Listing, next: nat, force: bool) {
    && w.db == st.db
    && w.worker == if st.ended then Idle else Passing(force, rows, next, st.held, st.refreshed, Scanning)
  }

  // ----- each step, on the database and the worker alone -----

  lemma ScanIs(w: World, now: Time)
    requires w.worker.Passing? && w.worker.phase.Scanning?
    ensures Next(w, Scan(now)).db == w.db && Next(w, Scan(now)).worker == Scanned(w.db.queue, w.worker, now)
  {
    hide Scanned;
  }

  lemma CommitIs(w: World, db: Db)
    ensures Commit(w, db).db == db && Commit(w, db).worker == w.worker
  {
    hide Jobs;
  }

  lemma EnterIs(w: World, phase: Phase)
    requires w.worker.Passing?
    ensures Enter(w, phase).db == w.db && Enter(w, phase).worker == Entered(w.worker, phase)
  {
    hide Entered;
  }

  lemma TransmitIs(w: World, row: QueueRow, request: Request)
    requires w.worker.Passing?
    ensures Transmit(w, row, request).db == w.db
    ensures Transmit(w, row, request).worker == Entered(w.worker, Awaiting(row, request))
  {
    hide Entered;
  }

  lemma DeliverIs(w: World)
    requires InPhase(w.worker) && w.worker.phase.Attempting?
    ensures
      var v, s, row := Next(w, Deliver), w.worker.rows[w.worker.next].0, w.worker.phase.row;
      match PlanOf(w.db, s, row)
      case Drop => v.db == DropRow(w.db, s) && v.worker == Entered(w.worker, Settling(row, Done))
      case Wait => v.db == w.db && v.worker == Entered(w.worker, Settling(row, Waiting))
      case Send(request) => v.db == w.db && v.worker == Entered(w.worker, Awaiting(row, request))
  {
    hide Next, PlanOf, DropRow, Entered, Commit, Enter, Transmit;
    DeliverIsNext(w);
    var s, row := w.worker.rows[w.worker.next].0, w.worker.phase.row;
    match PlanOf(w.db, s, row)
    case Drop =>
      CommitIs(w, DropRow(w.db, s));
      EnterIs(Commit(w, DropRow(w.db, s)), Settling(row, Done));
    case Wait => EnterIs(w, Settling(row, Waiting));
    case Send(request) => TransmitIs(w, row, request);
  }

  lemma DeliverIsNext(w: World)
    ensures Next(w, Deliver) == DeliverStep(w)
  {
    hide DeliverStep;
  }

  lemma AnswerIs(w: World, reply: Reply, rotated: bool, t: Ticks)
    requires Answerable(w, reply)
    ensures
      var v, row := Next(w, Answer(reply, rotated, t)), w.worker.phase.row;
      if reply.Unauthorized? then
        v.db == w.db
        && v.worker == (if w.worker.refreshed then Entered(w.worker, Settling(row, Retry(STILL_UNAUTHORIZED)))
                        else if rotated then w.worker.(refreshed := true, phase := Attempting(row)) else Idle)
      else
        var (db, outcome) := Receive(w.db, w.worker.rows[w.worker.next].0, row, w.worker.phase.request, reply, t);
        v.db == db && v.worker == Entered(w.worker, Settling(row, outcome))
  {
    hide Next, Receive, Truthful, Entered, Commit, Enter;
    AnswerIsNext(w, reply, rotated, t);
    var row := w.worker.phase.row;
    if reply.Unauthorized? {
      EnterIs(w, Settling(row, Retry(STILL_UNAUTHORIZED)));
    } else {
      var (db, outcome) := Receive(w.db, w.worker.rows[w.worker.next].0, row, w.worker.phase.request, reply, t);
      CommitIs(w, db);
      EnterIs(Commit(w, db), Settling(row, outcome));
    }
  }

  lemma AnswerIsNext(w: World, reply: Reply, rotated: bool, t: Ticks)
    ensures Next(w, Answer(reply, rotated, t)) == AnswerStep(w, reply, rotated, t)
  {
    hide AnswerStep;
  }

  lemma SettleIs(w: World, t: Ticks)
    requires InPhase(w.worker) && w.worker.phase.Settling?
    ensures
      var v := Next(w, SettleRow(t));
      var (db, hold) := Settle(w.db, w.worker.rows[w.worker.next].0, w.worker.phase.outcome, t);
      v.db == db && v.worker == Advanced(w.worker, hold, LaneOf(w.worker.phase.row.job))
  {
    hide Next, Settle, Advanced, Commit;
    SettleIsNext(w, t);
    CommitIs(w, Settle(w.db, w.worker.rows[w.worker.next].0, w.worker.phase.outcome, t).0);
  }

  lemma SettleIsNext(w: World, t: Ticks)
    ensures Next(w, SettleRow(t)) == SettleStep(w, t)
  {
    hide SettleStep;
  }

  // ----- from the reply to the end of the turn -----

  ghost predicate Stands(w: World, db: Db, worker: Worker) { w.db == db && w.worker == worker }

  /** The worker of a pass at the row `rows[next]`. */
  datatype Place = Place(force: bool, rows: Listing, next: nat, held: set<Lane>) {
    predicate Inside() { next < |rows| }
    function S(): int requires Inside() { rows[next].0 }
    function In(refreshed: bool, phase: Phase): Worker { Passing(force, rows, next, held, refreshed, phase) }
    function Past(refreshed: bool, hold: bool, lane: Lane): Worker {
      Passing(force, rows, next + 1, if hold then held + {lane} else held, refreshed, Scanning)
    }
  }

  /** How a turn leaves the world after the row was tried. */
  ghost predicate TurnEnds(w: World, place: Place, row: QueueRow, tried: Pass.Attempt, t: Ticks)
    requires place.Inside()
  {
    if tried.outcome.None? then Stands(w, tried.db, Idle)
    else
      var (db, hold) := Settle(tried.db, place.S(), tried.outcome.value, t);
      Stands(w, db, place.Past(tried.refreshed, hold, LaneOf(row.job)))
  }

  lemma SettledTurn(w: World, place: Place, row: QueueRow, db: Db, refreshed: bool, outcome: Outcome, t: Ticks)
    requires place.Inside() && Stands(w, db, place.In(refreshed, Settling(row, outcome)))
    ensures TurnEnds(Run(w, [SettleRow(t)]), place, row, Pass.Attempt(db, Some(outcome), refreshed), t)
  {
    hide Next, Settle, Run;
    RunsOne(w, SettleRow(t));
    SettleIs(w, t);
  }

  /** The reply to a request, from where the request was sent. */
  lemma AnsweredStep(w: World, place: Place, row: QueueRow, db: Db, refreshed: bool, request: Request,
                     before: seq<Step>, reply: Reply, rotated: bool, t: Ticks)
    requires place.Inside() && Stands(w, db, place.In(refreshed, Awaiting(row, request)))
    requires ServerOnly(before) && AllAnswerable(w, before + [Answer(reply, rotated, t)])
    requires row.job.Close? ==> request.PostClose?
    ensures
      var v := Run(w, before + [Answer(reply, rotated, t)]);
      if !reply.Unauthorized? then
        var (after, outcome) := Receive(db, place.S(), row, request, reply, t);
        Stands(v, after, place.In(refreshed, Settling(row, outcome)))
      else if refreshed then Stands(v, db, place.In(true, Settling(row, Retry(STILL_UNAUTHORIZED))))
      else if rotated then Stands(v, db, place.In(true, Attempting(row)))
      else Stands(v, db, Idle)
  {
    hide Next, Receive, Run, Truthful, AllAnswerable;
    var asked := Run(w, before);
    ServerStepsLeave(w, before);
    RunSplits(w, before, [Answer(reply, rotated, t)]);
    AnswerableSplits(w, before, [Answer(reply, rotated, t)]);
    OneAnswerable(asked, reply, rotated, t);
    RunsOne(asked, Answer(reply, rotated, t));
    AnswerIs(asked, reply, rotated, t);
  }

  lemma OneAnswerable(w: World, reply: Reply, rotated: bool, t: Ticks)
    requires AllAnswerable(w, [Answer(reply, rotated, t)])
    ensures Answerable(w, reply)
  {
    hide Next, Answerable;
  }

  lemma CloseSendsClose(db: Db, s: int, row: QueueRow)
    requires PlanOf(db, s, row).Send?
    ensures row.job.Close? ==> PlanOf(db, s, row).request.PostClose?
  {
    hide TotalsOf, Uploadable, SegmentsLeft;
  }

  /** With its tokens rotated, the row is sent again and gets its second reply. */
  lemma SecondTry(w: World, place: Place, row: QueueRow, db: Db, answer: Pass.Answer, meanwhile: Meanwhile)
    requires place.Inside() && Stands(w, db, place.In(true, Attempting(row))) && PlanOf(db, place.S(), row).Send?
    requires ServerOnly(meanwhile.second)
    requires AllAnswerable(w, AgainSteps(answer, meanwhile))
    ensures
      var (again, second) := Pass.Delivered(db, place.S(), row, answer.second, answer.t);
      var outcome := if second.Some? then second.value else Retry(STILL_UNAUTHORIZED);
      TurnEnds(Run(w, AgainSteps(answer, meanwhile)), place, row, Pass.Attempt(again, Some(outcome), true), answer.t)
  {
    hide Next, Receive, Run, AllAnswerable, TurnEnds, PlanOf;
    var reply, settle := meanwhile.second + [Answer(answer.second, answer.rotated, answer.t)], [SettleRow(answer.t)];
    var request := PlanOf(db, place.S(), row).request;
    CloseSendsClose(db, place.S(), row);
    RunsOne(w, Deliver);
    DeliverIs(w);
    var sent := Next(w, Deliver);
    assert Stands(sent, db, place.In(true, Awaiting(row, request)));
    AnswerableSplits(w, [Deliver] + reply, settle);
    AnswerableSplits(w, [Deliver], reply);
    RunSplits(w, [Deliver] + reply, settle);
    RunSplits(w, [Deliver], reply);
    AnsweredStep(sent, place, row, db, true, request, meanwhile.second, answer.second, answer.rotated, answer.t);
    var answered := Run(sent, reply);
    if answer.second.Unauthorized? {
      SettledTurn(answered, place, row, db, true, Retry(STILL_UNAUTHORIZED), answer.t);
    } else {
      var (after, outcome) := Receive(db, place.S(), row, request, answer.second, answer.t);
      SettledTurn(answered, place, row, after, true, outcome, answer.t);
    }
  }

  /** A request that was sent, up to the end of its turn. */
  lemma AnsweredTurn(
    w: World, place: Place, row: QueueRow, db: Db, refreshed: bool, answer: Pass.Answer, meanwhile: Meanwhile)
    requires place.Inside() && PlanOf(db, place.S(), row).Send?
    requires Stands(w, db, place.In(refreshed, Awaiting(row, PlanOf(db, place.S(), row).request)))
    requires ServerOnly(meanwhile.first) && ServerOnly(meanwhile.second)
    requires AllAnswerable(w, AnswerSteps(refreshed, answer, meanwhile))
    ensures TurnEnds(Run(w, AnswerSteps(refreshed, answer, meanwhile)), place, row,
                     Pass.Attempted(db, place.S(), row, refreshed, answer), answer.t)
  {
    hide Next, Receive, Run, AllAnswerable, TurnEnds, PlanOf;
    var request := PlanOf(db, place.S(), row).request;
    var reply := meanwhile.first + [Answer(answer.first, answer.rotated, answer.t)];
    CloseSendsClose(db, place.S(), row);
    if !answer.first.Unauthorized? || refreshed {
      AnswerableSplits(w, reply, [SettleRow(answer.t)]);
      RunSplits(w, reply, [SettleRow(answer.t)]);
      AnsweredStep(w, place, row, db, refreshed, request, meanwhile.first, answer.first, answer.rotated, answer.t);
      if answer.first.Unauthorized? {
        SettledTurn(Run(w, reply), place, row, db, true, Retry(STILL_UNAUTHORIZED), answer.t);
      } else {
        var (after, outcome) := Receive(db, place.S(), row, request, answer.first, answer.t);
        SettledTurn(Run(w, reply), place, row, after, refreshed, outcome, answer.t);
      }
    } else if !answer.rotated {
      assert reply + [] == reply;
      AnsweredStep(w, place, row, db, refreshed, request, meanwhile.first, answer.first, answer.rotated, answer.t);
      NoOutcomeEnds(Run(w, reply), place, row, db, answer.t);
    } else {
      var again := AgainSteps(answer, meanwhile);
      AnswerableSplits(w, reply, again);
      RunSplits(w, reply, again);
      AnsweredStep(w, place, row, db, refreshed, request, meanwhile.first, answer.first, answer.rotated, answer.t);
      SecondTry(Run(w, reply), place, row, db, answer, meanwhile);
    }
  }

  lemma NoOutcomeEnds(w: World, place: Place, row: QueueRow, db: Db, t: Ticks)
    requires place.Inside() && Stands(w, db, Idle)
    ensures TurnEnds(w, place, row, Pass.Attempt(db, None, true), t)
  {
  }

  /** A row that was picked up, from its delivery to the end of its turn. */
  lemma PickedTurn(
    w: World, place: Place, row: QueueRow, db: Db, refreshed: bool, answer: Pass.Answer, meanwhile: Meanwhile,
    rest: seq<Step>)
    requires place.Inside() && Stands(w, db, place.In(refreshed, Attempting(row)))
    requires ServerOnly(meanwhile.first) && ServerOnly(meanwhile.second)
    requires rest == if PlanOf(db, place.S(), row).Send? then AnswerSteps(refreshed, answer, meanwhile)
                     else [SettleRow(answer.t)]
    requires AllAnswerable(w, [Deliver] + rest)
    ensures TurnEnds(Run(w, [Deliver] + rest), place, row,
                     Pass.Attempted(db, place.S(), row, refreshed, answer), answer.t)
  {
    hide Next, Receive, Run, AllAnswerable, TurnEnds, PlanOf, AnswerSteps;
    AnswerableSplits(w, [Deliver], rest);
    RunSplits(w, [Deliver], rest);
    RunsOne(w, Deliver);
    DeliverIs(w);
    var sent := Next(w, Deliver);
    match PlanOf(db, place.S(), row)
    case Drop => SettledTurn(sent, place, row, DropRow(db, place.S()), refreshed, Done, answer.t);
    case Wait => SettledTurn(sent, place, row, db, refreshed, Waiting, answer.t);
    case Send(_) => AnsweredTurn(sent, place, row, db, refreshed, answer, meanwhile);
  }

  /** One turn of the loop is a run, and afterwards the state machine stands where the pass does. */
  lemma TurnIsARun(
    w: World, st: Pass.PassState, rows: Listing, next: nat, force: bool, answer: Pass.Answer, meanwhile: Meanwhile)
    requires Tracks(w, st, rows, next, force) && !st.ended && next < |rows|
    requires ServerOnly(meanwhile.first) && ServerOnly(meanwhile.second)
    requires rows[next].0 in st.db.queue ==> st.db.queue[rows[next].0].job == rows[next].1.job
    requires AllAnswerable(w, TurnSteps(st, rows[next].0, rows[next].1, force, answer, meanwhile))
    ensures Tracks(Run(w, TurnSteps(st, rows[next].0, rows[next].1, force, answer, meanwhile)),
                   Pass.Visited(st, rows[next].0, rows[next].1, force, answer), rows, next + 1, force)
  {
    hide Next, Run, AllAnswerable, PlanOf, AnswerSteps, Settle, Pass.Attempted;
    var (s, queued) := rows[next];
    var steps := TurnSteps(st, s, queued, force, answer, meanwhile);
    var scan, rest := [Scan(answer.scannedAt)], steps[1..];
    assert steps == scan + rest;
    RunSplits(w, scan, rest);
    AnswerableSplits(w, scan, rest);
    RunsOne(w, Scan(answer.scannedAt));
    ScanIs(w, answer.scannedAt);
    var scanned := Next(w, Scan(answer.scannedAt));
    if Choose(st.db.queue, st.held, force, s, queued, answer.scannedAt).Pick? {
      var row, place := st.db.queue[s], Place(force, rows, next, st.held);
      assert rest == [Deliver] + rest[1..];
      PickedTurn(scanned, place, row, st.db, st.refreshed, answer, meanwhile, rest[1..]);
    } else {
      assert rest == [] && Run(scanned, []) == scanned by { RunsNothing(scanned); }
    }
  }

  lemma RunsNothing(w: World)
    ensures Run(w, []) == w
  {
  }

  // ----- the whole pass -----

  /** The steps of the rest of a pass; `end` is the clock when the loop finds no more rows. */
  function PassSteps(
    st: Pass.PassState, rows: Listing, force: bool, answers: int -> Pass.Answer, server: int -> Meanwhile, end: Time): seq<Step>
    decreases |rows|
  {
    if st.ended then []
    else if rows == [] then [Scan(end)]
    else
      var (s, queued) := rows[0];
      TurnSteps(st, s, queued, force, answers(s), server(s))
      + PassSteps(Pass.Visited(st, s, queued, force, answers(s)), rows[1..], force, answers, server, end)
  }

  lemma {:induction false} RestIsARun(
    w: World, st: Pass.PassState, rows: Listing, next: nat, force: bool, answers: int -> Pass.Answer,
    server: int -> Meanwhile, end: Time)
    requires next <= |rows| && Tracks(w, st, rows, next, force)
    requires Pass.Numbered(st.db) && Pass.Intact(st.db, rows[next..])
    requires forall s :: ServerOnly(server(s).first) && ServerOnly(server(s).second)
    requires AllAnswerable(w, PassSteps(st, rows[next..], force, answers, server, end))
    ensures
      var v := Run(w, PassSteps(st, rows[next..], force, answers, server, end));
      v.db == Pass.PassFrom(st, rows[next..], force, answers).db && v.worker == Idle
    decreases |rows| - next
  {
    hide Next, Run, AllAnswerable, TurnSteps, Pass.Visited;
    if st.ended {
      RunsNothing(w);
    } else if next == |rows| {
      RunsOne(w, Scan(end));
      ScanIs(w, end);
    } else {
      var (s, queued) := rows[next];
      assert rows[next..][0] == rows[next] && rows[next..][1..] == rows[next + 1..];
      var after := Pass.Visited(st, s, queued, force, answers(s));
      var turn := TurnSteps(st, s, queued, force, answers(s), server(s));
      var rest := PassSteps(after, rows[next + 1..], force, answers, server, end);
      AnswerableSplits(w, turn, rest);
      RunSplits(w, turn, rest);
      TurnIsARun(w, st, rows, next, force, answers(s), server(s));
      Pass.VisitLeavesIntact(st, rows[next..], force, answers(s));
      RestIsARun(Run(w, turn), after, rows, next + 1, force, answers, server, end);
    }
  }

  /** All the steps of a pass over an idle world. */
  function WholePass(db: Db, force: bool, answers: int -> Pass.Answer, server: int -> Meanwhile, end: Time): seq<Step> {
    [StartPass(force)] + PassSteps(Pass.Begun(db), Listed(db.queue), force, answers, server, end)
  }

  lemma StartIs(w: World, force: bool)
    requires w.worker.Idle?
    ensures Tracks(Next(w, StartPass(force)), Pass.Begun(w.db), Listed(w.db.queue), 0, force)
  {
    hide Listed;
  }

  /**
   * Whatever the server does meanwhile, a pass over an idle world is a run of the state machine, as long as
   * every reply may be given when it comes. So what holds in every run holds of the code's loop.
   */
  lemma PassIsARun(w: World, force: bool, answers: int -> Pass.Answer, server: int -> Meanwhile, end: Time)
    requires w.worker.Idle? && Pass.Numbered(w.db)
    requires forall s :: ServerOnly(server(s).first) && ServerOnly(server(s).second)
    requires AllAnswerable(w, WholePass(w.db, force, answers, server, end))
    ensures
      var v := Run(w, WholePass(w.db, force, answers, server, end));
      v.db == Pass.PassOf(w.db, true, force, answers).db && v.worker == Idle
  {
    hide Next, Run, AllAnswerable, PassSteps, Listed, ServerOnly;
    var rows := Listed(w.db.queue);
    var rest := PassSteps(Pass.Begun(w.db), rows, force, answers, server, end);
    assert rows[0..] == rows;
    AnswerableSplits(w, [StartPass(force)], rest);
    RunSplits(w, [StartPass(force)], rest);
    RunsOne(w, StartPass(force));
    StartIs(w, force);
    Pass.ListedIntact(w.db);
    RestIsARun(Next(w, StartPass(force)), Pass.Begun(w.db), rows, 0, force, answers, server, end);
  }
}
