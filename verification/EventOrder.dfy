/** The order in which the server takes events, when requests may arrive long after their attempt ended. */
module EventOrder {
  import opened Domain
  import opened Store
  import opened Delivery
  import opened Protocol
  import opened Safety
  import ProtocolTheorems
  import Refinement

  ghost predicate InOrder(accepted: seq<Request>) {
    forall i, j :: 0 <= i < j < |accepted| ==>
      accepted[i].PostEvent? && accepted[j].PostEvent? && accepted[i].sequence <= accepted[j].sequence
  }

  /** An event that was queued later is in the log already. */
  predicate Overtaken(w: World, request: Request)
    requires request.PostEvent?
  {
    exists i :: 0 <= i < |w.accepted| && w.accepted[i].PostEvent? && request.sequence < w.accepted[i].sequence
  }

  /** The attempt that sent the request still waits for its reply. */
  predicate Awaited(w: World, request: Request) {
    InPhase(w.worker) && w.worker.phase.Awaiting? && w.worker.phase.request == request
  }

  predicate Takes(w: World, step: Step) {
    step.AcceptEvent? && step.request.PostEvent? && step.request in w.sent && !IsAccepted(w, step.request.id)
  }

  /** The server takes an event for the first time, after its attempt has ended and a later event was taken. */
  predicate TooLate(w: World, step: Step) {
    Takes(w, step) && !Awaited(w, step.request) && Overtaken(w, step.request)
  }

  /** While an attempt waits, nothing that was queued after its event has been taken. */
  lemma AwaitedIsNotOvertaken(w: World, request: Request)
    requires ProtocolTheorems.Reachable(w) && !w.requeued
    requires request.PostEvent? && Awaited(w, request)
    ensures !Overtaken(w, request)
  {
    hide ProtocolTheorems.Reachable;
    ProtocolTheorems.ReachableIsSound(w);
    SoundIsNotOvertaken(w, request);
  }

  lemma SoundIsNotOvertaken(w: World, request: Request)
    requires PassInv(w) && !w.requeued && request.PostEvent? && Awaited(w, request)
    ensures !Overtaken(w, request)
  {
    assert LiveEvent(w, request.sequence);
  }

  // ----- what one step does to the log -----

  predicate SameLog(w: World, v: World) { v.accepted == w.accepted && (w.requeued ==> v.requeued) }

  lemma TakeLockSameLog(w: World, p: nat, callId: Id)
    ensures SameLog(w, TakeLockStep(w, p, callId))
  {
  }

  lemma BeginSameLog(w: World, p: nat, id: Id, now: Time)
    ensures SameLog(w, BeginStep(w, p, id, now))
  {
    hide BeginRecording, Jobs;
  }

  lemma DataSameLog(w: World, p: nat, blob: Blob, startedAt: Time)
    ensures SameLog(w, DataArrivesStep(w, p, blob, startedAt))
  {
  }

  lemma StoreNextSameLog(w: World, p: nat, ok: bool, now: Time)
    ensures SameLog(w, StoreNextStep(w, p, ok, now))
  {
    hide Store.StoreChunk, Jobs, Written;
  }

  lemma StopSameLog(w: World, p: nat, requested: bool)
    ensures SameLog(w, StopStep(w, p, requested))
  {
  }

  lemma StreamStopsSameLog(w: World, p: nat)
    ensures SameLog(w, StreamStopsStep(w, p))
  {
  }

  lemma FinishSameLog(w: World, p: nat, ok: bool, now: Time)
    ensures SameLog(w, FinishStep(w, p, ok, now))
  {
    hide FinishRecording, Jobs, Drained;
  }

  lemma GoneSameLog(w: World, p: nat)
    ensures SameLog(w, RecorderGone(w, p))
  {
  }

  lemma SweepTakeSameLog(w: World, k: nat, r: Id)
    ensures SameLog(w, SweepTakeStep(w, k, r))
  {
  }

  lemma SweepFinishSameLog(w: World, k: nat, now: Time)
    ensures SameLog(w, SweepFinishStep(w, k, now))
  {
    hide FinishRecording, Jobs;
  }

  lemma StartPassSameLog(w: World, force: bool)
    ensures SameLog(w, StartPassStep(w, force))
  {
    hide Listed;
  }

  lemma ScanSameLog(w: World, now: Time)
    ensures SameLog(w, ScanStep(w, now))
  {
    hide Scanned;
  }

  lemma SettleSameLog(w: World, t: Ticks)
    ensures SameLog(w, SettleStep(w, t))
  {
    hide Settle, Jobs, Advanced;
  }

  lemma MintSameLog(w: World, callId: Id, remoteId: Id)
    ensures SameLog(w, MintStep(w, callId, remoteId))
  {
  }

  lemma KeepSameLog(w: World, request: Request)
    ensures SameLog(w, KeepStep(w, request))
  {
  }

  lemma CommitSameLog(w: World, db: Db)
    ensures SameLog(w, Commit(w, db))
  {
    hide Jobs;
  }

  lemma EnterSameLog(w: World, phase: Phase)
    requires w.worker.Passing?
    ensures SameLog(w, Enter(w, phase))
  {
    hide Entered;
  }

  lemma TransmitSameLog(w: World, row: QueueRow, request: Request)
    requires w.worker.Passing?
    ensures SameLog(w, Transmit(w, row, request))
  {
    hide Entered;
  }

  lemma DeliverSameLog(w: World)
    ensures SameLog(w, DeliverStep(w))
  {
    hide PlanOf, DropRow, Commit, Enter, Transmit;
    if InPhase(w.worker) && w.worker.phase.Attempting? {
      var s, row := w.worker.rows[w.worker.next].0, w.worker.phase.row;
      match PlanOf(w.db, s, row)
      case Drop =>
        CommitSameLog(w, DropRow(w.db, s));
        Refinement.CommitIs(w, DropRow(w.db, s));
        EnterSameLog(Commit(w, DropRow(w.db, s)), Settling(row, Done));
      case Wait => EnterSameLog(w, Settling(row, Waiting));
      case Send(request) => TransmitSameLog(w, row, request);
    }
  }

  lemma UnauthorizedSameLog(w: World, rotated: bool)
    requires InPhase(w.worker)
    ensures SameLog(w, UnauthorizedStep(w, rotated))
  {
    hide Entered;
  }

  lemma AnswerSameLog(w: World, reply: Reply, rotated: bool, t: Ticks)
    ensures SameLog(w, AnswerStep(w, reply, rotated, t))
  {
    hide Receive, Truthful, Commit, Enter, UnauthorizedStep;
    if Answerable(w, reply) && reply.Unauthorized? {
      UnauthorizedSameLog(w, rotated);
    } else if Answerable(w, reply) {
      var row := w.worker.phase.row;
      var (db, outcome) := Receive(w.db, w.worker.rows[w.worker.next].0, row, w.worker.phase.request, reply, t);
      CommitSameLog(w, db);
      Refinement.CommitIs(w, db);
      EnterSameLog(Commit(w, db), Settling(row, outcome));
    }
  }

  lemma QueueEventSameLog(w: World, id: Id, kind: string, payload: string, now: Time)
    ensures SameLog(w, QueueEventStep(w, id, kind, payload, now))
  {
    hide Commit, Enqueue;
    CommitSameLog(w, Enqueue(w.db, Event(id, kind, payload), None, now));
  }

  lemma PutCallSameLog(w: World, callId: Id, call: CallRow)
    ensures SameLog(w, PutCallStep(w, callId, call))
  {
    hide Commit;
    CommitSameLog(w, w.db.(calls := w.db.calls[callId := call]));
  }

  lemma RetryDeadSameLog(w: World, now: Time)
    ensures SameLog(w, RetryDeadStep(w, now))
  {
    hide Jobs, RequeueDeadLetters;
  }

  lemma WorkerDiesSameLog(w: World)
    ensures SameLog(w, WorkerDiesStep(w))
  {
  }

  lemma AcceptGrows(w: World, request: Request)
    ensures
      var v := AcceptEventStep(w, request);
      && v.accepted == (if Takes(w, AcceptEvent(request)) then w.accepted + [request] else w.accepted)
      && v.requeued == w.requeued
  {
    hide IsAccepted;
  }

  lemma RecorderSameLog(w: World, step: Step)
    requires IsRecorderStep(step)
    ensures SameLog(w, Next(w, step))
  {
    hide SameLog, QueueEventStep, PutCallStep, RetryDeadStep, TakeLockStep, BeginStep, DataArrivesStep, StoreNextStep, StopStep,
      StreamStopsStep, FinishStep, RecorderGone, SweepTakeStep, SweepFinishStep, WorkerDiesStep, StartPassStep, ScanStep,
      DeliverStep, AnswerStep, SettleStep, MintStep, KeepStep, AcceptEventStep;
    match step
    case TakeLock(p, callId) => TakeLockSameLog(w, p, callId);
    case Begin(p, id, now) => BeginSameLog(w, p, id, now);
    case DataArrives(p, blob, startedAt) => DataSameLog(w, p, blob, startedAt);
    case StoreNext(p, ok, now) => StoreNextSameLog(w, p, ok, now);
    case AskStop(p) => StopSameLog(w, p, true);
    case Interrupt(p) => StopSameLog(w, p, false);
    case StreamStops(p) => StreamStopsSameLog(w, p);
    case Finish(p, ok, now) => FinishSameLog(w, p, ok, now);
    case Leave(p) => GoneSameLog(w, p);
  }

  lemma WorkerSameLog(w: World, step: Step)
    requires !IsRecorderStep(step) && !step.AcceptEvent?
    ensures SameLog(w, Next(w, step))
  {
    hide SameLog, QueueEventStep, PutCallStep, RetryDeadStep, TakeLockStep, BeginStep, DataArrivesStep, StoreNextStep, StopStep,
      StreamStopsStep, FinishStep, RecorderGone, SweepTakeStep, SweepFinishStep, WorkerDiesStep, StartPassStep, ScanStep,
      DeliverStep, AnswerStep, SettleStep, MintStep, KeepStep, AcceptEventStep;
    match step
    case QueueEvent(id, kind, payload, now) => QueueEventSameLog(w, id, kind, payload, now);
    case PutCall(callId, call) => PutCallSameLog(w, callId, call);
    case RetryDead(now) => RetryDeadSameLog(w, now);
    case WorkerDies => WorkerDiesSameLog(w);
    case SweepTake(k, r) => SweepTakeSameLog(w, k, r);
    case SweepFinish(k, now) => SweepFinishSameLog(w, k, now);
    case StartPass(force) => StartPassSameLog(w, force);
    case Scan(now) => ScanSameLog(w, now);
    case Deliver => DeliverSameLog(w);
    case Answer(reply, rotated, t) => AnswerSameLog(w, reply, rotated, t);
    case SettleRow(t) => SettleSameLog(w, t);
    case Mint(callId, remoteId) => MintSameLog(w, callId, remoteId);
    case Keep(request) => KeepSameLog(w, request);
  }

  /** The log grows by the events that the server takes, and by nothing else. */
  lemma LogGrows(w: World, step: Step)
    ensures Next(w, step).accepted == if Takes(w, step) then w.accepted + [step.request] else w.accepted
    ensures w.requeued ==> Next(w, step).requeued
  {
    hide Next, IsAccepted, AcceptEventStep, IsRecorderStep;
    if step.AcceptEvent? {
      AcceptGrows(w, step.request);
      AcceptIsNext(w, step.request);
    } else if IsRecorderStep(step) {
      RecorderSameLog(w, step);
    } else {
      WorkerSameLog(w, step);
    }
  }

  lemma AcceptIsNext(w: World, request: Request)
    ensures Next(w, AcceptEvent(request)) == AcceptEventStep(w, request)
  {
    hide AcceptEventStep;
  }

  lemma RunLast(steps: seq<Step>, n: nat)
    requires n < |steps|
    ensures Run(INITIAL, steps[..n + 1]) == Next(Run(INITIAL, steps[..n]), steps[n])
  {
    hide Next;
    assert steps[..n + 1] == steps[..n] + [steps[n]];
    Refinement.RunSplits(INITIAL, steps[..n], [steps[n]]);
    Refinement.RunsOne(Run(INITIAL, steps[..n]), steps[n]);
  }

  ghost predicate NothingTooLate(steps: seq<Step>, n: nat)
    requires n <= |steps|
  {
    forall i :: 0 <= i < n ==> !TooLate(Run(INITIAL, steps[..i]), steps[i])
  }

  lemma {:induction false} OrderedUpTo(steps: seq<Step>, n: nat)
    requires n <= |steps| && !Run(INITIAL, steps[..n]).requeued
    ensures InOrder(Run(INITIAL, steps[..n]).accepted) <==> NothingTooLate(steps, n)
  {
    hide Next, TooLate, Run;
    if n == 0 {
      Refinement.RunsNothing(INITIAL);
      assert steps[..0] == [];
    } else {
      var w := Run(INITIAL, steps[..n - 1]);
      RunLast(steps, n - 1);
      LogGrows(w, steps[n - 1]);
      OrderedUpTo(steps, n - 1);
      OneMore(w, steps[..n - 1], steps[n - 1]);
    }
  }

  /** One step keeps the log in order exactly when it was, and nothing is taken too late. */
  lemma OneMore(w: World, steps: seq<Step>, step: Step)
    requires w == Run(INITIAL, steps) && !Next(w, step).requeued
    ensures InOrder(Next(w, step).accepted) <==> InOrder(w.accepted) && !TooLate(w, step)
  {
    hide Next, Run, Awaited, Inv;
    LogGrows(w, step);
    var v := Next(w, step);
    SoundLog(w, steps);
    assert forall i :: 0 <= i < |w.accepted| ==> v.accepted[i] == w.accepted[i];
    if Takes(w, step) {
      assert v.accepted[|w.accepted|] == step.request;
      if Awaited(w, step.request) { SoundIsNotOvertaken(w, step.request); }
      if i :| 0 <= i < |w.accepted| && w.accepted[i].PostEvent? && step.request.sequence < w.accepted[i].sequence {
        assert !InOrder(v.accepted);
      } else {
        assert InOrder(w.accepted) ==> InOrder(v.accepted);
      }
    }
  }

  lemma SoundLog(w: World, steps: seq<Step>)
    requires w == Run(INITIAL, steps)
    ensures PassInv(w) && forall i :: 0 <= i < |w.accepted| ==> w.accepted[i].PostEvent?
  {
    ProtocolTheorems.InitialSound();
    RunKeeps(INITIAL, steps);
  }

  /**
   * In a run in which the agent did not ask for the dead letters, the server's log is in the order of the queue
   * exactly when no event was taken after its attempt had ended and a later event had been taken.
   */
  lemma EventsArriveInOrderExactlyWhen(steps: seq<Step>)
    requires !Run(INITIAL, steps).requeued
    ensures
      InOrder(Run(INITIAL, steps).accepted)
      <==> forall i :: 0 <= i < |steps| ==> !TooLate(Run(INITIAL, steps[..i]), steps[i])
  {
    hide Next, TooLate, Run;
    assert steps[..|steps|] == steps;
    OrderedUpTo(steps, |steps|);
  }

  // ----- a request that was given up and arrives after all -----

  const FIRST := Event("a", "call.started", "")
  const SECOND := Event("b", "call.connected", "")
  const GIVEN_UP := PostEvent("a", 1, "call.started", "", 0.0)
  const TAKEN := PostEvent("b", 2, "call.connected", "", 0.0)
  const LOST := "connection lost"
  const TICKS := Ticks(0.0, 0.0)

  /** The first event's row after `n` attempts whose replies were lost. */
  function Tried(n: nat): QueueRow {
    QueueRow(
      FIRST, 0.0, n,
      if n == 0 then 0.0 else BackoffMs(if n < MAX_ATTEMPTS then n else MAX_ATTEMPTS - 1, 0.0),
      if n == 0 then None else Some(LOST),
      if n < MAX_ATTEMPTS then None else Some(0.0))
  }

  function GivenUpAfter(n: nat): World {
    INITIAL.(
      db := Db(map[], map[], map[], map[1 := Tried(n)], 2),
      sent := if n == 0 then {} else {GIVEN_UP},
      enqueued := map[1 := FIRST])
  }

  /** One pass in which the reply to the first event is lost. */
  const LOST_PASS := [StartPass(true), Scan(0.0), Deliver, Answer(Retryable(LOST), false, TICKS), SettleRow(TICKS), Scan(0.0)]

  function Attempts(n: nat): seq<Step> { if n == 0 then [] else Attempts(n - 1) + LOST_PASS }

  /** In a pass over the row as it was after `n` attempts. */
  function InPass(w: World, n: nat, next: nat, held: set<Lane>, phase: Phase): World {
    w.(worker := Passing(true, [(1, Tried(n))], next, held, false, phase))
  }

  lemma ListedOne(queue: map<int, QueueRow>)
    requires queue.Keys == {1}
    ensures Listed(queue) == [(1, queue[1])]
  {
    assert 1 in queue.Keys && Least(queue.Keys) == 1;
    assert queue.Keys - {1} == {};
    assert SortedKeys(queue.Keys) == [1];
  }

  lemma StartsLost(n: nat)
    ensures Next(GivenUpAfter(n), StartPass(true)) == InPass(GivenUpAfter(n), n, 0, {}, Scanning)
  {
    hide Tried, Listed;
    ListedOne(map[1 := Tried(n)]);
  }

  lemma PicksLost(n: nat)
    requires n < MAX_ATTEMPTS
    ensures Next(InPass(GivenUpAfter(n), n, 0, {}, Scanning), Scan(0.0)) == InPass(GivenUpAfter(n), n, 0, {}, Attempting(Tried(n)))
  {
    hide BackoffMs;
  }

  lemma SendsLost(n: nat)
    ensures Next(InPass(GivenUpAfter(n), n, 0, {}, Attempting(Tried(n))), Deliver)
            == InPass(GivenUpAfter(n), n, 0, {}, Awaiting(Tried(n), GIVEN_UP)).(sent := {GIVEN_UP})
  {
    hide BackoffMs;
    assert {} + {GIVEN_UP} == {GIVEN_UP} + {GIVEN_UP} == {GIVEN_UP};
  }

  lemma JobsOfFirst(row: QueueRow)
    requires row.job == FIRST
    ensures map[1 := FIRST] + Jobs(map[1 := row]) == map[1 := FIRST]
  {
  }

  lemma LosesReply(n: nat)
    ensures Next(InPass(GivenUpAfter(n), n, 0, {}, Awaiting(Tried(n), GIVEN_UP)).(sent := {GIVEN_UP}),
                 Answer(Retryable(LOST), false, TICKS))
            == InPass(GivenUpAfter(n), n, 0, {}, Settling(Tried(n), Retry(LOST))).(sent := {GIVEN_UP})
  {
    hide BackoffMs, Jobs;
    JobsOfFirst(Tried(n));
  }

  lemma CommitsLost(n: nat, phase: Phase)
    ensures Commit(InPass(GivenUpAfter(n), n, 0, {}, phase).(sent := {GIVEN_UP}), Db(map[], map[], map[], map[1 := Tried(n + 1)], 2))
            == InPass(GivenUpAfter(n + 1), n, 0, {}, phase)
  {
    hide Jobs, Tried;
    TriesFirst(n + 1);
    JobsOfFirst(Tried(n + 1));
  }

  lemma AdvancesLost(n: nat, phase: Phase, hold: bool)
    ensures Advance(InPass(GivenUpAfter(n + 1), n, 0, {}, phase), hold, EventLane)
            == InPass(GivenUpAfter(n + 1), n, 1, if hold then {EventLane} else {}, Scanning)
  {
    hide Tried;
    var none: set<Lane> := {};
    assert none + {EventLane} == {EventLane};
  }

  /** The failed attempt is counted, and the 20th parks the row and leaves its lane. */
  lemma CountsLost(n: nat)
    requires n < MAX_ATTEMPTS
    ensures Next(InPass(GivenUpAfter(n), n, 0, {}, Settling(Tried(n), Retry(LOST))).(sent := {GIVEN_UP}), SettleRow(TICKS))
            == InPass(GivenUpAfter(n + 1), n, 1, if n + 1 < MAX_ATTEMPTS then {EventLane} else {}, Scanning)
  {
    hide Settle, Jobs, Tried, Next, Commit, Advance;
    var w := InPass(GivenUpAfter(n), n, 0, {}, Settling(Tried(n), Retry(LOST))).(sent := {GIVEN_UP});
    Refinement.SettleIsNext(w, TICKS);
    FailsOnce(n);
    TriesFirst(n);
    CommitsLost(n, Settling(Tried(n), Retry(LOST)));
    AdvancesLost(n, Settling(Tried(n), Retry(LOST)), n + 1 < MAX_ATTEMPTS);
  }

  lemma TriesFirst(n: nat)
    ensures Tried(n).job == FIRST
  {
  }

  lemma FailsOnce(n: nat)
    requires n < MAX_ATTEMPTS
    ensures Settle(Db(map[], map[], map[], map[1 := Tried(n)], 2), 1, Retry(LOST), TICKS)
            == (Db(map[], map[], map[], map[1 := Tried(n + 1)], 2), n + 1 < MAX_ATTEMPTS)
  {
    hide BackoffMs;
    assert map[1 := Tried(n)][1 := Tried(n + 1)] == map[1 := Tried(n + 1)];
  }

  lemma EndsLost(n: nat, held: set<Lane>)
    ensures Next(InPass(GivenUpAfter(n + 1), n, 1, held, Scanning), Scan(0.0)) == GivenUpAfter(n + 1)
  {
    hide BackoffMs;
  }

  lemma LosesOnce(n: nat)
    requires n < MAX_ATTEMPTS
    ensures Run(GivenUpAfter(n), LOST_PASS) == GivenUpAfter(n + 1)
  {
    hide Next, Run, GivenUpAfter, InPass, Tried;
    StartsLost(n);
    PicksLost(n);
    SendsLost(n);
    LosesReply(n);
    CountsLost(n);
    EndsLost(n, if n + 1 < MAX_ATTEMPTS then {EventLane} else {});
    SixSteps(GivenUpAfter(n), LOST_PASS);
  }

  lemma SixSteps(w: World, s: seq<Step>)
    requires |s| == 6
    ensures Run(w, s) == Next(Next(Next(Next(Next(Next(w, s[0]), s[1]), s[2]), s[3]), s[4]), s[5])
  {
    hide Next;
    FourSteps(Next(Next(w, s[0]), s[1]), s[2..]);
    assert s[1..][1..] == s[2..] && s[1..][0] == s[1];
    assert Run(w, s) == Run(Next(w, s[0]), s[1..]) == Run(Next(Next(w, s[0]), s[1]), s[2..]);
  }

  lemma FourSteps(w: World, s: seq<Step>)
    requires |s| == 4
    ensures Run(w, s) == Next(Next(Next(Next(w, s[0]), s[1]), s[2]), s[3])
  {
    hide Next;
    assert s == [s[0]] + ([s[1]] + ([s[2]] + [s[3]]));
    Refinement.RunSplits(w, [s[0]], [s[1]] + ([s[2]] + [s[3]]));
    Refinement.RunsOne(w, s[0]);
    var w1 := Next(w, s[0]);
    Refinement.RunSplits(w1, [s[1]], [s[2]] + [s[3]]);
    Refinement.RunsOne(w1, s[1]);
    var w2 := Next(w1, s[1]);
    Refinement.RunSplits(w2, [s[2]], [s[3]]);
    Refinement.RunsOne(w2, s[2]);
    Refinement.RunsOne(Next(w2, s[2]), s[3]);
  }

  lemma {:induction false} LosesAll(n: nat)
    requires n <= MAX_ATTEMPTS
    ensures Run(GivenUpAfter(0), Attempts(n)) == GivenUpAfter(n)
  {
    hide Next, Run, GivenUpAfter;
    if n == 0 {
      Refinement.RunsNothing(GivenUpAfter(0));
    } else {
      LosesAll(n - 1);
      LosesOnce(n - 1);
      Refinement.RunSplits(GivenUpAfter(0), Attempts(n - 1), LOST_PASS);
    }
  }

  // ----- the second event goes by -----

  const FRESH_ROW := QueueRow(SECOND, 0.0, 0, 0.0, None, None)
  const BOTH: Listing := [(1, Tried(MAX_ATTEMPTS)), (2, FRESH_ROW)]

  /** The first event is parked and the second one waits its turn. */
  function WithSecond(worker: Worker, sent: set<Request>, accepted: seq<Request>): World {
    GivenUpAfter(MAX_ATTEMPTS).(
      db := Db(map[], map[], map[], map[1 := Tried(MAX_ATTEMPTS), 2 := FRESH_ROW], 3),
      enqueued := map[1 := FIRST, 2 := SECOND],
      worker := worker, sent := sent, accepted := accepted)
  }

  function AtRow(next: nat, phase: Phase): Worker { Passing(true, BOTH, next, {}, false, phase) }

  lemma ListedBoth(queue: map<int, QueueRow>)
    requires queue.Keys == {1, 2}
    ensures Listed(queue) == [(1, queue[1]), (2, queue[2])]
  {
    assert 1 in queue.Keys && Least(queue.Keys) == 1;
    assert queue.Keys - {1} == {2};
    assert 2 in queue.Keys - {1} && Least(queue.Keys - {1}) == 2;
    assert queue.Keys - {1} - {2} == {};
    assert SortedKeys(queue.Keys - {1}) == [2];
    assert SortedKeys(queue.Keys) == [1] + [2];
  }

  lemma QueuesSecond()
    ensures Next(GivenUpAfter(MAX_ATTEMPTS), QueueEvent("b", "call.connected", "", 0.0)) == WithSecond(Idle, {GIVEN_UP}, [])
  {
    hide Tried;
    TriesFirst(MAX_ATTEMPTS);
    assert map[1 := FIRST] + Jobs(map[1 := Tried(MAX_ATTEMPTS), 2 := FRESH_ROW]) == map[1 := FIRST, 2 := SECOND];
  }

  lemma StartsSecond()
    ensures Next(WithSecond(Idle, {GIVEN_UP}, []), StartPass(true)) == WithSecond(AtRow(0, Scanning), {GIVEN_UP}, [])
  {
    hide Tried, Listed;
    ListedBoth(map[1 := Tried(MAX_ATTEMPTS), 2 := FRESH_ROW]);
  }

  lemma PassesBy()
    ensures Next(WithSecond(AtRow(0, Scanning), {GIVEN_UP}, []), Scan(0.0)) == WithSecond(AtRow(1, Scanning), {GIVEN_UP}, [])
    ensures Next(WithSecond(AtRow(1, Scanning), {GIVEN_UP}, []), Scan(0.0))
            == WithSecond(AtRow(1, Attempting(FRESH_ROW)), {GIVEN_UP}, [])
  {
    hide BackoffMs;
  }

  lemma SendsSecond()
    ensures Next(WithSecond(AtRow(1, Attempting(FRESH_ROW)), {GIVEN_UP}, []), Deliver)
            == WithSecond(AtRow(1, Awaiting(FRESH_ROW, TAKEN)), {GIVEN_UP, TAKEN}, [])
  {
    hide Tried;
    assert {GIVEN_UP} + {TAKEN} == {GIVEN_UP, TAKEN};
  }

  lemma TakesBoth()
    ensures Next(WithSecond(AtRow(1, Awaiting(FRESH_ROW, TAKEN)), {GIVEN_UP, TAKEN}, []), AcceptEvent(TAKEN))
            == WithSecond(AtRow(1, Awaiting(FRESH_ROW, TAKEN)), {GIVEN_UP, TAKEN}, [TAKEN])
    ensures Next(WithSecond(AtRow(1, Awaiting(FRESH_ROW, TAKEN)), {GIVEN_UP, TAKEN}, [TAKEN]), AcceptEvent(GIVEN_UP))
            == WithSecond(AtRow(1, Awaiting(FRESH_ROW, TAKEN)), {GIVEN_UP, TAKEN}, [TAKEN, GIVEN_UP])
  {
    hide Tried;
  }

  /** The first event is given up after 20 lost replies, the second is taken, and then the first arrives. */
  const LATE_RUN: seq<Step> :=
    [QueueEvent("a", "call.started", "", 0.0)] + Attempts(MAX_ATTEMPTS)
    + ([QueueEvent("b", "call.connected", "", 0.0), StartPass(true), Scan(0.0), Scan(0.0)]
       + [Deliver, AcceptEvent(TAKEN), AcceptEvent(GIVEN_UP)])

  lemma QueuesFirst()
    ensures Next(INITIAL, QueueEvent("a", "call.started", "", 0.0)) == GivenUpAfter(0)
  {
    assert map[] + Jobs(map[1 := Tried(0)]) == map[1 := FIRST];
  }

  lemma LateArrivalBreaksOrder()
    ensures
      var w := Run(INITIAL, LATE_RUN);
      && !w.requeued && w.accepted == [TAKEN, GIVEN_UP] && TAKEN.sequence > GIVEN_UP.sequence
      && !InOrder(w.accepted)
  {
    hide Next, Run, GivenUpAfter, WithSecond, AtRow, Attempts;
    var first, tries := [QueueEvent("a", "call.started", "", 0.0)], Attempts(MAX_ATTEMPTS);
    var four := [QueueEvent("b", "call.connected", "", 0.0), StartPass(true), Scan(0.0), Scan(0.0)];
    var three := [Deliver, AcceptEvent(TAKEN), AcceptEvent(GIVEN_UP)];
    QueuesFirst();
    Refinement.RunsOne(INITIAL, QueueEvent("a", "call.started", "", 0.0));
    Refinement.RunSplits(INITIAL, first, tries);
    LosesAll(MAX_ATTEMPTS);
    Refinement.RunSplits(INITIAL, first + tries, four + three);
    var parked := GivenUpAfter(MAX_ATTEMPTS);
    Refinement.RunSplits(parked, four, three);
    QueuesSecond();
    StartsSecond();
    PassesBy();
    FourSteps(parked, four);
    SendsSecond();
    TakesBoth();
    ThreeSteps(WithSecond(AtRow(1, Attempting(FRESH_ROW)), {GIVEN_UP}, []), three);
    LateLog();
    var log := [TAKEN, GIVEN_UP];
    assert log[0].sequence > log[1].sequence;
  }

  lemma ThreeSteps(w: World, s: seq<Step>)
    requires |s| == 3
    ensures Run(w, s) == Next(Next(Next(w, s[0]), s[1]), s[2])
  {
    hide Next;
    assert s == [s[0]] + ([s[1]] + [s[2]]);
    Refinement.RunSplits(w, [s[0]], [s[1]] + [s[2]]);
    Refinement.RunsOne(w, s[0]);
    Refinement.RunSplits(Next(w, s[0]), [s[1]], [s[2]]);
    Refinement.RunsOne(Next(w, s[0]), s[1]);
    Refinement.RunsOne(Next(Next(w, s[0]), s[1]), s[2]);
  }

  lemma LateLog()
    ensures
      var w := WithSecond(AtRow(1, Awaiting(FRESH_ROW, TAKEN)), {GIVEN_UP, TAKEN}, [TAKEN, GIVEN_UP]);
      w.accepted == [TAKEN, GIVEN_UP] && !w.requeued
  {
  }
}
