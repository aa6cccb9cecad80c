/** The call of an agent, from the claimed handoff to its end. */
module Calls {
  import opened Domain
  import opened Ranking

  datatype Posted =
    | Lifecycle(event: string, call: Id)
    | Presence(status: string, call: Id)
    | Metric(event: string, call: Id)

  type CallTable = map<Id, CallRow>

  /** The calls, and the events queued for them in sequence order. */
  datatype Desk = Desk(calls: CallTable, posted: seq<Posted>)

  // ----- the latest call -----

  /** The reduction over the listed calls: a later one wins only if it was received strictly later. */
  function LatestOf(calls: CallTable, listed: seq<Id>): (r: Option<Id>)
    requires forall id :: id in listed ==> id in calls
    ensures r.Some? ==> r.value in listed
    ensures r.None? <==> listed == []
  {
    if listed == [] then None
    else
      var last := listed[|listed| - 1];
      var before := LatestOf(calls, listed[..|listed| - 1]);
      if before.None? || calls[last].receivedAt > calls[before.value].receivedAt then Some(last) else before
  }

  function Latest(calls: CallTable): Option<Id> {
    LatestOf(calls, SortedTexts(calls.Keys))
  }

  /** Received after every other call, or at the same time and with the smaller id. */
  predicate Newest(calls: CallTable, id: Id) {
    id in calls && forall other :: other in calls && other != id ==>
      || calls[other].receivedAt < calls[id].receivedAt
      || (calls[other].receivedAt == calls[id].receivedAt && TextLess(id, other))
  }

  lemma {:induction false} LatestOfIsNewest(calls: CallTable, listed: seq<Id>)
    requires forall id :: id in listed ==> id in calls
    requires forall i, j :: 0 <= i < j < |listed| ==> TextLess(listed[i], listed[j])
    ensures
      var latest := LatestOf(calls, listed);
      latest.Some? ==> forall other :: other in listed && other != latest.value ==>
        || calls[other].receivedAt < calls[latest.value].receivedAt
        || (calls[other].receivedAt == calls[latest.value].receivedAt && TextLess(latest.value, other))
  {
    if listed != [] {
      var last, init := listed[|listed| - 1], listed[..|listed| - 1];
      LatestOfIsNewest(calls, init);
      assert listed == init + [last];
      assert forall id :: id in listed ==> id in init || id == last;
    }
  }

  lemma LatestIsNewest(calls: CallTable, id: Id)
    ensures Latest(calls) == Some(id) <==> Newest(calls, id)
  {
    LatestOfIsNewest(calls, SortedTexts(calls.Keys));
    var latest := Latest(calls);
    if latest.Some? && Newest(calls, id) && latest.value != id { TextConnected(id, latest.value); }
    if id in calls { assert id in SortedTexts(calls.Keys); }
  }

  // ----- the transactions; nothing means that the call throws and nothing changes -----

  function LatestIn(desk: Desk, phases: set<CallPhase>): Option<Id> {
    var latest := Latest(desk.calls);
    if latest.Some? && latest.value in desk.calls && desk.calls[latest.value].phase in phases then latest else None
  }

  /** A second claim of a call changes nothing. */
  function ReceiveHandoff(desk: Desk, callId: Id, now: Time): Option<Desk> {
    if callId in desk.calls then Some(desk)
    else if LatestIn(desk, {Dialing, Active}).Some? then None
    else Some(Desk(desk.calls[callId := CallRow(now, None, None, None, Ready)], desk.posted + [Presence("ready", callId)]))
  }

  predicate SomeCallEnded(calls: CallTable) {
    exists id :: id in calls && calls[id].endedAt.Some? && calls[id].endedAt.value != 0.0
  }

  function StartCall(desk: Desk, now: Time): Option<Desk> {
    var ready := LatestIn(desk, {Ready});
    if ready.None? then None
    else
      var id := ready.value;
      Some(Desk(
        desk.calls[id := desk.calls[id].(phase := Dialing, startedAt := Some(now))],
        desk.posted + [Lifecycle("started", id), Presence("dialing", id)]
          + if SomeCallEnded(desk.calls) then [Metric("between_calls", id)] else []))
  }

  function ConnectCall(desk: Desk, now: Time): Option<Desk> {
    var dialing := LatestIn(desk, {Dialing});
    if dialing.None? then None
    else
      var id := dialing.value;
      Some(Desk(
        desk.calls[id := desk.calls[id].(phase := Active, connectedAt := Some(now))],
        desk.posted + [Lifecycle("connected", id), Presence("active", id)]))
  }

  function EndCall(desk: Desk, now: Time): Option<Desk> {
    var live := LatestIn(desk, {Dialing, Active});
    if live.None? then None
    else
      var id := live.value;
      Some(Desk(
        desk.calls[id := desk.calls[id].(phase := Ended, endedAt := Some(now))],
        desk.posted + [Lifecycle("ended", id), Metric("duration", id), Presence("wrap_up", id)]))
  }

  class CallDesk {
    var calls: CallTable
    var posted: seq<Posted>

    ghost function View(): Desk
      reads this
    {
      Desk(calls, posted)
    }

    constructor ()
      ensures View() == Desk(map[], [])
    {
      calls, posted := map[], [];
    }

    method LatestCall() returns (latest: Option<Id>)
      ensures latest == Latest(calls)
    {
      hide SortedTexts;
      var listed := SortedTexts(calls.Keys);
      latest := None;
      for i := 0 to |listed|
        invariant latest == LatestOf(calls, listed[..i])
      {
        assert listed[..i + 1][..i] == listed[..i] && listed[i] in listed;
        if latest.None? || calls[listed[i]].receivedAt > calls[latest.value].receivedAt { latest := Some(listed[i]); }
      }
      assert listed[..|listed|] == listed;
    }

    method Post(event: Posted)
      modifies `posted
      ensures posted == old(posted) + [event]
    {
      posted := posted + [event];
    }

    method Receive(callId: Id, now: Time) returns (ok: bool)
      modifies this
      ensures ok <==> ReceiveHandoff(old(View()), callId, now).Some?
      ensures View() == if ok then ReceiveHandoff(old(View()), callId, now).value else old(View())
    {
      if callId in calls { return true; }
      var latest := LatestCall();
      if latest.Some? && IsLiveCall(calls[latest.value]) { return false; }
      calls := calls[callId := CallRow(now, None, None, None, Ready)];
      Post(Presence("ready", callId));
      return true;
    }

    method Start(now: Time) returns (ok: bool)
      modifies this
      ensures ok <==> StartCall(old(View()), now).Some?
      ensures View() == if ok then StartCall(old(View()), now).value else old(View())
    {
      var latest := LatestCall();
      if latest.None? || calls[latest.value].phase != Ready { return false; }
      var id, ended := latest.value, SomeCallEnded(calls);
      calls := calls[id := calls[id].(phase := Dialing, startedAt := Some(now))];
      Post(Lifecycle("started", id));
      Post(Presence("dialing", id));
      if ended { Post(Metric("between_calls", id)); }
      return true;
    }

    method Connect(now: Time) returns (ok: bool)
      modifies this
      ensures ok <==> ConnectCall(old(View()), now).Some?
      ensures View() == if ok then ConnectCall(old(View()), now).value else old(View())
    {
      var latest := LatestCall();
      if latest.None? || calls[latest.value].phase != Dialing { return false; }
      var id := latest.value;
      calls := calls[id := calls[id].(phase := Active, connectedAt := Some(now))];
      Post(Lifecycle("connected", id));
      Post(Presence("active", id));
      return true;
    }

    method End(now: Time) returns (ok: bool)
      modifies this
      ensures ok <==> EndCall(old(View()), now).Some?
      ensures View() == if ok then EndCall(old(View()), now).value else old(View())
    {
      var latest := LatestCall();
      if latest.None? || !IsLiveCall(calls[latest.value]) { return false; }
      var id := latest.value;
      calls := calls[id := calls[id].(phase := Ended, endedAt := Some(now))];
      Post(Lifecycle("ended", id));
      Post(Metric("duration", id));
      Post(Presence("wrap_up", id));
      return true;
    }
  }

  // ----- every run -----

  datatype Step = Claim(callId: Id, now: Time) | StartIt(now: Time) | ConnectIt(now: Time) | EndIt(now: Time)

  function Attempted(desk: Desk, step: Step): Option<Desk> {
    match step
    case Claim(callId, now) => ReceiveHandoff(desk, callId, now)
    case StartIt(now) => StartCall(desk, now)
    case ConnectIt(now) => ConnectCall(desk, now)
    case EndIt(now) => EndCall(desk, now)
  }

  function Next(desk: Desk, step: Step): Desk {
    var after := Attempted(desk, step);
    if after.Some? then after.value else desk
  }

  function Run(desk: Desk, steps: seq<Step>): Desk
    decreases |steps|
  {
    if steps == [] then desk else Run(Next(desk, steps[0]), steps[1..])
  }

  function LifecycleOf(posted: seq<Posted>, id: Id): seq<string> {
    if posted == [] then []
    else
      var last := posted[|posted| - 1];
      LifecycleOf(posted[..|posted| - 1], id) + if last.Lifecycle? && last.call == id then [last.event] else []
  }

  /** What the server has been told of a call that stands like this. */
  function Told(call: CallRow): seq<string> {
    (if call.phase == Ready then [] else ["started"])
    + (if call.connectedAt.Some? then ["connected"] else [])
    + (if call.phase == Ended then ["ended"] else [])
  }

  predicate Stamped(call: CallRow) {
    && (call.startedAt.Some? <==> call.phase != Ready)
    && (call.endedAt.Some? <==> call.phase == Ended)
    && (call.phase == Active ==> call.connectedAt.Some?)
    && (call.phase == Ready || call.phase == Dialing ==> call.connectedAt.None?)
  }

  ghost predicate Sound(desk: Desk) {
    && (forall id :: id in desk.calls && IsLiveCall(desk.calls[id]) ==> Newest(desk.calls, id))
    && (forall id :: id in desk.calls ==> Stamped(desk.calls[id]))
    && (forall id :: id in desk.calls ==> LifecycleOf(desk.posted, id) == Told(desk.calls[id]))
    && (forall id :: id !in desk.calls ==> LifecycleOf(desk.posted, id) == [])
  }

  lemma {:induction false} LifecycleGrows(posted: seq<Posted>, more: seq<Posted>, id: Id)
    ensures LifecycleOf(posted + more, id) == LifecycleOf(posted, id) + LifecycleOf(more, id)
    decreases |more|
  {
    if more == [] {
      assert posted + more == posted;
    } else {
      var init := more[..|more| - 1];
      assert (posted + more)[..|posted + more| - 1] == posted + init;
      LifecycleGrows(posted, init, id);
    }
  }

  lemma LifecycleOfOne(event: Posted, id: Id)
    ensures LifecycleOf([event], id) == if event.Lifecycle? && event.call == id then [event.event] else []
  {
    assert [event][..0] == [];
  }

  /** Of what a transaction posts, only its first event can be a lifecycle event. */
  lemma FirstTells(posted: seq<Posted>, first: Posted, others: seq<Posted>, id: Id)
    requires forall i :: 0 <= i < |others| ==> !others[i].Lifecycle?
    ensures LifecycleOf(posted + ([first] + others), id)
            == LifecycleOf(posted, id) + if first.Lifecycle? && first.call == id then [first.event] else []
  {
    LifecycleGrows(posted, [first] + others, id);
    LifecycleGrows([first], others, id);
    LifecycleOfOne(first, id);
    NothingTold(others, id);
  }

  lemma {:induction false} NothingTold(others: seq<Posted>, id: Id)
    requires forall i :: 0 <= i < |others| ==> !others[i].Lifecycle?
    ensures LifecycleOf(others, id) == []
  {
    if others != [] { NothingTold(others[..|others| - 1], id); }
  }

  /** The call that `LatestIn` finds is the newest, so any live call is that one. */
  lemma FoundIsNewest(desk: Desk, phases: set<CallPhase>)
    ensures LatestIn(desk, phases).Some? ==>
      Newest(desk.calls, LatestIn(desk, phases).value) && desk.calls[LatestIn(desk, phases).value].phase in phases
  {
    var latest := Latest(desk.calls);
    if latest.Some? { LatestIsNewest(desk.calls, latest.value); }
  }

  lemma NewestIsUnique(calls: CallTable, a: Id, b: Id)
    requires Newest(calls, a) && Newest(calls, b)
    ensures a == b
  {
    TextConnected(a, b);
  }

  /** A transition of the newest call to a later phase, with the lifecycle event that goes with it. */
  lemma TransitionKeeps(desk: Desk, id: Id, call: CallRow, others: seq<Posted>, event: string)
    requires Sound(desk) && Newest(desk.calls, id)
    requires call.receivedAt == desk.calls[id].receivedAt && Stamped(call)
    requires Told(call) == Told(desk.calls[id]) + [event]
    requires forall i :: 0 <= i < |others| ==> !others[i].Lifecycle?
    ensures Sound(Desk(desk.calls[id := call], desk.posted + ([Lifecycle(event, id)] + others)))
  {
    hide Told, Stamped, TextLess;
    var after := Desk(desk.calls[id := call], desk.posted + ([Lifecycle(event, id)] + others));
    forall other | other in after.calls && IsLiveCall(after.calls[other]) ensures Newest(after.calls, other) {
      if other != id {
        NewestIsUnique(desk.calls, id, other);
      }
    }
    forall other ensures LifecycleOf(after.posted, other)
                         == LifecycleOf(desk.posted, other) + if other == id then [event] else []
    {
      FirstTells(desk.posted, Lifecycle(event, id), others, other);
    }
  }

  lemma NobodyIsLive(desk: Desk)
    requires Sound(desk) && LatestIn(desk, {Dialing, Active}).None?
    ensures forall id :: id in desk.calls ==> !IsLiveCall(desk.calls[id])
  {
    hide Newest, Latest, LifecycleOf, Told, Stamped;
    forall id | id in desk.calls ensures !IsLiveCall(desk.calls[id]) { LatestIsNewest(desk.calls, id); }
  }

  lemma ReceiveKeeps(desk: Desk, callId: Id, now: Time)
    requires Sound(desk) && ReceiveHandoff(desk, callId, now).Some?
    ensures Sound(ReceiveHandoff(desk, callId, now).value)
  {
    hide LatestIn, Newest, LifecycleOf;
    if callId !in desk.calls {
      var after := ReceiveHandoff(desk, callId, now).value;
      NobodyIsLive(desk);
      forall id ensures LifecycleOf(after.posted, id) == LifecycleOf(desk.posted, id) {
        FirstTells(desk.posted, Presence("ready", callId), [], id);
        assert desk.posted + ([Presence("ready", callId)] + []) == after.posted;
      }
    }
  }

  lemma StepKeeps(desk: Desk, step: Step)
    requires Sound(desk)
    ensures Sound(Next(desk, step))
  {
    hide Sound, Newest, LatestIn;
    if Attempted(desk, step).Some? {
      match step
      case Claim(callId, now) => ReceiveKeeps(desk, callId, now);
      case StartIt(now) => StartKeeps(desk, now);
      case ConnectIt(now) => ConnectKeeps(desk, now);
      case EndIt(now) => EndKeeps(desk, now);
    }
  }

  lemma SoundIsStamped(desk: Desk, id: Id)
    requires Sound(desk) && id in desk.calls
    ensures Stamped(desk.calls[id])
  {
  }

  lemma NewestIsThere(calls: CallTable, id: Id)
    requires Newest(calls, id)
    ensures id in calls
  {
  }

  lemma StartKeeps(desk: Desk, now: Time)
    requires Sound(desk) && StartCall(desk, now).Some?
    ensures Sound(StartCall(desk, now).value)
  {
    hide Sound, Newest, LatestIn, SomeCallEnded;
    var id := LatestIn(desk, {Ready}).value;
    FoundIsNewest(desk, {Ready});
    NewestIsThere(desk.calls, id);
    SoundIsStamped(desk, id);
    var others := [Presence("dialing", id)] + if SomeCallEnded(desk.calls) then [Metric("between_calls", id)] else [];
    TransitionKeeps(desk, id, desk.calls[id].(phase := Dialing, startedAt := Some(now)), others, "started");
    assert StartCall(desk, now).value.posted == desk.posted + ([Lifecycle("started", id)] + others);
  }

  lemma ConnectKeeps(desk: Desk, now: Time)
    requires Sound(desk) && ConnectCall(desk, now).Some?
    ensures Sound(ConnectCall(desk, now).value)
  {
    hide Sound, Newest, LatestIn;
    var id := LatestIn(desk, {Dialing}).value;
    FoundIsNewest(desk, {Dialing});
    NewestIsThere(desk.calls, id);
    SoundIsStamped(desk, id);
    var others := [Presence("active", id)];
    TransitionKeeps(desk, id, desk.calls[id].(phase := Active, connectedAt := Some(now)), others, "connected");
    assert ConnectCall(desk, now).value.posted == desk.posted + ([Lifecycle("connected", id)] + others);
  }

  lemma EndKeeps(desk: Desk, now: Time)
    requires Sound(desk) && EndCall(desk, now).Some?
    ensures Sound(EndCall(desk, now).value)
  {
    hide Sound, Newest, LatestIn;
    var id := LatestIn(desk, {Dialing, Active}).value;
    FoundIsNewest(desk, {Dialing, Active});
    NewestIsThere(desk.calls, id);
    SoundIsStamped(desk, id);
    var others := [Metric("duration", id), Presence("wrap_up", id)];
    TransitionKeeps(desk, id, desk.calls[id].(phase := Ended, endedAt := Some(now)), others, "ended");
    assert EndCall(desk, now).value.posted == desk.posted + ([Lifecycle("ended", id)] + others);
  }

  lemma {:induction false} RunKeeps(desk: Desk, steps: seq<Step>)
    requires Sound(desk)
    ensures Sound(Run(desk, steps))
    decreases |steps|
  {
    hide Sound, Next;
    if steps != [] {
      StepKeeps(desk, steps[0]);
      RunKeeps(Next(desk, steps[0]), steps[1..]);
    }
  }

  const NO_CALLS := Desk(map[], [])

  /** Whatever the clock does, a live call is the latest one, so there is at most one. */
  lemma LiveCallIsLatest(steps: seq<Step>, id: Id)
    requires id in Run(NO_CALLS, steps).calls && IsLiveCall(Run(NO_CALLS, steps).calls[id])
    ensures Latest(Run(NO_CALLS, steps).calls) == Some(id)
  {
    hide Run, Newest;
    RunKeeps(NO_CALLS, steps);
    LatestIsNewest(Run(NO_CALLS, steps).calls, id);
  }

  /** The lifecycle events queued for a call are started, connected if it connected, and ended, each once and in order. */
  lemma LifecycleInOrder(steps: seq<Step>, id: Id)
    requires id in Run(NO_CALLS, steps).calls
    ensures LifecycleOf(Run(NO_CALLS, steps).posted, id) == Told(Run(NO_CALLS, steps).calls[id])
  {
    hide Run, Newest;
    RunKeeps(NO_CALLS, steps);
  }

  function Rank(phase: CallPhase): nat {
    match phase
    case Ready => 0
    case Dialing => 1
    case Active => 2
    case Ended => 3
  }

  /** Calls stay, phases only move forward, and what is ended stays as it is. */
  lemma {:induction false} PhasesMoveForward(desk: Desk, steps: seq<Step>, id: Id)
    requires id in desk.calls
    ensures
      var after := Run(desk, steps).calls;
      && id in after && Rank(desk.calls[id].phase) <= Rank(after[id].phase)
      && (desk.calls[id].phase == Ended ==> after[id] == desk.calls[id])
    decreases |steps|
  {
    hide Latest;
    if steps != [] { PhasesMoveForward(Next(desk, steps[0]), steps[1..], id); }
  }

  /**
   * A new call becomes the current one exactly when its clock reading is ahead of that of the call
   * before it, or the same with an id that sorts first. Otherwise no transition can reach it.
   */
  lemma NewCallIsCurrentExactlyWhen(desk: Desk, callId: Id, now: Time)
    requires callId !in desk.calls && ReceiveHandoff(desk, callId, now).Some?
    ensures
      var latest := Latest(desk.calls);
      Latest(ReceiveHandoff(desk, callId, now).value.calls) == Some(callId)
      <==> latest.None? || desk.calls[latest.value].receivedAt < now
           || (desk.calls[latest.value].receivedAt == now && TextLess(callId, latest.value))
  {
    hide TextLess, LatestIn;
    var after, latest := ReceiveHandoff(desk, callId, now).value, Latest(desk.calls);
    LatestIsNewest(after.calls, callId);
    if latest.Some? {
      LatestIsNewest(desk.calls, latest.value);
      assert latest.value in after.calls;
      forall other | other in desk.calls && other != latest.value && TextLess(latest.value, other) && TextLess(callId, latest.value)
        ensures TextLess(callId, other)
      {
        TextTransitive(callId, latest.value, other);
      }
      TextConnected(callId, latest.value);
    } else {
      assert SortedTexts(desk.calls.Keys) == [];
      assert forall id :: id in desk.calls ==> id in SortedTexts(desk.calls.Keys);
    }
  }

  // ----- when each transition is possible, and what it does -----

  /** The newest call, if it is in this phase. */
  predicate NewestIn(calls: CallTable, id: Id, phase: CallPhase) {
    Newest(calls, id) && calls[id].phase == phase
  }

  /** One call differs, and these events were queued. */
  ghost predicate Becomes(before: Desk, after: Desk, id: Id, call: CallRow, posted: seq<Posted>) {
    && after.calls.Keys == before.calls.Keys && id in after.calls && after.calls[id] == call
    && (forall other :: other in before.calls && other != id ==> after.calls[other] == before.calls[other])
    && after.posted == before.posted + posted
  }

  predicate EndedBefore(calls: CallTable) {
    exists id :: id in calls && calls[id].endedAt.Some? && calls[id].endedAt.value != 0.0
  }

  /** A call can be started exactly when the newest one is ready; it is then dialing. */
  lemma StartsExactlyWhen(desk: Desk, now: Time)
    ensures StartCall(desk, now).Some? <==> exists id :: NewestIn(desk.calls, id, Ready)
    ensures forall id :: NewestIn(desk.calls, id, Ready) ==>
      var call := desk.calls[id];
      Becomes(desk, StartCall(desk, now).value, id, CallRow(call.receivedAt, Some(now), call.connectedAt, call.endedAt, Dialing),
              [Lifecycle("started", id), Presence("dialing", id)]
              + if EndedBefore(desk.calls) then [Metric("between_calls", id)] else [])
  {
    hide Latest, Newest;
    NewestIsLatest(desk.calls);
    var latest := Latest(desk.calls);
    if latest.Some? { assert NewestIn(desk.calls, latest.value, desk.calls[latest.value].phase); }
  }

  /** A call can be connected exactly when the newest one is dialing; it is then active. */
  lemma ConnectsExactlyWhen(desk: Desk, now: Time)
    ensures ConnectCall(desk, now).Some? <==> exists id :: NewestIn(desk.calls, id, Dialing)
    ensures forall id :: NewestIn(desk.calls, id, Dialing) ==>
      var call := desk.calls[id];
      Becomes(desk, ConnectCall(desk, now).value, id, CallRow(call.receivedAt, call.startedAt, Some(now), call.endedAt, Active),
              [Lifecycle("connected", id), Presence("active", id)])
  {
    hide Latest, Newest;
    NewestIsLatest(desk.calls);
    var latest := Latest(desk.calls);
    if latest.Some? { assert NewestIn(desk.calls, latest.value, desk.calls[latest.value].phase); }
  }

  /** A call can be ended exactly when the newest one is dialing or active; it is then ended. */
  lemma EndsExactlyWhen(desk: Desk, now: Time)
    ensures EndCall(desk, now).Some?
            <==> exists id :: NewestIn(desk.calls, id, Dialing) || NewestIn(desk.calls, id, Active)
    ensures forall id :: NewestIn(desk.calls, id, Dialing) || NewestIn(desk.calls, id, Active) ==>
      var call := desk.calls[id];
      Becomes(desk, EndCall(desk, now).value, id, CallRow(call.receivedAt, call.startedAt, call.connectedAt, Some(now), Ended),
              [Lifecycle("ended", id), Metric("duration", id), Presence("wrap_up", id)])
  {
    hide Latest, Newest;
    NewestIsLatest(desk.calls);
    var latest := Latest(desk.calls);
    if latest.Some? { assert NewestIn(desk.calls, latest.value, desk.calls[latest.value].phase); }
  }

  lemma NewestIsLatest(calls: CallTable)
    ensures forall id :: Latest(calls) == Some(id) <==> Newest(calls, id)
    ensures forall id :: Newest(calls, id) ==> id in calls
  {
    hide Latest;
    forall id ensures Latest(calls) == Some(id) <==> Newest(calls, id) { LatestIsNewest(calls, id); }
  }

  /** In every run, a new claim is refused exactly while some call is dialing or active; otherwise the call is ready. */
  lemma ClaimedExactlyWhen(steps: seq<Step>, callId: Id, now: Time)
    requires callId !in Run(NO_CALLS, steps).calls
    ensures
      var desk := Run(NO_CALLS, steps);
      && (ReceiveHandoff(desk, callId, now).None?
          <==> exists id :: id in desk.calls && (desk.calls[id].phase == Dialing || desk.calls[id].phase == Active))
      && (ReceiveHandoff(desk, callId, now).Some? ==>
            var after := ReceiveHandoff(desk, callId, now).value;
            && after.calls == desk.calls[callId := CallRow(now, None, None, None, Ready)]
            && after.posted == desk.posted + [Presence("ready", callId)])
  {
    hide Run, Latest, Newest, Stamped;
    var desk := Run(NO_CALLS, steps);
    RunKeeps(NO_CALLS, steps);
    NewestIsLatest(desk.calls);
  }

  /** A second claim of a call changes nothing. */
  lemma ClaimedOnce(desk: Desk, callId: Id, now: Time)
    requires callId in desk.calls
    ensures ReceiveHandoff(desk, callId, now) == Some(desk)
  {
  }
}
