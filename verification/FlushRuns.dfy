/** A flush as a run of the state machine, against the server that is part of it. */
module FlushRuns {
  import opened Domain
  import opened Store
  import opened Delivery
  import opened Correspondence
  import opened Protocol
  import opened Refinement
  import opened Termination
  import opened ProtocolTheorems
  import Flush
  import Pass
  import Safety

  /** What the server does while each row of each pass waits for its replies, and the clock at the end of each pass. */
  datatype Server = Server(meanwhile: (nat, int) -> Meanwhile, ends: nat -> Time)

  ghost predicate ServesOnly(server: Server) {
    forall n: nat, s :: ServerOnly(server.meanwhile(n, s).first) && ServerOnly(server.meanwhile(n, s).second)
  }

  function StepsOfPass(db: Db, network: Network, server: Server, n: nat): seq<Step> {
    WholePass(db, true, network(n).1, s => server.meanwhile(n, s), server.ends(n))
  }

  /** The steps of all the passes of a forced flush, online and signed in. */
  function FlushSteps(db: Db, network: Network, server: Server, n: nat): seq<Step>
    requires Pass.Numbered(db)
    decreases CloseBudget(db), LiveRows(db)
  {
    var pass := Pass.PassOf(db, true, true, network(n).1);
    ProgressShrinks(db, true, true, network(n).1);
    StepsOfPass(db, network, server, n) + if pass.progressed then FlushSteps(pass.db, network, server, n + 1) else []
  }

  /** Passes until one makes no progress are a run, as long as each reply may be given when it comes. */
  lemma {:induction false} FlushIsARun(w: World, network: Network, server: Server, n: nat)
    requires w.worker.Idle? && Matches(w.db) && Flush.Healthy(w.db) && Flush.Working(w.db, network, n)
    requires ServesOnly(server) && AllAnswerable(w, FlushSteps(w.db, network, server, n))
    ensures
      var v := Run(w, FlushSteps(w.db, network, server, n));
      v.db == UntilIdle(w.db, true, network, n).0 && v.worker == Idle
    decreases CloseBudget(w.db), LiveRows(w.db)
  {
    hide Matches, Flush.Healthy, Pass.PassFrom, Flush.AllWork, Run, Next, AllAnswerable, WholePass, CloseBudget, LiveRows, Shrunk;
    var answers := network(n).1;
    var steps, pass := StepsOfPass(w.db, network, server, n), Pass.PassOf(w.db, true, true, answers);
    Flush.MatchesNumbers(w.db);
    ProgressShrinks(w.db, true, true, answers);
    var rest := if pass.progressed then FlushSteps(pass.db, network, server, n + 1) else [];
    AnswerableSplits(w, steps, rest);
    RunSplits(w, steps, rest);
    PassIsARun(w, true, answers, s => server.meanwhile(n, s), server.ends(n));
    if pass.progressed {
      PassKeeps(w.db, network, n);
      FlushIsARun(Run(w, steps), network, server, n + 1);
    } else {
      RunsNothing(Run(w, steps));
    }
  }

  /** What the next pass needs. */
  lemma PassKeeps(db: Db, network: Network, n: nat)
    requires Matches(db) && Flush.Healthy(db) && Flush.Working(db, network, n)
    ensures
      var after := Pass.PassOf(db, true, true, network(n).1).db;
      Matches(after) && Flush.Healthy(after)
  {
    hide Matches, Flush.Healthy, Pass.PassFrom, Flush.AllWork, CloseBudget, LiveRows, Shrunk, Flush.Onward;
    var rows, answers := Listed(db.queue), network(n).1;
    Flush.MatchesNumbers(db);
    Pass.ListedIntact(db);
    Flush.WorkingPass(Pass.Begun(db), rows, answers);
    Flush.PassFromKeeps(Pass.Begun(db), rows, true, answers);
  }

  lemma ReachesOn(w: World, steps: seq<Step>)
    requires Reachable(w)
    ensures Reachable(Run(w, steps))
  {
    hide Run;
    var before :| w == Run(INITIAL, before);
    RunSplits(INITIAL, before, steps);
  }

  /**
   * From any reachable world without parked rows, a forced flush is a run of the state machine. If the server does
   * its work in every pass and says only what is true of it, the run ends with an empty queue; every recording
   * that was closing is complete, with an exact copy on the server; and every event but a heartbeat was taken.
   */
  lemma AFlushDeliversEverything(w: World, network: Network, server: Server)
    requires Reachable(w) && w.worker.Idle? && Flush.Healthy(w.db)
    requires Pass.Numbered(w.db) && Flush.Working(w.db, network, 0)
    requires ServesOnly(server) && AllAnswerable(w, FlushSteps(w.db, network, server, 0))
    ensures
      var v := Run(w, FlushSteps(w.db, network, server, 0));
      && Reachable(v) && v.worker.Idle? && v.db.queue == map[]
      && (forall r :: r in w.db.recordings && w.db.recordings[r].status == Closing ==>
            && r in v.db.recordings && v.db.recordings[r].status == Complete
            && v.db.recordings[r].remoteId.Some? && CopiedExactly(v, r))
      && (FreshIds(v) ==> forall s :: s in v.enqueued && v.enqueued[s].Event? ==> Took(v, s) || IsHeartbeat(v.enqueued[s]))
  {
    hide Reachable, UntilIdle, Flush.Working, Run, Next, AllAnswerable, FlushSteps, Flush.Healthy, CopiedExactly, FreshIds, Took;
    var steps := FlushSteps(w.db, network, server, 0);
    var v := Run(w, steps);
    SoundMatches(w);
    FlushIsARun(w, network, server, 0);
    Flush.FlushDelivers(w.db, network, 0);
    ReachesOn(w, steps);
    forall r | r in w.db.recordings && w.db.recordings[r].status == Closing
      ensures v.db.recordings[r].remoteId.Some? && CopiedExactly(v, r)
    {
      NoAudioIsLost(v, r);
    }
    if FreshIds(v) {
      forall s | s in v.enqueued && v.enqueued[s].Event? ensures Took(v, s) || IsHeartbeat(v.enqueued[s]) {
        EventsAreDeliveredOrKept(v, s);
      }
    }
  }

  lemma SoundMatches(w: World)
    requires Reachable(w)
    ensures Matches(w.db)
  {
    hide Reachable, Matches;
    ReachableIsSound(w);
  }

  // ----- such a server exists -----

  lemma {:induction false} UnusedText(used: set<string>) returns (text: string)
    ensures text != "" && forall t :: t in used ==> |t| < |text|
    decreases used
  {
    text := "x";
    if t :| t in used {
      var rest := UnusedText(used - {t});
      text := rest + t;
      assert forall u :: u in used ==> u == t || u in used - {t};
    }
  }

  /**
   * Whatever request waits, the server can do its work and then say so truthfully. Only a close needs something
   * from before: that the server was given all of the recording.
   */
  lemma TheServerCanWork(w: World) returns (meanwhile: seq<Step>, reply: Reply)
    requires Safety.Inv(w) && InPhase(w.worker) && w.worker.phase.Awaiting?
    requires forall c :: c in w.minted ==> w.minted[c] != ""
    requires
      var job := w.worker.phase.row.job;
      job.Close? && job.recording in w.db.recordings && w.db.recordings[job.recording].remoteId.Some? ==>
        Safety.FullyUploaded(w, job.recording)
    ensures ServerOnly(meanwhile) && Answerable(Run(w, meanwhile), reply)
    ensures Flush.Works(w.db.chunks, w.worker.phase.row.job, reply)
    ensures
      var request := w.worker.phase.request;
      request.PutSegment? ==> (request.remoteId, request.seqNo) in Run(w, meanwhile).segments
  {
    hide Next, Run, TotalsOf, Matches, Safety.AudioInv, Safety.SnapshotSound, Safety.OrderSound, Safety.EventsConserved,
      Safety.SentSound, Safety.HistorySound, Safety.FullyUploaded, Holds, IsAccepted;
    var row, request := w.worker.phase.row, w.worker.phase.request;
    meanwhile := [];
    RunsNothing(w);
    match row.job
    case Event(_, _, _) =>
      meanwhile := [AcceptEvent(request)];
      reply := Ok(Unrecognised);
      RunsOne(w, AcceptEvent(request));
      ServerStepLeaves(w, AcceptEvent(request));
      EventIsTaken(w, request);
    case CreateRecording(_) =>
      if request.callId in w.minted {
        reply := Ok(Created(w.minted[request.callId]));
      } else {
        var remoteId := UnusedText(w.minted.Values);
        meanwhile := [Mint(request.callId, remoteId)];
        reply := Ok(Created(remoteId));
        RunsOne(w, Mint(request.callId, remoteId));
        ServerStepLeaves(w, Mint(request.callId, remoteId));
        IdIsMinted(w, request.callId, remoteId);
      }
    case Segment(_, i) =>
      meanwhile := [Keep(request)];
      reply := Ok(Uploaded(i, 0));
      RunsOne(w, Keep(request));
      ServerStepLeaves(w, Keep(request));
      SegmentIsKept(w, request);
    case Close(r, _) =>
      reply := Ok(Completed(TotalsOf(w.db.chunks, r)));
      CloseIsHeld(w, r);
  }

  lemma EventIsTaken(w: World, request: Request)
    requires request.PostEvent? && request in w.sent
    ensures IsAccepted(Next(w, AcceptEvent(request)), request.id)
  {
    var v := AcceptEventStep(w, request);
    if !IsAccepted(w, request.id) { assert v.accepted[|w.accepted|] == request; }
  }

  lemma SegmentIsKept(w: World, request: Request)
    requires request.PutSegment? && request in w.sent
    ensures (request.remoteId, request.seqNo) in Next(w, Keep(request)).segments
  {
  }

  lemma IdIsMinted(w: World, callId: Id, remoteId: Id)
    requires PostRecording(callId) in w.sent && callId !in w.minted && remoteId !in w.minted.Values
    ensures callId in Next(w, Mint(callId, remoteId)).minted && Next(w, Mint(callId, remoteId)).minted[callId] == remoteId
  {
  }

  lemma CloseIsHeld(w: World, r: Id)
    requires Safety.Inv(w) && r in w.db.recordings && w.db.recordings[r].status == Closing
    requires w.db.recordings[r].remoteId.Some? && Safety.FullyUploaded(w, r)
    ensures Holds(w.segments, w.db.recordings[r].remoteId.value, TotalsOf(w.db.chunks, r))
  {
    hide Safety.PassInv, Safety.LocksSound, Safety.RecordersSound, Safety.CompleteSound, Matches, Holds, TotalsOf;
    UploadedMeansHeld(w, r);
  }
}
