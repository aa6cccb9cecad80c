/** The offscreen recorder and the orphan sweep as objects and loops over the database. */
module Offscreen {
  import opened Domain
  import S = Store
  import Protocol
  import opened Outbox

  /** What happens to a recorder once its recording has begun; `ok` says whether a transaction goes through. */
  datatype Happening =
    | Data(blob: Blob, now: Time)
    | Write(ok: bool, now: Time)
    | StopAsked
    | Interruption
    | StreamStopped
    | Closed(ok: bool, now: Time)

  /** One recorder and the database it writes to. */
  datatype Device = Device(recorder: Protocol.Recorder, chunkStartedAt: Time, db: Db)

  /** The last data comes before the stop event, and the close after every write. */
  predicate Due(recorder: Protocol.Recorder, h: Happening) {
    match h
    case Data(_, _) => !recorder.stopped
    case Write(_, _) => recorder.pending != []
    case Closed(_, _) => recorder.stopped && recorder.pending == [] && !recorder.finished
    case _ => true
  }

  function Played(dev: Device, h: Happening): (after: Device)
    requires Due(dev.recorder, h) && dev.recorder.recording.Some?
    ensures after.recorder.recording == dev.recorder.recording
  {
    var rec := dev.recorder;
    match h
    case Data(blob, now) =>
      if blob == [] then dev
      else Device(rec.(pending := rec.pending + [(blob, dev.chunkStartedAt)]), now, dev.db)
    case Write(ok, now) =>
      dev.(recorder := Protocol.Written(rec, ok),
           db := if rec.writeFailed || !ok then dev.db
                 else S.StoreChunk(dev.db, rec.recording.value, rec.nextSeq, rec.pending[0].0, rec.pending[0].1, now))
    case StopAsked => dev.(recorder := rec.(stopRequested := true))
    case Interruption => dev.(recorder := rec.(stopRequested := false))
    case StreamStopped => dev.(recorder := rec.(stopped := true))
    case Closed(ok, now) =>
      dev.(recorder := rec.(finished := true),
           db := if ok then S.FinishRecording(dev.db, rec.recording.value, !rec.stopRequested, now) else dev.db)
  }

  predicate AllDue(dev: Device, happenings: seq<Happening>)
    requires dev.recorder.recording.Some?
    decreases |happenings|
  {
    happenings != [] ==>
      Due(dev.recorder, happenings[0]) && AllDue(Played(dev, happenings[0]), happenings[1..])
  }

  function PlayedAll(dev: Device, happenings: seq<Happening>): Device
    requires dev.recorder.recording.Some? && AllDue(dev, happenings)
    decreases |happenings|
  {
    if happenings == [] then dev else PlayedAll(Played(dev, happenings[0]), happenings[1..])
  }

  /** The variables of one recorder, from the moment its recording has begun. */
  class ActiveRecorder {
    const callId: Id
    const recording: Id
    var nextSeq: nat
    var pending: seq<(Blob, Time)>
    var chunkStartedAt: Time
    var writeFailed: bool
    var stopRequested: bool
    var stopped: bool
    var finished: bool

    ghost function View(): Protocol.Recorder
      reads this
    {
      Protocol.Recorder(callId, Some(recording), nextSeq, pending, writeFailed, stopRequested, stopped, finished)
    }

    ghost function With(db: Database): Device
      reads this, db
    {
      Device(View(), chunkStartedAt, db.View())
    }

    constructor (callId: Id, recording: Id, now: Time)
      ensures View() == Protocol.Recorder(callId, Some(recording), 0, [], false, false, false, false)
      ensures chunkStartedAt == now
    {
      this.callId, this.recording := callId, recording;
      nextSeq, pending, chunkStartedAt := 0, [], now;
      writeFailed, stopRequested, stopped, finished := false, false, false, false;
    }

    /** Empty data is ignored. A chunk starts where the last one with audio ended. */
    method OnData(blob: Blob, now: Time)
      modifies this
      ensures View() == if blob == [] then old(View())
                        else old(View()).(pending := old(pending) + [(blob, old(chunkStartedAt))])
      ensures chunkStartedAt == if blob == [] then old(chunkStartedAt) else now
    {
      if |blob| == 0 { return; }
      var startedAt := chunkStartedAt;
      chunkStartedAt := now;
      pending := pending + [(blob, startedAt)];
    }

    /** The next waiting write; the number is taken only after it succeeded. */
    method StoreNext(db: Database, ok: bool, now: Time)
      requires pending != []
      modifies this, db
      ensures View() == Protocol.Written(old(View()), ok) && chunkStartedAt == old(chunkStartedAt)
      ensures db.View() ==
        if old(writeFailed) || !ok then old(db.View())
        else S.StoreChunk(old(db.View()), recording, old(nextSeq), old(pending)[0].0, old(pending)[0].1, now)
    {
      var (blob, startedAt) := pending[0];
      pending := pending[1..];
      if writeFailed { return; }
      if !ok {
        writeFailed := true;
        Interrupt();
        return;
      }
      db.StoreChunk(recording, nextSeq, blob, startedAt, now);
      nextSeq := nextSeq + 1;
    }

    /** Stopping is asynchronous: the last data and the stop event come later. */
    method Interrupt()
      modifies this
      ensures View() == old(View()).(stopRequested := false) && chunkStartedAt == old(chunkStartedAt)
    {
      stopRequested := false;
    }

    method Stop()
      modifies this
      ensures View() == old(View()).(stopRequested := true) && chunkStartedAt == old(chunkStartedAt)
    {
      stopRequested := true;
    }

    method OnStop()
      modifies this
      ensures View() == old(View()).(stopped := true) && chunkStartedAt == old(chunkStartedAt)
    {
      stopped := true;
    }

    /** After the stop event and every write: queues the close, if the transaction goes through. */
    method Finish(db: Database, ok: bool, now: Time)
      requires stopped && pending == [] && !finished
      modifies this, db
      ensures View() == old(View()).(finished := true) && chunkStartedAt == old(chunkStartedAt)
      ensures db.View() == if ok then S.FinishRecording(old(db.View()), recording, !old(stopRequested), now)
                           else old(db.View())
    {
      if ok { db.FinishRecording(recording, !stopRequested, now); }
      finished := true;
    }

    /** The handlers as events call them, one after the other. */
    method Record(db: Database, happenings: seq<Happening>)
      requires AllDue(With(db), happenings)
      modifies this, db
      ensures With(db) == PlayedAll(old(With(db)), happenings)
    {
      var i := 0;
      while i < |happenings|
        invariant 0 <= i <= |happenings|
        invariant AllDue(With(db), happenings[i..])
        invariant PlayedAll(With(db), happenings[i..]) == PlayedAll(old(With(db)), happenings)
      {
        ghost var dev := With(db);
        assert happenings[i..][0] == happenings[i] && happenings[i..][1..] == happenings[i + 1..];
        match happenings[i] {
          case Data(blob, now) => OnData(blob, now);
          case Write(ok, now) => StoreNext(db, ok, now);
          case StopAsked => Stop();
          case Interruption => Interrupt();
          case StreamStopped => OnStop();
          case Closed(ok, now) => Finish(db, ok, now);
        }
        assert With(db) == Played(dev, happenings[i]);
        i := i + 1;
      }
    }
  }

  // ----- the handlers are steps of the state machine -----

  /** The state machine has this recorder under `p`, and this database. */
  ghost predicate Shows(w: Protocol.World, p: nat, dev: Device) {
    p in w.recorders && w.recorders[p] == dev.recorder && w.db == dev.db
  }

  function StepOf(p: nat, dev: Device, h: Happening): Protocol.Step {
    match h
    case Data(blob, _) => Protocol.DataArrives(p, blob, dev.chunkStartedAt)
    case Write(ok, now) => Protocol.StoreNext(p, ok, now)
    case StopAsked => Protocol.AskStop(p)
    case Interruption => Protocol.Interrupt(p)
    case StreamStopped => Protocol.StreamStops(p)
    case Closed(ok, now) => Protocol.Finish(p, ok, now)
  }

  /** Each handler does to the recorder and the database what its step does. */
  lemma HandlerIsAStep(w: Protocol.World, p: nat, dev: Device, h: Happening)
    requires Shows(w, p, dev) && dev.recorder.recording.Some? && Due(dev.recorder, h)
    ensures Shows(Protocol.Next(w, StepOf(p, dev, h)), p, Played(dev, h))
  {
    hide Protocol.Jobs, S.StoreChunk, S.FinishRecording;
  }

  function StepsOf(p: nat, dev: Device, happenings: seq<Happening>): seq<Protocol.Step>
    requires dev.recorder.recording.Some? && AllDue(dev, happenings)
    decreases |happenings|
  {
    if happenings == [] then []
    else [StepOf(p, dev, happenings[0])] + StepsOf(p, Played(dev, happenings[0]), happenings[1..])
  }

  /** So a recorder's life is a run of the state machine, and what holds in every run holds of it. */
  lemma {:induction false} RecorderIsARun(w: Protocol.World, p: nat, dev: Device, happenings: seq<Happening>)
    requires Shows(w, p, dev) && dev.recorder.recording.Some? && AllDue(dev, happenings)
    ensures Shows(Protocol.Run(w, StepsOf(p, dev, happenings)), p, PlayedAll(dev, happenings))
    decreases |happenings|
  {
    hide Protocol.Next, Played, Due, StepOf;
    if happenings != [] {
      var steps := StepsOf(p, dev, happenings);
      HandlerIsAStep(w, p, dev, happenings[0]);
      assert steps[0] == StepOf(p, dev, happenings[0]);
      assert steps[1..] == StepsOf(p, Played(dev, happenings[0]), happenings[1..]);
      RecorderIsARun(Protocol.Next(w, steps[0]), p, Played(dev, happenings[0]), happenings[1..]);
    }
  }

  // ----- the orphan sweep -----

  predicate IsOrphan(rec: RecordingRow, busy: set<Id>) {
    rec.status == Recording && rec.callId !in busy
  }

  predicate Unique(ids: seq<Id>) { forall i, j :: 0 <= i < j < |ids| ==> ids[i] != ids[j] }

  /** The recordings closed among `ids` are exactly the orphans. */
  ghost predicate OrphansClosed(before: Db, after: Db, ids: seq<Id>, busy: set<Id>) {
    && after.calls == before.calls && after.chunks == before.chunks
    && after.recordings.Keys == before.recordings.Keys
    && (forall r :: r in before.recordings ==>
          after.recordings[r] == if r in ids && IsOrphan(before.recordings[r], busy)
                                 then before.recordings[r].(status := Closing, interrupted := true)
                                 else before.recordings[r])
  }

  /** Each of them has exactly one new close, and nothing else is new. */
  ghost predicate ClosesQueued(before: Db, after: Db, ids: seq<Id>, busy: set<Id>) {
    && before.nextSequence <= after.nextSequence
    && (forall s :: s in before.queue ==> s in after.queue && after.queue[s] == before.queue[s])
    && (forall s :: s in after.queue && s !in before.queue ==>
          && before.nextSequence <= s < after.nextSequence && after.queue[s].job.Close? && after.queue[s].job.interrupted
          && var r := after.queue[s].job.recording;
             r in ids && r in before.recordings && IsOrphan(before.recordings[r], busy))
    && (forall r :: r in ids && r in before.recordings && IsOrphan(before.recordings[r], busy) ==>
          exists s :: s in after.queue && s !in before.queue && after.queue[s].job.recording == r)
    && (forall s, t :: s in after.queue && t in after.queue && s !in before.queue && t !in before.queue ==>
          after.queue[s].job.recording == after.queue[t].job.recording ==> s == t)
  }

  ghost predicate Swept(before: Db, after: Db, ids: seq<Id>, busy: set<Id>) {
    OrphansClosed(before, after, ids, busy) && ClosesQueued(before, after, ids, busy)
  }

  function Orphans(before: Db, ids: seq<Id>, busy: set<Id>): set<Id> {
    set r | r in ids && r in before.recordings && IsOrphan(before.recordings[r], busy)
  }

  /** One more recording looked at: closed if it is an orphan, left alone if not. */
  function Looked(mid: Db, r: Id, orphan: bool, now: Time): Db {
    if orphan then S.FinishRecording(mid, r, true, now) else mid
  }

  lemma OneMoreClosed(before: Db, mid: Db, ids: seq<Id>, r: Id, busy: set<Id>, now: Time)
    requires OrphansClosed(before, mid, ids, busy) && r in before.recordings && r !in ids
    ensures OrphansClosed(before, Looked(mid, r, IsOrphan(before.recordings[r], busy), now), ids + [r], busy)
  {
  }

  lemma OneMoreQueued(before: Db, mid: Db, ids: seq<Id>, r: Id, busy: set<Id>, now: Time)
    requires ClosesQueued(before, mid, ids, busy) && r in before.recordings && r !in ids
    requires r in mid.recordings && mid.recordings[r] == before.recordings[r]
    requires forall s :: s in mid.queue ==> s < mid.nextSequence
    ensures ClosesQueued(before, Looked(mid, r, IsOrphan(before.recordings[r], busy), now), ids + [r], busy)
  {
    var after := Looked(mid, r, IsOrphan(before.recordings[r], busy), now);
    forall q | q in ids + [r] && q in before.recordings && IsOrphan(before.recordings[q], busy)
      ensures exists s :: s in after.queue && s !in before.queue && after.queue[s].job.recording == q
    {
      if q == r {
        assert mid.nextSequence in after.queue;
      } else {
        var s :| s in mid.queue && s !in before.queue && mid.queue[s].job.recording == q;
        assert s in after.queue && after.queue[s] == mid.queue[s];
      }
    }
  }

  lemma SweptOneMore(before: Db, mid: Db, ids: seq<Id>, r: Id, busy: set<Id>, now: Time)
    requires Swept(before, mid, ids, busy) && r in before.recordings && r !in ids
    requires forall s :: s in mid.queue ==> s < mid.nextSequence
    ensures
      var orphan := IsOrphan(before.recordings[r], busy);
      Swept(before, Looked(mid, r, orphan, now), ids + [r], busy)
      && Orphans(before, ids + [r], busy) == Orphans(before, ids, busy) + (if orphan then {r} else {})
  {
    hide Looked, ClosesQueued;
    OneMoreClosed(before, mid, ids, r, busy, now);
    OneMoreQueued(before, mid, ids, r, busy, now);
  }

  /** Closes, as interrupted, every recording that claims to run while its call's lock is free. */
  method InterruptOrphans(db: Database, listed: seq<Id>, busy: set<Id>, now: Time) returns (interrupted: nat)
    requires Unique(listed) && forall r :: r in listed <==> r in db.recordings
    requires forall s :: s in db.queue ==> s < db.nextSequence
    modifies db
    ensures Swept(old(db.View()), db.View(), listed, busy)
    ensures interrupted == |Orphans(old(db.View()), listed, busy)|
  {
    hide Swept;
    ghost var before := db.View();
    interrupted := 0;
    var i := 0;
    assert Swept(before, before, [], busy) by { SweptNone(before, busy); }
    while i < |listed|
      invariant 0 <= i <= |listed|
      invariant Swept(before, db.View(), listed[..i], busy)
      invariant forall s :: s in db.queue ==> s < db.nextSequence
      invariant interrupted == |Orphans(before, listed[..i], busy)|
    {
      var r := listed[i];
      assert r !in listed[..i] && listed[..i + 1] == listed[..i] + [r];
      SweptSoFar(before, db.View(), listed[..i], busy, r);
      SweptOneMore(before, db.View(), listed[..i], r, busy, now);
      if db.recordings[r].status == Recording {
        if db.recordings[r].callId !in busy {
          db.FinishRecording(r, true, now);
          interrupted := interrupted + 1;
        }
      }
      i := i + 1;
    }
    assert listed[..i] == listed;
  }

  lemma SweptNone(db: Db, busy: set<Id>)
    ensures Swept(db, db, [], busy)
  {
  }

  lemma SweptSoFar(before: Db, mid: Db, ids: seq<Id>, busy: set<Id>, r: Id)
    requires Swept(before, mid, ids, busy) && r in before.recordings && r !in ids
    ensures r in mid.recordings && mid.recordings[r] == before.recordings[r]
  {
  }
}
