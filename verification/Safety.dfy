/** What every step of the protocol keeps, and what follows for every run. */
module Safety {
  import opened Domain
  import opened Store
  import opened Delivery
  import opened Correspondence
  import opened Protocol

  // ----- the invariant -----

  ghost predicate HistorySound(w: World) {
    && (forall s :: s in w.db.queue ==> s in w.enqueued && w.enqueued[s] == w.db.queue[s].job)
    && (forall s :: s in w.enqueued ==> s < w.db.nextSequence)
  }

  /** A recorder and a sweep hold the lock of their call, so no call has both. */
  ghost predicate LocksSound(w: World) {
    && (forall p :: p in w.recorders ==>
          w.recorders[p].callId in w.locks && w.locks[w.recorders[p].callId] == HeldByRecorder(p))
    && (forall k :: k in w.sweeps ==>
          w.sweeps[k] in w.db.recordings
          && w.db.recordings[w.sweeps[k]].callId in w.locks
          && w.locks[w.db.recordings[w.sweeps[k]].callId] == HeldBySweep(k))
  }

  /** Until it has queued its close, a recorder's chunks are 0..nextSeq-1 of a running recording. */
  ghost predicate RecorderSound(w: World, p: nat)
    requires p in w.recorders
  {
    var rec := w.recorders[p];
    && (rec.recording.None? ==> rec.pending == [] && rec.nextSeq == 0 && !rec.finished)
    && (rec.finished ==> rec.pending == [] && rec.stopped)
    && (rec.recording.Some? ==>
          var r := rec.recording.value;
          && r in w.db.recordings && w.db.recordings[r].callId == rec.callId
          && (!rec.finished ==>
                w.db.recordings[r].status == Recording
                && forall i: nat :: (r, i) in w.stored <==> i < rec.nextSeq))
  }

  ghost predicate RecordersSound(w: World) {
    forall p :: p in w.recorders ==> RecorderSound(w, p)
  }

  /** `remoteId` is the server's copy of `r`, and `blob` is what `r` stored at `i`. */
  ghost predicate Origin(w: World, r: Id, remoteId: Id, i: nat, blob: Blob) {
    && r in w.db.recordings && w.db.recordings[r].remoteId == Some(remoteId)
    && (r, i) in w.stored && w.stored[(r, i)] == blob
  }

  ghost predicate Genuine(w: World, remoteId: Id, i: nat, blob: Blob) {
    exists r :: Origin(w, r, remoteId, i, blob)
  }

  ghost predicate LocalAudioSound(w: World) {
    && (forall k :: k in w.db.chunks ==>
          k in w.stored && w.db.chunks[k].blob == w.stored[k] && w.db.chunks[k].bytes == |w.stored[k]|)
    && (forall k :: k in w.stored ==> k.0 in w.db.recordings)
    && (forall k :: k in w.stored && w.db.recordings[k.0].status != Complete ==> k in w.db.chunks)
    && (forall k, j: nat :: k in w.stored && j < k.1 ==> (k.0, j) in w.stored)
  }

  ghost predicate RemoteAudioSound(w: World) {
    && (forall k :: k in w.segments ==> Genuine(w, k.0, k.1, w.segments[k]))
    && (forall q :: q in w.sent && q.PutSegment? ==> Genuine(w, q.remoteId, q.seqNo, q.blob))
    && (forall c, d :: c in w.minted && d in w.minted && w.minted[c] == w.minted[d] ==> c == d)
    && (forall r :: r in w.db.recordings && w.db.recordings[r].remoteId.Some? ==>
          w.db.recordings[r].callId in w.minted
          && w.minted[w.db.recordings[r].callId] == w.db.recordings[r].remoteId.value)
  }

  /** Everything the recording ever stored is on the server. */
  ghost predicate FullyUploaded(w: World, r: Id)
    requires r in w.db.recordings && w.db.recordings[r].remoteId.Some?
  {
    forall k :: k in w.stored && k.0 == r ==> (w.db.recordings[r].remoteId.value, k.1) in w.segments
  }

  ghost predicate CompleteSound(w: World) {
    forall r :: r in w.db.recordings && w.db.recordings[r].status == Complete ==>
      w.db.recordings[r].remoteId.Some? && FullyUploaded(w, r)
  }

  /** A request in flight still fits the row it was made for. */
  ghost predicate Fits(w: World, s: int, job: Job, request: Request) {
    match job
    case Event(id, kind, payload) =>
      request.PostEvent? && request.sequence == s && Event(request.id, request.kind, request.payload) == job
    case CreateRecording(r) =>
      r in w.db.recordings && request == PostRecording(w.db.recordings[r].callId)
    case Segment(_, _) => request.PutSegment?
    case Close(r, _) =>
      && request.PostClose?
      && r in w.db.recordings
      && w.db.recordings[r].remoteId == Some(request.remoteId)
      && w.db.recordings[r].status == Closing
      && NoSegment(w.db.queue, r)
  }

  ghost predicate PhaseSound(w: World) {
    w.worker.Passing? ==>
      && w.worker.next <= |w.worker.rows|
      && (!w.worker.phase.Scanning? ==>
            && w.worker.next < |w.worker.rows|
            && var s, row := w.worker.rows[w.worker.next].0, w.worker.phase.row;
               && row.job == w.worker.rows[w.worker.next].1.job
               && w.worker.rows[w.worker.next].1.Live()
               && LaneOf(row.job) !in w.worker.held
               && (if w.worker.phase.Settling? && w.worker.phase.outcome.Done? then s !in w.db.queue
                   else s in w.db.queue && w.db.queue[s] == row && row.Live())
               && (w.worker.phase.Awaiting? ==>
                     w.worker.phase.request in w.sent && Fits(w, s, row.job, w.worker.phase.request))
               && (w.worker.phase.Settling? && w.worker.phase.outcome.Waiting? ==> !row.job.Event?))
  }

  /** The snapshot of a pass against the queue as it is now. */
  ghost predicate RowSound(w: World, i: nat)
    requires w.worker.Passing? && i < |w.worker.rows|
  {
    var (s, row) := w.worker.rows[i];
    && s < w.db.nextSequence
    && (s in w.db.queue ==>
          && w.db.queue[s].job == row.job
          && (i >= w.worker.next && row.Live() ==> w.db.queue[s].Live())
          && (!row.Live() && !w.requeued ==> !w.db.queue[s].Live()))
  }

  ghost predicate IsListed(rows: Listing, s: int) {
    exists i :: 0 <= i < |rows| && rows[i].0 == s
  }

  ghost predicate Later(rows: Listing, s: int) {
    forall i :: 0 <= i < |rows| ==> rows[i].0 < s
  }

  ghost predicate SnapshotSound(w: World) {
    w.worker.Passing? ==>
      && (forall i, j :: 0 <= i < j < |w.worker.rows| ==> w.worker.rows[i].0 < w.worker.rows[j].0)
      && (forall i: nat :: i < |w.worker.rows| ==> RowSound(w, i))
      && (forall s :: s in w.db.queue ==>
            IsListed(w.worker.rows, s) || Later(w.worker.rows, s))
  }

  ghost predicate LiveEvent(w: World, s: int) {
    s in w.db.queue && w.db.queue[s].job.Event? && w.db.queue[s].Live()
  }

  /** No event that was ever sent has a number after `s`. */
  ghost predicate NoneAfter(sent: set<Request>, s: int) {
    forall q :: q in sent && q.PostEvent? ==> q.sequence <= s
  }

  ghost predicate OrderSound(w: World) {
    && (forall i :: 0 <= i < |w.accepted| ==> w.accepted[i].PostEvent? && w.accepted[i] in w.sent)
    && (!w.requeued ==>
          && (forall s :: LiveEvent(w, s) ==> NoneAfter(w.sent, s))
          && (w.worker.Passing? && EventLane !in w.worker.held ==>
                forall i :: 0 <= i < |w.worker.rows| && i < w.worker.next ==> !LiveEvent(w, w.worker.rows[i].0)))
  }

  /** An event goes out under its number, as it was queued. */
  ghost predicate SentSound(w: World) {
    forall q :: q in w.sent && q.PostEvent? ==>
      q.sequence in w.enqueued && w.enqueued[q.sequence] == Event(q.id, q.kind, q.payload)
  }

  /** Every event ever queued is still queued or accepted; only a heartbeat may be neither. */
  ghost predicate EventsConserved(w: World) {
    forall s :: s in w.enqueued && w.enqueued[s].Event? ==>
      s in w.db.queue || IsAccepted(w, w.enqueued[s].id) || IsHeartbeat(w.enqueued[s])
  }

  ghost predicate AudioInv(w: World) {
    LocksSound(w) && RecordersSound(w) && LocalAudioSound(w) && RemoteAudioSound(w) && CompleteSound(w)
  }

  ghost predicate PassInv(w: World) {
    HistorySound(w) && PhaseSound(w) && SnapshotSound(w) && OrderSound(w) && EventsConserved(w) && SentSound(w)
  }

  ghost predicate Inv(w: World) {
    Matches(w.db) && AudioInv(w) && PassInv(w)
  }

  // ----- steps that change only the queue, or only the rest -----

  /** Everything that speaks of audio, locks and recorders is as before. */
  ghost predicate SameAudio(w: World, v: World) {
    && v.db.recordings == w.db.recordings && v.db.chunks == w.db.chunks
    && v.locks == w.locks && v.recorders == w.recorders && v.sweeps == w.sweeps
    && v.minted == w.minted && v.segments == w.segments && v.stored == w.stored
  }

  /** Remote ids and stored chunks are never taken back. */
  ghost predicate Accumulates(w: World, v: World) {
    && (forall r :: r in w.db.recordings && w.db.recordings[r].remoteId.Some? ==>
          r in v.db.recordings && v.db.recordings[r].remoteId == w.db.recordings[r].remoteId)
    && (forall k :: k in w.stored ==> k in v.stored && v.stored[k] == w.stored[k])
  }

  lemma GenuineStays(w: World, v: World)
    requires Accumulates(w, v)
    ensures forall remoteId, i: nat, blob :: Genuine(w, remoteId, i, blob) ==> Genuine(v, remoteId, i, blob)
  {
    forall remoteId, i: nat, blob | Genuine(w, remoteId, i, blob) ensures Genuine(v, remoteId, i, blob) {
      var r :| Origin(w, r, remoteId, i, blob);
      assert Origin(v, r, remoteId, i, blob);
    }
  }

  /** What was uploaded in full stays so while complete recordings store nothing and the server forgets nothing. */
  lemma CompletesStay(w: World, v: World)
    requires CompleteSound(w)
    requires forall r :: r in v.db.recordings && v.db.recordings[r].status == Complete ==>
      && r in w.db.recordings && w.db.recordings[r].status == Complete
      && v.db.recordings[r].remoteId == w.db.recordings[r].remoteId
    requires forall k :: k in v.stored && k !in w.stored ==>
      k.0 in v.db.recordings && v.db.recordings[k.0].status != Complete
    requires forall k :: k in w.segments ==> k in v.segments
    ensures CompleteSound(v)
  {
    forall r | r in v.db.recordings && v.db.recordings[r].status == Complete
      ensures v.db.recordings[r].remoteId.Some? && FullyUploaded(v, r)
    {
      assert FullyUploaded(w, r);
    }
  }

  lemma SameAudioKeeps(w: World, v: World)
    requires AudioInv(w) && SameAudio(w, v)
    requires forall q :: q in v.sent && q !in w.sent && q.PutSegment? ==> Genuine(w, q.remoteId, q.seqNo, q.blob)
    ensures AudioInv(v)
  {
    forall p | p in v.recorders ensures RecorderSound(v, p) { assert RecorderSound(w, p); }
    GenuineStays(w, v);
    CompletesStay(w, v);
  }

  /** The pass is where it was, whatever phase it is in. */
  ghost predicate SamePass(w: World, v: World) {
    && v.worker.Passing? == w.worker.Passing?
    && (w.worker.Passing? ==>
          v.worker.rows == w.worker.rows && v.worker.next == w.worker.next && v.worker.held == w.worker.held)
    && v.sent == w.sent && v.accepted == w.accepted && v.requeued == w.requeued
  }

  /** Rows were added under new numbers and none was touched. */
  ghost predicate Grown(w: World, v: World) {
    && w.db.nextSequence <= v.db.nextSequence
    && (forall s :: s in w.db.queue ==> s in v.db.queue && v.db.queue[s] == w.db.queue[s])
    && (forall s :: s in v.db.queue && s !in w.db.queue ==> w.db.nextSequence <= s < v.db.nextSequence)
    && (v.enqueued == w.enqueued + Jobs(v.db.queue) || (v.enqueued == w.enqueued && v.db.queue == w.db.queue))
  }

  lemma GrownSnapshot(w: World, v: World)
    requires SnapshotSound(w) && SamePass(w, v) && Grown(w, v)
    ensures SnapshotSound(v)
  {
    if w.worker.Passing? {
      forall i: nat | i < |v.worker.rows| ensures RowSound(v, i) { assert RowSound(w, i); }
      forall s | s in v.db.queue ensures IsListed(v.worker.rows, s) || Later(v.worker.rows, s) {
        if s !in w.db.queue {
          forall i | 0 <= i < |v.worker.rows| ensures v.worker.rows[i].0 < s { assert RowSound(w, i); }
        }
      }
    }
  }

  lemma GrownOrder(w: World, v: World)
    requires HistorySound(w) && SentSound(w) && SnapshotSound(w) && OrderSound(w) && SamePass(w, v) && Grown(w, v)
    ensures OrderSound(v)
  {
    if !v.requeued {
      forall s | LiveEvent(v, s) ensures NoneAfter(v.sent, s) {
        if s in w.db.queue { assert LiveEvent(w, s); }
      }
      if v.worker.Passing? && EventLane !in v.worker.held {
        forall i | 0 <= i < |v.worker.rows| && i < v.worker.next ensures !LiveEvent(v, v.worker.rows[i].0) {
          assert RowSound(w, i) && !LiveEvent(w, w.worker.rows[i].0);
        }
      }
    }
  }

  lemma GrownEvents(w: World, v: World)
    requires HistorySound(w) && EventsConserved(w) && SamePass(w, v) && Grown(w, v)
    ensures HistorySound(v) && EventsConserved(v) && (SentSound(w) ==> SentSound(v))
  {
    forall s | s in v.enqueued && v.enqueued[s].Event?
      ensures s in v.db.queue || IsAccepted(v, v.enqueued[s].id) || IsHeartbeat(v.enqueued[s])
    {
      if s !in v.db.queue && IsAccepted(w, w.enqueued[s].id) {
        assert IsAccepted(v, v.enqueued[s].id);
      }
    }
  }

  /** The row in hand and the request in flight are not disturbed by what others do. */
  lemma PhaseUndisturbed(w: World, v: World)
    requires PhaseSound(w) && SnapshotSound(w)
    requires v.worker == w.worker && w.sent <= v.sent
    requires forall s :: s in w.db.queue && w.db.queue[s].Live() ==> s in v.db.queue && v.db.queue[s] == w.db.queue[s]
    requires forall s :: s in v.db.queue && s !in w.db.queue ==> w.db.nextSequence <= s
    requires forall r :: r in w.db.recordings ==>
      r in v.db.recordings && v.db.recordings[r].callId == w.db.recordings[r].callId
    requires forall r :: r in w.db.recordings && w.db.recordings[r].status == Closing ==>
      v.db.recordings[r] == w.db.recordings[r] && (NoSegment(w.db.queue, r) ==> NoSegment(v.db.queue, r))
    ensures PhaseSound(v)
  {
    if w.worker.Passing? && !w.worker.phase.Scanning? {
      assert RowSound(w, w.worker.next);
    }
  }

  lemma GrownPass(w: World, v: World)
    requires PassInv(w) && SamePass(w, v) && Grown(w, v) && PhaseSound(v)
    ensures PassInv(v)
  {
    GrownSnapshot(w, v);
    GrownOrder(w, v);
    GrownEvents(w, v);
  }

  /** A transaction of someone else adds rows while the pass is wherever it is. */
  lemma PassUndisturbed(w: World, v: World)
    requires PassInv(w) && v.worker == w.worker && w.sent == v.sent
    requires v.accepted == w.accepted && v.requeued == w.requeued && Grown(w, v)
    requires forall r :: r in w.db.recordings ==>
      r in v.db.recordings && v.db.recordings[r].callId == w.db.recordings[r].callId
    requires forall r :: r in w.db.recordings && w.db.recordings[r].status == Closing ==>
      v.db.recordings[r] == w.db.recordings[r] && (NoSegment(w.db.queue, r) ==> NoSegment(v.db.queue, r))
    ensures PassInv(v)
  {
    PhaseUndisturbed(w, v);
    GrownPass(w, v);
  }

  // ----- the steps of the background worker's other handlers -----

  lemma QueueEventKeeps(w: World, id: Id, kind: string, payload: string, now: Time)
    requires Inv(w)
    ensures Inv(QueueEventStep(w, id, kind, payload, now))
  {
    var v := QueueEventStep(w, id, kind, payload, now);
    EnqueueKeeps(w.db, v.db, Event(id, kind, payload));
    SameAudioKeeps(w, v);
    PassUndisturbed(w, v);
  }

  lemma PutCallKeeps(w: World, callId: Id, call: CallRow)
    requires Inv(w)
    ensures Inv(PutCallStep(w, callId, call))
  {
    var v := PutCallStep(w, callId, call);
    SameJobsKeep(w.db, v.db);
    SameAudioKeeps(w, v);
    PassUndisturbed(w, v);
  }

  lemma RetryDeadPass(w: World, now: Time)
    requires PassInv(w)
    ensures PassInv(RetryDeadStep(w, now))
  {
    var v := RetryDeadStep(w, now);
    PhaseUndisturbed(w, v);
    if v.worker.Passing? {
      forall i: nat | i < |v.worker.rows| ensures RowSound(v, i) { assert RowSound(w, i); }
    }
    forall s | s in v.enqueued && v.enqueued[s].Event?
      ensures s in v.db.queue || IsAccepted(v, v.enqueued[s].id) || IsHeartbeat(v.enqueued[s])
    {
      if IsAccepted(w, w.enqueued[s].id) { assert IsAccepted(v, v.enqueued[s].id); }
    }
  }

  lemma RetryDeadKeeps(w: World, now: Time)
    requires Inv(w)
    ensures Inv(RetryDeadStep(w, now))
  {
    RequeueDeadKeeps(w.db, now);
    SameAudioKeeps(w, RetryDeadStep(w, now));
    RetryDeadPass(w, now);
  }

  // ----- the recorder's steps -----

  /** Locks, recorders and sweeps are nobody else's business. */
  lemma SameRestKeeps(w: World, v: World)
    requires Inv(w) && v == w.(locks := v.locks, recorders := v.recorders, sweeps := v.sweeps)
    requires LocksSound(v) && RecordersSound(v)
    ensures Inv(v)
  {
    GenuineStays(w, v);
    CompletesStay(w, v);
    GrownPass(w, v);
  }

  lemma TakeLockSound(w: World, p: nat, callId: Id)
    requires LocksSound(w) && RecordersSound(w)
    ensures LocksSound(TakeLockStep(w, p, callId)) && RecordersSound(TakeLockStep(w, p, callId))
  {
    hide LocksSound, RecorderSound;
    var v := TakeLockStep(w, p, callId);
    TakeLockLocks(w, p, callId);
    forall q | q in v.recorders ensures RecorderSound(v, q) { TakeLockRecorder(w, p, callId, q); }
  }

  lemma TakeLockLocks(w: World, p: nat, callId: Id)
    requires LocksSound(w)
    ensures LocksSound(TakeLockStep(w, p, callId))
  {
  }

  lemma TakeLockRecorder(w: World, p: nat, callId: Id, q: nat)
    requires RecordersSound(w) && q in TakeLockStep(w, p, callId).recorders
    ensures RecorderSound(TakeLockStep(w, p, callId), q)
  {
    if q in w.recorders { assert RecorderSound(w, q); }
  }

  /** Events that only touch the recorder's own variables. */
  lemma OwnVariablesKeep(w: World, p: nat, recorder: Recorder)
    requires Inv(w) && p in w.recorders
    requires recorder.callId == w.recorders[p].callId && recorder.recording == w.recorders[p].recording
    requires recorder.nextSeq == w.recorders[p].nextSeq && recorder.finished == w.recorders[p].finished
    requires recorder.finished ==> recorder.pending == [] && recorder.stopped
    requires recorder.recording.None? ==> recorder.pending == []
    ensures Inv(SetRecorder(w, p, recorder))
  {
    var v := SetRecorder(w, p, recorder);
    forall q | q in v.recorders ensures RecorderSound(v, q) { assert RecorderSound(w, q); }
    SameRestKeeps(w, v);
  }

  lemma RecorderGoneSound(w: World, p: nat)
    requires LocksSound(w) && RecordersSound(w)
    ensures LocksSound(RecorderGone(w, p)) && RecordersSound(RecorderGone(w, p))
  {
    var v := RecorderGone(w, p);
    forall q | q in v.recorders ensures RecorderSound(v, q) { assert RecorderSound(w, q); }
  }

  lemma BeginLocks(w: World, p: nat, id: Id, now: Time)
    requires LocksSound(w) && RecordersSound(w) && LocalAudioSound(w)
    requires p in w.recorders && w.recorders[p].recording.None? && id !in w.db.recordings
    requires !RecordingBlocked(w.db, w.recorders[p].callId)
    ensures LocksSound(BeginStep(w, p, id, now)) && RecordersSound(BeginStep(w, p, id, now))
  {
    var v := BeginStep(w, p, id, now);
    forall q | q in v.recorders ensures RecorderSound(v, q) { assert RecorderSound(w, q); }
  }

  lemma BeginLocalAudio(w: World, v: World, callId: Id, id: Id, now: Time)
    requires LocalAudioSound(w) && id !in w.db.recordings && !RecordingBlocked(w.db, callId)
    requires v.db == BeginRecording(w.db, callId, id, now).value && v.stored == w.stored
    ensures LocalAudioSound(v)
  {
    hide RecordingBlocked;
  }

  lemma BeginRemoteAudio(w: World, v: World, callId: Id, id: Id, now: Time)
    requires RemoteAudioSound(w) && CompleteSound(w) && id !in w.db.recordings && !RecordingBlocked(w.db, callId)
    requires v.db == BeginRecording(w.db, callId, id, now).value
    requires v.stored == w.stored && v.segments == w.segments && v.minted == w.minted && v.sent == w.sent
    ensures RemoteAudioSound(v) && CompleteSound(v)
  {
    hide RecordingBlocked, Genuine;
    GenuineStays(w, v);
    CompletesStay(w, v);
  }

  lemma BeginPass(w: World, callId: Id, id: Id, now: Time)
    requires PassInv(w) && id !in w.db.recordings && !RecordingBlocked(w.db, callId)
    ensures PassInv(Commit(w, BeginRecording(w.db, callId, id, now).value))
  {
    hide RecordingBlocked;
    PassUndisturbed(w, Commit(w, BeginRecording(w.db, callId, id, now).value));
  }

  // ----- storing a chunk -----

  ghost predicate CanStore(w: World, p: nat) {
    Begun(w, p) && w.recorders[p].pending != [] && !w.recorders[p].writeFailed
  }

  /** A recorder stores into a recording that still runs, at a number never used before. */
  lemma StoresFresh(w: World, p: nat)
    requires RecordersSound(w) && CanStore(w, p)
    ensures
      var rec := w.recorders[p];
      var r := rec.recording.value;
      && r in w.db.recordings && w.db.recordings[r].status == Recording
      && (forall i: nat :: (r, i) in w.stored <==> i < rec.nextSeq)
  {
    assert RecorderSound(w, p);
  }

  lemma StoreLocks(w: World, p: nat, now: Time)
    requires LocksSound(w) && RecordersSound(w) && CanStore(w, p)
    ensures LocksSound(StoreNextStep(w, p, true, now)) && RecordersSound(StoreNextStep(w, p, true, now))
  {
    var v := StoreNextStep(w, p, true, now);
    StoresFresh(w, p);
    forall q | q in v.recorders ensures RecorderSound(v, q) {
      assert RecorderSound(w, q) && RecorderSound(w, p);
    }
  }

  lemma StoreLocalAudio(w: World, p: nat, now: Time)
    requires LocalAudioSound(w) && RecordersSound(w) && CanStore(w, p)
    ensures LocalAudioSound(StoreNextStep(w, p, true, now))
  {
    StoresFresh(w, p);
  }

  lemma StoreRemoteAudio(w: World, p: nat, now: Time)
    requires RemoteAudioSound(w) && CompleteSound(w) && RecordersSound(w) && CanStore(w, p)
    ensures RemoteAudioSound(StoreNextStep(w, p, true, now)) && CompleteSound(StoreNextStep(w, p, true, now))
  {
    var v := StoreNextStep(w, p, true, now);
    StoresFresh(w, p);
    GenuineStays(w, v);
    CompletesStay(w, v);
  }

  lemma StorePass(w: World, p: nat, now: Time)
    requires PassInv(w) && RecordersSound(w) && CanStore(w, p)
    ensures PassInv(StoreNextStep(w, p, true, now))
  {
    var v := StoreNextStep(w, p, true, now);
    StoresFresh(w, p);
    PassUndisturbed(w, v);
  }

  // ----- closing a recording -----

  lemma FinishLocalAudio(w: World, v: World, r: Id, interrupted: bool, now: Time)
    requires LocalAudioSound(w)
    requires v.db == FinishRecording(w.db, r, interrupted, now) && v.stored == w.stored
    ensures LocalAudioSound(v)
  {
  }

  lemma FinishRemoteAudio(w: World, v: World, r: Id, interrupted: bool, now: Time)
    requires RemoteAudioSound(w) && CompleteSound(w)
    requires v.db == FinishRecording(w.db, r, interrupted, now)
    requires v.stored == w.stored && v.segments == w.segments && v.minted == w.minted && v.sent == w.sent
    ensures RemoteAudioSound(v) && CompleteSound(v)
  {
    GenuineStays(w, v);
    CompletesStay(w, v);
  }

  lemma FinishPass(w: World, r: Id, interrupted: bool, now: Time)
    requires PassInv(w)
    ensures PassInv(Commit(w, FinishRecording(w.db, r, interrupted, now)))
  {
    PassUndisturbed(w, Commit(w, FinishRecording(w.db, r, interrupted, now)));
  }

  lemma FinishLocks(w: World, p: nat, ok: bool, now: Time)
    requires LocksSound(w) && RecordersSound(w)
    ensures LocksSound(FinishStep(w, p, ok, now)) && RecordersSound(FinishStep(w, p, ok, now))
  {
    var v := FinishStep(w, p, ok, now);
    if p in w.recorders {
      assert RecorderSound(w, p);
      forall q | q in v.recorders ensures RecorderSound(v, q) {
        assert RecorderSound(w, q);
      }
    }
  }

  /** The sweep holds the call's lock, so no recorder of that call is alive. */
  lemma SweepFindsNobody(w: World, k: nat, p: nat)
    requires LocksSound(w) && RecordersSound(w)
    requires k in w.sweeps && p in w.recorders
    ensures w.recorders[p].recording != Some(w.sweeps[k])
  {
    assert RecorderSound(w, p);
  }

  lemma SweepFinishLocks(w: World, k: nat, now: Time)
    requires LocksSound(w) && RecordersSound(w)
    ensures LocksSound(SweepFinishStep(w, k, now)) && RecordersSound(SweepFinishStep(w, k, now))
  {
    var v := SweepFinishStep(w, k, now);
    if k in w.sweeps {
      forall q | q in v.recorders ensures RecorderSound(v, q) {
        assert RecorderSound(w, q);
        SweepFindsNobody(w, k, q);
      }
    }
  }

  lemma SweepTakeLocks(w: World, k: nat, r: Id)
    requires LocksSound(w) && RecordersSound(w)
    ensures LocksSound(SweepTakeStep(w, k, r)) && RecordersSound(SweepTakeStep(w, k, r))
  {
    var v := SweepTakeStep(w, k, r);
    forall q | q in v.recorders ensures RecorderSound(v, q) { assert RecorderSound(w, q); }
  }

  // ----- the pass: starting and scanning -----

  lemma StartPassKeeps(w: World, force: bool)
    requires Inv(w)
    ensures PassInv(StartPassStep(w, force))
  {
    var v := StartPassStep(w, force);
    if w.worker.Idle? {
      var ks := SortedKeys(w.db.queue.Keys);
      forall i: nat | i < |v.worker.rows| ensures RowSound(v, i) { assert v.worker.rows[i].0 in w.db.queue; }
      forall s | s in v.db.queue ensures IsListed(v.worker.rows, s) {
        assert s in ks;
        var i :| 0 <= i < |ks| && ks[i] == s;
        assert v.worker.rows[i].0 == s;
      }
    }
  }

  /** The row at hand is done with, one way or another. */
  lemma AdvanceOrder(w: World, hold: bool, lane: Lane)
    requires w.worker.Passing? && w.worker.next < |w.worker.rows|
    requires OrderSound(w)
    requires w.requeued || !LiveEvent(w, w.worker.rows[w.worker.next].0) || EventLane in w.worker.held
             || (hold && lane == EventLane)
    ensures OrderSound(Advance(w, hold, lane))
  {
    var v := Advance(w, hold, lane);
    forall s | LiveEvent(v, s) && !v.requeued ensures NoneAfter(v.sent, s) { assert LiveEvent(w, s); }
    if !v.requeued && EventLane !in v.worker.held {
      forall i | 0 <= i < |v.worker.rows| && i < v.worker.next ensures !LiveEvent(v, v.worker.rows[i].0) {
        if i < w.worker.next { assert !LiveEvent(w, w.worker.rows[i].0); }
      }
    }
  }

  lemma AdvanceSnapshot(w: World, hold: bool, lane: Lane)
    requires w.worker.Passing? && w.worker.next < |w.worker.rows|
    requires SnapshotSound(w)
    ensures SnapshotSound(Advance(w, hold, lane)) && PhaseSound(Advance(w, hold, lane))
  {
    var v := Advance(w, hold, lane);
    forall i: nat | i < |v.worker.rows| ensures RowSound(v, i) { assert RowSound(w, i); }
  }

  lemma AdvanceEvents(w: World, hold: bool, lane: Lane)
    requires w.worker.Passing? && HistorySound(w) && EventsConserved(w) && SentSound(w)
    ensures
      var v := Advance(w, hold, lane);
      HistorySound(v) && EventsConserved(v) && SentSound(v)
  {
    var v := Advance(w, hold, lane);
    forall s | s in v.enqueued && v.enqueued[s].Event?
      ensures s in v.db.queue || IsAccepted(v, v.enqueued[s].id) || IsHeartbeat(v.enqueued[s])
    {
      if IsAccepted(w, w.enqueued[s].id) { assert IsAccepted(v, v.enqueued[s].id); }
    }
  }

  lemma AdvanceKeeps(w: World, hold: bool, lane: Lane)
    requires w.worker.Passing? && w.worker.next < |w.worker.rows|
    requires PassInv(w)
    requires w.requeued || !LiveEvent(w, w.worker.rows[w.worker.next].0) || EventLane in w.worker.held
             || (hold && lane == EventLane)
    ensures PassInv(Advance(w, hold, lane))
  {
    AdvanceOrder(w, hold, lane);
    AdvanceSnapshot(w, hold, lane);
    AdvanceEvents(w, hold, lane);
  }

  lemma EnterKeeps(w: World, phase: Phase)
    requires PassInv(w) && w.worker.Passing? && PhaseSound(Enter(w, phase))
    ensures PassInv(Enter(w, phase))
  {
    GrownPass(w, Enter(w, phase));
  }

  /** A row the scan may pass by: parked, gone, or in a lane that is held now. */
  lemma PassedBy(w: World, hold: bool)
    requires PassInv(w) && w.worker.Passing? && w.worker.phase.Scanning? && w.worker.next < |w.worker.rows|
    requires
      var (s, queued) := w.worker.rows[w.worker.next];
      !queued.Live() || LaneOf(queued.job) in w.worker.held || hold || s !in w.db.queue
    ensures PassInv(Advance(w, hold, LaneOf(w.worker.rows[w.worker.next].1.job)))
  {
    assert RowSound(w, w.worker.next);
    AdvanceKeeps(w, hold, LaneOf(w.worker.rows[w.worker.next].1.job));
  }

  lemma PickedUp(w: World)
    requires PassInv(w) && w.worker.Passing? && w.worker.phase.Scanning? && w.worker.next < |w.worker.rows|
    requires
      var (s, queued) := w.worker.rows[w.worker.next];
      queued.Live() && LaneOf(queued.job) !in w.worker.held && s in w.db.queue
    ensures PassInv(Enter(w, Attempting(w.db.queue[w.worker.rows[w.worker.next].0])))
  {
    assert RowSound(w, w.worker.next);
    EnterKeeps(w, Attempting(w.db.queue[w.worker.rows[w.worker.next].0]));
  }

  lemma ScanKeeps(w: World, now: Time)
    requires PassInv(w)
    ensures PassInv(ScanStep(w, now))
  {
    hide PassInv, Advanced, Entered;
    if w.worker.Passing? && w.worker.phase.Scanning? {
      if w.worker.next >= |w.worker.rows| {
        IdleKeeps(w);
      } else {
        var (s, queued) := w.worker.rows[w.worker.next];
        match Choose(w.db.queue, w.worker.held, w.worker.force, s, queued, now)
        case Skip => PassedBy(w, false);
        case HoldLane => PassedBy(w, true);
        case Pick => PickedUp(w);
      }
    }
  }

  /** The pass ends, or the worker dies in the middle of it. */
  lemma IdleKeeps(w: World)
    requires PassInv(w)
    ensures PassInv(w.(worker := Idle))
  {
    var v := w.(worker := Idle);
    forall s | LiveEvent(v, s) && !v.requeued ensures NoneAfter(v.sent, s) { assert LiveEvent(w, s); }
    forall s | s in v.enqueued && v.enqueued[s].Event?
      ensures s in v.db.queue || IsAccepted(v, v.enqueued[s].id) || IsHeartbeat(v.enqueued[s])
    {
      if IsAccepted(w, w.enqueued[s].id) { assert IsAccepted(v, v.enqueued[s].id); }
    }
  }

  // ----- the pass: delivering -----

  ghost predicate AtAttempt(w: World) { InPhase(w.worker) && w.worker.phase.Attempting? }

  lemma PlanFits(db: Db, s: int, row: QueueRow, w: World)
    requires Matches(db) && w.db == db && s in db.queue && db.queue[s] == row
    requires PlanOf(db, s, row).Send?
    ensures Fits(w, s, row.job, PlanOf(db, s, row).request)
  {
    hide TotalsOf;
    match row.job
    case Close(r, _) => assert RowMatches(db, r);
    case _ =>
  }

  lemma PlanSendsStored(w: World, s: int, row: QueueRow)
    requires LocalAudioSound(w) && PlanOf(w.db, s, row).Send?
    ensures
      var request := PlanOf(w.db, s, row).request;
      request.PutSegment? ==> Genuine(w, request.remoteId, request.seqNo, request.blob)
  {
    hide TotalsOf;
    var request := PlanOf(w.db, s, row).request;
    if request.PutSegment? {
      assert Origin(w, row.job.recording, request.remoteId, request.seqNo, request.blob);
    }
  }

  /** When an event is sent, no live event with a smaller number is left. */
  lemma SentInOrder(w: World, s: int)
    requires PhaseSound(w) && SnapshotSound(w) && OrderSound(w) && !w.requeued
    requires AtAttempt(w) && w.worker.phase.row.job.Event? && LiveEvent(w, s)
    ensures w.worker.rows[w.worker.next].0 <= s
  {
    var rows, next := w.worker.rows, w.worker.next;
    if IsListed(rows, s) {
      var i :| 0 <= i < |rows| && rows[i].0 == s;
      assert i >= next;
    }
  }

  lemma SendOrder(w: World, request: Request)
    requires PassInv(w) && AtAttempt(w)
    requires Fits(w, w.worker.rows[w.worker.next].0, w.worker.phase.row.job, request)
    ensures
      var v := Transmit(w, w.worker.phase.row, request);
      HistorySound(v) && SnapshotSound(v) && OrderSound(v) && EventsConserved(v) && SentSound(v)
  {
    var v := Transmit(w, w.worker.phase.row, request);
    forall i: nat | i < |v.worker.rows| ensures RowSound(v, i) { assert RowSound(w, i); }
    if !v.requeued {
      forall s | LiveEvent(v, s) ensures NoneAfter(v.sent, s) {
        assert LiveEvent(w, s);
        if request.PostEvent? { SentInOrder(w, s); }
      }
      if v.worker.Passing? && EventLane !in v.worker.held {
        forall i | 0 <= i < |v.worker.rows| && i < v.worker.next ensures !LiveEvent(v, v.worker.rows[i].0) {
          assert !LiveEvent(w, w.worker.rows[i].0);
        }
      }
    }
    forall s | s in v.enqueued && v.enqueued[s].Event?
      ensures s in v.db.queue || IsAccepted(v, v.enqueued[s].id) || IsHeartbeat(v.enqueued[s])
    {
      if IsAccepted(w, w.enqueued[s].id) { assert IsAccepted(v, v.enqueued[s].id); }
    }
  }

  lemma SendKeeps(w: World, request: Request)
    requires PassInv(w) && AudioInv(w) && AtAttempt(w)
    requires Fits(w, w.worker.rows[w.worker.next].0, w.worker.phase.row.job, request)
    requires request.PutSegment? ==> Genuine(w, request.remoteId, request.seqNo, request.blob)
    ensures
      var v := Transmit(w, w.worker.phase.row, request);
      PassInv(v) && AudioInv(v)
  {
    hide Genuine, RecordersSound, LocksSound, Fits;
    var v := Transmit(w, w.worker.phase.row, request);
    assert Fits(v, w.worker.rows[w.worker.next].0, w.worker.phase.row.job, request) by {
      FitsFrame(w, v, w.worker.rows[w.worker.next].0, w.worker.phase.row.job, request);
    }
    SendOrder(w, request);
    SameAudioKeeps(w, v);
  }

  lemma FitsFrame(w: World, v: World, s: int, job: Job, request: Request)
    requires Fits(w, s, job, request) && v.db == w.db
    ensures Fits(v, s, job, request)
  {
  }

  lemma WaitKeeps(w: World)
    requires Inv(w) && AtAttempt(w)
    requires PlanOf(w.db, w.worker.rows[w.worker.next].0, w.worker.phase.row).Wait?
    ensures Inv(DeliverStep(w))
  {
    EnterKeeps(w, Settling(w.worker.phase.row, Waiting));
    SameAudioKeeps(w, DeliverStep(w));
  }

  lemma DeliverKeeps(w: World)
    requires Inv(w)
    ensures Inv(DeliverStep(w))
  {
    hide Fits, Genuine, PlanOf;
    if AtAttempt(w) {
      var s, row := w.worker.rows[w.worker.next].0, w.worker.phase.row;
      NothingToDrop(w.db, s, row);
      if PlanOf(w.db, s, row).Wait? {
        WaitKeeps(w);
      } else {
        PlanFits(w.db, s, row, w);
        PlanSendsStored(w, s, row);
        SendKeeps(w, PlanOf(w.db, s, row).request);
      }
    }
  }

  // ----- the pass: the answer -----

  ghost predicate AtAnswer(w: World, reply: Reply) { Answerable(w, reply) && !reply.Unauthorized? }

  lemma AnswerMatches(w: World, reply: Reply, rotated: bool, t: Ticks)
    requires Matches(w.db) && PhaseSound(w) && AtAnswer(w, reply)
    ensures Matches(AnswerStep(w, reply, rotated, t).db)
  {
    hide Receive, Truthful;
    ReceiveKeeps(w.db, w.worker.rows[w.worker.next].0, w.worker.phase.row, w.worker.phase.request, reply, t);
  }

  /** What the server confirmed is everything the recording ever stored. */
  lemma ConfirmedMeansUploaded(w: World, r: Id, remoteId: Id, totals: Totals)
    requires LocalAudioSound(w)
    requires r in w.db.recordings && w.db.recordings[r].status != Complete
    requires w.db.recordings[r].remoteId == Some(remoteId)
    requires Holds(w.segments, remoteId, totals) && TotalsOf(w.db.chunks, r) == totals
    ensures FullyUploaded(w, r)
  {
    forall k | k in w.stored && k.0 == r ensures (remoteId, k.1) in w.segments {
      assert k in w.db.chunks;
      assert k.1 in SeqNos(w.db.chunks, r);
    }
  }

  lemma CompleteAudio(w: World, v: World, s: int, r: Id, remoteId: Id, totals: Totals)
    requires LocalAudioSound(w) && RemoteAudioSound(w) && CompleteSound(w)
    requires r in w.db.recordings && w.db.recordings[r].status == Closing
    requires w.db.recordings[r].remoteId == Some(remoteId)
    requires Holds(w.segments, remoteId, totals) && TotalsOf(w.db.chunks, r) == totals
    requires v.db == CompleteRecording(w.db, s, r, totals).0
    requires v == w.(db := v.db, worker := v.worker, enqueued := v.enqueued)
    ensures LocalAudioSound(v) && RemoteAudioSound(v) && CompleteSound(v)
  {
    hide TotalsOf, Holds;
    ConfirmedMeansUploaded(w, r, remoteId, totals);
    CompletedRemote(w, v, r);
  }

  lemma CompletedRemote(w: World, v: World, r: Id)
    requires RemoteAudioSound(w) && CompleteSound(w)
    requires r in w.db.recordings && w.db.recordings[r].remoteId.Some? && FullyUploaded(w, r)
    requires v.db.recordings == w.db.recordings[r := w.db.recordings[r].(status := Complete)]
    requires v.stored == w.stored && v.segments == w.segments && v.minted == w.minted && v.sent == w.sent
    ensures RemoteAudioSound(v) && CompleteSound(v)
  {
    GenuineStays(w, v);
    forall q | q in v.db.recordings && v.db.recordings[q].status == Complete
      ensures v.db.recordings[q].remoteId.Some? && FullyUploaded(v, q)
    {
      assert FullyUploaded(w, q);
    }
  }

  lemma CompleteLocks(w: World, v: World, s: int, r: Id, totals: Totals)
    requires LocksSound(w) && RecordersSound(w)
    requires r in w.db.recordings && w.db.recordings[r].status == Closing
    requires v.db == CompleteRecording(w.db, s, r, totals).0
    requires v == w.(db := v.db, worker := v.worker, enqueued := v.enqueued)
    ensures LocksSound(v) && RecordersSound(v)
  {
    forall q | q in v.recorders ensures RecorderSound(v, q) { assert RecorderSound(w, q); }
  }

  lemma CreatedAudio(w: World, v: World, s: int, r: Id, remoteId: Id)
    requires AudioInv(w)
    requires r in w.db.recordings && w.db.recordings[r].remoteId.None?
    requires w.db.recordings[r].callId in w.minted && w.minted[w.db.recordings[r].callId] == remoteId
    requires v.db == StoreRemoteId(w.db, s, r, remoteId)
    requires v == w.(db := v.db, worker := v.worker, enqueued := v.enqueued)
    ensures AudioInv(v)
  {
    hide LocksSound, RecordersSound, RemoteAudioSound, CompleteSound;
    CreatedLocks(w, v, s, r, remoteId);
    CreatedRemote(w, v, s, r, remoteId);
  }

  lemma CreatedRemote(w: World, v: World, s: int, r: Id, remoteId: Id)
    requires RemoteAudioSound(w) && CompleteSound(w)
    requires r in w.db.recordings && w.db.recordings[r].remoteId.None?
    requires w.db.recordings[r].callId in w.minted && w.minted[w.db.recordings[r].callId] == remoteId
    requires v.db == StoreRemoteId(w.db, s, r, remoteId)
    requires v.stored == w.stored && v.segments == w.segments && v.minted == w.minted && v.sent == w.sent
    ensures RemoteAudioSound(v) && CompleteSound(v)
  {
    GenuineStays(w, v);
    CompletesStay(w, v);
  }

  lemma CreatedLocks(w: World, v: World, s: int, r: Id, remoteId: Id)
    requires LocksSound(w) && RecordersSound(w) && r in w.db.recordings
    requires v.db == StoreRemoteId(w.db, s, r, remoteId)
    requires v.locks == w.locks && v.recorders == w.recorders && v.sweeps == w.sweeps && v.stored == w.stored
    ensures LocksSound(v) && RecordersSound(v)
  {
    forall q | q in v.recorders ensures RecorderSound(v, q) { assert RecorderSound(w, q); }
  }

  lemma AnswerAudio(w: World, reply: Reply, rotated: bool, t: Ticks)
    requires Inv(w) && AtAnswer(w, reply)
    ensures AudioInv(AnswerStep(w, reply, rotated, t))
  {
    var s, row, request := w.worker.rows[w.worker.next].0, w.worker.phase.row, w.worker.phase.request;
    var v := AnswerStep(w, reply, rotated, t);
    var job := row.job;
    if job.CreateRecording? && reply.Ok? && reply.body.Created? {
      assert RowMatches(w.db, job.recording);
      CreatedAudio(w, v, s, job.recording, reply.body.recordingId);
    } else if job.Close? && reply.Ok? && reply.body.Completed? && reply.body.totals == request.totals
              && TotalsOf(w.db.chunks, job.recording) == request.totals {
      CompleteAudio(w, v, s, job.recording, request.remoteId, request.totals);
      CompleteLocks(w, v, s, job.recording, request.totals);
    } else {
      ReceiveTouchesQueueOnly(w.db, s, row, request, reply, t);
      SameAudioKeeps(w, v);
    }
  }

  lemma {:induction false} EnqueueSegmentsGrows(db: Db, r: Id, missing: seq<nat>, dueAt: Time, now: Time)
    requires forall s :: s in db.queue ==> s < db.nextSequence
    ensures
      var after := EnqueueSegments(db, r, missing, dueAt, now);
      && after.recordings == db.recordings && after.chunks == db.chunks && after.calls == db.calls
      && db.nextSequence <= after.nextSequence
      && (forall s :: s in db.queue ==> s in after.queue && after.queue[s] == db.queue[s])
      && (forall s :: s in after.queue && s !in db.queue ==>
            db.nextSequence <= s < after.nextSequence && IsSegmentOf(after.queue[s].job, r))
    decreases |missing|
  {
    if missing == [] {
    } else {
      EnqueueSegmentsGrows(Enqueue(db, Segment(r, missing[0]), Some(dueAt), now), r, missing[1..], dueAt, now);
    }
  }

  lemma ReceiveTouchesQueueOnly(db: Db, s: int, row: QueueRow, request: Request, reply: Reply, t: Ticks)
    requires forall k :: k in db.queue ==> k < db.nextSequence
    requires !reply.Unauthorized? && (row.job.Close? ==> request.PostClose?)
    requires !(row.job.CreateRecording? && reply.Ok? && reply.body.Created?)
    requires row.job.Close? && reply.Ok? && reply.body.Completed? && reply.body.totals == request.totals ==>
      TotalsOf(db.chunks, row.job.recording) != request.totals
    ensures
      var after := Receive(db, s, row, request, reply, t).0;
      after.recordings == db.recordings && after.chunks == db.chunks
  {
    hide TotalsOf, BackoffMs;
    if row.job.Close? && reply.Ok? && reply.body.Missing? {
      EnqueueSegmentsGrows(db, row.job.recording, reply.body.seqNos,
                           t.now + BackoffMs(row.attempts + 1, t.random), t.now);
    }
  }

  /** Either the row is gone and done with, or it stands as it was and will be settled. */
  lemma ReceiveShape(db: Db, s: int, row: QueueRow, request: Request, reply: Reply, t: Ticks)
    requires forall k :: k in db.queue ==> k < db.nextSequence
    requires !reply.Unauthorized? && (row.job.Close? ==> request.PostClose?)
    ensures
      var (after, outcome) := Receive(db, s, row, request, reply, t);
      && !outcome.Waiting?
      && db.nextSequence <= after.nextSequence
      && (outcome.Done? ==> reply.Ok? && after.queue == db.queue - {s} && after.nextSequence == db.nextSequence)
      && (!outcome.Done? ==>
            && (forall k :: k in db.queue ==> k in after.queue && after.queue[k] == db.queue[k])
            && (forall k :: k in after.queue && k !in db.queue ==> db.nextSequence <= k < after.nextSequence))
  {
    hide TotalsOf, BackoffMs;
    if row.job.Close? && reply.Ok? && reply.body.Missing? {
      EnqueueSegmentsGrows(db, row.job.recording, reply.body.seqNos,
                           t.now + BackoffMs(row.attempts + 1, t.random), t.now);
    }
  }

  /** The row at hand leaves the queue, and if it was an event the server has it. */
  lemma DonePass(w: World, v: World)
    requires PassInv(w) && InPhase(w.worker)
    requires w.worker.phase.Awaiting?
    requires v == w.(db := v.db, worker := w.worker.(phase := Settling(w.worker.phase.row, Done)), enqueued := v.enqueued)
    requires v.db.queue == w.db.queue - {w.worker.rows[w.worker.next].0} && v.db.nextSequence == w.db.nextSequence
    requires v.enqueued == w.enqueued + Jobs(v.db.queue)
    requires w.worker.phase.row.job.Event? ==> IsAccepted(w, w.worker.phase.row.job.id)
    ensures PassInv(v)
  {
    forall i: nat | i < |v.worker.rows| ensures RowSound(v, i) { assert RowSound(w, i); }
    forall k | LiveEvent(v, k) && !v.requeued ensures NoneAfter(v.sent, k) { assert LiveEvent(w, k); }
    if !v.requeued && EventLane !in v.worker.held {
      forall i | 0 <= i < |v.worker.rows| && i < v.worker.next ensures !LiveEvent(v, v.worker.rows[i].0) {
        assert !LiveEvent(w, w.worker.rows[i].0);
      }
    }
    forall k | k in v.enqueued && v.enqueued[k].Event?
      ensures k in v.db.queue || IsAccepted(v, v.enqueued[k].id) || IsHeartbeat(v.enqueued[k])
    {
      assert k in w.enqueued && w.enqueued[k] == v.enqueued[k];
      if IsAccepted(w, w.enqueued[k].id) { assert IsAccepted(v, v.enqueued[k].id); }
    }
  }

  lemma AnswerPass(w: World, reply: Reply, rotated: bool, t: Ticks)
    requires PassInv(w) && AtAnswer(w, reply)
    requires forall k :: k in w.db.queue ==> k < w.db.nextSequence
    ensures PassInv(AnswerStep(w, reply, rotated, t))
  {
    hide Receive;
    var s, row, request := w.worker.rows[w.worker.next].0, w.worker.phase.row, w.worker.phase.request;
    var v := AnswerStep(w, reply, rotated, t);
    ReceiveShape(w.db, s, row, request, reply, t);
    if Receive(w.db, s, row, request, reply, t).1.Done? {
      DonePass(w, v);
    } else {
      GrownPass(w, v);
    }
  }

  lemma UnauthorizedPass(w: World, rotated: bool)
    requires PassInv(w) && InPhase(w.worker) && w.worker.phase.Awaiting?
    ensures PassInv(UnauthorizedStep(w, rotated))
  {
    var v := UnauthorizedStep(w, rotated);
    if w.worker.refreshed {
      EnterKeeps(w, Settling(w.worker.phase.row, Retry(STILL_UNAUTHORIZED)));
    } else if rotated {
      GrownPass(w, v);
    } else {
      IdleKeeps(w);
    }
  }

  lemma UnauthorizedAudio(w: World, rotated: bool)
    requires AudioInv(w) && InPhase(w.worker) && w.worker.phase.Awaiting?
    ensures AudioInv(UnauthorizedStep(w, rotated)) && UnauthorizedStep(w, rotated).db == w.db
  {
    hide LocksSound, RecordersSound, LocalAudioSound, RemoteAudioSound, CompleteSound;
    var v := UnauthorizedStep(w, rotated);
    assert v == w.(worker := v.worker);
    SameAudioKeeps(w, v);
  }

  lemma AnswerKeeps(w: World, reply: Reply, rotated: bool, t: Ticks)
    requires Inv(w)
    ensures Inv(AnswerStep(w, reply, rotated, t))
  {
    hide Receive, Truthful, UnauthorizedStep;
    if Answerable(w, reply) {
      if reply.Unauthorized? {
        UnauthorizedAudio(w, rotated);
        UnauthorizedPass(w, rotated);
      } else {
        AnswerMatches(w, reply, rotated, t);
        AnswerAudio(w, reply, rotated, t);
        AnswerPass(w, reply, rotated, t);
      }
    }
  }

  // ----- the pass: settling -----

  /** A settled row is gone, parked, or it holds its lane. */
  lemma SettleShape(db: Db, s: int, outcome: Outcome, t: Ticks)
    requires !outcome.Done? ==> s in db.queue && db.queue[s].Live()
    requires outcome.Done? ==> s !in db.queue
    ensures
      var (after, hold) := Settle(db, s, outcome, t);
      && after == db.(queue := after.queue)
      && (forall k :: k in db.queue && k != s ==> k in after.queue && after.queue[k] == db.queue[k])
      && (forall k :: k in after.queue ==> k in db.queue && after.queue[k].job == db.queue[k].job)
      && (s in db.queue && s !in after.queue ==> IsHeartbeat(db.queue[s].job))
      && (s in after.queue && after.queue[s].Live() && !hold ==> outcome.Waiting?)
  {
    hide BackoffMs;
  }

  lemma SettledInPlace(w: World, m: World, s: int)
    requires PassInv(w) && InPhase(w.worker) && s == w.worker.rows[w.worker.next].0
    requires m == Commit(w, w.db.(queue := m.db.queue))
    requires forall k :: k in w.db.queue && k != s ==> k in m.db.queue && m.db.queue[k] == w.db.queue[k]
    requires forall k :: k in m.db.queue ==> k in w.db.queue && m.db.queue[k].job == w.db.queue[k].job
    requires s in w.db.queue ==> w.db.queue[s].Live()
    requires s in w.db.queue && s !in m.db.queue ==> IsHeartbeat(w.db.queue[s].job)
    ensures HistorySound(m) && OrderSound(m) && EventsConserved(m) && SentSound(m)
  {
    forall k | LiveEvent(m, k) && !m.requeued ensures NoneAfter(m.sent, k) { assert LiveEvent(w, k); }
    if m.worker.Passing? && !m.requeued && EventLane !in m.worker.held {
      forall i | 0 <= i < |m.worker.rows| && i < m.worker.next ensures !LiveEvent(m, m.worker.rows[i].0) {
        assert !LiveEvent(w, w.worker.rows[i].0);
      }
    }
    forall k | k in m.enqueued && m.enqueued[k].Event?
      ensures k in m.db.queue || IsAccepted(m, m.enqueued[k].id) || IsHeartbeat(m.enqueued[k])
    {
      assert k in w.enqueued && w.enqueued[k] == m.enqueued[k];
      if IsAccepted(w, w.enqueued[k].id) { assert IsAccepted(m, m.enqueued[k].id); }
    }
  }

  lemma SettledSnapshot(w: World, m: World, s: int, hold: bool, lane: Lane)
    requires SnapshotSound(w) && InPhase(w.worker) && s == w.worker.rows[w.worker.next].0
    requires m == Commit(w, w.db.(queue := m.db.queue))
    requires forall k :: k in w.db.queue && k != s ==> k in m.db.queue && m.db.queue[k] == w.db.queue[k]
    requires forall k :: k in m.db.queue ==> k in w.db.queue && m.db.queue[k].job == w.db.queue[k].job
    requires w.worker.rows[w.worker.next].1.Live()
    ensures SnapshotSound(Advance(m, hold, lane)) && PhaseSound(Advance(m, hold, lane))
  {
    var v := Advance(m, hold, lane);
    forall i: nat | i < |v.worker.rows| ensures RowSound(v, i) { assert RowSound(w, i); }
  }

  lemma SettledHolds(m: World, s: int, row: QueueRow, outcome: Outcome, hold: bool)
    requires s in m.db.queue ==> m.db.queue[s].job == row.job
    requires s in m.db.queue && m.db.queue[s].Live() && !hold ==> outcome.Waiting?
    requires outcome.Waiting? ==> !row.job.Event?
    ensures !LiveEvent(m, s) || (hold && LaneOf(row.job) == EventLane)
  {
  }

  lemma SettledAdvances(w: World, queue: map<int, QueueRow>, s: int, hold: bool)
    requires PassInv(w) && InPhase(w.worker) && w.worker.phase.Settling? && s == w.worker.rows[w.worker.next].0
    requires forall k :: k in w.db.queue && k != s ==> k in queue && queue[k] == w.db.queue[k]
    requires forall k :: k in queue ==> k in w.db.queue && queue[k].job == w.db.queue[k].job
    requires s in w.db.queue && s !in queue ==> IsHeartbeat(w.db.queue[s].job)
    requires s in queue && queue[s].Live() && !hold ==> w.worker.phase.outcome.Waiting?
    ensures PassInv(Advance(Commit(w, w.db.(queue := queue)), hold, LaneOf(w.worker.phase.row.job)))
  {
    hide HistorySound, OrderSound, EventsConserved, SentSound, SnapshotSound, LiveEvent, IsHeartbeat;
    var row, m := w.worker.phase.row, Commit(w, w.db.(queue := queue));
    SettledInPlace(w, m, s);
    SettledSnapshot(w, m, s, hold, LaneOf(row.job));
    SettledHolds(m, s, row, w.worker.phase.outcome, hold);
    AdvanceOrder(m, hold, LaneOf(row.job));
    AdvanceEvents(m, hold, LaneOf(row.job));
  }

  /** The transaction that settles the row at hand, and whether its lane is held after it. */
  lemma SettledRow(w: World, t: Ticks)
    requires PassInv(w) && InPhase(w.worker) && w.worker.phase.Settling?
    ensures
      var (db, hold) := Settle(w.db, w.worker.rows[w.worker.next].0, w.worker.phase.outcome, t);
      PassInv(Advance(Commit(w, db), hold, LaneOf(w.worker.phase.row.job)))
  {
    hide Settle, Advance, Commit, IsHeartbeat, HistorySound, OrderSound, EventsConserved, SentSound, SnapshotSound, LaneOf;
    var s := w.worker.rows[w.worker.next].0;
    var (db, hold) := Settle(w.db, s, w.worker.phase.outcome, t);
    SettleShape(w.db, s, w.worker.phase.outcome, t);
    SettledAdvances(w, db.queue, s, hold);
  }

  lemma SettlePass(w: World, t: Ticks)
    requires PassInv(w) && InPhase(w.worker) && w.worker.phase.Settling?
    ensures PassInv(SettleStep(w, t))
  {
    hide PassInv, Settle, Advance, Commit, LaneOf;
    SettledRow(w, t);
  }

  lemma SettleStepKeeps(w: World, t: Ticks)
    requires Inv(w)
    ensures Inv(SettleStep(w, t))
  {
    hide Settle;
    if InPhase(w.worker) && w.worker.phase.Settling? {
      var s, outcome := w.worker.rows[w.worker.next].0, w.worker.phase.outcome;
      SettleKeeps(w.db, s, outcome, t);
      SettleShape(w.db, s, outcome, t);
      SameAudioKeeps(w, SettleStep(w, t));
      SettlePass(w, t);
    }
  }

  // ----- the server's steps -----

  /** The server only learns: nothing it knew is forgotten. */
  lemma ServerLearns(w: World, v: World)
    requires AudioInv(w) && v == w.(minted := v.minted, segments := v.segments)
    requires RemoteAudioSound(v)
    requires forall k :: k in w.segments ==> k in v.segments
    ensures AudioInv(v)
  {
    forall q | q in v.recorders ensures RecorderSound(v, q) { assert RecorderSound(w, q); }
    CompletesStay(w, v);
  }

  lemma MintRemote(w: World, callId: Id, remoteId: Id)
    requires RemoteAudioSound(w)
    ensures RemoteAudioSound(MintStep(w, callId, remoteId))
  {
    GenuineStays(w, MintStep(w, callId, remoteId));
  }

  lemma KeepRemote(w: World, request: Request)
    requires RemoteAudioSound(w)
    ensures RemoteAudioSound(KeepStep(w, request))
  {
    GenuineStays(w, KeepStep(w, request));
  }

  lemma PassSeesNothing(w: World, v: World)
    requires PassInv(w)
    requires v.db == w.db && v.worker == w.worker && v.sent == w.sent && v.accepted == w.accepted
    requires v.enqueued == w.enqueued && v.requeued == w.requeued
    ensures PassInv(v)
  {
    GrownPass(w, v);
  }

  lemma AcceptEventPass(w: World, request: Request)
    requires PassInv(w)
    ensures PassInv(AcceptEventStep(w, request))
  {
    var v := AcceptEventStep(w, request);
    if v != w {
      if v.worker.Passing? {
        forall i: nat | i < |v.worker.rows| ensures RowSound(v, i) { assert RowSound(w, i); }
      }
      forall s | LiveEvent(v, s) && !v.requeued ensures NoneAfter(v.sent, s) { assert LiveEvent(w, s); }
      if v.worker.Passing? && !v.requeued && EventLane !in v.worker.held {
        forall i | 0 <= i < |v.worker.rows| && i < v.worker.next ensures !LiveEvent(v, v.worker.rows[i].0) {
          assert !LiveEvent(w, w.worker.rows[i].0);
        }
      }
      forall s | s in v.enqueued && v.enqueued[s].Event?
        ensures s in v.db.queue || IsAccepted(v, v.enqueued[s].id) || IsHeartbeat(v.enqueued[s])
      {
        if IsAccepted(w, w.enqueued[s].id) {
          var i :| 0 <= i < |w.accepted| && w.accepted[i].PostEvent? && w.accepted[i].id == w.enqueued[s].id;
          assert v.accepted[i] == w.accepted[i];
        }
      }
    }
  }

  // ----- every step, every run -----

  lemma TakeLockKeeps(w: World, p: nat, callId: Id)
    requires Inv(w)
    ensures Inv(TakeLockStep(w, p, callId))
  {
    TakeLockSound(w, p, callId);
    SameRestKeeps(w, TakeLockStep(w, p, callId));
  }

  lemma LeaveKeeps(w: World, p: nat)
    requires Inv(w)
    ensures Inv(RecorderGone(w, p))
  {
    RecorderGoneSound(w, p);
    SameRestKeeps(w, RecorderGone(w, p));
  }

  lemma DataArrivesKeeps(w: World, p: nat, blob: Blob, startedAt: Time)
    requires Inv(w)
    ensures Inv(DataArrivesStep(w, p, blob, startedAt))
  {
    if Begun(w, p) && !w.recorders[p].stopped && blob != [] {
      assert RecorderSound(w, p);
      OwnVariablesKeep(w, p, w.recorders[p].(pending := w.recorders[p].pending + [(blob, startedAt)]));
    }
  }

  lemma StopKeeps(w: World, p: nat, requested: bool)
    requires Inv(w)
    ensures Inv(StopStep(w, p, requested))
  {
    if p in w.recorders {
      assert RecorderSound(w, p);
      OwnVariablesKeep(w, p, w.recorders[p].(stopRequested := requested));
    }
  }

  lemma StreamStopsKeeps(w: World, p: nat)
    requires Inv(w)
    ensures Inv(StreamStopsStep(w, p))
  {
    if Begun(w, p) {
      assert RecorderSound(w, p);
      OwnVariablesKeep(w, p, w.recorders[p].(stopped := true));
    }
  }

  lemma BeginStepKeeps(w: World, p: nat, id: Id, now: Time)
    requires Inv(w)
    ensures Inv(BeginStep(w, p, id, now))
  {
    if p in w.recorders && w.recorders[p].recording.None? && id !in w.db.recordings {
      if RecordingBlocked(w.db, w.recorders[p].callId) {
        LeaveKeeps(w, p);
      } else {
        BeginKeeps(w.db, w.recorders[p].callId, id, now);
        BeginLocks(w, p, id, now);
        BeginLocalAudio(w, BeginStep(w, p, id, now), w.recorders[p].callId, id, now);
        BeginRemoteAudio(w, BeginStep(w, p, id, now), w.recorders[p].callId, id, now);
        BeginPass(w, w.recorders[p].callId, id, now);
        PassSeesNothing(Commit(w, BeginRecording(w.db, w.recorders[p].callId, id, now).value), BeginStep(w, p, id, now));
      }
    }
  }

  lemma StoreNextKeeps(w: World, p: nat, ok: bool, now: Time)
    requires Inv(w)
    ensures Inv(StoreNextStep(w, p, ok, now))
  {
    if CanStore(w, p) && ok {
      var rec := w.recorders[p];
      StoresFresh(w, p);
      StoreChunkKeeps(w.db, rec.recording.value, rec.nextSeq, rec.pending[0].0, rec.pending[0].1, now);
      StoreLocks(w, p, now);
      StoreLocalAudio(w, p, now);
      StoreRemoteAudio(w, p, now);
      StorePass(w, p, now);
    } else if Begun(w, p) && w.recorders[p].pending != [] {
      assert RecorderSound(w, p);
      OwnVariablesKeep(w, p, StoreNextStep(w, p, ok, now).recorders[p]);
    }
  }

  lemma ClosesKeep(w: World, p: nat, now: Time)
    requires Inv(w) && Drained(w, p)
    ensures Inv(FinishStep(w, p, true, now))
  {
    hide FinishRecording, LocksSound, RecordersSound;
    var v := FinishStep(w, p, true, now);
    var r, interrupted := w.recorders[p].recording.value, !w.recorders[p].stopRequested;
    FinishLocks(w, p, true, now);
    FinishKeeps(w.db, r, interrupted, now);
    FinishLocalAudio(w, v, r, interrupted, now);
    FinishRemoteAudio(w, v, r, interrupted, now);
    FinishPass(w, r, interrupted, now);
    PassSeesNothing(Commit(w, FinishRecording(w.db, r, interrupted, now)), v);
  }

  lemma FinishStepKeeps(w: World, p: nat, ok: bool, now: Time)
    requires Inv(w)
    ensures Inv(FinishStep(w, p, ok, now))
  {
    if Drained(w, p) {
      if ok {
        ClosesKeep(w, p, now);
      } else {
        FinishLocks(w, p, false, now);
        SameRestKeeps(w, FinishStep(w, p, false, now));
      }
    }
  }

  lemma SweepTakeKeeps(w: World, k: nat, r: Id)
    requires Inv(w)
    ensures Inv(SweepTakeStep(w, k, r))
  {
    SweepTakeLocks(w, k, r);
    SameRestKeeps(w, SweepTakeStep(w, k, r));
  }

  lemma SweepFinishStepKeeps(w: World, k: nat, now: Time)
    requires Inv(w)
    ensures Inv(SweepFinishStep(w, k, now))
  {
    hide FinishRecording, LocksSound, RecordersSound;
    if k in w.sweeps && w.sweeps[k] in w.db.recordings {
      var v, r := SweepFinishStep(w, k, now), w.sweeps[k];
      SweepFinishLocks(w, k, now);
      FinishKeeps(w.db, r, true, now);
      FinishLocalAudio(w, v, r, true, now);
      FinishRemoteAudio(w, v, r, true, now);
      FinishPass(w, r, true, now);
      PassSeesNothing(Commit(w, FinishRecording(w.db, r, true, now)), v);
    }
  }

  lemma WorkerDiesKeeps(w: World)
    requires Inv(w)
    ensures Inv(WorkerDiesStep(w))
  {
    var v, idle := WorkerDiesStep(w), w.(worker := Idle);
    IdleKeeps(w);
    SameAudioKeeps(w, idle);
    forall q | q in v.recorders ensures RecorderSound(v, q) { assert RecorderSound(w, q); }
    SameRestKeeps(idle, v);
  }

  /** A pass takes the audio as it is. */
  lemma PassLeavesAudio(w: World, v: World)
    requires Inv(w) && PassInv(v) && v == w.(worker := v.worker, accepted := v.accepted)
    ensures Inv(v)
  {
    SameAudioKeeps(w, v);
  }

  lemma StartPassStepKeeps(w: World, force: bool)
    requires Inv(w)
    ensures Inv(StartPassStep(w, force))
  {
    StartPassKeeps(w, force);
    PassLeavesAudio(w, StartPassStep(w, force));
  }

  lemma ScanStepKeeps(w: World, now: Time)
    requires Inv(w)
    ensures Inv(ScanStep(w, now))
  {
    hide Scanned;
    ScanKeeps(w, now);
    PassLeavesAudio(w, ScanStep(w, now));
  }

  lemma AcceptEventKeeps(w: World, request: Request)
    requires Inv(w)
    ensures Inv(AcceptEventStep(w, request))
  {
    AcceptEventPass(w, request);
    PassLeavesAudio(w, AcceptEventStep(w, request));
  }

  lemma MintKeeps(w: World, callId: Id, remoteId: Id)
    requires Inv(w)
    ensures Inv(MintStep(w, callId, remoteId))
  {
    MintRemote(w, callId, remoteId);
    ServerLearns(w, MintStep(w, callId, remoteId));
    PassSeesNothing(w, MintStep(w, callId, remoteId));
  }

  lemma KeepKeeps(w: World, request: Request)
    requires Inv(w)
    ensures Inv(KeepStep(w, request))
  {
    KeepRemote(w, request);
    ServerLearns(w, KeepStep(w, request));
    PassSeesNothing(w, KeepStep(w, request));
  }

  predicate IsRecorderStep(step: Step) {
    || step.TakeLock? || step.Begin? || step.DataArrives? || step.StoreNext? || step.AskStop? || step.Interrupt?
    || step.StreamStops? || step.Finish? || step.Leave?
  }

  lemma RecorderKeeps(w: World, step: Step)
    requires Inv(w) && IsRecorderStep(step)
    ensures Inv(Next(w, step))
  {
    hide Inv, QueueEventStep, PutCallStep, RetryDeadStep, TakeLockStep, BeginStep, DataArrivesStep, StoreNextStep,
      StopStep, StreamStopsStep, FinishStep, RecorderGone, SweepTakeStep, SweepFinishStep, WorkerDiesStep,
      StartPassStep, ScanStep, DeliverStep, AnswerStep, SettleStep, MintStep, KeepStep, AcceptEventStep;
    match step
    case TakeLock(p, callId) => TakeLockKeeps(w, p, callId);
    case Begin(p, id, now) => BeginStepKeeps(w, p, id, now);
    case DataArrives(p, blob, startedAt) => DataArrivesKeeps(w, p, blob, startedAt);
    case StoreNext(p, ok, now) => StoreNextKeeps(w, p, ok, now);
    case AskStop(p) => StopKeeps(w, p, true);
    case Interrupt(p) => StopKeeps(w, p, false);
    case StreamStops(p) => StreamStopsKeeps(w, p);
    case Finish(p, ok, now) => FinishStepKeeps(w, p, ok, now);
    case Leave(p) => LeaveKeeps(w, p);
  }

  lemma WorkerKeeps(w: World, step: Step)
    requires Inv(w) && !IsRecorderStep(step)
    ensures Inv(Next(w, step))
  {
    hide Inv, QueueEventStep, PutCallStep, RetryDeadStep, TakeLockStep, BeginStep, DataArrivesStep, StoreNextStep,
      StopStep, StreamStopsStep, FinishStep, RecorderGone, SweepTakeStep, SweepFinishStep, WorkerDiesStep,
      StartPassStep, ScanStep, DeliverStep, AnswerStep, SettleStep, MintStep, KeepStep, AcceptEventStep;
    match step
    case QueueEvent(id, kind, payload, now) => QueueEventKeeps(w, id, kind, payload, now);
    case PutCall(callId, call) => PutCallKeeps(w, callId, call);
    case RetryDead(now) => RetryDeadKeeps(w, now);
    case SweepTake(k, r) => SweepTakeKeeps(w, k, r);
    case SweepFinish(k, now) => SweepFinishStepKeeps(w, k, now);
    case WorkerDies => WorkerDiesKeeps(w);
    case StartPass(force) => StartPassStepKeeps(w, force);
    case Scan(now) => ScanStepKeeps(w, now);
    case Deliver => DeliverKeeps(w);
    case Answer(reply, rotated, t) => AnswerKeeps(w, reply, rotated, t);
    case SettleRow(t) => SettleStepKeeps(w, t);
    case Mint(callId, remoteId) => MintKeeps(w, callId, remoteId);
    case Keep(request) => KeepKeeps(w, request);
    case AcceptEvent(request) => AcceptEventKeeps(w, request);
  }

  lemma InvKept(w: World, step: Step)
    requires Inv(w)
    ensures Inv(Next(w, step))
  {
    hide Inv, Next;
    if IsRecorderStep(step) { RecorderKeeps(w, step); } else { WorkerKeeps(w, step); }
  }

  lemma {:induction false} RunKeeps(w: World, steps: seq<Step>)
    requires Inv(w)
    ensures Inv(Run(w, steps))
    decreases |steps|
  {
    hide Inv;
    if steps != [] {
      InvKept(w, steps[0]);
      RunKeeps(Next(w, steps[0]), steps[1..]);
    }
  }
}
