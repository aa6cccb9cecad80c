/** When the server creates, takes and completes, said of what it stores rather than of how it decides. */
module ServerMeaning {
  import opened Domain
  import opened Server
  import S = Store
  import Protocol

  // ----- the close -----

  lemma {:induction false} MissingNone(s: State, r: Id, n: nat)
    ensures MissingBelow(s, r, n) == [] <==> forall i: nat :: i < n ==> (r, i) in s.segments
  {
    MissingIsExact(s, r, n);
    if MissingBelow(s, r, n) != [] { assert MissingBelow(s, r, n)[0] in MissingBelow(s, r, n); }
  }

  ghost predicate Reached(s: State, hash: Hash) {
    exists steps :: s == Run(NOTHING, hash, steps)
  }

  lemma ReachedIsSound(s: State, hash: Hash)
    requires Reached(s, hash)
    ensures Sound(s, hash)
  {
    hide Run, Sound;
    NothingSound(hash);
    var steps :| s == Run(NOTHING, hash, steps);
    RunKeeps(NOTHING, hash, steps);
  }

  lemma ManifestFits(s: State, hash: Hash, r: Id, manifest: S.Totals)
    requires Sound(s, hash)
    ensures MissingBelow(s, r, manifest.segments) == [] && BytesBelow(s, r, manifest.segments) == manifest.bytes
            <==> Protocol.Holds(s.bodies, r, manifest)
  {
    hide UploadsSound, OnePerCall, ManifestHolds, RowSound, MissingBelow, BytesBelow, Protocol.SizeBelow;
    MissingNone(s, r, manifest.segments);
    if MissingBelow(s, r, manifest.segments) == [] { SizesAddUp(s, hash, r, manifest.segments); }
  }

  /**
   * A close is answered `complete` exactly when the recording was completed with this very manifest, or is not
   * complete and holds the manifest's segments and bytes; `missing` exactly when it lacks one of them.
   */
  lemma AnswersExactlyWhen(s: State, hash: Hash, r: Id, manifest: S.Totals)
    requires Reached(s, hash)
    ensures
      var reply := CloseReplyTo(s, r, manifest);
      var open := r in s.recordings && !s.recordings[r].status.Complete?;
      && (reply == NotFound <==> r !in s.recordings)
      && (reply.Completed?
          <==> || (r in s.recordings && s.recordings[r].status == Status.Complete(manifest))
               || (open && Protocol.Holds(s.bodies, r, manifest)))
      && (reply.Missing? <==> open && exists i: nat :: i < manifest.segments && (r, i) !in s.segments)
  {
    hide Reached, Sound, MissingBelow, BytesBelow, Protocol.Holds;
    ReachedIsSound(s, hash);
    ManifestFits(s, hash, r, manifest);
    MissingNone(s, r, manifest.segments);
  }

  /** A close completes the recording with its manifest when it is answered `complete`, and otherwise changes nothing. */
  lemma ClosesExactlyWhen(s: State, r: Id, manifest: S.Totals)
    ensures
      var t := Server.Close(s, r, manifest);
      if CloseReplyTo(s, r, manifest).Completed? then
        && r in t.recordings && t.recordings[r] == Rec(s.recordings[r].callId, Status.Complete(manifest))
        && (forall q :: q != r && q in s.recordings ==> q in t.recordings && t.recordings[q] == s.recordings[q])
        && t.segments == s.segments && t.bodies == s.bodies && t.blobs == s.blobs && t.uploads == s.uploads
      else t == s
  {
    hide MissingBelow, BytesBelow;
  }

  // ----- taking -----

  /** A recording is created exactly for a call that has none. */
  lemma CreatesExactlyWhen(s: State, callId: Id, id: Id)
    requires id !in s.recordings
    ensures
      var t := Create(s, callId, id);
      && (id in t.recordings <==> forall r :: r in s.recordings ==> s.recordings[r].callId != callId)
      && (id in t.recordings ==> t.recordings[id] == Rec(callId, Open))
      && (exists r :: r in t.recordings && t.recordings[r].callId == callId)
  {
    var t := Create(s, callId, id);
    if id in t.recordings { assert t.recordings[id].callId == callId; }
  }

  /** A segment of up to four mebibytes, of a recording that is not complete, is stored if nothing throws. */
  lemma AnUploadIsStored(s: State, hash: Hash, u: nat, r: Id, seqNo: nat, body: Blob)
    requires u !in s.uploads && r in s.recordings && !s.recordings[r].status.Complete?
    requires 0 < |body| && |body| <= 4 * 1024 * 1024 && (r, seqNo) !in s.segments
    ensures
      var t := Run(s, hash, [ArriveIt(u, r, seqNo, body), PutIt(u), InsertIt(u, Commits)]);
      && (r, seqNo) in t.segments && t.segments[(r, seqNo)] == SegmentRow(|body|, hash(body))
      && (r, seqNo) in t.bodies && t.bodies[(r, seqNo)] == body
      && (r, seqNo, hash(body)) in t.blobs && t.blobs[(r, seqNo, hash(body))] == body
      && u !in t.uploads && t.recordings == s.recordings
  {
    hide Next, Run;
    var a := Arrive(s, u, r, seqNo, body);
    var b := PutBlob(a, hash, u);
    ArrivesAs(s, hash, u, r, seqNo, body);
    UploadSteps(a, hash, u, Commits);
    UploadSteps(b, hash, u, Commits);
    assert At(a, u, Putting) && At(b, u, Inserting) && a.segments == s.segments && b.segments == s.segments;
    ThreeSteps(s, hash, ArriveIt(u, r, seqNo, body), PutIt(u), InsertIt(u, Commits));
  }

  lemma ArrivesAs(s: State, hash: Hash, u: nat, r: Id, seqNo: nat, body: Blob)
    ensures Next(s, hash, ArriveIt(u, r, seqNo, body)) == Arrive(s, u, r, seqNo, body)
  {
    hide Arrive;
  }

  /** Nothing else is taken in. */
  lemma TakesExactlyWhen(s: State, u: nat, r: Id, seqNo: nat, body: Blob)
    requires u !in s.uploads
    ensures u in Arrive(s, u, r, seqNo, body).uploads
            <==> && r in s.recordings && !s.recordings[r].status.Complete?
                 && 0 < |body| && |body| <= 4 * 1024 * 1024 && (r, seqNo) !in s.segments
  {
  }

  lemma CompleteGainsNoRow(s: State, hash: Hash, step: Step, k: ChunkKey)
    requires k in Next(s, hash, step).segments && k !in s.segments
    ensures step.InsertIt? && k.0 in s.recordings && !s.recordings[k.0].status.Complete?
    ensures At(s, step.u, Inserting) && (s.uploads[step.u].recording, s.uploads[step.u].seqNo) == k
  {
    hide CloseReplyTo, Referenced, Takes, KeyOf;
  }

  /** No segment is stored once the recording is complete, not even by an upload that was under way. */
  lemma {:induction false} NothingStoredOnceComplete(s: State, hash: Hash, later: seq<Step>, r: Id, i: nat)
    requires Sound(s, hash) && r in s.recordings && s.recordings[r].status.Complete?
    ensures (r, i) in Run(s, hash, later).segments <==> (r, i) in s.segments
    decreases |later|
  {
    hide Next, RowSound, UploadsSound, OnePerCall, ManifestHolds;
    if later != [] {
      var t := Next(s, hash, later[0]);
      StepGrows(s, hash, later[0]);
      StepKeeps(s, hash, later[0]);
      if (r, i) in t.segments && (r, i) !in s.segments { CompleteGainsNoRow(s, hash, later[0], (r, i)); }
      NothingStoredOnceComplete(t, hash, later[1..], r, i);
    }
  }

  /** A failed upload leaves its blob exactly when a row points at it. */
  lemma AFailedUploadCleansUp(s: State, hash: Hash, u: nat)
    requires At(s, u, Discarding)
    ensures
      var t, key := Next(Next(s, hash, RecheckIt(u)), hash, DeleteIt(u)), KeyOf(hash, s.uploads[u]);
      && u !in t.uploads && t.segments == s.segments && t.recordings == s.recordings
      && (forall k :: k in t.blobs
            <==> k in s.blobs && (k != key || ((k.0, k.1) in s.segments && s.segments[(k.0, k.1)].hash == k.2)))
  {
    hide Next;
    UploadSteps(s, hash, u, Commits);
    UploadSteps(Recheck(s, hash, u), hash, u, Commits);
    Discards(s, hash, u);
  }

  lemma Discards(s: State, hash: Hash, u: nat)
    requires At(s, u, Discarding)
    ensures
      var t, key := DeleteBlob(Recheck(s, hash, u), hash, u), KeyOf(hash, s.uploads[u]);
      && u !in t.uploads && t.segments == s.segments && t.recordings == s.recordings
      && t.blobs == if Referenced(s, key) then s.blobs else s.blobs - {key}
  {
  }

  /** The sweep of idle recordings interrupts open ones and touches no other. */
  lemma SweepsOpenOnly(s: State, hash: Hash, r: Id)
    ensures
      var t := Next(s, hash, SweepIt(r));
      && (t != s <==> r in s.recordings && s.recordings[r].status == Open)
      && (t != s ==> t == s.(recordings := s.recordings[r := Rec(s.recordings[r].callId, Interrupted)]))
  {
  }
}
