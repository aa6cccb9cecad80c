/**
 * The server's side of the recording protocol: uploads that race over one segment, the close,
 * and what the extension may conclude from its answers.
 */
module Server {
  import opened Domain
  import S = Store
  import Protocol

  const SEGMENT_MAX_BYTES: nat := 4 * 1024 * 1024

  datatype Status = Open | Interrupted | Complete(expected: S.Totals)

  datatype Rec = Rec(callId: Id, status: Status)

  /** The stored row; the bytes are in a blob under a key that carries their hash. */
  datatype SegmentRow = SegmentRow(size: nat, hash: string)

  type BlobKey = (Id, nat, string)

  /** Where a request stands that has found no row for its segment. */
  datatype Stage = Putting | Inserting | Discarding | Deleting

  datatype Upload = Upload(recording: Id, seqNo: nat, body: Blob, stage: Stage)

  /** `bodies` is history: what each stored row was inserted with. */
  datatype State = State(
    recordings: map<Id, Rec>,
    segments: map<ChunkKey, SegmentRow>,
    blobs: map<BlobKey, Blob>,
    uploads: map<nat, Upload>,
    bodies: map<ChunkKey, Blob>)

  const NOTHING := State(map[], map[], map[], map[], map[])

  /** The content hash; no two bodies share one. */
  type Hash = Blob -> string

  ghost predicate CollisionFree(hash: Hash) {
    forall a, b :: hash(a) == hash(b) ==> a == b
  }

  function KeyOf(hash: Hash, upload: Upload): BlobKey {
    (upload.recording, upload.seqNo, hash(upload.body))
  }

  // ----- creating -----

  /** One recording per call: the row that is there, or a new one under `id`. */
  function Create(s: State, callId: Id, id: Id): State {
    if id in s.recordings || (exists r :: r in s.recordings && s.recordings[r].callId == callId) then s
    else s.(recordings := s.recordings[id := Rec(callId, Open)])
  }

  // ----- uploading -----

  predicate Takes(s: State, r: Id, body: Blob) {
    r in s.recordings && !s.recordings[r].status.Complete? && 0 < |body| <= SEGMENT_MAX_BYTES
  }

  /** A segment that is stored is acknowledged or refused at once, and nothing changes. */
  function Arrive(s: State, u: nat, r: Id, seqNo: nat, body: Blob): State {
    if u in s.uploads || !Takes(s, r, body) || (r, seqNo) in s.segments then s
    else s.(uploads := s.uploads[u := Upload(r, seqNo, body, Putting)])
  }

  predicate At(s: State, u: nat, stage: Stage) { u in s.uploads && s.uploads[u].stage == stage }

  function Advanced(s: State, u: nat, stage: Stage): State
    requires u in s.uploads
  {
    s.(uploads := s.uploads[u := s.uploads[u].(stage := stage)])
  }

  function Gone(s: State, u: nat): State { s.(uploads := s.uploads - {u}) }

  function PutBlob(s: State, hash: Hash, u: nat): State {
    if !At(s, u, Putting) then s
    else Advanced(s.(blobs := s.blobs[KeyOf(hash, s.uploads[u]) := s.uploads[u].body]), u, Inserting)
  }

  datatype Fate = Commits | Throws | CommitsThenThrows

  /** Under the recording's row lock; the first row of a segment stays. */
  function Insert(s: State, hash: Hash, u: nat, fate: Fate): State {
    if !At(s, u, Inserting) then s
    else
      var upload := s.uploads[u];
      var k := (upload.recording, upload.seqNo);
      if fate.Throws? || upload.recording !in s.recordings || s.recordings[upload.recording].status.Complete? then
        Advanced(s, u, Discarding)
      else if k in s.segments then
        if s.segments[k].hash == hash(upload.body) && fate.Commits? then Gone(s, u) else Advanced(s, u, Discarding)
      else
        var stored := s.(segments := s.segments[k := SegmentRow(|upload.body|, hash(upload.body))],
                         bodies := s.bodies[k := upload.body]);
        if fate.Commits? then Gone(stored, u) else Advanced(stored, u, Discarding)
  }

  predicate Referenced(s: State, key: BlobKey) {
    (key.0, key.1) in s.segments && s.segments[(key.0, key.1)].hash == key.2
  }

  /** A failed upload looks for a row that points at its blob, and only then deletes the blob. */
  function Recheck(s: State, hash: Hash, u: nat): State {
    if !At(s, u, Discarding) then s
    else if Referenced(s, KeyOf(hash, s.uploads[u])) then Gone(s, u)
    else Advanced(s, u, Deleting)
  }

  function DeleteBlob(s: State, hash: Hash, u: nat): State {
    if !At(s, u, Deleting) then s
    else Gone(s.(blobs := s.blobs - {KeyOf(hash, s.uploads[u])}), u)
  }

  // ----- closing -----

  datatype CloseReply = Completed(totals: S.Totals) | Missing(seqNos: seq<nat>) | Mismatch | NotFound

  function MissingBelow(s: State, r: Id, n: nat): seq<nat> {
    if n == 0 then [] else MissingBelow(s, r, n - 1) + if (r, n - 1) in s.segments then [] else [n - 1]
  }

  function BytesBelow(s: State, r: Id, n: nat): nat {
    if n == 0 then 0 else BytesBelow(s, r, n - 1) + if (r, n - 1) in s.segments then s.segments[(r, n - 1)].size else 0
  }

  function CloseReplyTo(s: State, r: Id, manifest: S.Totals): CloseReply {
    if r !in s.recordings then NotFound
    else if s.recordings[r].status.Complete? then
      if s.recordings[r].status.expected == manifest then Completed(manifest) else Mismatch
    else if MissingBelow(s, r, manifest.segments) != [] then Missing(MissingBelow(s, r, manifest.segments))
    else if BytesBelow(s, r, manifest.segments) != manifest.bytes then Mismatch
    else Completed(manifest)
  }

  function Close(s: State, r: Id, manifest: S.Totals): State {
    if CloseReplyTo(s, r, manifest).Completed? then
      s.(recordings := s.recordings[r := s.recordings[r].(status := Status.Complete(manifest))])
    else s
  }

  /** The rows of one transaction, and the loops of the close over them. */
  method ListMissing(stored: set<nat>, segments: nat) returns (missing: seq<nat>)
    ensures forall n: nat :: n in missing <==> n < segments && n !in stored
    ensures forall i, j :: 0 <= i < j < |missing| ==> missing[i] < missing[j]
  {
    missing := [];
    for n := 0 to segments
      invariant forall m: nat :: m in missing <==> m < n && m !in stored
      invariant forall i, j :: 0 <= i < j < |missing| ==> missing[i] < missing[j]
      invariant forall i :: 0 <= i < |missing| ==> missing[i] < n
    {
      if n !in stored { missing := missing + [n]; }
    }
  }

  lemma {:induction false} MissingIsExact(s: State, r: Id, n: nat)
    ensures forall i: nat :: i in MissingBelow(s, r, n) <==> i < n && (r, i) !in s.segments
  {
    if n > 0 { MissingIsExact(s, r, n - 1); }
  }

  // ----- every run -----

  datatype Step =
    | CreateIt(callId: Id, id: Id)
    | ArriveIt(u: nat, r: Id, seqNo: nat, body: Blob)
    | PutIt(u: nat)
    | InsertIt(u: nat, fate: Fate)
    | RecheckIt(u: nat)
    | DeleteIt(u: nat)
    | CloseIt(r: Id, manifest: S.Totals)
    | SweepIt(r: Id)
    | Restart

  function Next(s: State, hash: Hash, step: Step): State {
    match step
    case CreateIt(callId, id) => Create(s, callId, id)
    case ArriveIt(u, r, seqNo, body) => Arrive(s, u, r, seqNo, body)
    case PutIt(u) => PutBlob(s, hash, u)
    case InsertIt(u, fate) => Insert(s, hash, u, fate)
    case RecheckIt(u) => Recheck(s, hash, u)
    case DeleteIt(u) => DeleteBlob(s, hash, u)
    case CloseIt(r, manifest) => Close(s, r, manifest)
    case SweepIt(r) =>
      if r in s.recordings && s.recordings[r].status.Open?
      then s.(recordings := s.recordings[r := s.recordings[r].(status := Interrupted)]) else s
    case Restart => s.(uploads := map[])
  }

  function Run(s: State, hash: Hash, steps: seq<Step>): State
    decreases |steps|
  {
    if steps == [] then s else Run(Next(s, hash, steps[0]), hash, steps[1..])
  }

  ghost predicate RowSound(s: State, hash: Hash, k: ChunkKey)
    requires k in s.segments
  {
    && k.0 in s.recordings && k in s.bodies
    && s.segments[k] == SegmentRow(|s.bodies[k]|, hash(s.bodies[k])) && s.bodies[k] != []
  }

  /** A complete recording holds what its manifest said. */
  ghost predicate ManifestHolds(s: State, r: Id)
    requires r in s.recordings
  {
    s.recordings[r].status.Complete? ==>
      var expected := s.recordings[r].status.expected;
      MissingBelow(s, r, expected.segments) == [] && BytesBelow(s, r, expected.segments) == expected.bytes
  }

  ghost predicate RowsSound(s: State, hash: Hash) {
    && s.bodies.Keys == s.segments.Keys
    && (forall k :: k in s.segments ==> RowSound(s, hash, k))
  }

  ghost predicate UploadsSound(s: State) {
    forall u :: u in s.uploads ==> s.uploads[u].recording in s.recordings && s.uploads[u].body != []
  }

  ghost predicate OnePerCall(s: State) {
    forall q, r :: q in s.recordings && r in s.recordings && s.recordings[q].callId == s.recordings[r].callId ==> q == r
  }

  ghost predicate Sound(s: State, hash: Hash) {
    && RowsSound(s, hash) && UploadsSound(s) && OnePerCall(s)
    && (forall r :: r in s.recordings ==> ManifestHolds(s, r))
  }

  /** Rows and recordings stay, rows keep their bytes, and a recording keeps its call. */
  ghost predicate Grows(s: State, t: State) {
    && (forall k :: k in s.segments ==> k in t.segments && t.segments[k] == s.segments[k])
    && (forall k :: k in s.bodies ==> k in t.bodies && t.bodies[k] == s.bodies[k])
    && (forall r :: r in s.recordings ==>
          && r in t.recordings && t.recordings[r].callId == s.recordings[r].callId
          && (s.recordings[r].status.Complete? ==> t.recordings[r].status == s.recordings[r].status))
  }

  lemma InsertGrows(s: State, hash: Hash, u: nat, fate: Fate)
    requires s.bodies.Keys == s.segments.Keys
    ensures Grows(s, Insert(s, hash, u, fate))
  {
  }

  lemma StepGrows(s: State, hash: Hash, step: Step)
    requires s.bodies.Keys == s.segments.Keys
    ensures Grows(s, Next(s, hash, step))
  {
    hide MissingBelow, BytesBelow, Insert, Referenced, Takes, KeyOf;
    if step.InsertIt? { InsertGrows(s, hash, step.u, step.fate); }
  }

  lemma {:induction false} BelowGrows(s: State, t: State, r: Id, n: nat)
    requires Grows(s, t) && MissingBelow(s, r, n) == []
    ensures MissingBelow(t, r, n) == [] && BytesBelow(t, r, n) == BytesBelow(s, r, n)
  {
    if n > 0 { BelowGrows(s, t, r, n - 1); }
  }

  lemma ManifestStays(s: State, t: State, r: Id)
    requires Grows(s, t) && r in s.recordings && ManifestHolds(s, r) && s.recordings[r].status.Complete?
    ensures ManifestHolds(t, r)
  {
    BelowGrows(s, t, r, s.recordings[r].status.expected.segments);
  }

  lemma ClosedManifestHolds(s: State, r: Id, manifest: S.Totals)
    requires CloseReplyTo(s, r, manifest).Completed? && ManifestHolds(s, r)
    ensures ManifestHolds(Close(s, r, manifest), r)
  {
    BelowGrows(s, Close(s, r, manifest), r, manifest.segments);
  }

  /** Only a close completes a recording. */
  lemma OnlyACloseCompletes(s: State, hash: Hash, step: Step, r: Id)
    requires r in Next(s, hash, step).recordings && Next(s, hash, step).recordings[r].status.Complete?
    requires r in s.recordings ==> !s.recordings[r].status.Complete?
    ensures step.CloseIt? && step.r == r && CloseReplyTo(s, r, step.manifest).Completed?
    ensures Next(s, hash, step) == Close(s, r, step.manifest)
  {
    hide CloseReplyTo, Referenced, Takes, KeyOf;
  }

  lemma StepKeepsManifests(s: State, hash: Hash, step: Step, r: Id)
    requires Sound(s, hash) && r in Next(s, hash, step).recordings
    ensures ManifestHolds(Next(s, hash, step), r)
  {
    hide Next, Close, CloseReplyTo, MissingBelow, BytesBelow, RowSound, Grows, UploadsSound, OnePerCall;
    var t := Next(s, hash, step);
    if t.recordings[r].status.Complete? {
      StepGrows(s, hash, step);
      if r in s.recordings && s.recordings[r].status.Complete? {
        ManifestStays(s, t, r);
      } else {
        OnlyACloseCompletes(s, hash, step, r);
        CloseFindsARecording(s, r, step.manifest);
        ClosedManifestHolds(s, r, step.manifest);
      }
    }
  }

  lemma CloseFindsARecording(s: State, r: Id, manifest: S.Totals)
    requires CloseReplyTo(s, r, manifest).Completed?
    ensures r in s.recordings
  {
  }

  lemma InsertKeepsRows(s: State, hash: Hash, u: nat, fate: Fate)
    requires RowsSound(s, hash) && UploadsSound(s)
    ensures RowsSound(Insert(s, hash, u, fate), hash) && UploadsSound(Insert(s, hash, u, fate))
  {
    forall k | k in s.segments ensures RowSound(s, hash, k) {}
  }

  /** New requests, blobs and statuses leave the rows alone. */
  lemma SameRowsKept(s: State, t: State, hash: Hash)
    requires RowsSound(s, hash) && t.segments == s.segments && t.bodies == s.bodies
    requires s.recordings.Keys <= t.recordings.Keys
    ensures RowsSound(t, hash)
  {
    forall k | k in s.segments ensures RowSound(t, hash, k) { assert RowSound(s, hash, k); }
  }

  lemma OthersKeepUploads(s: State, hash: Hash, step: Step)
    requires UploadsSound(s) && !step.InsertIt?
    ensures
      var t := Next(s, hash, step);
      && UploadsSound(t) && t.segments == s.segments && t.bodies == s.bodies
      && s.recordings.Keys <= t.recordings.Keys
  {
    hide CloseReplyTo, Insert, Referenced, KeyOf;
  }

  lemma OthersKeepRows(s: State, hash: Hash, step: Step)
    requires RowsSound(s, hash) && UploadsSound(s) && !step.InsertIt?
    ensures RowsSound(Next(s, hash, step), hash) && UploadsSound(Next(s, hash, step))
  {
    hide Next, RowsSound, UploadsSound;
    OthersKeepUploads(s, hash, step);
    SameRowsKept(s, Next(s, hash, step), hash);
  }

  lemma CallsKept(s: State, hash: Hash, step: Step)
    requires OnePerCall(s)
    ensures OnePerCall(Next(s, hash, step))
  {
    hide MissingBelow, BytesBelow, Referenced, KeyOf, Takes;
  }

  lemma StepKeeps(s: State, hash: Hash, step: Step)
    requires Sound(s, hash)
    ensures Sound(Next(s, hash, step), hash)
  {
    hide Next, RowsSound, UploadsSound, OnePerCall, ManifestHolds;
    forall r | r in Next(s, hash, step).recordings ensures ManifestHolds(Next(s, hash, step), r) {
      StepKeepsManifests(s, hash, step, r);
    }
    if step.InsertIt? {
      InsertIsNext(s, hash, step);
      InsertKeepsRows(s, hash, step.u, step.fate);
    } else {
      OthersKeepRows(s, hash, step);
    }
    CallsKept(s, hash, step);
  }

  lemma InsertIsNext(s: State, hash: Hash, step: Step)
    requires step.InsertIt?
    ensures Next(s, hash, step) == Insert(s, hash, step.u, step.fate)
  {
    hide Insert;
  }

  lemma {:induction false} RunKeeps(s: State, hash: Hash, steps: seq<Step>)
    requires Sound(s, hash)
    ensures Sound(Run(s, hash, steps), hash) && Grows(s, Run(s, hash, steps))
    decreases |steps|
  {
    hide Next, ManifestHolds, RowSound, UploadsSound, OnePerCall;
    if steps != [] {
      var t := Next(s, hash, steps[0]);
      StepKeeps(s, hash, steps[0]);
      StepGrows(s, hash, steps[0]);
      RunKeeps(t, hash, steps[1..]);
      GrowsTransitive(s, t, Run(t, hash, steps[1..]));
    }
  }

  lemma GrowsTransitive(a: State, b: State, c: State)
    requires Grows(a, b) && Grows(b, c)
    ensures Grows(a, c)
  {
  }

  lemma NothingSound(hash: Hash)
    ensures Sound(NOTHING, hash)
  {
  }

  // ----- the extension may believe what it is told -----

  lemma {:induction false} SizesAddUp(s: State, hash: Hash, r: Id, n: nat)
    requires RowsSound(s, hash) && MissingBelow(s, r, n) == []
    ensures Protocol.SizeBelow(s.bodies, r, n) == BytesBelow(s, r, n)
    ensures forall i: nat :: i < n ==> (r, i) in s.bodies
  {
    if n > 0 {
      SizesAddUp(s, hash, r, n - 1);
      assert (r, n - 1) in s.segments && RowSound(s, hash, (r, n - 1));
    }
  }

  lemma HeldManifest(s: State, hash: Hash, r: Id)
    requires RowsSound(s, hash) && r in s.recordings && ManifestHolds(s, r) && s.recordings[r].status.Complete?
    ensures Protocol.Holds(s.bodies, r, s.recordings[r].status.expected)
  {
    SizesAddUp(s, hash, r, s.recordings[r].status.expected.segments);
  }

  /**
   * A close that was answered `complete`, the first time or again, names its own manifest, and the
   * server holds those segments then and ever after: the promise that the outbox relies on.
   */
  lemma CompleteIsTruthful(hash: Hash, steps: seq<Step>, r: Id, manifest: S.Totals, later: seq<Step>)
    requires CloseReplyTo(Run(NOTHING, hash, steps), r, manifest).Completed?
    ensures
      var s := Run(NOTHING, hash, steps);
      && CloseReplyTo(s, r, manifest) == Completed(manifest)
      && Protocol.Holds(Run(Close(s, r, manifest), hash, later).bodies, r, manifest)
      && CloseReplyTo(Run(Close(s, r, manifest), hash, later), r, manifest) == Completed(manifest)
  {
    hide Run, MissingBelow, BytesBelow, RowSound, UploadsSound, OnePerCall, Protocol.Holds;
    NothingSound(hash);
    RunKeeps(NOTHING, hash, steps);
    var s := Run(NOTHING, hash, steps);
    var closed := Close(s, r, manifest);
    StepKeeps(s, hash, CloseIt(r, manifest));
    RunKeeps(closed, hash, later);
    HeldManifest(Run(closed, hash, later), hash, r);
  }

  /** A call has one recording, whatever repeats and races: every create of it finds the first. */
  lemma OneRecordingPerCall(hash: Hash, steps: seq<Step>, later: seq<Step>, q: Id, r: Id)
    requires q in Run(NOTHING, hash, steps).recordings && r in Run(Run(NOTHING, hash, steps), hash, later).recordings
    requires Run(NOTHING, hash, steps).recordings[q].callId
             == Run(Run(NOTHING, hash, steps), hash, later).recordings[r].callId
    ensures q == r
  {
    hide Run, MissingBelow, BytesBelow, RowsSound, UploadsSound, ManifestHolds;
    NothingSound(hash);
    RunKeeps(NOTHING, hash, steps);
    RunKeeps(Run(NOTHING, hash, steps), hash, later);
  }

  /** `missing` lists exactly the absent segments of the manifest, and changes nothing. */
  lemma MissingIsTruthful(s: State, r: Id, manifest: S.Totals)
    requires CloseReplyTo(s, r, manifest).Missing?
    ensures forall i: nat :: i in CloseReplyTo(s, r, manifest).seqNos <==> i < manifest.segments && (r, i) !in s.segments
    ensures Close(s, r, manifest) == s
  {
    MissingIsExact(s, r, manifest.segments);
  }

  /** The first bytes of a segment stay, whatever arrives later. */
  lemma FirstBytesStay(hash: Hash, steps: seq<Step>, later: seq<Step>, k: ChunkKey)
    requires k in Run(NOTHING, hash, steps).segments
    ensures
      var s, t := Run(NOTHING, hash, steps), Run(Run(NOTHING, hash, steps), hash, later);
      && k in s.bodies && k in t.segments && t.segments[k] == s.segments[k]
      && k in t.bodies && t.bodies[k] == s.bodies[k]
  {
    hide Run, MissingBelow, BytesBelow, UploadsSound, OnePerCall;
    NothingSound(hash);
    RunKeeps(NOTHING, hash, steps);
    RunKeeps(Run(NOTHING, hash, steps), hash, later);
  }

  // ----- the bytes behind the rows -----

  /** Every stored row has its bytes, and so has every upload that is about to insert one. */
  ghost predicate BlobsPresent(s: State, hash: Hash) {
    && (forall k :: k in s.segments && k in s.bodies ==>
          (k.0, k.1, s.segments[k].hash) in s.blobs && s.blobs[(k.0, k.1, s.segments[k].hash)] == s.bodies[k])
    && (forall u :: At(s, u, Inserting) ==>
          KeyOf(hash, s.uploads[u]) in s.blobs && s.blobs[KeyOf(hash, s.uploads[u])] == s.uploads[u].body)
  }

  /** A failed upload is about to delete a blob that a row, or another upload of the same bytes, counts on. */
  predicate DeletesNeeded(s: State, hash: Hash, step: Step) {
    && step.DeleteIt? && At(s, step.u, Deleting)
    && var key := KeyOf(hash, s.uploads[step.u]);
       Referenced(s, key) || exists v :: v in s.uploads && At(s, v, Inserting) && KeyOf(hash, s.uploads[v]) == key
  }

  lemma PutKeepsBlobs(s: State, hash: Hash, u: nat)
    requires CollisionFree(hash) && RowsSound(s, hash) && BlobsPresent(s, hash)
    ensures BlobsPresent(PutBlob(s, hash, u), hash)
  {
    forall k | k in s.segments ensures RowSound(s, hash, k) {}
  }

  lemma InsertKeepsBlobs(s: State, hash: Hash, u: nat, fate: Fate)
    requires BlobsPresent(s, hash)
    ensures BlobsPresent(Insert(s, hash, u, fate), hash)
  {
  }

  lemma DeleteKeepsBlobsExactlyWhen(s: State, hash: Hash, u: nat)
    requires RowsSound(s, hash) && BlobsPresent(s, hash)
    ensures BlobsPresent(DeleteBlob(s, hash, u), hash) <==> !DeletesNeeded(s, hash, DeleteIt(u))
  {
    if At(s, u, Deleting) {
      var t, key := DeleteBlob(s, hash, u), KeyOf(hash, s.uploads[u]);
      if Referenced(s, key) {
        assert RowSound(s, hash, (key.0, key.1));
        assert (key.0, key.1) in t.segments && key !in t.blobs;
      }
      if v :| v in s.uploads && At(s, v, Inserting) && KeyOf(hash, s.uploads[v]) == key {
        assert At(t, v, Inserting) && KeyOf(hash, t.uploads[v]) !in t.blobs;
      }
      if !DeletesNeeded(s, hash, DeleteIt(u)) {
        forall v | At(t, v, Inserting) ensures KeyOf(hash, t.uploads[v]) in t.blobs { assert At(s, v, Inserting); }
      }
    }
  }

  /** No other step touches rows or blobs, or brings an upload to its insert. */
  lemma OthersTouchNoBlob(s: State, hash: Hash, step: Step)
    requires !step.PutIt? && !step.InsertIt? && !step.DeleteIt?
    ensures
      var t := Next(s, hash, step);
      && t.segments == s.segments && t.bodies == s.bodies && t.blobs == s.blobs
      && (forall v :: At(t, v, Inserting) ==> At(s, v, Inserting) && t.uploads[v] == s.uploads[v])
  {
    hide CloseReplyTo, PutBlob, Insert, DeleteBlob, Takes, Referenced, KeyOf;
  }

  lemma OthersKeepBlobs(s: State, hash: Hash, step: Step)
    requires BlobsPresent(s, hash) && !step.PutIt? && !step.InsertIt? && !step.DeleteIt?
    ensures BlobsPresent(Next(s, hash, step), hash)
  {
    hide Next, KeyOf;
    OthersTouchNoBlob(s, hash, step);
  }

  /** A step loses stored bytes exactly when it is such a delete. */
  lemma StepKeepsBlobsExactlyWhen(s: State, hash: Hash, step: Step)
    requires CollisionFree(hash) && RowsSound(s, hash) && BlobsPresent(s, hash)
    ensures BlobsPresent(Next(s, hash, step), hash) <==> !DeletesNeeded(s, hash, step)
  {
    hide BlobsPresent, RowsSound, Insert, PutBlob, DeleteBlob, CollisionFree;
    if step.PutIt? {
      PutKeepsBlobs(s, hash, step.u);
    } else if step.InsertIt? {
      InsertKeepsBlobs(s, hash, step.u, step.fate);
    } else if step.DeleteIt? {
      DeleteKeepsBlobsExactlyWhen(s, hash, step.u);
    } else {
      OthersKeepBlobs(s, hash, step);
    }
  }

  predicate NoNeededDelete(s: State, hash: Hash, steps: seq<Step>)
    decreases |steps|
  {
    steps != [] ==> !DeletesNeeded(s, hash, steps[0]) && NoNeededDelete(Next(s, hash, steps[0]), hash, steps[1..])
  }

  lemma {:induction false} RunKeepsBlobs(s: State, hash: Hash, steps: seq<Step>)
    requires CollisionFree(hash) && Sound(s, hash) && BlobsPresent(s, hash) && NoNeededDelete(s, hash, steps)
    ensures BlobsPresent(Run(s, hash, steps), hash)
    decreases |steps|
  {
    hide Next, BlobsPresent, CollisionFree, RowsSound, UploadsSound, OnePerCall, ManifestHolds, DeletesNeeded;
    if steps != [] {
      StepKeepsBlobsExactlyWhen(s, hash, steps[0]);
      StepKeeps(s, hash, steps[0]);
      RunKeepsBlobs(Next(s, hash, steps[0]), hash, steps[1..]);
    }
  }

  /** While no such delete happens, every segment that is listed has exactly the bytes that were taken. */
  lemma StoredSegmentsHaveTheirBytes(hash: Hash, steps: seq<Step>, k: ChunkKey)
    requires CollisionFree(hash) && NoNeededDelete(NOTHING, hash, steps)
    requires k in Run(NOTHING, hash, steps).segments
    ensures
      var s := Run(NOTHING, hash, steps);
      var key := (k.0, k.1, s.segments[k].hash);
      key in s.blobs && hash(s.blobs[key]) == s.segments[k].hash && |s.blobs[key]| == s.segments[k].size
  {
    hide Run, MissingBelow, BytesBelow, UploadsSound, OnePerCall, CollisionFree, NoNeededDelete;
    NothingSound(hash);
    RunKeeps(NOTHING, hash, steps);
    RunKeepsBlobs(NOTHING, hash, steps);
    assert RowSound(Run(NOTHING, hash, steps), hash, k);
  }

  // ----- one upload of the same bytes at a time -----

  /** No upload that is under way is of the same bytes for the same segment. */
  predicate Alone(s: State, hash: Hash, step: Step) {
    step.ArriveIt? ==>
      forall v :: v in s.uploads ==> KeyOf(hash, s.uploads[v]) != (step.r, step.seqNo, hash(step.body))
  }

  /** Every upload of the run is let in only then; it may be repeated once the earlier one is over. */
  predicate OneAtATime(s: State, hash: Hash, steps: seq<Step>)
    decreases |steps|
  {
    steps != [] ==> Alone(s, hash, steps[0]) && OneAtATime(Next(s, hash, steps[0]), hash, steps[1..])
  }

  ghost predicate KeysApart(s: State, hash: Hash) {
    && (forall u, v :: u in s.uploads && v in s.uploads && KeyOf(hash, s.uploads[u]) == KeyOf(hash, s.uploads[v]) ==> u == v)
    && (forall u :: At(s, u, Deleting) ==> !Referenced(s, KeyOf(hash, s.uploads[u])))
  }

  lemma InsertStaysApart(s: State, hash: Hash, u: nat, fate: Fate)
    requires KeysApart(s, hash)
    ensures KeysApart(Insert(s, hash, u, fate), hash)
  {
    hide Insert, KeyOf;
    InsertLeavesKeys(s, hash, u, fate);
    InsertReferences(s, hash, u, fate);
    var t := Insert(s, hash, u, fate);
    forall v | At(t, v, Deleting) ensures !Referenced(t, KeyOf(hash, t.uploads[v])) { assert At(s, v, Deleting); }
  }

  lemma InsertLeavesKeys(s: State, hash: Hash, u: nat, fate: Fate)
    ensures
      var t := Insert(s, hash, u, fate);
      && (forall v :: v in t.uploads ==> v in s.uploads && KeyOf(hash, t.uploads[v]) == KeyOf(hash, s.uploads[v]))
      && (forall v :: At(t, v, Deleting) ==> At(s, v, Deleting))
  {
    hide Referenced;
  }

  /** Only the insert's own blob comes to be referenced. */
  lemma InsertReferences(s: State, hash: Hash, u: nat, fate: Fate)
    ensures
      var t := Insert(s, hash, u, fate);
      forall key :: Referenced(t, key) && !Referenced(s, key) ==> At(s, u, Inserting) && key == KeyOf(hash, s.uploads[u])
  {
  }

  lemma ArriveStaysApart(s: State, hash: Hash, u: nat, r: Id, seqNo: nat, body: Blob)
    requires KeysApart(s, hash) && Alone(s, hash, ArriveIt(u, r, seqNo, body))
    ensures KeysApart(Arrive(s, u, r, seqNo, body), hash)
  {
    hide Takes;
    var t := Arrive(s, u, r, seqNo, body);
    forall v | At(t, v, Deleting) ensures !Referenced(t, KeyOf(hash, t.uploads[v])) { assert At(s, v, Deleting); }
  }

  lemma PutStaysApart(s: State, hash: Hash, u: nat)
    requires KeysApart(s, hash)
    ensures KeysApart(PutBlob(s, hash, u), hash)
  {
    var t := PutBlob(s, hash, u);
    forall v | At(t, v, Deleting) ensures !Referenced(t, KeyOf(hash, t.uploads[v])) { assert At(s, v, Deleting); }
  }

  lemma RecheckStaysApart(s: State, hash: Hash, u: nat)
    requires KeysApart(s, hash)
    ensures KeysApart(Recheck(s, hash, u), hash)
  {
    var t := Recheck(s, hash, u);
    forall v | At(t, v, Deleting) ensures !Referenced(t, KeyOf(hash, t.uploads[v])) {
      assert v != u ==> At(s, v, Deleting);
    }
  }

  lemma DeleteStaysApart(s: State, hash: Hash, u: nat)
    requires KeysApart(s, hash)
    ensures KeysApart(DeleteBlob(s, hash, u), hash)
  {
    var t := DeleteBlob(s, hash, u);
    forall v | At(t, v, Deleting) ensures !Referenced(t, KeyOf(hash, t.uploads[v])) { assert At(s, v, Deleting); }
  }

  lemma StepStaysApart(s: State, hash: Hash, step: Step)
    requires KeysApart(s, hash) && Alone(s, hash, step)
    ensures KeysApart(Next(s, hash, step), hash)
  {
    hide KeysApart, Insert, CloseReplyTo, PutBlob, Recheck, DeleteBlob, Arrive, Alone;
    match step
    case ArriveIt(u, r, seqNo, body) => ArriveStaysApart(s, hash, u, r, seqNo, body);
    case PutIt(u) => PutStaysApart(s, hash, u);
    case InsertIt(u, fate) => InsertStaysApart(s, hash, u, fate);
    case RecheckIt(u) => RecheckStaysApart(s, hash, u);
    case DeleteIt(u) => DeleteStaysApart(s, hash, u);
    case _ => FewerUploads(s, Next(s, hash, step), hash);
  }

  lemma FewerUploads(s: State, t: State, hash: Hash)
    requires KeysApart(s, hash) && t.segments == s.segments && (t.uploads == s.uploads || t.uploads == map[])
    ensures KeysApart(t, hash)
  {
    forall v | At(t, v, Deleting) ensures !Referenced(t, KeyOf(hash, t.uploads[v])) { assert At(s, v, Deleting); }
  }

  /** So a failed upload never deletes bytes that anything counts on. */
  lemma {:induction false} OneAtATimeIsSafe(s: State, hash: Hash, steps: seq<Step>)
    requires KeysApart(s, hash) && OneAtATime(s, hash, steps)
    ensures NoNeededDelete(s, hash, steps)
    decreases |steps|
  {
    hide Next, Referenced, KeyOf, Alone;
    if steps != [] {
      StepStaysApart(s, hash, steps[0]);
      OneAtATimeIsSafe(Next(s, hash, steps[0]), hash, steps[1..]);
    }
  }

  /** With one upload of the same bytes at a time, every segment that is listed has exactly the bytes that were taken. */
  lemma OneAtATimeKeepsBytes(hash: Hash, steps: seq<Step>, k: ChunkKey)
    requires CollisionFree(hash) && OneAtATime(NOTHING, hash, steps)
    requires k in Run(NOTHING, hash, steps).segments
    ensures
      var s := Run(NOTHING, hash, steps);
      var key := (k.0, k.1, s.segments[k].hash);
      key in s.blobs && hash(s.blobs[key]) == s.segments[k].hash && |s.blobs[key]| == s.segments[k].size
  {
    hide Run, CollisionFree, NoNeededDelete, OneAtATime;
    OneAtATimeIsSafe(NOTHING, hash, steps);
    StoredSegmentsHaveTheirBytes(hash, steps, k);
  }

  // ----- two uploads of the same bytes, one of which fails -----

  lemma {:induction false} RunSplits(s: State, hash: Hash, a: seq<Step>, b: seq<Step>)
    ensures Run(s, hash, a + b) == Run(Run(s, hash, a), hash, b)
    decreases |a|
  {
    hide Next;
    if a == [] {
      assert a + b == b;
    } else {
      assert (a + b)[1..] == a[1..] + b;
      RunSplits(Next(s, hash, a[0]), hash, a[1..], b);
    }
  }

  lemma ThreeSteps(s: State, hash: Hash, a: Step, b: Step, c: Step)
    ensures Run(s, hash, [a, b, c]) == Next(Next(Next(s, hash, a), hash, b), hash, c)
  {
    hide Next;
    RunsFirst(s, hash, a, [b, c]);
    RunsFirst(Next(s, hash, a), hash, b, [c]);
    RunsFirst(Next(Next(s, hash, a), hash, b), hash, c, []);
  }

  lemma RunsFirst(s: State, hash: Hash, step: Step, rest: seq<Step>)
    ensures Run(s, hash, [step] + rest) == Run(Next(s, hash, step), hash, rest)
    ensures rest == [] ==> Run(s, hash, [step] + rest) == Next(s, hash, step)
  {
    hide Next;
    assert ([step] + rest)[1..] == rest;
  }

  lemma UploadSteps(s: State, hash: Hash, u: nat, fate: Fate)
    ensures Next(s, hash, PutIt(u)) == PutBlob(s, hash, u) && Next(s, hash, InsertIt(u, fate)) == Insert(s, hash, u, fate)
    ensures Next(s, hash, RecheckIt(u)) == Recheck(s, hash, u) && Next(s, hash, DeleteIt(u)) == DeleteBlob(s, hash, u)
  {
    hide PutBlob, Insert, Recheck, DeleteBlob;
  }

  /** A recording with two uploads of the same bytes for its first segment, neither of which has found a row. */
  ghost predicate TwoUploads(s: State, r: Id, body: Blob) {
    && r in s.recordings && s.recordings[r].status.Open? && body != []
    && s.segments == map[] && s.bodies == map[] && s.blobs == map[]
    && s.uploads == map[0 := Upload(r, 0, body, Putting), 1 := Upload(r, 0, body, Putting)]
  }

  /** The first upload fails before its insert, the second has put the same bytes, and no row is there yet. */
  lemma RaceFails(hash: Hash, s: State, r: Id, body: Blob) returns (t: State)
    requires TwoUploads(s, r, body)
    ensures t == Run(s, hash, [PutIt(0), PutIt(1), InsertIt(0, Throws)])
    ensures t.recordings == s.recordings && t.segments == map[] && t.bodies == map[]
    ensures t.blobs == map[(r, 0, hash(body)) := body]
    ensures t.uploads == map[0 := Upload(r, 0, body, Discarding), 1 := Upload(r, 0, body, Inserting)]
  {
    hide Next, Run;
    var a := PutBlob(s, hash, 0);
    var b := PutBlob(a, hash, 1);
    t := Insert(b, hash, 0, Throws);
    UploadSteps(s, hash, 0, Throws);
    UploadSteps(a, hash, 1, Throws);
    UploadSteps(b, hash, 0, Throws);
    ThreeSteps(s, hash, PutIt(0), PutIt(1), InsertIt(0, Throws));
  }

  /**
   * The first upload's insert fails and its lookup finds no row; then the second one inserts, and the first
   * deletes. The server lists the segment and answers `complete`, and its bytes are gone.
   */
  lemma RaceLosesBytes(hash: Hash, s: State, r: Id, body: Blob)
    requires TwoUploads(s, r, body)
    ensures
      var race := [PutIt(0), PutIt(1), InsertIt(0, Throws)] + [RecheckIt(0), InsertIt(1, Commits), DeleteIt(0)];
      var t := Run(s, hash, race);
      && (r, 0) in t.segments && t.blobs == map[]
      && CloseReplyTo(t, r, S.Totals(1, |body|)) == Completed(S.Totals(1, |body|))
  {
    hide Next, Run;
    var c := RaceFails(hash, s, r, body);
    var d := Recheck(c, hash, 0);
    var e := Insert(d, hash, 1, Commits);
    var f := DeleteBlob(e, hash, 0);
    UploadSteps(c, hash, 0, Commits);
    UploadSteps(d, hash, 1, Commits);
    UploadSteps(e, hash, 0, Commits);
    ThreeSteps(c, hash, RecheckIt(0), InsertIt(1, Commits), DeleteIt(0));
    RunSplits(s, hash, [PutIt(0), PutIt(1), InsertIt(0, Throws)], [RecheckIt(0), InsertIt(1, Commits), DeleteIt(0)]);
    hide PutBlob, Insert, Recheck, DeleteBlob;
    RaceEnds(hash, c, r, body);
    OneSegment(f, r, |body|);
  }

  lemma RaceEnds(hash: Hash, c: State, r: Id, body: Blob)
    requires r in c.recordings && !c.recordings[r].status.Complete? && c.segments == map[]
    requires c.blobs == map[(r, 0, hash(body)) := body]
    requires c.uploads == map[0 := Upload(r, 0, body, Discarding), 1 := Upload(r, 0, body, Inserting)]
    ensures
      var f := DeleteBlob(Insert(Recheck(c, hash, 0), hash, 1, Commits), hash, 0);
      && f.segments == map[(r, 0) := SegmentRow(|body|, hash(body))] && f.blobs == map[] && f.recordings == c.recordings
  {
  }

  lemma OneSegment(s: State, r: Id, size: nat)
    requires r in s.recordings && s.recordings[r].status.Open?
    requires (r, 0) in s.segments && s.segments[(r, 0)].size == size
    ensures CloseReplyTo(s, r, S.Totals(1, size)) == Completed(S.Totals(1, size))
  {
    assert MissingBelow(s, r, 0) == [] && BytesBelow(s, r, 0) == 0;
    assert MissingBelow(s, r, 1) == [] && BytesBelow(s, r, 1) == size;
  }

  /** Two such uploads are what a repeated request makes. */
  lemma RepeatedRequestsRace(hash: Hash, callId: Id, r: Id, body: Blob)
    requires 0 < |body| <= SEGMENT_MAX_BYTES
    ensures TwoUploads(Run(NOTHING, hash, [CreateIt(callId, r), ArriveIt(0, r, 0, body), ArriveIt(1, r, 0, body)]), r, body)
  {
    ThreeSteps(NOTHING, hash, CreateIt(callId, r), ArriveIt(0, r, 0, body), ArriveIt(1, r, 0, body));
    var a := Create(NOTHING, callId, r);
    var b := Arrive(a, 0, r, 0, body);
    assert Next(NOTHING, hash, CreateIt(callId, r)) == a;
    assert Next(a, hash, ArriveIt(0, r, 0, body)) == b;
    assert Next(b, hash, ArriveIt(1, r, 0, body)) == Arrive(b, 1, r, 0, body);
  }
}
