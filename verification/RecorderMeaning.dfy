/** What a recorder leaves behind, said of what happened to it. */
module RecorderMeaning {
  import opened Domain
  import S = Store
  import Protocol
  import opened Offscreen

  // ----- the audio -----

  /** The data with audio in it, in order; each starts where the one before ended. */
  function Heard(happenings: seq<Happening>, from: Time): seq<(Blob, Time)>
    decreases |happenings|
  {
    if happenings == [] then []
    else if happenings[0].Data? && happenings[0].blob != [] then
      [(happenings[0].blob, from)] + Heard(happenings[1..], happenings[0].now)
    else Heard(happenings[1..], from)
  }

  /** The writes up to the first one that fails. */
  function GoodWrites(happenings: seq<Happening>): nat
    decreases |happenings|
  {
    if happenings == [] then 0
    else if !happenings[0].Write? then GoodWrites(happenings[1..])
    else if happenings[0].ok then 1 + GoodWrites(happenings[1..])
    else 0
  }

  /** The chunks of `r` are numbered 0 to n-1. */
  ghost predicate HasChunks(db: Db, r: Id, n: nat) {
    forall i: nat :: (r, i) in db.chunks <==> i < n
  }

  ghost predicate ChunkIs(db: Db, r: Id, i: nat, heard: (Blob, Time)) {
    (r, i) in db.chunks && db.chunks[(r, i)] == ChunkRow(heard.0, |heard.0|, heard.1)
  }

  lemma PlayedChunks(dev: Device, h: Happening, rest: seq<Happening>)
    requires dev.recorder.recording.Some? && Due(dev.recorder, h)
    requires HasChunks(dev.db, dev.recorder.recording.value, dev.recorder.nextSeq)
    ensures
      var r, next := dev.recorder.recording.value, Played(dev, h);
      var list, after := dev.recorder.pending + Heard([h] + rest, dev.chunkStartedAt),
                         next.recorder.pending + Heard(rest, next.chunkStartedAt);
      && HasChunks(next.db, r, next.recorder.nextSeq)
      && (next.recorder.writeFailed <==> dev.recorder.writeFailed || (h.Write? && !h.ok))
      && (if h.Write? then |list| > 0 && after == list[1..] else after == list)
      && (if h.Write? && h.ok && !dev.recorder.writeFailed
          then next.recorder.nextSeq == dev.recorder.nextSeq + 1 && ChunkIs(next.db, r, dev.recorder.nextSeq, list[0])
          else next.recorder.nextSeq == dev.recorder.nextSeq)
      && (forall i: nat :: i < dev.recorder.nextSeq ==> next.db.chunks[(r, i)] == dev.db.chunks[(r, i)])
  {
    assert ([h] + rest)[1..] == rest;
    var pending := dev.recorder.pending;
    if h.Data? && h.blob != [] {
      assert pending + ([(h.blob, dev.chunkStartedAt)] + Heard(rest, h.now))
             == pending + [(h.blob, dev.chunkStartedAt)] + Heard(rest, h.now);
    }
  }

  /** From wherever a recorder stands, the writes that succeed store what waits and what is heard, in order. */
  lemma {:induction false} StoresInOrder(dev: Device, happenings: seq<Happening>)
    requires dev.recorder.recording.Some? && AllDue(dev, happenings)
    requires HasChunks(dev.db, dev.recorder.recording.value, dev.recorder.nextSeq)
    ensures
      var r, k, after := dev.recorder.recording.value, dev.recorder.nextSeq, PlayedAll(dev, happenings);
      var list := dev.recorder.pending + Heard(happenings, dev.chunkStartedAt);
      var n := if dev.recorder.writeFailed then 0 else GoodWrites(happenings);
      && n <= |list| && HasChunks(after.db, r, k + n)
      && (forall i: nat :: i < k ==> after.db.chunks[(r, i)] == dev.db.chunks[(r, i)])
      && (forall i: nat :: i < n ==> ChunkIs(after.db, r, k + i, list[i]))
    decreases |happenings|
  {
    hide Played, Due, Heard;
    if happenings == [] {
    } else {
      var h, rest := happenings[0], happenings[1..];
      assert happenings == [h] + rest;
      PlayedChunks(dev, h, rest);
      var next := Played(dev, h);
      StoresInOrder(next, rest);
      var r, k, after := dev.recorder.recording.value, dev.recorder.nextSeq, PlayedAll(dev, happenings);
      var list := dev.recorder.pending + Heard(happenings, dev.chunkStartedAt);
      var n := if dev.recorder.writeFailed then 0 else GoodWrites(happenings);
      forall i: nat | i < n ensures ChunkIs(after.db, r, k + i, list[i]) {
        if next.recorder.nextSeq == k + 1 {
          if i > 0 { assert ChunkIs(after.db, r, k + 1 + (i - 1), list[1..][i - 1]); }
        } else {
          assert ChunkIs(after.db, r, k + i, list[i]);
        }
      }
    }
  }

  /** A recorder that has just begun. */
  ghost predicate Fresh(dev: Device) {
    && dev.recorder == Protocol.Recorder(dev.recorder.callId, dev.recorder.recording, 0, [], false, false, false, false)
    && dev.recorder.recording.Some? && HasChunks(dev.db, dev.recorder.recording.value, 0)
  }

  /** From its start, a recorder stores what it heard, chunk by chunk, up to the first write that fails. */
  lemma StoresWhatItHeard(dev: Device, happenings: seq<Happening>)
    requires Fresh(dev) && AllDue(dev, happenings)
    ensures
      var r, heard, n := dev.recorder.recording.value, Heard(happenings, dev.chunkStartedAt), GoodWrites(happenings);
      var after := PlayedAll(dev, happenings);
      && n <= |heard|
      && (forall i: nat :: (r, i) in after.db.chunks <==> i < n)
      && (forall i: nat :: i < n ==> after.db.chunks[(r, i)] == ChunkRow(heard[i].0, |heard[i].0|, heard[i].1))
  {
    hide PlayedAll, AllDue;
    StoresInOrder(dev, happenings);
    assert dev.recorder.pending + Heard(happenings, dev.chunkStartedAt) == Heard(happenings, dev.chunkStartedAt);
    var r, heard, n := dev.recorder.recording.value, Heard(happenings, dev.chunkStartedAt), GoodWrites(happenings);
    forall i: nat | i < n ensures ChunkIs(PlayedAll(dev, happenings).db, r, i, heard[i]) {
      assert ChunkIs(PlayedAll(dev, happenings).db, r, 0 + i, heard[i]);
    }
  }

  // ----- the close -----

  /** An interruption, or the first write that fails. */
  predicate Interrupts(happenings: seq<Happening>, i: nat)
    requires i < |happenings|
  {
    || happenings[i].Interruption?
    || (happenings[i].Write? && !happenings[i].ok && forall j :: 0 <= j < i ==> happenings[j].Write? ==> happenings[j].ok)
  }

  /** A stop was asked for, and nothing interrupted the recording after that. */
  predicate StoppedOnRequest(happenings: seq<Happening>) {
    exists i :: 0 <= i < |happenings| && happenings[i].StopAsked?
      && forall j :: i < j < |happenings| ==> !Interrupts(happenings, j)
  }

  lemma {:induction false} PlayedLast(dev: Device, happenings: seq<Happening>, h: Happening)
    requires dev.recorder.recording.Some? && AllDue(dev, happenings + [h])
    ensures AllDue(dev, happenings) && Due(PlayedAll(dev, happenings).recorder, h)
    ensures PlayedAll(dev, happenings).recorder.recording == dev.recorder.recording
    ensures PlayedAll(dev, happenings + [h]) == Played(PlayedAll(dev, happenings), h)
    decreases |happenings|
  {
    hide Played, Due;
    if happenings == [] {
      assert ([h])[1..] == [];
      assert happenings + [h] == [h];
    } else {
      assert (happenings + [h])[0] == happenings[0] && (happenings + [h])[1..] == happenings[1..] + [h];
      PlayedLast(Played(dev, happenings[0]), happenings[1..], h);
    }
  }

  /** What one more happening does to the two flags, and that only a close touches the recording's row. */
  lemma PlayedFlags(dev: Device, h: Happening)
    requires dev.recorder.recording.Some? && Due(dev.recorder, h)
    ensures
      var next := Played(dev, h);
      && (next.recorder.writeFailed <==> dev.recorder.writeFailed || (h.Write? && !h.ok))
      && (next.recorder.stopRequested
          <==> h.StopAsked? || (dev.recorder.stopRequested && !h.Interruption?
                                && !(h.Write? && !h.ok && !dev.recorder.writeFailed)))
      && (!h.Closed? ==> next.db.recordings == dev.db.recordings && next.recorder.finished == dev.recorder.finished)
  {
  }

  lemma {:induction false} FlagsAfter(dev: Device, happenings: seq<Happening>)
    requires Fresh(dev) && AllDue(dev, happenings)
    ensures
      var after := PlayedAll(dev, happenings);
      && (after.recorder.writeFailed <==> exists j :: 0 <= j < |happenings| && happenings[j].Write? && !happenings[j].ok)
      && (after.recorder.stopRequested <==> StoppedOnRequest(happenings))
      && ((forall j :: 0 <= j < |happenings| ==> !happenings[j].Closed?) ==> after.db.recordings == dev.db.recordings)
    decreases |happenings|
  {
    hide Played, PlayedAll, AllDue, Interrupts;
    if happenings == [] {
      NothingPlayed(dev);
    } else {
      var n := |happenings| - 1;
      var before, h := happenings[..n], happenings[n];
      assert happenings == before + [h];
      PlayedLast(dev, before, h);
      FlagsAfter(dev, before);
      PlayedFlags(PlayedAll(dev, before), h);
      assert forall j :: 0 <= j < n ==> before[j] == happenings[j];
      LastInterrupts(happenings);
      forall j | 0 <= j < n ensures Interrupts(happenings, j) == Interrupts(before, j) { PrefixInterrupts(happenings, n, j); }
      OnRequestLast(happenings);
    }
  }

  lemma NothingPlayed(dev: Device)
    requires dev.recorder.recording.Some?
    ensures AllDue(dev, []) && PlayedAll(dev, []) == dev
  {
  }

  lemma LastInterrupts(happenings: seq<Happening>)
    requires happenings != []
    ensures
      var n := |happenings| - 1;
      var h := happenings[n];
      Interrupts(happenings, n)
      <==> h.Interruption? || (h.Write? && !h.ok && !exists j :: 0 <= j < n && happenings[..n][j].Write? && !happenings[..n][j].ok)
  {
    var n := |happenings| - 1;
    assert forall j :: 0 <= j < n ==> happenings[..n][j] == happenings[j];
  }

  lemma PrefixInterrupts(happenings: seq<Happening>, n: nat, i: nat)
    requires i < n <= |happenings|
    ensures Interrupts(happenings, i) == Interrupts(happenings[..n], i)
  {
    assert forall j :: 0 <= j < n ==> happenings[..n][j] == happenings[j];
  }

  lemma OnRequestLast(happenings: seq<Happening>)
    requires happenings != []
    requires forall j :: 0 <= j < |happenings| - 1 ==> Interrupts(happenings, j) == Interrupts(happenings[..|happenings| - 1], j)
    ensures
      var n := |happenings| - 1;
      StoppedOnRequest(happenings)
      <==> happenings[n].StopAsked? || (StoppedOnRequest(happenings[..n]) && !Interrupts(happenings, n))
  {
    hide Interrupts;
    var n := |happenings| - 1;
    var before := happenings[..n];
    assert forall j :: 0 <= j < n ==> before[j] == happenings[j];
    if happenings[n].StopAsked? { assert StoppedOnRequest(happenings); }
    if StoppedOnRequest(before) && !Interrupts(happenings, n) {
      var i :| 0 <= i < n && before[i].StopAsked? && forall j :: i < j < n ==> !Interrupts(before, j);
      assert happenings[i].StopAsked?;
    }
    if StoppedOnRequest(happenings) && !happenings[n].StopAsked? {
      var i :| 0 <= i < |happenings| && happenings[i].StopAsked? && forall j :: i < j < |happenings| ==> !Interrupts(happenings, j);
      assert i < n && before[i].StopAsked?;
      forall j | i < j < n ensures !Interrupts(before, j) { assert !Interrupts(happenings, j); }
    }
  }

  /**
   * When the close goes through, the recording is closing, with one new close job, and both say that it was
   * interrupted exactly when no stop was asked for, or something interrupted it after that.
   */
  lemma ClosesAsInterruptedExactlyWhen(dev: Device, happenings: seq<Happening>, now: Time)
    requires Fresh(dev) && AllDue(dev, happenings + [Closed(true, now)])
    requires forall j :: 0 <= j < |happenings| ==> !happenings[j].Closed?
    requires
      var r := dev.recorder.recording.value;
      r in dev.db.recordings && dev.db.recordings[r].status == Recording
    ensures
      var r, after := dev.recorder.recording.value, PlayedAll(dev, happenings + [Closed(true, now)]);
      && r in after.db.recordings && after.db.recordings[r].status == RecordingStatus.Closing
      && (after.db.recordings[r].interrupted <==> !StoppedOnRequest(happenings))
      && exists s :: s in after.db.queue && after.db.queue[s].job == Close(r, !StoppedOnRequest(happenings))
  {
    hide PlayedAll, AllDue, StoppedOnRequest;
    PlayedLast(dev, happenings, Closed(true, now));
    FlagsAfter(dev, happenings);
    var before, r := PlayedAll(dev, happenings), dev.recorder.recording.value;
    var after := Played(before, Closed(true, now));
    assert before.db.nextSequence in after.db.queue;
  }
}
