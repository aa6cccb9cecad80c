/** The row-hash delta: which staged rows a merge counts as new, shard by shard. */
module RowHash {
  /** Row numbers of one ingest, with the hash of each raw row. */
  type Shard = map<int, string>

  datatype Seen = Seen(hash: string, snapshot: int)

  /** Keyed by source and row number. */
  type Latest = map<(int, int), Seen>

  /** New rows, and rows whose hash differs from the last one seen. */
  function Delta(latest: Latest, source: int, shard: Shard): set<int> {
    set n | n in shard && ((source, n) !in latest || latest[(source, n)].hash != shard[n])
  }

  function Changes(latest: Latest, source: int, shard: Shard, snapshot: int): Latest {
    map n | n in Delta(latest, source, shard) :: (source, n) := Seen(shard[n], snapshot)
  }

  function Upserted(latest: Latest, source: int, shard: Shard, snapshot: int): Latest {
    latest + Changes(latest, source, shard, snapshot)
  }

  /** The upsert, key by key. */
  lemma UpsertedAt(latest: Latest, source: int, shard: Shard, snapshot: int, k: (int, int))
    ensures
      var after := Upserted(latest, source, shard, snapshot);
      && (k in after <==> k in latest || (k.0 == source && k.1 in shard))
      && (k in after ==>
            after[k] == if k.0 == source && k.1 in shard && (k !in latest || latest[k].hash != shard[k.1])
                        then Seen(shard[k.1], snapshot) else latest[k])
  {
    var changes := Changes(latest, source, shard, snapshot);
    var (of, n) := k;
    if of == source && n in Delta(latest, source, shard) { assert (source, n) in changes; }
  }

  function MergedAll(latest: Latest, source: int, shards: seq<Shard>, snapshot: int): Latest
    decreases |shards|
  {
    if shards == [] then latest
    else MergedAll(Upserted(latest, source, shards[0], snapshot), source, shards[1..], snapshot)
  }

  class HashStore {
    var latest: Latest

    /** One transaction; the delta is taken before the hashes are written. */
    method MergeShard(source: int, shard: Shard, snapshot: int) returns (delta: set<int>)
      modifies this
      ensures latest == Upserted(old(latest), source, shard, snapshot)
      ensures delta == Delta(old(latest), source, shard)
      ensures forall n :: n in shard ==> (source, n) in latest && latest[(source, n)].hash == shard[n]
      ensures forall k: (int, int) :: k.0 != source || k.1 !in shard ==> (k in latest <==> k in old(latest))
    {
      delta := Delta(latest, source, shard);
      forall k: (int, int) { UpsertedAt(latest, source, shard, snapshot, k); }
      latest := latest + Changes(latest, source, shard, snapshot);
    }

    method MergeSession(source: int, shards: seq<Shard>, snapshot: int)
      modifies this
      ensures latest == MergedAll(old(latest), source, shards, snapshot)
    {
      var i := 0;
      while i < |shards|
        invariant 0 <= i <= |shards|
        invariant MergedAll(latest, source, shards[i..], snapshot) == MergedAll(old(latest), source, shards, snapshot)
      {
        var _ := MergeShard(source, shards[i], snapshot);
        i := i + 1;
      }
    }
  }

  // ----- shards of one ingest share no row -----

  predicate Disjoint(shards: seq<Shard>) {
    forall i, j :: 0 <= i < j < |shards| ==> shards[i].Keys !! shards[j].Keys
  }

  function Union(shards: seq<Shard>): Shard {
    if shards == [] then map[] else shards[0] + Union(shards[1..])
  }

  lemma {:induction false} UnionHolds(shards: seq<Shard>, n: int)
    requires Disjoint(shards)
    ensures n in Union(shards) <==> exists i :: 0 <= i < |shards| && n in shards[i]
    ensures forall i :: 0 <= i < |shards| && n in shards[i] ==> Union(shards)[n] == shards[i][n]
    decreases |shards|
  {
    if shards != [] {
      UnionHolds(shards[1..], n);
      if n in Union(shards[1..]) {
        var i :| 0 <= i < |shards| - 1 && n in shards[1..][i];
        assert n in shards[i + 1];
      }
      forall i | 0 <= i < |shards| && n in shards[i] ensures Union(shards)[n] == shards[i][n] {
        if i > 0 { assert shards[1..][i - 1] == shards[i]; }
      }
    }
  }

  /** Shard by shard, in the order they come, is the whole ingest at once. */
  lemma {:induction false} ShardByShardIsAtOnce(latest: Latest, source: int, shards: seq<Shard>, snapshot: int)
    requires Disjoint(shards)
    ensures MergedAll(latest, source, shards, snapshot) == Upserted(latest, source, Union(shards), snapshot)
    decreases |shards|
  {
    if shards == [] {
    } else {
      var first, rest := shards[0], Union(shards[1..]);
      forall n ensures !(n in first.Keys && n in rest.Keys) {
        UnionHolds(shards[1..], n);
        if n in rest {
          var i :| 0 <= i < |shards| - 1 && n in shards[1..][i];
          assert shards[1..][i] == shards[i + 1];
        }
      }
      ShardByShardIsAtOnce(Upserted(latest, source, first, snapshot), source, shards[1..], snapshot);
      TwoStepsAreOne(latest, source, first, rest, snapshot);
    }
  }

  lemma TwoStepsAreOne(latest: Latest, source: int, first: Shard, rest: Shard, snapshot: int)
    requires first.Keys !! rest.Keys
    ensures Upserted(Upserted(latest, source, first, snapshot), source, rest, snapshot)
            == Upserted(latest, source, first + rest, snapshot)
  {
    hide Upserted;
    var once := Upserted(latest, source, first, snapshot);
    var twice, whole := Upserted(once, source, rest, snapshot), Upserted(latest, source, first + rest, snapshot);
    forall k: (int, int) ensures (k in twice <==> k in whole) && (k in twice ==> twice[k] == whole[k]) {
      assert !(k.1 in first.Keys && k.1 in rest.Keys);
      TwoStepsAt(latest, source, first, rest, snapshot, k);
    }
  }

  lemma TwoStepsAt(latest: Latest, source: int, first: Shard, rest: Shard, snapshot: int, k: (int, int))
    requires !(k.1 in first && k.1 in rest)
    ensures
      var twice := Upserted(Upserted(latest, source, first, snapshot), source, rest, snapshot);
      var whole := Upserted(latest, source, first + rest, snapshot);
      (k in twice <==> k in whole) && (k in twice ==> twice[k] == whole[k])
  {
    hide Upserted;
    UpsertedAt(latest, source, first, snapshot, k);
    UpsertedAt(Upserted(latest, source, first, snapshot), source, rest, snapshot, k);
    UpsertedAt(latest, source, first + rest, snapshot, k);
  }

  lemma SameRowsSameUnion(a: seq<Shard>, b: seq<Shard>)
    requires Disjoint(a) && Disjoint(b) && multiset(a) == multiset(b)
    ensures Union(a) == Union(b)
  {
    forall n ensures n in Union(a) <==> n in Union(b) {
      UnionHolds(a, n);
      UnionHolds(b, n);
      forall i | 0 <= i < |a| && n in a[i] ensures n in Union(b) { assert a[i] in multiset(a) && a[i] in b; }
      forall i | 0 <= i < |b| && n in b[i] ensures n in Union(a) { assert b[i] in multiset(b) && b[i] in a; }
    }
    forall n | n in Union(a) ensures Union(a)[n] == Union(b)[n] {
      UnionHolds(a, n);
      UnionHolds(b, n);
      var i :| 0 <= i < |a| && n in a[i];
      assert a[i] in multiset(a) && a[i] in b;
    }
  }

  /** The order of the shards does not matter. */
  lemma AnyOrder(latest: Latest, source: int, a: seq<Shard>, b: seq<Shard>, snapshot: int)
    requires Disjoint(a) && Disjoint(b) && multiset(a) == multiset(b)
    ensures MergedAll(latest, source, a, snapshot) == MergedAll(latest, source, b, snapshot)
  {
    ShardByShardIsAtOnce(latest, source, a, snapshot);
    ShardByShardIsAtOnce(latest, source, b, snapshot);
    SameRowsSameUnion(a, b);
  }

  // ----- crashes and repeats -----

  function Hashes(latest: Latest): map<(int, int), string> {
    map k | k in latest :: latest[k].hash
  }

  /** `part` holds some of the rows of `whole`. */
  predicate PartOf(part: Shard, whole: Shard) {
    forall n :: n in part ==> n in whole && whole[n] == part[n]
  }

  /**
   * A run that stops after some shards, followed by a whole run over the same rows however they
   * are sharded then, leaves the hashes that one run alone leaves.
   */
  lemma CrashThenRerun(
    latest: Latest, source: int, done: seq<Shard>, first: int, shards: seq<Shard>, second: int, only: int)
    requires Disjoint(done) && Disjoint(shards) && PartOf(Union(done), Union(shards))
    ensures Hashes(MergedAll(MergedAll(latest, source, done, first), source, shards, second))
            == Hashes(MergedAll(latest, source, shards, only))
  {
    hide Upserted, MergedAll;
    ShardByShardIsAtOnce(latest, source, done, first);
    ShardByShardIsAtOnce(MergedAll(latest, source, done, first), source, shards, second);
    ShardByShardIsAtOnce(latest, source, shards, only);
    var part, whole := Union(done), Union(shards);
    var rerun := Upserted(Upserted(latest, source, part, first), source, whole, second);
    var alone := Upserted(latest, source, whole, only);
    forall k: (int, int) ensures (k in rerun <==> k in alone) && (k in rerun ==> rerun[k].hash == alone[k].hash) {
      RerunAt(latest, source, part, whole, first, second, only, k);
    }
  }

  lemma RerunAt(latest: Latest, source: int, part: Shard, whole: Shard, first: int, second: int, only: int, k: (int, int))
    requires PartOf(part, whole)
    ensures
      var rerun := Upserted(Upserted(latest, source, part, first), source, whole, second);
      var alone := Upserted(latest, source, whole, only);
      (k in rerun <==> k in alone) && (k in rerun ==> rerun[k].hash == alone[k].hash)
  {
    hide Upserted;
    var n: int := k.1;
    if n in part { assert n in whole && whole[n] == part[n]; }
    UpsertedAt(latest, source, part, first, k);
    UpsertedAt(Upserted(latest, source, part, first), source, whole, second, k);
    UpsertedAt(latest, source, whole, only, k);
  }

  /** Rows that were merged and have not changed are not new, so merging them again marks nothing. */
  lemma MergedAgainIsEmpty(latest: Latest, source: int, shards: seq<Shard>, snapshot: int, again: Shard)
    requires Disjoint(shards) && PartOf(again, Union(shards))
    ensures Delta(MergedAll(latest, source, shards, snapshot), source, again) == {}
  {
    hide Upserted, MergedAll;
    ShardByShardIsAtOnce(latest, source, shards, snapshot);
    forall n | n in again ensures n !in Delta(MergedAll(latest, source, shards, snapshot), source, again) {
      UpsertedAt(latest, source, Union(shards), snapshot, (source, n));
    }
  }

  /** After a session a row has its own hash, under this snapshot exactly when it was in the delta. */
  lemma DeltaIsWhatChanged(latest: Latest, source: int, shards: seq<Shard>, snapshot: int, n: int)
    requires Disjoint(shards) && n in Union(shards)
    ensures
      var after := MergedAll(latest, source, shards, snapshot);
      && (source, n) in after
      && after[(source, n)] == if n in Delta(latest, source, Union(shards)) then Seen(Union(shards)[n], snapshot)
                               else latest[(source, n)]
  {
    hide Upserted, MergedAll;
    ShardByShardIsAtOnce(latest, source, shards, snapshot);
    UpsertedAt(latest, source, Union(shards), snapshot, (source, n));
  }
}
