/** Reservoir sampling of a file's rows under its header. */
module Sample {
  import opened Reservoir

  type Line = string

  // ----- the generator -----

  function Mix13(x: bv64): bv64 { x ^ (x << 13) }
  function Mix7(x: bv64): bv64 { x ^ (x >> 7) }
  function Mix17(x: bv64): bv64 { x ^ (x << 17) }

  /** A shift xored in loses no bit, so a word that is not zero stays so. */
  lemma Mix13KeepsNonZero(x: bv64)
    requires x != 0
    ensures Mix13(x) != 0
  {
  }

  lemma Mix7KeepsNonZero(x: bv64)
    requires x != 0
    ensures Mix7(x) != 0
  {
  }

  lemma Mix17KeepsNonZero(x: bv64)
    requires x != 0
    ensures Mix17(x) != 0
  {
  }

  function NextState(state: bv64): bv64 { Mix17(Mix7(Mix13(state))) }

  /** The first word from the state 1 fixes the three shifts. */
  lemma FirstWordFromOne()
    ensures NextState(1) == 1082269761
  {
    assert Mix13(1) == 0x2001 && Mix7(0x2001) == 0x2041 && Mix17(0x2041) == 1082269761;
  }

  /** The state after `k` words, which is also the last of them. */
  function StateAfter(state: bv64, k: nat): bv64 {
    if k == 0 then state else NextState(StateAfter(state, k - 1))
  }

  function Words(state: bv64, m: nat): (r: seq<nat>) { seq(m, j requires 0 <= j < m => StateAfter(state, j + 1) as nat) }

  function Remainder(word: bv64, upper: nat): (r: nat)
    requires upper > 0
    ensures r < upper
  {
    Modulo(word as nat, upper)
  }

  function Modulo(x: nat, n: nat): (r: nat)
    requires n > 0
    ensures r < n
  {
    x % n
  }

  function FirstState(seed: bv64): bv64 { if seed == 0 then ZERO_SEED else seed }

  /** The draws the generator gives from a seed once the reservoir of `cap` rows is full. */
  function Drawn(cap: nat, seed: bv64, m: nat): (r: seq<nat>) { Reduced(cap, Words(FirstState(seed), m)) }

  /** Stands in for a seed of zero, on which the generator would stand still. */
  const ZERO_SEED: bv64 := 0xA5A5_A5A5_A5A5_A5A5

  class DeterministicRng {
    var state: bv64

    predicate Valid()
      reads this
    {
      state != 0
    }

    constructor (seed: bv64)
      ensures Valid()
      ensures state == FirstState(seed)
    {
      state := if seed == 0 then ZERO_SEED else seed;
    }

    method NextWord() returns (x: bv64)
      requires Valid()
      modifies this
      ensures Valid() && x == state == NextState(old(state))
    {
      hide Mix13, Mix7, Mix17;
      x := Mix13(state);
      Mix13KeepsNonZero(state);
      Mix7KeepsNonZero(x);
      x := Mix7(x);
      Mix17KeepsNonZero(x);
      x := Mix17(x);
      state := x;
    }

    /** A bound of 1 or 0 draws nothing. */
    method NextBounded(upper: nat) returns (pick: nat)
      requires Valid()
      modifies this
      ensures Valid()
      ensures if upper <= 1 then pick == 0 && state == old(state)
            else state == NextState(old(state)) && pick == Remainder(state, upper)
    {
      if upper <= 1 { return 0; }
      var word := NextWord();
      pick := Remainder(word, upper);
    }
  }

  // ----- the sample -----

  type Row = (nat, Line)

  predicate ByIndex(rows: seq<Row>) {
    forall i, j :: 0 <= i < j < |rows| ==> rows[i].0 < rows[j].0
  }

  predicate DistinctIndices(rows: seq<Row>) {
    forall i, j :: 0 <= i < j < |rows| ==> rows[i].0 != rows[j].0
  }

  /** Each row is the data row it is numbered as. */
  predicate FromData(rows: seq<Row>, data: seq<Line>) {
    forall i :: 0 <= i < |rows| ==> rows[i].0 < |data| && rows[i].1 == data[rows[i].0]
  }

  method Inserted(sorted: seq<Row>, row: Row) returns (r: seq<Row>)
    requires ByIndex(sorted) && forall i :: 0 <= i < |sorted| ==> sorted[i].0 != row.0
    ensures ByIndex(r) && multiset(r) == multiset(sorted) + multiset{row}
  {
    var at := |sorted|;
    while at > 0 && sorted[at - 1].0 > row.0
      invariant 0 <= at <= |sorted|
      invariant forall i :: at <= i < |sorted| ==> row.0 < sorted[i].0
    {
      at := at - 1;
    }
    r := sorted[..at] + [row] + sorted[at..];
    assert at > 0 ==> sorted[at - 1].0 < row.0;
    InsertedAt(sorted, at, row);
  }

  lemma InsertedAt(sorted: seq<Row>, at: nat, row: Row)
    requires ByIndex(sorted) && at <= |sorted|
    requires forall i :: 0 <= i < at ==> sorted[i].0 < row.0
    requires forall i :: at <= i < |sorted| ==> row.0 < sorted[i].0
    ensures
      var r := sorted[..at] + [row] + sorted[at..];
      ByIndex(r) && multiset(r) == multiset(sorted) + multiset{row}
  {
    var r := sorted[..at] + [row] + sorted[at..];
    SameRows(sorted[..at], row, sorted[at..]);
    assert sorted == sorted[..at] + sorted[at..];
    forall i, j | 0 <= i < j < |r| ensures r[i].0 < r[j].0 {
      assert r[i] == if i < at then sorted[i] else if i == at then row else sorted[i - 1];
      assert r[j] == if j < at then sorted[j] else if j == at then row else sorted[j - 1];
    }
  }

  lemma SameRows(a: seq<Row>, row: Row, b: seq<Row>)
    ensures multiset(a + [row] + b) == multiset(a + b) + multiset{row}
  {
  }

  /** The rows in the order they had in the file. */
  method SortByIndex(rows: seq<Row>) returns (sorted: seq<Row>)
    requires DistinctIndices(rows)
    ensures ByIndex(sorted) && multiset(sorted) == multiset(rows)
  {
    sorted := [];
    for i := 0 to |rows|
      invariant ByIndex(sorted) && multiset(sorted) == multiset(rows[..i])
    {
      assert rows[..i + 1] == rows[..i] + [rows[i]];
      forall k | 0 <= k < |sorted| ensures sorted[k].0 != rows[i].0 {
        assert sorted[k] in multiset(sorted) && sorted[k] in rows[..i];
      }
      sorted := Inserted(sorted, rows[i]);
    }
    assert rows[..|rows|] == rows;
  }

  lemma SortedFromData(sorted: seq<Row>, rows: seq<Row>, data: seq<Line>, i: nat)
    requires multiset(sorted) == multiset(rows) && RowsBefore(rows, data, i)
    ensures FromData(sorted, data) && |sorted| == |rows|
  {
    assert |multiset(sorted)| == |sorted| && |multiset(rows)| == |rows|;
    forall i | 0 <= i < |sorted| ensures sorted[i].0 < |data| && sorted[i].1 == data[sorted[i].0] {
      assert sorted[i] in multiset(sorted) && sorted[i] in rows;
    }
  }

  function Min(a: nat, b: nat): nat { if a < b then a else b }

  /** `chosen` are the numbers of the data rows in the sample, in file order. */
  ghost predicate IsSample(lines: seq<Line>, chosen: seq<nat>, out: seq<Line>)
    requires lines != []
  {
    && (forall i, j :: 0 <= i < j < |chosen| ==> chosen[i] < chosen[j])
    && (forall i :: 0 <= i < |chosen| ==> chosen[i] + 1 < |lines|)
    && |out| == |chosen| + 1 && out[0] == lines[0]
    && (forall i :: 0 <= i < |chosen| ==> out[i + 1] == lines[chosen[i] + 1])
  }

  /** Different rows of those before `i`, each with its line. */
  predicate RowsBefore(rows: seq<Row>, data: seq<Line>, i: nat) {
    DistinctIndices(rows) && FromData(rows, data) && forall k :: 0 <= k < |rows| ==> rows[k].0 < i
  }

  lemma BeforeAreDistinct(rows: seq<Row>, data: seq<Line>, i: nat)
    requires RowsBefore(rows, data, i)
    ensures DistinctIndices(rows)
  {
  }

  lemma AddedRow(rows: seq<Row>, data: seq<Line>, i: nat)
    requires i < |data| && RowsBefore(rows, data, i)
    ensures RowsBefore(rows + [(i, data[i])], data, i + 1)
  {
  }

  /** One more data row, once the reservoir is full, replaces a row or none. */
  lemma ReplacedRow(rows: seq<Row>, data: seq<Line>, pick: nat, i: nat)
    requires i < |data| && RowsBefore(rows, data, i)
    ensures RowsBefore(if pick < |rows| then rows[pick := (i, data[i])] else rows, data, i + 1)
  {
  }

  /** The numbers of the rows held after `i` rows: all of them while there is room. */
  function Picked(cap: nat, seed: bv64, i: nat): (r: seq<nat>)
    ensures |r| == Min(cap, i)
  {
    if i <= cap then seq(i, k => k) else Held(cap, Drawn(cap, seed, i - cap))
  }

  predicate Holds(reservoir: seq<Row>, picked: seq<nat>) {
    |reservoir| == |picked| && forall k :: 0 <= k < |picked| ==> reservoir[k].0 == picked[k]
  }

  /** The draw for row `i`, once the reservoir is full. */
  function DrawFor(cap: nat, seed: bv64, i: nat): nat
    requires cap <= i
  {
    Remainder(StateAfter(FirstState(seed), i - cap + 1), i + 1)
  }

  lemma OneMoreDrawn(cap: nat, seed: bv64, i: nat)
    requires cap <= i
    ensures Drawn(cap, seed, i + 1 - cap) == Drawn(cap, seed, i - cap) + [DrawFor(cap, seed, i)]
  {
  }

  lemma OneMorePicked(cap: nat, seed: bv64, i: nat)
    ensures i < cap ==> Picked(cap, seed, i + 1) == Picked(cap, seed, i) + [i]
    ensures i >= cap ==>
              var draw, before := DrawFor(cap, seed, i), Picked(cap, seed, i);
              Picked(cap, seed, i + 1) == if draw < cap then before[draw := i] else before
  {
    hide StateAfter, DrawFor;
    if i >= cap {
      OneMoreDrawn(cap, seed, i);
      var draws, draw := Drawn(cap, seed, i - cap), DrawFor(cap, seed, i);
      InitAndLast(draws, draw);
      assert |draws| == i - cap;
      if i == cap { assert Picked(cap, seed, i) == Held(cap, draws); }
    }
  }

  /**
   * Up to `cap` rows are all kept. Of more, the rows kept are those held after one of the sequences of
   * draws over which every row is held equally often.
   */
  lemma PickedByUniformDraws(cap: nat, seed: bv64, n: nat)
    ensures n <= cap ==> forall row: nat :: row in Picked(cap, seed, n) <==> row < n
    ensures n > cap ==> exists draws :: draws in AllDraws(cap, n - cap) && Picked(cap, seed, n) == Held(cap, draws)
  {
    hide StateAfter, AllDraws;
    if n > cap {
      var words := Words(FirstState(seed), n - cap);
      DrawsAreReduced(cap, n - cap, Drawn(cap, seed, n - cap));
      assert |words| == n - cap && Reduced(cap, words) == Drawn(cap, seed, n - cap);
    } else {
      forall row: nat ensures row in Picked(cap, seed, n) <==> row < n {
        if row < n { assert Picked(cap, seed, n)[row] == row; }
      }
    }
  }

  lemma NothingRead(seed: bv64, data: seq<Line>)
    ensures StateAfter(FirstState(seed), 0) == FirstState(seed) && RowsBefore([], data, 0)
  {
  }

  lemma DrawIsNext(cap: nat, seed: bv64, i: nat, state: bv64)
    requires cap <= i && state == StateAfter(FirstState(seed), i - cap)
    ensures NextState(state) == StateAfter(FirstState(seed), i + 1 - cap)
    ensures Remainder(NextState(state), i + 1) == DrawFor(cap, seed, i)
  {
  }

  lemma SortedHolds(reservoir: seq<Row>, sorted: seq<Row>, picked: seq<nat>, row: nat)
    requires Holds(reservoir, picked) && multiset(sorted) == multiset(reservoir)
    ensures row in picked <==> exists k :: 0 <= k < |sorted| && sorted[k].0 == row
  {
    if row in picked {
      var k :| 0 <= k < |reservoir| && reservoir[k].0 == row;
      assert reservoir[k] in multiset(sorted) && reservoir[k] in sorted;
    }
    if k :| 0 <= k < |sorted| && sorted[k].0 == row {
      assert sorted[k] in multiset(reservoir) && sorted[k] in reservoir;
    }
  }

  method SampleWithHeader(lines: seq<Line>, cap: nat, seed: bv64) returns (chosen: seq<nat>, out: seq<Line>)
    ensures lines == [] ==> chosen == [] && out == []
    ensures lines != [] ==> IsSample(lines, chosen, out) && |chosen| == Min(cap, |lines| - 1)
    ensures lines != [] ==> forall row: nat :: row in chosen <==> row in Picked(cap, seed, |lines| - 1)
  {
    hide Picked, StateAfter, FirstState, NextState, DrawFor, RowsBefore;
    chosen, out := [], [];
    if |lines| == 0 { return; }
    out := [lines[0]];
    if cap == 0 { return; }
    var data := lines[1..];
    var rng := new DeterministicRng(seed);
    var reservoir: seq<Row> := [];
    NothingRead(seed, data);
    for i := 0 to |data|
      invariant rng.Valid() && fresh(rng)
      invariant rng.state == StateAfter(FirstState(seed), if i <= cap then 0 else i - cap)
      invariant Holds(reservoir, Picked(cap, seed, i))
      invariant RowsBefore(reservoir, data, i)
    {
      OneMorePicked(cap, seed, i);
      if i < cap {
        AddedRow(reservoir, data, i);
        reservoir := reservoir + [(i, data[i])];
      } else {
        DrawIsNext(cap, seed, i, rng.state);
        var pick := rng.NextBounded(i + 1);
        ReplacedRow(reservoir, data, pick, i);
        if pick < cap {
          reservoir := reservoir[pick := (i, data[i])];
        }
      }
    }
    BeforeAreDistinct(reservoir, data, |data|);
    var sorted := SortByIndex(reservoir);
    SortedFromData(sorted, reservoir, data, |data|);
    for i := 0 to |sorted|
      invariant |chosen| == i && |out| == i + 1 && out[0] == lines[0]
      invariant forall k :: 0 <= k < i ==> chosen[k] == sorted[k].0 && out[k + 1] == sorted[k].1
    {
      chosen, out := chosen + [sorted[i].0], out + [sorted[i].1];
    }
    forall row: nat ensures row in chosen <==> row in Picked(cap, seed, |data|) {
      SortedHolds(reservoir, sorted, Picked(cap, seed, |data|), row);
    }
  }
}
