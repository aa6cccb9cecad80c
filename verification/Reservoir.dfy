/**
 * Which rows a reservoir of `cap` rows holds, as a function of its draws, and that it holds every
 * row equally often: over all the draws there can be, each of n rows is held in the share cap / n.
 */
module Reservoir {
  /** The rows held after `cap + |draws|` rows; the draw for row `cap + j` is `draws[j]`. */
  function Held(cap: nat, draws: seq<nat>): (r: seq<nat>)
    ensures |r| == cap
  {
    if draws == [] then seq(cap, i => i)
    else
      var before, draw, row := Held(cap, Init(draws)), Last(draws), cap + |draws| - 1;
      if draw < cap then before[draw := row] else before
  }

  function Init(draws: seq<nat>): seq<nat>
    requires draws != []
  {
    draws[..|draws| - 1]
  }

  function Last(draws: seq<nat>): nat
    requires draws != []
  {
    draws[|draws| - 1]
  }

  lemma InitAndLast(draws: seq<nat>, x: nat)
    ensures Init(draws + [x]) == draws && Last(draws + [x]) == x
    ensures draws != [] ==> draws == Init(draws) + [Last(draws)]
  {
  }

  /** The rows held are different rows of those read. */
  lemma {:induction false} HeldRows(cap: nat, draws: seq<nat>)
    ensures forall i :: 0 <= i < cap ==> Held(cap, draws)[i] < cap + |draws|
    ensures forall i, j :: 0 <= i < j < cap ==> Held(cap, draws)[i] != Held(cap, draws)[j]
  {
    if draws != [] { HeldRows(cap, Init(draws)); }
  }

  function Below(n: nat): (s: set<nat>)
    ensures |s| == n && forall x: nat :: x in s <==> x < n
  {
    if n == 0 then {} else Below(n - 1) + {n - 1}
  }

  /** Every sequence of `m` draws, each below the number of rows read by then. */
  function AllDraws(cap: nat, m: nat): set<seq<nat>> {
    if m == 0 then {[]} else set draws, x | draws in AllDraws(cap, m - 1) && x in Below(cap + m) :: draws + [x]
  }

  /** Those after which the row is held. */
  function Keeping(cap: nat, m: nat, row: nat): set<seq<nat>> {
    set draws | draws in AllDraws(cap, m) && row in Held(cap, draws)
  }

  lemma LastDraw(cap: nat, m: nat, draws: seq<nat>)
    requires m > 0
    ensures draws in AllDraws(cap, m) <==> draws != [] && Init(draws) in AllDraws(cap, m - 1) && Last(draws) < cap + m
  {
    if draws != [] { InitAndLast(draws, 0); }
    if draws in AllDraws(cap, m) {
      var d, x :| d in AllDraws(cap, m - 1) && x in Below(cap + m) && draws == d + [x];
      InitAndLast(d, x);
    }
  }

  lemma {:induction false} InAllDraws(cap: nat, m: nat, draws: seq<nat>)
    ensures draws in AllDraws(cap, m) <==> |draws| == m && forall j :: 0 <= j < m ==> draws[j] <= cap + j
  {
    if m > 0 {
      hide AllDraws;
      LastDraw(cap, m, draws);
      if draws != [] { InAllDraws(cap, m - 1, Init(draws)); }
    }
  }

  // ----- counting -----

  /** The sequences of a set that go on from `draws` by one. */
  function GoingOn(whole: set<seq<nat>>, draws: seq<nat>): set<seq<nat>> {
    set d | d in whole && d != [] && Init(d) == draws
  }

  predicate GoesOnEqually(whole: set<seq<nat>>, inits: set<seq<nat>>, k: nat) {
    && (forall d :: d in whole ==> d != [] && Init(d) in inits)
    && (forall draws :: draws in inits ==> |GoingOn(whole, draws)| == k)
  }

  lemma LessOneInit(whole: set<seq<nat>>, inits: set<seq<nat>>, k: nat, draws: seq<nat>)
    requires GoesOnEqually(whole, inits, k) && draws in inits
    ensures GoesOnEqually(whole - GoingOn(whole, draws), inits - {draws}, k)
    ensures |whole| == |whole - GoingOn(whole, draws)| + k
  {
    var here := GoingOn(whole, draws);
    forall e | e in inits - {draws} ensures |GoingOn(whole - here, e)| == k {
      assert GoingOn(whole - here, e) == GoingOn(whole, e);
    }
    assert whole == (whole - here) + here;
  }

  lemma {:induction false} CountByInit(whole: set<seq<nat>>, inits: set<seq<nat>>, k: nat)
    requires GoesOnEqually(whole, inits, k)
    ensures |whole| == |inits| * k
    decreases inits
  {
    if inits == {} {
      assert whole == {};
    } else {
      hide GoesOnEqually, GoingOn;
      var draws :| draws in inits;
      var others := inits - {draws};
      LessOneInit(whole, inits, k, draws);
      CountByInit(whole - GoingOn(whole, draws), others, k);
      assert inits == others + {draws} && |inits| == |others| + 1;
      OneMore(|others|, k);
    }
  }

  lemma OneMore(n: nat, k: nat)
    ensures (n + 1) * k == n * k + k
  {
  }

  lemma {:induction false} CountByLast(some: set<seq<nat>>, draws: seq<nat>, xs: set<nat>)
    requires forall d :: d in some <==> d != [] && Init(d) == draws && Last(d) in xs
    ensures |some| == |xs|
    decreases xs
  {
    if xs == {} {
      assert some == {};
    } else {
      var x :| x in xs;
      InitAndLast(draws, x);
      forall d | d != [] && Init(d) == draws && Last(d) == x ensures d == draws + [x] {
        InitAndLast(d, x);
      }
      CountByLast(some - {draws + [x]}, draws, xs - {x});
    }
  }

  lemma {:induction false} AllDrawsCount(cap: nat, m: nat)
    requires m > 0
    ensures |AllDraws(cap, m)| == |AllDraws(cap, m - 1)| * (cap + m)
  {
    hide AllDraws;
    var whole, inits := AllDraws(cap, m), AllDraws(cap, m - 1);
    forall d ensures d in whole <==> d != [] && Init(d) in inits && Last(d) < cap + m { LastDraw(cap, m, d); }
    forall draws | draws in inits ensures |GoingOn(whole, draws)| == cap + m {
      CountByLast(GoingOn(whole, draws), draws, Below(cap + m));
    }
    CountByInit(whole, inits, cap + m);
  }

  // ----- every row is held equally often -----

  lemma HeldAfter(cap: nat, draws: seq<nat>, row: nat)
    requires draws != []
    ensures row in Held(cap, draws)
            <==> if row == cap + |draws| - 1 then Last(draws) < cap
                 else row in Held(cap, Init(draws)) && !(Last(draws) < cap && Held(cap, Init(draws))[Last(draws)] == row)
  {
    HeldRows(cap, Init(draws));
    var now, held, x := Held(cap, draws), Held(cap, Init(draws)), Last(draws);
    if x < cap {
      assert now == held[x := cap + |draws| - 1] && now[x] == cap + |draws| - 1;
      if row in held && held[x] != row {
        var at :| 0 <= at < cap && held[at] == row;
        assert now[at] == row;
      }
    }
  }

  /** The newest row is brought in by `cap` of its draws. */
  lemma NewestIsKept(cap: nat, m: nat)
    requires m > 0
    ensures |Keeping(cap, m, cap + m - 1)| == |AllDraws(cap, m - 1)| * cap
  {
    hide AllDraws, Held;
    var whole, inits := Keeping(cap, m, cap + m - 1), AllDraws(cap, m - 1);
    forall d ensures d in whole <==> d != [] && Init(d) in inits && Last(d) < cap { KeepingNow(cap, m, cap + m - 1, d); }
    forall draws | draws in inits ensures |GoingOn(whole, draws)| == cap {
      CountByLast(GoingOn(whole, draws), draws, Below(cap));
    }
    CountByInit(whole, inits, cap);
  }

  lemma KeepingNow(cap: nat, m: nat, row: nat, d: seq<nat>)
    requires m > 0
    ensures d in Keeping(cap, m, row)
            <==> && d != [] && Init(d) in AllDraws(cap, m - 1) && Last(d) < cap + m
                 && if row == cap + m - 1 then Last(d) < cap
                    else Init(d) in Keeping(cap, m - 1, row) && !(Last(d) < cap && Held(cap, Init(d))[Last(d)] == row)
  {
    hide AllDraws, Held;
    LastDraw(cap, m, d);
    InAllDraws(cap, m, d);
    if d != [] { HeldAfter(cap, d, row); }
  }

  /** The draws that leave a row that is held where it is. */
  function Sparing(cap: nat, m: nat, row: nat, held: seq<nat>): set<nat>
    requires |held| == cap
  {
    set x | x in Below(cap + m) && !(x < cap && held[x] == row)
  }

  lemma SparingCount(cap: nat, m: nat, row: nat, draws: seq<nat>)
    requires m > 0 && row in Held(cap, draws)
    ensures |Sparing(cap, m, row, Held(cap, draws))| == cap + m - 1
  {
    hide Held;
    HeldRows(cap, draws);
    var held := Held(cap, draws);
    var at: nat :| at < cap && held[at] == row;
    assert Sparing(cap, m, row, held) == Below(cap + m) - {at};
  }

  /** A row that is held stays for all draws but one. */
  lemma HeldIsKept(cap: nat, m: nat, row: nat)
    requires m > 0 && row < cap + m - 1
    ensures |Keeping(cap, m, row)| == |Keeping(cap, m - 1, row)| * (cap + m - 1)
  {
    hide AllDraws, Held;
    var whole, inits := Keeping(cap, m, row), Keeping(cap, m - 1, row);
    forall d ensures d in whole <==> d != [] && Init(d) in inits && Last(d) in Sparing(cap, m, row, Held(cap, Init(d))) {
      KeepingNow(cap, m, row, d);
    }
    forall draws | draws in inits ensures |GoingOn(whole, draws)| == cap + m - 1 {
      CountByLast(GoingOn(whole, draws), draws, Sparing(cap, m, row, Held(cap, draws)));
      SparingCount(cap, m, row, draws);
    }
    CountByInit(whole, inits, cap + m - 1);
  }

  /** Each row read is held after the same share of all the draws: `cap` in every `n = cap + m`. */
  lemma {:induction false} EveryRowIsHeldEquallyOften(cap: nat, m: nat, row: nat)
    requires row < cap + m
    ensures |Keeping(cap, m, row)| * (cap + m) == cap * |AllDraws(cap, m)|
  {
    hide AllDraws, Keeping, Held;
    if m == 0 {
      FirstRowsAreHeld(cap, row);
    } else if row < cap + m - 1 {
      HeldIsKept(cap, m, row);
      AllDrawsCount(cap, m);
      EveryRowIsHeldEquallyOften(cap, m - 1, row);
      SameShare(|Keeping(cap, m, row)|, |Keeping(cap, m - 1, row)|, |AllDraws(cap, m)|, |AllDraws(cap, m - 1)|, cap, cap + m - 1);
    } else {
      NewestIsKept(cap, m);
      AllDrawsCount(cap, m);
      NewestShare(|Keeping(cap, m, row)|, |AllDraws(cap, m)|, |AllDraws(cap, m - 1)|, cap, cap + m);
    }
  }

  lemma FirstRowsAreHeld(cap: nat, row: nat)
    requires row < cap
    ensures |Keeping(cap, 0, row)| == |AllDraws(cap, 0)| == 1
  {
    assert Held(cap, [])[row] == row;
    assert Keeping(cap, 0, row) == {[]};
  }

  lemma SameShare(kept: nat, keptBefore: nat, all: nat, allBefore: nat, cap: nat, n: nat)
    requires kept == keptBefore * n && all == allBefore * (n + 1) && keptBefore * n == cap * allBefore
    ensures kept * (n + 1) == cap * all
  {
    calc {
      kept * (n + 1);
      (cap * allBefore) * (n + 1);
      cap * (allBefore * (n + 1));
    }
  }

  lemma NewestShare(kept: nat, all: nat, allBefore: nat, cap: nat, n: nat)
    requires kept == allBefore * cap && all == allBefore * n
    ensures kept * n == cap * all
  {
    calc {
      kept * n;
      (cap * allBefore) * n;
      cap * (allBefore * n);
    }
  }

  // ----- the draws of a generator -----

  /** Each word reduced to a number below the rows read by then. */
  function Reduced(cap: nat, words: seq<nat>): (r: seq<nat>) {
    seq(|words|, j requires 0 <= j < |words| => words[j] % (cap + j + 1))
  }

  /** Words give every sequence of draws there can be, and no other. */
  lemma DrawsAreReduced(cap: nat, m: nat, draws: seq<nat>)
    ensures draws in AllDraws(cap, m) <==> exists words: seq<nat> :: |words| == m && Reduced(cap, words) == draws
  {
    hide AllDraws;
    InAllDraws(cap, m, draws);
    if draws in AllDraws(cap, m) {
      forall j | 0 <= j < m ensures draws[j] % (cap + j + 1) == draws[j] { Small(draws[j], cap + j + 1); }
      assert Reduced(cap, draws) == draws;
    }
  }

  lemma Small(x: nat, n: nat)
    requires x < n
    ensures x % n == x
  {
  }
}
