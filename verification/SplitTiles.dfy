/** The device-side split choice of src/nvfp4_attn.rs: host version, u32 copy, and what the splits cover. */
module SplitTiles {
  import opened IntMath

  const MIN_TILES := 2
  const SPLIT_COST_TOKENS := 64
  const U32_MAX := 4294967295

  newtype u32 = x: int | 0 <= x <= 4294967295

  function Clamp(x: int, lo: int, hi: int): int { if x < lo then lo else if x > hi then hi else x }

  function FixedCost(tn: int): int
    requires tn > 0
  {
    CeilDiv(SPLIT_COST_TOKENS, tn)
  }

  /** Candidate k: the most splits in k full waves, or the grid cap. */
  function Splits(rows: int, ns: int, slots: int, k: int): int
    requires rows > 0
  {
    if k == 4 then ns else Clamp(k * slots / rows, 1, ns)
  }

  function PerSplit(tiles: int, rows: int, ns: int, slots: int, k: int): int
    requires rows > 0 && ns > 0
  {
    if Splits(rows, ns, slots, k) > 0 then Max(CeilDiv(tiles, Splits(rows, ns, slots, k)), MIN_TILES) else MIN_TILES
  }

  function Cost(tiles: int, rows: int, slots: int, tn: int, per: int): int
    requires slots > 0 && tn > 0 && per > 0
  {
    CeilDiv(rows * CeilDiv(tiles, per), slots) * (per + FixedCost(tn))
  }

  function CandidateCost(tiles: int, rows: int, ns: int, slots: int, tn: int, k: int): int
    requires rows > 0 && ns > 0 && slots > 0 && tn > 0
  {
    Cost(tiles, rows, slots, tn, PerSplit(tiles, rows, ns, slots, k))
  }

  /** Of the candidates 1 .. last, per is the first of least cost. */
  ghost predicate FirstLeast(tiles: int, rows: int, ns: int, slots: int, tn: int, last: int, k: int, per: int)
    requires rows > 0 && ns > 0 && slots > 0 && tn > 0
  {
    && 1 <= k <= last && per == PerSplit(tiles, rows, ns, slots, k)
    && forall j :: 1 <= j <= last ==> Precedes(tiles, rows, ns, slots, tn, k, j)
  }

  /** The first minimum of the four candidates. */
  ghost predicate Chosen(tiles: int, rows: int, ns: int, slots: int, tn: int, per: int)
    requires rows > 0 && ns > 0 && slots > 0 && tn > 0
  {
    exists k :: FirstLeast(tiles, rows, ns, slots, tn, 4, k, per)
  }

  predicate Precedes(tiles: int, rows: int, ns: int, slots: int, tn: int, k: int, j: int)
    requires rows > 0 && ns > 0 && slots > 0 && tn > 0
  {
    && CandidateCost(tiles, rows, ns, slots, tn, k) <= CandidateCost(tiles, rows, ns, slots, tn, j)
    && (j < k ==> CandidateCost(tiles, rows, ns, slots, tn, k) < CandidateCost(tiles, rows, ns, slots, tn, j))
  }

  lemma NextLeast(tiles: int, rows: int, ns: int, slots: int, tn: int, last: int, k: int, per: int)
    requires rows > 0 && ns > 0 && slots > 0 && tn > 0 && FirstLeast(tiles, rows, ns, slots, tn, last, k, per)
    ensures var n := last + 1;
      if CandidateCost(tiles, rows, ns, slots, tn, n) < CandidateCost(tiles, rows, ns, slots, tn, k)
      then FirstLeast(tiles, rows, ns, slots, tn, n, n, PerSplit(tiles, rows, ns, slots, n))
      else FirstLeast(tiles, rows, ns, slots, tn, n, k, per)
  {
    var n := last + 1;
    forall j | 1 <= j <= n
      ensures CandidateCost(tiles, rows, ns, slots, tn, n) < CandidateCost(tiles, rows, ns, slots, tn, k)
        ==> Precedes(tiles, rows, ns, slots, tn, n, j)
      ensures CandidateCost(tiles, rows, ns, slots, tn, n) >= CandidateCost(tiles, rows, ns, slots, tn, k)
        ==> Precedes(tiles, rows, ns, slots, tn, k, j)
    {
      if j < n { assert Precedes(tiles, rows, ns, slots, tn, k, j); }
    }
  }

  /** There is one first minimum, so the host and the device agree. */
  lemma ChosenUnique(tiles: int, rows: int, ns: int, slots: int, tn: int, per: int, other: int)
    requires rows > 0 && ns > 0 && slots > 0 && tn > 0
    requires Chosen(tiles, rows, ns, slots, tn, per) && Chosen(tiles, rows, ns, slots, tn, other)
    ensures per == other
  {
    var k :| FirstLeast(tiles, rows, ns, slots, tn, 4, k, per);
    var j :| FirstLeast(tiles, rows, ns, slots, tn, 4, j, other);
    assert Precedes(tiles, rows, ns, slots, tn, k, j) && Precedes(tiles, rows, ns, slots, tn, j, k);
  }

  /** The loops' state before candidate k; `limit` is the cost they start from. */
  ghost predicate SoFar(tiles: int, rows: int, ns: int, slots: int, tn: int, k: int, first: int, per: int, best: int, limit: int)
    requires rows > 0 && ns > 0 && slots > 0 && tn > 0
  {
    if k == 1 then best == limit
    else FirstLeast(tiles, rows, ns, slots, tn, k - 1, first, per) && best == CandidateCost(tiles, rows, ns, slots, tn, first)
  }

  lemma OneMore(tiles: int, rows: int, ns: int, slots: int, tn: int, k: int, first: int, per: int, best: int, limit: int)
    requires rows > 0 && ns > 0 && slots > 0 && tn > 0 && k >= 1 && SoFar(tiles, rows, ns, slots, tn, k, first, per, best, limit)
    requires CandidateCost(tiles, rows, ns, slots, tn, 1) < limit
    ensures var cost := CandidateCost(tiles, rows, ns, slots, tn, k);
      if cost < best then SoFar(tiles, rows, ns, slots, tn, k + 1, k, PerSplit(tiles, rows, ns, slots, k), cost, limit)
      else SoFar(tiles, rows, ns, slots, tn, k + 1, first, per, best, limit)
  {
    if k > 1 { NextLeast(tiles, rows, ns, slots, tn, k - 1, first, per); }
  }

  // ---- what a split length means ------------------------------------------

  lemma SplitsInRange(rows: int, ns: int, slots: int, k: int)
    requires rows > 0 && ns > 0
    ensures 1 <= Splits(rows, ns, slots, k) <= ns
  {}

  /** Splits of the chosen length: at least two tiles each, at most ns of them, together all tiles. */
  lemma Covers(tiles: int, rows: int, ns: int, slots: int, k: int)
    requires tiles >= 0 && rows > 0 && ns > 0
    ensures var per := PerSplit(tiles, rows, ns, slots, k);
      per >= MIN_TILES && 0 <= CeilDiv(tiles, per) <= ns && tiles <= ns * per
  {
    var s, per := Splits(rows, ns, slots, k), PerSplit(tiles, rows, ns, slots, k);
    SplitsInRange(rows, ns, slots, k);
    CeilDivBounds(tiles, s);
    MulLeq(CeilDiv(tiles, s), per, s);
    assert CeilDiv(tiles, s) * s <= per * s == s * per;
    CeilDivLeast(tiles, per, s);
    CeilDivBounds(tiles, per);
    MulLeq(s, ns, per);
  }

  /** Split i works on [i * per, min((i + 1) * per, tiles)). */
  predicate InSplit(tiles: int, per: int, i: int, t: int) {
    i * per <= t < Min(i * per + per, tiles)
  }

  /** Every tile is in exactly one split, the one of its quotient, which is below ceil(tiles / per);
      the splits below that are not empty and the others are. */
  lemma Partition(tiles: int, per: int, t: int, i: int)
    requires tiles >= 0 && per > 0
    ensures 0 <= t < tiles ==> 0 <= t / per < CeilDiv(tiles, per) && (InSplit(tiles, per, i, t) <==> i == t / per)
    ensures i >= 0 ==> (i < CeilDiv(tiles, per) <==> i * per < tiles)
  {
    CeilDivLeast(tiles, per, i);
    CeilDivBounds(tiles, per);
    if 0 <= t < tiles {
      Division(t, per);
      if t / per < 0 { MulLeq(t / per, -1, per); }
      if t / per >= CeilDiv(tiles, per) { MulLeq(CeilDiv(tiles, per), t / per, per); }
      if i * per <= t < i * per + per { QuotientIs(t, per, i); }
    }
  }

  // ---- the loop -----------------------------------------------------------

  lemma CostAtLeast(tiles: int, rows: int, slots: int, tn: int, per: int)
    requires tiles >= 0 && rows > 0 && slots > 0 && tn > 0 && per > 0
    ensures Cost(tiles, rows, slots, tn, per) >= 0 && FixedCost(tn) >= 1 && CeilDiv(tiles, per) >= 0
  {
    CeilDivBounds(tiles, per);
    MulLeq(0, CeilDiv(tiles, per), rows);
    CeilDivBounds(rows * CeilDiv(tiles, per), slots);
    CeilDivLeast(SPLIT_COST_TOKENS, tn, 0);
    MulLeq(0, CeilDiv(rows * CeilDiv(tiles, per), slots), per + FixedCost(tn));
  }

  /** The host version, in words without a limit. */
  method SplitLength(tiles: int, rows: int, ns: int, slots: int, tn: int) returns (bestPer: int)
    requires tiles >= 0 && rows >= 1 && ns >= 1 && slots >= 1 && tn >= 1
    ensures Chosen(tiles, rows, ns, slots, tn, bestPer)
    ensures bestPer >= MIN_TILES && CeilDiv(tiles, bestPer) <= ns && tiles <= ns * bestPer
  {
    var c0 := CeilDiv(SPLIT_COST_TOKENS, tn);
    var best := -1;
    bestPer := MIN_TILES;
    ghost var first := 0;
    for k := 1 to 5
      invariant k == 1 ==> best == -1
      invariant k > 1 ==> FirstLeast(tiles, rows, ns, slots, tn, k - 1, first, bestPer)
      invariant k > 1 ==> best == CandidateCost(tiles, rows, ns, slots, tn, first) >= 0
    {
      var s := if k == 4 then ns else Clamp(k * slots / rows, 1, ns);
      var per := Max(CeilDiv(tiles, s), MIN_TILES);
      var cost := CeilDiv(rows * CeilDiv(tiles, per), slots) * (per + c0);
      CostAtLeast(tiles, rows, slots, tn, per);
      if k > 1 { NextLeast(tiles, rows, ns, slots, tn, k - 1, first, bestPer); }
      if best < 0 || cost < best { best, bestPer, first := cost, per, k; }
    }
    Covers(tiles, rows, ns, slots, first);
  }

  // ---- the u32 copy -------------------------------------------------------

  /** Shapes for which no intermediate result leaves 32 bits. */
  predicate Fits(tiles: int, rows: int, slots: int) {
    3 * slots <= U32_MAX && rows * (34 * tiles + 66) < U32_MAX
  }

  lemma CeilSmaller(x: int, d: int)
    requires x >= 0 && d >= 1
    ensures 0 <= CeilDiv(x, d) <= x
  {
    CeilDivBounds(x, d);
    CeilDivLeast(x, d, x);
    MulLeq(1, d, x);
  }

  lemma TilesBound(tiles: int, per: int, n: int)
    requires tiles >= 1 && 2 <= per <= Max(tiles, 2) && n == CeilDiv(tiles, per)
    ensures n >= 1 && n * per <= 2 * tiles + 2
  {
    CeilDivBounds(tiles, per);
    CeilDivLeast(tiles, per, 0);
    Distribute(n, 1, per);
  }

  lemma SplitsBound(tiles: int, per: int, n: int)
    requires tiles >= 1 && 2 <= per && n == CeilDiv(tiles, per)
    ensures n >= 1 && 2 * (n - 1) < tiles
  {
    CeilDivBounds(tiles, per);
    CeilDivLeast(tiles, per, 0);
    MulLeq(2, per, n - 1);
    assert per * (n - 1) == (n - 1) * per;
  }

  /** n splits of `per` tiles, n the ceiling, and 64 tokens' worth for each. */
  lemma WorkBound(tiles: int, per: int, n: int, c0: int)
    requires tiles >= 0 && 2 <= per <= Max(tiles, 2) && n == CeilDiv(tiles, per) && 0 <= c0 <= 64
    ensures 0 <= n * (per + c0) <= 34 * tiles + 66
  {
    if tiles == 0 {
      CeilSmaller(tiles, per);
      assert n == 0;
    } else {
      TilesBound(tiles, per, n);
      SplitsBound(tiles, per, n);
      assert n * (per + c0) == n * per + c0 * n;
      MulLeq(c0, 64, n);
      MulLeq(0, c0, n);
      MulLeq(0, n, per);
    }
  }

  /** A bound on the cost of a candidate: rows times the tiles, each split's rounding and its fixed cost. */
  lemma CostBound(tiles: int, rows: int, slots: int, tn: int, per: int)
    requires tiles >= 0 && rows >= 1 && slots >= 1 && tn >= 1 && MIN_TILES <= per <= Max(tiles, MIN_TILES)
    ensures 0 <= CeilDiv(tiles, per) <= tiles && 1 <= FixedCost(tn) <= 64
    ensures 0 <= Cost(tiles, rows, slots, tn, per) <= rows * (34 * tiles + 66)
    ensures 0 <= rows * CeilDiv(tiles, per) <= rows * (34 * tiles + 66)
  {
    var n, c0 := CeilDiv(tiles, per), FixedCost(tn);
    CeilSmaller(tiles, per);
    CeilSmaller(64, tn);
    CostAtLeast(tiles, rows, slots, tn, per);
    WorkBound(tiles, per, n, c0);
    RowsBound(rows, n, per + c0, 34 * tiles + 66, slots);
  }

  lemma RowsBound(rows: int, n: int, w: int, b: int, slots: int)
    requires rows >= 1 && n >= 0 && w >= 1 && n * w <= b && slots >= 1
    ensures 0 <= rows * n <= rows * b && CeilDiv(rows * n, slots) * w <= rows * b
  {
    MulLeq(0, n, rows);
    CeilSmaller(rows * n, slots);
    MulLeq(CeilDiv(rows * n, slots), rows * n, w);
    assert rows * n * w == rows * (n * w);
    MulLeq(n * w, b, rows);
    MulLeq(1, w, rows * n);
  }

  function CeilDiv32(a: u32, b: u32): (q: u32)
    requires b > 0
    ensures q as int == CeilDiv(a as int, b as int)
  {
    DivisionFits(a as int, b as int);
    if a % b != 0 then a / b + 1 else a / b
  }

  lemma DivisionFits(a: int, b: int)
    requires 0 <= a && 0 < b
    ensures 0 <= a / b <= a && (a % b != 0 ==> a / b + 1 <= a)
    ensures CeilDiv(a, b) == if a % b != 0 then a / b + 1 else a / b
  {
    CeilByRemainder(a, b);
    CeilSmaller(a, b);
    Division(a, b);
    if a / b < 0 { MulLeq(a / b, -1, b); }
  }

  lemma CeilByRemainder(a: int, b: int)
    requires a >= 0 && b > 0
    ensures CeilDiv(a, b) == a / b + (if a % b != 0 then 1 else 0)
  {
    var q := a / b;
    Division(a, b);
    Distribute(q, 1, b);
    CeilDivLeast(a, b, q);
    CeilDivLeast(a, b, q + 1);
    CeilDivLeast(a, b, q - 1);
    Distribute(q, -1, b);
  }

  /** The kernel's copy in 32-bit words: nothing overflows and it chooses what the host chooses. */
  method SplitLength32(tiles: u32, rows: u32, ns: u32, slots: u32, tn: u32) returns (bestPer: u32)
    requires rows >= 1 && ns >= 1 && slots >= 1 && tn >= 1 && Fits(tiles as int, rows as int, slots as int)
    ensures Chosen(tiles as int, rows as int, ns as int, slots as int, tn as int, bestPer as int)
  {
    var c0 := CeilDiv32(64, tn);
    var best: u32 := 4294967295;
    bestPer := 2;
    var k: u32 := 1;
    ghost var first := 0;
    CandidateSmall(tiles as int, rows as int, ns as int, slots as int, tn as int, 1);
    while k <= 4
      invariant 1 <= k <= 5
      invariant SoFar(tiles as int, rows as int, ns as int, slots as int, tn as int, k as int, first, bestPer as int, best as int, U32_MAX)
    {
      var per := Candidate32(tiles, rows, ns, slots, k);
      var cost := Cost32(tiles, rows, slots, tn, c0, per);
      OneMore(tiles as int, rows as int, ns as int, slots as int, tn as int, k as int, first, bestPer as int, best as int, U32_MAX);
      if cost < best { best, bestPer, first := cost, per, k as int; }
      k := k + 1;
    }
  }

  lemma CandidateSmall(tiles: int, rows: int, ns: int, slots: int, tn: int, k: int)
    requires tiles >= 0 && rows >= 1 && ns >= 1 && slots >= 1 && tn >= 1 && Fits(tiles, rows, slots)
    ensures CandidateCost(tiles, rows, ns, slots, tn, k) < U32_MAX
  {
    SplitsInRange(rows, ns, slots, k);
    CeilSmaller(tiles, Splits(rows, ns, slots, k));
    CostBound(tiles, rows, slots, tn, PerSplit(tiles, rows, ns, slots, k));
  }

  method Waves32(rows: u32, ns: u32, slots: u32, k: u32) returns (s: u32)
    requires rows >= 1 && ns >= 1 && 1 <= k <= 4 && 3 * (slots as int) <= U32_MAX
    ensures s as int == Splits(rows as int, ns as int, slots as int, k as int)
  {
    if k == 4 {
      s := ns;
    } else {
      DivisionFits(k as int * slots as int, rows as int);
      s := k * slots / rows;
    }
    if s > ns { s := ns; }
    if s < 1 { s := 1; }
  }

  method Candidate32(tiles: u32, rows: u32, ns: u32, slots: u32, k: u32) returns (per: u32)
    requires rows >= 1 && ns >= 1 && 1 <= k <= 4 && 3 * (slots as int) <= U32_MAX
    ensures per as int == PerSplit(tiles as int, rows as int, ns as int, slots as int, k as int)
    ensures MIN_TILES <= per as int <= Max(tiles as int, MIN_TILES)
  {
    var s := Waves32(rows, ns, slots, k);
    SplitsInRange(rows as int, ns as int, slots as int, k as int);
    CeilSmaller(tiles as int, s as int);
    per := CeilDiv32(tiles, s);
    if per < 2 { per := 2; }
  }

  method Cost32(tiles: u32, rows: u32, slots: u32, tn: u32, c0: u32, per: u32) returns (cost: u32)
    requires rows >= 1 && slots >= 1 && tn >= 1 && c0 as int == FixedCost(tn as int)
    requires MIN_TILES <= per as int <= Max(tiles as int, MIN_TILES)
    requires Fits(tiles as int, rows as int, slots as int)
    ensures cost as int == Cost(tiles as int, rows as int, slots as int, tn as int, per as int) < U32_MAX
  {
    CostBound(tiles as int, rows as int, slots as int, tn as int, per as int);
    MulLeq(1, rows as int, 34 * tiles as int + 66);
    cost := CeilDiv32(rows * CeilDiv32(tiles, per), slots) * (per + c0);
  }

  // ---- what is minimised --------------------------------------------------

  /** The first three candidates take as many splits as k full waves hold, between one and the cap; the
      fourth takes the cap. */
  lemma SplitsAre(rows: int, ns: int, slots: int, k: int)
    requires rows >= 1 && ns >= 1 && slots >= 1 && 1 <= k <= 4
    ensures var s := Splits(rows, ns, slots, k);
      && (k == 4 ==> s == ns)
      && (k < 4 ==> (s > 1 ==> s * rows <= k * slots) && (s < ns ==> k * slots < (s + 1) * rows))
  {
    if k < 4 {
      var q := k * slots / rows;
      Division(k * slots, rows);
      Distribute(q, 1, rows);
      var s := Splits(rows, ns, slots, k);
      if s > 1 { MulLeq(s, q, rows); }
      if s < ns { MulLeq(q + 1, s + 1, rows); }
    }
  }

  /** The length of its splits is the least, from two tiles on, that covers all tiles. */
  lemma LengthIs(tiles: int, rows: int, ns: int, slots: int, k: int, n: int)
    requires tiles >= 0 && rows >= 1 && ns >= 1 && slots >= 1 && 1 <= k <= 4
    ensures PerSplit(tiles, rows, ns, slots, k) <= n <==> n >= 2 && tiles <= n * Splits(rows, ns, slots, k)
  {
    SplitsInRange(rows, ns, slots, k);
    CeilDivLeast(tiles, Splits(rows, ns, slots, k), n);
  }

  /** With n splits of per tiles in w waves, each split paying for 64 more tokens in tiles of tn, the cost is
      that of w waves of that many tiles. */
  lemma CostIs(tiles: int, rows: int, slots: int, tn: int, per: int, n: int, w: int, fixed: int)
    requires tiles >= 0 && rows >= 1 && slots >= 1 && tn >= 1 && per >= 1
    requires (n - 1) * per < tiles <= n * per && (w - 1) * slots < rows * n <= w * slots && (fixed - 1) * tn < 64 <= fixed * tn
    ensures Cost(tiles, rows, slots, tn, per) == w * (per + fixed)
  {
    CeilIs(tiles, per, n);
    CeilDivBounds(tiles, per);
    MulLeq(0, n, rows);
    CeilIs(rows * n, slots, w);
    CeilIs(64, tn, fixed);
  }
}
