/** Launch planning of src/nvfp4_ds_mla.rs: the wave-aware split count and the shape contract. */
module WaveSplits {
  import opened IntMath

  const TN := 64
  const MAX_SPLITS := 256
  const DIM := 512
  const PE_DIM := 64
  const U32_MAX := 4294967295
  const I32_MAX := 2147483647

  /** Tiles per split, and the modelled time of a launch: waves times the time of one CTA. */
  function SplitLength(tiles: int, ns: int): int
    requires ns > 0
  {
    CeilDiv(tiles, ns)
  }

  function Cost(rows: int, tiles: int, sms: int, c2: int, ns: int): int
    requires ns > 0 && sms > 0
  {
    CeilDiv(rows * ns, sms) * (2 * SplitLength(tiles, ns) + c2)
  }

  /** No smaller number of splits has splits as short. */
  predicate Canonical(tiles: int, ns: int)
    requires ns > 0
  {
    SplitLength(tiles, ns) > 0 && CeilDiv(tiles, SplitLength(tiles, ns)) == ns
  }

  /** The canonical number of splits of ns's length. */
  function Reduced(tiles: int, ns: int): int
    requires ns > 0
  {
    if SplitLength(tiles, ns) > 0 then CeilDiv(tiles, SplitLength(tiles, ns)) else ns
  }

  lemma LengthPositive(tiles: int, ns: int)
    requires tiles >= 1 && ns >= 1
    ensures SplitLength(tiles, ns) >= 1
  {
    CeilDivBounds(tiles, ns);
    if SplitLength(tiles, ns) <= 0 { MulLeq(SplitLength(tiles, ns), 0, ns); }
  }

  /** Reducing never adds splits, keeps their length, and gives a canonical count. */
  lemma ReducedIsCanonical(tiles: int, ns: int)
    requires tiles >= 1 && ns >= 1
    ensures 1 <= Reduced(tiles, ns) <= ns && Canonical(tiles, Reduced(tiles, ns))
    ensures SplitLength(tiles, Reduced(tiles, ns)) == SplitLength(tiles, ns)
  {
    var k := SplitLength(tiles, ns);
    LengthPositive(tiles, ns);
    var m := CeilDiv(tiles, k);
    LengthPositive(tiles, k);
    CeilDivBounds(tiles, ns);
    CeilDivLeast(tiles, k, ns);
    assert k * ns == ns * k;
    CeilDivBounds(tiles, k);
    assert k * m == m * k;
    CeilDivLeast(tiles, m, k);
    if CeilDiv(tiles, m) <= k - 1 {
      CeilDivLeast(tiles, m, k - 1);
      MulLeq(m, ns, k - 1);
      CeilDivLeast(tiles, ns, k - 1);
    }
  }

  lemma CeilGrows(a: int, b: int, d: int)
    requires 0 <= a <= b && d > 0
    ensures 0 <= CeilDiv(a, d) <= CeilDiv(b, d)
  {
    CeilDivBounds(a, d);
    CeilDivBounds(b, d);
    CeilDivLeast(a, d, CeilDiv(b, d));
  }

  /** So it never costs more. */
  lemma ReducedNotDearer(rows: int, tiles: int, sms: int, c2: int, ns: int)
    requires rows >= 0 && tiles >= 1 && sms >= 1 && c2 >= 0 && ns >= 1
    ensures Reduced(tiles, ns) >= 1 && Cost(rows, tiles, sms, c2, Reduced(tiles, ns)) <= Cost(rows, tiles, sms, c2, ns)
  {
    ReducedIsCanonical(tiles, ns);
    var m := Reduced(tiles, ns);
    LengthPositive(tiles, ns);
    MulLeq(m, ns, rows);
    MulLeq(0, m, rows);
    CeilGrows(rows * m, rows * ns, sms);
    MulLeq(CeilDiv(rows * m, sms), CeilDiv(rows * ns, sms), 2 * SplitLength(tiles, ns) + c2);
  }

  /** Every canonical count below n costs at least as much, and more if it is smaller than ns. */
  ghost predicate BestBelow(rows: int, tiles: int, sms: int, c2: int, n: int, ns: int)
    requires sms > 0
  {
    1 <= ns < n && Canonical(tiles, ns) && forall x :: 1 <= x < n ==> NoBetter(rows, tiles, sms, c2, ns, x)
  }

  predicate NoBetter(rows: int, tiles: int, sms: int, c2: int, ns: int, x: int)
    requires sms > 0 && ns >= 1 && x >= 1
  {
    Canonical(tiles, x) ==>
      Cost(rows, tiles, sms, c2, ns) <= Cost(rows, tiles, sms, c2, x)
      && (x < ns ==> Cost(rows, tiles, sms, c2, ns) < Cost(rows, tiles, sms, c2, x))
  }

  /** Among all counts up to the limit, canonical or not, the smallest of least cost. */
  ghost predicate Optimal(rows: int, tiles: int, sms: int, c2: int, ns: int)
    requires sms > 0
  {
    && 1 <= ns <= Min(tiles, MAX_SPLITS) && Canonical(tiles, ns)
    && (forall x :: 1 <= x <= Min(tiles, MAX_SPLITS) ==> Cost(rows, tiles, sms, c2, ns) <= Cost(rows, tiles, sms, c2, x))
    && (forall x :: 1 <= x < ns ==> Cost(rows, tiles, sms, c2, ns) < Cost(rows, tiles, sms, c2, x))
  }

  lemma BestIsOptimal(rows: int, tiles: int, sms: int, c2: int, ns: int)
    requires rows >= 0 && tiles >= 1 && sms >= 1 && c2 >= 0
    requires BestBelow(rows, tiles, sms, c2, Min(tiles, MAX_SPLITS) + 1, ns)
    ensures Optimal(rows, tiles, sms, c2, ns)
  {
    forall x | 1 <= x <= Min(tiles, MAX_SPLITS)
      ensures Cost(rows, tiles, sms, c2, ns) <= Cost(rows, tiles, sms, c2, x)
      ensures x < ns ==> Cost(rows, tiles, sms, c2, ns) < Cost(rows, tiles, sms, c2, x)
    {
      ReducedIsCanonical(tiles, x);
      ReducedNotDearer(rows, tiles, sms, c2, x);
      assert NoBetter(rows, tiles, sms, c2, ns, Reduced(tiles, x));
    }
  }

  /** The loop visits canonical counts only, and keeps the first of least cost. */
  method WaveSplitCount(rows: int, tiles: int, sms: int, c2: int) returns (ns: int)
    requires rows >= 0 && tiles >= 0 && sms >= 1 && c2 >= 0
    ensures tiles == 0 ==> ns == 1
    ensures tiles >= 1 ==> Optimal(rows, tiles, sms, c2, ns)
  {
    var best := -1;
    ns := 1;
    var last := Min(tiles, MAX_SPLITS);
    for n := 1 to last + 1
      invariant n == 1 ==> best == -1 && ns == 1
      invariant n > 1 ==> BestBelow(rows, tiles, sms, c2, n, ns) && best == Cost(rows, tiles, sms, c2, ns) >= 0
    {
      if n == 1 { OneIsCanonical(tiles); }
      if Canonical(tiles, n) {
        var cost := Cost(rows, tiles, sms, c2, n);
        CostNonNegative(rows, tiles, sms, c2, n);
        NextBest(rows, tiles, sms, c2, n, if n == 1 || cost < best then n else ns, ns);
        if best < 0 || cost < best { best, ns := cost, n; }
      } else {
        SkipOne(rows, tiles, sms, c2, n, ns);
      }
    }
    if tiles >= 1 { BestIsOptimal(rows, tiles, sms, c2, ns); }
  }

  lemma CostNonNegative(rows: int, tiles: int, sms: int, c2: int, ns: int)
    requires rows >= 0 && tiles >= 1 && sms >= 1 && c2 >= 0 && ns >= 1
    ensures Cost(rows, tiles, sms, c2, ns) >= 0
  {
    LengthPositive(tiles, ns);
    MulLeq(0, rows, ns);
    CeilDivBounds(rows * ns, sms);
    MulLeq(0, CeilDiv(rows * ns, sms), 2 * SplitLength(tiles, ns) + c2);
  }

  lemma OneIsCanonical(tiles: int)
    requires tiles >= 1
    ensures Canonical(tiles, 1)
  {
    ReducedIsCanonical(tiles, 1);
  }

  /** A count that is not canonical changes nothing. */
  lemma SkipOne(rows: int, tiles: int, sms: int, c2: int, n: int, ns: int)
    requires sms >= 1 && n >= 1 && !Canonical(tiles, n) && BestBelow(rows, tiles, sms, c2, n, ns)
    ensures BestBelow(rows, tiles, sms, c2, n + 1, ns)
  {
    forall x | 1 <= x < n + 1 ensures NoBetter(rows, tiles, sms, c2, ns, x) {
      if x < n { assert NoBetter(rows, tiles, sms, c2, ns, x); }
    }
  }

  lemma NextBest(rows: int, tiles: int, sms: int, c2: int, n: int, new': int, ns: int)
    requires sms >= 1 && n >= 1 && Canonical(tiles, n)
    requires n > 1 ==> BestBelow(rows, tiles, sms, c2, n, ns)
    requires n > 1 ==> new' == if Cost(rows, tiles, sms, c2, n) < Cost(rows, tiles, sms, c2, ns) then n else ns
    requires n == 1 ==> new' == 1
    ensures BestBelow(rows, tiles, sms, c2, n + 1, new')
  {
    forall x | 1 <= x < n + 1 ensures NoBetter(rows, tiles, sms, c2, new', x) {
      if x < n { assert NoBetter(rows, tiles, sms, c2, ns, x); }
    }
  }

  // ---- the plan -----------------------------------------------------------

  datatype Error = NotPositive | CapacityTooLarge | GridX | GridY | PartialIndex | QueryIndex | TopkIndex

  datatype Plan = Plan(hqt: int, perSplit: int, ns: int, rows: int, mergeRows: int)

  datatype Result<T> = Ok(value: T) | Err(error: Error)

  /** Capacity rows per split of a workspace with ns splits. */
  function SplitRows(capacity: int, ns: int): int {
    TN * CeilDiv(CeilDiv(capacity, TN), Max(ns, 1))
  }

  /** The shape contract: the first bound that a launch exceeds, if any. */
  function CheckLaunch(t: int, h: int, c: int, n: int): (r: Result<()>)
    ensures r.Ok? <==> t * h <= I32_MAX && n <= 65535 && t * h * n * DIM <= U32_MAX && t * h * (DIM + PE_DIM) <= U32_MAX && t * c <= U32_MAX
    ensures r.Err? ==> r.error in {GridX, GridY, PartialIndex, QueryIndex, TopkIndex}
  {
    if t * h > I32_MAX then Err(GridX)
    else if n > 65535 then Err(GridY)
    else if t * h * n * DIM > U32_MAX then Err(PartialIndex)
    else if t * h * (DIM + PE_DIM) > U32_MAX then Err(QueryIndex)
    else if t * c > U32_MAX then Err(TopkIndex)
    else Ok(())
  }

  /** The splits [i * p, (i + 1) * p) of [0, c) for i < n: all of c, and none empty. */
  predicate Splits(c: int, p: int, n: int) {
    p > 0 && (n - 1) * p < c <= n * p
  }

  lemma Regroup(x: int, b: int, a: int)
    ensures x * b * a == x * (a * b)
  {}

  /** Ceilings compose. */
  lemma CeilCeil(c: int, a: int, b: int)
    requires c >= 0 && a > 0 && b > 0
    ensures a * b > 0 && CeilDiv(c, a * b) == CeilDiv(CeilDiv(c, a), b)
  {
    MulLeq(1, a, b);
    var ab, u := a * b, CeilDiv(c, a);
    var v, w := CeilDiv(u, b), CeilDiv(c, ab);
    CeilDivBounds(c, a);
    CeilDivBounds(c, ab);
    CeilDivBounds(u, b);
    Regroup(w, b, a);
    Regroup(v, b, a);
    CeilDivLeast(c, a, w * b);
    CeilDivLeast(u, b, w);
    CeilDivLeast(c, a, v * b);
    CeilDivLeast(c, ab, v);
  }

  /** A canonical count of splits covers the capacity exactly, with none of them empty. */
  lemma CanonicalSplits(capacity: int, ns: int)
    requires capacity >= 1 && ns >= 1 && Canonical(CeilDiv(capacity, TN), ns)
    ensures SplitRows(capacity, ns) > 0 && SplitRows(capacity, ns) % TN == 0
    ensures CeilDiv(capacity, SplitRows(capacity, ns)) == ns && Splits(capacity, SplitRows(capacity, ns), ns)
  {
    var k := SplitLength(CeilDiv(capacity, TN), ns);
    CeilCeil(capacity, TN, k);
    CeilDivBounds(capacity, TN * k);
    assert TN * k % TN == 0 by { assert TN * k == k * TN; MultipleTimes(k, TN); }
  }

  lemma HeadTiles(t: int, h: int)
    requires t >= 0 && h >= 1
    ensures 1 <= CeilDiv(h, 8) <= h && 0 <= t * CeilDiv(h, 8) <= t * h
  {
    CeilDivLeast(h, 8, h);
    CeilDivLeast(h, 8, 0);
    MulLeq(CeilDiv(h, 8), h, t);
    MulLeq(0, CeilDiv(h, 8), t);
  }

  predicate Sound(t: int, h: int, c: int, sms: int, c2: int, p: Plan) {
    && p.hqt == CeilDiv(h, 8) && p.rows == t * p.hqt && p.mergeRows == t * h
    && 1 <= p.ns <= Min(CeilDiv(c, TN), MAX_SPLITS)
    && p.perSplit > 0 && p.perSplit % TN == 0 && CeilDiv(c, p.perSplit) == p.ns && Splits(c, p.perSplit, p.ns)
    && p.rows <= p.mergeRows <= I32_MAX && t * h * p.ns * DIM <= U32_MAX && t * h * (DIM + PE_DIM) <= U32_MAX && t * c <= U32_MAX
  }

  predicate Plannable(t: int, h: int, c: int, sms: int) { t > 0 && h > 0 && sms > 0 && 0 < c <= U32_MAX }

  /** A plan from the shape only: of least modelled time, no split empty, and within every bound of
      the launch. It is refused only for a non-positive or too large shape, or for an exceeded bound. */
  method MakePlan(t: int, h: int, c: int, sms: int, c2: int) returns (r: Result<Plan>, ghost ns: int)
    requires t >= 0 && h >= 0 && c >= 0 && sms >= 0 && c2 >= 0
    ensures r.Ok? ==> Sound(t, h, c, sms, c2, r.value) && sms >= 1 && Optimal(r.value.rows, CeilDiv(c, TN), sms, c2, r.value.ns)
    ensures r == Err(NotPositive) <==> t == 0 || h == 0 || c == 0 || sms == 0
    ensures r == Err(CapacityTooLarge) <==> t > 0 && h > 0 && sms > 0 && c > U32_MAX
    ensures Plannable(t, h, c, sms) ==>
      && ns >= 1 && Optimal(t * CeilDiv(h, 8), CeilDiv(c, TN), sms, c2, ns)
      && (r.Ok? <==> CheckLaunch(t, h, c, ns).Ok?) && (r.Ok? ==> r.value.ns == ns)
      && (r.Err? ==> CheckLaunch(t, h, c, ns) == Err(r.error))
  {
    ns := 1;
    if t == 0 || h == 0 || sms == 0 || c == 0 { return Err(NotPositive), ns; }
    if c > U32_MAX { return Err(CapacityTooLarge), ns; }
    var hqt := CeilDiv(h, 8);
    HeadTiles(t, h);
    CeilDivLeast(c, TN, 0);
    var splits := WaveSplitCount(t * hqt, CeilDiv(c, TN), sms, c2);
    ns := splits;
    CanonicalSplits(c, splits);
    var launch := CheckLaunch(t, h, c, splits);
    if launch.Err? { return Err(launch.error), ns; }
    r := Ok(Plan(hqt, SplitRows(c, splits), splits, t * hqt, t * h));
  }

  // ---- what is minimised --------------------------------------------------

  /** With splits of k tiles, k the least that covers the tiles, and w waves, w the least that holds the CTAs,
      the cost is that of w waves of k tiles and c2 half tiles each. */
  lemma CostIs(rows: int, tiles: int, sms: int, c2: int, ns: int, k: int, w: int)
    requires rows >= 0 && tiles >= 0 && sms >= 1 && ns >= 1
    requires (k - 1) * ns < tiles <= k * ns && (w - 1) * sms < rows * ns <= w * sms
    ensures Cost(rows, tiles, sms, c2, ns) == w * (2 * k + c2)
  {
    MulLeq(0, rows, ns);
    CeilIs(tiles, ns, k);
    CeilIs(rows * ns, sms, w);
  }

  /** The rows of a split: the least multiple of 64 that covers the capacity in ns splits. */
  lemma SplitRowsIs(capacity: int, ns: int, k: int)
    requires capacity >= 0 && ns >= 1
    ensures 64 * k >= SplitRows(capacity, ns) <==> capacity <= 64 * k * ns
  {
    var u := CeilDiv(capacity, TN);
    CeilDivBounds(capacity, TN);
    CeilDivLeast(u, ns, k);
    CeilDivLeast(capacity, TN, k * ns);
    assert k * ns * 64 == 64 * k * ns;
  }

  /** The bounds of a launch, and which of those that are exceeded is reported. */
  lemma CheckLaunchIs(t: int, h: int, c: int, n: int)
    ensures var r := CheckLaunch(t, h, c, n); var words := 4294967296;
      && (r == Err(GridX) <==> t * h >= 2147483648)
      && (r == Err(GridY) <==> t * h < 2147483648 && n >= 65536)
      && (r == Err(PartialIndex) <==> t * h < 2147483648 && n < 65536 && t * h * n * 512 >= words)
      && (r == Err(QueryIndex) <==> t * h < 2147483648 && n < 65536 && t * h * n * 512 < words && t * h * 576 >= words)
  {}
}
