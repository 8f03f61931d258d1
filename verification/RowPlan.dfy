/** plan_rows of src/nvfp4_attn.rs: how many query tokens one CTA takes, and the tile, shared-memory
    and split choices that follow. */
module RowPlan {
  import opened IntMath
  import opened Wrappers

  const MAX_ROWS := 48
  const MAX_SPLITS := 256
  const MAX_Q_LEN := 16
  const SMEM_LIMIT := 101376
  const SMEM_PER_SM := 102400
  const S_SLOTS: seq<int> := [0, 2, 3, 3]

  datatype Error = RowBudget | HeadDim | Heads | QueryLength | NotPositive | GroupTooWide | TooManySlots | NoTile

  datatype Plan = Plan(d: int, g: int, qt: int, nqt: int, m: int, tn: int, ns: int, wv: int, cps: int, rows: int)

  datatype Result<T> = Ok(value: T) | Err(error: Error)

  function Round16(x: int): int { CeilDiv(x, 16) * 16 }

  /** Query tokens per CTA when q tokens are dealt to n CTAs fit the row budget. */
  predicate Fits(q: int, g: int, budget: int, n: int)
    requires n > 0
  {
    Round16(CeilDiv(q, n) * g) <= budget
  }

  // ---- rounding -----------------------------------------------------------

  lemma Round16Bounds(x: int)
    requires x >= 0
    ensures x <= Round16(x) < x + 16 && Round16(x) % 16 == 0
  {
    CeilDivBounds(x, 16);
    MultipleTimes(CeilDiv(x, 16), 16);
  }

  /** A multiple of 16 is an upper bound of x if and only if it is one of its rounding. */
  lemma Round16Fits(x: int, budget: int)
    requires x >= 0 && budget % 16 == 0
    ensures Round16(x) <= budget <==> x <= budget
  {
    Round16Bounds(x);
    Division(budget, 16);
    if x <= budget { CeilDivLeast(x, 16, budget / 16); }
  }

  /** Fewer CTAs than ceil(q * g / budget) cannot do: q * g rows do not fit. */
  lemma TooFew(q: int, g: int, budget: int, n: int)
    requires q >= 1 && g >= 1 && budget >= 16 && budget % 16 == 0 && 1 <= n < CeilDiv(q * g, budget)
    ensures !Fits(q, g, budget, n)
  {
    var t := CeilDiv(q, n);
    CeilDivBounds(q, n);
    MulLeq(1, q, g);
    CeilDivLeast(q * g, budget, n);
    MulLeq(q, t * n, g);
    assert t * n * g == t * g * n;
    assert q * g > n * budget;
    if t * g <= budget { MulLeq(t * g, budget, n); }
    if t <= 0 { MulLeq(t, 0, n); }
    MulLeq(1, t, g);
    Round16Fits(t * g, budget);
  }

  /** More CTAs never get more tokens each. */
  lemma FewerEach(q: int, n: int, k: int)
    requires q >= 1 && 1 <= n <= k
    ensures 1 <= CeilDiv(q, k) <= CeilDiv(q, n) <= q
  {
    CeilDivBounds(q, n);
    CeilDivLeast(q, n, 0);
    CeilDivLeast(q, k, 0);
    MulLeq(n, k, CeilDiv(q, n));
    assert CeilDiv(q, n) * k == k * CeilDiv(q, n) && CeilDiv(q, n) * n == n * CeilDiv(q, n);
    CeilDivLeast(q, k, CeilDiv(q, n));
    CeilDivLeast(q, n, q);
    MulLeq(1, n, q);
  }

  /** Dealing again with the tokens each CTA got takes no more CTAs, and gives each as many. */
  lemma DealAgain(q: int, n: int)
    requires q >= 1 && n >= 1
    ensures var t := CeilDiv(q, n); t >= 1 && 1 <= CeilDiv(q, t) <= n && CeilDiv(q, CeilDiv(q, t)) == t
  {
    var t := CeilDiv(q, n);
    FewerEach(q, n, n);
    CeilDivBounds(q, n);
    assert t * n == n * t;
    CeilDivLeast(q, t, n);
    CeilDivLeast(q, t, 0);
    var k := CeilDiv(q, t);
    CeilDivBounds(q, t);
    assert k * t == t * k;
    CeilDivLeast(q, k, t);
    if CeilDiv(q, k) <= t - 1 { FewerEach(q, k, n); }
  }

  /** The least number of CTAs that fits, and the tokens each takes. */
  ghost predicate LeastCtas(q: int, g: int, budget: int, n: int, t: int) {
    && n >= 1 && t == CeilDiv(q, n) >= 1 && Fits(q, g, budget, n) && (n - 1) * t < q <= n * t
    && forall k :: 1 <= k < n ==> !Fits(q, g, budget, k)
  }

  /** The first number of CTAs from n on that fits, at most q. */
  function FirstFit(q: int, g: int, budget: int, n: int): int
    requires 1 <= n
    decreases q - n
  {
    if n >= q || Fits(q, g, budget, n) then n else FirstFit(q, g, budget, n + 1)
  }

  lemma {:induction false} FirstFitIs(q: int, g: int, budget: int, n: int, k: int)
    requires 1 <= k <= n <= q && Fits(q, g, budget, n) && forall x :: 1 <= x < n ==> !Fits(q, g, budget, x)
    ensures FirstFit(q, g, budget, k) == n
    decreases n - k
  {
    if k < n { FirstFitIs(q, g, budget, n, k + 1); }
  }

  /** The rows of one CTA when the tokens are dealt to as few as fit. */
  function CtaRows(q: int, g: int, budget: int): int
    requires q >= 1
  {
    FirstFit1(q, g, budget);
    Round16(CeilDiv(q, FirstFit(q, g, budget, 1)) * g)
  }

  lemma {:induction false} FirstFitFrom(q: int, g: int, budget: int, n: int)
    requires 1 <= n
    ensures FirstFit(q, g, budget, n) >= n
    decreases q - n
  {
    if n < q && !Fits(q, g, budget, n) { FirstFitFrom(q, g, budget, n + 1); }
  }

  lemma FirstFit1(q: int, g: int, budget: int)
    ensures FirstFit(q, g, budget, 1) >= 1
  {
    FirstFitFrom(q, g, budget, 1);
  }

  lemma CtaRowsAre(q: int, g: int, budget: int, n: int, t: int)
    requires q >= 1 && LeastCtas(q, g, budget, n, t)
    ensures CtaRows(q, g, budget) == Round16(t * g)
  {
    MulLeq(1, t, n - 1);
    FirstFitIs(q, g, budget, n, 1);
  }

  /** Start from the CTAs the rows need at least, and take more while the tokens of one do not fit. */
  method DealRows(q: int, g: int, budget: int) returns (n: int, t: int)
    requires q >= 1 && g >= 1 && budget >= 16 && budget % 16 == 0 && Round16(g) <= budget
    ensures LeastCtas(q, g, budget, n, t)
  {
    MulLeq(1, q, g);
    CeilDivLeast(q * g, budget, 0);
    AtMostAll(q, g, budget);
    n := CeilDiv(q * g, budget);
    t := CeilDiv(q, n);
    forall k | 1 <= k < n ensures !Fits(q, g, budget, k) { TooFew(q, g, budget, k); }
    while Round16(t * g) > budget
      invariant 1 <= n <= q && t == CeilDiv(q, n)
      invariant forall k :: 1 <= k < n ==> !Fits(q, g, budget, k)
      decreases q - n
    {
      OneEach(q);
      assert n != q;
      n := n + 1;
      t := CeilDiv(q, n);
    }
    DealAgain(q, n);
    var again := CeilDiv(q, t);
    assert again < n ==> !Fits(q, g, budget, again);
    n := again;
    CeilDivBounds(q, t);
  }

  lemma OneEach(q: int)
    requires q >= 1
    ensures CeilDiv(q, q) == 1
  {
    CeilDivLeast(q, q, 1);
    CeilDivLeast(q, q, 0);
  }

  lemma AtMostAll(q: int, g: int, budget: int)
    requires q >= 1 && g >= 1 && budget >= 16 && Round16(g) <= budget
    ensures CeilDiv(q * g, budget) <= q
  {
    Round16Bounds(g);
    MulLeq(1, q, g);
    assert q * g == g * q && budget * q == q * budget;
    MulLeq(g, budget, q);
    CeilDivLeast(q * g, budget, q);
  }

  // ---- the rest of the plan -----------------------------------------------

  function PartialSmem(m: int, d: int, tn: int): int {
    m * (d + 8) * 2 + 2 * tn * (d / 2 + 16 + d / 16) * 2 + m * (tn + 8) * 2 + 2 * (tn / 8) * m * 4 + 3 * m * 4
  }

  predicate TileFits(m: int, d: int, page: int, wv: int, cps: int, t: int)
    requires t >= 8 && 8 / (t / 8) > 0 && 0 <= wv <= 3 && cps > 0
  {
    && page % t == 0 && CeilDiv(m / 16, 8 / (t / 8)) <= S_SLOTS[wv]
    && PartialSmem(m, d, t) <= Min(SMEM_LIMIT, SMEM_PER_SM / cps - 1024)
  }

  predicate Tile(t: int) { t == 64 || t == 32 || t == 16 }

  /** The largest of the tiles 64, 32, 16 that divides the page and fits. */
  function PickTile(m: int, d: int, page: int, wv: int, cps: int): Option<int>
    requires 0 <= wv <= 3 && cps > 0
  {
    if TileFits(m, d, page, wv, cps, 64) then Some(64)
    else if TileFits(m, d, page, wv, cps, 32) then Some(32)
    else if TileFits(m, d, page, wv, cps, 16) then Some(16)
    else None
  }

  /** None fits if none is picked, and none that is larger than the one picked. */
  lemma PickedLargest(m: int, d: int, page: int, wv: int, cps: int, t: int)
    requires 0 <= wv <= 3 && cps > 0 && Tile(t) && TileFits(m, d, page, wv, cps, t)
    ensures var p := PickTile(m, d, page, wv, cps);
      p.Some? && t <= p.value && Tile(p.value) && TileFits(m, d, page, wv, cps, p.value)
  {}

  /** Waves per split: the modelled time of a launch of ns splits, over the reals. */
  function WaveCost(rows: int, slots: int, ns: int): real
    requires slots > 0 && ns > 0
  {
    CeilDiv(rows * ns, slots) as real / ns as real
  }

  /** The smallest number of splits within 3 percent of the best. */
  ghost predicate NearBest(rows: int, slots: int, ns: int)
    requires slots > 0
  {
    1 <= ns <= MAX_SPLITS &&
    exists best :: 1 <= best <= MAX_SPLITS
      && (forall x :: 1 <= x <= MAX_SPLITS ==> WaveCost(rows, slots, best) <= WaveCost(rows, slots, x))
      && WaveCost(rows, slots, ns) <= WaveCost(rows, slots, best) * 1.03
      && forall x :: 1 <= x < ns ==> WaveCost(rows, slots, x) > WaveCost(rows, slots, best) * 1.03
  }

  method ChooseSplits(rows: int, slots: int) returns (ns: int)
    requires rows >= 0 && slots >= 1
    ensures NearBest(rows, slots, ns)
  {
    var best := WaveCost(rows, slots, 1);
    ghost var at := 1;
    for x := 2 to MAX_SPLITS + 1
      invariant 1 <= at < x && best == WaveCost(rows, slots, at)
      invariant forall y :: 1 <= y < x ==> best <= WaveCost(rows, slots, y)
    {
      var c := WaveCost(rows, slots, x);
      if c < best { best, at := c, x; }
    }
    CostNonNegative(rows, slots, at);
    ns := 1;
    while WaveCost(rows, slots, ns) > best * 1.03
      invariant 1 <= ns <= at
      invariant forall y :: 1 <= y < ns ==> WaveCost(rows, slots, y) > best * 1.03
      decreases at - ns
    {
      ns := ns + 1;
    }
  }

  lemma CostNonNegative(rows: int, slots: int, ns: int)
    requires rows >= 0 && slots >= 1 && ns >= 1
    ensures WaveCost(rows, slots, ns) >= 0.0
  {
    MulLeq(0, rows, ns);
    CeilDivBounds(rows * ns, slots);
  }

  predicate KnownHeadDim(d: int) { d == 128 || d == 256 || d == 512 }

  /** What the arguments must satisfy before any planning. */
  predicate Shape(batch: int, q: int, hq: int, hkv: int, d: int, sms: int, budget: int) {
    && 16 <= budget <= MAX_ROWS && budget % 16 == 0 && KnownHeadDim(d)
    && hkv > 0 && hq > 0 && hq % hkv == 0 && 1 <= q <= MAX_Q_LEN && batch > 0 && sms > 0
  }

  /** The first guard that the arguments fail, in the order in which they are checked. */
  function Refusal(batch: int, q: int, hq: int, hkv: int, d: int, sms: int, budget: int): (e: Option<Error>)
    requires batch >= 0 && q >= 0 && hq >= 0 && hkv >= 0 && sms >= 0 && budget >= 0
    ensures e == None <==> Shape(batch, q, hq, hkv, d, sms, budget)
  {
    if !RowsOk(budget) then Some(RowBudget)
    else if !KnownHeadDim(d) then Some(HeadDim)
    else if !HeadsOk(hq, hkv) then Some(Heads)
    else if !(1 <= q <= MAX_Q_LEN) then Some(QueryLength)
    else if batch == 0 || sms == 0 then Some(NotPositive)
    else None
  }

  predicate RowsOk(budget: int) { 16 <= budget <= MAX_ROWS && budget % 16 == 0 }

  predicate HeadsOk(hq: int, hkv: int) { hkv > 0 && hq > 0 && hq % hkv == 0 }

  function MergeSmem(ns: int, m: int): int { (ns * m + m) * 4 + m * 8 * 8 * 4 }

  /** The merge kernel of any planned number of splits and rows fits, too. */
  lemma MergeFits(ns: int, m: int)
    requires 1 <= ns <= MAX_SPLITS && 16 <= m <= MAX_ROWS
    ensures MergeSmem(ns, m) <= SMEM_LIMIT
  {
    MulLeq(m, MAX_ROWS, ns);
    MulLeq(ns, MAX_SPLITS, MAX_ROWS);
    assert ns * m == m * ns && MAX_ROWS * ns == ns * MAX_ROWS;
  }

  /** The tile divides the page, and as many CTAs as planned per SM fit its shared memory. */
  predicate TileOk(m: int, d: int, page: int, wv: int, tn: int, cps: int) {
    && (tn == 64 || tn == 32 || tn == 16) && page % tn == 0 && (cps == 1 || (cps == 2 && wv == 1))
    && cps * (PartialSmem(m, d, tn) + 1024) <= SMEM_PER_SM && PartialSmem(m, d, tn) <= SMEM_LIMIT
  }

  ghost predicate Sound(batch: int, q: int, hq: int, hkv: int, d: int, page: int, sms: int, budget: int, p: Plan) {
    && Shape(batch, q, hq, hkv, d, sms, budget) && p.g * hkv == hq && CtaSound(q, d, page, budget, p)
    && p.rows == batch * hkv * p.nqt && NearBest(p.rows, sms * p.cps, p.ns) && MergeSmem(p.ns, p.m) <= SMEM_LIMIT
  }

  lemma GroupPositive(hq: int, hkv: int)
    requires hq > 0 && hkv > 0 && hq % hkv == 0
    ensures hq / hkv >= 1 && hq / hkv * hkv == hq
  {
    Division(hq, hkv);
    if hq / hkv <= 0 { MulLeq(hq / hkv, 0, hkv); }
  }

  lemma RowsOfCta(q: int, g: int, budget: int, n: int, t: int)
    requires q >= 1 && g >= 1 && LeastCtas(q, g, budget, n, t)
    ensures 16 <= Round16(t * g) <= budget && Round16(t * g) % 16 == 0
  {
    MulLeq(1, t, g);
    MulLeq(1, g, 1);
    Round16Bounds(t * g);
  }

  /** Of the tile choices, the first that fits: two CTAs per SM only for the light register variant. */
  function TileChoice(m: int, d: int, page: int, wv: int): Option<(int, int)>
    requires 0 <= wv <= 3
  {
    if wv == 1 && PickTile(m, d, page, wv, 2).Some? then Some((PickTile(m, d, page, wv, 2).value, 2))
    else if PickTile(m, d, page, wv, 1).Some? then Some((PickTile(m, d, page, wv, 1).value, 1))
    else None
  }

  lemma ChoiceFits(m: int, d: int, page: int, wv: int)
    requires 1 <= wv <= 3 && KnownHeadDim(d) && TileChoice(m, d, page, wv).Some?
    ensures TileOk(m, d, page, wv, TileChoice(m, d, page, wv).value.0, TileChoice(m, d, page, wv).value.1)
  {}

  function SlotsPerWarp(m: int, d: int): int
    requires KnownHeadDim(d)
  {
    CeilDiv(m / 16, 8 / (d / 64))
  }

  lemma SlotsPositive(m: int, d: int)
    requires KnownHeadDim(d) && m >= 16
    ensures SlotsPerWarp(m, d) >= 1
  {
    CeilDivLeast(m / 16, 8 / (d / 64), 0);
  }

  lemma LaunchRows(batch: int, hkv: int, nqt: int)
    requires batch >= 1 && hkv >= 1 && nqt >= 1
    ensures batch * hkv * nqt >= 1
  {
    MulLeq(1, batch, hkv);
    MulLeq(1, batch * hkv, nqt);
  }

  /** The part of a plan that concerns one CTA. */
  ghost predicate CtaSound(q: int, d: int, page: int, budget: int, p: Plan) {
    && KnownHeadDim(d) && p.d == d && LeastCtas(q, p.g, budget, p.nqt, p.qt)
    && p.m == Round16(p.qt * p.g) && 16 <= p.m <= budget
    && p.wv == SlotsPerWarp(p.m, d) && 1 <= p.wv <= 3 && TileOk(p.m, d, page, p.wv, p.tn, p.cps)
    && TileChoice(p.m, d, page, p.wv) == Some((p.tn, p.cps))
  }

  /** CTAs of m rows have no tile of the page. */
  predicate Tileless(m: int, d: int, page: int)
    requires KnownHeadDim(d)
  {
    0 <= SlotsPerWarp(m, d) <= 3 && TileChoice(m, d, page, SlotsPerWarp(m, d)).None?
  }

  /** What becomes of CTAs of m rows: a plan, or the error that says why there is none. */
  predicate Outcome(m: int, d: int, page: int, r: Result<Plan>)
    requires KnownHeadDim(d)
  {
    && (r == Err(TooManySlots) <==> SlotsPerWarp(m, d) > 3) && (r == Err(NoTile) <==> Tileless(m, d, page))
    && (r.Ok? || r == Err(TooManySlots) || r == Err(NoTile)) && (r.Ok? ==> r.value.m == m)
  }

  /** Register variant and tile for the rows of one CTA. */
  method FinishCta(q: int, d: int, page: int, budget: int, g: int, nqt: int, qt: int) returns (r: Result<Plan>)
    requires KnownHeadDim(d) && q >= 1 && g >= 1 && LeastCtas(q, g, budget, nqt, qt)
    ensures r.Ok? ==> CtaSound(q, d, page, budget, r.value) && r.value.g == g && r.value.nqt == nqt
    ensures Outcome(CtaRows(q, g, budget), d, page, r)
  {
    RowsOfCta(q, g, budget, nqt, qt);
    CtaRowsAre(q, g, budget, nqt, qt);
    var m := Round16(qt * g);
    var wv := SlotsPerWarp(m, d);
    SlotsPositive(m, d);
    if wv > 3 { return Err(TooManySlots); }
    var choice := TileChoice(m, d, page, wv);
    if choice.None? { return Err(NoTile); }
    ChoiceFits(m, d, page, wv);
    r := Ok(Plan(d, g, qt, nqt, m, choice.value.0, 1, wv, choice.value.1, 1));
  }

  /** Rows and splits do not concern a single CTA. */
  lemma SameCta(q: int, d: int, page: int, budget: int, p: Plan, p': Plan)
    requires CtaSound(q, d, page, budget, p) && p' == p.(ns := p'.ns, rows := p'.rows)
    ensures CtaSound(q, d, page, budget, p')
  {}

  /** What the splits of a launch must be. */
  method Launch(batch: int, hkv: int, nqt: int, sms: int, cps: int) returns (rows: int, ns: int)
    requires batch >= 1 && hkv >= 1 && nqt >= 1 && sms >= 1 && cps >= 1
    ensures rows == batch * hkv * nqt && NearBest(rows, sms * cps, ns)
  {
    LaunchRows(batch, hkv, nqt);
    MulLeq(1, sms, cps);
    rows := batch * hkv * nqt;
    ns := ChooseSplits(rows, sms * cps);
  }

  /** Launch rows and splits. */
  method FinishPlan(batch: int, q: int, hq: int, hkv: int, d: int, page: int, sms: int, budget: int, g: int, nqt: int, qt: int)
    returns (r: Result<Plan>)
    requires Shape(batch, q, hq, hkv, d, sms, budget) && g >= 1 && g * hkv == hq && LeastCtas(q, g, budget, nqt, qt)
    ensures r.Ok? ==> Sound(batch, q, hq, hkv, d, page, sms, budget, r.value)
    ensures Outcome(CtaRows(q, g, budget), d, page, r)
  {
    r := FinishCta(q, d, page, budget, g, nqt, qt);
    if r.Ok? {
      var p := r.value;
      var rows, ns := Launch(batch, hkv, nqt, sms, p.cps);
      MergeFits(ns, p.m);
      SameCta(q, d, page, budget, p, p.(ns := ns, rows := rows));
      r := Ok(p.(ns := ns, rows := rows));
    }
  }

  /** A plan within the row, page and shared-memory limits, with the fewest CTAs per request. */
  method PlanRows(batch: int, q: int, hq: int, hkv: int, d: int, page: int, sms: int, budget: int) returns (r: Result<Plan>)
    requires batch >= 0 && q >= 0 && hq >= 0 && hkv >= 0 && page >= 0 && sms >= 0 && budget >= 0
    ensures r.Ok? ==> Sound(batch, q, hq, hkv, d, page, sms, budget, r.value)
    ensures var e := Refusal(batch, q, hq, hkv, d, sms, budget);
      if e.Some? then r == Err(e.value) else r.Ok? || r.error in {GroupTooWide, TooManySlots, NoTile}
    ensures r == Err(GroupTooWide) <==> Shape(batch, q, hq, hkv, d, sms, budget) && Round16(hq / hkv) > budget
    ensures Shape(batch, q, hq, hkv, d, sms, budget) && Round16(hq / hkv) <= budget ==> Outcome(CtaRows(q, hq / hkv, budget), d, page, r)
  {
    if !(16 <= budget <= MAX_ROWS) || budget % 16 != 0 { return Err(RowBudget); }
    if !KnownHeadDim(d) { return Err(HeadDim); }
    if hkv == 0 || hq == 0 || hq % hkv != 0 { return Err(Heads); }
    if q == 0 || q > MAX_Q_LEN { return Err(QueryLength); }
    if batch == 0 || sms == 0 { return Err(NotPositive); }
    var g := hq / hkv;
    GroupPositive(hq, hkv);
    if Round16(g) > budget { return Err(GroupTooWide); }
    var nqt, qt := DealRows(q, g, budget);
    r := FinishPlan(batch, q, hq, hkv, d, page, sms, budget, g, nqt, qt);
  }

  // ---- what is minimised and bounded --------------------------------------

  /** With w waves, w the least that holds the CTAs of ns splits, the cost is w / ns. */
  lemma WaveCostIs(rows: int, slots: int, ns: int, w: int)
    requires rows >= 0 && slots >= 1 && ns >= 1 && (w - 1) * slots < rows * ns <= w * slots
    ensures WaveCost(rows, slots, ns) == w as real / ns as real
  {
    MulLeq(0, rows, ns);
    CeilIs(rows * ns, slots, w);
  }

  /** The shared memory, sorted by what it is for: every query row takes its 16-bit dimensions and weights, the
      maximum and sum of each group of eight tokens, and three words; every token of the two stages takes a key and
      a value of half a byte a dimension with a scale a sixteenth dimension, padded by 16 bytes. */
  lemma SmemIs(m: int, dims: int, groups: int)
    requires m >= 0 && dims >= 0 && groups >= 0
    ensures PartialSmem(m, 16 * dims, 8 * groups) ==
      m * (2 * (16 * dims + 8) + 2 * (8 * groups + 8) + 8 * groups + 12) + 8 * groups * (2 * 2 * (8 * dims + 16 + dims))
  {
    var d, tn := 16 * dims, 8 * groups;
    assert d / 2 == 8 * dims && d / 16 == dims && tn / 8 == groups;
    var key := 8 * dims + 16 + dims;
    assert 2 * tn * key * 2 == 8 * groups * (2 * 2 * key);
    Collect(m, d + 8, tn + 8, groups);
  }

  lemma Collect(m: int, a: int, b: int, g: int)
    ensures m * a * 2 + m * b * 2 + 2 * g * m * 4 + 3 * m * 4 == m * (2 * a + 2 * b + 8 * g + 12)
  {}

  lemma Sixteenths(m: int)
    requires m % 16 == 0
    ensures m == m / 16 * 16
  {}

  /** A tile of t tokens fits exactly if it divides the page, the m by t scores are no more than the register
      variant holds, 1024 a slot, and `cps` CTAs, with 1 KB each on top, share the memory of an SM. */
  lemma TileFitsIs(m: int, d: int, page: int, wv: int, cps: int, t: int)
    requires m >= 16 && m % 16 == 0 && 0 <= wv <= 3 && (cps == 1 || cps == 2) && Tile(t)
    ensures TileFits(m, d, page, wv, cps, t) <==>
      && page % t == 0 && m * t <= 1024 * (if wv == 0 then 0 else if wv == 1 then 2 else 3)
      && PartialSmem(m, d, t) <= 99 * 1024 && cps * (PartialSmem(m, d, t) + 1024) <= 100 * 1024
  {
    Sixteenths(m);
    CeilDivLeast(m / 16, 8 / (t / 8), S_SLOTS[wv]);
  }

  /** The register variant is the least number of output slots, 8192 row dimensions each, that holds a CTA. */
  lemma SlotsAre(m: int, d: int, v: int)
    requires m >= 16 && m % 16 == 0 && KnownHeadDim(d)
    ensures SlotsPerWarp(m, d) <= v <==> m * d <= 8192 * v
  {
    Sixteenths(m);
    CeilDivLeast(m / 16, 8 / (d / 64), v);
  }

  /** The merge kernel keeps a weight for every split of every row, a scale a row, and 64 words a row to reduce in. */
  lemma MergeSmemIs(ns: int, m: int)
    ensures MergeSmem(ns, m) == 4 * (m * (ns + 65))
  {
    Distribute(ns, 65, m);
  }
}
