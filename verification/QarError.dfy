/** The int8 arithmetic of suffix_hybrid/nccl_qar.py over the reals, and how far its result is from the exact sum. */
module QarError {
  import opened IntMath
  import opened RealMath
  import opened QarReduce

  const FLOOR := 1e-30
  const QMAX := 127.0

  /** clamp_min(1e-30). */
  function Floored(m: real): (f: real)
    ensures f >= m && f >= FLOOR
  {
    if m < FLOOR then FLOOR else m
  }

  function Scale(blk: seq<real>): real { Floored(Amax(blk)) / QMAX }

  function Clamp(q: int): int { if q < -127 then -127 else if q > 127 then 127 else q }

  /** round(v / s), clamped. A scale is never zero. */
  function Code(v: real, s: real): int { if s == 0.0 then 0 else Clamp(RoundEven(v / s)) }

  function Value(q: int, s: real): real { q as real * s }

  function Add(x: real, y: real): real { x + y }

  function Same(x: real): real { x }

  const INT8: Arith<real> := Arith(0.0, Scale, Code, Value, Add, Same)

  // ---- one requantization -------------------------------------------------

  lemma ScaleIs(f: real, s: real)
    requires f > 0.0 && s == f / QMAX
    ensures s > 0.0 && s * QMAX == f && s / 2.0 == f / 254.0
  {}

  lemma QuotientBound(v: real, s: real, u: real)
    requires s > 0.0 && u * s == v && Abs(v) <= s * QMAX
    ensures Abs(u) <= QMAX
  {
    AbsTimes(u, s);
    assert Abs(u) > QMAX ==> (Abs(u) - QMAX) * s > 0.0;
  }

  /** The clamp never bites: the block's own maximum bounds the quotient. */
  lemma NoClamp(u: real)
    requires Abs(u) <= QMAX
    ensures Clamp(RoundEven(u)) == RoundEven(u)
  {
    RoundEvenIs(u);
  }

  lemma HalfScale(v: real, s: real, u: real, q: real)
    requires s > 0.0 && u * s == v && Abs(q - u) <= 0.5
    ensures Abs(q * s - v) <= s / 2.0
  {
    var d, e := q - u, q * s - v;
    assert d * s == q * s - u * s;
    assert e == d * s;
    AbsTimes(d, s);
    TimesGrows(Abs(d), 0.5, s);
  }

  lemma RoundError(v: real, f: real, s: real)
    requires f > 0.0 && s == f / QMAX && Abs(v) <= f
    ensures Abs(Value(Code(v, s), s) - v) <= f / 254.0
  {
    ScaleIs(f, s);
    CodeError(v, s, v / s);
  }

  lemma CodeError(v: real, s: real, u: real)
    requires s > 0.0 && u == v / s && Abs(v) <= s * QMAX
    ensures Abs(Value(Code(v, s), s) - v) <= s / 2.0
  {
    assert u * s == v;
    QuotientBound(v, s, u);
    NoClamp(u);
    RoundEvenIs(u);
    HalfScale(v, s, u, RoundEven(u) as real);
  }

  /** What a block of magnitude m may lose: nothing if it is all zero, otherwise half a step. */
  function Lost(m: real): real { if m == 0.0 then 0.0 else Floored(m) / 254.0 }

  lemma LostGrows(a: real, b: real)
    requires 0.0 <= a <= b
    ensures Lost(a) <= Lost(b)
  {}

  lemma RequantError(blk: seq<real>, i: nat)
    requires i < |blk|
    ensures Abs(Requant(INT8, blk, i) - blk[i]) <= Lost(Amax(blk))
  {
    if Amax(blk) == 0.0 {
      ZeroStays(blk[i], Scale(blk));
    } else {
      RoundError(blk[i], Floored(Amax(blk)), Scale(blk));
    }
  }

  lemma ZeroStays(v: real, s: real)
    requires v == 0.0
    ensures Value(Code(v, s), s) == 0.0
  {
    assert s != 0.0 ==> v / s == 0.0;
  }

  // ---- the sum ------------------------------------------------------------

  function Sum(v: seq<real>): real { if v == [] then 0.0 else Sum(v[..|v| - 1]) + v[|v| - 1] }

  lemma {:induction false} FoldIsSum(v: seq<real>)
    requires |v| > 0
    ensures Fold(INT8, v) == Sum(v)
  {
    if |v| > 1 {
      FoldIsSum(v[..|v| - 1]);
    } else {
      assert v[..0] == [];
    }
  }

  lemma {:induction false} SumError(v: seq<real>, x: seq<real>, e: seq<real>)
    requires |v| == |x| == |e| && forall r :: 0 <= r < |v| ==> Abs(v[r] - x[r]) <= e[r]
    ensures Abs(Sum(v) - Sum(x)) <= Sum(e)
  {
    if v != [] {
      var m := |v| - 1;
      SumError(v[..m], x[..m], e[..m]);
    }
  }

  predicate Inputs(xs: seq<seq<real>>, n: nat, b: nat) {
    SameLength(xs, n) && |xs| > 0 && b < |xs| * RowBlocks(n, |xs|)
  }

  /** Element t of block b on every rank. */
  function ExactColumn(xs: seq<seq<real>>, n: nat, b: nat, t: nat): (v: seq<real>)
    requires Inputs(xs, n, b) && t < BLOCK
    ensures |v| == |xs|
  {
    seq(|xs|, r requires 0 <= r < |xs| => InputBlock(INT8, xs[r], |xs|, b)[t])
  }

  /** The exact sum, over block b. */
  function ExactBlock(xs: seq<seq<real>>, n: nat, b: nat): (blk: seq<real>)
    requires Inputs(xs, n, b)
    ensures |blk| == BLOCK
  {
    seq(BLOCK, t requires 0 <= t < BLOCK => Sum(ExactColumn(xs, n, b, t)))
  }

  /** The first stage: what each rank's block loses, added up. */
  function FirstError(xs: seq<seq<real>>, n: nat, b: nat): real
    requires Inputs(xs, n, b)
  {
    Sum(FirstErrors(xs, n, b))
  }

  function FirstErrors(xs: seq<seq<real>>, n: nat, b: nat): (e: seq<real>)
    requires Inputs(xs, n, b)
    ensures |e| == |xs|
  {
    seq(|xs|, r requires 0 <= r < |xs| => Lost(Amax(InputBlock(INT8, xs[r], |xs|, b))))
  }

  /** The second: what a block loses whose magnitude is the largest exact sum plus the first error. */
  function SecondError(xs: seq<seq<real>>, n: nat, b: nat): real
    requires Inputs(xs, n, b)
  {
    Lost(Amax(ExactBlock(xs, n, b)) + FirstError(xs, n, b))
  }

  lemma PartError(xs: seq<seq<real>>, n: nat, b: nat, t: nat)
    requires Inputs(xs, n, b) && t < BLOCK
    ensures Abs(PartBlock(INT8, xs, n, b)[t] - ExactBlock(xs, n, b)[t]) <= FirstError(xs, n, b)
  {
    var v, x, e := BlockColumn(INT8, xs, n, b, t), ExactColumn(xs, n, b, t), FirstErrors(xs, n, b);
    forall r | 0 <= r < |xs| ensures Abs(v[r] - x[r]) <= e[r] {
      RequantError(InputBlock(INT8, xs[r], |xs|, b), t);
    }
    FoldIsSum(v);
    SumError(v, x, e);
  }

  lemma Triangle(x: real, y: real, e: real, m: real)
    requires Abs(x - y) <= e && Abs(y) <= m
    ensures Abs(x) <= m + e
  {}

  lemma PartAmax(xs: seq<seq<real>>, n: nat, b: nat)
    requires Inputs(xs, n, b)
    ensures Amax(PartBlock(INT8, xs, n, b)) <= Amax(ExactBlock(xs, n, b)) + FirstError(xs, n, b)
  {
    var part, exact, e := PartBlock(INT8, xs, n, b), ExactBlock(xs, n, b), FirstError(xs, n, b);
    forall t | 0 <= t < BLOCK ensures Abs(part[t]) <= Amax(exact) + e {
      PartError(xs, n, b, t);
      Triangle(part[t], exact[t], e, Amax(exact));
    }
    PartError(xs, n, b, 0);
    AmaxLeast(part, Amax(exact) + e);
  }

  /** Every element of the result is within the two-stage bound of the exact sum. */
  lemma ErrorBound(xs: seq<seq<real>>, n: nat, i: nat, b: nat)
    requires SameLength(xs, n) && |xs| > 0 && i < n && b == i / BLOCK
    ensures Inputs(xs, n, b)
    ensures Abs(Simulate(INT8, xs, n)[i] - ExactBlock(xs, n, b)[i % BLOCK]) <= FirstError(xs, n, b) + SecondError(xs, n, b)
  {
    SimulateAt(INT8, xs, n, i);
    var part, t := PartBlock(INT8, xs, n, b), i % BLOCK;
    RequantError(part, t);
    PartAmax(xs, n, b);
    PartError(xs, n, b, t);
    LostGrows(Amax(part), Amax(ExactBlock(xs, n, b)) + FirstError(xs, n, b));
  }

  /** What the error is measured against is the sum of the elements themselves. */
  lemma ExactIs(xs: seq<seq<real>>, n: nat, i: nat, b: nat, r: nat)
    requires SameLength(xs, n) && r < |xs| && i < n && b == i / BLOCK
    ensures Inputs(xs, n, b) && ExactColumn(xs, n, b, i % BLOCK)[r] == xs[r][i]
  {
    SimulateAt(INT8, xs, n, i);
    Division(i, BLOCK);
    ElementIn(xs[r], |xs|, b, i % BLOCK, i);
  }

  lemma ElementIn(x: seq<real>, w: nat, b: nat, t: nat, i: nat)
    requires w > 0 && b < w * RowBlocks(|x|, w) && t < BLOCK && i == b * BLOCK + t && i < |x|
    ensures InputBlock(INT8, x, w, b)[t] == x[i]
  {
    PaddedLength(INT8, x, w);
    assert Padded(INT8, x, w)[i] == x[i];
  }

  // ---- the bound as documented ---------------------------------------------

  /** Magnitudes that the floor does not change. */
  predicate Clear(m: real) { m == 0.0 || m >= FLOOR }

  lemma LostIs(m: real)
    requires Clear(m)
    ensures Lost(m) == m / 254.0
  {}

  /** A 254th of each rank's magnitude in the block, without a floor. */
  function Plain(xs: seq<seq<real>>, n: nat, b: nat): (e: seq<real>)
    requires Inputs(xs, n, b)
    ensures |e| == |xs|
  {
    seq(|xs|, r requires 0 <= r < |xs| => Amax(InputBlock(INT8, xs[r], |xs|, b)) / 254.0)
  }

  predicate AllClear(xs: seq<seq<real>>, n: nat, b: nat)
    requires Inputs(xs, n, b)
  {
    forall r :: 0 <= r < |xs| ==> Clear(Amax(InputBlock(INT8, xs[r], |xs|, b)))
  }

  lemma FirstIsPlain(xs: seq<seq<real>>, n: nat, b: nat)
    requires Inputs(xs, n, b) && AllClear(xs, n, b)
    ensures FirstError(xs, n, b) == Sum(Plain(xs, n, b))
  {
    var e, d := FirstErrors(xs, n, b), Plain(xs, n, b);
    forall r | 0 <= r < |xs| ensures e[r] == d[r] {
      assert Clear(Amax(InputBlock(INT8, xs[r], |xs|, b)));
      LostIs(Amax(InputBlock(INT8, xs[r], |xs|, b)));
    }
    assert e == d;
  }

  /** The documented bound, without a floor: it holds where the floor changes neither the magnitude of any
      rank's block nor that of the second stage. */
  lemma DocumentedBound(xs: seq<seq<real>>, n: nat, i: nat, b: nat, e: real, m: real)
    requires SameLength(xs, n) && |xs| > 0 && i < n && b == i / BLOCK && Inputs(xs, n, b)
    requires AllClear(xs, n, b) && e == Sum(Plain(xs, n, b)) && m == Amax(ExactBlock(xs, n, b)) && Clear(m + FirstError(xs, n, b))
    ensures Abs(Simulate(INT8, xs, n)[i] - ExactBlock(xs, n, b)[i % BLOCK]) <= e + (m + e) / 254.0
  {
    ErrorBound(xs, n, i, b);
    FirstIsPlain(xs, n, b);
    LostIs(m + FirstError(xs, n, b));
  }

  /** No element of a block of magnitude m, whatever the block, errs by more than a 254th of m. */
  ghost predicate PlainlyBounded(m: real) {
    forall blk: seq<real>, i: nat :: |blk| == BLOCK && Amax(blk) == m && i < BLOCK ==> WithinPlain(blk, i, m)
  }

  predicate WithinPlain(blk: seq<real>, i: nat, m: real)
    requires i < |blk|
  {
    Abs(Requant(INT8, blk, i) - blk[i]) <= m / 254.0
  }

  /** For one requantization the condition is exact: below the floor some block of that magnitude has an
      element that is lost altogether. */
  lemma PlainExactly(m: real)
    requires m >= 0.0
    ensures PlainlyBounded(m) <==> Clear(m)
  {
    if Clear(m) {
      LostIs(m);
      forall blk: seq<real>, i: nat | |blk| == BLOCK && Amax(blk) == m && i < BLOCK ensures WithinPlain(blk, i, m) {
        RequantError(blk, i);
      }
    } else {
      var blk := Swallowed(m);
      assert !WithinPlain(blk, 1, m);
    }
  }

  /** A block of magnitude m with an element of at most half a step. */
  lemma Swallowed(m: real) returns (blk: seq<real>)
    requires 0.0 < m < FLOOR
    ensures |blk| == BLOCK && Amax(blk) == m && !WithinPlain(blk, 1, m)
  {
    var v := if m < STEP / 2.0 then m else STEP / 2.0;
    blk := [m, v] + seq(BLOCK - 2, t => 0.0);
    SwallowedAmax(blk, m, v);
    SmallVanishes(v);
  }

  lemma SwallowedAmax(blk: seq<real>, m: real, v: real)
    requires 0.0 < v <= m < FLOOR && blk == [m, v] + seq(BLOCK - 2, t => 0.0)
    ensures Amax(blk) == m && Scale(blk) == STEP
  {
    AmaxLeast(blk, m);
    assert Abs(blk[0]) == m;
  }

  lemma SmallVanishes(v: real)
    requires 0.0 < v <= STEP / 2.0
    ensures Value(Code(v, STEP), STEP) == 0.0
  {
    var u := v / STEP;
    assert u * STEP == v;
    assert 0.0 < u <= 0.5;
    assert RoundEven(u) == 0;
  }

  predicate Lone(blk: seq<real>, v: real) { |blk| == BLOCK && blk[0] == v && forall t :: 1 <= t < BLOCK ==> blk[t] == 0.0 }

  lemma LoneScale(blk: seq<real>, v: real)
    requires Lone(blk, v) && 0.0 <= v <= FLOOR
    ensures Amax(blk) == v && Scale(blk) == FLOOR / QMAX
  {
    AmaxLeast(blk, v);
    assert Abs(blk[0]) == v;
  }

  const STEP := FLOOR / QMAX

  lemma LoneRequant(blk: seq<real>, v: real, u: real)
    requires Lone(blk, v) && v == u * STEP && 0.0 <= v <= FLOOR && 0.0 <= u <= QMAX
    ensures Requant(INT8, blk, 0) == RoundEven(u) as real * STEP
    ensures forall t :: 1 <= t < BLOCK ==> Requant(INT8, blk, t) == 0.0
  {
    LoneScale(blk, v);
    NoClamp(u);
    assert v / STEP == u;
    forall t | 1 <= t < BLOCK ensures Requant(INT8, blk, t) == 0.0 {
      ZeroStays(blk[t], STEP);
    }
  }

  // ---- why the second stage needs its condition ----------------------------

  predicate Pair(blk: seq<real>, x: real, y: real) {
    |blk| == BLOCK && blk[0] == x && blk[1] == y && forall t :: 2 <= t < BLOCK ==> blk[t] == 0.0
  }

  function Max(a: real, b: real): real { if a < b then b else a }

  lemma PairAmax(blk: seq<real>, x: real, y: real)
    requires Pair(blk, x, y)
    ensures Amax(blk) == Max(Abs(x), Abs(y))
  {
    AmaxLeast(blk, Max(Abs(x), Abs(y)));
    assert Abs(blk[0]) <= Amax(blk) && Abs(blk[1]) <= Amax(blk);
  }

  lemma RequantSteps(blk: seq<real>, i: nat, s: real, u: real)
    requires i < |blk| && s == Scale(blk) && s > 0.0 && u * s == blk[i] && Abs(u) <= QMAX
    ensures Requant(INT8, blk, i) == RoundEven(u) as real * s
  {
    StepCode(blk[i], s, u);
  }

  lemma StepCode(x: real, s: real, u: real)
    requires s > 0.0 && u * s == x && Abs(u) <= QMAX
    ensures Code(x, s) == RoundEven(u)
  {
    assert x / s == u;
    NoClamp(u);
  }

  lemma RequantZero(blk: seq<real>, i: nat)
    requires i < |blk| && blk[i] == 0.0
    ensures Requant(INT8, blk, i) == 0.0
  {
    ZeroStays(blk[i], Scale(blk));
  }

  /** A block of two elements, u and v steps of its scale. */
  lemma PairRequant(blk: seq<real>, x: real, y: real, s: real, u: real, v: real)
    requires Pair(blk, x, y) && s == Floored(Max(Abs(x), Abs(y))) / QMAX && s > 0.0
    requires u * s == x && v * s == y && Abs(u) <= QMAX && Abs(v) <= QMAX
    ensures Requant(INT8, blk, 0) == RoundEven(u) as real * s && Requant(INT8, blk, 1) == RoundEven(v) as real * s
    ensures forall t :: 2 <= t < BLOCK ==> Requant(INT8, blk, t) == 0.0
  {
    PairAmax(blk, x, y);
    RequantSteps(blk, 0, s, u);
    RequantSteps(blk, 1, s, v);
    forall t | 2 <= t < BLOCK ensures Requant(INT8, blk, t) == 0.0 { RequantZero(blk, t); }
  }

  lemma PairInput(x: seq<real>, blk: seq<real>)
    requires |x| == 2 && 0 < 2 * RowBlocks(2, 2) && blk == InputBlock(INT8, x, 2, 0)
    ensures Pair(blk, x[0], x[1])
  {
    PaddedLength(INT8, x, 2);
    var p := Padded(INT8, x, 2);
    assert p[0] == x[0] && p[1] == x[1];
  }

  lemma TwoRanks(xs: seq<seq<real>>, n: nat, b: nat, t: nat)
    requires Inputs(xs, n, b) && |xs| == 2 && t < BLOCK
    ensures b < 2 * RowBlocks(|xs[0]|, 2) && b < 2 * RowBlocks(|xs[1]|, 2)
    ensures PartBlock(INT8, xs, n, b)[t] == Requant(INT8, InputBlock(INT8, xs[0], 2, b), t) + Requant(INT8, InputBlock(INT8, xs[1], 2, b), t)
    ensures ExactBlock(xs, n, b)[t] == InputBlock(INT8, xs[0], 2, b)[t] + InputBlock(INT8, xs[1], 2, b)[t]
  {
    var p, q := Requant(INT8, InputBlock(INT8, xs[0], 2, b), t), Requant(INT8, InputBlock(INT8, xs[1], 2, b), t);
    assert BlockColumn(INT8, xs, n, b, t) == [p, q];
    FoldTwo(p, q);
    var x, y := InputBlock(INT8, xs[0], 2, b)[t], InputBlock(INT8, xs[1], 2, b)[t];
    assert ExactColumn(xs, n, b, t) == [x, y];
    SumTwo(x, y);
  }

  lemma FoldTwo(p: real, q: real)
    ensures Fold(INT8, [p, q]) == p + q
  {
    assert [p, q][..1] == [p];
  }

  lemma SumTwo(p: real, q: real)
    ensures Sum([p, q]) == p + q
  {
    assert [p, q][..1] == [p] && [p][..0] == [];
    assert Sum([]) == 0.0 && Sum([p]) == p;
  }

  /** Two ranks that nearly cancel: both magnitudes are at least the floor, that of their sum is not. */
  predicate Cancelling(xs: seq<seq<real>>) {
    xs == [[127.0 * STEP, -99.5 * STEP], [-127.508 * STEP, 100.902 * STEP]]
  }

  lemma CancelledBlocks(xs: seq<seq<real>>)
    requires Cancelling(xs)
    ensures Inputs(xs, 2, 0) && |xs| == 2 && |xs[0]| == 2 && |xs[1]| == 2 && 0 < 2 * RowBlocks(2, 2)
  {
    SimulateAt(INT8, xs, 2, 0);
  }

  /** The blocks of the two ranks, and what they add up to. */
  lemma CancelledPart(xs: seq<seq<real>>, p: seq<real>, q: seq<real>, part: seq<real>, exact: seq<real>)
    requires Cancelling(xs) && Inputs(xs, 2, 0) && 0 < 2 * RowBlocks(2, 2)
    requires p == InputBlock(INT8, xs[0], 2, 0) && q == InputBlock(INT8, xs[1], 2, 0)
    requires part == PartBlock(INT8, xs, 2, 0) && exact == ExactBlock(xs, 2, 0)
    ensures Amax(p) == 127.0 * STEP && Amax(q) == 127.508 * STEP
    ensures Pair(part, -0.508 * STEP, 0.4 * STEP) && Pair(exact, -0.508 * STEP, 1.402 * STEP)
  {
    FirstInput(xs[0], p);
    SecondInput(xs[1], q);
    TwoRanks(xs, 2, 0, 0);
    TwoRanks(xs, 2, 0, 1);
    forall t | 2 <= t < BLOCK ensures part[t] == 0.0 && exact[t] == 0.0 { TwoRanks(xs, 2, 0, t); }
  }

  lemma CancelledPlain(xs: seq<seq<real>>)
    requires Cancelling(xs) && Inputs(xs, 2, 0) && 0 < 2 * RowBlocks(2, 2)
    requires Amax(InputBlock(INT8, xs[0], 2, 0)) == 127.0 * STEP && Amax(InputBlock(INT8, xs[1], 2, 0)) == 127.508 * STEP
    ensures AllClear(xs, 2, 0) && Sum(Plain(xs, 2, 0)) == 1.002 * STEP
  {
    var x, y := 127.0 * STEP / 254.0, 127.508 * STEP / 254.0;
    assert Plain(xs, 2, 0) == [x, y];
    SumTwo(x, y);
  }

  lemma FirstInput(x: seq<real>, blk: seq<real>)
    requires x == [127.0 * STEP, -99.5 * STEP] && 0 < 2 * RowBlocks(2, 2) && blk == InputBlock(INT8, x, 2, 0)
    ensures Pair(blk, 127.0 * STEP, -99.5 * STEP) && Amax(blk) == 127.0 * STEP && Clear(Amax(blk))
    ensures Requant(INT8, blk, 0) == 127.0 * STEP && Requant(INT8, blk, 1) == -100.0 * STEP
    ensures forall t :: 2 <= t < BLOCK ==> Requant(INT8, blk, t) == 0.0
  {
    PairInput(x, blk);
    PairAmax(blk, x[0], x[1]);
    PairRequant(blk, x[0], x[1], STEP, 127.0, -99.5);
  }

  lemma SecondInput(x: seq<real>, blk: seq<real>)
    requires x == [-127.508 * STEP, 100.902 * STEP] && 0 < 2 * RowBlocks(2, 2) && blk == InputBlock(INT8, x, 2, 0)
    ensures Pair(blk, -127.508 * STEP, 100.902 * STEP) && Amax(blk) == 127.508 * STEP && Clear(Amax(blk))
    ensures Requant(INT8, blk, 0) == -127.508 * STEP && Requant(INT8, blk, 1) == 100.4 * STEP
    ensures forall t :: 2 <= t < BLOCK ==> Requant(INT8, blk, t) == 0.0
  {
    PairInput(x, blk);
    PairAmax(blk, x[0], x[1]);
    PairRequant(blk, x[0], x[1], 1.004 * STEP, -127.0, 100.5);
  }

  /** Without its second condition the documented bound is false, though every rank's block is clear of
      the floor: the partial sum is lost below it. */
  lemma CancellationCounts(xs: seq<seq<real>>, n: nat, i: nat, b: nat)
    requires Cancelling(xs) && n == 2 && i == 1 && b == 0
    ensures Inputs(xs, n, b) && AllClear(xs, n, b) && !Clear(Amax(ExactBlock(xs, n, b)) + FirstError(xs, n, b))
    ensures TooFar(Simulate(INT8, xs, n)[i], ExactBlock(xs, n, b)[i], Sum(Plain(xs, n, b)), Amax(ExactBlock(xs, n, b)))
  {
    CancelledBlocks(xs);
    CancelledStage(xs, n, b, PartBlock(INT8, xs, n, b), ExactBlock(xs, n, b));
    FirstIsPlain(xs, n, b);
    BelowFloor(Amax(ExactBlock(xs, n, b)), FirstError(xs, n, b));
    ResultIs(xs, n, i, b, PartBlock(INT8, xs, n, b));
  }

  lemma BelowFloor(m: real, e: real)
    requires m == 1.402 * STEP && e == 1.002 * STEP
    ensures !Clear(m + e)
  {}

  lemma CancelledStage(xs: seq<seq<real>>, n: nat, b: nat, part: seq<real>, exact: seq<real>)
    requires Cancelling(xs) && n == 2 && b == 0 && Inputs(xs, n, b) && 0 < 2 * RowBlocks(2, 2)
    requires part == PartBlock(INT8, xs, n, b) && exact == ExactBlock(xs, n, b)
    ensures AllClear(xs, n, b) && Sum(Plain(xs, n, b)) == 1.002 * STEP
    ensures Requant(INT8, part, 1) == 0.0 && exact[1] == 1.402 * STEP && Amax(exact) == 1.402 * STEP
  {
    CancelledPart(xs, InputBlock(INT8, xs[0], 2, 0), InputBlock(INT8, xs[1], 2, 0), part, exact);
    CancelledPlain(xs);
    Vanishes(part);
    PairAmax(exact, -0.508 * STEP, 1.402 * STEP);
  }

  lemma Vanishes(part: seq<real>)
    requires Pair(part, -0.508 * STEP, 0.4 * STEP)
    ensures Requant(INT8, part, 1) == 0.0
  {
    PairRequant(part, -0.508 * STEP, 0.4 * STEP, STEP, -0.508, 0.4);
  }

  /** Further from the exact sum than the documented bound allows. */
  predicate TooFar(result: real, exact: real, e: real, m: real) { Abs(result - exact) > e + (m + e) / 254.0 }

  lemma ResultIs(xs: seq<seq<real>>, n: nat, i: nat, b: nat, part: seq<real>)
    requires SameLength(xs, n) && |xs| > 0 && i < n && i < BLOCK && b == 0 && Inputs(xs, n, b) && part == PartBlock(INT8, xs, n, b)
    ensures Simulate(INT8, xs, n)[i] == Requant(INT8, part, i)
  {
    SimulateAt(INT8, xs, n, i);
    QuotientIs(i, BLOCK, 0);
  }

  // ---- one element below the floor -----------------------------------------

  lemma LoneTwice(blk: seq<real>, part: seq<real>)
    requires Lone(blk, 1e-31) && |part| == BLOCK && forall t :: 0 <= t < BLOCK ==> part[t] == Requant(INT8, blk, t)
    ensures Requant(INT8, part, 0) == 13.0 * STEP
  {
    LoneRequant(blk, 1e-31, 12.7);
    LoneRequant(part, 13.0 * STEP, 13.0);
  }

  lemma LoneInput(x: seq<real>, v: real, blk: seq<real>)
    requires x == [v] && 0 < 2 * RowBlocks(1, 2) && blk == InputBlock(INT8, x, 2, 0)
    ensures Lone(blk, v)
  {
    PaddedLength(INT8, x, 2);
    assert Padded(INT8, x, 2)[0] == x[0];
  }

  predicate Tiny(xs: seq<seq<real>>) { xs == [[1e-31], [0.0]] }

  lemma TinyPart(xs: seq<seq<real>>, p: seq<real>, q: seq<real>, part: seq<real>, exact: seq<real>)
    requires Tiny(xs) && Inputs(xs, 1, 0) && 0 < 2 * RowBlocks(1, 2)
    requires p == InputBlock(INT8, xs[0], 2, 0) && q == InputBlock(INT8, xs[1], 2, 0)
    requires part == PartBlock(INT8, xs, 1, 0) && exact == ExactBlock(xs, 1, 0)
    ensures Requant(INT8, part, 0) == 13.0 * STEP && Lone(exact, 1e-31) && Amax(p) == 1e-31 && Amax(q) == 0.0
  {
    LoneInput(xs[0], 1e-31, p);
    LoneInput(xs[1], 0.0, q);
    LoneScale(p, 1e-31);
    LoneScale(q, 0.0);
    forall t | 0 <= t < BLOCK ensures part[t] == Requant(INT8, p, t) && exact[t] == p[t] {
      TwoRanks(xs, 1, 0, t);
      RequantZero(q, t);
    }
    LoneTwice(p, part);
  }

  lemma TinyPlain(xs: seq<seq<real>>)
    requires Tiny(xs) && Inputs(xs, 1, 0) && 0 < 2 * RowBlocks(1, 2)
    requires Amax(InputBlock(INT8, xs[0], 2, 0)) == 1e-31 && Amax(InputBlock(INT8, xs[1], 2, 0)) == 0.0
    ensures Sum(Plain(xs, 1, 0)) == 1e-31 / 254.0
  {
    assert Plain(xs, 1, 0) == [1e-31 / 254.0, 0.0 / 254.0];
    SumTwo(1e-31 / 254.0, 0.0);
  }

  /** Below the floor the documented bound is false: two ranks, one element, 1e-31 on one of them. */
  lemma FloorNeeded(xs: seq<seq<real>>, n: nat, i: nat, b: nat)
    requires Tiny(xs) && n == 1 && i == 0 && b == 0
    ensures Inputs(xs, n, b)
    ensures TooFar(Simulate(INT8, xs, n)[i], ExactBlock(xs, n, b)[i], Sum(Plain(xs, n, b)), Amax(ExactBlock(xs, n, b)))
  {
    TinyInputs(xs);
    TinyStage(xs, n, b, PartBlock(INT8, xs, n, b), ExactBlock(xs, n, b));
    ResultIs(xs, n, i, b, PartBlock(INT8, xs, n, b));
    FarOff(13.0 * STEP, 1e-31, 1e-31 / 254.0);
  }

  lemma TinyInputs(xs: seq<seq<real>>)
    requires Tiny(xs)
    ensures Inputs(xs, 1, 0) && 0 < 2 * RowBlocks(1, 2)
  {
    SimulateAt(INT8, xs, 1, 0);
  }

  lemma TinyStage(xs: seq<seq<real>>, n: nat, b: nat, part: seq<real>, exact: seq<real>)
    requires Tiny(xs) && n == 1 && b == 0 && Inputs(xs, n, b) && 0 < 2 * RowBlocks(1, 2)
    requires part == PartBlock(INT8, xs, n, b) && exact == ExactBlock(xs, n, b)
    ensures Requant(INT8, part, 0) == 13.0 * STEP && exact[0] == 1e-31 && Amax(exact) == 1e-31
    ensures Sum(Plain(xs, n, b)) == 1e-31 / 254.0
  {
    TinyPart(xs, InputBlock(INT8, xs[0], 2, 0), InputBlock(INT8, xs[1], 2, 0), part, exact);
    TinyPlain(xs);
    LoneScale(exact, 1e-31);
  }

  lemma FarOff(r: real, x: real, e: real)
    requires r == 13.0 * STEP && x == 1e-31 && e == x / 254.0
    ensures TooFar(r, x, e, x)
  {}
}
