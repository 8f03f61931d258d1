/**
The e4m3 and e2m1 codecs of src/nvfp4_ds_mla.rs over the reals. Magnitudes of e4m3 are integers in
units of 2^-9, the smallest denormal; a byte is 128 * sign + code, a nibble 8 * sign + code.
*/
module Fp8Codec {
  import opened RealMath
  import opened Wrappers

  function Pow2(n: nat): (p: int)
    ensures p >= 1
  {
    if n == 0 then 1 else 2 * Pow2(n - 1)
  }

  // ---- e4m3 ---------------------------------------------------------------

  const MAX_CODE := 126
  const NAN_CODE := 127
  const UNITS := 512.0

  /** 8 + m, shifted left by s. */
  function Shifted(m: int, s: nat): int { if s == 0 then 8 + m else 2 * Shifted(m, s - 1) }

  /** The magnitude of a code: man for exponent 0, otherwise 8 + man shifted by the exponent. */
  function DecodeMag(code: nat): int {
    var exp, man := code / 8, code % 8;
    if exp == 0 then man else Shifted(man, exp - 1)
  }

  /** The same, code by code: every eight codes the magnitude doubles. */
  function Mag(code: nat): (m: int)
    ensures m >= 0
  {
    if code < 16 then code else 2 * Mag(code - 8)
  }

  lemma {:induction false} MagIs(code: nat)
    ensures DecodeMag(code) == Mag(code)
  {
    if code >= 16 {
      assert code / 8 == (code - 8) / 8 + 1 && code % 8 == (code - 8) % 8;
      MagIs(code - 8);
    }
  }

  /** e4m3_to_f32: None for the two NaN bytes. */
  function Decode(b: nat): Option<real>
    requires b < 256
  {
    var m := DecodeMag(b % 128) as real / UNITS;
    if b % 128 == NAN_CODE then None else Some(if b >= 128 then -m else m)
  }

  /** The largest shift from s on with 8 * 2^shift <= y, up to the top binade. */
  function Binade(y: real, s: nat): (t: nat)
    requires s <= 14 && 8.0 * Pow2(s) as real <= y < 8.0 * Pow2(15) as real
    ensures s <= t <= 14 && 8.0 * Pow2(t) as real <= y < 16.0 * Pow2(t) as real
    decreases 14 - s
  {
    if s < 14 && 8.0 * Pow2(s + 1) as real <= y then Binade(y, s + 1)
    else assert Pow2(s + 1) == 2 * Pow2(s); s
  }

  /** The code of a magnitude y >= 0 in units of 2^-9. */
  function EncodeMag(y: real): nat
    requires y >= 0.0
  {
    if y >= 448.0 * UNITS then MAX_CODE
    else if y < 8.0 then DenormalCode(y)
    else NormalCode(y)
  }

  function DenormalCode(y: real): nat
    requires 0.0 <= y < 8.0
  {
    RoundEven(y)
  }

  lemma TopBinade(y: real)
    requires 8.0 <= y < 448.0 * UNITS
    ensures 8.0 * Pow2(0) as real <= y < 8.0 * Pow2(15) as real
  {
    Pow2Values();
  }

  lemma Pow2Values()
    ensures Pow2(0) == 1 && Pow2(14) == 16384 && Pow2(15) == 32768
  {
    assert Pow2(4) == 16;
    assert Pow2(8) == 256;
    assert Pow2(12) == 4096;
  }

  function NormalCode(y: real): nat
    requires 8.0 <= y < 448.0 * UNITS
  {
    TopBinade(y);
    CodeIn(y, Binade(y, 0), Pow2(Binade(y, 0)) as real)
  }

  /** Mantissa rounded in its binade, whose unit is p; a mantissa of 8 carries into the exponent. */
  function CodeIn(y: real, s: nat, p: real): nat
    requires p > 0.0
  {
    var man := RoundEven(y / p - 8.0);
    if man >= 8 then (s + 2) * 8 else if man >= 0 then (s + 1) * 8 + man else 0
  }

  /** f32_to_e4m3 without the sign of zero, which the reals do not have. */
  function Encode(x: real): nat { EncodeMag(Abs(x) * UNITS) + (if x < 0.0 then 128 else 0) }

  // ---- the grid -----------------------------------------------------------

  /** Distance from a code's magnitude to the next. */
  function Ulp(code: nat): int { if code < 16 then 1 else 2 * Ulp(code - 8) }

  lemma {:induction false} NextMag(code: nat)
    ensures Mag(code + 1) == Mag(code) + Ulp(code) && Ulp(code) >= 1
  {
    if code >= 16 { NextMag(code - 8); }
  }

  lemma {:induction false} ShiftedIs(m: int, s: nat)
    ensures Shifted(m, s) as real == (8.0 + m as real) * Pow2(s) as real
  {
    if s > 0 { ShiftedIs(m, s - 1); }
  }

  lemma {:induction false} MagGrows(c: nat, d: nat)
    requires c < d
    ensures Mag(c) + Ulp(c) <= Mag(d) && Mag(c) < Mag(d)
    decreases d
  {
    NextMag(d - 1);
    NextMag(c);
    if c < d - 1 { MagGrows(c, d - 1); }
  }

  lemma {:induction false} MagBelow(c: nat, d: nat)
    requires c < d
    ensures Mag(c) <= Mag(d - 1) && Mag(d) == Mag(d - 1) + Ulp(d - 1)
  {
    NextMag(d - 1);
    if c < d - 1 { MagGrows(c, d - 1); }
  }

  /** y is within half a step of the code's magnitude on both sides, and exactly half a step only if
      the code is even. */
  predicate Between(y: real, c: nat) {
    && (c > 0 ==> Mag(c) as real - y <= Ulp(c - 1) as real / 2.0 && (Mag(c) as real - y == Ulp(c - 1) as real / 2.0 ==> c % 2 == 0))
    && (y - Mag(c) as real <= Ulp(c) as real / 2.0 && (y - Mag(c) as real == Ulp(c) as real / 2.0 ==> c % 2 == 0))
    && (c == 0 ==> y >= 0.0)
  }

  lemma NearerThanBelow(y: real, mc: real, md: real, u: real)
    requires mc - y <= u / 2.0 && md <= mc - u && u >= 1.0
    ensures Abs(y - mc) <= Abs(y - md) && (Abs(y - mc) == Abs(y - md) ==> mc - y == u / 2.0)
  {}

  lemma NearerThanAbove(y: real, mc: real, md: real, u: real)
    requires y - mc <= u / 2.0 && mc + u <= md && u >= 1.0
    ensures Abs(y - mc) <= Abs(y - md) && (Abs(y - mc) == Abs(y - md) ==> y - mc == u / 2.0)
  {}

  lemma BetweenAbove(y: real, c: nat, d: nat)
    requires Between(y, c) && d > c
    ensures Abs(y - Mag(c) as real) <= Abs(y - Mag(d) as real)
    ensures Abs(y - Mag(c) as real) == Abs(y - Mag(d) as real) ==> c % 2 == 0
  {
    MagGrows(c, d);
    NextMag(c);
    NearerThanAbove(y, Mag(c) as real, Mag(d) as real, Ulp(c) as real);
  }

  lemma BetweenBelow(y: real, c: nat, d: nat)
    requires Between(y, c) && d < c
    ensures Abs(y - Mag(c) as real) <= Abs(y - Mag(d) as real)
    ensures Abs(y - Mag(c) as real) == Abs(y - Mag(d) as real) ==> c % 2 == 0
  {
    MagBelow(d, c);
    NextMag(c - 1);
    NearerThanBelow(y, Mag(c) as real, Mag(d) as real, Ulp(c - 1) as real);
  }

  /** Then no code of the whole grid is nearer, and one as near means that c is even. */
  lemma BetweenIsNearest(y: real, c: nat, d: nat)
    requires Between(y, c)
    ensures Abs(y - Mag(c) as real) <= Abs(y - Mag(d) as real)
    ensures d != c && Abs(y - Mag(c) as real) == Abs(y - Mag(d) as real) ==> c % 2 == 0
  {
    if d > c { BetweenAbove(y, c, d); } else if d < c { BetweenBelow(y, c, d); }
  }

  // ---- encoding is nearest, ties to even ----------------------------------

  lemma DenormalBetween(y: real)
    requires 0.0 <= y < 8.0
    ensures DenormalCode(y) <= 8 && Between(y, DenormalCode(y))
  {
    RoundEvenIs(y);
    Pow2Values();
    var q := RoundEven(y);
    assert Mag(q) == q;
  }

  /** The code of mantissa m in binade s, where m = 8 is the next binade's 0. */
  lemma {:induction false} BinadeMag(s: nat, m: nat)
    requires m <= 8
    ensures Mag((s + 1) * 8 + m) == Shifted(m, s)
    ensures m > 0 ==> Ulp((s + 1) * 8 + m - 1) == Pow2(s)
    ensures m < 8 ==> Ulp((s + 1) * 8 + m) == Pow2(s)
  {
    if s > 0 { BinadeMag(s - 1, m); }
  }

  lemma Halves(d: real, p: real)
    requires p > 0.0
    ensures (d <= 0.5 ==> d * p <= p / 2.0) && (d >= -0.5 ==> d * p >= -p / 2.0)
    ensures (d * p == p / 2.0 ==> d == 0.5) && (d * p == -p / 2.0 ==> d == -0.5)
  {
    assert d < 0.5 ==> (0.5 - d) * p > 0.0;
    assert d > 0.5 ==> (d - 0.5) * p > 0.0;
    assert d > -0.5 ==> (d + 0.5) * p > 0.0;
    assert d < -0.5 ==> (-0.5 - d) * p > 0.0;
  }

  /** y = (8 + m + d) * p for the mantissa m that y / p - 8 is rounded to, d at most a half. */
  lemma HalfStep(y: real, p: real, m: int)
    requires p > 0.0 && m == RoundEven(y / p - 8.0)
    ensures var v := y - (8.0 + m as real) * p;
      -p / 2.0 <= v <= p / 2.0 && (v == p / 2.0 || v == -p / 2.0 ==> m % 2 == 0)
  {
    var x := y / p - 8.0;
    var d := x - m as real;
    RoundEvenIs(x);
    Halves(d, p);
    Split(y, p, m as real);
    assert y - (8.0 + m as real) * p == d * p;
  }

  lemma Split(y: real, p: real, m: real)
    requires p > 0.0
    ensures y - (8.0 + m) * p == (y / p - 8.0 - m) * p
  {
    var x := y / p;
    assert x * p == y;
  }

  lemma Quotients(y: real, p: real)
    requires p > 0.0 && 8.0 * p <= y < 16.0 * p
    ensures 8.0 <= y / p < 16.0
  {
    var x := y / p;
    assert x * p == y;
    assert x < 8.0 ==> (8.0 - x) * p > 0.0;
    assert x >= 16.0 ==> (x - 16.0) * p >= 0.0;
  }

  lemma MantissaRange(y: real, p: real)
    requires p > 0.0 && 8.0 * p <= y < 16.0 * p
    ensures 0 <= RoundEven(y / p - 8.0) <= 8
  {
    Quotients(y, p);
    RoundEvenIs(y / p - 8.0);
  }

  /** At a binade's ends y itself bounds the distance to the other side. */
  lemma FromHalf(y: real, c: nat, p: real)
    requires c > 0 && var v := y - Mag(c) as real;
      && -p / 2.0 <= v <= p / 2.0 && (v == p / 2.0 || v == -p / 2.0 ==> c % 2 == 0)
      && (Ulp(c - 1) as real == p || v >= 0.0) && (Ulp(c) as real == p || v <= 0.0)
    ensures Between(y, c)
  {
    NextMag(c);
    NextMag(c - 1);
  }

  lemma BinadeEnds(y: real, p: real, m: nat)
    requires 8.0 * p <= y < 16.0 * p && m <= 8
    ensures (m == 0 ==> y - (8.0 + m as real) * p >= 0.0) && (m == 8 ==> y - (8.0 + m as real) * p <= 0.0)
  {}

  lemma AsReal(a: int, q: int, p: real)
    requires p == q as real
    ensures (a * q) as real == a as real * p
  {}

  /** The code of mantissa m in binade s: its magnitude, its neighbours' distances and its parity. */
  lemma BinadeValue(s: nat, p: real, m: nat, c: nat)
    requires p == Pow2(s) as real && m <= 8 && c == (s + 1) * 8 + m
    ensures Mag(c) as real == (8.0 + m as real) * p && c % 2 == m % 2
    ensures (m > 0 ==> Ulp(c - 1) as real == p) && (m < 8 ==> Ulp(c) as real == p)
  {
    BinadeMag(s, m);
    BinadeReal(s, p, m);
    TwiceMore(4 * (s + 1), m);
  }

  lemma BinadeReal(s: nat, p: real, m: nat)
    requires p == Pow2(s) as real
    ensures Shifted(m, s) as real == (8.0 + m as real) * p
  {
    ShiftedIs(m, s);
    AsReal(8 + m, Pow2(s), p);
  }

  /** Nearest in its binade. */
  lemma BinadeBetween(y: real, s: nat, p: real, m: nat, c: nat)
    requires p == Pow2(s) as real && 8.0 * p <= y < 16.0 * p && m <= 8 && c == (s + 1) * 8 + m
    requires var v := y - (8.0 + m as real) * p;
      -p / 2.0 <= v <= p / 2.0 && (v == p / 2.0 || v == -p / 2.0 ==> m % 2 == 0)
    ensures Between(y, c)
  {
    BinadeEnds(y, p, m);
    BinadeValue(s, p, m, c);
    FromHalf(y, c, p);
  }

  lemma TwiceMore(u: int, r: int)
    ensures (2 * u + r) % 2 == r % 2
  {}

  lemma NormalBetween(y: real)
    requires 8.0 <= y < 448.0 * UNITS
    ensures Between(y, NormalCode(y))
  {
    TopBinade(y);
    NormalIn(y, Binade(y, 0), Pow2(Binade(y, 0)) as real);
  }

  lemma NormalIn(y: real, s: nat, p: real)
    requires p == Pow2(s) as real && 8.0 * p <= y < 16.0 * p
    ensures Between(y, CodeIn(y, s, p))
  {
    MantissaRange(y, p);
    var m := RoundEven(y / p - 8.0);
    HalfStep(y, p, m);
    BinadeBetween(y, s, p, m, (s + 1) * 8 + m);
  }

  lemma {:induction false} TopMag()
    ensures Mag(MAX_CODE) as real == 448.0 * UNITS
  {
    BinadeMag(14, 6);
    ShiftedIs(6, 14);
    Pow2Values();
  }

  lemma BelowTop(y: real, c: nat)
    requires y < 448.0 * UNITS && Between(y, c)
    ensures c <= MAX_CODE
  {
    TopMag();
    if c > MAX_CODE {
      NextMag(c - 1);
      MagBelow(MAX_CODE, c);
    }
  }

  /** The code of a magnitude is finite. */
  lemma CodeFinite(y: real)
    requires y >= 0.0
    ensures EncodeMag(y) <= MAX_CODE
  {
    if y < 8.0 {
      DenormalBetween(y);
    } else if y < 448.0 * UNITS {
      NormalBetween(y);
      BelowTop(y, NormalCode(y));
    }
  }

  lemma MagNearest(y: real, d: nat)
    requires 0.0 <= y < 448.0 * UNITS && d <= MAX_CODE
    ensures var c := EncodeMag(y);
      && Abs(y - Mag(c) as real) <= Abs(y - Mag(d) as real)
      && (d != c && Abs(y - Mag(c) as real) == Abs(y - Mag(d) as real) ==> c % 2 == 0)
  {
    if y < 8.0 { DenormalBetween(y); } else { NormalBetween(y); }
    BetweenIsNearest(y, EncodeMag(y), d);
  }

  lemma EncodeParts(x: real)
    ensures Encode(x) % 128 == EncodeMag(Abs(x) * UNITS) <= MAX_CODE && Encode(x) < 256 && (x < 0.0 <==> Encode(x) >= 128)
  {
    CodeFinite(Abs(x) * UNITS);
  }

  /** f32_to_e4m3 below 448: no finite code is nearer, and on a tie the chosen one is even. */
  lemma EncodeNearest(x: real, d: nat)
    requires Abs(x) < 448.0 && d <= MAX_CODE
    ensures var c := Encode(x) % 128; var y := Abs(x) * UNITS;
      && c <= MAX_CODE && (x < 0.0 <==> Encode(x) >= 128)
      && Abs(y - Mag(c) as real) <= Abs(y - Mag(d) as real)
      && (d != c && Abs(y - Mag(c) as real) == Abs(y - Mag(d) as real) ==> c % 2 == 0)
  {
    EncodeParts(x);
    MagNearest(Abs(x) * UNITS, d);
  }

  /** At 448 and above it saturates; it never yields a NaN byte. */
  lemma EncodeSaturates(x: real)
    ensures Abs(x) >= 448.0 ==> Encode(x) % 128 == MAX_CODE
    ensures Encode(x) < 256 && Encode(x) % 128 != NAN_CODE && Decode(Encode(x)).Some?
  {
    EncodeParts(x);
    if Abs(x) >= 448.0 { assert EncodeMag(Abs(x) * UNITS) == MAX_CODE; }
  }

  lemma MagExact(c: nat)
    requires c <= MAX_CODE
    ensures EncodeMag(Mag(c) as real) == c
  {
    var y := Mag(c) as real;
    if c > 0 { MagGrows(0, c); }
    TopMag();
    if c < MAX_CODE {
      MagGrows(c, MAX_CODE);
      MagNearest(y, c);
      if EncodeMag(y) < c { MagGrows(EncodeMag(y), c); }
      if c < EncodeMag(y) { MagGrows(c, EncodeMag(y)); }
    }
  }

  lemma UnitsCancel(m: real)
    requires m >= 0.0
    ensures Abs(m / UNITS) * UNITS == m && Abs(-(m / UNITS)) * UNITS == m && (m > 0.0 ==> m / UNITS > 0.0)
  {}

  function Signed(negative: bool, v: real): real { if negative then -v else v }

  lemma DecodeIs(b: nat)
    requires b < 256 && b % 128 <= MAX_CODE
    ensures Decode(b) == Some(Signed(b >= 128, Mag(b % 128) as real / UNITS))
  {
    MagIs(b % 128);
  }

  /** Encoding a decoded byte gives it back, for every finite byte but negative zero. */
  lemma EncodeDecode(b: nat)
    requires b < 256 && b % 128 <= MAX_CODE && b != 128
    ensures Decode(b).Some? && Encode(Decode(b).value) == b
  {
    DecodeIs(b);
    EncodeBack(b, b % 128, Mag(b % 128) as real / UNITS);
  }

  lemma EncodeBack(b: nat, c: nat, v: real)
    requires b < 256 && c == b % 128 && c <= MAX_CODE && b != 128 && v == Mag(c) as real / UNITS
    ensures Encode(Signed(b >= 128, v)) == b
  {
    CodeInUnits(c, v);
    EncodeSigned(v, c, b >= 128);
  }

  lemma CodeInUnits(c: nat, v: real)
    requires c <= MAX_CODE && v == Mag(c) as real / UNITS
    ensures v >= 0.0 && EncodeMag(v * UNITS) == c && (c > 0 ==> v > 0.0)
  {
    MagExact(c);
    if c > 0 { MagGrows(0, c); }
    InUnits(Mag(c) as real, v, c);
  }

  lemma InUnits(m: real, v: real, c: nat)
    requires m >= 0.0 && v == m / UNITS && EncodeMag(m) == c && (c > 0 ==> m > 0.0)
    ensures v >= 0.0 && EncodeMag(v * UNITS) == c && (c > 0 ==> v > 0.0)
  {
    UnitsCancel(m);
    assert v * UNITS == m;
  }

  lemma EncodeSigned(v: real, c: nat, negative: bool)
    requires v >= 0.0 && EncodeMag(v * UNITS) == c && (negative ==> v > 0.0)
    ensures Encode(Signed(negative, v)) == c + (if negative then 128 else 0)
  {}

  // ---- the loop of the source ---------------------------------------------

  /** The search for the exponent, one doubling at a time. */
  method FindBinade(y: real) returns (s: nat)
    requires 8.0 <= y < 448.0 * UNITS
    ensures 8.0 * Pow2(0) as real <= y < 8.0 * Pow2(15) as real && s == Binade(y, 0)
  {
    TopBinade(y);
    s := 0;
    while s < 14 && 8.0 * Pow2(s + 1) as real <= y
      invariant s <= 14 && 8.0 * Pow2(s) as real <= y && Binade(y, s) == Binade(y, 0)
    {
      s := s + 1;
    }
  }

  method NormalByte(y: real) returns (code: nat)
    requires 8.0 <= y < 448.0 * UNITS
    ensures code == NormalCode(y)
  {
    var s := FindBinade(y);
    code := RoundIn(y, s, Pow2(s) as real);
  }

  method RoundIn(y: real, s: nat, p: real) returns (code: nat)
    requires p > 0.0 && 8.0 * p <= y < 16.0 * p
    ensures code == CodeIn(y, s, p)
  {
    var exp, man := s + 1, RoundEven(y / p - 8.0);
    MantissaRange(y, p);
    if man == 8 { exp, man := exp + 1, 0; }
    code := exp * 8 + man;
  }

  /** f32_to_e4m3, branch by branch. */
  method EncodeByte(x: real) returns (b: nat)
    ensures b == Encode(x)
  {
    var sign := if x < 0.0 then 128 else 0;
    var y := Abs(x) * UNITS;
    var code := 0;
    if y != 0.0 {
      if y >= 448.0 * UNITS {
        code := MAX_CODE;
      } else if y < 8.0 {
        code := RoundEven(y);
      } else {
        code := NormalByte(y);
      }
    }
    b := sign + code;
  }
}
