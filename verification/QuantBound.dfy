/** Which blocks of src/nvfp4_ds_mla.rs keep the documented error bound, over all blocks; and what the codes
    and places of a stored row stand for. */
module QuantBound {
  import opened IntMath
  import opened Fp8Codec
  import opened RealMath
  import opened Wrappers
  import opened QuantBlock

  // ---- one element --------------------------------------------------------

  /** The bound sf / 2 + |x| / 4 on what comes back. */
  predicate Within(x: real, back: real, sf: real) { Abs(x - back) <= sf / 2.0 + Abs(x) / 4.0 }

  /** In units of the scale the bound holds up to 26 / 3, where the clamp at 6 takes too much. */
  lemma NibbleWithin(u: real)
    ensures Within(u, NibbleValue(Nibble(u)), 1.0) <==> 3.0 * Abs(u) <= 26.0
  {}

  lemma ByScale(x: real, u: real, v: real, back: real, sf: real)
    requires sf > 0.0 && u * sf == x && back == v * sf
    ensures Within(x, back, sf) <==> Within(u, v, 1.0)
    ensures 3.0 * Abs(x) <= 26.0 * sf <==> 3.0 * Abs(u) <= 26.0
  {
    Magnitudes(x, u, v, back, sf);
    RoomByScale(Abs(x - back), Abs(x), Abs(u - v), Abs(u), sf);
  }

  lemma Magnitudes(x: real, u: real, v: real, back: real, sf: real)
    requires sf > 0.0 && u * sf == x && back == v * sf
    ensures Abs(x - back) == Abs(u - v) * sf && Abs(x) == Abs(u) * sf
  {
    Difference(u, v, sf);
    AbsTimes(u - v, sf);
    AbsTimes(u, sf);
  }

  lemma RoomByScale(ex: real, ax: real, eu: real, au: real, sf: real)
    requires sf > 0.0 && ex == eu * sf && ax == au * sf
    ensures ex <= sf / 2.0 + ax / 4.0 <==> eu <= 0.5 + au / 4.0
    ensures 3.0 * ax <= 26.0 * sf <==> 3.0 * au <= 26.0
  {
    Room(au, sf);
    Compare(eu, 0.5 + au / 4.0, sf);
    Thrice(au, sf);
    Compare(3.0 * au, 26.0, sf);
  }

  lemma Difference(u: real, v: real, sf: real)
    ensures u * sf - v * sf == (u - v) * sf
  {}

  lemma Room(a: real, sf: real)
    ensures (0.5 + a / 4.0) * sf == sf / 2.0 + a * sf / 4.0
  {}

  lemma Thrice(a: real, sf: real)
    ensures 3.0 * a * sf == 3.0 * (a * sf)
  {}

  lemma Compare(a: real, b: real, sf: real)
    requires sf > 0.0
    ensures a * sf <= b * sf <==> a <= b
  {
    assert a > b ==> (a - b) * sf > 0.0;
    assert a <= b ==> (b - a) * sf >= 0.0;
  }

  // ---- the scale ----------------------------------------------------------

  /** The scale is positive: units of 2^-9, at least one. */
  lemma ScaleUnits(x: seq<real>)
    ensures Scale(x) == Mag(EncodeMag(RawScale(x) * UNITS)) as real / UNITS && Scale(x) > 0.0
  {
    var q := RawScale(x);
    EncodeParts(q);
    ScaleByteSound(x);
    DecodeIs(Encode(q));
    AtLeastOne(q * UNITS);
  }

  lemma AtLeastOne(y: real)
    requires y >= 1.0
    ensures Mag(EncodeMag(y)) >= 1
  {
    TopMag();
    if y < 448.0 * UNITS {
      MagNearest(y, 1);
    }
  }

  /** Twenty-six scales reach three times the largest element, but for blocks just above the least scale and
      blocks beyond the largest. */
  lemma UnitsReach(y: real)
    requires y >= 1.0
    ensures 18.0 * y <= 26.0 * Mag(EncodeMag(y)) as real <==> !(26.0 < 18.0 * y < 27.0) && 18.0 * y <= 26.0 * 448.0 * UNITS
  {
    TopMag();
    if y < 8.0 {
      SmallReach(y);
    } else if y < 448.0 * UNITS {
      NormalClose(y);
    }
  }

  lemma SmallReach(y: real)
    requires 1.0 <= y < 8.0
    ensures 18.0 * y <= 26.0 * Mag(EncodeMag(y)) as real <==> !(26.0 < 18.0 * y < 27.0)
  {
    RoundEvenIs(y);
    var m := RoundEven(y);
    assert 1 <= m <= 8 && Mag(m) == m;
    if m == 1 { assert y <= 1.5; }
  }

  // ---- a block ------------------------------------------------------------

  lemma {:induction false} AmaxAttained(x: seq<real>) returns (i: nat)
    requires x != []
    ensures i < |x| && Abs(x[i]) == Amax(x)
  {
    i := |x| - 1;
    if |x| > 1 && Abs(x[i]) < Amax(x) { i := AmaxAttained(x[..|x| - 1]); }
  }

  /** Element i of what a block comes back as. */
  function Back(x: seq<real>, i: nat): Option<real>
    requires i < |x|
  {
    ScaleByteSound(x);
    Scaled(Nibble(Ratio(x)[i]), ScaleByte(x))
  }

  /** Every element comes back, and within the bound exactly if it is at most 26 / 3 of the scale. */
  lemma ElementWithin(x: seq<real>, i: nat)
    requires i < |x|
    ensures Back(x, i).Some? && (Within(x[i], Back(x, i).value, Scale(x)) <==> 3.0 * Abs(x[i]) <= 26.0 * Scale(x))
  {
    var sf, u := Scale(x), Ratio(x)[i];
    ScaleUnits(x);
    ScaleDecodes(x);
    RatioTimes(x, i, sf, Inverse(sf), u);
    var v := NibbleValue(Nibble(u));
    ScaledIs(ScaleByte(x), sf, Nibble(u), v, v * sf);
    ByScale(x[i], u, v, v * sf, sf);
    NibbleWithin(u);
  }

  /** A block keeps the bound everywhere exactly if its largest magnitude is not in the gap between 26 / 3 and 9
      units of 2^-9, where the scale rounds down to one unit, and not above 26 / 3 of the largest scale. */
  lemma BlockWithin(x: seq<real>)
    requires x != []
    ensures (forall i :: 0 <= i < |x| ==> Back(x, i).Some? && Within(x[i], Back(x, i).value, Scale(x)))
      <==> !(26.0 / 3.0 < Amax(x) * UNITS < 9.0) && Amax(x) <= 26.0 / 3.0 * 448.0
  {
    var top := AmaxAttained(x);
    ScaleUnits(x);
    UnitsReach(RawScale(x) * UNITS);
    ElementWithin(x, top);
    forall i | 0 <= i < |x| && 3.0 * Amax(x) <= 26.0 * Scale(x)
      ensures Back(x, i).Some? && Within(x[i], Back(x, i).value, Scale(x))
    {
      ElementWithin(x, i);
    }
  }

  /** The least scale is stored for every block up to six units of 2^-9, zeros included. */
  lemma LeastScale(x: seq<real>)
    requires Amax(x) * UNITS <= 6.0
    ensures ScaleByte(x) == 1 && Scale(x) == 1.0 / UNITS
  {
    ScaleUnits(x);
    EncodeParts(RawScale(x));
  }

  // ---- codes and places ---------------------------------------------------

  /** 1.m times 2 to the exponent less 7. */
  function E4m3(e: nat, m: nat): real { (1.0 + m as real / 8.0) * Pow2(e) as real / 128.0 }

  lemma MagIsE4m3(e: nat, m: nat, c: nat)
    requires 1 <= e && m < 8 && c == 8 * e + m
    ensures DecodeMag(c) as real / UNITS == E4m3(e, m)
  {
    QuotientIs(c, 8, e);
    ShiftedIs(m, e - 1);
    Rescaled(m as real, Pow2(e - 1) as real);
  }

  lemma Rescaled(m: real, p: real)
    ensures (8.0 + m) * p / 512.0 == (1.0 + m / 8.0) * (2.0 * p) / 128.0
  {}

  /** The value of a code: denormals in units of 2^-9, then the normal numbers. */
  function CodeValue(e: nat, m: nat): real { if e == 0 then m as real / 512.0 else E4m3(e, m) }

  lemma MagIsCode(e: nat, m: nat, c: nat)
    requires m < 8 && c == 8 * e + m
    ensures DecodeMag(c) as real / UNITS == CodeValue(e, m)
  {
    if e >= 1 { MagIsE4m3(e, m, c); }
  }

  lemma FromMag(b: nat, c: nat, v: real)
    requires b < 256 && c == b % 128 != NAN_CODE && DecodeMag(c) as real / UNITS == v
    ensures Decode(b) == Some(Signed(b >= 128, v))
  {}

  /** Four exponent bits and three mantissa bits under a sign bit, all finite but for the last code. */
  lemma DecodeIsE4m3(e: nat, m: nat, c: nat, b: nat)
    requires e < 16 && m < 8 && c == 8 * e + m && (b == c || b == 128 + c)
    ensures Decode(b) == if c == 127 then None else Some(Signed(b >= 128, CodeValue(e, m)))
  {
    if c != 127 {
      MagIsCode(e, m, c);
      FromMag(b, c, CodeValue(e, m));
    }
  }

  /** Two exponent bits and one mantissa bit: 0 and 1 / 2, then 1.m times 2 to the exponent less 1. */
  lemma NibbleIsE2m1(e: nat, m: nat)
    requires e < 4 && m < 2
    ensures NibbleValue(2 * e + m) == if e == 0 then m as real / 2.0 else (1.0 + m as real / 2.0) * Pow2(e) as real / 2.0
    ensures NibbleValue(8 + 2 * e + m) == -NibbleValue(2 * e + m)
  {
    assert Pow2(1) == 2 && Pow2(2) == 4 && Pow2(3) == 8;
  }

  /** The scale of block 4a + b of the 32 is at 8b + a. */
  lemma SfPlace(a: nat, b: nat)
    requires a < 8 && b < 4
    ensures SfPerm(4 * a + b) == 8 * b + a
  {
    QuotientIs(4 * a + b, 4, a);
  }

  /** The even dimension of a pair is in the low nibble of byte j of its block, and the block's scale is in the
      last 32 bytes, four scales apart from its neighbours'. */
  lemma StoredAt(blocks: seq<seq<real>>, rope: seq<nat>, a: nat, c: nat, j: nat, b: nat)
    requires |blocks| == 32 && (forall k :: 0 <= k < 32 ==> |blocks[k]| == 16) && |rope| == 64 && j < 8
    requires a < 8 && c < 4 && b == 4 * a + c
    ensures RowByte(blocks, rope, 8 * b + j) % 16 == Nibble(Ratio(blocks[b])[2 * j])
    ensures RowByte(blocks, rope, 8 * b + j) / 16 == Nibble(Ratio(blocks[b])[2 * j + 1])
    ensures RowByte(blocks, rope, 320 + 8 * c + a) == ScaleByte(blocks[b])
  {
    SfPlace(a, c);
    RowBytesAt(blocks, rope, b, j);
    HalfIs(Ratio(blocks[b]), j);
  }

  /** The 64 rope bytes are stored as they are, after the data. */
  lemma RopeAt(blocks: seq<seq<real>>, rope: seq<nat>, k: nat)
    requires |blocks| == 32 && (forall b :: 0 <= b < 32 ==> |blocks[b]| == 16) && |rope| == 64 && k < 64
    ensures RowByte(blocks, rope, 256 + k) == rope[k]
  {}
}
