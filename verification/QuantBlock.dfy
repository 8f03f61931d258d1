/** The e2m1 codec and the block quantization of src/nvfp4_ds_mla.rs, with the layout of a stored row. */
module QuantBlock {
  import opened IntMath
  import opened Fp8Codec
  import opened RealMath
  import opened Wrappers

  // ---- e2m1 ---------------------------------------------------------------

  const MAGS: seq<real> := [0.0, 0.5, 1.0, 1.5, 2.0, 3.0, 4.0, 6.0]

  /** e2m1_to_f32: bit 3 is the sign. */
  function NibbleValue(c: nat): real
    requires c < 16
  {
    if c >= 8 then -MAGS[c - 8] else MAGS[c]
  }

  /** The best of the first n magnitudes: a later one wins if it is nearer, or as near and even. */
  function Best(a: real, n: nat): (c: nat)
    requires 1 <= n <= 8
    ensures c < n
  {
    if n == 1 then 0
    else
      var b := Best(a, n - 1);
      var e, best := Abs(a - MAGS[n - 1]), Abs(a - MAGS[b]);
      if e < best || (e == best && (n - 1) % 2 == 0) then n - 1 else b
  }

  method EncodeNibble(x: real) returns (c: nat)
    ensures c == Nibble(x)
  {
    var a := Abs(x);
    var best, err := 0, Abs(a - MAGS[0]);
    for i := 1 to 8
      invariant best == Best(a, i) && err == Abs(a - MAGS[best])
    {
      var e := Abs(a - MAGS[i]);
      if e < err || (e == err && i % 2 == 0) { best, err := i, e; }
    }
    BestIsRounded(a);
    c := best + (if x < 0.0 then 8 else 0);
  }

  /** The code by its rounding boundaries. */
  function Rounded(a: real): nat {
    if a <= 0.25 then 0 else if a < 0.75 then 1 else if a <= 1.25 then 2 else if a < 1.75 then 3
    else if a <= 2.5 then 4 else if a < 3.5 then 5 else if a <= 5.0 then 6 else 7
  }

  /** f32_to_e2m1 without the sign of zero. */
  function Nibble(x: real): (c: nat)
    ensures c < 16
  {
    Rounded(Abs(x)) + (if x < 0.0 then 8 else 0)
  }

  lemma BestLow(a: real)
    requires a >= 0.0
    ensures Best(a, 5) == if a <= 0.25 then 0 else if a < 0.75 then 1 else if a <= 1.25 then 2 else if a < 1.75 then 3 else 4
  {
    assert Best(a, 2) == if a <= 0.25 then 0 else 1;
    assert Best(a, 3) == if a <= 0.25 then 0 else if a < 0.75 then 1 else 2;
    assert Best(a, 4) == if a <= 0.25 then 0 else if a < 0.75 then 1 else if a <= 1.25 then 2 else 3;
  }

  /** The loop rounds to nearest with ties to the even code, and clamps at 6. */
  lemma BestIsRounded(a: real)
    requires a >= 0.0
    ensures Best(a, 8) == Rounded(a)
  {
    BestLow(a);
    assert Best(a, 6) == if a < 1.75 then Best(a, 5) else if a <= 2.5 then 4 else 5;
    assert Best(a, 7) == if a < 1.75 then Best(a, 5) else if a <= 2.5 then 4 else if a < 3.5 then 5 else 6;
  }

  /** No magnitude is nearer, and on a tie the chosen code is even. */
  lemma NibbleNearest(x: real, d: nat)
    requires d < 8
    ensures var c := Nibble(x) % 8; var a := Abs(x);
      Abs(a - MAGS[c]) <= Abs(a - MAGS[d]) && (d != c && Abs(a - MAGS[c]) == Abs(a - MAGS[d]) ==> c % 2 == 0)
  {}

  /** Up to 6.4, just past the clamp, the error is at most a quarter or a fifth of the value. */
  lemma NibbleError(u: real)
    requires Abs(u) <= 6.4
    ensures Abs(u - NibbleValue(Nibble(u))) <= 0.25 || Abs(u - NibbleValue(Nibble(u))) <= Abs(u) / 5.0
  {}

  // ---- one block ----------------------------------------------------------

  const TINY := 1.0 / 512.0

  /** The scale before encoding: amax / 6, at least 2^-9. */
  function RawScale(x: seq<real>): real {
    var q := Amax(x) / 6.0;
    if q < TINY then TINY else q
  }

  function ScaleByte(x: seq<real>): nat { Encode(RawScale(x)) }

  function ByteValue(b: nat): real
    requires b < 256
  {
    match Decode(b) case Some(v) => v case None => 0.0
  }

  lemma ScaleByteSound(x: seq<real>)
    ensures ScaleByte(x) < 128 && Decode(ScaleByte(x)).Some?
  {
    EncodeSaturates(RawScale(x));
    EncodeParts(RawScale(x));
  }

  function Scale(x: seq<real>): real {
    ScaleByteSound(x);
    ByteValue(ScaleByte(x))
  }

  function Inverse(sf: real): real { if sf == 0.0 then 0.0 else 1.0 / sf }

  method FindAmax(x: seq<real>) returns (amax: real)
    ensures amax == Amax(x)
  {
    amax := 0.0;
    for i := 0 to |x|
      invariant amax == Amax(x[..i])
    {
      assert x[..i + 1][..i] == x[..i];
      if Abs(x[i]) > amax { amax := Abs(x[i]); }
    }
    assert x[..|x|] == x;
  }

  /** Every element times inv. */
  function Ratios(x: seq<real>, inv: real): (u: seq<real>)
    ensures |u| == |x|
  {
    if x == [] then [] else Ratios(x[..|x| - 1], inv) + [x[|x| - 1] * inv]
  }

  lemma {:induction false} RatiosAt(x: seq<real>, inv: real, i: nat)
    requires i < |x|
    ensures Ratios(x, inv)[i] == x[i] * inv
  {
    if i < |x| - 1 { RatiosAt(x[..|x| - 1], inv, i); }
  }

  /** The elements in units of the stored scale. */
  function Ratio(x: seq<real>): (u: seq<real>)
    ensures |u| == |x|
  {
    Ratios(x, Inverse(Scale(x)))
  }

  /** Two nibbles in a byte, the even dimension in the low one. */
  function PackByte(u: seq<real>, j: nat): nat
    requires 2 * j + 1 < |u|
  {
    Nibble(u[2 * j]) + 16 * Nibble(u[2 * j + 1])
  }

  function PackBytes(u: seq<real>, n: nat): (d: seq<nat>)
    requires 2 * n <= |u|
    ensures |d| == n
  {
    if n == 0 then [] else PackBytes(u, n - 1) + [PackByte(u, n - 1)]
  }

  lemma {:induction false} PackBytesAt(u: seq<real>, n: nat, j: nat)
    requires 2 * n <= |u| && j < n
    ensures PackBytes(u, n)[j] == PackByte(u, j)
  {
    if j < n - 1 { PackBytesAt(u, n - 1, j); }
  }

  method EncodePair(u: seq<real>, j: nat, lower: real, upper: real) returns (byte: nat)
    requires 2 * j + 1 < |u| && lower == u[2 * j] && upper == u[2 * j + 1]
    ensures byte == PackByte(u, j)
  {
    var lo := EncodeNibble(lower);
    var hi := EncodeNibble(upper);
    byte := lo + 16 * hi;
  }

  /** quant_block: the scale byte, then eight bytes of two nibbles. */
  method Quantize(x: seq<real>) returns (sf: nat, data: seq<nat>)
    requires |x| == 16
    ensures sf == ScaleByte(x) && data == PackBytes(Ratio(x), 8)
  {
    var amax := FindAmax(x);
    var q := amax / 6.0;
    if q < TINY { q := TINY; }
    sf := Encode(q);
    ScaleByteSound(x);
    data := PackAll(x, Inverse(ByteValue(sf)));
  }

  method PackAll(x: seq<real>, inv: real) returns (data: seq<nat>)
    requires |x| == 16
    ensures data == PackBytes(Ratios(x, inv), 8)
  {
    data := [];
    for j := 0 to 8
      invariant data == PackBytes(Ratios(x, inv), j)
    {
      RatiosAt(x, inv, 2 * j);
      RatiosAt(x, inv, 2 * j + 1);
      var byte := EncodePair(Ratios(x, inv), j, x[2 * j] * inv, x[2 * j + 1] * inv);
      data := data + [byte];
    }
  }

  // ---- the error of a block -----------------------------------------------

  /** In the normal range a scale loses at most a sixteenth. */
  lemma NormalClose(y: real)
    requires 8.0 <= y < 448.0 * UNITS
    ensures 16.0 * Mag(NormalCode(y)) as real >= 15.0 * y
  {
    TopBinade(y);
    NormalCloseIn(y, Binade(y, 0), Pow2(Binade(y, 0)) as real);
  }

  lemma NormalCloseIn(y: real, s: nat, p: real)
    requires p == Pow2(s) as real && 8.0 * p <= y < 16.0 * p
    ensures 16.0 * Mag(CodeIn(y, s, p)) as real >= 15.0 * y
  {
    MantissaRange(y, p);
    var m := RoundEven(y / p - 8.0);
    HalfStep(y, p, m);
    BinadeValue(s, p, m, (s + 1) * 8 + m);
  }

  lemma MagClose(y: real)
    requires 8.0 <= y <= 448.0 * UNITS
    ensures 16.0 * Mag(EncodeMag(y)) as real >= 15.0 * y
  {
    if y < 448.0 * UNITS { NormalClose(y); } else { TopMag(); }
  }

  lemma ScaleClose(q: real)
    requires 8.0 <= q * UNITS <= 448.0 * UNITS
    ensures Encode(q) < 128 && Decode(Encode(q)).Some? && 16.0 * Decode(Encode(q)).value >= 15.0 * q
  {
    EncodeParts(q);
    EncodeSaturates(q);
    DecodeIs(Encode(q));
    MagClose(q * UNITS);
  }

  lemma Divides(x: real, sf: real)
    requires sf > 0.0
    ensures x * Inverse(sf) == x / sf && x / sf * sf == x
  {
    var i := 1.0 / sf;
    assert i * sf == 1.0;
    assert x * i * sf == x;
  }

  lemma Shrinks(u: real, sf: real, amax: real)
    requires sf > 0.0 && Abs(u) * sf <= amax && 16.0 * sf >= 15.0 * (amax / 6.0)
    ensures Abs(u) <= 6.4
  {
    assert Abs(u) > 6.4 ==> (Abs(u) - 6.4) * sf > 0.0;
  }

  lemma ScaledError(x: real, u: real, v: real, sf: real, back: real)
    requires sf > 0.0 && u * sf == x && back == v * sf && (Abs(u - v) <= 0.25 || Abs(u - v) <= Abs(u) / 5.0)
    ensures Abs(x - back) <= sf / 4.0 || Abs(x - back) <= Abs(x) / 5.0
  {
    var e := u - v;
    assert x - back == e * sf;
    AbsTimes(e, sf);
    AbsTimes(u, sf);
    if Abs(e) <= 0.25 {
      TimesGrows(Abs(e), 0.25, sf);
    } else {
      TimesGrows(Abs(e), Abs(u) / 5.0, sf);
      Fifth(Abs(u), sf);
    }
  }

  lemma Fifth(a: real, sf: real)
    ensures a / 5.0 * sf == a * sf / 5.0
  {}

  /** An element no larger than amax, divided by the scale, rounded, and multiplied again. */
  lemma ElementError(x: real, sf: real, amax: real, u: real, v: real, back: real)
    requires sf > 0.0 && Abs(x) <= amax && 16.0 * sf >= 15.0 * (amax / 6.0)
    requires u * sf == x && v == NibbleValue(Nibble(u)) && back == v * sf
    ensures Abs(x - back) <= sf / 4.0 || Abs(x - back) <= Abs(x) / 5.0
  {
    AbsTimes(u, sf);
    Shrinks(u, sf, amax);
    NibbleError(u);
    ScaledError(x, u, v, sf, back);
  }

  lemma BlockScale(x: seq<real>)
    requires 1.0 / 64.0 <= Amax(x) / 6.0 <= 448.0
    ensures Scale(x) > 0.0 && 16.0 * Scale(x) >= 15.0 * (Amax(x) / 6.0)
  {
    var q := Amax(x) / 6.0;
    ScaleByteSound(x);
    ScaleClose(q);
  }

  lemma LooseBound(e: real, sf: real, a: real)
    requires sf > 0.0 && a >= 0.0 && (e <= sf / 4.0 || e <= a / 5.0)
    ensures e <= sf / 2.0 + a / 4.0
  {}

  /** The block round trip: for blocks whose scale is in the normal range of e4m3, every element comes
      back within a quarter of the scale or a fifth of itself; in particular within sf / 2 + |x| / 4. */
  lemma BlockError(x: seq<real>, i: nat, b: nat, sf: real)
    requires i < |x| && 1.0 / 64.0 <= Amax(x) / 6.0 <= 448.0
    requires b == ScaleByte(x) && sf == Scale(x)
    ensures b < 128 && Decode(b) == Some(sf) && Returned(x[i], b, sf, Nibble(Ratios(x, Inverse(sf))[i]))
  {
    BlockFacts(x, i, b, sf);
    RatioReturns(x, i, sf, Amax(x), b);
  }

  lemma RatioReturns(x: seq<real>, i: nat, sf: real, amax: real, b: nat)
    requires i < |x| && b < 256 && Decode(b) == Some(sf)
    requires sf > 0.0 && Abs(x[i]) <= amax && 16.0 * sf >= 15.0 * (amax / 6.0)
    ensures Returned(x[i], b, sf, Nibble(Ratios(x, Inverse(sf))[i]))
  {
    var u := Ratios(x, Inverse(sf))[i];
    RatioTimes(x, i, sf, Inverse(sf), u);
    var v := NibbleValue(Nibble(u));
    StoredReturns(x[i], sf, amax, b, u, Nibble(u), v, v * sf);
  }

  lemma RatioTimes(x: seq<real>, i: nat, sf: real, inv: real, u: real)
    requires i < |x| && sf > 0.0 && inv == Inverse(sf) && u == Ratios(x, inv)[i]
    ensures u * sf == x[i]
  {
    RatiosAt(x, inv, i);
    Divides(x[i], sf);
  }

  lemma BlockFacts(x: seq<real>, i: nat, b: nat, sf: real)
    requires i < |x| && 1.0 / 64.0 <= Amax(x) / 6.0 <= 448.0
    requires b == ScaleByte(x) && sf == Scale(x)
    ensures b < 128 && Decode(b) == Some(sf) && sf > 0.0 && Abs(x[i]) <= Amax(x) && 16.0 * sf >= 15.0 * (Amax(x) / 6.0)
  {
    BlockScale(x);
    ScaleDecodes(x);
  }

  lemma ScaleDecodes(x: seq<real>)
    ensures ScaleByte(x) < 128 && Decode(ScaleByte(x)) == Some(Scale(x))
  {
    ScaleByteSound(x);
  }

  predicate Close(x: real, back: real, sf: real) {
    && sf > 0.0
    && (Abs(x - back) <= sf / 4.0 || Abs(x - back) <= Abs(x) / 5.0)
    && Abs(x - back) <= sf / 2.0 + Abs(x) / 4.0
  }

  /** A nibble and a scale byte read back as a value close to x. */
  predicate Returned(x: real, b: nat, sf: real, c: nat)
    requires b < 256 && c < 16
  {
    Scaled(c, b).Some? && Close(x, Scaled(c, b).value, sf)
  }

  lemma StoredReturns(x: real, sf: real, amax: real, b: nat, u: real, c: nat, v: real, back: real)
    requires b < 256 && Decode(b) == Some(sf) && u * sf == x && c == Nibble(u) && v == NibbleValue(c) && back == v * sf
    requires sf > 0.0 && Abs(x) <= amax && 16.0 * sf >= 15.0 * (amax / 6.0)
    ensures Returned(x, b, sf, c)
  {
    StoredClose(x, sf, amax, u, v, back);
    ScaledIs(b, sf, c, v, back);
  }

  function Times(v: real, f: Option<real>): Option<real> {
    if f.Some? then Some(Multiplied(v, f.value)) else None
  }

  function Multiplied(v: real, x: real): real { v * x }

  lemma TimesIs(v: real, f: Option<real>, sf: real, back: real)
    requires f == Some(sf) && back == v * sf
    ensures Times(v, f) == Some(back)
  {}

  lemma ScaledIs(b: nat, sf: real, c: nat, v: real, back: real)
    requires c < 16 && b < 256 && Decode(b) == Some(sf) && v == NibbleValue(c) && back == v * sf
    ensures Scaled(c, b) == Some(back)
  {
    TimesIs(v, Decode(b), sf, back);
  }

  lemma StoredClose(x: real, sf: real, amax: real, u: real, v: real, back: real)
    requires sf > 0.0 && Abs(x) <= amax && 16.0 * sf >= 15.0 * (amax / 6.0)
    requires u * sf == x && v == NibbleValue(Nibble(u)) && back == v * sf
    ensures Close(x, back, sf)
  {
    ElementError(x, sf, amax, u, v, back);
    LooseBound(Abs(x - back), sf, Abs(x));
  }

  // ---- the stored row -----------------------------------------------------

  const ROW_BYTES := 352
  const ROPE_AT := 256
  const SCALES_AT := 320

  /** Where the scale of a block is stored among the 32. */
  function SfPerm(s: nat): nat { 8 * (s % 4) + s / 4 }

  function SfPermInverse(p: nat): nat { p / 8 + 4 * (p % 8) }

  /** A permutation of 0 .. 31. */
  lemma SfPermBijective(s: nat)
    requires s < 32
    ensures SfPerm(s) < 32 && SfPermInverse(SfPerm(s)) == s && SfPermInverse(s) < 32 && SfPerm(SfPermInverse(s)) == s
  {
    var hi, lo := s / 4, s % 4;
    Division(s, 4);
    QuotientIs(8 * lo + hi, 8, lo);
    var a, b := s / 8, s % 8;
    Division(s, 8);
    QuotientIs(4 * b + a, 4, b);
  }

  /** Byte k of the row that stores 32 blocks of 16 dimensions and 64 raw e4m3 bytes. */
  function RowByte(blocks: seq<seq<real>>, rope: seq<nat>, k: nat): nat
    requires |blocks| == 32 && (forall b :: 0 <= b < 32 ==> |blocks[b]| == 16) && |rope| == 64 && k < ROW_BYTES
  {
    if k < ROPE_AT then DataByte(blocks[k / 8], k % 8)
    else if k < SCALES_AT then rope[k - ROPE_AT]
    else
      SfPermBijective(k - SCALES_AT);
      ScaleByte(blocks[SfPermInverse(k - SCALES_AT)])
  }

  function DataByte(x: seq<real>, j: nat): nat
    requires |x| == 16 && j < 8
  {
    PackByte(Ratio(x), j)
  }

  predicate Bytes(row: seq<nat>) { |row| == ROW_BYTES && forall k :: 0 <= k < ROW_BYTES ==> row[k] < 256 }

  /** A nibble times the scale a byte decodes to. */
  function Scaled(c: nat, sf: nat): Option<real>
    requires c < 16 && sf < 256
  {
    Times(NibbleValue(c), Decode(sf))
  }

  function Half(byte: nat, high: bool): (c: nat)
    requires byte < 256
    ensures c < 16
  {
    if high then byte / 16 else byte % 16
  }

  function BlockScaleByte(row: seq<nat>, blk: nat): (b: nat)
    requires Bytes(row) && blk < 32
    ensures b < 256
  {
    SfPermBijective(blk);
    row[SCALES_AT + SfPerm(blk)]
  }

  /** One nibble of byte j of a block, times the block's scale. */
  function Element(row: seq<nat>, blk: nat, j: nat, high: bool): Option<real>
    requires Bytes(row) && blk < 32 && j < 8
  {
    Scaled(Half(row[blk * 8 + j], high), BlockScaleByte(row, blk))
  }

  /** Dimension d of the dequantized latent. */
  function LatentAt(row: seq<nat>, d: nat): Option<real>
    requires Bytes(row) && d < 512
  {
    Division(d, 16);
    Division(d % 16, 2);
    Element(row, d / 16, d % 16 / 2, d % 16 % 2 == 1)
  }

  lemma LatentPlace(row: seq<nat>, blk: nat, j: nat, n: nat)
    requires Bytes(row) && blk < 32 && j < 8 && n == blk * 16 + 2 * j
    ensures n + 1 < 512 && LatentAt(row, n) == Element(row, blk, j, false) && LatentAt(row, n + 1) == Element(row, blk, j, true)
  {
    QuotientIs(n, 16, blk);
    QuotientIs(n + 1, 16, blk);
    QuotientIs(2 * j, 2, j);
    QuotientIs(2 * j + 1, 2, j);
  }

  function Latent(row: seq<nat>, n: nat): (l: seq<Option<real>>)
    requires Bytes(row) && n <= 512
    ensures |l| == n
  {
    if n == 0 then [] else Latent(row, n - 1) + [LatentAt(row, n - 1)]
  }

  lemma LatentPair(row: seq<nat>, blk: nat, j: nat, n: nat)
    requires Bytes(row) && blk < 32 && j < 8 && n == blk * 16 + 2 * j
    ensures n + 2 <= 512
    ensures Latent(row, n + 2) == Latent(row, n) + [Element(row, blk, j, false), Element(row, blk, j, true)]
  {
    LatentPlace(row, blk, j, n);
    LatentTwo(row, n);
  }

  lemma LatentTwo(row: seq<nat>, n: nat)
    requires Bytes(row) && n + 2 <= 512
    ensures Latent(row, n + 2) == Latent(row, n) + [LatentAt(row, n), LatentAt(row, n + 1)]
  {
    var a, b, l := LatentAt(row, n), LatentAt(row, n + 1), Latent(row, n);
    assert Latent(row, n + 1) == l + [a];
    assert l + [a] + [b] == l + [a, b];
  }

  method Multiply(c: nat, sf: Option<real>, b: nat) returns (v: Option<real>)
    requires c < 16 && b < 256 && sf == Decode(b)
    ensures v == Scaled(c, b)
  {
    v := Times(NibbleValue(c), sf);
  }

  method DequantPair(row: seq<nat>, blk: nat, j: nat, sf: Option<real>) returns (lo: Option<real>, hi: Option<real>)
    requires Bytes(row) && blk < 32 && j < 8 && sf == Decode(BlockScaleByte(row, blk))
    ensures lo == Element(row, blk, j, false) && hi == Element(row, blk, j, true)
  {
    var byte := row[blk * 8 + j];
    lo := Multiply(byte % 16, sf, BlockScaleByte(row, blk));
    hi := Multiply(byte / 16, sf, BlockScaleByte(row, blk));
  }

  method DequantStep(row: seq<nat>, blk: nat, j: nat, ghost n: nat, sf: Option<real>, before: seq<Option<real>>) returns (latent: seq<Option<real>>)
    requires Bytes(row) && blk < 32 && j < 8 && sf == Decode(BlockScaleByte(row, blk))
    requires n == blk * 16 + 2 * j && before == Latent(row, n)
    ensures n + 2 <= 512 && latent == Latent(row, n + 2)
  {
    var lo, hi := DequantPair(row, blk, j, sf);
    LatentPair(row, blk, j, n);
    latent := before + [lo, hi];
  }

  method DequantBlock(row: seq<nat>, blk: nat, before: seq<Option<real>>) returns (latent: seq<Option<real>>)
    requires Bytes(row) && blk < 32 && before == Latent(row, blk * 16)
    ensures latent == Latent(row, blk * 16 + 16)
  {
    SfPermBijective(blk);
    var sf := Decode(row[SCALES_AT + SfPerm(blk)]);
    latent := before;
    ghost var n := blk * 16;
    for j := 0 to 8
      invariant n == blk * 16 + 2 * j && n <= 512 && latent == Latent(row, n)
    {
      latent := DequantStep(row, blk, j, n, sf, latent);
      n := n + 2;
    }
  }

  /** dequant_row: 512 latent and 64 rope dimensions; None where a byte is a NaN. */
  method DequantRow(row: seq<nat>) returns (latent: seq<Option<real>>, rope: seq<Option<real>>)
    requires Bytes(row)
    ensures latent == Latent(row, 512)
    ensures |rope| == 64 && forall d :: 0 <= d < 64 ==> rope[d] == Decode(row[ROPE_AT + d])
  {
    latent := [];
    for blk := 0 to 32
      invariant latent == Latent(row, blk * 16)
    {
      latent := DequantBlock(row, blk, latent);
    }
    rope := [];
    for d := 0 to 64
      invariant |rope| == d && forall k :: 0 <= k < d ==> rope[k] == Decode(row[ROPE_AT + k])
    {
      rope := rope + [Decode(row[ROPE_AT + d])];
    }
  }

  lemma Unpacked(lo: nat, hi: nat)
    requires lo < 16 && hi < 16
    ensures (lo + 16 * hi) % 16 == lo && (lo + 16 * hi) / 16 == hi && lo + 16 * hi < 256
  {
    QuotientIs(lo + 16 * hi, 16, hi);
  }

  lemma DataPlace(b: nat, j: nat, k: nat)
    requires b < 32 && j < 8 && k == b * 8 + j
    ensures k < ROPE_AT && k / 8 == b && k % 8 == j
  {
    QuotientIs(k, 8, b);
  }

  lemma RowBytesAt(blocks: seq<seq<real>>, rope: seq<nat>, b: nat, j: nat)
    requires |blocks| == 32 && (forall c :: 0 <= c < 32 ==> |blocks[c]| == 16) && |rope| == 64 && b < 32 && j < 8
    ensures RowByte(blocks, rope, b * 8 + j) == DataByte(blocks[b], j)
    ensures SfPerm(b) < 32 && RowByte(blocks, rope, SCALES_AT + SfPerm(b)) == ScaleByte(blocks[b])
  {
    SfPermBijective(b);
    RowDataAt(blocks, rope, b, j, b * 8 + j);
    RowScaleAt(blocks, rope, b, SfPerm(b));
  }

  lemma RowDataAt(blocks: seq<seq<real>>, rope: seq<nat>, b: nat, j: nat, k: nat)
    requires |blocks| == 32 && (forall c :: 0 <= c < 32 ==> |blocks[c]| == 16) && |rope| == 64 && b < 32 && j < 8 && k == b * 8 + j
    ensures RowByte(blocks, rope, k) == DataByte(blocks[b], j)
  {
    DataPlace(b, j, k);
  }

  lemma RowScaleAt(blocks: seq<seq<real>>, rope: seq<nat>, b: nat, q: nat)
    requires |blocks| == 32 && (forall c :: 0 <= c < 32 ==> |blocks[c]| == 16) && |rope| == 64
    requires b < 32 && q < 32 && SfPermInverse(q) == b
    ensures RowByte(blocks, rope, SCALES_AT + q) == ScaleByte(blocks[b])
  {}

  lemma HalfIs(u: seq<real>, j: nat)
    requires 2 * j + 1 < |u|
    ensures PackByte(u, j) < 256
    ensures Half(PackByte(u, j), false) == Nibble(u[2 * j]) && Half(PackByte(u, j), true) == Nibble(u[2 * j + 1])
  {
    Unpacked(Nibble(u[2 * j]), Nibble(u[2 * j + 1]));
  }

  /** Reading a stored row gives back, for every dimension of every block, its own nibble and scale. */
  lemma RowRoundTrip(blocks: seq<seq<real>>, rope: seq<nat>, row: seq<nat>, b: nat, j: nat, n: nat)
    requires |blocks| == 32 && (forall c :: 0 <= c < 32 ==> |blocks[c]| == 16) && |rope| == 64 && b < 32 && j < 8
    requires Bytes(row) && (forall k :: 0 <= k < ROW_BYTES ==> row[k] == RowByte(blocks, rope, k)) && n == b * 16 + 2 * j
    ensures n + 1 < 512 && ScaleByte(blocks[b]) < 128
    ensures LatentAt(row, n) == Scaled(Nibble(Ratio(blocks[b])[2 * j]), ScaleByte(blocks[b]))
    ensures LatentAt(row, n + 1) == Scaled(Nibble(Ratio(blocks[b])[2 * j + 1]), ScaleByte(blocks[b]))
  {
    LatentPlace(row, b, j, n);
    RowBytesAt(blocks, rope, b, j);
    HalfIs(Ratio(blocks[b]), j);
    ScaleByteSound(blocks[b]);
  }

  // ---- what is stored and read again --------------------------------------

  /** The row holds, for every block, what `Quantize` gives for it. */
  ghost predicate Holds(row: seq<nat>, blocks: seq<seq<real>>) {
    && Bytes(row) && |blocks| == 32 && (forall b :: 0 <= b < 32 ==> |blocks[b]| == 16)
    && forall b, j: nat :: 0 <= b < 32 && j < 8 ==> HoldsByte(row, blocks[b], b, j)
  }

  predicate HoldsByte(row: seq<nat>, x: seq<real>, b: nat, j: nat)
    requires Bytes(row) && |x| == 16 && b < 32 && j < 8
  {
    row[b * 8 + j] == PackBytes(Ratio(x), 8)[j] && BlockScaleByte(row, b) == ScaleByte(x)
  }

  lemma {:induction false} LatentIs(row: seq<nat>, n: nat, d: nat)
    requires Bytes(row) && d < n <= 512
    ensures Latent(row, n)[d] == LatentAt(row, d)
  {
    if d < n - 1 { LatentIs(row, n - 1, d); }
  }

  lemma HeldElement(row: seq<nat>, x: seq<real>, b: nat, j: nat, high: bool)
    requires Bytes(row) && |x| == 16 && b < 32 && j < 8 && HoldsByte(row, x, b, j)
    ensures Element(row, b, j, high) == Scaled(Nibble(Ratio(x)[if high then 2 * j + 1 else 2 * j]), BlockScaleByte(row, b))
  {
    PackBytesAt(Ratio(x), 8, j);
    HalfIs(Ratio(x), j);
  }

  lemma ReadBack(row: seq<nat>, x: seq<real>, b: nat, j: nat, high: bool, i: nat, sf: real)
    requires Bytes(row) && |x| == 16 && b < 32 && j < 8 && HoldsByte(row, x, b, j) && i == (if high then 2 * j + 1 else 2 * j)
    requires 1.0 / 64.0 <= Amax(x) / 6.0 <= 448.0 && sf == Scale(x)
    ensures Element(row, b, j, high).Some? && Close(x[i], Element(row, b, j, high).value, sf)
  {
    HeldElement(row, x, b, j, high);
    BlockError(x, i, ScaleByte(x), sf);
  }

  /** Quantizing 32 blocks, storing them and dequantizing the row: every dimension comes back close to
      what it was, if the scale of its block is in the normal range. */
  lemma RowError(row: seq<nat>, blocks: seq<seq<real>>, latent: seq<Option<real>>, b: nat, j: nat, high: bool, i: nat, n: nat, sf: real)
    requires Holds(row, blocks) && latent == Latent(row, 512) && b < 32 && j < 8
    requires i == (if high then 2 * j + 1 else 2 * j) && n == b * 16 + i && sf == Scale(blocks[b])
    requires 1.0 / 64.0 <= Amax(blocks[b]) / 6.0 <= 448.0
    ensures n < 512 && latent[n].Some? && Close(blocks[b][i], latent[n].value, sf)
  {
    LatentPlace(row, b, j, b * 16 + 2 * j);
    LatentIs(row, 512, n);
    assert HoldsByte(row, blocks[b], b, j);
    ReadBack(row, blocks[b], b, j, high, i, sf);
  }
}
