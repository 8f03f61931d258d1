/** Magnitudes and rounding over the reals. */
module RealMath {
  function Abs(x: real): real { if x < 0.0 then -x else x }

  /** Nearest integer, ties to even. */
  function RoundEven(x: real): int {
    var f := x.Floor;
    var d := x - f as real;
    if d < 0.5 then f else if d > 0.5 then f + 1 else if f % 2 == 0 then f else f + 1
  }

  lemma RoundEvenIs(x: real)
    ensures var q := RoundEven(x);
      -0.5 <= x - q as real <= 0.5 && (x - q as real == 0.5 || x - q as real == -0.5 ==> q % 2 == 0)
  {}

  /** The largest magnitude, 0 for no elements. */
  function Amax(x: seq<real>): (m: real)
    ensures m >= 0.0 && forall i :: 0 <= i < |x| ==> Abs(x[i]) <= m
  {
    if x == [] then 0.0
    else
      var m := Amax(x[..|x| - 1]);
      assert forall i :: 0 <= i < |x| - 1 ==> x[i] == x[..|x| - 1][i];
      if Abs(x[|x| - 1]) > m then Abs(x[|x| - 1]) else m
  }

  lemma {:induction false} AmaxLeast(x: seq<real>, bound: real)
    requires bound >= 0.0 && forall i :: 0 <= i < |x| ==> Abs(x[i]) <= bound
    ensures Amax(x) <= bound
  {
    if x != [] { AmaxLeast(x[..|x| - 1], bound); }
  }

  lemma AbsTimes(e: real, sf: real)
    requires sf > 0.0
    ensures Abs(e * sf) == Abs(e) * sf
  {
    assert e < 0.0 ==> (0.0 - e) * sf > 0.0;
    assert e >= 0.0 ==> e * sf >= 0.0;
  }

  lemma TimesGrows(a: real, b: real, sf: real)
    requires a <= b && sf > 0.0
    ensures a * sf <= b * sf
  {}
}
