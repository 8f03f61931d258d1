/** Ceiling division and multiples, over the integers. */
module IntMath {
  function Min(a: int, b: int): int { if a < b then a else b }

  function Max(a: int, b: int): int { if a < b then b else a }

  function CeilDiv(a: int, b: int): int
    requires b > 0
  {
    (a + b - 1) / b
  }

  lemma MulLeq(a: int, b: int, c: int)
    requires a <= b && c >= 0
    ensures a * c <= b * c
  {}

  lemma Division(a: int, b: int)
    requires b > 0
    ensures a == (a / b) * b + a % b && 0 <= a % b < b
  {}

  /** a is the quotient of every number in [a * d, a * d + d). */
  lemma QuotientIs(x: int, d: int, a: int)
    requires d > 0 && a * d <= x < a * d + d
    ensures x / d == a && x % d == x - a * d
  {
    var q := x / d;
    Division(x, d);
    if q < a { MulLeq(q + 1, a, d); }
    if q > a { MulLeq(a + 1, q, d); }
  }

  lemma CeilDivBounds(a: int, b: int)
    requires a >= 0 && b > 0
    ensures CeilDiv(a, b) >= 0 && (CeilDiv(a, b) - 1) * b < a <= CeilDiv(a, b) * b
  {
    Division(a + b - 1, b);
  }

  /** The ceiling is the least m with a <= m * b. */
  lemma CeilDivLeast(a: int, b: int, m: int)
    requires a >= 0 && b > 0
    ensures CeilDiv(a, b) <= m <==> a <= m * b
  {
    CeilDivBounds(a, b);
    if CeilDiv(a, b) <= m { MulLeq(CeilDiv(a, b), m, b); }
    if m <= CeilDiv(a, b) - 1 { MulLeq(m, CeilDiv(a, b) - 1, b); }
  }

  lemma CeilIs(a: int, b: int, m: int)
    requires a >= 0 && b > 0 && (m - 1) * b < a <= m * b
    ensures CeilDiv(a, b) == m
  {
    CeilDivLeast(a, b, m);
    CeilDivLeast(a, b, m - 1);
  }

  lemma MultipleTimes(a: int, d: int)
    requires d > 0
    ensures (a * d) % d == 0 && a * d / d == a
  {
    QuotientIs(a * d, d, a);
  }

  lemma Distribute(a: int, b: int, d: int)
    ensures (a + b) * d == a * d + b * d && (a - b) * d == a * d - b * d
  {}

  lemma MultipleSum(x: int, y: int, d: int)
    requires d > 0 && x % d == 0 && y % d == 0
    ensures (x + y) % d == 0 && (x - y) % d == 0
  {
    var a, b := x / d, y / d;
    assert x == a * d && y == b * d by { Division(x, d); Division(y, d); }
    Distribute(a, b, d);
    MultipleTimes(a + b, d);
    MultipleTimes(a - b, d);
  }

  /** A multiple of g below another one is at least g below it. */
  lemma GroupEnds(o: int, limit: int, g: int)
    requires g > 0 && o % g == 0 && limit % g == 0 && o < limit
    ensures o + g <= limit
  {
    Division(o, g);
    Division(limit, g);
    if limit / g <= o / g { MulLeq(limit / g, o / g, g); }
    MulLeq(o / g + 1, limit / g, g);
  }

  /** Position i of the group that starts at the multiple o of g. */
  lemma InGroup(o: int, g: int, i: int)
    requires g > 0 && o % g == 0 && 0 <= i < g
    ensures (o + i) % g == i && o / g * g == o
  {
    Division(o, g);
    QuotientIs(o + i, g, o / g);
  }

  /** Chunks of ceil(ceil(len / w) / a) * a cover len and fit a w-th of cap. */
  lemma ChunkMath(len: int, w: int, a: int, part: int)
    requires w >= 1 && a >= 1 && 0 <= len <= w * part && part % a == 0
    ensures var c := CeilDiv(CeilDiv(len, w), a) * a;
      0 <= c <= part && c % a == 0 && len <= w * c
  {
    var u := CeilDiv(len, w);
    CeilDivLeast(len, w, part);
    CeilDivBounds(len, w);
    Division(part, a);
    CeilDivLeast(u, a, part / a);
    CeilDivBounds(u, a);
    MulLeq(CeilDiv(u, a), part / a, a);
    MultipleTimes(CeilDiv(u, a), a);
    MulLeq(u, CeilDiv(u, a) * a, w);
  }

  /** Chunks of length c cover [0, w * c); each element is in the chunk of its quotient only. */
  lemma ChunkOfMath(o: int, c: int, w: int)
    requires 0 <= o < w * c && c >= 0 && w >= 1
    ensures c > 0 && 0 <= o / c < w && o / c * c <= o < o / c * c + c
    ensures forall j :: j * c <= o < j * c + c ==> j == o / c
  {
    if c > 0 {
      Division(o, c);
      if o / c >= w { MulLeq(w, o / c, c); }
      if o / c < 0 { MulLeq(o / c, -1, c); }
      forall j | j * c <= o < j * c + c ensures j == o / c { QuotientIs(o, c, j); }
    }
  }

  /** Entry i of row p of an n by d table laid out row by row. */
  lemma RowMajor(p: int, n: int, d: int, i: int)
    requires 0 <= p < n && 0 <= i < d
    ensures 0 <= d * p + i < d * n && (d * p + i) / d == p && (d * p + i) % d == i
  {
    QuotientIs(d * p + i, d, p);
    MulLeq(p + 1, n, d);
    MulLeq(0, p, d);
  }

  /** Row and column of index x of an n by d table laid out row by row. */
  lemma TableIndex(x: int, n: int, d: int)
    requires n >= 0 && d > 0 && 0 <= x < d * n
    ensures 0 <= x / d < n && 0 <= x % d < d && d * (x / d) + x % d == x
  {
    Division(x, d);
    if x / d >= n { MulLeq(n, x / d, d); }
    if x / d < 0 { MulLeq(x / d, -1, d); }
  }
}
