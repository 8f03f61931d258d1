/** Size bands of suffix_hybrid/nccl_split.py: the winner of each measured size, merged into bands. */
module Bands {
  import opened Autotune
  import opened Wrappers

  /** 1 << 62, the upper end of the last band. */
  const INF: int := 4611686018427387904

  /** Messages of lo <= n < hi bytes go to the communicator of spec. */
  datatype Band = Band(lo: int, hi: int, spec: Spec)

  /** Candidates with their measured times, in the order of the table. */
  datatype Column = Column(spec: Spec, times: seq<Time>)

  // ---- choosing a winner --------------------------------------------------

  predicate Before(a: string, b: string) {
    b != [] && (a == [] || a[0] < b[0] || (a[0] == b[0] && Before(a[1..], b[1..])))
  }

  /** Tuples (time, name) in the order of Python's min. */
  predicate Beats(t: Time, a: Spec, u: Time, b: Spec) { Less(t, u) || (t == u && Before(a, b)) }

  lemma {:induction false} BeforeTransitive(a: string, b: string, c: string)
    requires Before(a, b) && Before(b, c)
    ensures Before(a, c)
  {
    if a != [] && a[0] == b[0] == c[0] { BeforeTransitive(a[1..], b[1..], c[1..]); }
  }

  lemma {:induction false} BeforeTotal(a: string, b: string)
    ensures a == b || Before(a, b) || Before(b, a)
    ensures !(Before(a, b) && Before(b, a)) && !Before(a, a)
  {
    if a != [] && b != [] {
      BeforeTotal(a[1..], b[1..]);
      assert a == [a[0]] + a[1..] && b == [b[0]] + b[1..];
    }
    if a != [] { BeforeTotal(a[1..], a[1..]); }
  }

  lemma BeatsTransitive(t: Time, a: Spec, u: Time, b: Spec, v: Time, c: Spec)
    requires Beats(t, a, u, b) && Beats(u, b, v, c)
    ensures Beats(t, a, v, c)
  {
    if t == u == v { BeforeTransitive(a, b, c); }
  }

  function TimeAt(c: Column, i: nat): Time { if i < |c.times| then c.times[i] else Inf }

  /** No other candidate among the first n beats (t, w). */
  ghost predicate Unbeaten(cols: seq<Column>, n: nat, i: nat, t: Time, w: Spec)
    requires n <= |cols|
  {
    forall k :: 0 <= k < n && cols[k].spec != DEFAULT ==> !Beats(TimeAt(cols[k], i), cols[k].spec, t, w)
  }

  function Base(cols: seq<Column>, i: nat): Time {
    if cols == [] then Inf else if cols[0].spec == DEFAULT then TimeAt(cols[0], i) else Base(cols[1..], i)
  }

  /** The default unless some candidate is faster by more than the margin; then the fastest. */
  ghost predicate Wins(cols: seq<Column>, i: nat, margin: real, w: Spec) {
    var base := Base(cols, i);
    if w == DEFAULT then
      base.Inf? || forall k :: 0 <= k < |cols| && cols[k].spec != DEFAULT ==> !Less(TimeAt(cols[k], i), Scaled(1.0 - margin, base))
    else
      base.Fin? && exists k :: WinsAt(cols, i, margin, w, k)
  }

  /** Candidate k is w, beats the default by more than the margin, and no candidate beats it. */
  ghost predicate WinsAt(cols: seq<Column>, i: nat, margin: real, w: Spec, k: int) {
    && 0 <= k < |cols| && cols[k].spec == w
    && Less(TimeAt(cols[k], i), Scaled(1.0 - margin, Base(cols, i))) && Unbeaten(cols, |cols|, i, TimeAt(cols[k], i), w)
  }

  method Winner(cols: seq<Column>, i: nat, margin: real) returns (w: Spec)
    ensures Wins(cols, i, margin, w)
  {
    var base := Base(cols, i);
    if base.Inf? { return DEFAULT; }
    var at, t := -1, Inf;
    for k := 0 to |cols|
      invariant -1 <= at < k
      invariant at == -1 ==> t == Inf && forall x :: 0 <= x < k ==> cols[x].spec == DEFAULT
      invariant at >= 0 ==> cols[at].spec != DEFAULT && t == TimeAt(cols[at], i) && Unbeaten(cols, k, i, t, cols[at].spec)
    {
      if cols[k].spec != DEFAULT {
        var u := TimeAt(cols[k], i);
        BeforeTotal(cols[k].spec, cols[k].spec);
        if at < 0 || Beats(u, cols[k].spec, t, cols[at].spec) {
          forall x | 0 <= x < k && cols[x].spec != DEFAULT ensures !Beats(TimeAt(cols[x], i), cols[x].spec, u, cols[k].spec) {
            if at >= 0 && Beats(TimeAt(cols[x], i), cols[x].spec, u, cols[k].spec) {
              BeatsTransitive(TimeAt(cols[x], i), cols[x].spec, u, cols[k].spec, t, cols[at].spec);
            }
          }
          at, t := k, u;
        }
      }
    }
    w := if at >= 0 && Less(t, Scaled(1.0 - margin, base)) then cols[at].spec else DEFAULT;
    assert w != DEFAULT ==> WinsAt(cols, i, margin, w, at);
  }

  /** The names agree up to n, and there the first has ended or has the lesser letter. */
  predicate LessAt(a: string, b: string, n: nat) { n <= |a| && n < |b| && a[..n] == b[..n] && (n == |a| || a[n] < b[n]) }

  lemma {:induction false} LessBefore(a: string, b: string, n: nat)
    requires LessAt(a, b, n)
    ensures Before(a, b)
  {
    if n > 0 {
      assert a[0] == a[..n][0] == b[..n][0] == b[0];
      assert a[1..][..n - 1] == a[..n][1..] && b[1..][..n - 1] == b[..n][1..];
      LessBefore(a[1..], b[1..], n - 1);
    }
  }

  lemma {:induction false} BeforeLess(a: string, b: string) returns (n: nat)
    requires Before(a, b)
    ensures LessAt(a, b, n)
  {
    n := 0;
    if a != [] && a[0] == b[0] {
      var m := BeforeLess(a[1..], b[1..]);
      n := m + 1;
      assert a[..n] == [a[0]] + a[1..][..m] && b[..n] == [b[0]] + b[1..][..m];
    }
  }

  /** The order of names is the lexicographic one. */
  lemma BeforeIs(a: string, b: string)
    ensures Before(a, b) <==> exists n :: LessAt(a, b, n)
  {
    if Before(a, b) {
      var n := BeforeLess(a, b);
    } else if n: nat :| LessAt(a, b, n) {
      LessBefore(a, b, n);
    }
  }

  /** The default's time is its column's. */
  lemma {:induction false} BaseIs(cols: seq<Column>, i: nat, d: nat)
    requires d < |cols| && cols[d].spec == DEFAULT && forall k :: 0 <= k < d ==> cols[k].spec != DEFAULT
    ensures Base(cols, i) == TimeAt(cols[d], i)
  {
    if d > 0 { BaseIs(cols[1..], i, d - 1); }
  }

  /** A winner at t takes less than the default's time b less the margin, and no longer than u. */
  predicate Leads(t: Time, b: Time, u: Time, margin: real) {
    t.Fin? && b.Fin? && t.t < b.t - margin * b.t && (u.Fin? ==> t.t <= u.t)
  }

  /** Even the candidate does not take less than the default's time b less the margin. */
  predicate NotBelow(u: Time, b: Time, margin: real) { u.Fin? && b.Fin? ==> u.t >= b.t - margin * b.t }

  lemma MarginOf(margin: real, b: Time, u: Time)
    requires b.Fin?
    ensures Less(u, Scaled(1.0 - margin, b)) <==> u.Fin? && u.t < b.t - margin * b.t
  {
    assert (1.0 - margin) * b.t == b.t - margin * b.t;
  }

  /** The margin, in times: a winner takes less than the default less the margin and no longer than any other
      candidate; and if the default wins, every other candidate takes at least that long, or the default has
      no time. */
  lemma WinnerIs(cols: seq<Column>, i: nat, margin: real, w: Spec, d: nat, k: nat)
    requires Wins(cols, i, margin, w) && d < |cols| && cols[d].spec == DEFAULT && forall x :: 0 <= x < d ==> cols[x].spec != DEFAULT
    requires k < |cols| && cols[k].spec != DEFAULT
    ensures TimeAt(cols[d], i).Inf? ==> w == DEFAULT
    ensures w == DEFAULT ==> NotBelow(TimeAt(cols[k], i), TimeAt(cols[d], i), margin)
    ensures w != DEFAULT ==> exists x :: 0 <= x < |cols| && cols[x].spec == w && Leads(TimeAt(cols[x], i), TimeAt(cols[d], i), TimeAt(cols[k], i), margin)
  {
    BaseIs(cols, i, d);
    var base := TimeAt(cols[d], i);
    if w == DEFAULT {
      if base.Fin? { MarginOf(margin, base, TimeAt(cols[k], i)); }
    } else {
      var x :| WinsAt(cols, i, margin, w, x);
      MarginOf(margin, base, TimeAt(cols[x], i));
      assert Leads(TimeAt(cols[x], i), base, TimeAt(cols[k], i), margin);
    }
  }

  // ---- merging sizes into bands -------------------------------------------

  predicate Increasing(sizes: seq<int>) {
    (forall i :: 0 <= i < |sizes| ==> 0 <= sizes[i] < INF) && forall i, k :: 0 <= i < k < |sizes| ==> sizes[i] < sizes[k]
  }

  /** The crossover between two sizes; `mid(a, b)` is their rounded geometric mean. */
  function Cross(a: int, b: int, mid: (int, int) -> int): (x: int)
    requires a < b
    ensures a < x <= b
  {
    var m := mid(a, b);
    var up := if m < a + 1 then a + 1 else m;
    if b < up then b else up
  }

  /** Bands that follow one another from lo to hi, none empty. */
  predicate Contiguous(bands: seq<Band>, lo: int, hi: int) {
    if bands == [] then lo == hi
    else bands[|bands| - 1].hi == hi && bands[|bands| - 1].lo < hi && Contiguous(bands[..|bands| - 1], lo, bands[|bands| - 1].lo)
  }

  /** The band that a message of n bytes is routed by: the first that holds it. */
  function Route(bands: seq<Band>, n: int): Option<Spec> {
    if bands == [] then None
    else if bands[0].lo <= n < bands[0].hi then Some(bands[0].spec) else Route(bands[1..], n)
  }

  lemma {:induction false} RouteIn(bands: seq<Band>, extra: Band, n: int)
    ensures Route(bands, n).Some? ==> Route(bands + [extra], n) == Route(bands, n)
    ensures Route(bands, n).None? ==>
      Route(bands + [extra], n) == if extra.lo <= n < extra.hi then Some(extra.spec) else None
  {
    if bands != [] {
      RouteIn(bands[1..], extra, n);
      assert (bands + [extra])[1..] == bands[1..] + [extra];
    }
  }

  /** Contiguous bands route every message from lo up to hi and no other. */
  lemma {:induction false} ContiguousRoutes(bands: seq<Band>, lo: int, hi: int, n: int)
    requires Contiguous(bands, lo, hi)
    ensures lo <= hi && (Route(bands, n).Some? <==> lo <= n < hi)
  {
    if bands != [] {
      var init := bands[..|bands| - 1];
      ContiguousRoutes(init, lo, bands[|bands| - 1].lo, n);
      RouteIn(init, bands[|bands| - 1], n);
      assert bands == init + [bands[|bands| - 1]];
    }
  }

  lemma ContiguousMore(bands: seq<Band>, lo: int, b: Band)
    requires Contiguous(bands, lo, b.lo) && b.lo < b.hi
    ensures Contiguous(bands + [b], lo, b.hi)
  {
    assert (bands + [b])[..|bands|] == bands;
  }

  /** Where the part of size i starts: the first at 0, the others at the crossover from the size before. */
  function StartOf(sizes: seq<int>, mid: (int, int) -> int, i: nat): (x: int)
    requires Increasing(sizes) && i <= |sizes|
    ensures i < |sizes| ==> x <= sizes[i]
    ensures 0 < i ==> sizes[i - 1] < x
    ensures x <= INF
  {
    if i == |sizes| then INF else if i == 0 then 0 else Cross(sizes[i - 1], sizes[i], mid)
  }

  predicate InPart(sizes: seq<int>, mid: (int, int) -> int, i: nat, n: int)
    requires Increasing(sizes) && i < |sizes|
  {
    StartOf(sizes, mid, i) <= n < StartOf(sizes, mid, i + 1)
  }

  lemma {:induction false} StartsAscend(sizes: seq<int>, mid: (int, int) -> int, i: nat, k: nat)
    requires Increasing(sizes) && i <= k <= |sizes|
    ensures StartOf(sizes, mid, i) <= StartOf(sizes, mid, k)
  {
    if i < k { StartsAscend(sizes, mid, i, k - 1); }
  }

  /** The crossover is the midpoint, moved as little as it takes to be above the lower size and not above the
      higher one. */
  lemma CrossIs(a: int, b: int, mid: (int, int) -> int)
    requires a < b
    ensures a < mid(a, b) <= b ==> Cross(a, b, mid) == mid(a, b)
    ensures mid(a, b) <= a ==> Cross(a, b, mid) == a + 1
    ensures mid(a, b) > b ==> Cross(a, b, mid) == b
  {}

  /** The first m parts are routed to their winners. */
  ghost predicate Routed(bands: seq<Band>, sizes: seq<int>, win: seq<Spec>, mid: (int, int) -> int, m: nat)
    requires Increasing(sizes) && m <= |sizes| == |win|
  {
    forall k, n :: 0 <= k < m && InPart(sizes, mid, k, n) ==> Route(bands, n) == Some(win[k])
  }

  /** No two bands that follow one another have the same winner. */
  predicate Merged(bands: seq<Band>) { forall k :: 0 <= k < |bands| - 1 ==> bands[k].spec != bands[k + 1].spec }

  /** The bands cover [0, INF) without gap or overlap, as few as the winners allow, and every message, at a
      measured size or between two, is routed to the winner of the part that it is in. */
  method BuildBands(sizes: seq<int>, cols: seq<Column>, margin: real, mid: (int, int) -> int) returns (bands: seq<Band>, win: seq<Spec>)
    requires Increasing(sizes)
    ensures |win| == |sizes| && forall i :: 0 <= i < |sizes| ==> Wins(cols, i, margin, win[i])
    ensures sizes == [] ==> bands == []
    ensures sizes != [] ==> Contiguous(bands, 0, INF)
    ensures Merged(bands) && Routed(bands, sizes, win, mid, |sizes|)
    ensures forall i :: 0 <= i < |sizes| ==> Route(bands, sizes[i]) == Some(win[i])
  {
    win := [];
    for i := 0 to |sizes|
      invariant |win| == i && forall k :: 0 <= k < i ==> Wins(cols, k, margin, win[k])
    {
      var w := Winner(cols, i, margin);
      win := win + [w];
    }
    bands := Merge(sizes, win, mid);
    forall i | 0 <= i < |sizes| ensures Route(bands, sizes[i]) == Some(win[i]) { assert InPart(sizes, mid, i, sizes[i]); }
  }

  /** Closing a band of one winner. */
  lemma CloseBand(bands: seq<Band>, sizes: seq<int>, win: seq<Spec>, mid: (int, int) -> int, from: nat, to: nat, b: Band)
    requires from < to <= |sizes| == |win| && Increasing(sizes) && Contiguous(bands, 0, b.lo) && b.lo < b.hi
    requires Routed(bands, sizes, win, mid, from) && b.lo == StartOf(sizes, mid, from) && b.hi == StartOf(sizes, mid, to)
    requires forall k :: from <= k < to ==> win[k] == b.spec
    ensures Contiguous(bands + [b], 0, b.hi) && Routed(bands + [b], sizes, win, mid, to)
  {
    ContiguousMore(bands, 0, b);
    forall k, n | 0 <= k < to && InPart(sizes, mid, k, n) ensures Route(bands + [b], n) == Some(win[k]) {
      RouteIn(bands, b, n);
      if k >= from {
        ContiguousRoutes(bands, 0, b.lo, n);
        StartsAscend(sizes, mid, from, k);
        StartsAscend(sizes, mid, k + 1, to);
      }
    }
  }

  method Merge(sizes: seq<int>, win: seq<Spec>, mid: (int, int) -> int) returns (bands: seq<Band>)
    requires Increasing(sizes) && |win| == |sizes|
    ensures sizes == [] ==> bands == []
    ensures sizes != [] ==> Contiguous(bands, 0, INF)
    ensures Merged(bands) && Routed(bands, sizes, win, mid, |sizes|)
  {
    bands := [];
    var lo := 0;
    ghost var from := 0;
    for i := 0 to |win|
      invariant from <= i && (i == 0 ==> bands == []) && (|win| > 0 ==> lo == StartOf(sizes, mid, from))
      invariant Contiguous(bands, 0, lo) && Routed(bands, sizes, win, mid, from) && Merged(bands)
      invariant i == |win| > 0 ==> from == i
      invariant forall k :: from <= k <= i && k < |win| ==> win[k] == win[from]
      invariant bands != [] && from < |win| ==> bands[|bands| - 1].spec != win[from]
    {
      if !(i + 1 < |win| && win[i + 1] == win[i]) {
        var hi := if i + 1 == |win| then INF else Cross(sizes[i], sizes[i + 1], mid);
        StartsAscend(sizes, mid, from, i);
        CloseBand(bands, sizes, win, mid, from, i + 1, Band(lo, hi, win[i]));
        bands, lo, from := bands + [Band(lo, hi, win[i])], hi, i + 1;
      }
    }
  }
}
