/** The n-gram scan of src/engine.rs: one backward pass that finds what a search order by order finds. */
module Ngram {
  import opened IntMath

  /** The last n tokens also end q tokens before the end. */
  predicate Recurs(s: seq<int>, n: nat, q: nat) {
    n + q <= |s| && s[|s| - n - q..|s| - q] == s[|s| - n..]
  }

  datatype Hit = Miss | Hit(n: nat, q: nat)

  /** The smallest shift from q on, below end, at which order n recurs (end if there is none). */
  function FirstShift(s: seq<int>, n: nat, q: nat, end: nat): (p: nat)
    requires q <= end
    ensures q <= p <= end && (p < end ==> Recurs(s, n, p))
    ensures forall r :: q <= r < p ==> !Recurs(s, n, r)
    decreases end - q
  {
    if q == end || Recurs(s, n, q) then q else FirstShift(s, n, q + 1, end)
  }

  /** The nested search: orders from hi down to lo, shifts from 1 up, i.e. the latest position first. */
  function Nested(s: seq<int>, lo: nat, hi: nat, end: nat): Hit
    requires end >= 1
    decreases hi
  {
    if hi < lo then Miss
    else if FirstShift(s, hi, 1, end) < end then Hit(hi, FirstShift(s, hi, 1, end))
    else if hi == 0 then Miss
    else Nested(s, lo, hi - 1, end)
  }

  /** The longest order that recurs, at its latest occurrence other than the suffix itself. */
  predicate Best(s: seq<int>, lo: nat, hi: nat, end: nat, n: nat, q: nat) {
    && lo <= n <= hi && 1 <= q < end && Recurs(s, n, q)
    && (forall m, p :: n < m <= hi && 1 <= p < end ==> !Recurs(s, m, p))
    && (forall p :: 1 <= p < q ==> !Recurs(s, n, p))
  }

  lemma {:induction false} NestedSound(s: seq<int>, lo: nat, hi: nat, end: nat)
    requires end >= 1
    ensures var h := Nested(s, lo, hi, end);
      if h.Hit? then Best(s, lo, hi, end, h.n, h.q)
      else forall n, q :: lo <= n <= hi && 1 <= q < end ==> !Recurs(s, n, q)
    decreases hi
  {
    if hi >= lo && FirstShift(s, hi, 1, end) == end && hi > 0 { NestedSound(s, lo, hi - 1, end); }
  }

  lemma BestUnique(s: seq<int>, lo: nat, hi: nat, end: nat, n: nat, q: nat, m: nat, p: nat)
    requires Best(s, lo, hi, end, n, q) && Best(s, lo, hi, end, m, p)
    ensures n == m && q == p
  {
    assert m > n ==> !Recurs(s, m, p);
    assert n > m ==> !Recurs(s, n, q);
  }

  /** The orders and shifts that the scan considers. */
  function Top(s: seq<int>, hi: nat): nat { Min(hi, if |s| == 0 then 0 else |s| - 1) }

  function End(s: seq<int>, window: nat): (e: nat)
    ensures |s| >= 1 ==> e >= 1
  {
    if window == 0 then |s| else Min(window, |s|)
  }

  /** What follows the occurrence found, at most cap tokens, with the score of its order. */
  function Continuation(s: seq<int>, h: Hit, cap: nat): seq<int> {
    if h.Hit? && h.q <= |s| then s[|s| - h.q..|s| - h.q + Min(cap, h.q)] else []
  }

  function OrderScore(h: Hit): real {
    if h.Hit? then Fraction(h.n) else 0.0
  }

  function Found(s: seq<int>, lo: nat, hi: nat, cap: nat, window: nat): Hit {
    if cap == 0 || Top(s, hi) < lo || |s| == 0 then Miss else Nested(s, lo, Top(s, hi), End(s, window))
  }

  // ---- the backward pass --------------------------------------------------

  predicate AgreeAt(s: seq<int>, q: nat, i: nat) {
    q + i < |s| && s[|s| - 1 - q - i] == s[|s| - 1 - i]
  }

  /** The last l tokens agree with those that end at the shift q. */
  predicate Agree(s: seq<int>, q: nat, l: nat) {
    q + l <= |s| && forall i :: 0 <= i < l ==> AgreeAt(s, q, i)
  }

  lemma AgreeIsRecurs(s: seq<int>, q: nat, n: nat)
    ensures Agree(s, q, n) <==> Recurs(s, n, q)
  {
    if n + q <= |s| {
      var a, b := s[|s| - n - q..|s| - q], s[|s| - n..];
      if Agree(s, q, n) {
        forall k | 0 <= k < n ensures a[k] == b[k] { assert AgreeAt(s, q, n - 1 - k); }
      }
      if a == b {
        forall i | 0 <= i < n ensures AgreeAt(s, q, i) { assert a[n - 1 - i] == b[n - 1 - i]; }
      }
    }
  }

  lemma AgreeShorter(s: seq<int>, q: nat, n: nat, m: nat)
    ensures m <= n && Agree(s, q, n) ==> Agree(s, q, m)
  {}

  /** Orders recur at shift q up to the length of agreement, and no further. */
  lemma AgreementBounds(s: seq<int>, q: nat, l: nat, hi: nat, n: nat)
    requires Agree(s, q, l) && l <= hi && (l < hi ==> !Agree(s, q, l + 1)) && n <= hi
    ensures Recurs(s, n, q) <==> n <= l
  {
    AgreeIsRecurs(s, q, n);
    AgreeShorter(s, q, n, l + 1);
  }

  /** How many tokens, at most hi, agree at shift q. */
  method Agreement(s: seq<int>, q: nat, hi: nat) returns (l: nat)
    requires q <= |s|
    ensures l <= hi && Agree(s, q, l) && (l < hi ==> !Agree(s, q, l + 1))
  {
    l := 0;
    while l < hi && q + l < |s| && s[|s| - 1 - q - l] == s[|s| - 1 - l]
      invariant l <= hi && Agree(s, q, l)
    {
      l := l + 1;
    }
    assert l < hi ==> !AgreeAt(s, q, l);
  }

  /** Entry n - lo is the first shift of order n below q, or -1. */
  ghost predicate Scanned(s: seq<int>, lo: nat, latest: seq<int>, q: nat) {
    forall i :: 0 <= i < |latest| ==> Entry(s, lo + i, latest[i], q)
  }

  predicate Entry(s: seq<int>, n: nat, at: int, q: nat) {
    if at < 0 then forall p :: 1 <= p < q ==> !Recurs(s, n, p)
    else
      var f := |s| - n - at;
      1 <= f < q && Recurs(s, n, f) && forall p :: 1 <= p < f ==> !Recurs(s, n, p)
  }

  lemma EntryNext(s: seq<int>, n: nat, at: int, q: nat, l: nat, hi: nat)
    requires q >= 1 && n <= hi && Entry(s, n, at, q) && Agree(s, q, l) && l <= hi && (l < hi ==> !Agree(s, q, l + 1))
    ensures Entry(s, n, if n <= l && at < 0 then |s| - n - q else at, q + 1)
  {
    AgreementBounds(s, q, l, hi, n);
  }

  /** Record shift q for the orders it is the first shift of. */
  method Record(s: seq<int>, lo: nat, hi: nat, q: nat, l: nat, latest: array<int>)
    requires lo <= hi && latest.Length == hi - lo + 1 && 1 <= q && Scanned(s, lo, latest[..], q)
    requires Agree(s, q, l) && l <= hi && (l < hi ==> !Agree(s, q, l + 1))
    modifies latest
    ensures Scanned(s, lo, latest[..], q + 1)
  {
    ghost var was := latest[..];
    var n := lo;
    while n <= l
      invariant lo <= n && (n <= hi + 1)
      invariant forall i :: 0 <= i < latest.Length ==>
        latest[i] == if lo + i < n && lo + i <= l && was[i] < 0 then |s| - (lo + i) - q else was[i]
    {
      if latest[n - lo] < 0 { latest[n - lo] := |s| - n - q; }
      n := n + 1;
    }
    forall i | 0 <= i < latest.Length ensures Entry(s, lo + i, latest[i], q + 1) {
      assert Entry(s, lo + i, was[i], q);
      EntryNext(s, lo + i, was[i], q, l, hi);
    }
  }

  /** The backward pass: one agreement length per shift, stopping once the longest order is found. */
  method Scan(s: seq<int>, lo: nat, hi: nat, end: nat) returns (latest: array<int>, last: nat)
    requires lo <= hi < |s| && 1 <= end <= |s|
    ensures latest.Length == hi - lo + 1 && 1 <= last <= end && Scanned(s, lo, latest[..], last)
    ensures last < end ==> latest[hi - lo] >= 0
  {
    latest := new int[hi - lo + 1](i => -1);
    last := 1;
    while last < end
      invariant 1 <= last <= end && Scanned(s, lo, latest[..], last)
    {
      var l := Agreement(s, last, hi);
      Record(s, lo, hi, last, l, latest);
      last := last + 1;
      if latest[hi - lo] >= 0 { break; }
    }
  }

  /** What an entry of the pass says about the nested search at that order. */
  lemma NestedAt(s: seq<int>, lo: nat, n: nat, end: nat, at: int, last: nat)
    requires lo <= n && 1 <= last <= end && Entry(s, n, at, last) && (at < 0 ==> last == end)
    ensures at >= 0 ==> Nested(s, lo, n, end) == Hit(n, |s| - n - at)
    ensures at < 0 ==> Nested(s, lo, n, end) == if n == 0 then Miss else Nested(s, lo, n - 1, end)
  {}

  /** The longest order wins. */
  method Pick(s: seq<int>, lo: nat, hi: nat, end: nat, latest: array<int>, last: nat) returns (n: nat, pos: int)
    requires lo <= hi && latest.Length == hi - lo + 1 && 1 <= last <= end && Scanned(s, lo, latest[..], last)
    requires last < end ==> latest[hi - lo] >= 0
    ensures pos < 0 ==> Nested(s, lo, hi, end) == Miss
    ensures pos >= 0 ==> 0 <= |s| - n - pos && Nested(s, lo, hi, end) == Hit(n, |s| - n - pos)
  {
    n := hi + 1;
    while n > lo
      invariant lo <= n <= hi + 1
      invariant Nested(s, lo, hi, end) == if n == 0 then Miss else Nested(s, lo, n - 1, end)
      invariant n <= hi ==> last == end
    {
      n := n - 1;
      pos := latest[n - lo];
      assert Entry(s, lo + (n - lo), latest[..][n - lo], last);
      NestedAt(s, lo, n, end, pos, last);
      if pos >= 0 { return; }
    }
    pos := -1;
  }

  /** The draft is exactly what the nested search gives. */
  method Ngram(s: seq<int>, lo: nat, hi: nat, cap: nat, window: nat) returns (draft: seq<int>, score: real)
    ensures draft == Continuation(s, Found(s, lo, hi, cap, window), cap) && score == OrderScore(Found(s, lo, hi, cap, window))
  {
    if cap == 0 { return [], 0.0; }
    var top := Top(s, hi);
    if top < lo || |s| == 0 { return [], 0.0; }
    var end := End(s, window);
    var latest, last := Scan(s, lo, top, end);
    var n, pos := Pick(s, lo, top, end, latest, last);
    if pos < 0 { return [], 0.0; }
    NestedSound(s, lo, top, end);
    var stop := if pos + n + cap < |s| then pos + n + cap else |s|;
    draft, score := s[pos + n..stop], n as real / (n + 1) as real;
  }

  /** A hit drafts at least one token and at most cap; its score is below 1 and grows with the order. */
  lemma HitDraft(s: seq<int>, lo: nat, hi: nat, cap: nat, window: nat)
    ensures var h := Found(s, lo, hi, cap, window); var d := Continuation(s, h, cap);
      && |d| <= cap && (h.Hit? <==> d != [])
      && 0.0 <= OrderScore(h) <= Fraction(hi)
  {
    var h := Found(s, lo, hi, cap, window);
    if h.Hit? {
      NestedSound(s, lo, Top(s, hi), End(s, window));
      FractionGrows(h.n, hi);
    } else {
      FractionGrows(0, hi);
    }
  }

  function Fraction(n: nat): real { n as real / (n + 1) as real }

  lemma FractionGrows(n: nat, m: nat)
    requires n <= m
    ensures 0.0 <= Fraction(n) <= Fraction(m)
  {
    Ratio(n as real, (n + 1) as real);
    Ratio(m as real, (m + 1) as real);
    Cross(Fraction(n), (n + 1) as real, Fraction(m), (m + 1) as real);
  }

  lemma Ratio(a: real, b: real)
    requires a >= 0.0 && b > 0.0
    ensures a / b * b == a && a / b >= 0.0
  {}

  /** (b - 1) / b grows with b. */
  lemma Cross(x: real, b: real, y: real, d: real)
    requires 0.0 < b <= d && x * b == b - 1.0 && y * d == d - 1.0
    ensures x <= y
  {
    if x > y {
      Scale(x, y, b);
      assert (1.0 - y) * b > 1.0;
      assert (1.0 - y) * d == 1.0;
      Scale(1.0 - y, 0.0, d);
    }
  }

  lemma Scale(x: real, y: real, z: real)
    requires x > y && z > 0.0
    ensures x * z > y * z
  {}

  // ---- what a scan comes to -----------------------------------------------

  /** The last n tokens, n in lo .. hi, also end q tokens before the end, within the window. */
  predicate Eligible(s: seq<int>, lo: nat, hi: nat, window: nat, n: nat, q: nat) {
    lo <= n <= hi && 1 <= q < |s| && (window == 0 || q < window) && n + q <= |s| && s[|s| - n - q..|s| - q] == s[|s| - n..]
  }

  lemma EligibleIs(s: seq<int>, lo: nat, hi: nat, window: nat, n: nat, q: nat)
    requires |s| >= 1
    ensures Eligible(s, lo, hi, window, n, q) <==> lo <= n <= Top(s, hi) && 1 <= q < End(s, window) && Recurs(s, n, q)
  {}

  /** d is drafted from the hit h. */
  predicate Drafts(s: seq<int>, lo: nat, hi: nat, cap: nat, window: nat, h: Hit, d: seq<int>)
    requires h.Hit?
  {
    && cap > 0 && Eligible(s, lo, hi, window, h.n, h.q) && OrderScore(h) == h.n as real / (h.n + 1) as real
    && |d| == (if cap < h.q then cap else h.q) && forall i :: 0 <= i < |d| ==> d[i] == s[|s| - h.q + i]
  }

  /** There is a hit exactly if some order recurs in the window and something may be drafted. It is of the
      highest such order, at its latest place, and its draft is what follows there, up to cap tokens: token i
      of it is q - i tokens before the end. */
  lemma NgramFinds(s: seq<int>, lo: nat, hi: nat, cap: nat, window: nat, n: nat, q: nat)
    ensures var h := Found(s, lo, hi, cap, window);
      cap > 0 && Eligible(s, lo, hi, window, n, q) ==> h.Hit? && n <= h.n && (n == h.n ==> h.q <= q)
    ensures var h := Found(s, lo, hi, cap, window); h.Hit? ==> Drafts(s, lo, hi, cap, window, h, Continuation(s, h, cap))
    ensures var h := Found(s, lo, hi, cap, window); h.Miss? ==> Continuation(s, h, cap) == [] && OrderScore(h) == 0.0
  {
    if cap > 0 && |s| >= 1 {
      EligibleIs(s, lo, hi, window, n, q);
      var h := Found(s, lo, hi, cap, window);
      if h.Hit? { EligibleIs(s, lo, hi, window, h.n, h.q); }
      if Top(s, hi) >= lo { NestedSound(s, lo, Top(s, hi), End(s, window)); }
    }
  }
}
