/**
One row of HybridMixer in src/mixer.rs in its diverge mode, as functions: what the feedback says of the
last disagreement, where the candidate comes from, and which of the two sources is published.
*/
module DivergeRow {
  import opened Wrappers
  import opened SuffixCorpus
  import opened SuffixDraft
  import opened MixRow
  import Ngram

  const BUCKETS := 6

  /** Discounted counts of how often the suffix and the native draft were right where they disagreed. */
  datatype Win = Win(suffix: real, native: real)

  function Trust(w: Win): real
    requires w.suffix >= 0.0 && w.native >= 0.0
  {
    (w.suffix + 1.0) / (w.suffix + w.native + 2.0)
  }

  function Bucket(inContext: bool, matched: nat): (b: nat)
    ensures b < BUCKETS
  {
    (if matched < 16 then 0 else if matched < 32 then 1 else 2) + (if inContext then 3 else 0)
  }

  // ---- feedback -----------------------------------------------------------

  const LIMIT := 1000.0

  /** Discounted counts stay below the limit of the geometric sum. */
  predicate WinOk(w: Win) { 0.0 <= w.suffix < LIMIT && 0.0 <= w.native < LIMIT }

  predicate WinsOk(wins: seq<Win>) { |wins| == BUCKETS && forall b :: 0 <= b < BUCKETS ==> WinOk(wins[b]) }

  function Bit(b: bool): real { if b then 1.0 else 0.0 }

  function Graded(w: Win, suffixRight: bool, nativeRight: bool): Win {
    Win(0.999 * w.suffix + Bit(suffixRight), 0.999 * w.native + Bit(nativeRight))
  }

  predicate DivOk(d: Divergence) { d.bucket < BUCKETS && d.suffixTok != d.nativeTok }

  predicate TrackedOk(was: Option<Previous>) { was.Some? && was.value.div.Some? ==> DivOk(was.value.div.value) }

  /** Whether the step verified the token the sources disagreed on: delta is what was accepted, and one more. */
  predicate Verified(d: Divergence, delta: seq<int>, accepted: int) { accepted >= d.j && |delta| > d.j }

  /** The counts after a row's feedback. */
  function Resolved(wins: seq<Win>, windows: bool, was: Option<Previous>, row: seq<int>, accepted: int): (w: seq<Win>)
    requires WinsOk(wins) && TrackedOk(was)
    ensures WinsOk(w)
  {
    if !LinkOf(windows, was, row).Continuing? || was.value.div.None? then wins
    else
      var d, delta := was.value.div.value, Delta(windows, was, row);
      if Verified(d, delta, accepted)
      then wins[d.bucket := Graded(wins[d.bucket], delta[d.j] == d.suffixTok, delta[d.j] == d.nativeTok)]
      else wins
  }

  lemma TrustIs(w: Win, t: real)
    requires WinOk(w) && t == Trust(w)
    ensures t * (w.suffix + w.native + 2.0) == w.suffix + 1.0
  {}

  lemma Compare(a: real, b: real, total: real)
    requires total > 0.0
    ensures a > b <==> a * total > b * total
  {
    assert a > b ==> (a - b) * total > 0.0;
    assert a <= b ==> (b - a) * total >= 0.0;
  }

  /** Trust is a probability, above a half exactly when the suffix leads. */
  lemma TrustBounds(w: Win)
    requires WinOk(w)
    ensures 0.0 < Trust(w) < 1.0
    ensures Trust(w) > 0.5 <==> w.suffix > w.native
  {
    TrustIs(w, Trust(w));
    Part(Trust(w), w.suffix + 1.0, w.suffix + w.native + 2.0);
  }

  lemma Part(t: real, a: real, total: real)
    requires t * total == a && 0.0 < a < total
    ensures 0.0 < t < 1.0 && (t > 0.5 <==> 2.0 * a > total)
  {
    if t <= 0.0 { Compare(0.0, t, total); }
    Above(1.0, t, total, total, a);
    Above(t, 0.5, total, a, total / 2.0);
  }

  lemma Above(x: real, y: real, total: real, p: real, q: real)
    requires total > 0.0 && x * total == p && y * total == q
    ensures x > y <==> p > q
  {
    Compare(x, y, total);
  }

  lemma Crossed(t: real, u: real, p: real, q: real, a: real, b: real)
    requires p > 0.0 && q > 0.0 && t * p == a && u * q == b && a * q < b * p
    ensures t < u
  {
    Swap(t, p, q);
    Swap(u, q, p);
    Compare(u, t, p * q);
  }

  lemma Swap(t: real, p: real, q: real)
    requires p > 0.0 && q > 0.0
    ensures t * (p * q) == t * p * q && p * q > 0.0 && p * q == q * p
  {}

  lemma Foil(a: real, b: real, c: real, d: real)
    ensures (a + b) * (c + d) == a * c + a * d + b * c + b * d
  {}

  lemma Pull(x: real, k: real, y: real)
    ensures x * (k * y) == k * (x * y) && k * x * y == k * (x * y)
  {}

  lemma SuffixGains(s: real, n: real, t: real)
    requires 0.0 <= s < LIMIT && n >= 0.0 && t == s + n
    ensures (s + 1.0) * (0.999 * t + 3.0) < (0.999 * s + 2.0) * (t + 2.0)
  {
    Foil(s, 1.0, 0.999 * t, 3.0);
    Foil(0.999 * s, 2.0, t, 2.0);
    Pull(s, 0.999, t);
  }

  lemma NativeGains(s: real, n: real, t: real)
    requires s >= 0.0 && 0.0 <= n < LIMIT && t == s + n
    ensures (0.999 * s + 1.0) * (t + 2.0) < (s + 1.0) * (0.999 * t + 3.0)
  {
    Foil(s, 1.0, 0.999 * t, 3.0);
    Foil(0.999 * s, 1.0, t, 2.0);
    Pull(s, 0.999, t);
  }

  /** Being right where the other is wrong raises a source's trust, despite the discount. */
  lemma TrustRises(w: Win)
    requires WinOk(w)
    ensures WinOk(Graded(w, true, false)) && Trust(w) < Trust(Graded(w, true, false))
    ensures WinOk(Graded(w, false, true)) && Trust(Graded(w, false, true)) < Trust(w)
  {
    var up, down, t := Graded(w, true, false), Graded(w, false, true), w.suffix + w.native;
    TrustIs(w, Trust(w));
    TrustIs(up, Trust(up));
    TrustIs(down, Trust(down));
    Rises(Trust(w), Trust(up), Trust(down), w.suffix, w.native, t);
  }

  lemma Rises(mid: real, up: real, down: real, s: real, n: real, t: real)
    requires 0.0 <= s < LIMIT && 0.0 <= n < LIMIT && t == s + n && mid * (t + 2.0) == s + 1.0
    requires up * (0.999 * t + 3.0) == 0.999 * s + 2.0 && down * (0.999 * t + 3.0) == 0.999 * s + 1.0
    ensures down < mid < up
  {
    SuffixGains(s, n, t);
    NativeGains(s, n, t);
    Crossed(mid, up, t + 2.0, 0.999 * t + 3.0, s + 1.0, 0.999 * s + 2.0);
    Crossed(down, mid, 0.999 * t + 3.0, t + 2.0, 0.999 * s + 1.0, s + 1.0);
  }

  // ---- the candidate ------------------------------------------------------

  datatype Candidate = Candidate(toks: seq<int>, matched: nat, inContext: bool)

  /** The cache's draft, or the n-gram scan's of the request itself if that is longer or of higher order. */
  function Chosen(s: Settings, context: seq<int>, cap: nat, suffix: seq<int>, best: nat): (c: Candidate)
  {
    var h := Ngram.Found(context, s.lo, s.hi, cap, s.window);
    var ng := Ngram.Continuation(context, h, cap);
    var order := if h.Hit? then h.n else 0;
    if |suffix| < cap && s.hi >= s.lo && (|ng| > |suffix| || (ng != [] && order > best))
    then Candidate(First(ng, cap), order, true)
    else Candidate(First(suffix, cap), best, false)
  }

  ghost predicate Sought(s: Settings, cfg: Config, c: seq<Entry>, context: seq<int>, cap: nat, cand: Candidate) {
    exists suffix, score, best :: Speculated(cfg, c, context, cap, suffix, score, best) && cand == Chosen(s, context, cap, suffix, best)
  }

  lemma SoughtUnique(s: Settings, cfg: Config, c: seq<Entry>, context: seq<int>, cap: nat, x: Candidate, y: Candidate)
    requires Sought(s, cfg, c, context, cap, x) && Sought(s, cfg, c, context, cap, y)
    ensures x == y
  {
    var a, u, m :| Speculated(cfg, c, context, cap, a, u, m) && x == Chosen(s, context, cap, a, m);
    var b, v, n :| Speculated(cfg, c, context, cap, b, v, n) && y == Chosen(s, context, cap, b, n);
    SpeculatedUnique(cfg, c, context, cap, a, u, m, b, v, n);
  }

  /** An order's score tells the order. */
  lemma OrderOf(n: nat, score: real)
    requires score == Ngram.Fraction(n)
    ensures score < 1.0 && score / (1.0 - score) == n as real
  {
    var m := (n + 1) as real;
    assert score * m == n as real;
    Compare(1.0, score, m);
    assert (1.0 - score) * m == 1.0;
    Ratio(score, 1.0 - score, m, n as real);
  }

  lemma Ratio(a: real, b: real, m: real, n: real)
    requires b > 0.0 && a * m == n && b * m == 1.0
    ensures a / b == n
  {
    assert a == a * (b * m) == n * b;
    assert n * b / b == n;
  }

  // ---- what is published --------------------------------------------------

  function Overlay(native: seq<int>, cap: nat, cand: seq<int>): (d: seq<int>)
    requires |cand| <= cap <= |native|
    ensures |d| == cap
  {
    cand + native[|cand|..cap]
  }

  /** Whether the candidate is published: it disagrees somewhere, and its bucket is trusted. */
  predicate Takes(s: Settings, wins: seq<Win>, cand: Candidate, native: seq<int>)
    requires WinsOk(wins)
  {
    CommonPrefix(cand.toks, native) < |cand.toks| && Trust(wins[Bucket(cand.inContext, cand.matched)]) > s.threshold
  }

  function DivergeDraft(s: Settings, wins: seq<Win>, cand: Candidate, native: seq<int>, cap: nat): (d: seq<int>)
    requires WinsOk(wins) && |cand.toks| <= cap <= |native|
    ensures |d| == cap
  {
    if Takes(s, wins, cand, native) then Overlay(native, cap, cand.toks) else native[..cap]
  }

  function Disagreement(cand: Candidate, native: seq<int>): (d: Option<Divergence>)
    requires |cand.toks| <= |native|
    ensures d.Some? ==> DivOk(d.value)
  {
    var j := CommonPrefix(cand.toks, native);
    if j < |cand.toks| then Some(Divergence(j, cand.toks[j], native[j], Bucket(cand.inContext, cand.matched))) else None
  }

  /** What is kept of a row. Estimate and quality are those of the request before, even after a reset. */
  function KeptDiverged(s: Settings, wins: seq<Win>, windows: bool, was: Option<Previous>, row: seq<int>, native: seq<int>,
                        cand: Candidate, cap: nat): Previous
    requires WinsOk(wins) && |cand.toks| <= cap <= |native|
  {
    var n := if Takes(s, wins, cand, native) then CommonPrefix(cand.toks, native) else cap;
    Previous(NewContext(windows, was, row), n, cap, cap, match was case Some(p) => p.estimate case None => s.k as real,
             Quality(was), n < cap, Disagreement(cand, native))
  }

  /** The candidate and the outcome of a row, for the corpus c and the counts after the row's feedback. */
  ghost predicate DivergedRow(s: Settings, cfg: Config, c: seq<Entry>, wins: seq<Win>, windows: bool, was: Option<Previous>, row: seq<int>,
                              native: seq<int>, cand: Candidate, draft: seq<int>, now: Previous)
    requires WinsOk(wins)
  {
    var cap := CapFor(s, windows, was, row, native);
    && Sought(s, cfg, c, NewContext(windows, was, row), cap, cand) && |cand.toks| <= cap
    && draft == DivergeDraft(s, wins, cand, native, cap) && now == KeptDiverged(s, wins, windows, was, row, native, cand, cap)
  }

  ghost predicate Diverged(s: Settings, cfg: Config, c: seq<Entry>, wins: seq<Win>, windows: bool, was: Option<Previous>, row: seq<int>,
                           native: seq<int>, draft: seq<int>, now: Previous)
    requires WinsOk(wins)
  {
    exists cand :: DivergedRow(s, cfg, c, wins, windows, was, row, native, cand, draft, now)
  }

  /** The width is always the cap, and the draft is the native one or the candidate laid over it. */
  lemma DivergeShape(s: Settings, cfg: Config, c: seq<Entry>, wins: seq<Win>, windows: bool, was: Option<Previous>, row: seq<int>,
                     native: seq<int>, cand: Candidate, draft: seq<int>, now: Previous)
    requires WinsOk(wins) && DivergedRow(s, cfg, c, wins, windows, was, row, native, cand, draft, now)
    requires was.Some? ==> Good(s.k, was.value)
    ensures var cap := CapFor(s, windows, was, row, native);
      && |draft| == cap && (draft == native[..cap] || draft == Overlay(native, cap, cand.toks))
      && (draft != native[..cap] ==> Takes(s, wins, cand, native) && now.native == CommonPrefix(draft, native) < cap)
    ensures Good(s.k, now) && TrackedOk(Some(now)) && now.length == |draft|
  {
    var cap, j := CapFor(s, windows, was, row, native), CommonPrefix(cand.toks, native);
    if Takes(s, wins, cand, native) {
      assert draft[..j] == cand.toks[..j] && draft[j] != native[j];
      CommonPrefixIs(draft, native, j);
    }
  }

  /** Two native drafts that a candidate cannot tell apart: as long, and the same up to the first
      disagreement with it. */
  predicate SameUpTo(cand: seq<int>, a: seq<int>, b: seq<int>) {
    && |a| == |b| && |cand| <= |a|
    && var j := CommonPrefix(cand, a);
    if j < |cand| then a[..j + 1] == b[..j + 1] else a[..j] == b[..j]
  }

  lemma SameDisagreement(cand: seq<int>, a: seq<int>, b: seq<int>)
    requires SameUpTo(cand, a, b)
    ensures var j := CommonPrefix(cand, a); j == CommonPrefix(cand, b) && (j < |cand| ==> a[j] == b[j])
  {
    var j := CommonPrefix(cand, a);
    if j < |cand| { assert a[j] == a[..j + 1][j] == b[..j + 1][j]; }
    assert j < |cand| ==> a[..j] == a[..j + 1][..j] == b[..j + 1][..j] == b[..j];
    CommonPrefixIs(cand, b, j);
  }

  /** Native tokens past the first disagreement influence neither the source that is published nor what
      is remembered of the row, and what is published of the candidate is the same. */
  lemma LaterTokensIgnored(s: Settings, cfg: Config, c: seq<Entry>, wins: seq<Win>, windows: bool, was: Option<Previous>, row: seq<int>,
                           a: seq<int>, b: seq<int>, x: Candidate, y: Candidate, d: seq<int>, e: seq<int>, m: Previous, n: Previous)
    requires WinsOk(wins) && SameUpTo(x.toks, a, b)
    requires DivergedRow(s, cfg, c, wins, windows, was, row, a, x, d, m) && DivergedRow(s, cfg, c, wins, windows, was, row, b, y, e, n)
    ensures x == y && m == n && (Takes(s, wins, x, a) <==> Takes(s, wins, y, b))
    ensures Takes(s, wins, x, a) ==> d[..|x.toks|] == e[..|x.toks|] == x.toks
    ensures !Takes(s, wins, x, a) ==> d == a[..|d|] && e == b[..|d|]
  {
    var cap := CapFor(s, windows, was, row, a);
    SoughtUnique(s, cfg, c, NewContext(windows, was, row), cap, x, y);
    SameDisagreement(x.toks, a, b);
  }

  // ---- counters -----------------------------------------------------------

  function Proposed(st: Stats, native: nat, suffix: nat): Stats {
    st.(nativeProposed := st.nativeProposed + native, suffixProposed := st.suffixProposed + suffix)
  }

  /** How many suffix tokens a diverged row is said to have proposed. */
  function SuffixCount(s: Settings, wins: seq<Win>, cand: Candidate, native: seq<int>): nat
    requires WinsOk(wins)
  {
    if Takes(s, wins, cand, native) then |cand.toks| - CommonPrefix(cand.toks, native) else 0
  }

  /** The counters account for the whole draft unless a candidate shorter than the cap is published: the
      native tokens that fill the rest are counted as neither. */
  lemma FillerUncounted(s: Settings, cfg: Config, c: seq<Entry>, wins: seq<Win>, windows: bool, was: Option<Previous>, row: seq<int>,
                        native: seq<int>, cand: Candidate, draft: seq<int>, now: Previous)
    requires WinsOk(wins) && DivergedRow(s, cfg, c, wins, windows, was, row, native, cand, draft, now)
    ensures now.native + SuffixCount(s, wins, cand, native) == |draft| <==> !(Takes(s, wins, cand, native) && |cand.toks| < |draft|)
  {}

  // ---- what a row comes to ------------------------------------------------

  /** Context and draft together stay within the model's length, and the draft is as wide as that, the budget
      and the native draft allow. */
  lemma DivergeFits(s: Settings, cfg: Config, c: seq<Entry>, wins: seq<Win>, windows: bool, was: Option<Previous>, row: seq<int>,
                    native: seq<int>, cand: Candidate, draft: seq<int>, now: Previous, n: nat)
    requires WinsOk(wins) && DivergedRow(s, cfg, c, wins, windows, was, row, native, cand, draft, now)
    ensures |now.context| == |row| && (|row| <= s.maxLen ==> |now.context| + |draft| <= s.maxLen)
    ensures n <= |draft| <==> n <= s.k && n <= |native| && (n == 0 || |row| + n <= s.maxLen)
  {
    CapFits(s, windows, was, row, native, n);
  }

  /** The candidate is published exactly if it disagrees with the native draft somewhere and the suffix's
      share of its bucket, one right guess added to either side, is above the threshold. */
  lemma TakesExactly(s: Settings, wins: seq<Win>, cand: Candidate, native: seq<int>, w: Win)
    requires WinsOk(wins) && |cand.toks| <= |native| && w == wins[Bucket(cand.inContext, cand.matched)]
    ensures Takes(s, wins, cand, native) <==>
      && (exists t :: 0 <= t < |cand.toks| && cand.toks[t] != native[t])
      && w.suffix + 1.0 > s.threshold * (w.suffix + w.native + 2.0)
    ensures s.threshold == 0.5 ==>
      (Takes(s, wins, cand, native) <==> (exists t :: 0 <= t < |cand.toks| && cand.toks[t] != native[t]) && w.suffix > w.native)
  {
    var j := CommonPrefix(cand.toks, native);
    assert forall t :: 0 <= t < j ==> cand.toks[t] == cand.toks[..j][t] == native[..j][t] == native[t];
    assert WinOk(w);
    TrustIs(w, Trust(w));
    Above(Trust(w), s.threshold, w.suffix + w.native + 2.0, w.suffix + 1.0, s.threshold * (w.suffix + w.native + 2.0));
    TrustBounds(w);
  }

  /** Evidence is of one kind if it has one source and one tier of match length: under 16, under 32, or more. */
  lemma BucketIs(a: bool, m: nat, b: bool, n: nat)
    ensures Bucket(a, m) == Bucket(b, n) <==> a == b && (m < 16 <==> n < 16) && (m < 32 <==> n < 32)
  {}

  /** A count that is right moves a thousandth of the way to the limit, one that is wrong loses a thousandth. */
  lemma GradedMoves(w: Win, suffixRight: bool, nativeRight: bool)
    ensures var g := Graded(w, suffixRight, nativeRight);
      && 1000.0 * g.suffix == 999.0 * w.suffix + (if suffixRight then 1000.0 else 0.0)
      && 1000.0 * g.native == 999.0 * w.native + (if nativeRight then 1000.0 else 0.0)
  {}

  /** A continuing row grades the disagreement it remembers if and only if verification reached it and the
      row holds the true token there; only that bucket changes. */
  lemma ResolvedIs(wins: seq<Win>, windows: bool, p: Previous, row: seq<int>, accepted: int, d: Divergence, b: nat)
    requires WinsOk(wins) && TrackedOk(Some(p)) && p.div == Some(d) && Extends(windows, p.context, row) && b < BUCKETS
    ensures var at := |p.context| + d.j;
      Resolved(wins, windows, Some(p), row, accepted)[b] ==
        if b == d.bucket && d.j <= accepted && at < |row| then Graded(wins[b], row[at] == d.suffixTok, row[at] == d.nativeTok) else wins[b]
  {}

  /** Slot by slot: the candidate as far as it goes, the native draft after it. */
  lemma OverlayAt(native: seq<int>, cap: nat, cand: seq<int>, t: nat)
    requires |cand| <= cap <= |native| && t < cap
    ensures Overlay(native, cap, cand)[t] == if t < |cand| then cand[t] else native[t]
  {}

  /** What is remembered is the first slot in which the candidate and the native draft differ, with both tokens. */
  lemma DisagreementIs(cand: Candidate, native: seq<int>)
    requires |cand.toks| <= |native|
    ensures match Disagreement(cand, native)
      case Some(d) =>
        && d.j < |cand.toks| && d.suffixTok == cand.toks[d.j] && d.nativeTok == native[d.j] && d.suffixTok != d.nativeTok
        && (forall t :: 0 <= t < d.j ==> cand.toks[t] == native[t]) && d.bucket == Bucket(cand.inContext, cand.matched)
      case None => forall t :: 0 <= t < |cand.toks| ==> cand.toks[t] == native[t]
  {
    var j := CommonPrefix(cand.toks, native);
    assert forall t :: 0 <= t < j ==> cand.toks[t] == cand.toks[..j][t] == native[..j][t] == native[t];
  }

  /** The candidate is the cache's draft, unless that leaves room and the request's own n-gram draft is longer,
      or there is one of higher order than the cache's match. */
  lemma ChosenIs(s: Settings, context: seq<int>, cap: nat, suffix: seq<int>, best: nat)
    requires |suffix| <= cap
    ensures var h := Ngram.Found(context, s.lo, s.hi, cap, s.window); var ng := Ngram.Continuation(context, h, cap);
      var c := Chosen(s, context, cap, suffix, best);
      if h.Hit? && |suffix| < cap && s.lo <= s.hi && (|suffix| < |ng| || best < h.n)
      then c == Candidate(ng, h.n, true) else c == Candidate(suffix, best, false)
  {
    Ngram.HitDraft(context, s.lo, s.hi, cap, s.window);
  }
}
