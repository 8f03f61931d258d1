/**
One row of HybridMixer in src/mixer.rs, as functions: how a row relates to the tracked context, what
feedback does to its estimates, and what the split mode that is the default publishes.
*/
module MixRow {
  import opened IntMath
  import opened Wrappers
  import opened SuffixCorpus
  import opened SuffixDraft
  import opened EngineRows

  datatype Settings = Settings(k: nat, maxLen: nat, diverge: bool, threshold: real, lo: nat, hi: nat, window: nat)

  predicate SettingsOk(s: Settings) { 1 <= s.k <= 64 && 1 <= s.maxLen && s.lo >= 1 && s.hi >= 1 }

  /** The first disagreement of the last proposal's two sources. */
  datatype Divergence = Divergence(j: nat, suffixTok: int, nativeTok: int, bucket: nat)

  /** What is kept of a request; quality is the estimate of its suffix tails. */
  datatype Previous = Previous(context: seq<int>, native: nat, length: nat, arm: nat, estimate: real,
                               quality: Option<real>, hadSuffix: bool, div: Option<Divergence>)

  // ---- continuity ---------------------------------------------------------

  datatype Link = Fresh | Continuing | Reset

  /** Whether a row extends the tracked context: exactly, or as far as boundary windows show. */
  predicate Extends(windows: bool, t: seq<int>, row: seq<int>) {
    t == [] || if windows then PrefixOfRow(t, row) else t <= row
  }

  function LinkOf(windows: bool, was: Option<Previous>, row: seq<int>): Link {
    match was
    case None => Fresh
    case Some(p) => if Extends(windows, p.context, row) then Continuing else Reset
  }

  /** The part of the tracked context that stays. */
  function Tracked(windows: bool, was: Option<Previous>, row: seq<int>): seq<int> {
    if LinkOf(windows, was, row).Continuing? then was.value.context else []
  }

  function Delta(windows: bool, was: Option<Previous>, row: seq<int>): seq<int> {
    row[|Tracked(windows, was, row)|..]
  }

  function NewContext(windows: bool, was: Option<Previous>, row: seq<int>): seq<int> {
    Tracked(windows, was, row) + Delta(windows, was, row)
  }

  /** Exact comparison, or windows that do not err, make the tracked context the row. */
  lemma ContextIsRow(windows: bool, was: Option<Previous>, row: seq<int>)
    requires was.Some? && windows && Extends(windows, was.value.context, row) ==> was.value.context <= row
    ensures NewContext(windows, was, row) == row
  {}

  // ---- feedback -----------------------------------------------------------

  /** Training on the accepted length of the last proposal; negative when there is none. */
  function Trained(p: Previous, accepted: int): Previous {
    if accepted < 0 || p.length == 0 then p
    else
      p.(estimate := if accepted >= p.length then p.length as real else 0.7 * p.estimate + 0.3 * accepted as real,
         quality :=
           if p.hadSuffix && Min(accepted, p.native) < p.native then
             var got := Max(accepted - p.native, 0) as real;
             Some(match p.quality case Some(e) => 0.7 * e + 0.3 * got case None => got)
           else p.quality)
  }

  /** Tokens proposed, tested and accepted, by source. */
  datatype Stats = Stats(nativeTested: nat, nativeAccepted: nat, suffixTested: nat, suffixAccepted: nat,
                         nativeProposed: nat, suffixProposed: nat)

  function Tested(st: Stats, p: Previous, accepted: int): Stats {
    if accepted < 0 then st
    else
      var tested := Min(accepted + 1, p.length);
      st.(nativeTested := st.nativeTested + Min(tested, p.native),
          nativeAccepted := st.nativeAccepted + Min(accepted, p.native),
          suffixTested := st.suffixTested + Max(tested - p.native, 0),
          suffixAccepted := st.suffixAccepted + Max(accepted - p.native, 0))
  }

  /** What every tracked request keeps; the quality estimate has only one value it can take. */
  predicate Good(k: nat, p: Previous) {
    p.native <= p.length <= k && 0.0 <= p.estimate <= k as real && (p.quality.None? || p.quality == Some(0.0))
  }

  lemma TrainedGood(k: nat, p: Previous, accepted: int)
    requires Good(k, p) && accepted <= p.length
    ensures Good(k, Trained(p, accepted)) && Trained(p, accepted).context == p.context
  {}

  /** A quality, once there is one, stays: the feedback that trains it always trains it with zero. */
  lemma QualityStays(k: nat, p: Previous, accepted: int)
    requires Good(k, p) && accepted <= p.length
    ensures Trained(p, accepted).quality.None? <==> p.quality.None? && !(0 <= accepted < p.native && p.hadSuffix)
  {}

  /** One proposal is tested up to its first rejection, and no part of it more than it has. */
  lemma TestedParts(st: Stats, p: Previous, accepted: int)
    requires p.native <= p.length && 0 <= accepted <= p.length
    ensures var now := Tested(st, p, accepted);
      var nt, na := now.nativeTested - st.nativeTested, now.nativeAccepted - st.nativeAccepted;
      var xt, xa := now.suffixTested - st.suffixTested, now.suffixAccepted - st.suffixAccepted;
      && na <= nt <= p.native && xa <= xt <= p.length - p.native
      && na + xa == accepted && nt + xt == Min(accepted + 1, p.length)
  {}

  // ---- the budget ---------------------------------------------------------

  function Ceil(x: real): int { -(0.0 - x).Floor }

  function Clamp(x: int, lo: int, hi: int): int { if x < lo then lo else if x > hi then hi else x }

  function Pick(estimate: real, k: nat): (w: nat)
    requires k >= 1
    ensures 1 <= w <= k
  {
    Clamp(Ceil(estimate), 1, k)
  }

  /** The budget is the least width in 1 .. k that is not below the estimate. */
  lemma PickLeast(estimate: real, k: nat, w: nat)
    requires k >= 1 && 0.0 <= estimate <= k as real && 1 <= w <= k
    ensures Pick(estimate, k) <= w <==> estimate <= w as real
  {}

  /** A full acceptance restores the published width at once. */
  lemma FullWidth(k: nat, p: Previous)
    requires 1 <= p.length <= k
    ensures Pick(Trained(p, p.length).estimate, k) == p.length
  {
    PickLeast(p.length as real, k, p.length);
    if p.length > 1 { PickLeast(p.length as real, k, p.length - 1); }
  }

  /** Slots to fill: the draft budget, the room left in the context, and the native draft. */
  function CapOf(s: Settings, length: nat, native: nat): nat {
    Min(Min(s.k, Max(s.maxLen - length, 0)), native)
  }

  function Estimate(s: Settings, was: Option<Previous>, link: Link): real {
    if link.Continuing? && was.Some? then was.value.estimate else s.k as real
  }

  function Budget(s: Settings, fed: bool, estimate: real, cap: nat): nat
    requires s.k >= 1
  {
    if fed then Min(Pick(estimate, s.k), cap) else cap
  }

  /** How much of the native draft the tail is conditioned on. */
  function Prefix(link: Link, budget: nat, cap: nat): nat {
    if link.Continuing? then
      var b := Min(budget, cap);
      if b >= cap then cap else Max(b, Max(cap - 1, 1))
    else cap
  }

  /** The floor leaves the budget one bit: whether the last native slot may be given up. */
  lemma PrefixIs(s: Settings, link: Link, fed: bool, estimate: real, cap: nat)
    requires s.k >= 1
    ensures var b := Budget(s, fed, estimate, cap);
      && Prefix(link, b, cap) == (if link.Continuing? && fed && Pick(estimate, s.k) < cap then cap - 1 else cap)
      && (cap >= 1 ==> Prefix(link, b, cap) >= 1)
  {}

  // ---- the lookup ---------------------------------------------------------

  /** The part of context and kept native draft that the lookup is given. */
  function Conditioned(depth: nat, tracked: seq<int>, delta: seq<int>, native: seq<int>, prefix: nat): seq<int>
    requires prefix <= |native|
  {
    Last(tracked, Min(Max(depth - |delta|, 0), |tracked|)) + delta[Max(|delta| - depth, 0)..] + native[..Max(prefix - 1, 0)]
  }

  lemma LastOfAppend(x: seq<int>, y: seq<int>, d: nat)
    ensures Last(Last(x, d) + y, d) == Last(x + y, d)
  {}

  /** The last d of two pieces. */
  lemma LastOfTwo(x: seq<int>, y: seq<int>, d: nat)
    ensures Last(x + y, d) == Last(x, Min(Max(d - |y|, 0), |x|)) + y[Max(|y| - d, 0)..]
  {}

  /** The bounded window ends as the whole context with the kept native draft does. */
  lemma ConditionedWindow(depth: nat, tracked: seq<int>, delta: seq<int>, native: seq<int>, prefix: nat)
    requires prefix <= |native|
    ensures Last(Conditioned(depth, tracked, delta, native, prefix), depth)
         == Last(tracked + delta + native[..Max(prefix - 1, 0)], depth)
  {
    LastOfTwo(tracked, delta, depth);
    LastOfAppend(tracked + delta, native[..Max(prefix - 1, 0)], depth);
  }

  lemma SameWindow(cfg: Config, c: seq<Entry>, a: seq<int>, b: seq<int>, cap: nat, d: seq<int>, score: real, best: nat)
    requires Last(a, cfg.depth) == Last(b, cfg.depth)
    ensures Speculated(cfg, c, a, cap, d, score, best) <==> Speculated(cfg, c, b, cap, d, score, best)
  {}

  /** The bounded window stands for the whole context: no lookup can tell them apart. */
  lemma ConditionedIsWhole(cfg: Config, c: seq<Entry>, tracked: seq<int>, delta: seq<int>, native: seq<int>, prefix: nat,
                           cap: nat, d: seq<int>, score: real, best: nat)
    requires prefix <= |native|
    ensures Speculated(cfg, c, Conditioned(cfg.depth, tracked, delta, native, prefix), cap, d, score, best)
       <==> Speculated(cfg, c, tracked + delta + native[..Max(prefix - 1, 0)], cap, d, score, best)
  {
    ConditionedWindow(cfg.depth, tracked, delta, native, prefix);
    SameWindow(cfg, c, Conditioned(cfg.depth, tracked, delta, native, prefix),
               tracked + delta + native[..Max(prefix - 1, 0)], cap, d, score, best);
  }

  // ---- what is published --------------------------------------------------

  /** The gate as it is tested: no evidence yet, or an estimate of at least one token. */
  predicate Open(quality: Option<real>) { quality.None? || quality.value >= 1.0 }

  /** The draft: native alone, or with the tail in place of its last kept token, or with the tail after it. */
  function Published(native: seq<int>, cap: nat, prefix: nat, suffix: seq<int>, echo: bool, quality: Option<real>): seq<int>
    requires prefix <= cap <= |native|
  {
    if suffix == [] || echo then native[..cap]
    else if prefix >= 1 && Open(quality) then First(native[..prefix - 1] + suffix, cap)
    else native[..prefix] + First(suffix, cap - prefix)
  }

  function First(s: seq<int>, n: nat): seq<int> { if |s| <= n then s else s[..n] }

  function CommonPrefix(a: seq<int>, b: seq<int>): (m: nat)
    ensures m <= |a| && m <= |b| && a[..m] == b[..m]
    ensures m < |a| && m < |b| ==> a[m] != b[m]
  {
    if a != [] && b != [] && a[0] == b[0] then
      var m := CommonPrefix(a[1..], b[1..]);
      assert a[..m + 1] == [a[0]] + a[1..][..m] && b[..m + 1] == [b[0]] + b[1..][..m];
      m + 1
    else 0
  }

  /** It is the only length with that property. */
  lemma CommonPrefixIs(a: seq<int>, b: seq<int>, m: nat)
    requires m <= |a| && m <= |b| && a[..m] == b[..m]
    ensures m <= CommonPrefix(a, b)
    ensures m == |a| || m == |b| || a[m] != b[m] ==> m == CommonPrefix(a, b)
  {
    var n := CommonPrefix(a, b);
    assert forall i :: 0 <= i < m ==> a[i] == a[..m][i] == b[..m][i] == b[i];
    assert forall i :: 0 <= i < n ==> a[i] == a[..n][i] == b[..n][i] == b[i];
  }

  /** Its length is in [prefix, cap], and only the last two slots can be anything but native. */
  lemma PublishedShape(native: seq<int>, cap: nat, prefix: nat, suffix: seq<int>, echo: bool, quality: Option<real>)
    requires prefix <= cap <= |native| && cap - 1 <= prefix
    ensures var d := Published(native, cap, prefix, suffix, echo, quality);
      && prefix <= |d| <= cap && Max(prefix - 1, 0) <= CommonPrefix(d, native)
      && d[..Max(cap - 2, 0)] == native[..Max(cap - 2, 0)]
      && (suffix == [] || echo ==> CommonPrefix(d, native) == |d| == cap)
  {
    var d, m := Published(native, cap, prefix, suffix, echo, quality), Max(prefix - 1, 0);
    KeptNative(native, cap, prefix, suffix, echo, quality, m);
    CommonPrefixIs(d, native, m);
    if suffix == [] || echo { CommonPrefixIs(d, native, cap); }
    assert Max(cap - 2, 0) <= m;
    assert d[..Max(cap - 2, 0)] == d[..m][..Max(cap - 2, 0)];
  }

  lemma KeptNative(native: seq<int>, cap: nat, prefix: nat, suffix: seq<int>, echo: bool, quality: Option<real>, m: nat)
    requires prefix <= cap <= |native| && m == Max(prefix - 1, 0)
    ensures var d := Published(native, cap, prefix, suffix, echo, quality); m <= |d| && d[..m] == native[..m]
  {}

  /** The tail continues the first prefix - 1 native tokens: its token i belongs at prefix - 1 + i. */
  predicate Aligned(d: seq<int>, prefix: nat, suffix: seq<int>) {
    forall i :: 0 <= i < |suffix| && prefix - 1 + i < |d| && prefix >= 1 ==> d[prefix - 1 + i] == suffix[i]
  }

  /** With the gate open the tail is published where it was looked up. With the gate closed its first
      token lands one slot late, so that the draft agrees with the lookup only if the tail starts with the
      last kept native token and, when a token is appended, repeats it. */
  lemma AlignedExactly(native: seq<int>, cap: nat, prefix: nat, suffix: seq<int>, quality: Option<real>)
    requires 1 <= prefix <= cap <= |native| && cap - 1 <= prefix && suffix != []
    ensures Aligned(Published(native, cap, prefix, suffix, false, quality), prefix, suffix)
       <==> Open(quality) || (suffix[0] == native[prefix - 1] && (prefix < cap && |suffix| > 1 ==> suffix[1] == suffix[0]))
  {
    var d := Published(native, cap, prefix, suffix, false, quality);
    if !Open(quality) {
      assert d[prefix - 1] == native[prefix - 1];
      assert prefix < cap ==> |d| == cap && d[prefix] == suffix[0];
    }
  }

  /** A tail of which 8 follows 6, closed out by the gate: the draft says that 6 follows 6. */
  lemma ClosedGateRepeats()
    ensures Published([5, 6, 7], 3, 2, [6, 8, 9], false, Some(0.0)) == [5, 6, 6]
    ensures Published([5, 6, 7], 3, 2, [6, 8, 9], false, None) == [5, 6, 8]
  {}

  // ---- one row ------------------------------------------------------------

  function CapFor(s: Settings, windows: bool, was: Option<Previous>, row: seq<int>, native: seq<int>): (cap: nat)
    ensures cap <= |native| && cap <= s.k
  {
    CapOf(s, |NewContext(windows, was, row)|, |native|)
  }

  function RowBudget(s: Settings, c: seq<Entry>, windows: bool, was: Option<Previous>, row: seq<int>, native: seq<int>): nat
    requires s.k >= 1
  {
    Budget(s, Tokens(c) > 0, Estimate(s, was, LinkOf(windows, was, row)), CapFor(s, windows, was, row, native))
  }

  function RowPrefix(s: Settings, c: seq<Entry>, windows: bool, was: Option<Previous>, row: seq<int>, native: seq<int>): (prefix: nat)
    requires s.k >= 1
    ensures var cap := CapFor(s, windows, was, row, native); cap - 1 <= prefix <= cap && (cap >= 1 ==> prefix >= 1)
  {
    Prefix(LinkOf(windows, was, row), RowBudget(s, c, windows, was, row, native), CapFor(s, windows, was, row, native))
  }

  function Quality(was: Option<Previous>): Option<real> {
    match was case Some(p) => p.quality case None => None
  }

  /** The lookup of a row, made in the whole context and the kept native draft. */
  ghost predicate Looked(s: Settings, cfg: Config, c: seq<Entry>, windows: bool, was: Option<Previous>, row: seq<int>, native: seq<int>,
                         suffix: seq<int>, score: real, best: nat)
    requires s.k >= 1
  {
    var cap, prefix := CapFor(s, windows, was, row, native), RowPrefix(s, c, windows, was, row, native);
    Speculated(cfg, c, NewContext(windows, was, row) + native[..Max(prefix - 1, 0)], cap, suffix, score, best)
  }

  function RowDraft(s: Settings, c: seq<Entry>, windows: bool, was: Option<Previous>, row: seq<int>, native: seq<int>, suffix: seq<int>): seq<int>
    requires s.k >= 1
  {
    var echo := !LinkOf(windows, was, row).Continuing?;
    Published(native, CapFor(s, windows, was, row, native), RowPrefix(s, c, windows, was, row, native), suffix, echo, Quality(was))
  }

  /** What is kept of a row after it has been published. */
  function Kept(s: Settings, c: seq<Entry>, windows: bool, was: Option<Previous>, row: seq<int>, native: seq<int>, draft: seq<int>): Previous
    requires s.k >= 1
  {
    var link, n := LinkOf(windows, was, row), CommonPrefix(draft, native);
    Previous(NewContext(windows, was, row), n, |draft|, RowBudget(s, c, windows, was, row, native),
             Estimate(s, was, link), if link.Continuing? then Quality(was) else None, |draft| > n,
             match was case Some(p) => p.div case None => None)
  }

  /** The draft of a row, and what is kept of it, for the corpus c. */
  ghost predicate LegacyRow(s: Settings, cfg: Config, c: seq<Entry>, windows: bool, was: Option<Previous>, row: seq<int>, native: seq<int>,
                            draft: seq<int>, now: Previous)
    requires s.k >= 1
  {
    exists suffix, score, best :: Looked(s, cfg, c, windows, was, row, native, suffix, score, best)
      && draft == RowDraft(s, c, windows, was, row, native, suffix) && now == Kept(s, c, windows, was, row, native, draft)
  }

  /** The corpus, what was kept of the request and the row decide the draft. */
  lemma LegacyUnique(s: Settings, cfg: Config, c: seq<Entry>, windows: bool, was: Option<Previous>, row: seq<int>, native: seq<int>,
                     draft: seq<int>, now: Previous, draft': seq<int>, now': Previous)
    requires s.k >= 1 && LegacyRow(s, cfg, c, windows, was, row, native, draft, now)
    requires LegacyRow(s, cfg, c, windows, was, row, native, draft', now')
    ensures draft == draft' && now == now'
  {
    var x, u, a :| Looked(s, cfg, c, windows, was, row, native, x, u, a) && draft == RowDraft(s, c, windows, was, row, native, x);
    var y, v, b :| Looked(s, cfg, c, windows, was, row, native, y, v, b) && draft' == RowDraft(s, c, windows, was, row, native, y);
    LookedUnique(s, cfg, c, windows, was, row, native, x, u, a, y, v, b);
  }

  lemma LookedUnique(s: Settings, cfg: Config, c: seq<Entry>, windows: bool, was: Option<Previous>, row: seq<int>, native: seq<int>,
                     x: seq<int>, u: real, a: nat, y: seq<int>, v: real, b: nat)
    requires s.k >= 1 && Looked(s, cfg, c, windows, was, row, native, x, u, a) && Looked(s, cfg, c, windows, was, row, native, y, v, b)
    ensures x == y
  {
    var keep: nat := Max(RowPrefix(s, c, windows, was, row, native) - 1, 0);
    SpeculatedUnique(cfg, c, NewContext(windows, was, row) + native[..keep], CapFor(s, windows, was, row, native), x, u, a, y, v, b);
  }

  /** The published length lies between the kept native draft and the cap, what counts as native is all
      that agrees with the native draft, only the last two slots can differ from it, and a request that
      is new to its slot gets the native draft. */
  lemma LegacyShape(s: Settings, cfg: Config, c: seq<Entry>, windows: bool, was: Option<Previous>, row: seq<int>, native: seq<int>,
                    draft: seq<int>, now: Previous)
    requires s.k >= 1 && LegacyRow(s, cfg, c, windows, was, row, native, draft, now)
    requires was.Some? ==> Good(s.k, was.value)
    ensures var cap := CapFor(s, windows, was, row, native);
      && RowPrefix(s, c, windows, was, row, native) <= |draft| <= cap
      && draft[..Max(cap - 2, 0)] == native[..Max(cap - 2, 0)]
      && (!LinkOf(windows, was, row).Continuing? ==> draft == native[..cap])
    ensures Good(s.k, now) && now.length == |draft| && now.native == CommonPrefix(draft, native)
    ensures now.hadSuffix <==> now.native < now.length
  {
    var suffix, score, best :| Looked(s, cfg, c, windows, was, row, native, suffix, score, best) && draft == RowDraft(s, c, windows, was, row, native, suffix);
    PublishedShape(native, CapFor(s, windows, was, row, native), RowPrefix(s, c, windows, was, row, native), suffix,
                   !LinkOf(windows, was, row).Continuing?, Quality(was));
  }

  /** The tail follows a match of that length with the end of the context, in sequence i of the corpus. */
  predicate TailFrom(cfg: Config, c: seq<Entry>, context: seq<int>, tail: seq<int>, best: nat, i: int, pos: nat) {
    && 0 <= i < |c| && cfg.n <= pos && pos + |tail| <= |c[i].toks| && c[i].toks[pos..pos + |tail|] == tail
    && best == CommonSuffix(c[i].toks[..pos], Last(context, cfg.depth))
  }

  lemma ShorterTail(cfg: Config, c: seq<Entry>, context: seq<int>, tail: seq<int>, m: nat, best: nat)
    requires exists i, pos :: TailFrom(cfg, c, context, tail, best, i, pos)
    ensures exists i, pos :: TailFrom(cfg, c, context, First(tail, m), best, i, pos)
  {
    var i, pos :| TailFrom(cfg, c, context, tail, best, i, pos);
    assert TailFrom(cfg, c, context, First(tail, m), best, i, pos);
  }

  lemma LookupFollows(cfg: Config, c: seq<Entry>, next: nat, context: seq<int>, cap: nat, suffix: seq<int>, score: real, best: nat)
    requires ConfigOk(cfg) && Ordered(c, next) && Speculated(cfg, c, context, cap, suffix, score, best) && suffix != []
    ensures exists i, pos :: TailFrom(cfg, c, context, suffix, best, i, pos)
  {
    DraftIsContinuation(cfg, c, next, context, cap, suffix, score, best);
    var i, pos: nat :| 0 <= i < |c| && cfg.n <= pos && pos + |suffix| <= |c[i].toks| && c[i].toks[pos..pos + |suffix|] == suffix
      && best == CommonSuffix(c[i].toks[..pos], Last(context, cfg.depth));
    assert TailFrom(cfg, c, context, suffix, best, i, pos);
  }

  lemma PublishedTail(native: seq<int>, cap: nat, prefix: nat, suffix: seq<int>, quality: Option<real>, keep: nat)
    requires 1 <= prefix <= cap <= |native| && suffix != [] && Open(quality) && keep == prefix - 1
    ensures var d := Published(native, cap, prefix, suffix, false, quality);
      keep < |d| && d[..keep] == native[..keep] && d[keep..] == First(suffix, cap - keep)
  {}

  lemma Capped(s: Settings, cfg: Config, c: seq<Entry>, windows: bool, was: Option<Previous>, row: seq<int>, native: seq<int>,
               suffix: seq<int>, score: real, best: nat)
    requires s.k >= 1 && Looked(s, cfg, c, windows, was, row, native, suffix, score, best) && suffix != []
    ensures CapFor(s, windows, was, row, native) >= 1
  {}

  /** A tail that the gate lets through is published as a verbatim continuation of some corpus sequence,
      from a longest match of the context and the kept native draft on. */
  lemma TailFollows(s: Settings, cfg: Config, c: seq<Entry>, next: nat, windows: bool, was: Option<Previous>, row: seq<int>, native: seq<int>,
                    suffix: seq<int>, score: real, best: nat, keep: nat)
    requires s.k >= 1 && ConfigOk(cfg) && Ordered(c, next) && Looked(s, cfg, c, windows, was, row, native, suffix, score, best)
    requires suffix != [] && LinkOf(windows, was, row).Continuing? && Open(Quality(was))
    requires keep == Max(RowPrefix(s, c, windows, was, row, native) - 1, 0)
    ensures var d := RowDraft(s, c, windows, was, row, native, suffix);
      && keep < |d| && d[..keep] == native[..keep]
      && exists i, pos :: TailFrom(cfg, c, NewContext(windows, was, row) + native[..keep], d[keep..], best, i, pos)
  {
    Capped(s, cfg, c, windows, was, row, native, suffix, score, best);
    TailInContext(cfg, c, next, NewContext(windows, was, row) + native[..keep], native, CapFor(s, windows, was, row, native),
                  RowPrefix(s, c, windows, was, row, native), suffix, score, best, Quality(was), keep);
  }

  lemma TailInContext(cfg: Config, c: seq<Entry>, next: nat, context: seq<int>, native: seq<int>, cap: nat, prefix: nat,
                      suffix: seq<int>, score: real, best: nat, quality: Option<real>, keep: nat)
    requires ConfigOk(cfg) && Ordered(c, next) && Speculated(cfg, c, context, cap, suffix, score, best) && suffix != []
    requires 1 <= prefix <= cap <= |native| && Open(quality) && keep == prefix - 1
    ensures var d := Published(native, cap, prefix, suffix, false, quality);
      && keep < |d| && d[..keep] == native[..keep]
      && exists i, pos :: TailFrom(cfg, c, context, d[keep..], best, i, pos)
  {
    LookupFollows(cfg, c, next, context, cap, suffix, score, best);
    ShorterTail(cfg, c, context, suffix, cap - keep, best);
    PublishedTail(native, cap, prefix, suffix, quality, keep);
  }

  // ---- what a row comes to ------------------------------------------------

  /** A proposal is as wide as the budget, the native draft and the room left in the model's context allow,
      and no narrower. */
  lemma CapFits(s: Settings, windows: bool, was: Option<Previous>, row: seq<int>, native: seq<int>, n: nat)
    ensures |NewContext(windows, was, row)| == |row|
    ensures n <= CapFor(s, windows, was, row, native) <==> n <= s.k && n <= |native| && (n == 0 || |row| + n <= s.maxLen)
  {}

  /** Context and draft together stay within the model's length, and what a new request is given is the
      native draft, cut to the budget and that length only. */
  lemma LegacyFits(s: Settings, cfg: Config, c: seq<Entry>, windows: bool, was: Option<Previous>, row: seq<int>, native: seq<int>,
                   draft: seq<int>, now: Previous)
    requires s.k >= 1 && LegacyRow(s, cfg, c, windows, was, row, native, draft, now) && (was.Some? ==> Good(s.k, was.value))
    ensures |now.context| == |row| && (|row| <= s.maxLen ==> |now.context| + |draft| <= s.maxLen)
    ensures !LinkOf(windows, was, row).Continuing? && |row| <= s.maxLen ==>
      draft == First(native, Min(s.k, s.maxLen - |row|)) && |draft| == Min(Min(s.k, s.maxLen - |row|), |native|)
  {
    LegacyShape(s, cfg, c, windows, was, row, native, draft, now);
    CapFits(s, windows, was, row, native, |draft|);
    CapFits(s, windows, was, row, native, CapFor(s, windows, was, row, native));
  }

  /** The estimates that are kept: those of a continuing request, and for a new one the full width and no
      evidence about its tails. */
  lemma LegacyEstimates(s: Settings, cfg: Config, c: seq<Entry>, windows: bool, was: Option<Previous>, row: seq<int>, native: seq<int>,
                        draft: seq<int>, now: Previous)
    requires s.k >= 1 && LegacyRow(s, cfg, c, windows, was, row, native, draft, now)
    ensures if was.Some? && Extends(windows, was.value.context, row)
      then now.estimate == was.value.estimate && now.quality == was.value.quality
      else now.estimate == s.k as real && now.quality == None
  {}

  /** With a tail, the draft is as long as prefix and tail allow: the tail takes the place of the last kept
      token if the gate is open, and otherwise follows it. */
  lemma PublishedLength(native: seq<int>, cap: nat, prefix: nat, suffix: seq<int>, quality: Option<real>)
    requires 1 <= prefix <= cap <= |native| && suffix != []
    ensures var d := Published(native, cap, prefix, suffix, false, quality);
      |d| == Min(cap, if quality == None || quality.value >= 1.0 then prefix - 1 + |suffix| else prefix + |suffix|)
  {}

  /** A rejection moves the estimate three tenths of the way to what was accepted; the first rejection of a
      native token on a row with a tail closes the gate. */
  lemma TrainedMoves(p: Previous, accepted: int)
    requires 0 <= accepted < p.length
    ensures 10.0 * (Trained(p, accepted).estimate - accepted as real) == 7.0 * (p.estimate - accepted as real)
    ensures p.hadSuffix && accepted < p.native && p.quality == None ==> Trained(p, accepted).quality == Some(0.0)
  {}
}
