/** One row of V2SuffixProposer in src/mixer.rs, as functions: its history, its width gate and what it publishes. */
module V2Row {
  import opened IntMath
  import opened Wrappers
  import opened SuffixCorpus
  import opened SuffixDraft
  import MixRow

  datatype Settings = Settings(k: nat, maxLen: nat, minLen: nat, uniform: bool, gated: bool)

  predicate SettingsOk(s: Settings) { 1 <= s.k <= 64 && 1 <= s.maxLen && s.minLen >= 1 }

  // ---- history ------------------------------------------------------------

  predicate Continues(tracked: Option<seq<int>>, row: seq<int>) { tracked.Some? && MixRow.Extends(true, tracked.value, row) }

  /** The tracked history extended by what is new of the row, or the row itself. */
  function History(tracked: Option<seq<int>>, row: seq<int>): seq<int> {
    if Continues(tracked, row) then tracked.value + row[|tracked.value|..] else row
  }

  /** Where boundary windows tell a prefix right, the history is the row. */
  lemma HistoryIsRow(tracked: Option<seq<int>>, row: seq<int>)
    requires Continues(tracked, row) ==> tracked.value <= row
    ensures History(tracked, row) == row
  {}

  // ---- the gate -----------------------------------------------------------

  /** Acceptance of a request's drafts, and the width last published for it. */
  datatype Gate = Gate(ewma: real, lastWidth: nat)

  predicate GateOk(k: nat, g: Gate) { 0.0 <= g.ewma <= (k + 1) as real && g.lastWidth <= k }

  /** A history that has grown by n tokens tells that n - 1 drafts were accepted. */
  function Ewma(g: Gate, tracked: Option<seq<int>>, row: seq<int>): real {
    if Continues(tracked, row) && g.lastWidth > 0 && |row| > |tracked.value| then
      var a := Min(|row| - |tracked.value| - 1, g.lastWidth);
      if a >= g.lastWidth then (g.lastWidth + 1) as real else 0.7 * g.ewma + 0.3 * a as real
    else g.ewma
  }

  lemma EwmaBounds(k: nat, g: Gate, tracked: Option<seq<int>>, row: seq<int>)
    requires GateOk(k, g)
    ensures 0.0 <= Ewma(g, tracked, row) <= (k + 1) as real
  {}

  /** The width a row may publish: no evidence, no limit. */
  function Limit(s: Settings, gate: Option<Gate>, tracked: Option<seq<int>>, row: seq<int>): (w: nat)
    requires s.k >= 1
    ensures 1 <= w <= s.k
  {
    match gate
    case Some(g) => if s.gated then MixRow.Pick(Ewma(g, tracked, row), s.k) else s.k
    case None => s.k
  }

  /** After a full acceptance the limit is one more than what was published, up to k; after a rejection
      it is not above what the old estimate allowed, unless the accepted drafts themselves reach further. */
  lemma LimitMoves(s: Settings, g: Gate, tracked: Option<seq<int>>, row: seq<int>, a: int)
    requires s.k >= 1 && s.gated && GateOk(s.k, g) && g.lastWidth > 0
    requires Continues(tracked, row) && a == |row| - |tracked.value| - 1 && a >= 0
    ensures a >= g.lastWidth ==> Limit(s, Some(g), tracked, row) == Min(g.lastWidth + 1, s.k)
    ensures a < g.lastWidth ==> Limit(s, Some(g), tracked, row) <= Max(MixRow.Pick(g.ewma, s.k), a)
  {
    var e, m := Ewma(g, tracked, row), Max(MixRow.Pick(g.ewma, s.k), a);
    if a < g.lastWidth {
      assert MixRow.Pick(g.ewma, s.k) < s.k ==> g.ewma <= MixRow.Pick(g.ewma, s.k) as real;
      assert m < s.k ==> g.ewma <= m as real && a as real <= m as real && e <= m as real;
    }
  }

  /** A retracted width is not feedback. */
  lemma Censored(g: Gate, tracked: Option<seq<int>>, row: seq<int>)
    requires g.lastWidth == 0
    ensures Ewma(g, tracked, row) == g.ewma
  {}

  // ---- what is published --------------------------------------------------

  datatype RowOut = RowOut(tokens: seq<int>, width: nat, matched: nat)

  function Padding(history: seq<int>): int { if history == [] then 0 else history[0] }

  function Repeat(x: int, n: nat): (r: seq<int>)
    ensures |r| == n && forall i :: 0 <= i < n ==> r[i] == x
  {
    seq(n, i => x)
  }

  /** The suffix if it is long enough, cut to the limit; padded to k in uniform mode. */
  function Shape(s: Settings, limit: nat, history: seq<int>, suffix: seq<int>): RowOut
    requires limit <= s.k
  {
    var tokens := if |suffix| >= s.minLen && suffix != [] then MixRow.First(suffix, limit) else [];
    if s.uniform then RowOut(tokens + Repeat(Padding(history), s.k - |tokens|), s.k, |tokens|)
    else RowOut(tokens, |tokens|, |tokens|)
  }

  /** The outcome of a row for the corpus c. */
  ghost predicate Proposed(s: Settings, cfg: Config, c: seq<Entry>, limit: nat, history: seq<int>, out: RowOut)
    requires limit <= s.k
  {
    exists suffix, score, best :: Speculated(cfg, c, history, s.k, suffix, score, best) && out == Shape(s, limit, history, suffix)
  }

  /** Widths are what is published: at most k, just k in uniform mode, and otherwise within the limit. */
  lemma Widths(s: Settings, cfg: Config, c: seq<Entry>, limit: nat, history: seq<int>, out: RowOut)
    requires limit <= s.k && Proposed(s, cfg, c, limit, history, out)
    ensures |out.tokens| == out.width <= s.k && out.matched <= limit && out.matched <= out.width
    ensures if s.uniform then out.width == s.k else out.width == out.matched
  {}

  /** The real part of what is published continues some corpus sequence verbatim after a longest match
      of the history; the rest repeats the first token of the history. */
  lemma RealFollows(s: Settings, cfg: Config, c: seq<Entry>, next: nat, limit: nat, history: seq<int>, out: RowOut)
    requires limit <= s.k && ConfigOk(cfg) && Ordered(c, next) && Proposed(s, cfg, c, limit, history, out)
    ensures out.matched <= |out.tokens| && forall i :: out.matched <= i < |out.tokens| ==> out.tokens[i] == Padding(history)
    ensures out.matched > 0 ==> exists best, i, pos :: MixRow.TailFrom(cfg, c, history, out.tokens[..out.matched], best, i, pos)
  {
    var suffix, score, best :| Speculated(cfg, c, history, s.k, suffix, score, best) && out == Shape(s, limit, history, suffix);
    if out.matched > 0 {
      MixRow.LookupFollows(cfg, c, next, history, s.k, suffix, score, best);
      MixRow.ShorterTail(cfg, c, history, suffix, limit, best);
      assert out.tokens[..out.matched] == MixRow.First(suffix, limit);
    }
  }

  // ---- where published tokens come from -----------------------------------

  predicate Inside(vocab: set<int>, s: seq<int>) { forall i :: 0 <= i < |s| ==> s[i] in vocab }

  predicate CorpusInside(vocab: set<int>, c: seq<Entry>) { forall i :: 0 <= i < |c| ==> Inside(vocab, c[i].toks) }

  lemma HistoryInside(vocab: set<int>, tracked: Option<seq<int>>, row: seq<int>)
    requires Inside(vocab, row) && (tracked.Some? ==> Inside(vocab, tracked.value))
    ensures Inside(vocab, History(tracked, row))
  {}

  lemma TailInside(vocab: set<int>, cfg: Config, c: seq<Entry>, history: seq<int>, tail: seq<int>, best: nat, i: int, pos: nat)
    requires CorpusInside(vocab, c) && MixRow.TailFrom(cfg, c, history, tail, best, i, pos)
    ensures Inside(vocab, tail)
  {
    assert Inside(vocab, c[i].toks);
    forall j | 0 <= j < |tail| ensures tail[j] in vocab { assert tail[j] == c[i].toks[pos + j]; }
  }

  /** Every published token, padding included, is 0 or a token of the history or of the corpus. */
  lemma OutInside(vocab: set<int>, s: Settings, cfg: Config, c: seq<Entry>, next: nat, limit: nat, history: seq<int>, out: RowOut)
    requires limit <= s.k && ConfigOk(cfg) && Ordered(c, next) && Proposed(s, cfg, c, limit, history, out)
    requires 0 in vocab && CorpusInside(vocab, c) && Inside(vocab, history)
    ensures Inside(vocab, out.tokens)
  {
    RealFollows(s, cfg, c, next, limit, history, out);
    if out.matched > 0 {
      var best, i, pos :| MixRow.TailFrom(cfg, c, history, out.tokens[..out.matched], best, i, pos);
      TailInside(vocab, cfg, c, history, out.tokens[..out.matched], best, i, pos);
    }
    forall j | 0 <= j < |out.tokens| ensures out.tokens[j] in vocab {
      if j < out.matched { assert out.tokens[j] == out.tokens[..out.matched][j]; }
    }
  }

  lemma LastInside(vocab: set<int>, s: seq<int>, n: nat)
    requires Inside(vocab, s)
    ensures Inside(vocab, Last(s, n))
  {}

  lemma AddedInside(vocab: set<int>, c: seq<Entry>, cfg: Config, next: nat, toks: seq<int>)
    requires CorpusInside(vocab, c) && Inside(vocab, toks)
    ensures CorpusInside(vocab, Added(c, cfg, next, toks))
  {
    LastInside(vocab, toks, cfg.tokens);
  }

  // ---- what a row comes to ------------------------------------------------

  /** What the cache drafts for the history is published, if it is long enough, up to the limit and no less. */
  lemma MatchPublished(s: Settings, cfg: Config, c: seq<Entry>, limit: nat, history: seq<int>, out: RowOut, suffix: seq<int>, score: real, best: nat)
    requires limit <= s.k && Proposed(s, cfg, c, limit, history, out) && Speculated(cfg, c, history, s.k, suffix, score, best)
    ensures out.matched == if |suffix| >= s.minLen then Min(|suffix|, limit) else 0
    ensures out.matched <= |out.tokens| && out.tokens[..out.matched] == suffix[..out.matched]
  {
    var x, u, b :| Speculated(cfg, c, history, s.k, x, u, b) && out == Shape(s, limit, history, x);
    SpeculatedUnique(cfg, c, history, s.k, x, u, b, suffix, score, best);
  }

  /** Padding is the first token of the history, 0 for an empty one. */
  lemma PaddingIs(history: seq<int>)
    ensures Padding(history) == if |history| > 0 then history[0] else 0
  {}

  /** Without a gate of its own a row has no limit but k. */
  lemma Ungated(s: Settings, gate: Option<Gate>, tracked: Option<seq<int>>, row: seq<int>)
    requires s.k >= 1 && (gate == None || !s.gated)
    ensures Limit(s, gate, tracked, row) == s.k
  {}

  /** A history grown by a + 1 tokens, a short of the width: the estimate moves three tenths of the way to a. */
  lemma EwmaMoves(g: Gate, tracked: Option<seq<int>>, row: seq<int>, a: int)
    requires Continues(tracked, row) && |row| == |tracked.value| + a + 1 && 0 <= a < g.lastWidth
    ensures 10.0 * (Ewma(g, tracked, row) - a as real) == 7.0 * (g.ewma - a as real)
  {}

  /** Nothing else trains it: a new or reset history, or one that has not grown. */
  lemma EwmaStays(g: Gate, tracked: Option<seq<int>>, row: seq<int>)
    requires !Continues(tracked, row) || |row| <= |tracked.value|
    ensures Ewma(g, tracked, row) == g.ewma
  {}
}
