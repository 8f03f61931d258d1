/** Engine::run of src/engine.rs: match the rows of a step to the snapshots of the last one, hand the
    snapshots nobody continues to the cache, and draft for every row. */
module Engine {
  import opened SuffixCorpus
  import opened EngineRows
  import SuffixCache
  import Ngram

  datatype Outcome = Failed | Ok(drafts: seq<seq<int>>)

  datatype Source = NoDraft | FromSuffix(matched: nat) | FromNgram

  predicate LimitsOk(l: Limits) { 1 <= l.lo <= l.hi }

  /** What `run` checks of its arguments: batch sizes, and counts within the buffer and the model. */
  predicate Acceptable(l: Limits, maxRows: nat, size: nat, counts: seq<int>, tokens: seq<seq<int>>, cols: nat) {
    && size <= maxRows && size <= |counts| && size <= |tokens|
    && forall i :: 0 <= i < size ==> 0 <= counts[i] <= cols && counts[i] <= l.maxLen
  }

  /** The first counts[i] tokens of each row. */
  function BatchRows(size: nat, counts: seq<int>, tokens: seq<seq<int>>): seq<seq<int>>
    requires size <= |counts| && size <= |tokens|
    requires forall i :: 0 <= i < size ==> 0 <= counts[i] <= |tokens[i]|
  {
    seq(size, i requires 0 <= i < size => tokens[i][..counts[i]])
  }

  function Contexts(slots: seq<Slot>, rows: seq<seq<int>>): seq<seq<int>> {
    seq(|rows|, i requires 0 <= i < |rows| => Context(slots, rows, i))
  }

  function Lengths(ds: seq<seq<int>>): nat {
    if ds == [] then 0 else Lengths(ds[..|ds| - 1]) + |ds[|ds| - 1]|
  }

  function NonEmpty(ds: seq<seq<int>>): nat {
    if ds == [] then 0 else NonEmpty(ds[..|ds| - 1]) + (if ds[|ds| - 1] == [] then 0 else 1)
  }

  /** Every row so far has its draft. */
  ghost predicate AllDrafted(l: Limits, cfg: Config, c: seq<Entry>, contexts: seq<seq<int>>, sampled: seq<seq<int>>, drafts: seq<seq<int>>) {
    |drafts| <= |contexts| && |drafts| <= |sampled|
    && forall i :: 0 <= i < |drafts| ==> Drafted(l, cfg, c, contexts[i], sampled[i] == [], drafts[i])
  }

  lemma DraftedMore(l: Limits, cfg: Config, c: seq<Entry>, contexts: seq<seq<int>>, sampled: seq<seq<int>>, drafts: seq<seq<int>>, d: seq<int>)
    requires AllDrafted(l, cfg, c, contexts, sampled, drafts) && |drafts| < |contexts| && |drafts| < |sampled|
    requires Drafted(l, cfg, c, contexts[|drafts|], sampled[|drafts|] == [], d)
    ensures AllDrafted(l, cfg, c, contexts, sampled, drafts + [d])
  {}

  lemma OneMore(ds: seq<seq<int>>, d: seq<int>)
    ensures Lengths(ds + [d]) == Lengths(ds) + |d| && NonEmpty(ds + [d]) == NonEmpty(ds) + (if d == [] then 0 else 1)
  {
    assert (ds + [d])[..|ds|] == ds;
  }

  class Proposer {
    const cache: SuffixCache.Cache
    const limits: Limits
    const maxRows: nat
    var rows: seq<seq<int>>
    var calls: nat
    var proposed: nat
    var suffixProposals: nat
    var ngramProposals: nat
    var matchSum: nat

    ghost predicate Valid()
      reads this, cache
    {
      cache.Valid() && LimitsOk(limits)
    }

    constructor (cache: SuffixCache.Cache, limits: Limits, maxRows: nat)
      requires cache.Valid() && LimitsOk(limits)
      ensures Valid() && rows == [] && this.cache == cache && this.limits == limits && this.maxRows == maxRows
    {
      this.cache, this.limits, this.maxRows := cache, limits, maxRows;
      rows, calls, proposed, suffixProposals, ngramProposals, matchSum := [], 0, 0, 0, 0, 0;
    }

    static method Find(slots: seq<Slot>, i: nat, row: seq<int>) returns (k: nat)
      ensures k == Choice(slots, i, row)
    {
      if i < |slots| && slots[i].Kept? && PrefixOfRow(slots[i].row, row) { return i; }
      k := 0;
      while k < |slots| && !(slots[k].Kept? && PrefixOfRow(slots[k].row, row))
        invariant k <= |slots| && FirstContinued(slots, row, 0) == FirstContinued(slots, row, k)
      {
        k := k + 1;
      }
    }

    /** Each row takes the snapshot it continues out of the old ones. */
    static method Match(was: seq<seq<int>>, batch: seq<seq<int>>) returns (current: seq<seq<int>>, left: seq<Slot>)
      ensures current == Contexts(Slots(was), batch) && left == Left(Slots(was), batch, |batch|)
    {
      left, current := Slots(was), [];
      for i := 0 to |batch|
        invariant left == Left(Slots(was), batch, i) && |current| == i
        invariant forall x :: 0 <= x < i ==> current[x] == Context(Slots(was), batch, x)
      {
        var k := Find(left, i, batch[i]);
        var context := [];
        if k < |left| {
          context := left[k].row;
          left := left[k := Gone];
        }
        current := current + [context + batch[i][|context|..]];
      }
    }

    /** Add the snapshots that are left, in order. */
    method AddLeft(left: seq<Slot>)
      requires Valid()
      modifies cache
      ensures Valid() && cache.Corpus() == AllAdded(old(cache.Corpus()), cache.cfg, old(cache.next), Rows(left))
    {
      for i := 0 to |left|
        invariant Valid() && cache.next == NextAll(cache.cfg, old(cache.next), Rows(left[..i]))
        invariant cache.Corpus() == AllAdded(old(cache.Corpus()), cache.cfg, old(cache.next), Rows(left[..i]))
      {
        assert left[..i + 1][..i] == left[..i];
        if left[i].Kept? {
          assert Rows(left[..i + 1])[..|Rows(left[..i])|] == Rows(left[..i]);
          cache.Add(left[i].row);
        } else {
          assert Rows(left[..i + 1]) == Rows(left[..i]) + [] == Rows(left[..i]);
        }
      }
      assert left[..|left|] == left;
    }

    /** The draft of one row. The n-gram scan runs only while it could still win. */
    method DraftRow(context: seq<int>, idle: bool) returns (d: seq<int>, source: Source)
      requires Valid()
      ensures Drafted(limits, cache.cfg, cache.Corpus(), context, idle, d)
      ensures source == NoDraft <==> d == []
    {
      var cap := RowCap(limits, context);
      if idle || cap == 0 { return [], NoDraft; }
      var suffix, score, matched := cache.Speculate(context, cap);
      var ng, ngScore := [], 0.0;
      if limits.useNgram && Weight(score, suffix) < Ceiling(limits, cap) {
        ng, ngScore := Ngram.Ngram(context, limits.lo, limits.hi, cap, limits.window);
      } else if limits.useNgram {
        SkipSafe(limits, context, suffix, score);
      }
      d := Preferred(suffix, score, ng, ngScore);
      if suffix != [] && Weight(score, suffix) >= Weight(ngScore, ng) {
        source := FromSuffix(matched);
      } else {
        source := if ng == [] then NoDraft else FromNgram;
      }
    }

    method Tally(d: seq<int>, source: Source)
      requires source == NoDraft <==> d == []
      modifies `proposed, `suffixProposals, `ngramProposals, `matchSum
      ensures proposed == old(proposed) + |d|
      ensures suffixProposals + ngramProposals == old(suffixProposals) + old(ngramProposals) + (if d == [] then 0 else 1)
      ensures matchSum == old(matchSum) + (if source.FromSuffix? then source.matched else 0)
    {
      match source {
        case FromSuffix(matched) =>
          suffixProposals, matchSum := suffixProposals + 1, matchSum + matched;
        case FromNgram =>
          ngramProposals := ngramProposals + 1;
        case NoDraft =>
      }
      proposed := proposed + |d|;
    }

    /** Drafts for all rows, counted by where they come from. */
    method DraftAll(contexts: seq<seq<int>>, sampled: seq<seq<int>>) returns (drafts: seq<seq<int>>)
      requires Valid() && |sampled| == |contexts|
      modifies `proposed, `suffixProposals, `ngramProposals, `matchSum
      ensures |drafts| == |contexts| && proposed == old(proposed) + Lengths(drafts)
      ensures suffixProposals + ngramProposals == old(suffixProposals) + old(ngramProposals) + NonEmpty(drafts)
      ensures AllDrafted(limits, cache.cfg, cache.Corpus(), contexts, sampled, drafts)
    {
      drafts := [];
      for i := 0 to |contexts|
        invariant |drafts| == i && proposed == old(proposed) + Lengths(drafts)
        invariant suffixProposals + ngramProposals == old(suffixProposals) + old(ngramProposals) + NonEmpty(drafts)
        invariant AllDrafted(limits, cache.cfg, cache.Corpus(), contexts, sampled, drafts)
      {
        var d, source := DraftRow(contexts[i], sampled[i] == []);
        Tally(d, source);
        OneMore(drafts, d);
        DraftedMore(limits, cache.cfg, cache.Corpus(), contexts, sampled, drafts, d);
        drafts := drafts + [d];
      }
    }

    /** One step. Refused arguments change nothing. Otherwise every row's context is kept for the next
        step, each snapshot no row continues is added to the corpus once, and every row gets the draft
        that always computing both candidates would give it. */
    method Run(sampled: seq<seq<int>>, counts: seq<int>, tokens: seq<seq<int>>, cols: nat) returns (r: Outcome)
      requires Valid() && forall i :: 0 <= i < |tokens| ==> |tokens[i]| == cols
      modifies this, cache
      ensures Valid()
      ensures r == Failed <==> !Acceptable(limits, maxRows, |sampled|, counts, tokens, cols)
      ensures r == Failed ==> rows == old(rows) && cache.Corpus() == old(cache.Corpus()) && calls == old(calls)
      ensures r.Ok? ==>
        var batch := BatchRows(|sampled|, counts, tokens);
        && rows == Contexts(Slots(old(rows)), batch) && calls == old(calls) + 1
        && cache.Corpus() == AllAdded(old(cache.Corpus()), cache.cfg, old(cache.next), Rows(Left(Slots(old(rows)), batch, |batch|)))
        && |r.drafts| == |sampled| && proposed == old(proposed) + Lengths(r.drafts)
        && suffixProposals + ngramProposals == old(suffixProposals) + old(ngramProposals) + NonEmpty(r.drafts)
        && AllDrafted(limits, cache.cfg, cache.Corpus(), rows, sampled, r.drafts)
    {
      var size := |sampled|;
      if size > maxRows || |counts| < size || |tokens| < size { return Failed; }
      for i := 0 to size
        invariant forall x :: 0 <= x < i ==> 0 <= counts[x] <= cols && counts[x] <= limits.maxLen
      {
        if counts[i] < 0 || counts[i] > cols || counts[i] > limits.maxLen { return Failed; }
      }
      var current, left := Match(rows, BatchRows(size, counts, tokens));
      AddLeft(left);
      var drafts := DraftAll(current, sampled);
      rows, calls := current, calls + 1;
      r := Ok(drafts);
    }
  }

  /** When boundary windows tell prefixes for the snapshots at hand, the contexts are the rows. */
  lemma ContextsAreRows(slots: seq<Slot>, rows: seq<seq<int>>)
    requires forall i :: 0 <= i < |rows| ==> Snapshot(slots, rows, i) <= rows[i]
    ensures Contexts(slots, rows) == rows
  {
    forall i | 0 <= i < |rows| ensures Contexts(slots, rows)[i] == rows[i] { ContextExact(slots, rows, i); }
  }
}
