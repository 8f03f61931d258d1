/** HybridMixer of src/mixer.rs: per-request state over native drafts and the suffix cache. */
module Mixer {
  import opened IntMath
  import opened Wrappers
  import opened SuffixCorpus
  import opened SuffixDraft
  import opened EngineRows
  import opened MixRow
  import opened DivergeRow
  import opened MixBatch
  import SuffixCache
  import Ngram

  datatype Outcome = Failed | Ok(drafts: seq<seq<int>>)

  function Ids(ids: seq<int>): set<int> { set id | id in ids }

  lemma {:induction false} IdsSize(ids: seq<int>)
    ensures |Ids(ids)| <= |ids| && (|Ids(ids)| == |ids| <==> Distinct(ids))
  {
    if ids == [] {
      assert Ids(ids) == {};
    } else {
      var init, x := ids[..|ids| - 1], ids[|ids| - 1];
      IdsSize(init);
      assert ids == init + [x];
      assert Ids(ids) == Ids(init) + {x};
      if x in init {
        var i :| 0 <= i < |init| && init[i] == x;
        assert ids[i] == ids[|ids| - 1];
        assert Ids(ids) == Ids(init);
      }
      assert Distinct(ids) <==> Distinct(init) && x !in init;
    }
  }

  predicate AllGood(s: Settings, previous: map<int, Previous>) {
    forall id :: id in previous ==> Good(s.k, previous[id]) && TrackedOk(Some(previous[id]))
  }

  lemma GoodFed(s: Settings, was: map<int, Previous>, now: map<int, Previous>, b: Batch)
    requires AllGood(s, was) && Acceptable(s, was, b) && Fed(was, now, b, |b.ids|)
    ensures AllGood(s, now)
  {
    assert b.ids[..|b.ids|] == b.ids;
    forall id | id in now ensures Good(s.k, now[id]) && TrackedOk(Some(now[id])) {
      if id in b.ids {
        var i :| 0 <= i < |b.ids| && b.ids[i] == id;
        assert Lookup(now, b.ids[i]) == RowWas(was, b, i);
        assert b.accepted.Some? ==> Credible(was, b.ids[i], b.accepted.value[i]);
        TrainedGood(s.k, was[id], Acc(b, i));
      }
    }
  }

  class HybridMixer {
    const cache: SuffixCache.Cache
    const settings: Settings
    var previous: map<int, Previous>
    var wins: seq<Win>
    var lastNative: seq<nat>
    var stats: Stats
    var calls: nat
    var decisions: nat

    ghost predicate Valid()
      reads this, cache
    {
      cache.Valid() && SettingsOk(settings) && WinsOk(wins) && AllGood(settings, previous)
    }

    constructor (cache: SuffixCache.Cache, settings: Settings)
      requires cache.Valid() && SettingsOk(settings)
      ensures Valid() && this.cache == cache && this.settings == settings && previous == map[] && calls == 0 && decisions == 0
    {
      this.cache, this.settings := cache, settings;
      previous, wins, lastNative := map[], seq(BUCKETS, i => Win(0.0, 0.0)), [];
      stats, calls, decisions := Stats(0, 0, 0, 0, 0, 0), 0, 0;
    }

    /** The checks made before anything changes. */
    method Validate(b: Batch) returns (ok: bool)
      ensures ok <==> Acceptable(settings, previous, b)
    {
      IdsSize(b.ids);
      ok := |b.ids| <= 4096 && |b.natives| == |b.ids| && (b.accepted.Some? ==> |b.accepted.value| == |b.ids|)
        && |Ids(b.ids)| == |b.ids| && (forall i :: 0 <= i < |b.natives| ==> NativeOk(settings, b.natives[i]))
        && |b.rows| == |b.ids| && forall i :: 0 <= i < |b.rows| ==> |b.rows[i]| <= settings.maxLen;
      if ok && b.accepted.Some? {
        ok := forall i :: 0 <= i < |b.ids| ==> Credible(previous, b.ids[i], b.accepted.value[i]);
      }
    }

    method Feedback(b: Batch)
      requires Shaped(settings, b)
      modifies `previous, `stats
      ensures Fed(old(previous), previous, b, |b.ids|) && stats == TestedTo(old(stats), old(previous), b, |b.ids|)
    {
      for i := 0 to |b.ids|
        invariant Fed(old(previous), previous, b, i) && stats == TestedTo(old(stats), old(previous), b, i)
      {
        ghost var before := previous;
        if b.accepted.Some? && b.accepted.value[i] >= 0 && b.ids[i] in previous {
          var p, accepted := previous[b.ids[i]], b.accepted.value[i];
          stats := Tested(stats, p, accepted);
          previous := previous[b.ids[i] := Trained(p, accepted)];
        } else if b.ids[i] in previous {
          assert previous == previous[b.ids[i] := Trained(previous[b.ids[i]], Acc(b, i))];
        }
        FedOne(old(previous), before, b, i, previous);
      }
    }

    /** Requests that are no longer in the batch donate their histories, in whatever order they are found. */
    method Retire(b: Batch) returns (ghost order: seq<int>)
      requires Valid()
      modifies `previous, cache
      ensures Valid() && Departs(old(previous), b.ids, order)
      ensures forall id :: id in previous <==> id in old(previous) && id in b.ids
      ensures forall id :: id in previous ==> previous[id] == old(previous)[id]
      ensures cache.Corpus() == AllAdded(old(cache.Corpus()), cache.cfg, old(cache.next), Histories(old(previous), order))
      ensures cache.next == NextAll(cache.cfg, old(cache.next), Histories(old(previous), order))
    {
      var gone := previous.Keys - Ids(b.ids);
      order := [];
      while gone != {}
        invariant cache.Valid() && Distinct(order)
        invariant forall id :: id in gone <==> id in previous && id !in b.ids
        invariant forall id :: id in order <==> id in old(previous) && id !in previous
        invariant forall id :: id in previous ==> id in old(previous) && previous[id] == old(previous)[id]
        invariant forall id :: id in old(previous) && id in b.ids ==> id in previous
        invariant cache.Corpus() == AllAdded(old(cache.Corpus()), cache.cfg, old(cache.next), Histories(old(previous), order))
        invariant cache.next == NextAll(cache.cfg, old(cache.next), Histories(old(previous), order))
        decreases |gone|
      {
        SuffixCache.HasMember(gone);
        var id :| id in gone;
        ghost var h := Histories(old(previous), order);
        HistoriesMore(old(previous), order, id);
        assert (h + [previous[id].context])[..|h|] == h;
        cache.Add(previous[id].context);
        previous, gone, order := previous - {id}, gone - {id}, order + [id];
      }
    }

    /** Hand a slot's old history to the corpus when a different request has taken it. */
    method Finalize(windows: bool, id: int, row: seq<int>)
      requires Valid()
      modifies cache
      ensures Valid()
      ensures cache.Corpus() == AfterReset(old(cache.Corpus()), cache.cfg, old(cache.next), windows, Lookup(previous, id), row)
      ensures cache.next == NextReset(cache.cfg, old(cache.next), windows, Lookup(previous, id), row)
    {
      if id in previous && !Extends(windows, previous[id].context, row) { cache.Add(previous[id].context); }
    }

    // ---- the default split ----------------------------------------------

    /** How many leading tokens are native, from a length on that is known to be. */
    static method CountNative(combined: seq<int>, native: seq<int>, start: nat) returns (n: nat)
      requires start <= |combined| && start <= |native| && combined[..start] == native[..start]
      ensures n == CommonPrefix(combined, native)
    {
      n := start;
      while n < |combined| && n < |native| && combined[n] == native[n]
        invariant n <= |combined| && n <= |native| && combined[..n] == native[..n]
      {
        n := n + 1;
      }
      CommonPrefixIs(combined, native, n);
    }

    static method Publish(native: seq<int>, cap: nat, prefix: nat, suffix: seq<int>, echo: bool, gate: Option<real>) returns (draft: seq<int>, count: nat)
      requires prefix <= cap <= |native|
      ensures draft == Published(native, cap, prefix, suffix, echo, gate) && count == CommonPrefix(draft, native)
    {
      if suffix == [] || echo {
        draft, count := native[..cap], cap;
        CommonPrefixIs(draft, native, cap);
      } else {
        var keep := Max(prefix - 1, 0);
        var over := prefix > keep && |suffix| >= prefix - keep && Open(gate);
        var combined := if over then native[..keep] + suffix else native[..prefix] + First(suffix, cap - prefix);
        draft := First(combined, cap);
        KeptNative(native, cap, prefix, suffix, echo, gate, keep);
        count := CountNative(draft, native, keep);
      }
    }

    /** The lookup of a row in the bounded window, which stands for the whole context. */
    method LookUpRow(windows: bool, was: Option<Previous>, row: seq<int>, native: seq<int>, cap: nat, prefix: nat) returns (suffix: seq<int>, ghost score: real, ghost best: nat)
      requires cache.Valid() && SettingsOk(settings) && cap == CapFor(settings, windows, was, row, native)
      requires prefix == RowPrefix(settings, cache.Corpus(), windows, was, row, native)
      ensures Looked(settings, cache.cfg, cache.Corpus(), windows, was, row, native, suffix, score, best)
    {
      var key := Conditioned(cache.cfg.depth, Tracked(windows, was, row), Delta(windows, was, row), native, prefix);
      suffix, score, best := cache.Speculate(key, cap);
      LookedIn(settings, cache.cfg, cache.Corpus(), windows, was, row, native, cap, prefix, key, suffix, score, best);
    }

    /** The draft of a row once its slot is ready, and what is kept of it. */
    method DraftLegacy(windows: bool, was: Option<Previous>, row: seq<int>, native: seq<int>) returns (draft: seq<int>, now: Previous)
      requires Valid()
      ensures LegacyRow(settings, cache.cfg, cache.Corpus(), windows, was, row, native, draft, now)
      ensures now.native == CommonPrefix(draft, native)
    {
      var link, cap := LinkOf(windows, was, row), CapFor(settings, windows, was, row, native);
      var budget := Budget(settings, cache.tokens > 0, Estimate(settings, was, link), cap);
      var prefix, count := Prefix(link, budget, cap), 0;
      var suffix, score, best := LookUpRow(windows, was, row, native, cap, prefix);
      draft, count := Publish(native, cap, prefix, suffix, !link.Continuing?, Quality(was));
      now := Previous(NewContext(windows, was, row), count, |draft|, budget, Estimate(settings, was, link),
                      if link.Continuing? then Quality(was) else None, |draft| > count, match was case Some(p) => p.div case None => None);
      assert draft == RowDraft(settings, cache.Corpus(), windows, was, row, native, suffix);
    }

    /** The second addition of a reset: the slot's context has been taken already, so it adds nothing. */
    method AddTaken()
      requires cache.Valid()
      modifies cache
      ensures cache.Valid() && cache.Corpus() == old(cache.Corpus()) && cache.next == old(cache.next)
    {
      cache.Add([]);
    }

    method Store(id: int, now: Previous)
      requires Valid() && Good(settings.k, now) && TrackedOk(Some(now))
      modifies `previous
      ensures Valid() && previous == old(previous)[id := now]
    {
      previous := previous[id := now];
    }

    method LegacyStep(windows: bool, id: int, row: seq<int>, native: seq<int>) returns (draft: seq<int>, count: nat, ghost now: Previous)
      requires Valid()
      modifies `previous, cache
      ensures Valid() && previous == old(previous)[id := now]
      ensures cache.Corpus() == AfterReset(old(cache.Corpus()), cache.cfg, old(cache.next), windows, Lookup(old(previous), id), row)
      ensures cache.next == NextReset(cache.cfg, old(cache.next), windows, Lookup(old(previous), id), row)
      ensures LegacyRow(settings, cache.cfg, cache.Corpus(), windows, Lookup(old(previous), id), row, native, draft, now)
      ensures count == CommonPrefix(draft, native)
    {
      var was := Lookup(previous, id);
      Finalize(windows, id, row);
      var kept;
      draft, kept := DraftLegacy(windows, was, row, native);
      LegacyShape(settings, cache.cfg, cache.Corpus(), windows, was, row, native, draft, kept);
      LegacyDiv(settings, cache.cfg, cache.Corpus(), windows, was, row, native, draft, kept);
      if LinkOf(windows, was, row).Reset? { AddTaken(); }
      Store(id, kept);
      count, now := kept.native, kept;
    }

    // ---- diverge mode ---------------------------------------------------

    /** Grade both sources where they disagreed, if the true token is known. */
    method Resolve(windows: bool, was: Option<Previous>, row: seq<int>, accepted: int)
      requires WinsOk(wins) && TrackedOk(was)
      modifies `wins
      ensures wins == Resolved(old(wins), windows, was, row, accepted)
    {
      if LinkOf(windows, was, row).Continuing? && was.value.div.Some? {
        var d, delta := was.value.div.value, Delta(windows, was, row);
        if accepted >= d.j && |delta| > d.j {
          wins := wins[d.bucket := Graded(wins[d.bucket], delta[d.j] == d.suffixTok, delta[d.j] == d.nativeTok)];
        }
      }
    }

    /** The order an n-gram score stands for. */
    static method Order(score: real, ghost h: Ngram.Hit) returns (n: nat)
      requires score == Ngram.OrderScore(h)
      ensures n == if h.Hit? then h.n else 0
    {
      OrderOf(if h.Hit? then h.n else 0, score);
      n := (score / (1.0 - score) + 0.5).Floor;
    }

    method Seek(context: seq<int>, cap: nat) returns (cand: Candidate)
      requires Valid()
      ensures Sought(settings, cache.cfg, cache.Corpus(), context, cap, cand) && |cand.toks| <= cap
    {
      var suffix, score, best := cache.Speculate(context, cap);
      cand := Candidate(suffix, best, false);
      if |suffix| < cap && settings.hi >= settings.lo {
        var ng, ngScore := Ngram.Ngram(context, settings.lo, settings.hi, cap, settings.window);
        var order := Order(ngScore, Ngram.Found(context, settings.lo, settings.hi, cap, settings.window));
        if |ng| > |suffix| || (ng != [] && order > best) { cand := Candidate(ng, order, true); }
      }
      cand := cand.(toks := First(cand.toks, cap));
      assert cand == Chosen(settings, context, cap, suffix, best);
    }

    /** The draft of a row once its slot and counts are ready, and what is kept of it. */
    method DraftDiverged(windows: bool, was: Option<Previous>, row: seq<int>, native: seq<int>) returns (draft: seq<int>, now: Previous, tail: nat, ghost cand: Candidate)
      requires Valid() && TrackedOk(was)
      ensures DivergedRow(settings, cache.cfg, cache.Corpus(), wins, windows, was, row, native, cand, draft, now)
      ensures tail == SuffixCount(settings, wins, cand, native)
    {
      var context, cap := NewContext(windows, was, row), CapFor(settings, windows, was, row, native);
      var found := Seek(context, cap);
      cand := found;
      var j := CountNative(found.toks, native, 0);
      var count, div := cap, None;
      draft, tail := native[..cap], 0;
      if j < |found.toks| {
        var bucket := Bucket(found.inContext, found.matched);
        div := Some(Divergence(j, found.toks[j], native[j], bucket));
        if Trust(wins[bucket]) > settings.threshold {
          draft, count, tail := found.toks + draft[|found.toks|..], j, |found.toks| - j;
        }
      }
      now := Previous(context, count, |draft|, cap, match was case Some(p) => p.estimate case None => settings.k as real,
                      Quality(was), count < cap, div);
    }

    method DivergeStep(windows: bool, id: int, row: seq<int>, native: seq<int>, accepted: int)
      returns (draft: seq<int>, count: nat, tail: nat, ghost now: Previous, ghost cand: Candidate)
      requires Valid()
      modifies `previous, `wins, cache
      ensures Valid() && previous == old(previous)[id := now]
      ensures cache.Corpus() == AfterReset(old(cache.Corpus()), cache.cfg, old(cache.next), windows, Lookup(old(previous), id), row)
      ensures cache.next == NextReset(cache.cfg, old(cache.next), windows, Lookup(old(previous), id), row)
      ensures TrackedOk(Lookup(old(previous), id)) && wins == Resolved(old(wins), windows, Lookup(old(previous), id), row, accepted)
      ensures DivergedRow(settings, cache.cfg, cache.Corpus(), wins, windows, Lookup(old(previous), id), row, native, cand, draft, now)
      ensures count == now.native && tail == SuffixCount(settings, wins, cand, native)
    {
      var was := Lookup(previous, id);
      Resolve(windows, was, row, accepted);
      Finalize(windows, id, row);
      var kept;
      draft, kept, tail, cand := DraftDiverged(windows, was, row, native);
      DivergeShape(settings, cache.cfg, cache.Corpus(), wins, windows, was, row, native, cand, draft, kept);
      Store(id, kept);
      count, now := kept.native, kept;
    }

    // ---- a call ---------------------------------------------------------

    /** Corpus and counts are those of the first i rows. */
    ghost predicate At(b: Batch, st: Start, order: seq<int>, i: nat)
      reads this, cache
      requires i <= |b.ids|
    {
      Ready(settings, st, b, order) && Stage(settings, cache.cfg, st, b, order, i, cache.Corpus(), cache.next, wins)
    }

    method RowStep(b: Batch, i: nat, ghost st: Start, ghost order: seq<int>) returns (draft: seq<int>, count: nat, tail: nat, ghost now: Previous)
      requires Valid() && i < |b.ids| && At(b, st, order, i) && Lookup(previous, b.ids[i]) == RowWas(st.previous, b, i)
      modifies `previous, `wins, cache
      ensures Valid() && At(b, st, order, i + 1) && previous == old(previous)[b.ids[i] := now]
      ensures RowDone(settings, cache.cfg, st, b, order, i, draft, now) && count == now.native
      ensures count + tail <= |draft| && (!settings.diverge ==> count + tail == |draft|)
    {
      ghost var c, next, w, was := cache.Corpus(), cache.next, wins, RowWas(st.previous, b, i);
      if settings.diverge {
        ghost var cand;
        draft, count, tail, now, cand := DivergeStep(b.windows, b.ids[i], b.rows[i], b.natives[i], Acc(b, i));
        FillerUncounted(settings, cache.cfg, cache.Corpus(), wins, b.windows, was, b.rows[i], b.natives[i], cand, draft, now);
        StageNext(settings, cache.cfg, st, b, order, i, c, next, w, cache.Corpus(), cache.next, wins);
        assert Diverged(settings, cache.cfg, cache.Corpus(), wins, b.windows, was, b.rows[i], b.natives[i], draft, now);
      } else {
        draft, count, now := LegacyStep(b.windows, b.ids[i], b.rows[i], b.natives[i]);
        tail := |draft| - count;
        StageNext(settings, cache.cfg, st, b, order, i, c, next, w, cache.Corpus(), cache.next, wins);
      }
    }

    /** The first i rows have their drafts, and the others wait. */
    ghost predicate Progress(b: Batch, st: Start, order: seq<int>, i: nat, drafts: seq<seq<int>>)
      reads this, cache
      requires i <= |b.ids| && SettingsOk(settings)
    {
      At(b, st, order, i) && HalfDone(settings, cache.cfg, st, b, order, i, drafts, previous, lastNative)
    }

    method RowTurn(b: Batch, i: nat, ghost st: Start, ghost order: seq<int>, ghost drafts: seq<seq<int>>) returns (draft: seq<int>, count: nat, tail: nat)
      requires Valid() && i < |b.ids| && Progress(b, st, order, i, drafts)
      modifies `previous, `wins, cache
      ensures Valid() && At(b, st, order, i + 1) && count + tail <= |draft| && (!settings.diverge ==> count + tail == |draft|)
      ensures HalfDone(settings, cache.cfg, st, b, order, i + 1, drafts + [draft], previous, lastNative + [count])
    {
      ghost var was := previous;
      ghost var now;
      draft, count, tail, now := RowStep(b, i, st, order);
      DoneOne(settings, cache.cfg, st, b, order, i, drafts, was, lastNative, draft, now);
    }

    method RowNext(b: Batch, i: nat, ghost st: Start, ghost order: seq<int>, ghost drafts: seq<seq<int>>) returns (draft: seq<int>, count: nat)
      requires Valid() && i < |b.ids| && Progress(b, st, order, i, drafts)
      modifies this, cache
      ensures Valid() && Progress(b, st, order, i + 1, drafts + [draft]) && calls == old(calls) && decisions == old(decisions) + 1
      ensures Accounted(settings, old(stats), stats, count, |draft|) && lastNative == old(lastNative) + [count]
    {
      var tail;
      draft, count, tail := RowTurn(b, i, st, order, drafts);
      Record(count, tail, |draft|, b, i + 1, st, order, drafts + [draft]);
    }

    method Record(count: nat, tail: nat, ghost length: nat, ghost b: Batch, ghost i: nat, ghost st: Start, ghost order: seq<int>, ghost drafts: seq<seq<int>>)
      requires Valid() && i <= |b.ids| && At(b, st, order, i) && count + tail <= length && (!settings.diverge ==> count + tail == length)
      requires HalfDone(settings, cache.cfg, st, b, order, i, drafts, previous, lastNative + [count])
      modifies `stats, `lastNative, `decisions
      ensures Valid() && Progress(b, st, order, i, drafts)
      ensures lastNative == old(lastNative) + [count] && decisions == old(decisions) + 1
      ensures Accounted(settings, old(stats), stats, count, length)
    {
      stats, lastNative, decisions := Proposed(stats, count, tail), lastNative + [count], decisions + 1;
    }

    /** The rows of a call, in order. */
    method Rows(b: Batch, ghost st: Start, ghost order: seq<int>) returns (drafts: seq<seq<int>>)
      requires Valid() && lastNative == [] && Progress(b, st, order, 0, [])
      modifies this, cache
      ensures Valid() && Progress(b, st, order, |b.ids|, drafts) && calls == old(calls) && decisions == old(decisions) + |b.ids|
      ensures Tallied(settings, old(stats), stats, drafts, lastNative)
    {
      drafts := [];
      for i := 0 to |b.ids|
        invariant Valid() && Progress(b, st, order, i, drafts) && calls == old(calls) && decisions == old(decisions) + i
        invariant Tallied(settings, old(stats), stats, drafts, lastNative)
      {
        ghost var was, counts := stats, lastNative;
        var draft, count := RowNext(b, i, st, order, drafts);
        TallyOne(settings, old(stats), was, stats, drafts, counts, draft, count);
        drafts := drafts + [draft];
      }
    }

    /** Feedback, then departures: the state in which the rows are taken up. */
    method Begin(b: Batch, ghost st: Start) returns (ghost order: seq<int>)
      requires Valid() && Acceptable(settings, previous, b) && st == Start(cache.Corpus(), cache.next, previous, wins)
      modifies this, cache
      ensures Valid() && lastNative == [] && Progress(b, st, order, 0, []) && calls == old(calls) && decisions == old(decisions)
      ensures stats == TestedTo(old(stats), st.previous, b, |b.ids|)
    {
      Feedback(b);
      GoodFed(settings, st.previous, previous, b);
      ghost var fed := previous;
      order := Retire(b);
      lastNative := [];
      BeginReady(settings, cache.cfg, st, b, order, fed, previous);
    }

    method MixAccepted(b: Batch) returns (drafts: seq<seq<int>>, ghost order: seq<int>)
      requires Valid() && Acceptable(settings, previous, b)
      modifies this, cache
      ensures Valid() && calls == old(calls) + 1 && decisions == old(decisions) + |b.ids|
      ensures var st := Start(old(cache.Corpus()), old(cache.next), old(previous), old(wins));
        && Mixed(settings, cache.cfg, st, b, order, drafts, cache.Corpus(), cache.next, wins, previous, lastNative)
        && Tallied(settings, TestedTo(old(stats), st.previous, b, |b.ids|), stats, drafts, lastNative)
    {
      ghost var st := Start(cache.Corpus(), cache.next, previous, wins);
      order := Begin(b, st);
      drafts := Rows(b, st, order);
      calls := calls + 1;
      AllTracked(settings, cache.cfg, st, b, order, drafts, previous, lastNative);
    }

    /** One call. Refused arguments change nothing. Otherwise every request that was tracked is either
        continued by its row or its history is added to the corpus once, departures before resets; every
        row gets the draft that its context, its estimates and the corpus at its turn determine; just the
        requests of the call are tracked afterwards; and the counters account for feedback and drafts. */
    method Mix(b: Batch) returns (r: Outcome, ghost order: seq<int>)
      requires Valid()
      modifies this, cache
      ensures Valid()
      ensures r == Failed <==> !Acceptable(settings, old(previous), b)
      ensures r == Failed ==> unchanged(this) && unchanged(cache)
      ensures r.Ok? ==>
        var st := Start(old(cache.Corpus()), old(cache.next), old(previous), old(wins));
        && calls == old(calls) + 1 && decisions == old(decisions) + |b.ids|
        && Mixed(settings, cache.cfg, st, b, order, r.drafts, cache.Corpus(), cache.next, wins, previous, lastNative)
        && Tallied(settings, TestedTo(old(stats), st.previous, b, |b.ids|), stats, r.drafts, lastNative)
    {
      var ok := Validate(b);
      if ok {
        var drafts;
        drafts, order := MixAccepted(b);
        r := Ok(drafts);
      } else {
        r, order := Failed, [];
      }
    }
  }

  /** What a call that is accepted leaves behind, started from st. */
  ghost predicate Mixed(s: Settings, cfg: Config, st: Start, b: Batch, order: seq<int>, drafts: seq<seq<int>>,
                        c: seq<Entry>, next: nat, wins: seq<Win>, previous: map<int, Previous>, counts: seq<nat>)
  {
    && SettingsOk(s) && Ready(s, st, b, order) && Stage(s, cfg, st, b, order, |b.ids|, c, next, wins)
    && AllDone(s, cfg, st, b, order, |b.ids|, drafts, previous, counts)
    && forall id :: id in previous <==> id in b.ids
  }

  /** Native and suffix tokens are all of the draft, or less where a short candidate has been filled up. */
  predicate Accounted(s: Settings, was: Stats, now: Stats, count: nat, length: nat) {
    var tail := now.suffixProposed - was.suffixProposed;
    && tail >= 0 && now == Proposed(was, count, tail) && count + tail <= length && (!s.diverge ==> count + tail == length)
  }

  ghost predicate Stage(s: Settings, cfg: Config, st: Start, b: Batch, order: seq<int>, i: nat, c: seq<Entry>, next: nat, wins: seq<Win>)
    requires Ready(s, st, b, order) && i <= |b.ids|
  {
    c == CorpusAt(cfg, st, b, order, i) && next == NextAt(cfg, st, b, order, i) && wins == WinsAt(s, st, b, order, i)
  }

  lemma StageNext(s: Settings, cfg: Config, st: Start, b: Batch, order: seq<int>, i: nat, c: seq<Entry>, next: nat, wins: seq<Win>,
                  c': seq<Entry>, next': nat, wins': seq<Win>)
    requires Ready(s, st, b, order) && i < |b.ids| && Stage(s, cfg, st, b, order, i, c, next, wins)
    requires c' == AfterReset(c, cfg, next, b.windows, RowWas(st.previous, b, i), b.rows[i])
    requires next' == NextReset(cfg, next, b.windows, RowWas(st.previous, b, i), b.rows[i])
    requires TrackedOk(RowWas(st.previous, b, i)) && WinsOk(wins)
    requires wins' == if s.diverge then Resolved(wins, b.windows, RowWas(st.previous, b, i), b.rows[i], Acc(b, i)) else wins
    ensures Stage(s, cfg, st, b, order, i + 1, c', next', wins')
  {
    RowAdds(cfg, s, st, b, order, i);
  }

  /** Rows from i on still have what they start from, and nothing else is tracked. */
  ghost predicate Waiting(st: Start, b: Batch, i: nat, previous: map<int, Previous>)
    requires b.accepted.Some? ==> |b.accepted.value| == |b.ids|
  {
    && (forall j :: i <= j < |b.ids| ==> Lookup(previous, b.ids[j]) == RowWas(st.previous, b, j))
    && forall id :: id in previous ==> id in b.ids
  }

  lemma WaitingNext(s: Settings, st: Start, b: Batch, order: seq<int>, i: nat, previous: map<int, Previous>, now: Previous)
    requires Ready(s, st, b, order) && i < |b.ids| && Waiting(st, b, i, previous)
    ensures Waiting(st, b, i + 1, previous[b.ids[i] := now])
  {
    var next := previous[b.ids[i] := now];
    forall j | i + 1 <= j < |b.ids| ensures Lookup(next, b.ids[j]) == RowWas(st.previous, b, j) { assert b.ids[i] != b.ids[j]; }
  }

  lemma AllTracked(s: Settings, cfg: Config, st: Start, b: Batch, order: seq<int>, drafts: seq<seq<int>>, previous: map<int, Previous>, counts: seq<nat>)
    requires SettingsOk(s) && Ready(s, st, b, order) && AllDone(s, cfg, st, b, order, |b.ids|, drafts, previous, counts)
    ensures forall id :: id in b.ids ==> id in previous
  {
    forall id | id in b.ids ensures id in previous {
      var i :| 0 <= i < |b.ids| && b.ids[i] == id;
      assert DoneAt(s, cfg, st, b, order, i, drafts[i], previous, counts[i]);
    }
  }

  lemma LookedIn(s: Settings, cfg: Config, c: seq<Entry>, windows: bool, was: Option<Previous>, row: seq<int>, native: seq<int>,
                 cap: nat, prefix: nat, key: seq<int>, suffix: seq<int>, score: real, best: nat)
    requires s.k >= 1 && cap == CapFor(s, windows, was, row, native) && prefix == RowPrefix(s, c, windows, was, row, native)
    requires key == Conditioned(cfg.depth, Tracked(windows, was, row), Delta(windows, was, row), native, prefix)
    requires Speculated(cfg, c, key, cap, suffix, score, best)
    ensures Looked(s, cfg, c, windows, was, row, native, suffix, score, best)
  {
    ConditionedIsWhole(cfg, c, Tracked(windows, was, row), Delta(windows, was, row), native, prefix, cap, suffix, score, best);
  }

  lemma LegacyDiv(s: Settings, cfg: Config, c: seq<Entry>, windows: bool, was: Option<Previous>, row: seq<int>, native: seq<int>,
                  draft: seq<int>, now: Previous)
    requires s.k >= 1 && TrackedOk(was) && LegacyRow(s, cfg, c, windows, was, row, native, draft, now)
    ensures TrackedOk(Some(now))
  {}

  function Sum(counts: seq<nat>): nat { if counts == [] then 0 else Sum(counts[..|counts| - 1]) + counts[|counts| - 1] }

  function Slots(drafts: seq<seq<int>>): nat { if drafts == [] then 0 else Slots(drafts[..|drafts| - 1]) + |drafts[|drafts| - 1]| }

  /** The proposed counters have grown by the native counts and by the other slots of the drafts, or, in
      diverge mode, by no more than those; the tested and accepted ones have not changed. */
  predicate Tallied(s: Settings, was: Stats, now: Stats, drafts: seq<seq<int>>, counts: seq<nat>) {
    var tail := now.suffixProposed - was.suffixProposed;
    && tail >= 0 && now == Proposed(was, Sum(counts), tail)
    && Sum(counts) + tail <= Slots(drafts) && (!s.diverge ==> Sum(counts) + tail == Slots(drafts))
  }

  lemma TallyOne(s: Settings, first: Stats, was: Stats, now: Stats, drafts: seq<seq<int>>, counts: seq<nat>, draft: seq<int>, count: nat)
    requires Tallied(s, first, was, drafts, counts) && Accounted(s, was, now, count, |draft|)
    ensures Tallied(s, first, now, drafts + [draft], counts + [count])
  {
    assert (counts + [count])[..|counts|] == counts && (drafts + [draft])[..|drafts|] == drafts;
  }

  /** The first m rows have been given their drafts, and what is kept of each is its outcome. */
  ghost predicate AllDone(s: Settings, cfg: Config, st: Start, b: Batch, order: seq<int>, m: nat, drafts: seq<seq<int>>,
                          previous: map<int, Previous>, counts: seq<nat>)
    requires SettingsOk(s) && Ready(s, st, b, order) && m <= |b.ids|
  {
    |drafts| == m && |counts| == m
    && forall i :: 0 <= i < m ==> DoneAt(s, cfg, st, b, order, i, drafts[i], previous, counts[i])
  }

  ghost predicate DoneAt(s: Settings, cfg: Config, st: Start, b: Batch, order: seq<int>, i: nat, draft: seq<int>,
                         previous: map<int, Previous>, count: nat)
    requires SettingsOk(s) && Ready(s, st, b, order) && i < |b.ids|
  {
    b.ids[i] in previous && RowDone(s, cfg, st, b, order, i, draft, previous[b.ids[i]]) && count == previous[b.ids[i]].native
  }

  ghost predicate HalfDone(s: Settings, cfg: Config, st: Start, b: Batch, order: seq<int>, m: nat, drafts: seq<seq<int>>,
                           previous: map<int, Previous>, counts: seq<nat>)
    requires SettingsOk(s) && Ready(s, st, b, order) && m <= |b.ids|
  {
    Waiting(st, b, m, previous) && AllDone(s, cfg, st, b, order, m, drafts, previous, counts)
  }

  lemma DoneOne(s: Settings, cfg: Config, st: Start, b: Batch, order: seq<int>, m: nat, drafts: seq<seq<int>>,
                previous: map<int, Previous>, counts: seq<nat>, draft: seq<int>, now: Previous)
    requires SettingsOk(s) && Ready(s, st, b, order) && m < |b.ids| && HalfDone(s, cfg, st, b, order, m, drafts, previous, counts)
    requires RowDone(s, cfg, st, b, order, m, draft, now)
    ensures HalfDone(s, cfg, st, b, order, m + 1, drafts + [draft], previous[b.ids[m] := now], counts + [now.native])
  {
    WaitingNext(s, st, b, order, m, previous, now);
    var next := previous[b.ids[m] := now];
    forall i | 0 <= i < m ensures DoneAt(s, cfg, st, b, order, i, (drafts + [draft])[i], next, (counts + [now.native])[i]) {
      assert DoneAt(s, cfg, st, b, order, i, drafts[i], previous, counts[i]) && b.ids[i] != b.ids[m];
    }
  }

  lemma SameHistories(was: map<int, Previous>, now: map<int, Previous>, b: Batch, order: seq<int>)
    requires b.accepted.Some? ==> |b.accepted.value| == |b.ids|
    requires Fed(was, now, b, |b.ids|)
    ensures Histories(now, order) == Histories(was, order)
  {
    assert b.ids[..|b.ids|] == b.ids;
    forall id ensures History(now, id) == History(was, id) {
      if id in was && id in b.ids {
        var i :| 0 <= i < |b.ids| && b.ids[i] == id;
        assert Lookup(now, b.ids[i]) == RowWas(was, b, i);
      }
    }
  }

  lemma BeginReady(s: Settings, cfg: Config, st: Start, b: Batch, order: seq<int>, fed: map<int, Previous>, previous: map<int, Previous>)
    requires SettingsOk(s) && Shaped(s, b) && WinsOk(st.wins) && AllGood(s, st.previous) && Fed(st.previous, fed, b, |b.ids|)
    requires Departs(fed, b.ids, order) && (forall id :: id in previous <==> id in fed && id in b.ids)
    requires forall id :: id in previous ==> previous[id] == fed[id]
    ensures Ready(s, st, b, order) && HalfDone(s, cfg, st, b, order, 0, [], previous, [])
    ensures Stage(s, cfg, st, b, order, 0, AllAdded(st.corpus, cfg, st.next, Histories(fed, order)),
                  NextAll(cfg, st.next, Histories(fed, order)), st.wins)
  {
    SameHistories(st.previous, fed, b, order);
    assert order + [] == order;
    forall j | 0 <= j < |b.ids| ensures Lookup(previous, b.ids[j]) == RowWas(st.previous, b, j) {
      assert Lookup(fed, b.ids[j]) == RowWas(st.previous, b, j);
    }
  }

  /** Boundary windows err on no tracked request of the batch. */
  predicate NotMisled(previous: map<int, Previous>, b: Batch, i: nat)
    requires i < |b.ids| && i < |b.rows|
  {
    b.windows && b.ids[i] in previous && Extends(true, previous[b.ids[i]].context, b.rows[i]) ==> previous[b.ids[i]].context <= b.rows[i]
  }

  /** Where continuity is told right, what is tracked after a call is the rows themselves. */
  lemma TracksRows(s: Settings, cfg: Config, st: Start, b: Batch, order: seq<int>, drafts: seq<seq<int>>, previous: map<int, Previous>,
                   counts: seq<nat>, i: nat)
    requires SettingsOk(s) && Ready(s, st, b, order) && AllDone(s, cfg, st, b, order, |b.ids|, drafts, previous, counts)
    requires i < |b.ids| && NotMisled(st.previous, b, i)
    ensures b.ids[i] in previous && previous[b.ids[i]].context == b.rows[i]
  {
    assert DoneAt(s, cfg, st, b, order, i, drafts[i], previous, counts[i]);
    ContextIsRow(b.windows, RowWas(st.previous, b, i), b.rows[i]);
  }

  /** A row and its draft are within the model's length, if the row is, and no draft is wider than the budget or
      its native draft. */
  lemma RowFits(s: Settings, cfg: Config, c: seq<Entry>, wins: seq<Win>, windows: bool, was: Option<Previous>, row: seq<int>,
                native: seq<int>, draft: seq<int>, now: Previous)
    requires SettingsOk(s) && WinsOk(wins) && (was.Some? ==> Good(s.k, was.value))
    requires if s.diverge then Diverged(s, cfg, c, wins, windows, was, row, native, draft, now)
      else LegacyRow(s, cfg, c, windows, was, row, native, draft, now)
    ensures |draft| <= s.k && |draft| <= |native| && (|row| <= s.maxLen ==> |row| + |draft| <= s.maxLen)
  {
    CapFits(s, windows, was, row, native, |draft|);
    if s.diverge {
      var cand :| DivergedRow(s, cfg, c, wins, windows, was, row, native, cand, draft, now);
      DivergeShape(s, cfg, c, wins, windows, was, row, native, cand, draft, now);
    } else {
      LegacyShape(s, cfg, c, windows, was, row, native, draft, now);
    }
  }

  /** So it is with every row of a call. */
  lemma DraftsFit(s: Settings, cfg: Config, st: Start, b: Batch, order: seq<int>, drafts: seq<seq<int>>, previous: map<int, Previous>,
                  counts: seq<nat>, i: nat)
    requires SettingsOk(s) && Ready(s, st, b, order) && AllDone(s, cfg, st, b, order, |b.ids|, drafts, previous, counts) && i < |b.ids|
    requires AllGood(s, st.previous) && Acceptable(s, st.previous, b)
    ensures |drafts[i]| <= s.k && |drafts[i]| <= |b.natives[i]|
    ensures |b.rows[i]| <= s.maxLen ==> |b.rows[i]| + |drafts[i]| <= s.maxLen
  {
    assert DoneAt(s, cfg, st, b, order, i, drafts[i], previous, counts[i]);
    var was := RowWas(st.previous, b, i);
    if was.Some? {
      assert b.accepted.Some? ==> Credible(st.previous, b.ids[i], b.accepted.value[i]);
      TrainedGood(s.k, st.previous[b.ids[i]], Acc(b, i));
    }
    RowFits(s, cfg, CorpusAt(cfg, st, b, order, i + 1), WinsAt(s, st, b, order, i + 1), b.windows, was, b.rows[i], b.natives[i], drafts[i],
            previous[b.ids[i]]);
  }
}
