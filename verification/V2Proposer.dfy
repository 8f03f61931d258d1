/** V2SuffixProposer of src/mixer.rs: tracked histories, published widths and width gates of the live requests. */
module V2Proposer {
  import opened IntMath
  import opened Wrappers
  import opened SuffixCorpus
  import opened SuffixDraft
  import opened EngineRows
  import opened V2Row
  import SuffixCache
  import MixRow
  import Mixer

  /** The rows of a token buffer of `cols` columns, by index, with the tokens that count in each. */
  datatype Batch = Batch(ids: seq<int>, indices: seq<int>, totals: seq<int>, tokens: seq<seq<int>>, cols: nat)

  datatype Outcome = Failed | Ok(outs: seq<RowOut>)

  predicate Sized(b: Batch) {
    |b.indices| >= |b.ids| && |b.totals| >= |b.ids| && forall r :: 0 <= r < |b.tokens| ==> |b.tokens[r]| == b.cols
  }

  predicate RowOk(s: Settings, b: Batch, i: nat)
    requires Sized(b) && i < |b.ids|
  {
    0 <= b.totals[i] <= b.cols && b.totals[i] <= s.maxLen && Max(b.indices[i], 0) < |b.tokens|
  }

  function RowOf(s: Settings, b: Batch, i: nat): seq<int>
    requires Sized(b) && i < |b.ids|
  {
    if RowOk(s, b, i) then b.tokens[Max(b.indices[i], 0)][..b.totals[i]] else []
  }

  function Lookup<T>(m: map<int, T>, id: int): Option<T> { if id in m then Some(m[id]) else None }

  function Live<T>(m: map<int, T>, ids: seq<int>): map<int, T> { map id | id in m && id in ids :: m[id] }

  // ---- the state as rows are processed ------------------------------------

  datatype State = State(mirror: map<int, seq<int>>, widths: map<int, nat>, gate: map<int, Gate>)

  /** Histories, widths and gates are of the same requests; gates only when they are on. */
  predicate StateOk(s: Settings, t: State) {
    && t.widths.Keys == t.mirror.Keys && t.gate.Keys == (if s.gated then t.mirror.Keys else {})
    && (forall id :: id in t.widths ==> t.widths[id] <= s.k)
    && forall id :: id in t.gate ==> GateOk(s.k, t.gate[id])
  }

  function GateNext(s: Settings, gate: Option<Gate>, tracked: Option<seq<int>>, row: seq<int>, out: RowOut): Gate {
    Gate(match gate case Some(g) => Ewma(g, tracked, row) case None => s.k as real, if s.uniform then s.k else out.matched)
  }

  /** The state after one more row with its outcome. */
  function Next(s: Settings, t: State, id: int, row: seq<int>, out: RowOut): State {
    var tracked := Lookup(t.mirror, id);
    State(t.mirror[id := History(tracked, row)], t.widths[id := out.width],
          if s.gated then t.gate[id := GateNext(s, Lookup(t.gate, id), tracked, row, out)] else t.gate)
  }

  function After(s: Settings, t: State, b: Batch, outs: seq<RowOut>): State
    requires Sized(b) && |outs| <= |b.ids|
  {
    if outs == [] then t
    else
      var i := |outs| - 1;
      Next(s, After(s, t, b, outs[..i]), b.ids[i], RowOf(s, b, i), outs[i])
  }

  /** Row i has the outcome that its history, its gate and the corpus determine. */
  ghost predicate OutcomeOf(s: Settings, cfg: Config, c: seq<Entry>, t: State, id: int, row: seq<int>, out: RowOut)
    requires s.k >= 1
  {
    var tracked := Lookup(t.mirror, id);
    Proposed(s, cfg, c, Limit(s, Lookup(t.gate, id), tracked, row), History(tracked, row), out)
  }

  ghost predicate OutcomeAt(s: Settings, cfg: Config, c: seq<Entry>, t: State, b: Batch, before: seq<RowOut>, out: RowOut)
    requires s.k >= 1 && Sized(b) && |before| < |b.ids|
  {
    RowOk(s, b, |before|) && OutcomeOf(s, cfg, c, After(s, t, b, before), b.ids[|before|], RowOf(s, b, |before|), out)
  }

  ghost predicate Outcomes(s: Settings, cfg: Config, c: seq<Entry>, t: State, b: Batch, outs: seq<RowOut>)
    requires s.k >= 1 && Sized(b) && |outs| <= |b.ids|
  {
    forall i :: 0 <= i < |outs| ==> OutcomeAt(s, cfg, c, t, b, outs[..i], outs[i])
  }

  lemma OneMore(s: Settings, cfg: Config, c: seq<Entry>, t: State, b: Batch, outs: seq<RowOut>, out: RowOut)
    requires SettingsOk(s) && Sized(b) && |outs| < |b.ids| && Outcomes(s, cfg, c, t, b, outs)
    requires OutcomeAt(s, cfg, c, t, b, outs, out)
    ensures Outcomes(s, cfg, c, t, b, outs + [out])
    ensures After(s, t, b, outs + [out]) == Next(s, After(s, t, b, outs), b.ids[|outs|], RowOf(s, b, |outs|), out)
  {
    var more := outs + [out];
    assert more[..|outs|] == outs;
    forall i | 0 <= i < |more| ensures OutcomeAt(s, cfg, c, t, b, more[..i], more[i]) {
      if i < |outs| { assert more[..i] == outs[..i] && OutcomeAt(s, cfg, c, t, b, outs[..i], outs[i]); }
    }
  }

  lemma NextOk(s: Settings, cfg: Config, c: seq<Entry>, t: State, id: int, row: seq<int>, out: RowOut)
    requires SettingsOk(s) && StateOk(s, t) && OutcomeOf(s, cfg, c, t, id, row, out)
    ensures StateOk(s, Next(s, t, id, row, out))
  {
    var tracked := Lookup(t.mirror, id);
    Widths(s, cfg, c, Limit(s, Lookup(t.gate, id), tracked, row), History(tracked, row), out);
    if id in t.gate { EwmaBounds(s.k, t.gate[id], tracked, row); }
  }

  // ---- departures ---------------------------------------------------------

  const SHORTEST := 8

  /** Histories of more than a few tokens, in the order they are found. */
  function Donated(mirror: map<int, seq<int>>, order: seq<int>): seq<seq<int>> {
    if order == [] then []
    else
      var d, id := Donated(mirror, order[..|order| - 1]), order[|order| - 1];
      if id in mirror && |mirror[id]| > SHORTEST then d + [mirror[id]] else d
  }

  ghost predicate Departs(mirror: map<int, seq<int>>, ids: seq<int>, order: seq<int>) {
    (forall i, j :: 0 <= i < j < |order| ==> order[i] != order[j]) && forall id :: id in order <==> id in mirror && id !in ids
  }

  lemma DonatedMore(mirror: map<int, seq<int>>, order: seq<int>, id: int)
    requires id in mirror
    ensures Donated(mirror, order + [id]) == Donated(mirror, order) + (if |mirror[id]| > SHORTEST then [mirror[id]] else [])
  {
    assert (order + [id])[..|order|] == order;
    assert Donated(mirror, order) + [] == Donated(mirror, order);
  }

  /** What a call starts its rows from. */
  function Entered(t: State, ids: seq<int>): State { State(Live(t.mirror, ids), Live(t.widths, ids), Live(t.gate, ids)) }

  function Without<T>(m: map<int, T>, order: seq<int>): map<int, T> { map id | id in m && id !in order :: m[id] }

  /** t is t0 when the requests in `order` have left; those in `gone` are still to go. */
  ghost predicate Leaving(t0: State, t: State, ids: seq<int>, order: seq<int>, gone: set<int>) {
    && (forall i, j :: 0 <= i < j < |order| ==> order[i] != order[j])
    && (forall id :: id in order ==> id in t0.mirror && id !in ids)
    && (forall id :: id in gone <==> id in t0.mirror && id !in ids && id !in order)
    && t == State(Without(t0.mirror, order), Without(t0.widths, order), Without(t0.gate, order))
  }

  lemma LeavingStart(t: State, ids: seq<int>, gone: set<int>)
    requires gone == t.mirror.Keys - Mixer.Ids(ids)
    ensures Leaving(t, t, ids, [], gone)
  {
    assert Without(t.mirror, []) == t.mirror && Without(t.widths, []) == t.widths && Without(t.gate, []) == t.gate;
  }

  lemma LeavingOne(t0: State, t: State, ids: seq<int>, order: seq<int>, gone: set<int>, id: int)
    requires Leaving(t0, t, ids, order, gone) && id in gone
    ensures id in t.mirror && t.mirror[id] == t0.mirror[id]
    ensures Leaving(t0, State(t.mirror - {id}, t.widths - {id}, t.gate - {id}), ids, order + [id], gone - {id})
  {}

  lemma LeavingDone(s: Settings, t0: State, t: State, ids: seq<int>, order: seq<int>, gone: set<int>)
    requires Leaving(t0, t, ids, order, gone) && |gone| == 0 && StateOk(s, t0)
    ensures Departs(t0.mirror, ids, order) && t == Entered(t0, ids) && StateOk(s, t)
  {
    forall id | id in t0.mirror ensures id !in order <==> id in ids { assert id !in gone; }
    SameFilter(t0.mirror, order, ids);
    SameFilter(t0.widths, order, ids);
    SameFilter(t0.gate, order, ids);
    LiveOk(s, t0, ids);
  }

  lemma SameFilter<T>(m: map<int, T>, order: seq<int>, ids: seq<int>)
    requires forall id :: id in m ==> (id !in order <==> id in ids)
    ensures Without(m, order) == Live(m, ids)
  {
    var a, b := Without(m, order), Live(m, ids);
    assert forall id :: id in a.Keys <==> id in b.Keys;
    assert forall id :: id in a ==> a[id] == m[id] == b[id];
  }

  lemma LiveOk(s: Settings, t: State, ids: seq<int>)
    requires StateOk(s, t)
    ensures StateOk(s, Entered(t, ids))
  {}

  /** The proposer with its cache. */
  datatype Sys = Sys(corpus: seq<Entry>, next: nat, state: State)

  /** A call that was not refused: donations, then the outcomes of the rows that were processed. */
  ghost predicate Called(s: Settings, cfg: Config, x: Sys, b: Batch, order: seq<int>, outs: seq<RowOut>, y: Sys)
    requires s.k >= 1 && Sized(b) && |outs| <= |b.ids|
  {
    && Departs(x.state.mirror, b.ids, order)
    && y.corpus == AllAdded(x.corpus, cfg, x.next, Donated(x.state.mirror, order))
    && y.next == NextAll(cfg, x.next, Donated(x.state.mirror, order))
    && Outcomes(s, cfg, y.corpus, Entered(x.state, b.ids), b, outs)
    && y.state == After(s, Entered(x.state, b.ids), b, outs)
  }

  /** All widths retracted, so that the next call takes none of them for feedback. */
  function Cleared(t: State): State {
    State(t.mirror, map id | id in t.widths :: 0, map id | id in t.gate :: Gate(t.gate[id].ewma, 0))
  }

  lemma FirstTwice(s: seq<int>, n: nat, m: nat)
    requires m <= n
    ensures MixRow.First(MixRow.First(s, n), m) == MixRow.First(s, m) && MixRow.First([], m) == []
  {}

  class V2SuffixProposer {
    const cache: SuffixCache.Cache
    const settings: Settings
    var mirror: map<int, seq<int>>
    var widths: map<int, nat>
    var gate: map<int, Gate>
    var steps: nat

    ghost function Now(): State
      reads this
    {
      State(mirror, widths, gate)
    }

    ghost predicate Valid()
      reads this, cache
    {
      cache.Valid() && SettingsOk(settings) && StateOk(settings, Now())
    }

    constructor (cache: SuffixCache.Cache, settings: Settings)
      requires cache.Valid() && SettingsOk(settings)
      ensures Valid() && this.cache == cache && this.settings == settings && Now() == State(map[], map[], map[]) && steps == 0
    {
      this.cache, this.settings := cache, settings;
      mirror, widths, gate, steps := map[], map[], map[], 0;
    }

    /** Drop a request, and donate its history if it is worth it. */
    method Donate(id: int)
      requires cache.Valid() && id in mirror
      modifies `mirror, `widths, `gate, cache
      ensures cache.Valid() && Now() == State(old(mirror) - {id}, old(widths) - {id}, old(gate) - {id})
      ensures cache.Corpus() == if |old(mirror)[id]| > SHORTEST then Added(old(cache.Corpus()), cache.cfg, old(cache.next), old(mirror)[id]) else old(cache.Corpus())
      ensures cache.next == if |old(mirror)[id]| > SHORTEST then NextId(cache.cfg, old(cache.next), old(mirror)[id]) else old(cache.next)
    {
      var row := mirror[id];
      mirror, widths, gate := mirror - {id}, widths - {id}, gate - {id};
      if |row| > SHORTEST { cache.Add(row); }
    }

    method DepartOne(id: int, ghost ids: seq<int>, ghost t: State, ghost c: seq<Entry>, ghost next: nat, ghost order: seq<int>, ghost gone: set<int>)
      requires cache.Valid() && id in gone && Leaving(t, Now(), ids, order, gone)
      requires cache.Corpus() == AllAdded(c, cache.cfg, next, Donated(t.mirror, order))
      requires cache.next == NextAll(cache.cfg, next, Donated(t.mirror, order))
      modifies `mirror, `widths, `gate, cache
      ensures cache.Valid() && Leaving(t, Now(), ids, order + [id], gone - {id})
      ensures cache.Corpus() == AllAdded(c, cache.cfg, next, Donated(t.mirror, order + [id]))
      ensures cache.next == NextAll(cache.cfg, next, Donated(t.mirror, order + [id]))
    {
      LeavingOne(t, Now(), ids, order, gone, id);
      DonatedAdds(c, cache.cfg, next, t.mirror, order, id);
      Donate(id);
    }

    method DepartAll(ids: seq<int>) returns (ghost order: seq<int>, ghost gone: set<int>)
      requires cache.Valid()
      modifies `mirror, `widths, `gate, cache
      ensures cache.Valid() && |gone| == 0 && Leaving(old(Now()), Now(), ids, order, gone)
      ensures cache.Corpus() == AllAdded(old(cache.Corpus()), cache.cfg, old(cache.next), Donated(old(mirror), order))
      ensures cache.next == NextAll(cache.cfg, old(cache.next), Donated(old(mirror), order))
    {
      ghost var t, c, next := Now(), cache.Corpus(), cache.next;
      var left := mirror.Keys - Mixer.Ids(ids);
      order := [];
      LeavingStart(t, ids, left);
      while left != {}
        invariant cache.Valid() && Leaving(t, Now(), ids, order, left)
        invariant cache.Corpus() == AllAdded(c, cache.cfg, next, Donated(t.mirror, order))
        invariant cache.next == NextAll(cache.cfg, next, Donated(t.mirror, order))
        decreases |left|
      {
        SuffixCache.HasMember(left);
        var id :| id in left;
        DepartOne(id, ids, t, c, next, order, left);
        left, order := left - {id}, order + [id];
      }
      gone := left;
    }

    /** Requests that left the batch donate their histories, in whatever order they are found. */
    method Depart(ids: seq<int>) returns (ghost order: seq<int>)
      requires Valid()
      modifies `mirror, `widths, `gate, cache
      ensures Valid() && Departs(old(mirror), ids, order) && Now() == Entered(old(Now()), ids)
      ensures cache.Corpus() == AllAdded(old(cache.Corpus()), cache.cfg, old(cache.next), Donated(old(mirror), order))
      ensures cache.next == NextAll(cache.cfg, old(cache.next), Donated(old(mirror), order))
    {
      ghost var t, gone := Now(), {};
      order, gone := DepartAll(ids);
      LeavingDone(settings, t, Now(), ids, order, gone);
    }

    /** The suffix, if it is long enough, cut to the budget. */
    method Match(history: seq<int>) returns (tokens: seq<int>, ghost suffix: seq<int>, ghost score: real, ghost best: nat)
      requires cache.Valid() && SettingsOk(settings)
      ensures Speculated(cache.cfg, cache.Corpus(), history, settings.k, suffix, score, best)
      ensures tokens == if |suffix| >= settings.minLen && suffix != [] then MixRow.First(suffix, settings.k) else []
    {
      var found, u, m := cache.Speculate(history, settings.k);
      suffix, score, best := found, u, m;
      tokens := if found != [] && |found| >= settings.minLen then MixRow.First(found, settings.k) else [];
    }

    static method Pad(tokens: seq<int>, pad: int, k: nat) returns (t: seq<int>)
      requires |tokens| <= k
      ensures t == tokens + Repeat(pad, k - |tokens|)
    {
      t := tokens;
      while |t| < k
        invariant |tokens| <= |t| <= k && t == tokens + Repeat(pad, |t| - |tokens|)
      {
        t := t + [pad];
      }
    }

    /** What is published of a match under a limit. */
    method Form(found: seq<int>, limit: nat, history: seq<int>, ghost suffix: seq<int>) returns (out: RowOut)
      requires SettingsOk(settings) && limit <= settings.k
      requires found == if |suffix| >= settings.minLen && suffix != [] then MixRow.First(suffix, settings.k) else []
      ensures out == Shape(settings, limit, history, suffix)
    {
      var tokens := MixRow.First(found, limit);
      FirstTwice(suffix, settings.k, limit);
      out := RowOut(tokens, |tokens|, |tokens|);
      if settings.uniform {
        var padded := Pad(tokens, Padding(history), settings.k);
        out := RowOut(padded, settings.k, |tokens|);
      }
    }

    /** What a row publishes, and what its gate becomes if gates are on. */
    method Decide(tracked: Option<seq<int>>, g: Option<Gate>, row: seq<int>) returns (out: RowOut, gated: Gate)
      requires cache.Valid() && SettingsOk(settings)
      ensures Proposed(settings, cache.cfg, cache.Corpus(), Limit(settings, g, tracked, row), History(tracked, row), out)
      ensures gated == GateNext(settings, g, tracked, row, out)
    {
      var history, limit, ewma := History(tracked, row), settings.k, settings.k as real;
      var found, suffix, score, best := Match(history);
      if g.Some? {
        ewma := Ewma(g.value, tracked, row);
        if settings.gated { limit := MixRow.Pick(ewma, settings.k); }
      }
      out := Form(found, limit, history, suffix);
      gated := Gate(ewma, if settings.uniform then settings.k else out.matched);
    }

    /** One row that is within bounds. */
    method Step(id: int, row: seq<int>) returns (out: RowOut)
      requires Valid()
      modifies `mirror, `widths, `gate
      ensures Valid() && OutcomeOf(settings, cache.cfg, cache.Corpus(), old(Now()), id, row, out)
      ensures Now() == Next(settings, old(Now()), id, row, out)
    {
      var tracked, g := Lookup(mirror, id), Lookup(gate, id);
      var gated;
      out, gated := Decide(tracked, g, row);
      NextOk(settings, cache.cfg, cache.Corpus(), Now(), id, row, out);
      mirror, widths := mirror[id := History(tracked, row)], widths[id := out.width];
      if settings.gated { gate := gate[id := gated]; }
    }

    /** One call. A batch of the wrong dimensions changes nothing. Otherwise departed requests donate their
        histories first and each row in turn gets the outcome its history determines, up to a row that is
        out of bounds, where the call fails. */
    method Run(b: Batch) returns (r: Outcome, ghost order: seq<int>, ghost outs: seq<RowOut>)
      requires Valid() && forall i :: 0 <= i < |b.tokens| ==> |b.tokens[i]| == b.cols
      modifies this, cache
      ensures Valid()
      ensures !Sized(b) ==> r == Failed && unchanged(this) && unchanged(cache)
      ensures Sized(b) ==>
        && |outs| <= |b.ids| && Called(settings, cache.cfg, Sys(old(cache.Corpus()), old(cache.next), old(Now())), b, order, outs,
                                       Sys(cache.Corpus(), cache.next, Now()))
        && (r.Ok? <==> |outs| == |b.ids|) && (r.Ok? ==> r.outs == outs && steps == old(steps) + 1)
        && (r.Failed? ==> |outs| < |b.ids| && !RowOk(settings, b, |outs|))
    {
      order, outs := [], [];
      if |b.indices| < |b.ids| || |b.totals| < |b.ids| { return Failed, [], []; }
      order := Depart(b.ids);
      var done := Rows(b);
      outs := done;
      if |done| < |b.ids| { return Failed, order, outs; }
      steps := steps + 1;
      r := Ok(done);
    }

    /** The rows in turn, up to one that is out of bounds. */
    method Rows(b: Batch) returns (done: seq<RowOut>)
      requires Valid() && Sized(b)
      modifies `mirror, `widths, `gate
      ensures Valid() && |done| <= |b.ids| && (|done| < |b.ids| ==> !RowOk(settings, b, |done|))
      ensures Outcomes(settings, cache.cfg, cache.Corpus(), old(Now()), b, done) && Now() == After(settings, old(Now()), b, done)
    {
      ghost var t := Now();
      done := [];
      while |done| < |b.ids| && RowOk(settings, b, |done|)
        invariant Valid() && |done| <= |b.ids|
        invariant Outcomes(settings, cache.cfg, cache.Corpus(), t, b, done) && Now() == After(settings, t, b, done)
        decreases |b.ids| - |done|
      {
        var out := Step(b.ids[|done|], RowOf(settings, b, |done|));
        OneMore(settings, cache.cfg, cache.Corpus(), t, b, done, out);
        done := done + [out];
      }
    }

    /** Retract every published width, so that the next call takes none of them for feedback. */
    method ClearWidths()
      requires Valid()
      modifies `widths, `gate
      ensures Valid() && Now() == Cleared(old(Now()))
    {
      widths := map id | id in widths :: 0;
      gate := map id | id in gate :: gate[id].(lastWidth := 0);
    }
  }

  lemma DonatedAdds(c: seq<Entry>, cfg: Config, next: nat, mirror: map<int, seq<int>>, order: seq<int>, id: int)
    requires id in mirror
    ensures var d, e := Donated(mirror, order), Donated(mirror, order + [id]);
      && AllAdded(c, cfg, next, e) == (if |mirror[id]| > SHORTEST then Added(AllAdded(c, cfg, next, d), cfg, NextAll(cfg, next, d), mirror[id]) else AllAdded(c, cfg, next, d))
      && NextAll(cfg, next, e) == (if |mirror[id]| > SHORTEST then NextId(cfg, NextAll(cfg, next, d), mirror[id]) else NextAll(cfg, next, d))
  {
    DonatedMore(mirror, order, id);
    var d := Donated(mirror, order);
    assert (d + [mirror[id]])[..|d|] == d;
  }
}
