/** What a call of V2SuffixProposer leaves behind, whatever it started from. */
module V2Runs {
  import opened IntMath
  import opened SuffixCorpus
  import opened EngineRows
  import opened V2Row
  import opened V2Proposer

  predicate Latest(b: Batch, i: nat, m: nat) {
    i < m <= |b.ids| && forall j :: i < j < m ==> b.ids[j] != b.ids[i]
  }

  /** The first m rows set the entries of their requests, a later row of the same request last. */
  lemma {:induction false} EntriesOf(s: Settings, t: State, b: Batch, outs: seq<RowOut>, i: nat)
    requires Sized(b) && |outs| <= |b.ids| && Latest(b, i, |outs|)
    ensures var was, now := After(s, t, b, outs[..i]), After(s, t, b, outs);
      && b.ids[i] in now.mirror && b.ids[i] in now.widths
      && now.mirror[b.ids[i]] == History(Lookup(was.mirror, b.ids[i]), RowOf(s, b, i)) && now.widths[b.ids[i]] == outs[i].width
  {
    var m := |outs| - 1;
    if i < m {
      EntriesOf(s, t, b, outs[..m], i);
      assert outs[..m][..i] == outs[..i];
    }
  }

  lemma {:induction false} KeysOf(s: Settings, t: State, b: Batch, outs: seq<RowOut>, id: int)
    requires Sized(b) && |outs| <= |b.ids|
    ensures id in After(s, t, b, outs).mirror <==> id in t.mirror || id in b.ids[..|outs|]
  {
    if outs != [] {
      var m := |outs| - 1;
      KeysOf(s, t, b, outs[..m], id);
      assert b.ids[..|outs|] == b.ids[..m] + [b.ids[m]];
    }
  }

  /** After a call that succeeds the tracked histories are those of its requests and no others. */
  lemma MirrorsLive(s: Settings, t: State, b: Batch, outs: seq<RowOut>, id: int)
    requires Sized(b) && |outs| == |b.ids|
    ensures id in After(s, Entered(t, b.ids), b, outs).mirror <==> id in b.ids
  {
    KeysOf(s, Entered(t, b.ids), b, outs, id);
    assert b.ids[..|outs|] == b.ids;
  }

  /** Boundary windows do not err on row i. */
  predicate ToldRight(s: Settings, t: State, b: Batch, outs: seq<RowOut>, i: nat)
    requires Sized(b) && |outs| <= |b.ids| && i < |outs|
  {
    var tracked := Lookup(After(s, t, b, outs[..i]).mirror, b.ids[i]);
    Continues(tracked, RowOf(s, b, i)) ==> tracked.value <= RowOf(s, b, i)
  }

  /** Where continuity is told right, the history of a request is its row; its width is what was published. */
  lemma MirrorsAreRows(s: Settings, t: State, b: Batch, outs: seq<RowOut>, i: nat)
    requires Sized(b) && |outs| == |b.ids| && Latest(b, i, |b.ids|) && ToldRight(s, t, b, outs, i)
    ensures var now := After(s, t, b, outs);
      && b.ids[i] in now.mirror && now.mirror[b.ids[i]] == RowOf(s, b, i)
      && b.ids[i] in now.widths && now.widths[b.ids[i]] == outs[i].width
  {
    EntriesOf(s, t, b, outs, i);
    HistoryIsRow(Lookup(After(s, t, b, outs[..i]).mirror, b.ids[i]), RowOf(s, b, i));
  }

  /** In uniform mode every row is published at width k. */
  lemma UniformWidth(s: Settings, cfg: Config, c: seq<Entry>, t: State, b: Batch, outs: seq<RowOut>, i: nat)
    requires SettingsOk(s) && Sized(b) && |outs| <= |b.ids| && Outcomes(s, cfg, c, t, b, outs) && i < |outs|
    ensures |outs[i].tokens| == outs[i].width <= s.k && (s.uniform ==> outs[i].width == s.k)
  {
    assert OutcomeAt(s, cfg, c, t, b, outs[..i], outs[i]);
    var was := After(s, t, b, outs[..i]);
    var tracked := Lookup(was.mirror, b.ids[i]);
    Widths(s, cfg, c, Limit(s, Lookup(was.gate, b.ids[i]), tracked, RowOf(s, b, i)), History(tracked, RowOf(s, b, i)), outs[i]);
  }

  // ---- provenance ---------------------------------------------------------

  predicate MirrorInside(vocab: set<int>, mirror: map<int, seq<int>>) { forall id :: id in mirror ==> Inside(vocab, mirror[id]) }

  predicate BufferInside(vocab: set<int>, b: Batch) { forall r :: 0 <= r < |b.tokens| ==> Inside(vocab, b.tokens[r]) }

  lemma RowInside(vocab: set<int>, s: Settings, b: Batch, i: nat)
    requires Sized(b) && i < |b.ids| && BufferInside(vocab, b)
    ensures Inside(vocab, RowOf(s, b, i))
  {
    if RowOk(s, b, i) { assert Inside(vocab, b.tokens[Max(b.indices[i], 0)]); }
  }

  lemma {:induction false} AfterInside(vocab: set<int>, s: Settings, t: State, b: Batch, outs: seq<RowOut>)
    requires Sized(b) && |outs| <= |b.ids| && MirrorInside(vocab, t.mirror) && BufferInside(vocab, b)
    ensures MirrorInside(vocab, After(s, t, b, outs).mirror)
  {
    if outs != [] {
      var m := |outs| - 1;
      AfterInside(vocab, s, t, b, outs[..m]);
      RowInside(vocab, s, b, m);
      HistoryInside(vocab, Lookup(After(s, t, b, outs[..m]).mirror, b.ids[m]), RowOf(s, b, m));
    }
  }

  lemma {:induction false} AddsInside(vocab: set<int>, c: seq<Entry>, cfg: Config, next: nat, mirror: map<int, seq<int>>, order: seq<int>)
    requires CorpusInside(vocab, c) && MirrorInside(vocab, mirror)
    ensures CorpusInside(vocab, AllAdded(c, cfg, next, Donated(mirror, order)))
  {
    if order != [] {
      var init, id := order[..|order| - 1], order[|order| - 1];
      AddsInside(vocab, c, cfg, next, mirror, init);
      var d := Donated(mirror, init);
      if id in mirror && |mirror[id]| > SHORTEST {
        assert (d + [mirror[id]])[..|d|] == d;
        AddedInside(vocab, AllAdded(c, cfg, next, d), cfg, NextAll(cfg, next, d), mirror[id]);
      }
    }
  }

  /** Every token that a call publishes, padding included, is 0 or came from a row or the corpus, and the
      histories and the corpus it leaves hold no others. */
  lemma CallInside(vocab: set<int>, s: Settings, cfg: Config, c: seq<Entry>, next: nat, t: State, b: Batch, order: seq<int>,
                  outs: seq<RowOut>, after: seq<Entry>, later: nat, i: nat)
    requires SettingsOk(s) && ConfigOk(cfg) && Sized(b) && |outs| <= |b.ids| && i < |outs|
    requires 0 in vocab && CorpusInside(vocab, c) && MirrorInside(vocab, t.mirror) && BufferInside(vocab, b)
    requires after == AllAdded(c, cfg, next, Donated(t.mirror, order)) && Ordered(after, later)
    requires Outcomes(s, cfg, after, Entered(t, b.ids), b, outs)
    ensures Inside(vocab, outs[i].tokens)
  {
    AddsInside(vocab, c, cfg, next, t.mirror, order);
    AfterInside(vocab, s, Entered(t, b.ids), b, outs[..i]);
    assert OutcomeAt(s, cfg, after, Entered(t, b.ids), b, outs[..i], outs[i]);
    OutcomeInside(vocab, s, cfg, after, later, After(s, Entered(t, b.ids), b, outs[..i]), b, outs[i], i);
  }

  lemma OutcomeInside(vocab: set<int>, s: Settings, cfg: Config, c: seq<Entry>, next: nat, t: State, b: Batch, out: RowOut, i: nat)
    requires SettingsOk(s) && ConfigOk(cfg) && Sized(b) && i < |b.ids| && Ordered(c, next)
    requires 0 in vocab && CorpusInside(vocab, c) && MirrorInside(vocab, t.mirror) && BufferInside(vocab, b)
    requires OutcomeOf(s, cfg, c, t, b.ids[i], RowOf(s, b, i), out)
    ensures Inside(vocab, out.tokens)
  {
    var tracked, row := Lookup(t.mirror, b.ids[i]), RowOf(s, b, i);
    RowInside(vocab, s, b, i);
    HistoryInside(vocab, tracked, row);
    OutInside(vocab, s, cfg, c, next, Limit(s, Lookup(t.gate, b.ids[i]), tracked, row), History(tracked, row), out);
  }

  // ---- whole runs ---------------------------------------------------------

  /** What can happen to the proposer: a call, the retraction of its widths, a sequence that somebody else
      adds to the cache. */
  datatype Event = Call(b: Batch, order: seq<int>, outs: seq<RowOut>) | Clear | Prime(toks: seq<int>)

  ghost predicate Happens(s: Settings, cfg: Config, x: Sys, e: Event, y: Sys)
    requires s.k >= 1
  {
    match e
    case Call(b, order, outs) => Sized(b) && |outs| <= |b.ids| && Called(s, cfg, x, b, order, outs, y)
    case Clear => y == Sys(x.corpus, x.next, Cleared(x.state))
    case Prime(toks) => y == Sys(Added(x.corpus, cfg, x.next, toks), NextId(cfg, x.next, toks), x.state)
  }

  ghost predicate IsRun(s: Settings, cfg: Config, xs: seq<Sys>, es: seq<Event>)
    requires s.k >= 1
  {
    |xs| == |es| + 1 && forall n :: 0 <= n < |es| ==> Happens(s, cfg, xs[n], es[n], xs[n + 1])
  }

  /** Buffers and primed sequences hold tokens of the vocabulary only. */
  predicate EventInside(vocab: set<int>, e: Event) {
    match e
    case Call(b, order, outs) => BufferInside(vocab, b)
    case Clear => true
    case Prime(toks) => Inside(vocab, toks)
  }

  /** What is published has its widths, and no token from elsewhere. */
  predicate Publishes(vocab: set<int>, s: Settings, e: Event) {
    e.Call? ==> forall i :: 0 <= i < |e.outs| ==> OutOk(vocab, s, e.outs[i])
  }

  predicate OutOk(vocab: set<int>, s: Settings, out: RowOut) {
    Inside(vocab, out.tokens) && |out.tokens| == out.width <= s.k && (s.uniform ==> out.width == s.k)
  }

  ghost predicate SysOk(vocab: set<int>, s: Settings, x: Sys) {
    CorpusInside(vocab, x.corpus) && MirrorInside(vocab, x.state.mirror) && StateOk(s, x.state) && Ordered(x.corpus, x.next)
  }

  lemma AddedOrdered(c: seq<Entry>, cfg: Config, next: nat, toks: seq<int>)
    requires Ordered(c, next)
    ensures Ordered(Added(c, cfg, next, toks), NextId(cfg, next, toks))
  {}

  lemma {:induction false} AddsOrdered(c: seq<Entry>, cfg: Config, next: nat, rows: seq<seq<int>>)
    requires Ordered(c, next)
    ensures Ordered(AllAdded(c, cfg, next, rows), NextAll(cfg, next, rows))
  {
    if rows != [] {
      var init := rows[..|rows| - 1];
      AddsOrdered(c, cfg, next, init);
      AddedOrdered(AllAdded(c, cfg, next, init), cfg, NextAll(cfg, next, init), rows[|rows| - 1]);
    }
  }

  lemma {:induction false} AfterOk(s: Settings, cfg: Config, c: seq<Entry>, t: State, b: Batch, outs: seq<RowOut>)
    requires SettingsOk(s) && Sized(b) && |outs| <= |b.ids| && StateOk(s, t) && Outcomes(s, cfg, c, t, b, outs)
    ensures StateOk(s, After(s, t, b, outs))
  {
    if outs != [] {
      var front, m := outs[..|outs| - 1], |outs| - 1;
      FrontOutcomes(s, cfg, c, t, b, outs, front);
      AfterOk(s, cfg, c, t, b, front);
      assert OutcomeAt(s, cfg, c, t, b, outs[..m], outs[m]);
      NextOk(s, cfg, c, After(s, t, b, front), b.ids[m], RowOf(s, b, m), outs[m]);
    }
  }

  lemma FrontOutcomes(s: Settings, cfg: Config, c: seq<Entry>, t: State, b: Batch, outs: seq<RowOut>, front: seq<RowOut>)
    requires s.k >= 1 && Sized(b) && 1 <= |outs| <= |b.ids| && front == outs[..|outs| - 1] && Outcomes(s, cfg, c, t, b, outs)
    ensures Outcomes(s, cfg, c, t, b, front)
  {
    forall i | 0 <= i < |front| ensures OutcomeAt(s, cfg, c, t, b, front[..i], front[i]) {
      assert OutcomeAt(s, cfg, c, t, b, outs[..i], outs[i]) && front[..i] == outs[..i];
    }
  }

  lemma CallKeeps(vocab: set<int>, s: Settings, cfg: Config, x: Sys, b: Batch, order: seq<int>, outs: seq<RowOut>, y: Sys)
    requires SettingsOk(s) && ConfigOk(cfg) && 0 in vocab && SysOk(vocab, s, x) && BufferInside(vocab, b)
    requires Sized(b) && |outs| <= |b.ids| && Called(s, cfg, x, b, order, outs, y)
    ensures SysOk(vocab, s, y) && forall i :: 0 <= i < |outs| ==> OutOk(vocab, s, outs[i])
  {
    AddsInside(vocab, x.corpus, cfg, x.next, x.state.mirror, order);
    AddsOrdered(x.corpus, cfg, x.next, Donated(x.state.mirror, order));
    AfterInside(vocab, s, Entered(x.state, b.ids), b, outs);
    LiveOk(s, x.state, b.ids);
    AfterOk(s, cfg, y.corpus, Entered(x.state, b.ids), b, outs);
    forall i | 0 <= i < |outs| ensures OutOk(vocab, s, outs[i]) {
      CallInside(vocab, s, cfg, x.corpus, x.next, x.state, b, order, outs, y.corpus, y.next, i);
      UniformWidth(s, cfg, y.corpus, Entered(x.state, b.ids), b, outs, i);
    }
  }

  lemma EventKeeps(vocab: set<int>, s: Settings, cfg: Config, x: Sys, e: Event, y: Sys)
    requires SettingsOk(s) && ConfigOk(cfg) && 0 in vocab && SysOk(vocab, s, x) && EventInside(vocab, e) && Happens(s, cfg, x, e, y)
    ensures SysOk(vocab, s, y) && Publishes(vocab, s, e)
  {
    match e
    case Call(b, order, outs) => CallKeeps(vocab, s, cfg, x, b, order, outs, y);
    case Clear =>
    case Prime(toks) =>
      AddedInside(vocab, x.corpus, cfg, x.next, toks);
      AddedOrdered(x.corpus, cfg, x.next, toks);
  }

  /** Over every run that starts valid, calls that fail on the way included: widths are at most k, just k
      where uniform mode publishes, estimates stay in [0, k + 1], gates and widths belong to tracked
      requests only, and every token that is published, padding included, is 0 or came from a buffer, a
      primed sequence, or what the run started with. */
  lemma {:induction false} RunKeeps(vocab: set<int>, s: Settings, cfg: Config, xs: seq<Sys>, es: seq<Event>, n: nat)
    requires SettingsOk(s) && ConfigOk(cfg) && 0 in vocab && IsRun(s, cfg, xs, es) && n <= |es|
    requires SysOk(vocab, s, xs[0]) && forall i :: 0 <= i < |es| ==> EventInside(vocab, es[i])
    ensures SysOk(vocab, s, xs[n]) && (n < |es| ==> Publishes(vocab, s, es[n]))
  {
    if n > 0 {
      RunKeeps(vocab, s, cfg, xs, es, n - 1);
      assert Happens(s, cfg, xs[n - 1], es[n - 1], xs[n - 1 + 1]);
      EventKeeps(vocab, s, cfg, xs[n - 1], es[n - 1], xs[n]);
    }
    if n < |es| {
      assert Happens(s, cfg, xs[n], es[n], xs[n + 1]);
      EventKeeps(vocab, s, cfg, xs[n], es[n], xs[n + 1]);
    }
  }

  // ---- which histories are donated -----------------------------------------

  /** Of the requests that leave, each with more than eight tokens donates its history, and no other. */
  lemma {:induction false} DonatedAre(mirror: map<int, seq<int>>, order: seq<int>, h: seq<int>)
    ensures h in Donated(mirror, order) <==> exists i :: 0 <= i < |order| && Donates(mirror, order[i], h)
  {
    if order != [] {
      var init := order[..|order| - 1];
      DonatedAre(mirror, init, h);
      if i :| 0 <= i < |init| && Donates(mirror, init[i], h) { assert Donates(mirror, order[i], h); }
      if i :| 0 <= i < |order| && Donates(mirror, order[i], h) {
        if i < |init| { assert Donates(mirror, init[i], h); }
      }
      if Donates(mirror, order[|order| - 1], h) { assert h in Donated(mirror, order); }
    }
  }

  predicate Donates(mirror: map<int, seq<int>>, id: int, h: seq<int>) { id in mirror && mirror[id] == h && |h| > 8 }

  /** A request that is seen for the first time enters the gate table at full width. */
  lemma GateStarts(s: Settings, t: State, id: int, row: seq<int>, out: RowOut)
    requires s.gated && id !in t.gate
    ensures id in Next(s, t, id, row, out).gate && Next(s, t, id, row, out).gate[id] == Gate(s.k as real, if s.uniform then s.k else out.matched)
  {}
}
