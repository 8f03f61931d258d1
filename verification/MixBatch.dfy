/** A call of HybridMixer in src/mixer.rs as a whole: what it accepts, and in what order its rows change the state. */
module MixBatch {
  import opened Wrappers
  import opened SuffixCorpus
  import opened EngineRows
  import opened MixRow
  import opened DivergeRow

  /** accepted[i] is negative where there is no feedback; windows says how continuity is decided. */
  datatype Batch = Batch(ids: seq<int>, rows: seq<seq<int>>, natives: seq<seq<int>>, accepted: Option<seq<int>>, windows: bool)

  predicate Distinct(ids: seq<int>) { forall i, j :: 0 <= i < j < |ids| ==> ids[i] != ids[j] }

  predicate Shaped(s: Settings, b: Batch) {
    && |b.ids| <= 4096 && |b.natives| == |b.ids| && |b.rows| == |b.ids| && Distinct(b.ids)
    && (b.accepted.Some? ==> |b.accepted.value| == |b.ids|)
    && (forall i :: 0 <= i < |b.natives| ==> NativeOk(s, b.natives[i]))
    && (forall i :: 0 <= i < |b.rows| ==> |b.rows[i]| <= s.maxLen)
  }

  predicate NativeOk(s: Settings, native: seq<int>) { |native| <= s.k && forall t :: 0 <= t < |native| ==> native[t] >= 0 }

  function Acc(b: Batch, i: nat): int
    requires b.accepted.Some? ==> i < |b.accepted.value|
  {
    match b.accepted case Some(a) => a[i] case None => -1
  }

  /** The feedback does not claim more than the last proposal had. */
  predicate Credible(previous: map<int, Previous>, id: int, accepted: int) {
    accepted >= -1 && (id in previous ==> accepted <= previous[id].length)
  }

  predicate Acceptable(s: Settings, previous: map<int, Previous>, b: Batch) {
    Shaped(s, b) && (b.accepted.Some? ==> forall i :: 0 <= i < |b.ids| ==> Credible(previous, b.ids[i], b.accepted.value[i]))
  }

  function Lookup(previous: map<int, Previous>, id: int): Option<Previous> {
    if id in previous then Some(previous[id]) else None
  }

  // ---- feedback -----------------------------------------------------------

  /** What row i starts from: its request as tracked, with this call's feedback. */
  function RowWas(previous: map<int, Previous>, b: Batch, i: nat): Option<Previous>
    requires i < |b.ids| && (b.accepted.Some? ==> |b.accepted.value| == |b.ids|)
  {
    if b.ids[i] in previous then Some(Trained(previous[b.ids[i]], Acc(b, i))) else None
  }

  function TestedTo(st: Stats, previous: map<int, Previous>, b: Batch, i: nat): Stats
    requires i <= |b.ids| && (b.accepted.Some? ==> |b.accepted.value| == |b.ids|)
  {
    if i == 0 then st
    else
      var t := TestedTo(st, previous, b, i - 1);
      if b.ids[i - 1] in previous then Tested(t, previous[b.ids[i - 1]], Acc(b, i - 1)) else t
  }

  /** now is was with the feedback of the first m rows. */
  predicate Fed(was: map<int, Previous>, now: map<int, Previous>, b: Batch, m: nat)
    requires m <= |b.ids| && (b.accepted.Some? ==> |b.accepted.value| == |b.ids|)
  {
    && now.Keys == was.Keys
    && (forall i :: 0 <= i < m ==> Lookup(now, b.ids[i]) == RowWas(was, b, i))
    && (forall id :: id in was && id !in b.ids[..m] ==> now[id] == was[id])
  }

  lemma FedOne(was: map<int, Previous>, now: map<int, Previous>, b: Batch, m: nat, next: map<int, Previous>)
    requires m < |b.ids| && (b.accepted.Some? ==> |b.accepted.value| == |b.ids|) && Distinct(b.ids) && Fed(was, now, b, m)
    requires next == if b.ids[m] in now then now[b.ids[m] := Trained(now[b.ids[m]], Acc(b, m))] else now
    ensures Fed(was, next, b, m + 1)
    ensures b.ids[m] in was ==> now[b.ids[m]] == was[b.ids[m]]
  {
    assert b.ids[m] !in b.ids[..m];
    assert b.ids[..m + 1] == b.ids[..m] + [b.ids[m]];
  }

  // ---- departures and resets ----------------------------------------------

  ghost predicate Departs(previous: map<int, Previous>, ids: seq<int>, order: seq<int>) {
    Distinct(order) && forall id :: id in order <==> id in previous && id !in ids
  }

  predicate IsReset(previous: map<int, Previous>, b: Batch, i: nat)
    requires i < |b.ids| && i < |b.rows|
  {
    b.ids[i] in previous && !Extends(b.windows, previous[b.ids[i]].context, b.rows[i])
  }

  /** The ids among the first m rows that a different request has taken over. */
  function ResetIds(previous: map<int, Previous>, b: Batch, m: nat): (r: seq<int>)
    requires m <= |b.ids| && m <= |b.rows|
    ensures forall id :: id in r ==> id in previous && id in b.ids[..m]
  {
    if m == 0 then []
    else
      var r := ResetIds(previous, b, m - 1);
      assert b.ids[..m] == b.ids[..m - 1] + [b.ids[m - 1]];
      if IsReset(previous, b, m - 1) then r + [b.ids[m - 1]] else r
  }

  function History(previous: map<int, Previous>, id: int): seq<int> {
    if id in previous then previous[id].context else []
  }

  function Histories(previous: map<int, Previous>, order: seq<int>): (h: seq<seq<int>>)
    ensures |h| == |order|
  {
    seq(|order|, i requires 0 <= i < |order| => History(previous, order[i]))
  }

  lemma HistoriesMore(previous: map<int, Previous>, order: seq<int>, id: int)
    ensures Histories(previous, order + [id]) == Histories(previous, order) + [History(previous, id)]
  {}

  lemma {:induction false} ResetIdsAre(previous: map<int, Previous>, b: Batch, m: nat, id: int)
    requires m <= |b.ids| && m <= |b.rows|
    ensures id in ResetIds(previous, b, m) <==> exists i :: 0 <= i < m && b.ids[i] == id && IsReset(previous, b, i)
  {
    if m > 0 { ResetIdsAre(previous, b, m - 1, id); }
  }

  lemma {:induction false} ResetIdsDistinct(previous: map<int, Previous>, b: Batch, m: nat)
    requires m <= |b.ids| && m <= |b.rows| && Distinct(b.ids)
    ensures Distinct(ResetIds(previous, b, m))
  {
    if m > 0 {
      ResetIdsDistinct(previous, b, m - 1);
      assert b.ids[m - 1] !in b.ids[..m - 1];
    }
  }

  predicate Continues(previous: map<int, Previous>, b: Batch, id: int, i: int)
    requires |b.rows| == |b.ids|
  {
    0 <= i < |b.ids| && b.ids[i] == id && id in previous && Extends(b.windows, previous[id].context, b.rows[i])
  }

  /** Of the requests tracked before a call, each is either continued by its row or handed to the corpus,
      and to the corpus once: the histories that are added are those of `order` and of the resets. */
  lemma EachOnce(previous: map<int, Previous>, b: Batch, order: seq<int>, id: int)
    requires |b.rows| == |b.ids| && Distinct(b.ids) && Departs(previous, b.ids, order)
    ensures Distinct(order + ResetIds(previous, b, |b.ids|))
    ensures id in order + ResetIds(previous, b, |b.ids|) <==> id in previous && !exists i :: Continues(previous, b, id, i)
  {
    var r := ResetIds(previous, b, |b.ids|);
    ResetIdsAre(previous, b, |b.ids|, id);
    ResetIdsDistinct(previous, b, |b.ids|);
    assert b.ids[..|b.ids|] == b.ids;
    assert forall i :: 0 <= i < |order| ==> order[i] in order;
    assert forall j :: 0 <= j < |r| ==> r[j] in r;
    if id in b.ids {
      var i :| 0 <= i < |b.ids| && b.ids[i] == id;
      assert Continues(previous, b, id, i) <==> id in previous && !IsReset(previous, b, i);
    }
  }

  // ---- the state as rows are processed ------------------------------------

  /** The state a call starts from. */
  datatype Start = Start(corpus: seq<Entry>, next: nat, previous: map<int, Previous>, wins: seq<Win>)

  ghost predicate Ready(s: Settings, st: Start, b: Batch, order: seq<int>) {
    && Shaped(s, b) && WinsOk(st.wins) && Departs(st.previous, b.ids, order)
    && forall id :: id in st.previous ==> TrackedOk(Some(st.previous[id]))
  }

  function Given(st: Start, b: Batch, order: seq<int>, i: nat): (h: seq<seq<int>>)
    requires i <= |b.ids| && i <= |b.rows| && Departs(st.previous, b.ids, order)
  {
    Histories(st.previous, order + ResetIds(st.previous, b, i))
  }

  /** The corpus when the first i rows have been processed: departures first, then resets in row order. */
  function CorpusAt(cfg: Config, st: Start, b: Batch, order: seq<int>, i: nat): seq<Entry>
    requires i <= |b.ids| && i <= |b.rows| && Departs(st.previous, b.ids, order)
  {
    AllAdded(st.corpus, cfg, st.next, Given(st, b, order, i))
  }

  function NextAt(cfg: Config, st: Start, b: Batch, order: seq<int>, i: nat): nat
    requires i <= |b.ids| && i <= |b.rows| && Departs(st.previous, b.ids, order)
  {
    NextAll(cfg, st.next, Given(st, b, order, i))
  }

  /** The corpus after the history of a row's slot has been finalized. */
  function AfterReset(c: seq<Entry>, cfg: Config, next: nat, windows: bool, was: Option<Previous>, row: seq<int>): seq<Entry> {
    if LinkOf(windows, was, row).Reset? then Added(c, cfg, next, was.value.context) else c
  }

  function NextReset(cfg: Config, next: nat, windows: bool, was: Option<Previous>, row: seq<int>): nat {
    if LinkOf(windows, was, row).Reset? then NextId(cfg, next, was.value.context) else next
  }

  lemma RowAdds(cfg: Config, s: Settings, st: Start, b: Batch, order: seq<int>, i: nat)
    requires Ready(s, st, b, order) && i < |b.ids|
    ensures CorpusAt(cfg, st, b, order, i + 1)
         == AfterReset(CorpusAt(cfg, st, b, order, i), cfg, NextAt(cfg, st, b, order, i), b.windows, RowWas(st.previous, b, i), b.rows[i])
    ensures NextAt(cfg, st, b, order, i + 1) == NextReset(cfg, NextAt(cfg, st, b, order, i), b.windows, RowWas(st.previous, b, i), b.rows[i])
  {
    var h := Given(st, b, order, i);
    if IsReset(st.previous, b, i) {
      var r := ResetIds(st.previous, b, i);
      assert order + (r + [b.ids[i]]) == order + r + [b.ids[i]];
      HistoriesMore(st.previous, order + r, b.ids[i]);
      assert Given(st, b, order, i + 1) == h + [History(st.previous, b.ids[i])];
      assert (h + [History(st.previous, b.ids[i])])[..|h|] == h;
    }
  }

  /** In diverge mode, the counts when the feedback of the first i rows has been resolved. */
  function WinsAt(s: Settings, st: Start, b: Batch, order: seq<int>, i: nat): (w: seq<Win>)
    requires Ready(s, st, b, order) && i <= |b.ids|
    ensures WinsOk(w)
  {
    if i == 0 || !s.diverge then st.wins
    else Resolved(WinsAt(s, st, b, order, i - 1), b.windows, RowWas(st.previous, b, i - 1), b.rows[i - 1], Acc(b, i - 1))
  }

  /** The outcome of row i, in the mode that is set. */
  ghost predicate RowDone(s: Settings, cfg: Config, st: Start, b: Batch, order: seq<int>, i: nat, draft: seq<int>, now: Previous)
    requires SettingsOk(s) && Ready(s, st, b, order) && i < |b.ids|
  {
    var c, was := CorpusAt(cfg, st, b, order, i + 1), RowWas(st.previous, b, i);
    if s.diverge then Diverged(s, cfg, c, WinsAt(s, st, b, order, i + 1), b.windows, was, b.rows[i], b.natives[i], draft, now)
    else LegacyRow(s, cfg, c, b.windows, was, b.rows[i], b.natives[i], draft, now)
  }
}
