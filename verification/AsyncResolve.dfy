/**
Lag-1 drafting of suffix_hybrid/async_spec.py: which rows a lagged snapshot still speaks for, the
device-side resolve of a candidate against the history that has grown since, and the scheduler trim.
*/
module AsyncResolve {
  import opened IntMath
  import opened Wrappers

  type Rid = string

  function Clip(x: int, lo: int, hi: int): int { if x < lo then lo else if x > hi then hi else x }

  // ---- resolve ------------------------------------------------------------

  /** One row of the staging buffer: the candidate padded with zeros to lc, its anchor and length. */
  datatype Packed = Packed(cand: seq<int>, anchor: int, clen: int)

  /** The row that a candidate c of at most lc tokens, anchored at p, is packed to. */
  function Pack(c: seq<int>, p: int, lc: nat): Packed
    requires |c| <= lc
  {
    Packed(c + seq(lc - |c|, i => 0), p, |c|)
  }

  /** A row without a candidate. */
  function Blank(lc: nat): Packed { Packed(seq(lc, i => 0), 0, 0) }

  /** Gathered history at lane i; positions are clamped into the buffer. */
  function HistoryAt(r: Packed, history: seq<int>, i: int): int
    requires |history| >= 1
  {
    history[Clip(r.anchor + i, 0, |history| - 1)]
  }

  /** Every lane agrees with the history or has not been sampled yet, and something has been. */
  predicate Aligned(r: Packed, history: seq<int>, total: int)
    requires |history| >= 1
  {
    var o := total - r.anchor;
    o >= 1 && forall i :: 0 <= i < |r.cand| ==> HistoryAt(r, history, i) == r.cand[i] || i >= o
  }

  function Real(r: Packed, history: seq<int>, total: int, m: int): bool
    requires |history| >= 1
  {
    Aligned(r, history, total) && total - r.anchor + m < r.clen
  }

  function Draft(r: Packed, history: seq<int>, total: int, m: int): int
    requires |history| >= 1 && |r.cand| >= 1
  {
    if Real(r, history, total, m) then r.cand[Clip(total - r.anchor + m, 0, |r.cand| - 1)] else 0
  }

  /** The drafts of a row, lane by lane as the tensor expression computes them. */
  function Resolve(r: Packed, history: seq<int>, total: int, k: nat): (d: seq<int>)
    requires |history| >= 1 && |r.cand| >= 1
    ensures |d| == k
  {
    seq(k, m requires 0 <= m => Draft(r, history, total, m))
  }

  /** How many of them are real. */
  function RealCount(r: Packed, history: seq<int>, total: int, k: nat): (n: int)
    requires |history| >= 1
  {
    if Aligned(r, history, total) then Clip(r.clen - (total - r.anchor), 0, k) else 0
  }

  /** The tokens sampled since the anchor are what the candidate predicted. */
  predicate Predicted(c: seq<int>, p: nat, history: seq<int>, total: int) {
    p < total <= |history| && total - p <= |c| && history[p..total] == c[..total - p]
  }

  lemma AlignedIsPredicted(c: seq<int>, p: nat, lc: nat, history: seq<int>, total: int)
    requires |c| <= lc && lc >= 1 && total <= |history| && |history| >= 1 && total - p <= |c|
    ensures Aligned(Pack(c, p, lc), history, total) <==> Predicted(c, p, history, total)
  {
    var r, o := Pack(c, p, lc), total - p;
    if Aligned(r, history, total) {
      forall i | 0 <= i < o ensures history[p..total][i] == c[..o][i] { assert HistoryAt(r, history, i) == r.cand[i]; }
    }
    if Predicted(c, p, history, total) {
      forall i | 0 <= i < |r.cand| ensures HistoryAt(r, history, i) == r.cand[i] || i >= o {
        if i < o { assert history[p..total][i] == c[..o][i]; }
      }
    }
  }

  /** Real are exactly the positions C[o .. o + min(k, |C| - o)] of rows whose new tokens are C[..o];
      the rest is the filler 0. */
  lemma ResolveIsContinuation(c: seq<int>, p: nat, lc: nat, history: seq<int>, total: int, k: nat)
    requires |c| <= lc && lc >= 1 && total <= |history| && |history| >= 1
    ensures var r, o := Pack(c, p, lc), total - p;
      var n := if Predicted(c, p, history, total) then Min(k, |c| - o) else 0;
      && RealCount(r, history, total, k) == n
      && (n > 0 ==> Resolve(r, history, total, k)[..n] == c[o..o + n])
      && (forall m :: 0 <= m < k ==> (Real(r, history, total, m) <==> m < n))
      && (forall m :: n <= m < k ==> Resolve(r, history, total, k)[m] == 0)
  {
    if total - p <= |c| { AlignedIsPredicted(c, p, lc, history, total); }
  }

  /** A row of the staging buffer: packed if it was looked up, otherwise left at zero. */
  function Staged(c: Option<seq<int>>, p: nat, lc: nat): Packed
    requires c.Some? ==> |c.value| <= lc
  {
    match c case Some(x) => Pack(x, p, lc) case None => Blank(lc)
  }

  lemma BlankIsFiller(lc: nat, history: seq<int>, total: nat, k: nat)
    requires lc >= 1 && |history| >= 1
    ensures RealCount(Blank(lc), history, total, k) == 0 && forall m :: 0 <= m < k ==> Resolve(Blank(lc), history, total, k)[m] == 0
  {}

  /** So it is for every row of the buffer: the continuation of a candidate that was looked up and came
      true, and filler otherwise. */
  lemma StagedDrafts(c: Option<seq<int>>, p: nat, lc: nat, history: seq<int>, total: nat, k: nat)
    requires (c.Some? ==> |c.value| <= lc) && lc >= 1 && total <= |history| && |history| >= 1
    ensures var r, o := Staged(c, p, lc), total - p;
      var n := if c.Some? && Predicted(c.value, p, history, total) then Min(k, |c.value| - o) else 0;
      && RealCount(r, history, total, k) == n
      && (n > 0 ==> Resolve(r, history, total, k)[..n] == c.value[o..o + n])
      && (forall m :: n <= m < k ==> Resolve(r, history, total, k)[m] == 0)
  {
    match c
    case Some(x) => ResolveIsContinuation(x, p, lc, history, total, k);
    case None => BlankIsFiller(lc, history, total, k);
  }

  /** What the host allows a row before it knows how much of the candidate was accepted. */
  function Width(clen: int, k: nat): int { Clip(clen - 1, 0, k) }

  /** The host's width bounds the real drafts of every row, whatever the device finds. */
  lemma RealWithinWidth(r: Packed, history: seq<int>, total: int, k: nat)
    requires |history| >= 1 && r.clen >= 0
    ensures RealCount(r, history, total, k) <= Width(r.clen, k)
  {}

  // ---- which rows are looked up -------------------------------------------

  /** The last position of rid among the previous step's rows. */
  function LastOf(pids: seq<Rid>, rid: Rid): Option<nat> {
    if pids == [] then None else if pids[|pids| - 1] == rid then Some(|pids| - 1) else LastOf(pids[..|pids| - 1], rid)
  }

  /** Row i of this step still sits at the index the snapshot has a total for. */
  function LagTotal(ids: seq<Rid>, idx: seq<int>, pids: seq<Rid>, pidx: seq<int>, snap: seq<int>, i: nat): Option<int>
    requires i < |ids| == |idx| && |pids| == |pidx| <= |snap|
  {
    var j := LastOf(pids, ids[i]);
    if j.Some? && j.value < |pidx| && pidx[j.value] == idx[i] && snap[j.value] > 0 then Some(snap[j.value]) else None
  }

  method Absorb(ids: seq<Rid>, idx: seq<int>, pids: seq<Rid>, pidx: seq<int>, snap: seq<int>) returns (sel: seq<nat>, tot: seq<int>)
    requires |ids| == |idx| && |pids| == |pidx| <= |snap|
    ensures |sel| == |tot| && forall a, b :: 0 <= a < b < |sel| ==> sel[a] < sel[b]
    ensures forall a :: 0 <= a < |sel| ==> sel[a] < |ids| && LagTotal(ids, idx, pids, pidx, snap, sel[a]) == Some(tot[a]) && tot[a] > 0
    ensures forall i :: 0 <= i < |ids| && LagTotal(ids, idx, pids, pidx, snap, i).Some? ==> i in sel
  {
    sel, tot := [], [];
    var pos: map<Rid, nat> := map[];
    for j := 0 to |pids|
      invariant forall rid :: (if rid in pos then Some(pos[rid]) else None) == LastOf(pids[..j], rid)
    {
      assert pids[..j + 1][..j] == pids[..j];
      pos := pos[pids[j] := j];
    }
    assert pids[..|pids|] == pids;
    for i := 0 to |ids|
      invariant |sel| == |tot| && forall a, b :: 0 <= a < b < |sel| ==> sel[a] < sel[b]
      invariant forall a :: 0 <= a < |sel| ==> sel[a] < i && LagTotal(ids, idx, pids, pidx, snap, sel[a]) == Some(tot[a]) && tot[a] > 0
      invariant forall x :: 0 <= x < i && LagTotal(ids, idx, pids, pidx, snap, x).Some? ==> x in sel
    {
      assert LastOf(pids, ids[i]) == if ids[i] in pos then Some(pos[ids[i]]) else None;
      if ids[i] in pos && pos[ids[i]] < |pidx| && pidx[pos[ids[i]]] == idx[i] && snap[pos[ids[i]]] > 0 {
        sel, tot := sel + [i], tot + [snap[pos[ids[i]]]];
      }
    }
  }

  // ---- the trim -----------------------------------------------------------

  class SchedulerOutput {
    var spec: map<Rid, seq<int>>
    var num: map<Rid, int>
    var total: int
    var structured: bool

    constructor (spec: map<Rid, seq<int>>, num: map<Rid, int>, total: int, structured: bool)
      ensures this.spec == spec && this.num == num && this.total == total && this.structured == structured
    {
      this.spec, this.num, this.total, this.structured := spec, num, total, structured;
    }
  }

  function Allowed(widths: map<Rid, nat>, rid: Rid, toks: seq<int>): nat {
    var w := if rid in widths then widths[rid] else 0;
    if w < |toks| then w else |toks|
  }

  function CutOf(widths: map<Rid, nat>, spec: map<Rid, seq<int>>, rid: Rid): nat
    requires rid in spec
  {
    |spec[rid]| - Allowed(widths, rid, spec[rid])
  }

  /** The sum of the cuts of some rows, in whatever order they are visited. */
  function Cuts(widths: map<Rid, nat>, spec: map<Rid, seq<int>>, order: seq<Rid>): nat
    requires forall rid :: rid in order ==> rid in spec
  {
    if order == [] then 0 else Cuts(widths, spec, order[..|order| - 1]) + CutOf(widths, spec, order[|order| - 1])
  }

  ghost predicate Enumerates(order: seq<Rid>, keys: set<Rid>) {
    (forall rid :: rid in order <==> rid in keys) && forall a, b :: 0 <= a < b < |order| ==> order[a] != order[b]
  }

  /** Every row is cut to its width, rows cut to nothing are dropped, and the counts follow. */
  ghost predicate Trimmed(widths: map<Rid, nat>, spec: map<Rid, seq<int>>, num: map<Rid, int>, total: int,
                          order: seq<Rid>, spec': map<Rid, seq<int>>, num': map<Rid, int>, total': int)
    requires (forall rid :: rid in order ==> rid in spec) && spec.Keys <= num.Keys
  {
    && (forall rid :: rid in spec' <==> rid in spec && Allowed(widths, rid, spec[rid]) > 0)
    && (forall rid :: rid in spec' ==> spec'[rid] == spec[rid][..Allowed(widths, rid, spec[rid])])
    && num'.Keys == num.Keys
    && (forall rid :: rid in num ==> num'[rid] == num[rid] - (if rid in spec then CutOf(widths, spec, rid) else 0))
    && total' == total - Cuts(widths, spec, order)
  }

  /** The rows visited so far are cut, the others are as they were. */
  ghost predicate Trimming(widths: map<Rid, nat>, spec: map<Rid, seq<int>>, num: map<Rid, int>, done: seq<Rid>,
                           spec': map<Rid, seq<int>>, num': map<Rid, int>, cut: nat)
    requires (forall rid :: rid in done ==> rid in spec) && spec.Keys <= num.Keys
  {
    && TrimmingSpec(widths, spec, done, spec') && TrimmingNum(widths, spec, num, done, num')
    && cut == Cuts(widths, spec, done)
  }

  ghost predicate TrimmingSpec(widths: map<Rid, nat>, spec: map<Rid, seq<int>>, done: seq<Rid>, spec': map<Rid, seq<int>>)
    requires forall rid :: rid in done ==> rid in spec
  {
    && (forall rid :: rid in spec' <==> rid in done && Allowed(widths, rid, spec[rid]) > 0)
    && forall rid :: rid in spec' ==> spec'[rid] == spec[rid][..Allowed(widths, rid, spec[rid])]
  }

  ghost predicate TrimmingNum(widths: map<Rid, nat>, spec: map<Rid, seq<int>>, num: map<Rid, int>, done: seq<Rid>, num': map<Rid, int>)
    requires (forall rid :: rid in done ==> rid in spec) && spec.Keys <= num.Keys
  {
    && num'.Keys == num.Keys
    && forall rid :: rid in num ==> num'[rid] == num[rid] - (if rid in done then CutOf(widths, spec, rid) else 0)
  }

  lemma TrimSpec(widths: map<Rid, nat>, spec: map<Rid, seq<int>>, done: seq<Rid>, spec': map<Rid, seq<int>>, rid: Rid, w: nat)
    requires (forall x :: x in done ==> x in spec) && rid in spec && rid !in done && w == Allowed(widths, rid, spec[rid])
    requires TrimmingSpec(widths, spec, done, spec')
    ensures TrimmingSpec(widths, spec, done + [rid], if w > 0 then spec'[rid := spec[rid][..w]] else spec')
  {}

  lemma TrimNum(widths: map<Rid, nat>, spec: map<Rid, seq<int>>, num: map<Rid, int>, done: seq<Rid>, num': map<Rid, int>, rid: Rid, w: nat)
    requires (forall x :: x in done ==> x in spec) && spec.Keys <= num.Keys && rid in spec && rid !in done
    requires w == Allowed(widths, rid, spec[rid]) && TrimmingNum(widths, spec, num, done, num')
    ensures TrimmingNum(widths, spec, num, done + [rid], if w < |spec[rid]| then num'[rid := num'[rid] - (|spec[rid]| - w)] else num')
  {}

  lemma TrimOne(widths: map<Rid, nat>, spec: map<Rid, seq<int>>, num: map<Rid, int>, done: seq<Rid>,
                spec': map<Rid, seq<int>>, num': map<Rid, int>, cut: nat, rid: Rid)
    requires (forall x :: x in done ==> x in spec) && spec.Keys <= num.Keys && rid in spec && rid !in done
    requires Trimming(widths, spec, num, done, spec', num', cut)
    ensures var w := Allowed(widths, rid, spec[rid]);
      Trimming(widths, spec, num, done + [rid],
               if w > 0 then spec'[rid := spec[rid][..w]] else spec',
               if w < |spec[rid]| then num'[rid := num'[rid] - (|spec[rid]| - w)] else num', cut + (|spec[rid]| - w))
  {
    TrimSpec(widths, spec, done, spec', rid, Allowed(widths, rid, spec[rid]));
    TrimNum(widths, spec, num, done, num', rid, Allowed(widths, rid, spec[rid]));
    assert (done + [rid])[..|done|] == done;
  }

  /** Nothing was cut: the trimmed maps are the given ones. */
  lemma NothingCut(widths: map<Rid, nat>, spec: map<Rid, seq<int>>, order: seq<Rid>, rid: Rid)
    requires (forall x :: x in order ==> x in spec) && Cuts(widths, spec, order) == 0 && rid in order
    ensures Allowed(widths, rid, spec[rid]) == |spec[rid]|
  {
    if order[|order| - 1] != rid { NothingCut(widths, spec, order[..|order| - 1], rid); }
  }

  /** The body of the loop: one row. */
  method CutRow(widths: map<Rid, nat>, spec: map<Rid, seq<int>>, ghost num: map<Rid, int>, ghost done: seq<Rid>, rid: Rid,
                spec0: map<Rid, seq<int>>, num0: map<Rid, int>, cut0: nat)
    returns (spec': map<Rid, seq<int>>, num': map<Rid, int>, cut: nat)
    requires (forall x :: x in done ==> x in spec) && spec.Keys <= num.Keys && rid in spec && rid !in done
    requires Trimming(widths, spec, num, done, spec0, num0, cut0)
    ensures Trimming(widths, spec, num, done + [rid], spec', num', cut)
  {
    var toks := spec[rid];
    var w := Allowed(widths, rid, toks);
    TrimOne(widths, spec, num, done, spec0, num0, cut0, rid);
    num' := if w < |toks| then num0[rid := num0[rid] - (|toks| - w)] else num0;
    spec' := if w > 0 then spec0[rid := toks[..w]] else spec0;
    cut := cut0 + (|toks| - w);
  }

  method CutRows(widths: map<Rid, nat>, spec: map<Rid, seq<int>>, num: map<Rid, int>, order: seq<Rid>)
    returns (spec': map<Rid, seq<int>>, num': map<Rid, int>, cut: nat)
    requires spec.Keys <= num.Keys && Enumerates(order, spec.Keys)
    ensures Trimming(widths, spec, num, order, spec', num', cut)
  {
    spec', num', cut := map[], num, 0;
    ghost var done := [];
    for i := 0 to |order|
      invariant done == order[..i] && forall rid :: rid in done ==> rid in spec
      invariant Trimming(widths, spec, num, done, spec', num', cut)
    {
      Fresh(order, i);
      spec', num', cut := CutRow(widths, spec, num, done, order[i], spec', num', cut);
      done := done + [order[i]];
    }
    assert order[..|order|] == order;
  }

  lemma Fresh(order: seq<Rid>, i: nat)
    requires i < |order| && forall a, b :: 0 <= a < b < |order| ==> order[a] != order[b]
    ensures order[i] !in order[..i] && order[..i + 1] == order[..i] + [order[i]]
  {}

  /** The scheduler's own object is never touched. What is returned is that object when nothing has to
      be cut, and otherwise a new one whose rows, counts and total are cut consistently. */
  method Trim(so: SchedulerOutput, widths: map<Rid, nat>, order: seq<Rid>) returns (r: SchedulerOutput)
    requires so.spec.Keys <= so.num.Keys && Enumerates(order, so.spec.Keys)
    ensures unchanged(so) && (r == so || fresh(r))
    ensures so.structured ==> r == so
    ensures !so.structured && r == so ==> forall rid :: rid in so.spec ==> Allowed(widths, rid, so.spec[rid]) == |so.spec[rid]|
    ensures r != so ==> Trimmed(widths, so.spec, so.num, so.total, order, r.spec, r.num, r.total)
  {
    if so.spec == map[] || so.structured { return so; }
    var spec, num, cut := CutRows(widths, so.spec, so.num, order);
    if cut == 0 {
      forall rid | rid in so.spec ensures Allowed(widths, rid, so.spec[rid]) == |so.spec[rid]| {
        NothingCut(widths, so.spec, order, rid);
      }
      return so;
    }
    r := new SchedulerOutput(spec, num, so.total - cut, so.structured);
  }

  /** A scheduled row has room for its sampled token besides its drafts; it still has after the trim. */
  lemma OneTokenStays(widths: map<Rid, nat>, spec: map<Rid, seq<int>>, num: map<Rid, int>, total: int,
                      order: seq<Rid>, spec': map<Rid, seq<int>>, num': map<Rid, int>, total': int, rid: Rid)
    requires spec.Keys <= num.Keys && Enumerates(order, spec.Keys)
    requires Trimmed(widths, spec, num, total, order, spec', num', total')
    requires rid in num && num[rid] >= 1 + (if rid in spec then |spec[rid]| else 0)
    ensures num'[rid] >= 1 + (if rid in spec' then |spec'[rid]| else 0)
  {}

  /** No real draft that was scheduled is lost: a row whose width was computed from its candidate keeps,
      of however many drafts, as many as the device can find real. */
  lemma RealDraftsStay(widths: map<Rid, nat>, rid: Rid, toks: seq<int>, r: Packed, history: seq<int>, total: int, k: nat)
    requires |history| >= 1 && r.clen >= 0
    requires Width(r.clen, k) > 0 ==> rid in widths && widths[rid] == Width(r.clen, k)
    ensures Min(RealCount(r, history, total, k), |toks|) <= Allowed(widths, rid, toks)
  {
    RealWithinWidth(r, history, total, k);
  }

  // ---- what widths and totals come to --------------------------------------

  lemma {:induction false} LastOfIs(pids: seq<Rid>, rid: Rid, j: nat)
    ensures LastOf(pids, rid) == Some(j) <==> j < |pids| && pids[j] == rid && forall i :: j < i < |pids| ==> pids[i] != rid
    ensures LastOf(pids, rid) == None <==> forall i :: 0 <= i < |pids| ==> pids[i] != rid
  {
    if pids != [] {
      var init := pids[..|pids| - 1];
      LastOfIs(init, rid, j);
      assert forall i :: 0 <= i < |init| ==> pids[i] == init[i];
    }
  }

  /** A row has a lagged total exactly if its request was in the previous step, at the same index, with a
      positive total: that of its last place there. */
  lemma LagTotalIs(ids: seq<Rid>, idx: seq<int>, pids: seq<Rid>, pidx: seq<int>, snap: seq<int>, i: nat, j: nat, t: int)
    requires i < |ids| == |idx| && |pids| == |pidx| <= |snap| && j < |pids|
    requires pids[j] == ids[i] && forall x :: j < x < |pids| ==> pids[x] != ids[i]
    ensures LagTotal(ids, idx, pids, pidx, snap, i) == Some(t) <==> pidx[j] == idx[i] && snap[j] == t && t > 0
  {
    LastOfIs(pids, ids[i], j);
  }

  lemma NoLagTotal(ids: seq<Rid>, idx: seq<int>, pids: seq<Rid>, pidx: seq<int>, snap: seq<int>, i: nat)
    requires i < |ids| == |idx| && |pids| == |pidx| <= |snap| && forall j :: 0 <= j < |pids| ==> pids[j] != ids[i]
    ensures LagTotal(ids, idx, pids, pidx, snap, i) == None
  {
    LastOfIs(pids, ids[i], 0);
  }

  /** The host's width is not wasteful: a row that has sampled just one token, as predicted, has as many real
      drafts. */
  lemma WidthAttained(c: seq<int>, p: nat, lc: nat, history: seq<int>, k: nat)
    requires |c| <= lc && lc >= 1 && p + 1 <= |history| && Predicted(c, p, history, p + 1)
    ensures RealCount(Pack(c, p, lc), history, p + 1, k) == Width(|c|, k) == Min(k, |c| - 1)
  {
    ResolveIsContinuation(c, p, lc, history, p + 1, k);
  }

  /** A row keeps as many drafts as its width says, none without one, and no more than it has. */
  lemma AllowedIs(widths: map<Rid, nat>, rid: Rid, toks: seq<int>, n: nat)
    ensures n <= Allowed(widths, rid, toks) <==> n <= |toks| && (n == 0 || (rid in widths && n <= widths[rid]))
  {}
}
