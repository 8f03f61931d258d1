/** Row matching and draft choice of src/engine.rs, as functions. */
module EngineRows {
  import opened SuffixCorpus
  import opened SuffixDraft
  import Ngram
  import opened IntMath

  const FP := 64

  // ---- which snapshot a row continues -------------------------------------

  /** v agrees with the row on its first FP tokens and on the FP tokens that end at its own length. */
  predicate PrefixOfRow(v: seq<int>, row: seq<int>) {
    var m := |v|;
    var w := Min(FP, m);
    0 < m <= |row| && v[..w] == row[..w] && v[m - w..] == row[m - w..m]
  }

  /** The two windows cover a snapshot of up to 2 * FP tokens, so there the check is exact. */
  lemma ShortPrefixExact(v: seq<int>, row: seq<int>)
    requires 0 < |v| <= 2 * FP
    ensures PrefixOfRow(v, row) <==> v <= row
  {
    var m, w := |v|, Min(FP, |v|);
    if PrefixOfRow(v, row) {
      forall i | 0 <= i < m ensures v[i] == row[i] {
        if i < w { assert v[..w][i] == row[..w][i]; } else { assert v[m - w..][i - (m - w)] == row[m - w..m][i - (m - w)]; }
      }
    }
    if v <= row { assert v == row[..m]; }
  }

  datatype Slot = Gone | Kept(row: seq<int>)

  predicate Continued(slots: seq<Slot>, j: int, row: seq<int>) {
    0 <= j < |slots| && slots[j].Kept? && PrefixOfRow(slots[j].row, row)
  }

  function FirstContinued(slots: seq<Slot>, row: seq<int>, j: nat): (k: nat)
    requires j <= |slots|
    ensures j <= k <= |slots| && (k < |slots| ==> Continued(slots, k, row))
    ensures forall x :: j <= x < k ==> !Continued(slots, x, row)
    decreases |slots| - j
  {
    if j == |slots| || Continued(slots, j, row) then j else FirstContinued(slots, row, j + 1)
  }

  /** Row i continues its own snapshot if it can, else the first that it can (|slots| if none). */
  function Choice(slots: seq<Slot>, i: nat, row: seq<int>): (k: nat)
    ensures k <= |slots| && (k < |slots| ==> Continued(slots, k, row))
  {
    if Continued(slots, i, row) then i else FirstContinued(slots, row, 0)
  }

  function Take(slots: seq<Slot>, k: nat): seq<Slot> {
    if k < |slots| then slots[k := Gone] else slots
  }

  /** The snapshots left after the first m rows have been matched. */
  function Left(slots: seq<Slot>, rows: seq<seq<int>>, m: nat): seq<Slot>
    requires m <= |rows|
  {
    if m == 0 then slots else Take(Left(slots, rows, m - 1), Choice(Left(slots, rows, m - 1), m - 1, rows[m - 1]))
  }

  /** The snapshot that row i continues, [] if it continues none. */
  function Snapshot(slots: seq<Slot>, rows: seq<seq<int>>, i: nat): (v: seq<int>)
    requires i < |rows|
    ensures |v| <= |rows[i]| && (v == [] || PrefixOfRow(v, rows[i]))
  {
    var left := Left(slots, rows, i);
    var k := Choice(left, i, rows[i]);
    if k < |left| then left[k].row else []
  }

  /** A row's context: the snapshot, then the rest of the row. */
  function Context(slots: seq<Slot>, rows: seq<seq<int>>, i: nat): (c: seq<int>)
    requires i < |rows|
    ensures |c| == |rows[i]|
  {
    Snapshot(slots, rows, i) + rows[i][|Snapshot(slots, rows, i)|..]
  }

  /** The context is the row itself if and only if the snapshot is a prefix of it: always, if boundary
      windows tell prefixes; always for snapshots of up to 2 * FP tokens. */
  lemma ContextExact(slots: seq<Slot>, rows: seq<seq<int>>, i: nat)
    requires i < |rows|
    ensures Context(slots, rows, i) == rows[i] <==> Snapshot(slots, rows, i) <= rows[i]
    ensures |Snapshot(slots, rows, i)| <= 2 * FP ==> Context(slots, rows, i) == rows[i]
  {
    var v, c := Snapshot(slots, rows, i), Context(slots, rows, i);
    assert c[..|v|] == v;
    if v <= rows[i] { assert rows[i] == v + rows[i][|v|..]; }
    if c == rows[i] { assert v == rows[i][..|v|]; }
    if 0 < |v| <= 2 * FP { ShortPrefixExact(v, rows[i]); }
  }

  function Rows(slots: seq<Slot>): seq<seq<int>> {
    if slots == [] then []
    else Rows(slots[..|slots| - 1]) + (if slots[|slots| - 1].Kept? then [slots[|slots| - 1].row] else [])
  }

  function Slots(rows: seq<seq<int>>): seq<Slot> {
    seq(|rows|, i requires 0 <= i < |rows| => Kept(rows[i]))
  }

  lemma {:induction false} RowsOfSlots(rows: seq<seq<int>>)
    ensures Rows(Slots(rows)) == rows
  {
    if rows != [] {
      RowsOfSlots(rows[..|rows| - 1]);
      assert Slots(rows)[..|rows| - 1] == Slots(rows[..|rows| - 1]);
      assert rows == rows[..|rows| - 1] + [rows[|rows| - 1]];
    }
  }

  function TakenAt(slots: seq<Slot>, rows: seq<seq<int>>, i: nat): seq<seq<int>>
    requires i < |rows|
  {
    var left := Left(slots, rows, i);
    if Choice(left, i, rows[i]) < |left| then [Snapshot(slots, rows, i)] else []
  }

  /** The snapshots that the first m rows continue. */
  function Taken(slots: seq<Slot>, rows: seq<seq<int>>, m: nat): seq<seq<int>>
    requires m <= |rows|
  {
    if m == 0 then [] else Taken(slots, rows, m - 1) + TakenAt(slots, rows, m - 1)
  }

  /** a holds what b and c hold, each as often. */
  ghost predicate Shares(a: seq<seq<int>>, b: seq<seq<int>>, c: seq<seq<int>>) {
    multiset(a) == multiset(b) + multiset(c)
  }

  lemma SharesNone(a: seq<seq<int>>)
    ensures Shares(a, a, [])
  {}

  lemma SharesMore(a: seq<seq<int>>, b: seq<seq<int>>, c: seq<seq<int>>, x: seq<seq<int>>)
    requires Shares(a, b, c)
    ensures Shares(a + x, b + x, c)
  {}

  lemma SharesOne(a: seq<seq<int>>, v: seq<int>)
    ensures Shares(a + [v], a + [], [v])
  {}

  lemma Regroup(all: seq<seq<int>>, left: seq<seq<int>>, rest: seq<seq<int>>, t: seq<seq<int>>, u: seq<seq<int>>)
    requires Shares(all, left, t) && Shares(left, rest, u)
    ensures Shares(all, rest, t + u)
  {}

  lemma {:induction false} TakeOne(slots: seq<Slot>, k: nat)
    requires k < |slots| && slots[k].Kept?
    ensures Shares(Rows(slots), Rows(slots[k := Gone]), [slots[k].row])
  {
    var n := |slots| - 1;
    if k == n {
      assert slots[k := Gone][..n] == slots[..n];
      SharesOne(Rows(slots[..n]), slots[k].row);
    } else {
      TakeOne(slots[..n], k);
      assert slots[k := Gone][..n] == slots[..n][k := Gone];
      SharesMore(Rows(slots[..n]), Rows(slots[..n][k := Gone]), [slots[k].row], if slots[n].Kept? then [slots[n].row] else []);
    }
  }

  lemma TakeStep(slots: seq<Slot>, rows: seq<seq<int>>, m: nat)
    requires m < |rows|
    ensures Shares(Rows(Left(slots, rows, m)), Rows(Left(slots, rows, m + 1)), TakenAt(slots, rows, m))
  {
    var left := Left(slots, rows, m);
    var k := Choice(left, m, rows[m]);
    if k < |left| { TakeOne(left, k); } else { SharesNone(Rows(left)); }
  }

  /** Every snapshot is either continued by exactly one row or left over: none is lost or used twice. */
  lemma {:induction false} SnapshotsKept(slots: seq<Slot>, rows: seq<seq<int>>, m: nat)
    requires m <= |rows|
    ensures Shares(Rows(slots), Rows(Left(slots, rows, m)), Taken(slots, rows, m))
  {
    if m > 0 {
      var n := m - 1;
      SnapshotsKept(slots, rows, n);
      TakeStep(slots, rows, n);
      Regroup(Rows(slots), Rows(Left(slots, rows, n)), Rows(Left(slots, rows, n + 1)), Taken(slots, rows, n), TakenAt(slots, rows, n));
    } else {
      SharesNone(Rows(slots));
    }
  }

  /** So of the rows of the last step, each is continued by one row of this step or handed to the corpus. */
  lemma OldRowsKept(was: seq<seq<int>>, rows: seq<seq<int>>)
    ensures Shares(was, Rows(Left(Slots(was), rows, |rows|)), Taken(Slots(was), rows, |rows|))
  {
    RowsOfSlots(was);
    SnapshotsKept(Slots(was), rows, |rows|);
  }

  // ---- what goes to the corpus --------------------------------------------

  /** The corpus after adding rows in order. */
  function AllAdded(c: seq<Entry>, cfg: Config, next: nat, rows: seq<seq<int>>): seq<Entry>
  {
    if rows == [] then c
    else Added(AllAdded(c, cfg, next, rows[..|rows| - 1]), cfg, NextAll(cfg, next, rows[..|rows| - 1]), rows[|rows| - 1])
  }

  function NextAll(cfg: Config, next: nat, rows: seq<seq<int>>): nat {
    if rows == [] then next else NextId(cfg, NextAll(cfg, next, rows[..|rows| - 1]), rows[|rows| - 1])
  }

  // ---- which draft --------------------------------------------------------

  datatype Limits = Limits(k: nat, maxLen: nat, lo: nat, hi: nat, window: nat, useNgram: bool)

  function RowCap(l: Limits, context: seq<int>): nat {
    Min(l.k, if |context| <= l.maxLen then l.maxLen - |context| else 0)
  }

  function NgramHit(l: Limits, context: seq<int>): Ngram.Hit {
    if l.useNgram then Ngram.Found(context, l.lo, l.hi, RowCap(l, context), l.window) else Ngram.Miss
  }

  function Weight(score: real, d: seq<int>): real { score * |d| as real }

  /** The suffix draft unless it is empty or the n-gram draft promises more. */
  function Preferred(suffix: seq<int>, score: real, ng: seq<int>, ngScore: real): seq<int> {
    if suffix != [] && Weight(score, suffix) >= Weight(ngScore, ng) then suffix else ng
  }

  /** The score a suffix draft needs for the n-gram scan to be skipped. */
  function Ceiling(l: Limits, cap: nat): real { Ngram.Fraction(l.hi) * cap as real }

  /** The draft of a row, with both drafts always computed. */
  ghost predicate Drafted(l: Limits, cfg: Config, c: seq<Entry>, context: seq<int>, idle: bool, d: seq<int>) {
    var cap := RowCap(l, context);
    if idle || cap == 0 then d == []
    else exists suffix, score, best :: Speculated(cfg, c, context, cap, suffix, score, best)
           && d == Preferred(suffix, score, Ngram.Continuation(context, NgramHit(l, context), cap), Ngram.OrderScore(NgramHit(l, context)))
  }

  lemma WeightBound(a: real, b: real, m: nat, n: nat)
    requires 0.0 <= a <= b && m <= n
    ensures 0.0 <= a * m as real <= b * n as real
  {
    MulGrows(a, b, m as real);
    MulGrows(m as real, n as real, b);
  }

  lemma MulGrows(x: real, y: real, z: real)
    requires x <= y && z >= 0.0
    ensures x * z <= y * z
  {}

  lemma FractionPositive(n: nat)
    requires n >= 1
    ensures Ngram.Fraction(n) > 0.0
  {}

  lemma Positive(x: real, n: nat)
    requires x > 0.0 && n > 0
    ensures x * n as real > 0.0
  {}

  lemma Dominates(suffix: seq<int>, score: real, ng: seq<int>, ngScore: real, ceiling: real)
    requires Weight(score, suffix) >= ceiling >= Weight(ngScore, ng) && ceiling > 0.0
    ensures suffix != [] && Preferred(suffix, score, ng, ngScore) == suffix
  {
    assert suffix == [] ==> Weight(score, suffix) == 0.0;
  }

  lemma WeightBelow(score: real, d: seq<int>, f: real, cap: nat)
    requires 0.0 <= score <= f && f > 0.0 && |d| <= cap && cap > 0
    ensures Weight(score, d) <= f * cap as real && f * cap as real > 0.0
  {
    WeightBound(score, f, |d|, cap);
    Positive(f, cap);
  }

  lemma HitBelow(l: Limits, context: seq<int>, cap: nat)
    requires cap == RowCap(l, context)
    ensures var h := NgramHit(l, context);
      0.0 <= Ngram.OrderScore(h) <= Ngram.Fraction(l.hi) && |Ngram.Continuation(context, h, cap)| <= cap
  {
    Ngram.HitDraft(context, l.lo, l.hi, cap, l.window);
    Ngram.FractionGrows(0, l.hi);
  }

  lemma DominatesScaled(suffix: seq<int>, score: real, ng: seq<int>, ngScore: real, f: real, cap: nat)
    requires Weight(score, suffix) >= f * cap as real && 0.0 <= ngScore <= f && f > 0.0 && |ng| <= cap && cap > 0
    ensures Preferred(suffix, score, ng, ngScore) == suffix
  {
    WeightBelow(ngScore, ng, f, cap);
    Dominates(suffix, score, ng, ngScore, f * cap as real);
  }

  /** When the suffix draft reaches the ceiling it is chosen whatever the scan would find, so skipping
      the scan changes nothing. */
  lemma SkipSafe(l: Limits, context: seq<int>, suffix: seq<int>, score: real)
    requires RowCap(l, context) > 0 && Weight(score, suffix) >= Ceiling(l, RowCap(l, context)) && l.hi >= 1
    ensures var h := NgramHit(l, context);
      Preferred(suffix, score, Ngram.Continuation(context, h, RowCap(l, context)), Ngram.OrderScore(h)) == suffix
    ensures Preferred(suffix, score, [], 0.0) == suffix
  {
    var h, cap := NgramHit(l, context), RowCap(l, context);
    HitBelow(l, context, cap);
    FractionPositive(l.hi);
    DominatesScaled(suffix, score, Ngram.Continuation(context, h, cap), Ngram.OrderScore(h), Ngram.Fraction(l.hi), cap);
    DominatesScaled(suffix, score, [], 0.0, Ngram.Fraction(l.hi), cap);
  }

  // ---- what a row comes to ------------------------------------------------

  /** Of the two drafts the one with the larger score times length is chosen, the suffix draft if they are
      equal and it is not empty. */
  lemma PreferredIs(suffix: seq<int>, score: real, ng: seq<int>, ngScore: real)
    ensures Preferred(suffix, score, ng, ngScore) ==
      if suffix == [] || score * |suffix| as real < ngScore * |ng| as real then ng else suffix
  {}

  /** A draft has at most k tokens and stays, with its context, within the model's length. */
  lemma DraftFits(l: Limits, cfg: Config, c: seq<Entry>, next: nat, context: seq<int>, idle: bool, d: seq<int>)
    requires ConfigOk(cfg) && Ordered(c, next) && Drafted(l, cfg, c, context, idle, d)
    ensures |d| <= l.k && (|context| <= l.maxLen ==> |context| + |d| <= l.maxLen)
    ensures idle || |context| >= l.maxLen ==> d == []
  {
    var cap := RowCap(l, context);
    if !idle && cap > 0 {
      var suffix, score, best :| Speculated(cfg, c, context, cap, suffix, score, best)
        && d == Preferred(suffix, score, Ngram.Continuation(context, NgramHit(l, context), cap), Ngram.OrderScore(NgramHit(l, context)));
      HitBelow(l, context, cap);
      if suffix != [] { DraftIsContinuation(cfg, c, next, context, cap, suffix, score, best); }
    }
  }
}
