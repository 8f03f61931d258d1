/** The autotuner's default candidate, which stays in the race when it fails: it loses the column of the
    size at which it failed, and no other. */
module AutotuneDefault {
  import opened Autotune
  import opened AutotuneFailures

  /** The default is still to be measured at this size. */
  predicate Todo(l: Local, c: nat) {
    Creating(l.pc) || (Measuring(l.pc) && (c > l.pc.i || (c == l.pc.i && DEFAULT in l.pc.queue)))
  }

  predicate Unmeasured(j: Job, l: Local) { forall c :: 0 <= c < j.sizes && Todo(l, c) ==> Cell(l, DEFAULT, c) == Inf }

  /** The column has been measured, or given up, without a time, and will not be measured again. */
  predicate Lost(j: Job, l: Local, i: nat) { i < j.sizes && Cell(l, DEFAULT, i) == Inf && !Todo(l, i) }

  predicate TellingAt(l: Local, i: nat) {
    l.pc.Measured? && l.pc.bad && l.pc.i == i && l.pc.queue != [] && l.pc.queue[0] == DEFAULT
  }

  predicate FailsAt(l: Local, o: Outcome, i: nat) {
    l.pc.Measure? && o.time.None? && l.pc.i == i && l.pc.queue != [] && l.pc.queue[0] == DEFAULT
  }

  /** Some rank failed to measure the default at size i. */
  ghost predicate FailedAt(j: Job, w: nat, seen: seq<seq<Outcome>>, i: nat)
    requires w >= 1 && forall n :: 0 <= n < |seen| ==> |seen[n]| == w
  {
    seen != [] &&
    var last := |seen| - 1;
    FailedAt(j, w, seen[..last], i) || exists r :: 0 <= r < w && FailsAt(Ranks(j, w, seen[..last])[r], seen[last][r], i)
  }

  // ---- one rank -----------------------------------------------------------

  lemma {:induction false} SeekCells(j: Job, l: Local, c: nat)
    ensures Seek(j, l, c).table == l.table
    decreases |j.candidates| - c
  {
    if c < |j.candidates| && j.candidates[c] == DEFAULT { SeekCells(j, l, c + 1); }
  }

  lemma UntouchedIsInf(j: Job, l: Local, m: Local, c: nat)
    requires JobOk(j) && Untouched(l) && m.table == l.table
    ensures Cell(m, DEFAULT, c) == Inf
  {}

  lemma NotedCell(j: Job, l: Local, i: nat, s: Spec, agreed: seq<Time>, c: nat)
    requires |agreed| == 3 && (s != DEFAULT || c != i || !Zero(agreed[1]))
    ensures Cell(Noted(j, l, i, s, agreed), DEFAULT, c) == Cell(l, DEFAULT, c)
  {}

  lemma GoOnTable(j: Job, m: Local, i: nat, q: seq<Spec>, agreed: seq<Time>)
    requires |agreed| == 3 && q != []
    ensures GoOn(j, m, i, q, agreed).table == m.table
  {}

  /** Going on leaves behind every size up to this one, but for what is left of its queue. */
  lemma GoOnTodo(j: Job, m: Local, i: nat, q: seq<Spec>, agreed: seq<Time>, c: nat)
    requires |agreed| == 3 && q != [] && NoDup(q)
    ensures Todo(GoOn(j, m, i, q, agreed), c) ==> c > i || (c == i && DEFAULT in q && q[0] != DEFAULT)
  {
    TailSound(q);
  }

  lemma MeasuredUnmeasured(j: Job, l: Local, o: Outcome, agreed: seq<Time>)
    requires JobOk(j) && Sound(j, l) && l.pc.Measured? && |agreed| == 3 && Unmeasured(j, l)
    ensures Unmeasured(j, Resume(j, l, o, agreed))
  {
    var i, q, m := l.pc.i, l.pc.queue, Resume(j, l, o, agreed);
    MeasuredIs(j, l, o, agreed);
    GoOnTable(j, Noted(j, l, i, q[0], agreed), i, q, agreed);
    forall c | 0 <= c < j.sizes && Todo(m, c) ensures Cell(m, DEFAULT, c) == Inf {
      GoOnTodo(j, Noted(j, l, i, q[0], agreed), i, q, agreed, c);
      NotedCell(j, l, i, q[0], agreed, c);
      assert Todo(l, c);
    }
  }

  lemma ResumeUnmeasured(j: Job, l: Local, o: Outcome, agreed: seq<Time>)
    requires JobOk(j) && Sound(j, l) && |agreed| == Width(l) && Unmeasured(j, l)
    ensures Unmeasured(j, Resume(j, l, o, agreed))
  {
    match l.pc
    case Budget(c) => SeekCells(j, l, c + 1); CreatingUnmeasured(j, l, Resume(j, l, o, agreed));
    case Make(c) => CreatingUnmeasured(j, l, Resume(j, l, o, agreed));
    case Made(c, ok) =>
      SeekCells(j, l.(comms := l.comms + {j.candidates[c]}), c + 1);
      SeekCells(j, l.(errors := l.errors + {j.candidates[c]}), c + 1);
      CreatingUnmeasured(j, l, Resume(j, l, o, agreed));
    case Measured(i, q, t, bad) => MeasuredUnmeasured(j, l, o, agreed);
    case _ => SameTodo(j, l, Resume(j, l, o, agreed));
  }

  lemma CreatingUnmeasured(j: Job, l: Local, m: Local)
    requires JobOk(j) && Sound(j, l) && Creating(l.pc) && m.table == l.table
    ensures Unmeasured(j, m)
  {
    forall c | 0 <= c < j.sizes && Todo(m, c) ensures Cell(m, DEFAULT, c) == Inf { UntouchedIsInf(j, l, m, c); }
  }

  lemma SameTodo(j: Job, l: Local, m: Local)
    requires Unmeasured(j, l) && m.table == l.table && forall c: nat :: Todo(m, c) ==> Todo(l, c)
    ensures Unmeasured(j, m)
  {
    forall c | 0 <= c < j.sizes && Todo(m, c) ensures Cell(m, DEFAULT, c) == Inf {
      assert Todo(l, c);
      assert Cell(l, DEFAULT, c) == Inf;
    }
  }

  lemma MeasuredLost(j: Job, l: Local, o: Outcome, agreed: seq<Time>, i: nat)
    requires JobOk(j) && Sound(j, l) && l.pc.Measured? && |agreed| == 3 && Lost(j, l, i)
    ensures Lost(j, Resume(j, l, o, agreed), i)
  {
    var n, q := l.pc.i, l.pc.queue;
    MeasuredIs(j, l, o, agreed);
    GoOnTable(j, Noted(j, l, n, q[0], agreed), n, q, agreed);
    GoOnTodo(j, Noted(j, l, n, q[0], agreed), n, q, agreed, i);
    assert q[0] in q;
    NotedCell(j, l, n, q[0], agreed, i);
  }

  lemma ResumeLost(j: Job, l: Local, o: Outcome, agreed: seq<Time>, i: nat)
    requires JobOk(j) && Sound(j, l) && |agreed| == Width(l) && Lost(j, l, i)
    ensures Lost(j, Resume(j, l, o, agreed), i)
  {
    if l.pc.Measured? { MeasuredLost(j, l, o, agreed, i); }
  }

  /** A rank that learns of the failure keeps its table as it is, and gives the column up. */
  lemma ResumeFailed(j: Job, l: Local, o: Outcome, agreed: seq<Time>, i: nat)
    requires JobOk(j) && Sound(j, l) && Unmeasured(j, l) && l.pc.Measured? && l.pc.i == i && l.pc.queue[0] == DEFAULT
    requires |agreed| == 3 && !Zero(agreed[1])
    ensures Resume(j, l, o, agreed).table == l.table && Lost(j, Resume(j, l, o, agreed), i)
  {
    var q := l.pc.queue;
    MeasuredIs(j, l, o, agreed);
    GoOnTable(j, Noted(j, l, i, q[0], agreed), i, q, agreed);
    GoOnTodo(j, Noted(j, l, i, q[0], agreed), i, q, agreed, i);
    assert q[0] in q && Todo(l, i);
  }

  // ---- all ranks ----------------------------------------------------------

  ghost predicate AllUnmeasured(j: Job, ls: seq<Local>) { forall r :: 0 <= r < |ls| ==> Unmeasured(j, ls[r]) }

  lemma {:induction false} RanksUnmeasured(j: Job, w: nat, seen: seq<seq<Outcome>>)
    requires JobOk(j) && w >= 1 && forall n :: 0 <= n < |seen| ==> |seen[n]| == w
    ensures AllUnmeasured(j, Ranks(j, w, seen))
  {
    if seen == [] {
      SeekCells(j, Local(Finished, map c | c in j.candidates :: Infinite(j.sizes), {DEFAULT}, [], {}), 0);
    } else {
      var ls, os := Ranks(j, w, seen[..|seen| - 1]), seen[|seen| - 1];
      RanksUnmeasured(j, w, seen[..|seen| - 1]);
      RanksSound(j, w, seen[..|seen| - 1]);
      LockStep(j, w, seen[..|seen| - 1]);
      forall q | 0 <= q < w ensures Width(ls[q]) == Width(ls[0]) { assert Same(ls[0], ls[q]); }
      AgreedWidth(ls, os, Width(ls[0]));
      forall r | 0 <= r < w ensures Unmeasured(j, Step(j, ls, os)[r]) {
        assert Unmeasured(j, ls[r]);
        ResumeUnmeasured(j, ls[r], os[r], Agreed(ls, os));
      }
    }
  }

  /** When a rank tells that the default failed, every rank's table stays as it is, on that step, in every
      column; and every rank gives the column up. */
  lemma DefaultKeepsColumns(j: Job, ls: seq<Local>, os: seq<Outcome>, r: nat, i: nat, q: nat)
    requires JobOk(j) && |ls| == |os| >= 1 && AllSame(ls) && r < |ls| && q < |ls| && TellingAt(ls[r], i)
    requires Sound(j, ls[q]) && Unmeasured(j, ls[q])
    ensures Step(j, ls, os)[q].table == ls[q].table && Lost(j, Step(j, ls, os)[q], i)
  {
    AllLearn(j, ls, os, r, DEFAULT);
    assert Same(ls[r], ls[q]);
    ResumeFailed(j, ls[q], os[q], Agreed(ls, os), i);
  }

  ghost predicate ToldAt(j: Job, ls: seq<Local>, i: nat) {
    (exists r :: 0 <= r < |ls| && TellingAt(ls[r], i)) || forall r :: 0 <= r < |ls| ==> Lost(j, ls[r], i)
  }

  lemma StepToldAt(j: Job, ls: seq<Local>, os: seq<Outcome>, i: nat)
    requires JobOk(j) && |ls| == |os| >= 1 && AllSame(ls) && AllUnmeasured(j, ls)
    requires (forall r :: 0 <= r < |ls| ==> Sound(j, ls[r])) && ToldAt(j, ls, i)
    ensures ToldAt(j, Step(j, ls, os), i)
  {
    if r :| 0 <= r < |ls| && TellingAt(ls[r], i) {
      forall q | 0 <= q < |ls| ensures Lost(j, Step(j, ls, os)[q], i) { DefaultKeepsColumns(j, ls, os, r, i, q); }
    } else {
      forall q | 0 <= q < |ls| ensures Width(ls[q]) == Width(ls[0]) { assert Same(ls[0], ls[q]); }
      AgreedWidth(ls, os, Width(ls[0]));
      forall q | 0 <= q < |ls| ensures Lost(j, Step(j, ls, os)[q], i) {
        assert Lost(j, ls[q], i);
        ResumeLost(j, ls[q], os[q], Agreed(ls, os), i);
      }
    }
  }

  lemma {:induction false} FailedToldAt(j: Job, w: nat, seen: seq<seq<Outcome>>, i: nat)
    requires JobOk(j) && w >= 1 && (forall n :: 0 <= n < |seen| ==> |seen[n]| == w) && FailedAt(j, w, seen, i)
    ensures ToldAt(j, Ranks(j, w, seen), i)
  {
    var last := |seen| - 1;
    var ls, os := Ranks(j, w, seen[..last]), seen[last];
    RanksSound(j, w, seen[..last]);
    RanksUnmeasured(j, w, seen[..last]);
    LockStep(j, w, seen[..last]);
    if FailedAt(j, w, seen[..last], i) {
      FailedToldAt(j, w, seen[..last], i);
      StepToldAt(j, ls, os, i);
    } else {
      var r :| 0 <= r < w && FailsAt(ls[r], os[r], i);
      assert TellingAt(Step(j, ls, os)[r], i);
    }
  }

  /** When the ranks are through, the default has no time, on any rank, at a size where it failed on some. */
  lemma DefaultLosesColumn(j: Job, w: nat, seen: seq<seq<Outcome>>, i: nat, r: nat, q: nat)
    requires JobOk(j) && w >= 1 && (forall n :: 0 <= n < |seen| ==> |seen[n]| == w) && r < w && q < w
    requires FailedAt(j, w, seen, i) && Ranks(j, w, seen)[r].pc == Finished
    ensures Ranks(j, w, seen)[q].pc == Finished && Cell(Ranks(j, w, seen)[q], DEFAULT, i) == Inf
  {
    var ls := Ranks(j, w, seen);
    FailedToldAt(j, w, seen, i);
    LockStep(j, w, seen);
    forall p | 0 <= p < w ensures ls[p].pc == Finished { assert Same(ls[r], ls[p]); }
    assert Lost(j, ls[q], i);
  }
}
