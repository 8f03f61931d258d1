/** What the autotuner's table says of candidates that failed somewhere, and that it always ends. */
module AutotuneFailures {
  import opened Autotune

  // ---- what every rank keeps ----------------------------------------------

  predicate AllInf(s: seq<Time>) { forall i :: 0 <= i < |s| ==> s[i] == Inf }

  predicate NoDup(s: seq<Spec>) { forall a, b :: 0 <= a < b < |s| ==> s[a] != s[b] }

  predicate Creating(pc: Pc) { pc.Budget? || pc.Make? || pc.Made? }

  predicate Measuring(pc: Pc) { pc.Measure? || pc.Measured? }

  predicate Columns(j: Job, l: Local) { forall s :: s in j.candidates ==> s in l.table && |l.table[s]| == j.sizes }

  predicate Untouched(l: Local) { forall s :: s in l.table ==> AllInf(l.table[s]) }

  predicate Sound(j: Job, l: Local) {
    && Columns(j, l) && l.pc != Raised && DEFAULT in l.comms
    && (Creating(l.pc) ==> l.pc.c < |j.candidates| && j.candidates[l.pc.c] != DEFAULT && Untouched(l) && CreatedBelow(j, l, l.pc.c))
    && (Measuring(l.pc) ==> l.pc.i < j.sizes && l.pc.queue != [] && NoDup(l.pc.queue) && NoDup(l.live) && DEFAULT in l.live)
    && (Measuring(l.pc) ==> Known(j, l.pc.queue) && Known(j, l.live))
  }

  predicate Known(j: Job, q: seq<Spec>) { forall s :: s in q ==> s in j.candidates }

  predicate CreatedBelow(j: Job, l: Local, c: nat)
    requires c <= |j.candidates|
  {
    forall s :: s in l.comms ==> s == DEFAULT || s in j.candidates[..c]
  }

  lemma {:induction false} KeptSound(candidates: seq<Spec>, comms: set<Spec>)
    ensures forall s :: s in Kept(candidates, comms) <==> s in candidates && s in comms
    ensures NoDup(candidates) ==> NoDup(Kept(candidates, comms))
  {
    if candidates != [] {
      KeptSound(candidates[1..], comms);
      var rest := Kept(candidates[1..], comms);
      assert candidates == [candidates[0]] + candidates[1..];
      if NoDup(candidates) { assert NoDup(candidates[1..]) && candidates[0] !in candidates[1..]; }
    }
  }

  lemma {:induction false} WithoutSound(s: seq<Spec>, x: Spec)
    ensures forall y :: y in s && y != x ==> y in Without(s, x)
    ensures forall y :: y in Without(s, x) ==> y in s
    ensures NoDup(s) ==> NoDup(Without(s, x)) && x !in Without(s, x)
  {
    if s != [] {
      WithoutSound(s[1..], x);
      assert s == [s[0]] + s[1..];
      if NoDup(s) { assert NoDup(s[1..]) && s[0] !in s[1..]; }
    }
  }

  lemma {:induction false} PrunedSound(j: Job, l: Local, live: seq<Spec>, i: nat, best: Time)
    ensures forall s :: s in Pruned(j, l, live, i, best) ==> s in live
    ensures DEFAULT in live ==> DEFAULT in Pruned(j, l, live, i, best)
    ensures NoDup(live) ==> NoDup(Pruned(j, l, live, i, best))
  {
    if live != [] {
      PrunedSound(j, l, live[1..], i, best);
      assert live == [live[0]] + live[1..];
      if NoDup(live) { assert NoDup(live[1..]) && live[0] !in live[1..]; }
    }
  }

  // ---- candidates that are out --------------------------------------------

  /** s has no time, and will never be created or measured again. */
  predicate Out(j: Job, l: Local, s: Spec) {
    && (s in l.table ==> AllInf(l.table[s]))
    && (Creating(l.pc) ==> l.pc.c < |j.candidates| && s !in l.comms && s !in j.candidates[l.pc.c..])
    && (Measuring(l.pc) ==> s !in l.live && s !in l.pc.queue)
  }

  /** The rank has just seen s fail, and is about to tell the others. */
  predicate Telling(j: Job, l: Local, s: Spec) {
    || (l.pc.Made? && !l.pc.ok && l.pc.c < |j.candidates| && j.candidates[l.pc.c] == s)
    || (l.pc.Measured? && l.pc.bad && l.pc.queue != [] && l.pc.queue[0] == s)
  }

  predicate FailsNow(j: Job, l: Local, o: Outcome, s: Spec) {
    || (l.pc.Make? && !o.made && l.pc.c < |j.candidates| && j.candidates[l.pc.c] == s)
    || (l.pc.Measure? && o.time.None? && l.pc.queue != [] && l.pc.queue[0] == s)
  }

  /** Some rank failed at s during one of the calls. */
  ghost predicate Failed(j: Job, w: nat, seen: seq<seq<Outcome>>, s: Spec)
    requires w >= 1 && forall n :: 0 <= n < |seen| ==> |seen[n]| == w
  {
    seen != [] &&
    var last := |seen| - 1;
    Failed(j, w, seen[..last], s) || exists r :: 0 <= r < w && FailsNow(j, Ranks(j, w, seen[..last])[r], seen[last][r], s)
  }

  // ---- places -------------------------------------------------------------

  lemma {:induction false} SeekSound(j: Job, l: Local, c: nat)
    requires JobOk(j) && Columns(j, l) && Untouched(l) && DEFAULT in l.comms && c <= |j.candidates|
    requires CreatedBelow(j, l, c)
    ensures Sound(j, Seek(j, l, c))
    decreases |j.candidates| - c
  {
    if c < |j.candidates| {
      assert j.candidates[..c + 1] == j.candidates[..c] + [j.candidates[c]];
      if j.candidates[c] == DEFAULT { SeekSound(j, l, c + 1); }
    } else {
      KeptSound(j.candidates, l.comms);
      assert DEFAULT in j.candidates by { assert j.candidates[0] == DEFAULT; }
    }
  }

  lemma {:induction false} SeekOut(j: Job, l: Local, c: nat, s: Spec)
    requires JobOk(j) && s != DEFAULT && c <= |j.candidates| && s !in l.comms && s !in j.candidates[c..]
    requires s in l.table ==> AllInf(l.table[s])
    ensures Out(j, Seek(j, l, c), s)
    decreases |j.candidates| - c
  {
    if c < |j.candidates| {
      assert j.candidates[c..] == [j.candidates[c]] + j.candidates[c + 1..];
      if j.candidates[c] == DEFAULT { SeekOut(j, l, c + 1, s); }
    } else {
      KeptSound(j.candidates, l.comms);
    }
  }

  /** A candidate occurs once. */
  lemma Once(j: Job, c: nat)
    requires JobOk(j) && c < |j.candidates|
    ensures j.candidates[c] !in j.candidates[..c] && j.candidates[c] !in j.candidates[c + 1..]
    ensures j.candidates[..c + 1] == j.candidates[..c] + [j.candidates[c]] && j.candidates[c..] == [j.candidates[c]] + j.candidates[c + 1..]
  {}

  predicate Between(j: Job, l: Local) {
    && Columns(j, l) && DEFAULT in l.comms && NoDup(l.live) && DEFAULT in l.live && Known(j, l.live)
  }

  lemma EndSound(j: Job, l: Local, i: nat)
    requires Between(j, l)
    ensures Sound(j, EndSize(j, l, i))
  {
    PrunedSound(j, l, l.live, i, BestOf(l, l.live, i));
  }

  lemma EndOut(j: Job, l: Local, i: nat, s: Spec)
    requires (s in l.table ==> AllInf(l.table[s])) && s !in l.live
    ensures Out(j, EndSize(j, l, i), s)
  {
    PrunedSound(j, l, l.live, i, BestOf(l, l.live, i));
  }

  /** The state after an exchange about a measurement, before going on. */
  function Noted(j: Job, l: Local, i: nat, s: Spec, agreed: seq<Time>): Local
    requires |agreed| == 3
  {
    if !Zero(agreed[1]) && s != DEFAULT then
      l.(errors := l.errors + {s}, table := l.table[s := Infinite(j.sizes)], live := Without(l.live, s))
    else if Zero(agreed[1]) && s in l.table && i < |l.table[s]| then l.(table := l.table[s := l.table[s][i := agreed[0]]])
    else l
  }

  lemma NotedSound(j: Job, l: Local, i: nat, s: Spec, agreed: seq<Time>)
    requires Sound(j, l) && Measuring(l.pc) && |agreed| == 3
    ensures Between(j, Noted(j, l, i, s, agreed)) && Noted(j, l, i, s, agreed).pc == l.pc
  {
    WithoutSound(l.live, s);
  }

  lemma TailSound(q: seq<Spec>)
    requires q != [] && NoDup(q)
    ensures NoDup(q[1..]) && q[0] !in q[1..] && q == [q[0]] + q[1..]
  {}

  /** Where a rank goes after that. */
  function GoOn(j: Job, m: Local, i: nat, q: seq<Spec>, agreed: seq<Time>): Local
    requires |agreed| == 3 && q != []
  {
    if Over(j.budget, agreed[2]) then m.(pc := Finished)
    else if |q| > 1 then m.(pc := Measure(i, q[1..])) else EndSize(j, m, i)
  }

  lemma MeasuredIs(j: Job, l: Local, o: Outcome, agreed: seq<Time>)
    requires l.pc.Measured? && |agreed| == 3 && l.pc.queue != []
    ensures Resume(j, l, o, agreed) == GoOn(j, Noted(j, l, l.pc.i, l.pc.queue[0], agreed), l.pc.i, l.pc.queue, agreed)
  {}

  lemma GoOnSound(j: Job, m: Local, i: nat, q: seq<Spec>, agreed: seq<Time>)
    requires Between(j, m) && i < j.sizes && q != [] && NoDup(q) && Known(j, q) && |agreed| == 3
    ensures Sound(j, GoOn(j, m, i, q, agreed))
  {
    TailSound(q);
    EndSound(j, m, i);
  }

  lemma MeasuredSound(j: Job, l: Local, o: Outcome, agreed: seq<Time>)
    requires JobOk(j) && Sound(j, l) && l.pc.Measured? && |agreed| == 3
    ensures Sound(j, Resume(j, l, o, agreed))
  {
    var i, q := l.pc.i, l.pc.queue;
    MeasuredIs(j, l, o, agreed);
    NotedSound(j, l, i, q[0], agreed);
    GoOnSound(j, Noted(j, l, i, q[0], agreed), i, q, agreed);
  }

  lemma ResumeSound(j: Job, l: Local, o: Outcome, agreed: seq<Time>)
    requires JobOk(j) && Sound(j, l) && |agreed| == (if l.pc.Measured? then 3 else if l.pc.Budget? || l.pc.Made? then 1 else 0)
    ensures Sound(j, Resume(j, l, o, agreed))
  {
    match l.pc
    case Budget(c) =>
      Once(j, c);
      SeekSound(j, l, c + 1);
    case Made(c, ok) =>
      Once(j, c);
      SeekSound(j, l.(comms := l.comms + {j.candidates[c]}), c + 1);
      SeekSound(j, l.(errors := l.errors + {j.candidates[c]}), c + 1);
    case Measured(i, q, t, bad) => MeasuredSound(j, l, o, agreed);
    case _ =>
  }

  // ---- out stays out ------------------------------------------------------

  lemma MeasuredOut(j: Job, l: Local, o: Outcome, agreed: seq<Time>, s: Spec)
    requires JobOk(j) && Sound(j, l) && l.pc.Measured? && |agreed| == 3 && s != DEFAULT
    requires Out(j, l, s) || (l.pc.queue[0] == s && !Zero(agreed[1]))
    ensures Out(j, Resume(j, l, o, agreed), s)
  {
    var i, q := l.pc.i, l.pc.queue;
    MeasuredIs(j, l, o, agreed);
    TailSound(q);
    WithoutSound(l.live, q[0]);
    EndOut(j, Noted(j, l, i, q[0], agreed), i, s);
  }

  lemma ResumeOut(j: Job, l: Local, o: Outcome, agreed: seq<Time>, s: Spec)
    requires JobOk(j) && Sound(j, l) && s != DEFAULT
    requires |agreed| == (if l.pc.Measured? then 3 else if l.pc.Budget? || l.pc.Made? then 1 else 0)
    requires Out(j, l, s) || (l.pc.Measured? && l.pc.queue[0] == s && !Zero(agreed[1]))
      || (l.pc.Made? && j.candidates[l.pc.c] == s && !Zero(agreed[0]))
    ensures Out(j, Resume(j, l, o, agreed), s)
  {
    match l.pc
    case Budget(c) =>
      Once(j, c);
      SeekOut(j, l, c + 1, s);
    case Make(c) => Once(j, c);
    case Made(c, ok) =>
      Once(j, c);
      if j.candidates[c] != s { SeekOut(j, l.(comms := l.comms + {j.candidates[c]}), c + 1, s); }
      SeekOut(j, l.(errors := l.errors + {j.candidates[c]}), c + 1, s);
    case Measured(i, q, t, bad) => MeasuredOut(j, l, o, agreed, s);
    case _ =>
  }

  // ---- the exchange -------------------------------------------------------

  function Width(l: Local): nat { if l.pc.Measured? then 3 else if l.pc.Budget? || l.pc.Made? then 1 else 0 }

  /** The agreed entries are as many as were contributed. */
  lemma {:induction false} AgreedWidth(ls: seq<Local>, os: seq<Outcome>, w: nat)
    requires |ls| == |os| >= 1 && forall r :: 0 <= r < |ls| ==> Width(ls[r]) == w
    ensures |Agreed(ls, os)| == w
  {
    if |ls| > 1 { AgreedWidth(ls[..|ls| - 1], os[..|os| - 1], w); }
  }

  /** And none is below any rank's. */
  lemma {:induction false} AgreedAbove(ls: seq<Local>, os: seq<Outcome>, w: nat, k: nat, r: nat)
    requires |ls| == |os| >= 1 && (forall q :: 0 <= q < |ls| ==> Width(ls[q]) == w) && k < w && r < |ls| && Width(ls[r]) == w
    ensures |Agreed(ls, os)| == w && !Less(Agreed(ls, os)[k], Contribution(ls[r], os[r])[k])
  {
    AgreedWidth(ls, os, w);
    if |ls| > 1 {
      AgreedWidth(ls[..|ls| - 1], os[..|os| - 1], w);
      if r < |ls| - 1 { AgreedAbove(ls[..|ls| - 1], os[..|os| - 1], w, k, r); }
    }
  }

  /** A failure that one rank reports, all ranks learn. */
  lemma AllLearn(j: Job, ls: seq<Local>, os: seq<Outcome>, r: nat, s: Spec)
    requires |ls| == |os| >= 1 && r < |ls| && AllSame(ls) && Telling(j, ls[r], s)
    ensures |Agreed(ls, os)| == Width(ls[r])
    ensures ls[r].pc.Made? ==> !Zero(Agreed(ls, os)[0])
    ensures ls[r].pc.Measured? ==> !Zero(Agreed(ls, os)[1])
  {
    forall q | 0 <= q < |ls| ensures Width(ls[q]) == Width(ls[r]) { assert Same(ls[r], ls[q]); }
    AgreedAbove(ls, os, Width(ls[r]), if ls[r].pc.Made? then 0 else 1, r);
  }

  // ---- all ranks ----------------------------------------------------------

  ghost predicate Told(j: Job, ls: seq<Local>, s: Spec) {
    (exists r :: 0 <= r < |ls| && Telling(j, ls[r], s)) || forall r :: 0 <= r < |ls| ==> Out(j, ls[r], s)
  }

  lemma StepTold(j: Job, ls: seq<Local>, os: seq<Outcome>, s: Spec)
    requires JobOk(j) && |ls| == |os| >= 1 && AllSame(ls) && s != DEFAULT
    requires forall r :: 0 <= r < |ls| ==> Sound(j, ls[r])
    requires Told(j, ls, s)
    ensures Told(j, Step(j, ls, os), s)
  {
    var agreed := Agreed(ls, os);
    forall q | 0 <= q < |ls| ensures Width(ls[q]) == Width(ls[0]) { assert Same(ls[0], ls[q]); }
    AgreedWidth(ls, os, Width(ls[0]));
    if r :| 0 <= r < |ls| && Telling(j, ls[r], s) {
      AllLearn(j, ls, os, r, s);
      forall q | 0 <= q < |ls| ensures Out(j, Step(j, ls, os)[q], s) {
        assert Same(ls[r], ls[q]);
        ResumeOut(j, ls[q], os[q], agreed, s);
      }
    } else {
      forall q | 0 <= q < |ls| ensures Out(j, Step(j, ls, os)[q], s) { ResumeOut(j, ls[q], os[q], agreed, s); }
    }
  }

  lemma StartSound(j: Job)
    requires JobOk(j)
    ensures Sound(j, Start(j))
  {
    SeekSound(j, Local(Finished, map c | c in j.candidates :: Infinite(j.sizes), {DEFAULT}, [], {}), 0);
  }

  lemma {:induction false} RanksSound(j: Job, w: nat, seen: seq<seq<Outcome>>)
    requires JobOk(j) && w >= 1 && forall n :: 0 <= n < |seen| ==> |seen[n]| == w
    ensures forall r :: 0 <= r < w ==> Sound(j, Ranks(j, w, seen)[r])
  {
    if seen == [] {
      StartSound(j);
    } else {
      var ls, os := Ranks(j, w, seen[..|seen| - 1]), seen[|seen| - 1];
      RanksSound(j, w, seen[..|seen| - 1]);
      LockStep(j, w, seen[..|seen| - 1]);
      forall q | 0 <= q < w ensures Width(ls[q]) == Width(ls[0]) { assert Same(ls[0], ls[q]); }
      AgreedWidth(ls, os, Width(ls[0]));
      forall r | 0 <= r < w ensures Sound(j, Step(j, ls, os)[r]) { ResumeSound(j, ls[r], os[r], Agreed(ls, os)); }
    }
  }

  lemma {:induction false} FailedTold(j: Job, w: nat, seen: seq<seq<Outcome>>, s: Spec)
    requires JobOk(j) && s != DEFAULT && w >= 1 && forall n :: 0 <= n < |seen| ==> |seen[n]| == w
    requires Failed(j, w, seen, s)
    ensures Told(j, Ranks(j, w, seen), s)
  {
    var last := |seen| - 1;
    var ls, os := Ranks(j, w, seen[..last]), seen[last];
    RanksSound(j, w, seen[..last]);
    LockStep(j, w, seen[..last]);
    if Failed(j, w, seen[..last], s) {
      FailedTold(j, w, seen[..last], s);
      StepTold(j, ls, os, s);
    } else {
      var r :| 0 <= r < w && FailsNow(j, ls[r], os[r], s);
      assert Telling(j, Step(j, ls, os)[r], s);
    }
  }

  /** When the ranks are through, a candidate that failed on any rank is infinite in every column of
      every rank's table; the tables are equal, and none of them ended by an exception. */
  lemma FailedIsInfinite(j: Job, w: nat, seen: seq<seq<Outcome>>, s: Spec, r: nat)
    requires JobOk(j) && s != DEFAULT && w >= 1 && forall n :: 0 <= n < |seen| ==> |seen[n]| == w
    requires Failed(j, w, seen, s) && r < w && Ranks(j, w, seen)[r].pc == Finished
    ensures s in Ranks(j, w, seen)[r].table ==> AllInf(Ranks(j, w, seen)[r].table[s])
    ensures forall q :: 0 <= q < w ==> Ranks(j, w, seen)[q].pc == Finished && Ranks(j, w, seen)[q].table == Ranks(j, w, seen)[r].table
  {
    var ls := Ranks(j, w, seen);
    FailedTold(j, w, seen, s);
    LockStep(j, w, seen);
    forall q | 0 <= q < w ensures ls[q].pc == Finished && ls[q].table == ls[r].table { assert Same(ls[r], ls[q]); }
  }

  // ---- it ends ------------------------------------------------------------

  /** An upper bound on the calls a rank has left. */
  function CallsLeft(j: Job, l: Local): int {
    match l.pc
    case Budget(c) => 3 * (|j.candidates| - c) + j.sizes * (2 * |j.candidates|)
    case Make(c) => 3 * (|j.candidates| - c) - 1 + j.sizes * (2 * |j.candidates|)
    case Made(c, ok) => 3 * (|j.candidates| - c) - 2 + j.sizes * (2 * |j.candidates|)
    case Measure(i, q) => 2 * |q| + (j.sizes - i - 1) * (2 * |j.candidates|)
    case Measured(i, q, t, bad) => 2 * |q| - 1 + (j.sizes - i - 1) * (2 * |j.candidates|)
    case _ => 0
  }

  lemma {:induction false} KeptLength(candidates: seq<Spec>, comms: set<Spec>)
    ensures |Kept(candidates, comms)| <= |candidates|
  {
    if candidates != [] { KeptLength(candidates[1..], comms); }
  }

  lemma {:induction false} PrunedLength(j: Job, l: Local, live: seq<Spec>, i: nat, best: Time)
    ensures |Pruned(j, l, live, i, best)| <= |live|
  {
    if live != [] { PrunedLength(j, l, live[1..], i, best); }
  }

  lemma {:induction false} WithoutLength(s: seq<Spec>, x: Spec)
    ensures |Without(s, x)| <= |s|
  {
    if s != [] { WithoutLength(s[1..], x); }
  }

  lemma SizesLeft(n: int, i: int, k: int)
    requires 0 <= i < n && k >= 0
    ensures (n - i - 1) * k == (n - i) * k - k && 0 <= (n - i - 1) * k <= n * k - k
  {
    assert (n - i - 1) * k == n * k - i * k - k;
    assert i * k >= 0;
  }

  lemma {:induction false} SeekLeft(j: Job, l: Local, c: nat)
    requires c <= |j.candidates|
    ensures 0 <= CallsLeft(j, Seek(j, l, c)) <= 3 * (|j.candidates| - c) + j.sizes * (2 * |j.candidates|)
    ensures Measuring(Seek(j, l, c).pc) ==> |Seek(j, l, c).live| <= |j.candidates|
    decreases |j.candidates| - c
  {
    assert j.sizes * (2 * |j.candidates|) >= 0;
    if c < |j.candidates| {
      if j.candidates[c] == DEFAULT { SeekLeft(j, l, c + 1); }
    } else {
      KeptLength(j.candidates, l.comms);
      if j.sizes > 0 { SizesLeft(j.sizes, 0, 2 * |j.candidates|); }
    }
  }

  lemma EndLeft(j: Job, l: Local, i: nat)
    requires |l.live| <= |j.candidates| && i < j.sizes
    ensures 0 <= CallsLeft(j, EndSize(j, l, i)) <= (j.sizes - i - 1) * (2 * |j.candidates|)
    ensures Measuring(EndSize(j, l, i).pc) ==> |EndSize(j, l, i).live| <= |j.candidates|
  {
    PrunedLength(j, l, l.live, i, BestOf(l, l.live, i));
    SizesLeft(j.sizes, i, 2 * |j.candidates|);
    if i + 1 < j.sizes { SizesLeft(j.sizes, i + 1, 2 * |j.candidates|); }
  }

  predicate Short(j: Job, l: Local) { Measuring(l.pc) ==> |l.live| <= |j.candidates| }

  lemma GoOnLeft(j: Job, m: Local, i: nat, q: seq<Spec>, agreed: seq<Time>)
    requires |m.live| <= |j.candidates| && i < j.sizes && q != [] && |agreed| == 3
    ensures Short(j, GoOn(j, m, i, q, agreed))
    ensures 0 <= CallsLeft(j, GoOn(j, m, i, q, agreed)) < 2 * |q| - 1 + (j.sizes - i - 1) * (2 * |j.candidates|)
  {
    SizesLeft(j.sizes, i, 2 * |j.candidates|);
    EndLeft(j, m, i);
  }

  lemma MeasuredLeft(j: Job, l: Local, o: Outcome, agreed: seq<Time>)
    requires Sound(j, l) && Short(j, l) && l.pc.Measured? && |agreed| == 3
    ensures Short(j, Resume(j, l, o, agreed)) && 0 <= CallsLeft(j, Resume(j, l, o, agreed)) < CallsLeft(j, l)
  {
    var i, q := l.pc.i, l.pc.queue;
    WithoutLength(l.live, q[0]);
    MeasuredIs(j, l, o, agreed);
    GoOnLeft(j, Noted(j, l, i, q[0], agreed), i, q, agreed);
  }

  /** Every call of a rank brings it nearer to the end. */
  lemma ResumeLeft(j: Job, l: Local, o: Outcome, agreed: seq<Time>)
    requires JobOk(j) && Sound(j, l) && Short(j, l) && |agreed| == Width(l) && l.pc != Finished
    ensures Short(j, Resume(j, l, o, agreed)) && 0 <= CallsLeft(j, Resume(j, l, o, agreed)) < CallsLeft(j, l)
  {
    match l.pc
    case Budget(c) => SeekLeft(j, l, c + 1);
    case Make(c) => assert j.sizes * (2 * |j.candidates|) >= 0;
    case Made(c, ok) =>
      SeekLeft(j, l.(comms := l.comms + {j.candidates[c]}), c + 1);
      SeekLeft(j, l.(errors := l.errors + {j.candidates[c]}), c + 1);
    case Measure(i, q) => SizesLeft(j.sizes, i, 2 * |j.candidates|);
    case Measured(i, q, t, bad) => MeasuredLeft(j, l, o, agreed);
  }

  /** After that many calls every rank has finished. */
  lemma {:induction false} AlwaysEnds(j: Job, w: nat, seen: seq<seq<Outcome>>, r: nat)
    requires JobOk(j) && w >= 1 && r < w && forall n :: 0 <= n < |seen| ==> |seen[n]| == w
    ensures Short(j, Ranks(j, w, seen)[r]) && CallsLeft(j, Ranks(j, w, seen)[r]) >= 0
    ensures Ranks(j, w, seen)[r].pc == Finished
      || CallsLeft(j, Ranks(j, w, seen)[r]) + |seen| <= 3 * |j.candidates| + j.sizes * (2 * |j.candidates|)
  {
    if seen == [] {
      SeekLeft(j, Local(Finished, map c | c in j.candidates :: Infinite(j.sizes), {DEFAULT}, [], {}), 0);
    } else {
      var ls, os := Ranks(j, w, seen[..|seen| - 1]), seen[|seen| - 1];
      AlwaysEnds(j, w, seen[..|seen| - 1], r);
      RanksSound(j, w, seen[..|seen| - 1]);
      LockStep(j, w, seen[..|seen| - 1]);
      forall q | 0 <= q < w ensures Width(ls[q]) == Width(ls[r]) { assert Same(ls[r], ls[q]); }
      AgreedWidth(ls, os, Width(ls[r]));
      if ls[r].pc != Finished { ResumeLeft(j, ls[r], os[r], Agreed(ls, os)); }
    }
  }
}
