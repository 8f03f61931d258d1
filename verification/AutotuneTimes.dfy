/** The autotuner's times: each is the slowest rank's, and they decide which candidates stay in the race. */
module AutotuneTimes {
  import opened Wrappers
  import opened Autotune
  import opened AutotuneFailures

  predicate AllTimed(os: seq<Outcome>) { forall r :: 0 <= r < |os| ==> os[r].time.Some? }

  /** Every rank has a time, and t is the longest. */
  ghost predicate Slowest(os: seq<Outcome>, t: real) {
    && AllTimed(os) && (forall r :: 0 <= r < |os| ==> os[r].time.value <= t)
    && exists r :: 0 <= r < |os| && os[r].time == Some(t)
  }

  predicate Asks(l: Local, s: Spec, i: nat) { l.pc.Measure? && l.pc.i == i && l.pc.queue != [] && l.pc.queue[0] == s }

  predicate Tells(l: Local, s: Spec, i: nat) { l.pc.Measured? && l.pc.i == i && l.pc.queue != [] && l.pc.queue[0] == s }

  /** During some call all ranks measured s at size i, and the slowest took t. */
  ghost predicate Timed(j: Job, w: nat, seen: seq<seq<Outcome>>, s: Spec, i: nat, t: real)
    requires w >= 1 && forall n :: 0 <= n < |seen| ==> |seen[n]| == w
  {
    seen != [] &&
    var last := |seen| - 1;
    Timed(j, w, seen[..last], s, i, t) || (Slowest(seen[last], t) && forall r :: 0 <= r < w ==> Asks(Ranks(j, w, seen[..last])[r], s, i))
  }

  /** What the rank is about to tell is what it saw. */
  predicate Read(l: Local, o: Outcome) {
    l.pc.Measured? && match o.time
                      case Some(t) => l.pc.t == Fin(t) && !l.pc.bad
                      case None => l.pc.t == Inf && l.pc.bad
  }

  // ---- the exchange -------------------------------------------------------

  /** An agreed entry is some rank's. */
  lemma {:induction false} AgreedSome(ls: seq<Local>, os: seq<Outcome>, w: nat, k: nat) returns (r: nat)
    requires |ls| == |os| >= 1 && (forall q :: 0 <= q < |ls| ==> Width(ls[q]) == w) && k < w
    ensures r < |ls| && |Agreed(ls, os)| == w == |Contribution(ls[r], os[r])| && Agreed(ls, os)[k] == Contribution(ls[r], os[r])[k]
  {
    r := |ls| - 1;
    AgreedWidth(ls, os, w);
    if |ls| > 1 {
      AgreedWidth(ls[..|ls| - 1], os[..|os| - 1], w);
      var q := AgreedSome(ls[..|ls| - 1], os[..|os| - 1], w, k);
      if Agreed(ls, os)[k] != Contribution(ls[r], os[r])[k] { r := q; }
    }
  }

  /** The exchange after a measurement: it went well if it did on every rank, and the time is the slowest. */
  lemma Exchange(ls: seq<Local>, os: seq<Outcome>, was: seq<Outcome>)
    requires |ls| == |os| == |was| >= 1 && forall r :: 0 <= r < |ls| ==> Read(ls[r], was[r])
    ensures |Agreed(ls, os)| == 3
    ensures Zero(Agreed(ls, os)[1]) <==> AllTimed(was)
    ensures Zero(Agreed(ls, os)[1]) ==> Agreed(ls, os)[0].Fin? && Slowest(was, Agreed(ls, os)[0].t)
  {
    var bad := AgreedSome(ls, os, 3, 1);
    var slow := AgreedSome(ls, os, 3, 0);
    forall r | 0 <= r < |ls|
      ensures !Less(Agreed(ls, os)[0], Contribution(ls[r], os[r])[0]) && !Less(Agreed(ls, os)[1], Contribution(ls[r], os[r])[1])
    {
      AgreedAbove(ls, os, 3, 0, r);
      AgreedAbove(ls, os, 3, 1, r);
    }
    assert Read(ls[bad], was[bad]) && Read(ls[slow], was[slow]);
  }

  // ---- one rank -----------------------------------------------------------

  lemma {:induction false} SeekNext(j: Job, l: Local, c: nat)
    ensures Seek(j, l, c).table == l.table && !Seek(j, l, c).pc.Measured?
    decreases |j.candidates| - c
  {
    if c < |j.candidates| && j.candidates[c] == DEFAULT { SeekNext(j, l, c + 1); }
  }

  /** A rank has something to tell only after being asked. */
  lemma ToldIsSeen(j: Job, l: Local, o: Outcome, agreed: seq<Time>)
    requires JobOk(j) && Sound(j, l) && |agreed| == Width(l) && Resume(j, l, o, agreed).pc.Measured?
    ensures l.pc.Measure? && Asks(l, l.pc.queue[0], l.pc.i) && Read(Resume(j, l, o, agreed), o)
    ensures Tells(Resume(j, l, o, agreed), l.pc.queue[0], l.pc.i)
  {
    match l.pc
    case Budget(c) => SeekNext(j, l, c + 1);
    case Made(c, ok) =>
      SeekNext(j, l.(comms := l.comms + {j.candidates[c]}), c + 1);
      SeekNext(j, l.(errors := l.errors + {j.candidates[c]}), c + 1);
    case Measured(i, q, t, bad) => MeasuredIs(j, l, o, agreed);
    case _ =>
  }

  /** A cell changes only by the exchange about it, and is lost only with a failure of its candidate. */
  function CellAfter(l: Local, agreed: seq<Time>, s: Spec, i: nat): Time
    requires l.pc.Measured? ==> l.pc.queue != [] && |agreed| == 3
  {
    if !l.pc.Measured? || l.pc.queue[0] != s then Cell(l, s, i)
    else if !Zero(agreed[1]) then (if s == DEFAULT then Cell(l, s, i) else Inf)
    else if l.pc.i == i then agreed[0] else Cell(l, s, i)
  }

  lemma CellMoves(j: Job, l: Local, o: Outcome, agreed: seq<Time>, s: Spec, i: nat)
    requires JobOk(j) && Sound(j, l) && |agreed| == Width(l)
    ensures Cell(Resume(j, l, o, agreed), s, i) == CellAfter(l, agreed, s, i)
  {
    if l.pc.Measured? {
      MeasuredIs(j, l, o, agreed);
      NotedCell(j, l, agreed, s, i);
    } else {
      TableStays(j, l, o, agreed);
    }
  }

  lemma TableStays(j: Job, l: Local, o: Outcome, agreed: seq<Time>)
    requires !l.pc.Measured?
    ensures Resume(j, l, o, agreed).table == l.table
  {
    match l.pc
    case Budget(c) => SeekNext(j, l, c + 1);
    case Made(c, ok) =>
      if c < |j.candidates| {
        SeekNext(j, l.(comms := l.comms + {j.candidates[c]}), c + 1);
        SeekNext(j, l.(errors := l.errors + {j.candidates[c]}), c + 1);
      }
    case _ =>
  }

  lemma NotedCell(j: Job, l: Local, agreed: seq<Time>, s: Spec, i: nat)
    requires Sound(j, l) && l.pc.Measured? && |agreed| == 3
    ensures Cell(Noted(j, l, l.pc.i, l.pc.queue[0], agreed), s, i) == CellAfter(l, agreed, s, i)
  {
    assert l.pc.queue[0] in j.candidates;
  }

  /** The rank is past s at size i. */
  predicate Past(l: Local, s: Spec, i: nat) {
    !Creating(l.pc) && (Measuring(l.pc) ==> i < l.pc.i || (i == l.pc.i && s !in l.pc.queue))
  }

  /** Going on after s, or past it, leaves s behind. */
  lemma GoesPast(j: Job, m: Local, n: nat, q: seq<Spec>, agreed: seq<Time>, s: Spec, i: nat)
    requires |agreed| == 3 && q != [] && NoDup(q) && (i < n || (i == n && (s !in q || q[0] == s)))
    ensures Past(GoOn(j, m, n, q, agreed), s, i)
  {
    TailSound(q);
  }

  lemma StaysPast(j: Job, l: Local, o: Outcome, agreed: seq<Time>, s: Spec, i: nat)
    requires JobOk(j) && Sound(j, l) && |agreed| == Width(l) && (Past(l, s, i) || Tells(l, s, i))
    ensures Past(Resume(j, l, o, agreed), s, i)
  {
    if l.pc.Measured? {
      GoesPast(j, Noted(j, l, l.pc.i, l.pc.queue[0], agreed), l.pc.i, l.pc.queue, agreed, s, i);
      MeasuredIs(j, l, o, agreed);
    }
  }

  // ---- all ranks ----------------------------------------------------------

  /** What the ranks are about to tell is what they saw in the call before, which asked them for it. */
  predicate AllRead(ls: seq<Local>, was: seq<Local>, os: seq<Outcome>, s: Spec, i: nat) {
    |ls| == |was| == |os| && forall r :: 0 <= r < |ls| ==> Tells(ls[r], s, i) && Read(ls[r], os[r]) && Asks(was[r], s, i)
  }

  lemma TellingRanks(j: Job, w: nat, seen: seq<seq<Outcome>>, r: nat, s: Spec, i: nat)
    requires JobOk(j) && w >= 1 && (forall n :: 0 <= n < |seen| ==> |seen[n]| == w) && r < w
    requires Tells(Ranks(j, w, seen)[r], s, i)
    ensures seen != [] && AllRead(Ranks(j, w, seen), Ranks(j, w, seen[..|seen| - 1]), seen[|seen| - 1], s, i)
  {
    LockStep(j, w, seen);
    if seen == [] {
      SeekNext(j, Local(Finished, map c | c in j.candidates :: Infinite(j.sizes), {DEFAULT}, [], {}), 0);
      assert false;
    } else {
      var ls, os := Ranks(j, w, seen[..|seen| - 1]), seen[|seen| - 1];
      Ready(j, w, seen[..|seen| - 1], os);
      forall q | 0 <= q < w ensures Tells(Ranks(j, w, seen)[q], s, i) && Read(Ranks(j, w, seen)[q], os[q]) && Asks(ls[q], s, i) {
        assert Same(Ranks(j, w, seen)[r], Ranks(j, w, seen)[q]);
        ToldIsSeen(j, ls[q], os[q], Agreed(ls, os));
      }
    }
  }

  /** The ranks are sound, and what they exchange next fits their places. */
  lemma Ready(j: Job, w: nat, seen: seq<seq<Outcome>>, os: seq<Outcome>)
    requires JobOk(j) && w >= 1 && |os| == w && forall n :: 0 <= n < |seen| ==> |seen[n]| == w
    ensures forall r :: 0 <= r < w ==> Sound(j, Ranks(j, w, seen)[r]) && Width(Ranks(j, w, seen)[r]) == |Agreed(Ranks(j, w, seen), os)|
  {
    var ls := Ranks(j, w, seen);
    RanksSound(j, w, seen);
    LockStep(j, w, seen);
    forall q | 0 <= q < w ensures Width(ls[q]) == Width(ls[0]) { assert Same(ls[0], ls[q]); }
    AgreedWidth(ls, os, Width(ls[0]));
  }

  /** The exchange about s at size i: either a rank has failed at s, or it agrees on the slowest rank's time. */
  lemma AboutIt(j: Job, w: nat, seen: seq<seq<Outcome>>, os: seq<Outcome>, r: nat, s: Spec, i: nat)
    requires JobOk(j) && w >= 1 && (forall n :: 0 <= n < |seen| ==> |seen[n]| == w) && r < w && |os| == w
    requires Tells(Ranks(j, w, seen)[r], s, i)
    ensures seen != [] && |Agreed(Ranks(j, w, seen), os)| == 3
    ensures !Zero(Agreed(Ranks(j, w, seen), os)[1]) ==> Failed(j, w, seen, s) && !AllTimed(seen[|seen| - 1])
    ensures var t := Agreed(Ranks(j, w, seen), os)[0];
      Zero(Agreed(Ranks(j, w, seen), os)[1]) ==> t.Fin? && Slowest(seen[|seen| - 1], t.t) && Timed(j, w, seen, s, i, t.t)
  {
    TellingRanks(j, w, seen, r, s, i);
    var ls, was, last := Ranks(j, w, seen), Ranks(j, w, seen[..|seen| - 1]), seen[|seen| - 1];
    assert forall q :: 0 <= q < w ==> Read(ls[q], last[q]);
    Exchange(ls, os, last);
    if !Zero(Agreed(ls, os)[1]) {
      var q :| 0 <= q < w && last[q].time.None?;
      assert FailsNow(j, was[q], last[q], s);
    }
  }

  /** Every time in a table is the slowest rank's, of a call that measured that candidate at that size. */
  lemma {:induction false} FilledIsTimed(j: Job, w: nat, seen: seq<seq<Outcome>>, s: Spec, i: nat, r: nat)
    requires JobOk(j) && w >= 1 && (forall n :: 0 <= n < |seen| ==> |seen[n]| == w) && r < w
    requires Cell(Ranks(j, w, seen)[r], s, i).Fin?
    ensures Timed(j, w, seen, s, i, Cell(Ranks(j, w, seen)[r], s, i).t)
  {
    if seen == [] {
      SeekNext(j, Local(Finished, map c | c in j.candidates :: Infinite(j.sizes), {DEFAULT}, [], {}), 0);
      assert false;
    } else {
      var init, os := seen[..|seen| - 1], seen[|seen| - 1];
      var l := Ranks(j, w, init)[r];
      Ready(j, w, init, os);
      CellMoves(j, l, os[r], Agreed(Ranks(j, w, init), os), s, i);
      if Cell(Ranks(j, w, seen)[r], s, i) == Cell(l, s, i) {
        FilledIsTimed(j, w, init, s, i, r);
      } else {
        AboutIt(j, w, init, os, r, s, i);
      }
    }
  }

  /** The time is in the table, or about to be. */
  ghost predicate Held(l: Local, w: nat, seen: seq<seq<Outcome>>, s: Spec, i: nat, t: real) {
    (Past(l, s, i) && Cell(l, s, i) == Fin(t)) || (Tells(l, s, i) && seen != [] && Slowest(seen[|seen| - 1], t))
  }

  /** The time of every such call is kept, unless the candidate fails later. */
  lemma {:induction false} TimedIsHeld(j: Job, w: nat, seen: seq<seq<Outcome>>, s: Spec, i: nat, t: real, r: nat)
    requires JobOk(j) && w >= 1 && (forall n :: 0 <= n < |seen| ==> |seen[n]| == w) && r < w
    requires Timed(j, w, seen, s, i, t) && (s == DEFAULT || !Failed(j, w, seen, s))
    ensures Held(Ranks(j, w, seen)[r], w, seen, s, i, t)
  {
    var init, os := seen[..|seen| - 1], seen[|seen| - 1];
    var ls := Ranks(j, w, init);
    Ready(j, w, init, os);
    if Timed(j, w, init, s, i, t) {
      TimedIsHeld(j, w, init, s, i, t, r);
      HeldStays(j, w, init, os, s, i, t, r);
    } else {
      assert Asks(ls[r], s, i) && os[r].time.Some?;
      assert Tells(Ranks(j, w, seen)[r], s, i);
    }
  }

  lemma TimeStays(j: Job, l: Local, o: Outcome, agreed: seq<Time>, s: Spec, i: nat, t: real)
    requires JobOk(j) && Sound(j, l) && |agreed| == Width(l) && Past(l, s, i) && Cell(l, s, i) == Fin(t)
    requires l.pc.Measured? && l.pc.queue[0] == s ==> s == DEFAULT || Zero(agreed[1])
    ensures Past(Resume(j, l, o, agreed), s, i) && Cell(Resume(j, l, o, agreed), s, i) == Fin(t)
  {
    StaysPast(j, l, o, agreed, s, i);
    CellMoves(j, l, o, agreed, s, i);
  }

  lemma TimeEnters(j: Job, l: Local, o: Outcome, agreed: seq<Time>, s: Spec, i: nat)
    requires JobOk(j) && Sound(j, l) && |agreed| == Width(l) && Tells(l, s, i) && Zero(agreed[1])
    ensures Past(Resume(j, l, o, agreed), s, i) && Cell(Resume(j, l, o, agreed), s, i) == agreed[0]
  {
    StaysPast(j, l, o, agreed, s, i);
    CellMoves(j, l, o, agreed, s, i);
  }

  /** What the exchange about s comes to, if s has not failed or is the default. */
  ghost predicate Fair(l: Local, agreed: seq<Time>, last: seq<Outcome>, s: Spec) {
    l.pc.Measured? && l.pc.queue != [] && l.pc.queue[0] == s && |agreed| == 3 ==>
      if Zero(agreed[1]) then agreed[0].Fin? && Slowest(last, agreed[0].t) else s == DEFAULT && !AllTimed(last)
  }

  lemma HeldNext(j: Job, l: Local, o: Outcome, agreed: seq<Time>, last: seq<Outcome>, s: Spec, i: nat, t: real)
    requires JobOk(j) && Sound(j, l) && |agreed| == Width(l) && Fair(l, agreed, last, s)
    requires (Past(l, s, i) && Cell(l, s, i) == Fin(t)) || (Tells(l, s, i) && Slowest(last, t))
    ensures Past(Resume(j, l, o, agreed), s, i) && Cell(Resume(j, l, o, agreed), s, i) == Fin(t)
  {
    if Tells(l, s, i) { TimeEnters(j, l, o, agreed, s, i); } else { TimeStays(j, l, o, agreed, s, i, t); }
  }

  lemma HeldStays(j: Job, w: nat, init: seq<seq<Outcome>>, os: seq<Outcome>, s: Spec, i: nat, t: real, r: nat)
    requires JobOk(j) && w >= 1 && (forall n :: 0 <= n < |init| ==> |init[n]| == w) && r < w && |os| == w
    requires Held(Ranks(j, w, init)[r], w, init, s, i, t) && (s == DEFAULT || !Failed(j, w, init, s))
    ensures var m := Resume(j, Ranks(j, w, init)[r], os[r], Agreed(Ranks(j, w, init), os)); Past(m, s, i) && Cell(m, s, i) == Fin(t)
  {
    var l, agreed := Ranks(j, w, init)[r], Agreed(Ranks(j, w, init), os);
    Ready(j, w, init, os);
    if l.pc.Measured? && l.pc.queue[0] == s { AboutIt(j, w, init, os, r, s, l.pc.i); }
    HeldNext(j, l, os[r], agreed, if init != [] then init[|init| - 1] else [], s, i, t);
  }

  /** When the ranks are through, the table holds t for a candidate at a size exactly if they measured it
      there, the slowest taking t, and the candidate, unless it is the default, never failed on any rank. */
  lemma TimesExact(j: Job, w: nat, seen: seq<seq<Outcome>>, s: Spec, i: nat, t: real, r: nat)
    requires JobOk(j) && w >= 1 && (forall n :: 0 <= n < |seen| ==> |seen[n]| == w) && r < w
    requires Ranks(j, w, seen)[r].pc == Finished
    ensures Cell(Ranks(j, w, seen)[r], s, i) == Fin(t) <==> Timed(j, w, seen, s, i, t) && (s == DEFAULT || !Failed(j, w, seen, s))
  {
    if Cell(Ranks(j, w, seen)[r], s, i) == Fin(t) {
      FilledIsTimed(j, w, seen, s, i, r);
      if s != DEFAULT && Failed(j, w, seen, s) { FailedIsInfinite(j, w, seen, s, r); }
    } else if Timed(j, w, seen, s, i, t) && (s == DEFAULT || !Failed(j, w, seen, s)) {
      TimedIsHeld(j, w, seen, s, i, t, r);
      assert false;
    }
  }

  // ---- who stays ----------------------------------------------------------

  lemma {:induction false} BestIs(l: Local, live: seq<Spec>, i: nat)
    ensures forall s :: s in live ==> !Less(Cell(l, s, i), BestOf(l, live, i))
    ensures BestOf(l, live, i).Fin? ==> exists s :: s in live && Cell(l, s, i) == BestOf(l, live, i)
  {
    if live != [] {
      BestIs(l, live[1..], i);
      assert live == [live[0]] + live[1..];
    }
  }

  lemma {:induction false} PrunedIs(j: Job, l: Local, live: seq<Spec>, i: nat, best: Time, s: Spec)
    ensures s in Pruned(j, l, live, i, best) <==> s in live && (s == DEFAULT || !Less(Scaled(j.prune, best), Cell(l, s, i)))
  {
    if live != [] {
      PrunedIs(j, l, live[1..], i, best, s);
      assert live == [live[0]] + live[1..];
    }
  }

  /** s took no more than `prune` times as long as b. */
  predicate Near(j: Job, l: Local, i: nat, s: Spec, b: Spec) {
    Cell(l, b, i).Fin? ==> Cell(l, s, i).Fin? && Cell(l, s, i).t <= j.prune * Cell(l, b, i).t
  }

  lemma Grows(p: real, a: real, b: real)
    requires p >= 0.0 && a <= b
    ensures p * a <= p * b
  {}

  /** Against the best it is as against every other. */
  lemma NearBest(j: Job, l: Local, i: nat, s: Spec, best: Time)
    requires j.prune >= 0.0 && (forall b :: b in l.live ==> !Less(Cell(l, b, i), best))
    requires best.Fin? ==> exists b :: b in l.live && Cell(l, b, i) == best
    ensures !Less(Scaled(j.prune, best), Cell(l, s, i)) <==> forall b :: b in l.live ==> Near(j, l, i, s, b)
  {
    if best.Fin? {
      if !Less(Scaled(j.prune, best), Cell(l, s, i)) {
        forall b | b in l.live ensures Near(j, l, i, s, b) {
          if Cell(l, b, i).Fin? { Grows(j.prune, best.t, Cell(l, b, i).t); }
        }
      } else {
        var a :| a in l.live && Cell(l, a, i) == best;
        assert !Near(j, l, i, s, a);
      }
    }
  }

  /** After a size, those stay that took no more than `prune` times as long as any other candidate of the
      race; and the default. */
  lemma RaceGoesOn(j: Job, l: Local, i: nat, s: Spec)
    requires j.prune >= 0.0 && l.live != []
    ensures s in EndSize(j, l, i).live <==> s in l.live && (s == DEFAULT || forall b :: b in l.live ==> Near(j, l, i, s, b))
  {
    var best := BestOf(l, l.live, i);
    BestIs(l, l.live, i);
    NearBest(j, l, i, s, best);
    PrunedIs(j, l, l.live, i, best, s);
  }

  // ---- the budget ---------------------------------------------------------

  /** Some rank's clock is past the budget. */
  predicate Spent(j: Job, os: seq<Outcome>) { exists r :: 0 <= r < |os| && os[r].elapsed > j.budget }

  lemma ClockAgreed(j: Job, ls: seq<Local>, os: seq<Outcome>, w: nat, k: nat)
    requires |ls| == |os| >= 1 && (forall r :: 0 <= r < |ls| ==> Width(ls[r]) == w) && k < w
    requires forall r :: 0 <= r < |ls| ==> |Contribution(ls[r], os[r])| == w && Contribution(ls[r], os[r])[k] == Fin(os[r].elapsed)
    ensures |Agreed(ls, os)| == w && (Over(j.budget, Agreed(ls, os)[k]) <==> Spent(j, os))
  {
    var slow := AgreedSome(ls, os, w, k);
    if Spent(j, os) {
      var r :| 0 <= r < |os| && os[r].elapsed > j.budget;
      AgreedAbove(ls, os, w, k, r);
    }
  }

  /** A communicator is made only if no rank's clock is past the budget. */
  lemma BudgetForMaking(j: Job, ls: seq<Local>, os: seq<Outcome>, c: nat, q: nat)
    requires |ls| == |os| >= 1 && q < |ls| && c < |j.candidates| && forall r :: 0 <= r < |ls| ==> ls[r].pc == Budget(c)
    ensures Step(j, ls, os)[q].pc == Make(c) <==> !Spent(j, os)
  {
    ClockAgreed(j, ls, os, 1, 0);
    SeekOn(j, ls[q], c + 1);
  }

  lemma {:induction false} SeekOn(j: Job, l: Local, c: nat)
    ensures !Seek(j, l, c).pc.Make?
    decreases |j.candidates| - c
  {
    if c < |j.candidates| && j.candidates[c] == DEFAULT { SeekOn(j, l, c + 1); }
  }

  /** The rest of a queue is measured exactly if no rank's clock is past the budget; else all is finished. */
  lemma BudgetForMeasuring(j: Job, ls: seq<Local>, os: seq<Outcome>, i: nat, queue: seq<Spec>, q: nat)
    requires |ls| == |os| >= 1 && q < |ls| && |queue| > 1
    requires forall r :: 0 <= r < |ls| ==> ls[r].pc.Measured? && ls[r].pc.i == i && ls[r].pc.queue == queue
    ensures Step(j, ls, os)[q].pc == if Spent(j, os) then Finished else Measure(i, queue[1..])
  {
    ClockAgreed(j, ls, os, 3, 2);
    MeasuredIs(j, ls[q], os[q], Agreed(ls, os));
  }

  /** And so is the next size. */
  lemma BudgetForSizes(j: Job, ls: seq<Local>, os: seq<Outcome>, i: nat, s: Spec, q: nat)
    requires |ls| == |os| >= 1 && q < |ls| && i + 1 < j.sizes
    requires forall r :: 0 <= r < |ls| ==> Tells(ls[r], s, i) && |ls[r].pc.queue| == 1
    ensures Spent(j, os) ==> Step(j, ls, os)[q].pc == Finished
    ensures !Spent(j, os) ==> Step(j, ls, os)[q].pc == Raised || Step(j, ls, os)[q].pc == Measure(i + 1, Step(j, ls, os)[q].live)
  {
    ClockAgreed(j, ls, os, 3, 2);
    MeasuredIs(j, ls[q], os[q], Agreed(ls, os));
  }
}
