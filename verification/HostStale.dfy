/**
Words are polled by equality modulo m. Exactly when no word can still hold, modulo m, the epoch
that its pollers are about to wait for, no rank ever takes another's flag for published too early.
*/
module HostStale {
  import opened IntMath
  import opened HostMachine
  import opened HostControl
  import opened HostSteps
  import opened HostTheorems
  import opened HostLive
  import opened HostProgress

  /** A block polls rank j's flag, finds the word it waits for, and j has not published it. */
  ghost predicate Misled(p: Prog, s: State, r: int, b: int, j: int)
    requires p.m >= 2
  {
    && Has(p, s.call(r), r, b) && s.blocks(r, b).pc.Poll? && 0 <= j < p.w
    && var e, ph := Word(s.blocks(r, b)), s.blocks(r, b).pc.ph;
    Same(p, s.flags(Par(e), ph, j), e) && s.pub(j) < 2 * e + ph
  }

  /** No run misleads a poller. */
  ghost predicate Safe(p: Prog)
    requires p.m >= 2
  {
    forall acts, r, b, j :: Run(p, acts) ==> !Misled(p, After(p, acts), r, b, j)
  }

  lemma NoStaleSafe(p: Prog)
    requires WellFormed(p) && NoStale(p)
    ensures Safe(p)
  {
    forall acts, r, b, j | Run(p, acts) ensures !Misled(p, After(p, acts), r, b, j) {
      var s := After(p, acts);
      if Has(p, s.call(r), r, b) && s.blocks(r, b).pc.Poll? && 0 <= j < p.w { FlagNotMissed(p, acts, s, r, b, j); }
    }
  }

  // ---- a stale word misleads ----------------------------------------------

  /** The same program with words so wide that none is stale. */
  function Widened(p: Prog): Prog { p.(m := 2 * p.start(p.calls) + 2) }

  lemma SmallSame(x: int, y: int, n: int)
    requires 0 <= x <= n && 0 <= y <= n && x % (2 * n + 2) == y % (2 * n + 2)
    ensures x == y
  {}

  lemma WidenedSound(p: Prog)
    requires WellFormed(p)
    ensures Widened(p).m >= 2 && WellFormed(Widened(p)) && NoStale(Widened(p))
  {
    StartNonNegative(p, p.calls);
    var q := Widened(p);
    forall e, f, ph | Previous(q, f, e, ph) ensures !Same(q, f, e) {
      if Same(q, f, e) { SmallSame(f, e, p.start(p.calls)); }
    }
  }

  /** Words of reachable states are epochs of the program. */
  lemma FlagSmall(p: Prog, s: State, j: int, ph: int, par: int)
    requires WellFormed(p) && Shape(p, s) && Sync(p, s) && Flags(p, s) && 0 <= j < p.w && 0 <= ph <= 1 && 0 <= par <= 1
    ensures 0 <= s.flags(par, ph, j) <= p.start(p.calls)
  {
    assert Flags1(p, s, j, ph) && Has(p, s.call(j), j, 0) && Shape1(p, s.call(j), s.blocks(j, 0));
    StartNonNegative(p, p.calls);
    EpochPositive(p, s, j, 0);
    EndMonotone(p, s.call(j) + 1, p.calls);
  }

  lemma GoSmall(p: Prog, s: State, r: int, b: int)
    requires WellFormed(p) && Shape(p, s) && Count(p, s) && Words(p, s) && Has(p, s.call(r), r, b) && s.blocks(r, b).pc.Wait?
    ensures var ph := s.blocks(r, b).pc.ph; 0 <= s.go(r, ph) <= Ep(p, s.call(r), s.blocks(r, b)) <= p.start(p.calls)
  {
    assert Shape1(p, s.call(r), s.blocks(r, b));
    assert Words1(p, s, r, s.blocks(r, b).pc.ph) && s.go(r, s.blocks(r, b).pc.ph) <= s.shut(r, s.blocks(r, b).pc.ph);
    EpochPositive(p, s, r, b);
    EndMonotone(p, s.call(r) + 1, p.calls);
  }

  lemma EnterSame(p: Prog, q: Prog, s: State, r: int, b: int, rnd: int, st: int)
    requires q == p.(m := q.m)
    ensures Enter(q, s, r, b, rnd, st) == Enter(p, s, r, b, rnd, st)
  {}

  lemma EndSame(p: Prog, q: Prog, s: State, r: int, b: int, st: int)
    requires q == p.(m := q.m)
    ensures EndStage(q, s, r, b, st) == EndStage(p, s, r, b, st)
  {
    EnterSame(p, q, s, r, b, s.blocks(r, b).rnd + 1, 0);
  }

  lemma WorkSame(p: Prog, q: Prog, s: State, r: int, b: int, st: int)
    requires q == p.(m := q.m) && s.blocks(r, b).cur.Busy?
    ensures WorkStep(q, s, r, b, st) == WorkStep(p, s, r, b, st)
  {
    assert TaskOf(q, s.call(r), r, s.blocks(r, b), st, s.blocks(r, b).cur.item)
        == TaskOf(p, s.call(r), r, s.blocks(r, b), st, s.blocks(r, b).cur.item);
  }

  /** Only polls depend on the width of words. */
  lemma GoSame(p: Prog, q: Prog, s: State, r: int, b: int)
    requires q == p.(m := q.m) && p.m >= 2 && q.m >= 2
    requires Productive(p, s, Go(r, b)) && Productive(q, s, Go(r, b))
    ensures GoStep(q, s, r, b) == GoStep(p, s, r, b)
  {
    var k := s.blocks(r, b);
    match k.pc
    case Load => EnterSame(p, q, SetBlock(s, r, b, k.(ctr0 := s.ctr(r))), r, b, 0, 0);
    case Work(st) => if k.cur.Busy? { WorkSame(p, q, s, r, b, st); } else { EndSame(p, q, s, r, b, st); }
    case Rel(ph) => EnterSame(p, q, s.(go := Set2(s.go, r, ph, Word(k))), r, b, k.rnd, ph + 1);
    case Wait(ph) => EnterSame(p, q, s, r, b, k.rnd, ph + 1);
    case Bump(ph) => assert Final(q, s.call(r), k, ph) == Final(p, s.call(r), k, ph);
    case _ =>
  }

  /** The words that a productive step of the widened program finds are those it looks for. */
  lemma FindsExactly(p: Prog, q: Prog, s: State, r: int, b: int)
    requires WellFormed(p) && q == Widened(p) && q.m >= 2 && WellFormed(q) && Inv(q, s)
    requires Has(q, s.call(r), r, b) && Productive(q, s, Go(r, b))
    ensures Productive(p, s, Go(r, b))
  {
    var k := s.blocks(r, b);
    assert Shape1(q, s.call(r), k);
    EpochPositive(q, s, r, b);
    EndMonotone(q, s.call(r) + 1, q.calls);
    if k.pc.Poll? {
      FlagSmall(q, s, k.pc.j, k.pc.ph, Par(Word(k)));
      SmallSame(s.flags(Par(Word(k)), k.pc.ph, k.pc.j), Word(k), p.start(p.calls));
    }
    if k.pc.Wait? {
      GoSmall(q, s, r, b);
      SmallSame(s.go(r, k.pc.ph), Word(k), p.start(p.calls));
    }
  }

  /** A productive step of the widened program is a step of the program, to the same state. */
  lemma StepNarrows(p: Prog, q: Prog, s: State, a: Action)
    requires WellFormed(p) && q == Widened(p) && q.m >= 2 && WellFormed(q) && Inv(q, s)
    requires Enabled(q, s, a) && Productive(q, s, a)
    ensures Enabled(p, s, a) && Step(q, s, a) == Step(p, s, a)
  {
    if a.Go? {
      FindsExactly(p, q, s, a.r, a.b);
      GoSame(p, q, s, a.r, a.b);
    }
  }

  lemma {:induction false} RunNarrows(p: Prog, q: Prog, acts: seq<Action>)
    requires WellFormed(p) && q == Widened(p) && q.m >= 2 && ProductiveRun(q, acts)
    ensures Run(q, acts) && Run(p, acts) && After(p, acts) == After(q, acts)
  {
    if acts != [] {
      var prefix := acts[..|acts| - 1];
      RunNarrows(p, q, prefix);
      WidenedSound(p);
      RunInv(q, prefix);
      StepNarrows(p, q, After(p, prefix), acts[|acts| - 1]);
    }
  }

  // ---- holding back one publication ---------------------------------------

  /** Everything that can be done without rank 1 publishing barrier (e, ph) has been done. */
  ghost predicate Held1(p: Prog, s: State, e: int, ph: int) {
    && WellFormed(p) && p.w >= 2 && Inv(p, s) && Live(p, s) && Exhausted(p, s, 1, 2 * e + ph) && s.pub(1) < 2 * e + ph
    && 0 <= ph <= 1 && Used(p, e, ph) && e <= p.start(p.calls)
  }

  lemma DonePast(p: Prog, s: State, e: int, ph: int, r: int)
    requires WellFormed(p) && Shape(p, s) && 0 <= r < p.w && RankDone(p, s, r)
    requires 0 <= ph <= 1 && Used(p, e, ph) && e <= p.start(p.calls)
    ensures Has(p, s.call(r), r, 0) && 2 * e + ph <= Passed(p, s.call(r), s.blocks(r, 0))
  {
    assert Has(p, s.call(r), r, 0) && Shape1(p, s.call(r), s.blocks(r, 0));
    DoneStands(p, s.call(r), s.blocks(r, 0));
  }

  lemma NobodyDone(p: Prog, s: State, e: int, ph: int, r: int)
    requires Held1(p, s, e, ph) && 0 <= r < p.w
    ensures !RankDone(p, s, r)
  {
    if RankDone(p, s, r) { DonePast(p, s, e, ph, r); }
  }

  lemma OthersStuck(p: Prog, s: State, e: int, ph: int, r: int)
    requires Held1(p, s, e, ph) && r != 1
    ensures RankStuck(p, s, r)
  {}

  /** Rank 1 is about to publish the barrier. */
  lemma Holder(p: Prog, s: State, e: int, ph: int)
    requires Held1(p, s, e, ph)
    ensures exists b :: Has(p, s.call(1), 1, b) && s.blocks(1, b).pc.Pub? && Arrived(p, s.call(1), s.blocks(1, b)) == 2 * e + ph
  {
    NobodyDone(p, s, e, ph, 1);
    var j := ChainEnds(p, s, 1);
    var a: Action :| a.r == j && Enabled(p, s, a) && Productive(p, s, a);
    assert Held(p, s, a, 1, 2 * e + ph);
    assert Has(p, s.call(1), 1, a.b) && s.blocks(1, a.b).pc.Pub?;
  }

  /** Of two blocks at barriers, neither of which has passed the other's, both are at the same one. */
  lemma SameBarrier(p: Prog, c: int, k: Block, d: int, l: Block)
    requires Shape1(p, c, k) && Shape1(p, d, l) && InBarrier(k.pc) && InBarrier(l.pc) && Ep(p, c, k) >= 1 && Ep(p, d, l) >= 1
    requires Passed(p, c, k) < Arrived(p, d, l) && Passed(p, d, l) < Arrived(p, c, k)
    ensures Arrived(p, c, k) == Arrived(p, d, l)
  {
    BarrierBetween(p, c, k, Arrived(p, d, l));
    BarrierBetween(p, d, l, Arrived(p, c, k));
  }

  /** A stuck rank's poller is at that barrier, which its own rank has published. */
  lemma PollerAt(p: Prog, s: State, e: int, ph: int, r: int, b: int, j: int)
    requires Held1(p, s, e, ph) && WaitsFor(p, s, r, b, j) && 0 <= r < p.w
    ensures Arrived(p, s.call(r), s.blocks(r, b)) == 2 * e + ph
  {
    Holder(p, s, e, ph);
    var b1 :| Has(p, s.call(1), 1, b1) && s.blocks(1, b1).pc.Pub? && Arrived(p, s.call(1), s.blocks(1, b1)) == 2 * e + ph;
    assert Shape1(p, s.call(r), s.blocks(r, b)) && Shape1(p, s.call(1), s.blocks(1, b1));
    EpochPositive(p, s, r, b);
    EpochPositive(p, s, 1, b1);
    SameBarrier(p, s.call(r), s.blocks(r, b), s.call(1), s.blocks(1, b1));
  }

  /** So the others all wait there for rank 1. */
  lemma OthersWait(p: Prog, s: State, e: int, ph: int, r: int)
    requires Held1(p, s, e, ph) && 0 <= r < p.w && r != 1
    ensures exists b :: WaitsFor(p, s, r, b, 1) && Arrived(p, s.call(r), s.blocks(r, b)) == 2 * e + ph
  {
    OthersStuck(p, s, e, ph, r);
    NobodyDone(p, s, e, ph, r);
    StuckRank(p, s, r);
    var b, j :| WaitsFor(p, s, r, b, j);
    PollerAt(p, s, e, ph, r, b, j);
    if j != 1 {
      OthersStuck(p, s, e, ph, j);
      NobodyDone(p, s, e, ph, j);
      StuckRank(p, s, j);
      var b', j' :| WaitsFor(p, s, j, b', j');
      PollerAt(p, s, e, ph, j, b', j');
    }
  }

  lemma FlagOf(p: Prog, s: State, f: int, e: int, ph: int, b: int)
    requires WellFormed(p) && Shape(p, s) && Sync(p, s) && Flags(p, s) && p.w >= 2 && 0 <= ph <= 1
    requires Previous(p, f, e, ph) && (f > 0 ==> Par(f) == Par(e)) && s.pub(1) < 2 * e + ph
    requires Has(p, s.call(1), 1, b) && s.blocks(1, b).pc == Pub(ph) && Ep(p, s.call(1), s.blocks(1, b)) == e
    ensures s.flags(Par(e), ph, 1) == f
  {
    var k := s.blocks(1, b);
    assert Shape1(p, s.call(1), k) && Flags1(p, s, 1, ph);
    if f > 0 { PassedBefore(p, s.call(1), k, f, ph); }
  }

  /** Rank 1's flag still holds the last epoch of this parity that used the phase. */
  lemma FlagIsPrevious(p: Prog, s: State, f: int, e: int, ph: int)
    requires Held1(p, s, e, ph) && Previous(p, f, e, ph) && (f > 0 ==> Par(f) == Par(e))
    ensures s.flags(Par(e), ph, 1) == f
  {
    Holder(p, s, e, ph);
    var b :| Has(p, s.call(1), 1, b) && s.blocks(1, b).pc.Pub? && Arrived(p, s.call(1), s.blocks(1, b)) == 2 * e + ph;
    PublishesAt(p, s, e, ph, b);
    FlagOf(p, s, f, e, ph, b);
  }

  lemma PublishesAt(p: Prog, s: State, e: int, ph: int, b: int)
    requires 0 <= ph <= 1 && Shape1(p, s.call(1), s.blocks(1, b)) && s.blocks(1, b).pc.Pub?
    requires Arrived(p, s.call(1), s.blocks(1, b)) == 2 * e + ph
    ensures s.blocks(1, b).pc == Pub(ph) && Ep(p, s.call(1), s.blocks(1, b)) == e
  {}

  /** Rank 0 polls for rank 1 in epoch e, phase ph. */
  ghost predicate PollsFor1(p: Prog, s: State, e: int, ph: int, b: int) {
    && Has(p, s.call(0), 0, b) && s.blocks(0, b).pc == Poll(ph, 1) && Word(s.blocks(0, b)) == e
  }

  lemma PollerReady(p: Prog, s: State, e: int, ph: int)
    requires Held1(p, s, e, ph)
    ensures exists b :: PollsFor1(p, s, e, ph, b)
  {
    OthersWait(p, s, e, ph, 0);
    var b :| WaitsFor(p, s, 0, b, 1) && Arrived(p, s.call(0), s.blocks(0, b)) == 2 * e + ph;
    assert Shape1(p, s.call(0), s.blocks(0, b));
    assert PollsFor1(p, s, e, ph, b);
  }

  lemma HeldMisleads(p: Prog, q: Prog, s: State, f: int, e: int, ph: int)
    requires p.m >= 2 && q == p.(m := q.m) && Held1(q, s, e, ph) && Previous(q, f, e, ph)
    requires Same(p, f, e) && (f > 0 ==> Par(f) == Par(e))
    ensures exists b :: Misled(p, s, 0, b, 1)
  {
    PollerReady(q, s, e, ph);
    var b :| PollsFor1(q, s, e, ph, b);
    FlagIsPrevious(q, s, f, e, ph);
    assert Misled(p, s, 0, b, 1);
  }

  /** Equal modulo an even number means of equal parity. */
  lemma EvenPart(x: int, m: int)
    requires m >= 2 && m % 2 == 0
    ensures x % 2 == (x % m) % 2
  {
    var h := m / 2;
    var u := h * (x / m);
    Division(x, m);
    Distribute(h, h, x / m);
    assert x == 2 * u + x % m by { assert x / m * m == (h + h) * (x / m); }
    TwiceMore(u, x % m);
  }

  lemma TwiceMore(u: int, r: int)
    ensures (2 * u + r) % 2 == r % 2
  {}

  lemma NothingYet(q: Prog, e: int, ph: int)
    requires WellFormed(q) && q.w >= 2 && 0 <= ph <= 1 && Used(q, e, ph)
    ensures ProductiveRun(q, []) && Run(q, []) && Unpublished(q, [], 1, 2 * e + ph)
  {}

  lemma HeldIs(q: Prog, acts: seq<Action>, e: int, ph: int)
    requires WellFormed(q) && NoStale(q) && q.w >= 2 && 0 <= ph <= 1 && Used(q, e, ph) && e <= q.start(q.calls)
    requires Run(q, acts) && Exhausted(q, After(q, acts), 1, 2 * e + ph) && After(q, acts).pub(1) < 2 * e + ph
    ensures Held1(q, After(q, acts), e, ph)
  {
    RunLive(q, acts);
  }

  lemma HoldBack(q: Prog, e: int, ph: int) returns (acts: seq<Action>)
    requires WellFormed(q) && NoStale(q) && q.w >= 2 && 0 <= ph <= 1 && Used(q, e, ph) && e <= q.start(q.calls)
    ensures ProductiveRun(q, acts) && Held1(q, After(q, acts), e, ph)
  {
    NothingYet(q, e, ph);
    acts := Exhaust(q, [], 1, 2 * e + ph);
    HeldIs(q, acts, e, ph);
  }

  /** A stale word misleads some poller in some run. */
  lemma StaleMisleads(p: Prog, f: int, e: int, ph: int)
    requires WellFormed(p) && p.w >= 2 && Previous(p, f, e, ph) && Same(p, f, e)
    ensures !Safe(p)
  {
    var q := Widened(p);
    WidenedSound(p);
    assert Previous(q, f, e, ph);
    var acts := HoldBack(q, e, ph);
    RunNarrows(p, q, acts);
    EvenPart(f, p.m);
    EvenPart(e, p.m);
    HeldMisleads(p, q, After(q, acts), f, e, ph);
    var b :| Misled(p, After(p, acts), 0, b, 1);
  }

  /** The barriers of a program on two ranks or more hold in every run if and only if none of its
      words can be stale. */
  lemma SafeExactly(p: Prog)
    requires WellFormed(p) && p.w >= 2
    ensures Safe(p) <==> NoStale(p)
  {
    if NoStale(p) {
      NoStaleSafe(p);
    } else {
      var e, f, ph :| Previous(p, f, e, ph) && Same(p, f, e);
      StaleMisleads(p, f, e, ph);
    }
  }
}
