/** No reachable state of matched collectives is stuck. */
module HostLive {
  import opened HostMachine
  import opened HostControl
  import opened HostSteps
  import opened HostTheorems

  // ---- who holds a barrier open -------------------------------------------

  /** A full arrive counter has a block about to reset it. */
  ghost predicate HasZero(p: Prog, s: State, r: int, ph: int) {
    s.arr(r, ph) == p.grid(s.call(r), r) ==> exists b :: Has(p, s.call(r), r, b) && s.blocks(r, b).pc == Zero(ph)
  }

  predicate Publishing(p: Prog, s: State, r: int, ph: int, b: int) {
    && Has(p, s.call(r), r, b) && (s.blocks(r, b).pc == Bump(ph) || s.blocks(r, b).pc == Pub(ph))
    && Ep(p, s.call(r), s.blocks(r, b)) == s.shut(r, ph)
  }

  /** A barrier that is shut is published or has a block about to publish it. */
  ghost predicate HasPublisher(p: Prog, s: State, r: int, ph: int) {
    s.shut(r, ph) > 0 ==> s.pub(r) >= 2 * s.shut(r, ph) + ph || exists b :: Publishing(p, s, r, ph, b)
  }

  predicate Releasing(p: Prog, s: State, r: int, b: int) {
    var pc := s.blocks(r, b).pc;
    Has(p, s.call(r), r, b) && (pc.Poll? || pc.Rel?) && 2 * Ep(p, s.call(r), s.blocks(r, b)) + pc.ph == s.pub(r)
  }

  /** The barrier last published is released or has a block polling for it. */
  ghost predicate HasReleaser(p: Prog, s: State, r: int) {
    s.pub(r) > 0 ==> s.go(r, s.pub(r) % 2) >= s.pub(r) / 2 || exists b :: Releasing(p, s, r, b)
  }

  ghost predicate Live(p: Prog, s: State) {
    && (forall r, ph :: 0 <= r < p.w && 0 <= ph <= 1 ==> HasZero(p, s, r, ph) && HasPublisher(p, s, r, ph))
    && (forall r :: 0 <= r < p.w ==> HasReleaser(p, s, r))
  }

  lemma InitLive(p: Prog)
    requires WellFormed(p)
    ensures Live(p, Init())
  {}

  lemma ZeroLive(p: Prog, s: State, t: State, r: int, b: int, x: int, h: int)
    requires WellFormed(p) && Shape(p, s) && Goes(p, s, t, r, b) && 0 <= x < p.w && HasZero(p, s, x, h)
    requires 0 <= s.call(x) < p.calls
    ensures HasZero(p, t, x, h)
  {
    if t.arr(x, h) == p.grid(t.call(x), x) {
      assert Shape1(p, s.call(r), s.blocks(r, b));
      if s.arr(x, h) == t.arr(x, h) {
        var y :| Has(p, s.call(x), x, y) && s.blocks(x, y).pc == Zero(h);
        assert t.blocks(x, y).pc == Zero(h) || (x == r && y == b);
      } else {
        assert t.blocks(r, b).pc == Zero(h);
      }
    }
  }

  /** What a step does to the words these statements are about. */
  ghost predicate Effects(p: Prog, s: State, t: State, r: int, b: int) {
    var k, l := s.blocks(r, b), t.blocks(r, b);
    && t.call == s.call && (forall x, y :: x != r || y != b ==> t.blocks(x, y) == s.blocks(x, y))
    && (Leads(k.pc) && !k.pc.Rel? ==> l.rnd == k.rnd && InBarrier(l.pc) && l.pc.ph == k.pc.ph)
    && t.shut == (if k.pc.Zero? then Set2(s.shut, r, k.pc.ph, Ep(p, s.call(r), k)) else s.shut)
    && t.pub == (if k.pc.Pub? then Set1(s.pub, r, 2 * Ep(p, s.call(r), k) + k.pc.ph) else s.pub)
    && t.go == (if k.pc.Rel? then Set2(s.go, r, k.pc.ph, Ep(p, s.call(r), k)) else s.go)
    && (k.pc.Zero? ==> l.pc.Bump?) && (k.pc.Bump? ==> l.pc.Pub?) && (k.pc.Pub? ==> l.pc.Poll?)
    && (k.pc.Poll? ==> l.pc.Poll? || l.pc.Rel?)
  }

  lemma EffectsOf(p: Prog, s: State, t: State, r: int, b: int)
    requires Shape1(p, s.call(r), s.blocks(r, b)) && Goes(p, s, t, r, b)
    ensures Effects(p, s, t, r, b)
  {}

  lemma PublisherLive(p: Prog, s: State, t: State, r: int, b: int, x: int, h: int)
    requires Effects(p, s, t, r, b) && Has(p, s.call(r), r, b) && HasPublisher(p, s, x, h) && s.pub(x) <= t.pub(x)
    requires s.blocks(r, b).pc.Pub? ==> s.shut(r, s.blocks(r, b).pc.ph) == Ep(p, s.call(r), s.blocks(r, b))
    ensures HasPublisher(p, t, x, h)
  {
    if t.shut(x, h) > 0 && t.pub(x) < 2 * t.shut(x, h) + h {
      if x == r && s.blocks(r, b).pc == Zero(h) {
        assert Publishing(p, t, r, h, b);
      } else {
        var y :| Publishing(p, s, x, h, y);
        assert Publishing(p, t, x, h, y);
      }
    }
  }

  lemma ReleaserLive(p: Prog, s: State, t: State, r: int, b: int, x: int)
    requires Effects(p, s, t, r, b) && Has(p, s.call(r), r, b) && HasReleaser(p, s, x)
    requires s.blocks(r, b).pc.Rel? ==>
      0 <= s.blocks(r, b).pc.ph <= 1 && s.go(r, s.blocks(r, b).pc.ph) <= Ep(p, s.call(r), s.blocks(r, b))
    ensures HasReleaser(p, t, x)
  {
    var k := s.blocks(r, b);
    if x == r && k.pc.Pub? {
      assert Releasing(p, t, r, b);
    } else if t.pub(x) > 0 && t.go(x, t.pub(x) % 2) < t.pub(x) / 2 {
      if x == r && k.pc.Rel? { assert s.go(r, k.pc.ph) <= t.go(r, k.pc.ph); }
      var y :| Releasing(p, s, x, y);
      assert Releasing(p, t, x, y);
    }
  }

  lemma GoLive(p: Prog, s: State, t: State, r: int, b: int)
    requires WellFormed(p) && Inv(p, s) && Live(p, s) && Goes(p, s, t, r, b) && Inv(p, t)
    ensures Live(p, t)
  {
    var k := s.blocks(r, b);
    assert Shape1(p, s.call(r), k) && Lead1(p, s, r, k);
    EffectsOf(p, s, t, r, b);
    if k.pc.Pub? { PublishStill(p, s, t, r, b); }
    if k.pc.Rel? { assert s.go(r, k.pc.ph) <= s.shut(r, k.pc.ph); }
    forall x, h | 0 <= x < p.w && 0 <= h <= 1 ensures HasZero(p, t, x, h) && HasPublisher(p, t, x, h) {
      ZeroLive(p, s, t, r, b, x, h);
      PublisherLive(p, s, t, r, b, x, h);
    }
    forall x | 0 <= x < p.w ensures HasReleaser(p, t, x) { ReleaserLive(p, s, t, r, b, x); }
  }

  /** Picking an item up moves nothing these statements are about. */
  lemma PickLive(p: Prog, s: State, t: State, r: int, b: int, it: Item)
    requires p.m >= 2 && Live(p, s) && Enabled(p, s, Pick(r, b, it)) && t == Step(p, s, Pick(r, b, it))
    ensures Live(p, t)
  {
    forall x, h | 0 <= x < p.w && 0 <= h <= 1 ensures HasZero(p, t, x, h) && HasPublisher(p, t, x, h) {
      assert HasPublisher(p, s, x, h) && HasZero(p, s, x, h);
      if y :| Has(p, s.call(x), x, y) && s.blocks(x, y).pc == Zero(h) { assert t.blocks(x, y).pc == Zero(h); }
      if y :| Publishing(p, s, x, h, y) { assert Publishing(p, t, x, h, y); }
    }
    forall x | 0 <= x < p.w ensures HasReleaser(p, t, x) {
      assert HasReleaser(p, s, x);
      if y :| Releasing(p, s, x, y) { assert Releasing(p, t, x, y); }
    }
  }

  /** A launch finds nobody in a barrier, and leaves nobody there. */
  lemma LaunchLive(p: Prog, s: State, t: State, r: int)
    requires WellFormed(p) && Inv(p, s) && Live(p, s) && Enabled(p, s, Launch(r)) && t == Step(p, s, Launch(r))
    ensures Live(p, t)
  {
    Quiet(p, s, r);
    forall x, h | 0 <= x < p.w && 0 <= h <= 1 ensures HasZero(p, t, x, h) && HasPublisher(p, t, x, h) {
      assert HasPublisher(p, s, x, h) && HasZero(p, s, x, h);
      if x != r {
        if y :| Has(p, s.call(x), x, y) && s.blocks(x, y).pc == Zero(h) { assert t.blocks(x, y).pc == Zero(h); }
        if y :| Publishing(p, s, x, h, y) { assert Publishing(p, t, x, h, y); }
      }
    }
    forall x | 0 <= x < p.w ensures HasReleaser(p, t, x) {
      assert HasReleaser(p, s, x);
      if x != r { if y :| Releasing(p, s, x, y) { assert Releasing(p, t, x, y); } }
    }
  }

  lemma {:induction false} RunLive(p: Prog, acts: seq<Action>)
    requires WellFormed(p) && NoStale(p) && Run(p, acts)
    ensures Inv(p, After(p, acts)) && Live(p, After(p, acts))
  {
    RunInv(p, acts);
    if acts == [] {
      InitLive(p);
    } else {
      var s := After(p, acts[..|acts| - 1]);
      RunLive(p, acts[..|acts| - 1]);
      match acts[|acts| - 1]
      case Launch(r) => LaunchLive(p, s, After(p, acts), r);
      case Pick(r, b, it) => PickLive(p, s, After(p, acts), r, b, it);
      case Go(r, b) => GoLive(p, s, After(p, acts), r, b);
    }
  }

  // ---- no reachable state is stuck ----------------------------------------

  /** The action is more than one more look at a word that does not match yet. */
  ghost predicate Productive(p: Prog, s: State, a: Action)
    requires p.m >= 2
  {
    a.Go? ==>
      var k := s.blocks(a.r, a.b);
      && (k.pc.Poll? ==> Same(p, s.flags(Par(Word(k)), k.pc.ph, k.pc.j), Word(k)))
      && (k.pc.Wait? ==> Same(p, s.go(a.r, k.pc.ph), Word(k)))
  }

  /** Every rank has run every launch to its end. */
  ghost predicate AllDone(p: Prog, s: State) {
    forall r :: 0 <= r < p.w ==> RankDone(p, s, r)
  }

  ghost predicate RankDone(p: Prog, s: State, r: int) {
    s.call(r) + 1 == p.calls && Finished(p, s, r, s.call(r))
  }

  /** Rank r can do no more than look again at words that do not match. */
  ghost predicate RankStuck(p: Prog, s: State, r: int)
    requires p.m >= 2
  {
    forall a: Action :: a.r == r && Enabled(p, s, a) ==> !Productive(p, s, a)
  }

  predicate Spins(pc: Pc) { pc.Poll? || pc.Wait? }

  /** Block b polls the flag of rank j, which has not published the barrier b is at. */
  ghost predicate WaitsFor(p: Prog, s: State, r: int, b: int, j: int) {
    && Has(p, s.call(r), r, b) && s.blocks(r, b).pc.Poll? && s.blocks(r, b).pc.j == j
    && 0 <= j < p.w && s.pub(j) < Arrived(p, s.call(r), s.blocks(r, b)) <= s.pub(r)
  }

  /** In a stuck rank every block spins or has exited. */
  lemma StuckBlock(p: Prog, s: State, r: int, b: int)
    requires p.m >= 2 && RankStuck(p, s, r) && Has(p, s.call(r), r, b)
    ensures Spins(s.blocks(r, b).pc) || s.blocks(r, b).pc == Done
  {
    var k := s.blocks(r, b);
    if !Spins(k.pc) && k.pc != Done {
      if k.pc.Work? && k.cur == Idle && k.todo != {} {
        var it :| it in k.todo;
        assert Enabled(p, s, Pick(r, b, it)) && Productive(p, s, Pick(r, b, it));
      } else {
        assert Enabled(p, s, Go(r, b)) && Productive(p, s, Go(r, b));
      }
    }
  }

  /** A block that polls a flag goes on if that rank has published. */
  lemma PollGoes(p: Prog, s: State, r: int, b: int)
    requires WellFormed(p) && Shape(p, s) && Sync(p, s) && Flags(p, s) && Has(p, s.call(r), r, b) && s.blocks(r, b).pc.Poll?
    requires s.pub(s.blocks(r, b).pc.j) >= Arrived(p, s.call(r), s.blocks(r, b))
    ensures Enabled(p, s, Go(r, b)) && Productive(p, s, Go(r, b))
  {
    var k := s.blocks(r, b);
    assert Shape1(p, s.call(r), k);
    EpochPositive(p, s, r, b);
    FlagNotAhead(p, s, r, b, k.pc.j);
    assert Flags1(p, s, k.pc.j, k.pc.ph) && Used(p, Word(k), k.pc.ph);
  }

  lemma WaitGoes(p: Prog, s: State, r: int, b: int)
    requires WellFormed(p) && Shape(p, s) && Count(p, s) && Words(p, s) && Has(p, s.call(r), r, b) && s.blocks(r, b).pc.Wait?
    requires s.go(r, s.blocks(r, b).pc.ph) >= Ep(p, s.call(r), s.blocks(r, b))
    ensures Enabled(p, s, Go(r, b)) && Productive(p, s, Go(r, b))
  {
    var k := s.blocks(r, b);
    assert Shape1(p, s.call(r), k) && Words1(p, s, r, k.pc.ph) && s.go(r, k.pc.ph) <= s.shut(r, k.pc.ph);
    EpochPositive(p, s, r, b);
  }

  lemma PollWaits(p: Prog, s: State, r: int, b: int)
    requires WellFormed(p) && Inv(p, s) && RankStuck(p, s, r) && Has(p, s.call(r), r, b) && s.blocks(r, b).pc.Poll?
    ensures WaitsFor(p, s, r, b, s.blocks(r, b).pc.j)
  {
    assert Shape1(p, s.call(r), s.blocks(r, b)) && Lead1(p, s, r, s.blocks(r, b));
    if s.pub(s.blocks(r, b).pc.j) >= Arrived(p, s.call(r), s.blocks(r, b)) { PollGoes(p, s, r, b); }
  }

  /** A waiting block of a stuck rank without a poller is at a barrier its rank has not published. */
  lemma WaitAhead(p: Prog, s: State, r: int, b: int)
    requires WellFormed(p) && Inv(p, s) && Live(p, s) && RankStuck(p, s, r) && Has(p, s.call(r), r, b) && s.blocks(r, b).pc.Wait?
    requires forall y :: Has(p, s.call(r), r, y) ==> !s.blocks(r, y).pc.Poll?
    ensures s.pub(r) < Arrived(p, s.call(r), s.blocks(r, b))
  {
    var k := s.blocks(r, b);
    if s.pub(r) >= Arrived(p, s.call(r), k) {
      assert Shape1(p, s.call(r), k) && HasReleaser(p, s, r) && s.pub(r) == Arrived(p, s.call(r), k);
      EpochPositive(p, s, r, b);
      if s.go(r, k.pc.ph) >= Ep(p, s.call(r), k) {
        WaitGoes(p, s, r, b);
      } else {
        var y :| Releasing(p, s, r, y);
        StuckBlock(p, s, r, y);
      }
    }
  }

  /** A waiting block whose barrier its stuck rank has not published is counted. */
  lemma WaitCounted(p: Prog, s: State, j: int, y: int)
    requires WellFormed(p) && Shape(p, s) && Live(p, s) && RankStuck(p, s, j) && Has(p, s.call(j), j, y) && s.blocks(j, y).pc.Wait?
    requires s.pub(j) < Arrived(p, s.call(j), s.blocks(j, y))
    ensures Counted(p, s.call(j), s.blocks(j, y), s.blocks(j, y).pc.ph, s.shut(j, s.blocks(j, y).pc.ph))
  {
    var ph := s.blocks(j, y).pc.ph;
    assert Shape1(p, s.call(j), s.blocks(j, y)) && HasPublisher(p, s, j, ph);
    EpochPositive(p, s, j, y);
    if z :| Publishing(p, s, j, ph, z) { StuckBlock(p, s, j, z); }
  }

  lemma GoAtLeast(p: Prog, s: State, r: int, b: int, f: int, ph: int)
    requires Words(p, s) && Has(p, s.call(r), r, b) && 0 <= ph <= 1 && Used(p, f, ph)
    requires Passed(p, s.call(r), s.blocks(r, b)) >= 2 * f + ph
    ensures s.go(r, ph) >= f
  {
    assert Words1(p, s, r, ph);
  }

  /** Two counted blocks of a rank wait in the same phase. */
  lemma PhasesAgree(p: Prog, s: State, j: int, y: int, z: int)
    requires WellFormed(p) && Shape(p, s) && Count(p, s) && Words(p, s) && Has(p, s.call(j), j, y) && Has(p, s.call(j), j, z)
    requires s.blocks(j, y).pc == Wait(0) && s.blocks(j, z).pc == Wait(1)
    ensures !(Counted(p, s.call(j), s.blocks(j, y), 0, s.shut(j, 0)) && Counted(p, s.call(j), s.blocks(j, z), 1, s.shut(j, 1)))
  {
    var c := s.call(j);
    var e, f := Ep(p, c, s.blocks(j, y)), Ep(p, c, s.blocks(j, z));
    assert Shape1(p, c, s.blocks(j, y)) && Shape1(p, c, s.blocks(j, z));
    EpochPositive(p, s, j, y);
    EpochPositive(p, s, j, z);
    assert s.go(j, 0) <= s.shut(j, 0) && s.go(j, 1) <= s.shut(j, 1);
    if f < e {
      assert 2 * f + 1 <= Last(p, f) <= Last(p, e - 1);
      GoAtLeast(p, s, j, y, f, 1);
    } else {
      GoAtLeast(p, s, j, z, e, 0);
    }
  }

  /** Not all blocks of a stuck rank wait, counted, in one phase: the last arriver would reset. */
  lemma NotAllCounted(p: Prog, s: State, j: int, ph: int)
    requires WellFormed(p) && Shape(p, s) && Count(p, s) && Live(p, s) && RankStuck(p, s, j) && 0 <= j < p.w && 0 <= ph <= 1
    ensures exists y :: Has(p, s.call(j), j, y) && !Counted(p, s.call(j), s.blocks(j, y), ph, s.shut(j, ph))
  {
    if Open(p, s, j, ph) == Below(p.grid(s.call(j), j)) {
      assert HasZero(p, s, j, ph);
      var y :| Has(p, s.call(j), j, y) && s.blocks(j, y).pc == Zero(ph);
      StuckBlock(p, s, j, y);
    } else {
      var y :| y in Below(p.grid(s.call(j), j)) && y !in Open(p, s, j, ph);
      assert Has(p, s.call(j), j, y);
    }
  }

  /** A spinning block is at a barrier its launch's exited blocks have passed, hence published. */
  lemma MatePublished(p: Prog, s: State, j: int, y: int, z: int)
    requires WellFormed(p) && Shape(p, s) && Sync(p, s) && Has(p, s.call(j), j, y) && Has(p, s.call(j), j, z)
    requires s.blocks(j, y).pc == Done && Spins(s.blocks(j, z).pc)
    ensures Arrived(p, s.call(j), s.blocks(j, z)) <= s.pub(j)
  {
    assert Shape1(p, s.call(j), s.blocks(j, y)) && Shape1(p, s.call(j), s.blocks(j, z));
    DoneStands(p, s.call(j), s.blocks(j, y));
    EpochPositive(p, s, j, z);
  }

  /** A stuck rank with a waiting block has a polling one. */
  lemma SomePolls(p: Prog, s: State, r: int, b: int)
    requires WellFormed(p) && Inv(p, s) && Live(p, s) && RankStuck(p, s, r) && Has(p, s.call(r), r, b) && s.blocks(r, b).pc.Wait?
    ensures exists y :: Has(p, s.call(r), r, y) && s.blocks(r, y).pc.Poll?
  {
    if forall y :: Has(p, s.call(r), r, y) ==> !s.blocks(r, y).pc.Poll? {
      var ph := s.blocks(r, b).pc.ph;
      assert Shape1(p, s.call(r), s.blocks(r, b));
      WaitAhead(p, s, r, b);
      WaitCounted(p, s, r, b);
      NotAllCounted(p, s, r, ph);
      var y :| Has(p, s.call(r), r, y) && !Counted(p, s.call(r), s.blocks(r, y), ph, s.shut(r, ph));
      OtherCounted(p, s, r, b, y);
    }
  }

  lemma OtherCounted(p: Prog, s: State, r: int, b: int, y: int)
    requires WellFormed(p) && Inv(p, s) && Live(p, s) && RankStuck(p, s, r) && Has(p, s.call(r), r, b) && Has(p, s.call(r), r, y)
    requires forall x :: Has(p, s.call(r), r, x) ==> !s.blocks(r, x).pc.Poll?
    requires s.blocks(r, b).pc.Wait? && Counted(p, s.call(r), s.blocks(r, b), s.blocks(r, b).pc.ph, s.shut(r, s.blocks(r, b).pc.ph))
    requires s.pub(r) < Arrived(p, s.call(r), s.blocks(r, b))
    ensures Counted(p, s.call(r), s.blocks(r, y), s.blocks(r, b).pc.ph, s.shut(r, s.blocks(r, b).pc.ph))
  {
    StuckBlock(p, s, r, y);
    if s.blocks(r, y).pc == Done {
      MatePublished(p, s, r, y, b);
    } else {
      WaitAhead(p, s, r, y);
      WaitCounted(p, s, r, y);
      assert Shape1(p, s.call(r), s.blocks(r, b)) && Shape1(p, s.call(r), s.blocks(r, y));
      if s.blocks(r, y).pc.ph < s.blocks(r, b).pc.ph { PhasesAgree(p, s, r, y, b); }
      if s.blocks(r, b).pc.ph < s.blocks(r, y).pc.ph { PhasesAgree(p, s, r, b, y); }
    }
  }

  /** A rank that cannot go on has finished, or polls for a rank that has not published. */
  lemma StuckRank(p: Prog, s: State, r: int)
    requires WellFormed(p) && Inv(p, s) && Live(p, s) && RankStuck(p, s, r) && 0 <= r < p.w
    ensures RankDone(p, s, r) || exists b, j :: WaitsFor(p, s, r, b, j)
  {
    var c := s.call(r);
    if forall b :: Has(p, c, r, b) ==> s.blocks(r, b).pc == Done {
      if c + 1 < p.calls {
        assert forall b :: 0 <= b < p.grid(c, r) ==> Has(p, c, r, b);
        assert Enabled(p, s, Launch(r)) && Productive(p, s, Launch(r));
      }
    } else {
      var b :| Has(p, c, r, b) && s.blocks(r, b).pc != Done;
      StuckBlock(p, s, r, b);
      if s.blocks(r, b).pc.Wait? { SomePolls(p, s, r, b); }
      var y :| Has(p, c, r, y) && s.blocks(r, y).pc.Poll?;
      PollWaits(p, s, r, y);
    }
  }

  /** A rank that has finished has published every barrier. */
  lemma DonePublished(p: Prog, s: State, j: int, r: int, b: int)
    requires WellFormed(p) && Shape(p, s) && Sync(p, s) && 0 <= j < p.w && RankDone(p, s, j) && Has(p, s.call(r), r, b)
    requires InBarrier(s.blocks(r, b).pc)
    ensures Arrived(p, s.call(r), s.blocks(r, b)) <= s.pub(j)
  {
    var c := s.call(j);
    assert Has(p, c, j, 0) && Shape1(p, c, s.blocks(j, 0)) && Shape1(p, s.call(r), s.blocks(r, b));
    DoneStands(p, c, s.blocks(j, 0));
    EpochPositive(p, s, r, b);
    EndMonotone(p, s.call(r) + 1, p.calls);
  }

  /** Following the ranks that stuck ranks wait for leads to one that can go on. */
  lemma {:induction false} ChainEnds(p: Prog, s: State, r: int) returns (j: int)
    requires WellFormed(p) && Inv(p, s) && Live(p, s) && 0 <= r < p.w && !RankDone(p, s, r)
    ensures 0 <= j < p.w && !RankStuck(p, s, j)
    decreases s.pub(r)
  {
    if RankStuck(p, s, r) {
      StuckRank(p, s, r);
      var b, i :| WaitsFor(p, s, r, b, i);
      if RankDone(p, s, i) { DonePublished(p, s, i, r, b); }
      PublishedPositive(p, s, i);
      j := ChainEnds(p, s, i);
    } else {
      j := r;
    }
  }

  lemma PublishedPositive(p: Prog, s: State, r: int)
    requires WellFormed(p) && Shape(p, s) && Sync(p, s) && 0 <= r < p.w
    ensures s.pub(r) >= 0
  {
    assert Has(p, s.call(r), r, 0) && Shape1(p, s.call(r), s.blocks(r, 0));
    EpochPositive(p, s, r, 0);
  }

  /** In every reachable state in which some rank has work left, some action makes progress. */
  lemma NeverStuck(p: Prog, acts: seq<Action>, s: State)
    requires Reaches(p, acts, s) && !AllDone(p, s)
    ensures exists a :: Enabled(p, s, a) && Productive(p, s, a)
  {
    RunLive(p, acts);
    var r :| 0 <= r < p.w && !RankDone(p, s, r);
    var j := ChainEnds(p, s, r);
  }
}
