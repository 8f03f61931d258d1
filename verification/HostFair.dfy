/**
Termination under fairness. A schedule offers one action after another for ever; what is not enabled
when it is offered is skipped. If no block and no rank is passed over for ever, everything ends:
pollers that start over again and again do not keep the others from finishing.
*/
module HostFair {
  import opened HostMachine
  import opened HostControl
  import opened HostSteps
  import opened HostTheorems
  import opened HostLive
  import opened HostProgress

  /** Who acts: a rank that launches its next kernel, or a block. */
  datatype Source = Rank(r: int) | Of(r: int, b: int)

  predicate By(a: Action, x: Source) {
    match a
    case Launch(r) => x == Rank(r)
    case Pick(r, b, it) => x == Of(r, b)
    case Go(r, b) => x == Of(r, b)
  }

  // ---- schedules ----------------------------------------------------------

  ghost function Act(p: Prog, s: State, a: Action): State
    requires p.m >= 2
  {
    if Enabled(p, s, a) then Step(p, s, a) else s
  }

  /** The state after n offers. */
  ghost function At(p: Prog, sched: nat -> Action, n: nat): State
    requires p.m >= 2
  {
    if n == 0 then Init() else Act(p, At(p, sched, n - 1), sched(n - 1))
  }

  /** Nothing that x could do is enabled. */
  ghost predicate Idles(p: Prog, s: State, x: Source) { forall a: Action :: By(a, x) ==> !Enabled(p, s, a) }

  /** At offer m, x acts or has nothing to do. */
  ghost predicate Turn(p: Prog, sched: nat -> Action, x: Source, m: nat)
    requires p.m >= 2
  {
    Idles(p, At(p, sched, m), x) || (By(sched(m), x) && Enabled(p, At(p, sched, m), sched(m)))
  }

  ghost predicate Served(p: Prog, sched: nat -> Action, x: Source, n: nat)
    requires p.m >= 2
  {
    exists m: nat :: n <= m && Turn(p, sched, x, m)
  }

  /** Weak fairness, to every rank and every block. */
  ghost predicate Fair(p: Prog, sched: nat -> Action)
    requires p.m >= 2
  {
    forall x: Source, n: nat :: Served(p, sched, x, n)
  }

  /** Every state of a schedule is reached by a run. */
  lemma {:induction false} RunTo(p: Prog, sched: nat -> Action, n: nat) returns (acts: seq<Action>)
    requires p.m >= 2
    ensures Run(p, acts) && After(p, acts) == At(p, sched, n)
  {
    acts := [];
    if n > 0 {
      acts := RunTo(p, sched, n - 1);
      if Enabled(p, At(p, sched, n - 1), sched(n - 1)) {
        Extend(p, acts, sched(n - 1));
        acts := acts + [sched(n - 1)];
      }
    }
  }

  // ---- a measure that polling does not move --------------------------------

  function Flat(k: Block): Block { if k.pc.Poll? then k.(pc := Poll(k.pc.ph, 0)) else k }

  function Quiet(s: State): State { s.(blocks := (x, y) => Flat(s.blocks(x, y))) }

  /** The flag of rank j matches what the block polls for. */
  predicate Matches(p: Prog, s: State, r: int, b: int, j: int)
    requires p.m >= 2 && s.blocks(r, b).pc.Poll?
  {
    var k := s.blocks(r, b);
    Same(p, s.flags(Par(Word(k)), k.pc.ph, j), Word(k))
  }

  /** A look at a word that does not match, or at a flag that is not the last. */
  predicate Spinning(p: Prog, s: State, a: Action)
    requires p.m >= 2
  {
    a.Go? &&
    var pc := s.blocks(a.r, a.b).pc;
    || (pc.Poll? && (!Matches(p, s, a.r, a.b, pc.j) || pc.j + 1 < p.w))
    || (pc.Wait? && !Same(p, s.go(a.r, pc.ph), Word(s.blocks(a.r, a.b))))
  }

  predicate Level(p: Prog, s: State, t: State) {
    && Total(p, s, 0) == Total(p, t, 0) && Total(p, s, 1) == Total(p, t, 1)
    && Total(p, s, 2) == Total(p, t, 2) && Total(p, s, 3) == Total(p, t, 3)
  }

  /** Nothing but the place of one poller changes. */
  ghost predicate Looks(s: State, t: State, r: int, b: int) {
    && t.call == s.call && t.flags == s.flags && t.go == s.go && t.pub == s.pub
    && (forall x, y :: x != r || y != b ==> t.blocks(x, y) == s.blocks(x, y))
    && Flat(t.blocks(r, b)) == Flat(s.blocks(r, b))
  }

  lemma SpinLooks(p: Prog, s: State, r: int, b: int)
    requires p.m >= 2 && Spinning(p, s, Go(r, b))
    ensures Looks(s, GoStep(p, s, r, b), r, b)
    ensures s.blocks(r, b).pc.Poll? && Matches(p, s, r, b, s.blocks(r, b).pc.j) ==>
      GoStep(p, s, r, b).blocks(r, b).pc == Poll(s.blocks(r, b).pc.ph, s.blocks(r, b).pc.j + 1)
  {}

  lemma LooksLevel(p: Prog, s: State, t: State, r: int, b: int)
    requires Looks(s, t, r, b) && Has(p, s.call(r), r, b)
    ensures Level(p, Quiet(s), Quiet(t))
  {
    var q, u := Quiet(s), Quiet(t);
    assert OneBlock(q, u, r, b);
    TotalChange(p, q, u, r, b, 1);
    TotalChange(p, q, u, r, b, 2);
    TotalChange(p, q, u, r, b, 3);
  }

  lemma CallTotal(p: Prog, s: State, t: State)
    requires s.call == t.call
    ensures Total(p, s, 0) == Total(p, t, 0)
  {
    SumEqual(r => RankCost(p, s, r, 0), r => RankCost(p, t, r, 0), p.w);
  }

  lemma LaunchDrops(p: Prog, s: State, r: int)
    requires p.m >= 2 && 0 <= r < p.w
    ensures Lower(p, Quiet(s), Quiet(Step(p, s, Launch(r))))
  {
    LaunchLowers(p, s, r);
    var t := Step(p, s, Launch(r));
    SumChange(y => RankCost(p, s, y, 0), y => RankCost(p, t, y, 0), p.w, r);
    CallTotal(p, s, Quiet(s));
    CallTotal(p, t, Quiet(t));
  }

  /** A step of a block that is not a mere look is cheaper, wherever a poller is put. */
  lemma GoCheaper(p: Prog, s: State, r: int, b: int)
    requires WellFormed(p) && Shape(p, s) && Enabled(p, s, Go(r, b)) && !Spinning(p, s, Go(r, b))
    ensures var t := GoStep(p, s, r, b);
      OneBlock(s, t, r, b) && Cheaper(p, s.call(r), r, Flat(s.blocks(r, b)), Flat(t.blocks(r, b)))
  {
    var k, t := s.blocks(r, b), GoStep(p, s, r, b);
    assert Shape1(p, s.call(r), k);
    if k.pc.Work? && k.cur.Busy? {
      WorkCheaper(p, s, r, b, k.pc.st);
    } else if k.pc.Poll? {
      assert t.blocks(r, b) == k.(pc := Rel(k.pc.ph));
    } else {
      MoveCheaper(p, s, t, r, b);
    }
  }

  lemma QuietOne(s: State, t: State, r: int, b: int)
    requires OneBlock(s, t, r, b)
    ensures OneBlock(Quiet(s), Quiet(t), r, b)
  {}

  lemma PickDrops(p: Prog, s: State, r: int, b: int, it: Item)
    requires p.m >= 2 && Enabled(p, s, Pick(r, b, it))
    ensures Lower(p, Quiet(s), Quiet(Step(p, s, Pick(r, b, it))))
  {
    var t := Step(p, s, Pick(r, b, it));
    assert OneBlock(s, t, r, b) && Cheaper(p, s.call(r), r, s.blocks(r, b), t.blocks(r, b));
    QuietOne(s, t, r, b);
    BlockLowers(p, Quiet(s), Quiet(t), r, b);
  }

  lemma GoDrops(p: Prog, s: State, r: int, b: int)
    requires WellFormed(p) && Shape(p, s) && Enabled(p, s, Go(r, b)) && !Spinning(p, s, Go(r, b))
    ensures Lower(p, Quiet(s), Quiet(GoStep(p, s, r, b)))
  {
    GoCheaper(p, s, r, b);
    QuietOne(s, GoStep(p, s, r, b), r, b);
    BlockLowers(p, Quiet(s), Quiet(GoStep(p, s, r, b)), r, b);
  }

  /** Every step that is not a mere look lowers the measure. */
  lemma StepDrops(p: Prog, s: State, a: Action)
    requires WellFormed(p) && Shape(p, s) && Enabled(p, s, a) && !Spinning(p, s, a)
    ensures Lower(p, Quiet(s), Quiet(Step(p, s, a)))
  {
    match a
    case Launch(r) => LaunchDrops(p, s, r);
    case Pick(r, b, it) => PickDrops(p, s, r, b, it);
    case Go(r, b) => GoDrops(p, s, r, b);
  }

  // ---- somebody can get on -------------------------------------------------

  /** x can act, and whatever it does is, sooner or later, more than a look. */
  ghost predicate Ripe(p: Prog, s: State, x: Source)
    requires p.m >= 2
  {
    match x
    case Rank(r) => Enabled(p, s, Launch(r))
    case Of(r, b) =>
      var k := s.blocks(r, b);
      && Has(p, s.call(r), r, b) && k.pc != Done
      && (k.pc.Wait? ==> Same(p, s.go(r, k.pc.ph), Word(k)))
      && (k.pc.Poll? ==> forall j :: 0 <= j < p.w ==> Matches(p, s, r, b, j))
  }

  lemma RipeActs(p: Prog, s: State, x: Source)
    requires p.m >= 2 && Ripe(p, s, x)
    ensures !Idles(p, s, x)
  {
    match x
    case Rank(r) => assert By(Launch(r), x);
    case Of(r, b) =>
      var k := s.blocks(r, b);
      if k.pc.Work? && k.cur == Idle && k.todo != {} {
        var it :| it in k.todo;
        assert By(Pick(r, b, it), x) && Enabled(p, s, Pick(r, b, it));
      } else {
        assert By(Go(r, b), x) && Enabled(p, s, Go(r, b));
      }
  }

  /** Looks of blocks leave what is ripe ripe. */
  lemma RipeStays(p: Prog, s: State, t: State, r: int, b: int, x: Source)
    requires p.m >= 2 && Looks(s, t, r, b)
    ensures Ripe(p, s, x) <==> Ripe(p, t, x)
  {
    match x
    case Rank(q) =>
      assert forall y :: t.blocks(q, y).pc == Done <==> s.blocks(q, y).pc == Done by {
        assert forall y :: Flat(t.blocks(q, y)) == Flat(s.blocks(q, y));
      }
    case Of(q, y) =>
      assert Flat(t.blocks(q, y)) == Flat(s.blocks(q, y));
      if s.blocks(q, y).pc.Poll? {
        assert forall j :: Matches(p, t, q, y, j) <==> Matches(p, s, q, y, j);
      }
  }

  /** A poller has seen the flags before its place match, and they still do. */
  lemma SeenMatches(p: Prog, s: State, r: int, b: int, j: int)
    requires WellFormed(p) && NoStale(p) && Inv(p, s) && Has(p, s.call(r), r, b) && s.blocks(r, b).pc.Poll?
    requires 0 <= j < s.blocks(r, b).pc.j
    ensures Matches(p, s, r, b, j)
  {
    assert Shape1(p, s.call(r), s.blocks(r, b)) && Lead1(p, s, r, s.blocks(r, b));
    FlagExact(p, s, r, b, j);
  }

  /** A poller at its last flag that matches has them all. */
  lemma LastMatches(p: Prog, acts: seq<Action>, s: State, r: int, b: int)
    requires Reaches(p, acts, s) && Has(p, s.call(r), r, b) && s.blocks(r, b).pc.Poll?
    requires s.blocks(r, b).pc.j + 1 >= p.w && Matches(p, s, r, b, s.blocks(r, b).pc.j)
    ensures Ripe(p, s, Of(r, b))
  {
    RunInv(p, acts);
    forall j | 0 <= j < p.w ensures Matches(p, s, r, b, j) {
      if j < s.blocks(r, b).pc.j { SeenMatches(p, s, r, b, j); }
    }
  }

  /** While there is work left, somebody is ripe: otherwise only pollers could move, to no end. */
  lemma {:induction false} FindRipe(p: Prog, acts: seq<Action>, s: State) returns (x: Source)
    requires Reaches(p, acts, s) && !AllDone(p, s)
    ensures Ripe(p, s, x)
    decreases Total(p, s, 0), Total(p, s, 1), Total(p, s, 2), Total(p, s, 3)
  {
    NeverStuck(p, acts, s);
    var a :| Enabled(p, s, a) && Productive(p, s, a);
    x := if a.Launch? then Rank(a.r) else Of(a.r, a.b);
    if a.Go? && s.blocks(a.r, a.b).pc.Poll? {
      if s.blocks(a.r, a.b).pc.j + 1 >= p.w {
        LastMatches(p, acts, s, a.r, a.b);
      } else {
        x := RipeAfter(p, acts, s, a);
      }
    }
  }

  lemma {:induction false} RipeAfter(p: Prog, acts: seq<Action>, s: State, a: Action) returns (x: Source)
    requires Reaches(p, acts, s) && !AllDone(p, s) && a.Go? && Enabled(p, s, a) && Productive(p, s, a)
    requires s.blocks(a.r, a.b).pc.Poll? && s.blocks(a.r, a.b).pc.j + 1 < p.w
    ensures Ripe(p, s, x)
    decreases Total(p, s, 0), Total(p, s, 1), Total(p, s, 2), Total(p, s, 3), 0
  {
    var t := Step(p, s, a);
    Extend(p, acts, a);
    RunInv(p, acts);
    RunInv(p, acts + [a]);
    StepLowers(p, s, a);
    TotalNonNegative(p, t, 0);
    TotalNonNegative(p, t, 1);
    TotalNonNegative(p, t, 2);
    TotalNonNegative(p, t, 3);
    SpinLooks(p, s, a.r, a.b);
    StillWork(p, s, t, a.r, a.b);
    x := FindRipe(p, acts + [a], t);
    RipeStays(p, s, t, a.r, a.b, x);
  }

  lemma StillWork(p: Prog, s: State, t: State, r: int, b: int)
    requires Looks(s, t, r, b) && Has(p, s.call(r), r, b) && s.blocks(r, b).pc.Poll?
    ensures !AllDone(p, t)
  {
    assert t.blocks(r, b).pc.Poll? && Has(p, t.call(r), r, b);
    assert AllDone(p, t) ==> RankDone(p, t, r);
  }

  // ---- fair schedules ------------------------------------------------------

  /** Flags that a ripe poller has still to look at. */
  function Gap(p: Prog, s: State, x: Source): int {
    if x.Of? && s.blocks(x.r, x.b).pc.Poll? then p.w - s.blocks(x.r, x.b).pc.j else 0
  }

  /** What a look of somebody else, or of the ripe one itself, does to it. */
  lemma LookGap(p: Prog, s: State, a: Action, x: Source)
    requires WellFormed(p) && Shape(p, s) && Enabled(p, s, a) && Spinning(p, s, a) && Ripe(p, s, x)
    ensures var t := Step(p, s, a);
      && Looks(s, t, a.r, a.b) && Ripe(p, t, x)
      && (if By(a, x) then 0 <= Gap(p, t, x) < Gap(p, s, x) else Gap(p, t, x) == Gap(p, s, x))
  {
    SpinLooks(p, s, a.r, a.b);
    RipeStays(p, s, Step(p, s, a), a.r, a.b, x);
    assert Shape1(p, s.call(a.r), s.blocks(a.r, a.b));
  }

  lemma ShapeAt(p: Prog, sched: nat -> Action, n: nat)
    requires WellFormed(p) && NoStale(p)
    ensures Shape(p, At(p, sched, n))
  {
    var acts := RunTo(p, sched, n);
    RunInv(p, acts);
  }

  lemma NextTurn(p: Prog, sched: nat -> Action, x: Source, n: nat) returns (m: nat)
    requires p.m >= 2 && Fair(p, sched)
    ensures n <= m && Turn(p, sched, x, m)
  {
    assert Served(p, sched, x, n);
    m :| n <= m && Turn(p, sched, x, m);
  }

  /** x is ripe, `gap` flags from being through, and its turn comes. */
  ghost predicate Waits(p: Prog, sched: nat -> Action, n: nat, x: Source, turn: nat, gap: nat)
    requires p.m >= 2
  {
    n <= turn && Turn(p, sched, x, turn) && Ripe(p, At(p, sched, n), x) && Gap(p, At(p, sched, n), x) == gap
  }

  /** Offer n is taken, and is not a mere look. */
  ghost predicate Moves(p: Prog, sched: nat -> Action, n: nat)
    requires p.m >= 2
  {
    Enabled(p, At(p, sched, n), sched(n)) && !Spinning(p, At(p, sched, n), sched(n))
  }

  /** One offer to a ripe one that waits for its turn: something moves, or it gets closer, or it waits on. */
  lemma Offer(p: Prog, sched: nat -> Action, n: nat, x: Source, turn: nat, gap: nat) returns (next: nat, left: nat)
    requires WellFormed(p) && NoStale(p) && Fair(p, sched) && Waits(p, sched, n, x, turn, gap)
    ensures !Moves(p, sched, n) ==> Waits(p, sched, n + 1, x, next, left)
    ensures !Moves(p, sched, n) ==> left < gap || (left == gap && next == turn && n < turn)
  {
    var s, a := At(p, sched, n), sched(n);
    next, left := turn, gap;
    ShapeAt(p, sched, n);
    RipeActs(p, s, x);
    if Enabled(p, s, a) && Spinning(p, s, a) {
      LookGap(p, s, a, x);
      left := Gap(p, At(p, sched, n + 1), x);
      if By(a, x) { next := NextTurn(p, sched, x, n + 1); }
    }
  }

  /** Until the ripe one has its turn, and as often as it needs, something moves or it gets closer. */
  lemma {:induction false} Drive(p: Prog, sched: nat -> Action, n: nat, x: Source, turn: nat, gap: nat) returns (m: nat)
    requires WellFormed(p) && NoStale(p) && Fair(p, sched) && Waits(p, sched, n, x, turn, gap)
    ensures m >= n && Moves(p, sched, m)
    decreases gap, turn - n
  {
    m := n;
    if !Moves(p, sched, n) {
      var next, left := Offer(p, sched, n, x, turn, gap);
      m := Drive(p, sched, n + 1, x, next, left);
    }
  }

  ghost predicate Drops(p: Prog, sched: nat -> Action, n: nat, m: nat)
    requires p.m >= 2
  {
    Lower(p, Quiet(At(p, sched, n)), Quiet(At(p, sched, m)))
  }

  /** Each offer lowers the measure or leaves it as it is. */
  lemma OfferSinks(p: Prog, sched: nat -> Action, n: nat)
    requires WellFormed(p) && NoStale(p)
    ensures Moves(p, sched, n) ==> Drops(p, sched, n, n + 1)
    ensures !Moves(p, sched, n) ==> Level(p, Quiet(At(p, sched, n)), Quiet(At(p, sched, n + 1)))
  {
    var s, a := At(p, sched, n), sched(n);
    ShapeAt(p, sched, n);
    if Moves(p, sched, n) {
      StepDrops(p, s, a);
    } else if Enabled(p, s, a) {
      SpinLooks(p, s, a.r, a.b);
      LooksLevel(p, s, Step(p, s, a), a.r, a.b);
    }
  }

  lemma LowerStill(p: Prog, s: State, t: State, u: State)
    requires (Level(p, s, t) || Lower(p, s, t)) && Lower(p, t, u)
    ensures Lower(p, s, u)
  {}

  /** So a move has lowered it since any earlier moment. */
  lemma {:induction false} Sinks(p: Prog, sched: nat -> Action, n: nat, m: nat)
    requires WellFormed(p) && NoStale(p) && n <= m && Moves(p, sched, m)
    ensures Drops(p, sched, n, m + 1)
    decreases m - n
  {
    OfferSinks(p, sched, n);
    if n < m {
      Sinks(p, sched, n + 1, m);
      LowerStill(p, Quiet(At(p, sched, n)), Quiet(At(p, sched, n + 1)), Quiet(At(p, sched, m + 1)));
    }
  }

  lemma GapNonNegative(p: Prog, s: State, x: Source)
    requires WellFormed(p) && Shape(p, s) && Ripe(p, s, x)
    ensures Gap(p, s, x) >= 0
  {
    if x.Of? { assert Shape1(p, s.call(x.r), s.blocks(x.r, x.b)); }
  }

  lemma QuietTotals(p: Prog, s: State)
    requires WellFormed(p) && Shape(p, s)
    ensures Total(p, Quiet(s), 0) >= 0 && Total(p, Quiet(s), 1) >= 0 && Total(p, Quiet(s), 2) >= 0 && Total(p, Quiet(s), 3) >= 0
  {
    var q := Quiet(s);
    forall r, b | Has(p, q.call(r), r, b) ensures Shape1(p, q.call(r), q.blocks(r, b)) {
      assert Shape1(p, s.call(r), s.blocks(r, b));
    }
    TotalNonNegative(p, q, 0);
    TotalNonNegative(p, q, 1);
    TotalNonNegative(p, q, 2);
    TotalNonNegative(p, q, 3);
  }

  /** While there is work left, something will move. */
  lemma FindMove(p: Prog, sched: nat -> Action, n: nat) returns (m: nat)
    requires WellFormed(p) && NoStale(p) && Fair(p, sched) && !AllDone(p, At(p, sched, n))
    ensures m >= n && Moves(p, sched, m)
  {
    var s := At(p, sched, n);
    var acts := RunTo(p, sched, n);
    var x := FindRipe(p, acts, s);
    ShapeAt(p, sched, n);
    GapNonNegative(p, s, x);
    var turn := NextTurn(p, sched, x, n);
    m := Drive(p, sched, n, x, turn, Gap(p, s, x));
  }

  lemma Advance(p: Prog, sched: nat -> Action, n: nat) returns (m: nat)
    requires WellFormed(p) && NoStale(p) && Fair(p, sched) && !AllDone(p, At(p, sched, n))
    ensures m > n && Drops(p, sched, n, m)
  {
    m := FindMove(p, sched, n);
    Sinks(p, sched, n, m);
    m := m + 1;
  }

  /** On every fair schedule, from any moment on, every rank runs every launch to its end. */
  lemma {:induction false} FairRunsEnd(p: Prog, sched: nat -> Action, n: nat) returns (m: nat)
    requires WellFormed(p) && NoStale(p) && Fair(p, sched)
    ensures m >= n && AllDone(p, At(p, sched, m))
    decreases Total(p, Quiet(At(p, sched, n)), 0), Total(p, Quiet(At(p, sched, n)), 1),
              Total(p, Quiet(At(p, sched, n)), 2), Total(p, Quiet(At(p, sched, n)), 3)
  {
    if AllDone(p, At(p, sched, n)) {
      m := n;
    } else {
      var next := Advance(p, sched, n);
      var acts := RunTo(p, sched, n);
      RunInv(p, acts);
      QuietTotals(p, At(p, sched, n));
      acts := RunTo(p, sched, next);
      RunInv(p, acts);
      QuietTotals(p, At(p, sched, next));
      m := FairRunsEnd(p, sched, next);
    }
  }
}
