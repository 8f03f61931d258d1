/** Progress is bounded: every productive step lowers a measure, so runs can always be completed. */
module HostProgress {
  import opened IntMath
  import opened HostMachine
  import opened HostControl
  import opened HostSteps
  import opened HostTheorems
  import opened HostLive

  // ---- the measure --------------------------------------------------------

  /** Steps in a stage and its barrier, at most. */
  function Unit(p: Prog): int { p.w + 10 }

  /** Where a stage starts in its round. */
  function StageAt(p: Prog, st: int): int { if st <= 0 then 0 else if st == 1 then Unit(p) else 2 * Unit(p) }

  /** How far a block is in its round. */
  function Offset(p: Prog, pc: Pc): int {
    match pc
    case Load => 0
    case Work(st) => 1 + StageAt(p, st)
    case Arr(ph) => 2 + StageAt(p, ph)
    case Zero(ph) => 3 + StageAt(p, ph)
    case Bump(ph) => 4 + StageAt(p, ph)
    case Pub(ph) => 5 + StageAt(p, ph)
    case Poll(ph, j) => 6 + j + StageAt(p, ph)
    case Rel(ph) => 6 + p.w + StageAt(p, ph)
    case Wait(ph) => 3 + StageAt(p, ph)
    case Done => 0
  }

  function StepsLeft(p: Prog, c: int, k: Block): int {
    if k.pc.Done? then 0 else (Rounds(p, c) - k.rnd) * (3 * Unit(p)) - Offset(p, k.pc)
  }

  /** What is left of the item in hand. */
  function InHandLeft(p: Prog, c: int, r: int, k: Block): int {
    if k.pc.Work? && k.cur.Busy? then
      var t := TaskOf(p, c, r, k, k.pc.st, k.cur.item);
      1 + Max(0, |t.loads| - |k.cur.got|) + Max(0, |t.stores| - k.cur.put)
    else 0
  }

  function Cost(p: Prog, c: int, r: int, k: Block, i: int): int {
    if i == 1 then StepsLeft(p, c, k) else if i == 2 then |k.todo| else InHandLeft(p, c, r, k)
  }

  /** f(0) + ... + f(n - 1). */
  function SumTo(f: int -> int, n: int): int
    decreases n
  {
    if n <= 0 then 0 else SumTo(f, n - 1) + f(n - 1)
  }

  function RankCost(p: Prog, s: State, r: int, i: int): int {
    if i == 0 then p.calls - s.call(r)
    else SumTo(b => Cost(p, s.call(r), r, s.blocks(r, b), i), p.grid(s.call(r), r))
  }

  function Total(p: Prog, s: State, i: int): int {
    SumTo(r => RankCost(p, s, r, i), p.w)
  }

  lemma {:induction false} SumEqual(f: int -> int, g: int -> int, n: int)
    requires forall i :: 0 <= i < n ==> f(i) == g(i)
    ensures SumTo(f, n) == SumTo(g, n)
    decreases n
  {
    if n > 0 { SumEqual(f, g, n - 1); }
  }

  /** Changing one entry changes the sum by as much. */
  lemma {:induction false} SumChange(f: int -> int, g: int -> int, n: int, b: int)
    requires 0 <= b < n && forall i :: 0 <= i < n && i != b ==> f(i) == g(i)
    ensures SumTo(g, n) - SumTo(f, n) == g(b) - f(b)
    decreases n
  {
    if b == n - 1 { SumEqual(f, g, n - 1); } else { SumChange(f, g, n - 1, b); }
  }

  lemma {:induction false} SumNonNegative(f: int -> int, n: int)
    requires forall i :: 0 <= i < n ==> f(i) >= 0
    ensures SumTo(f, n) >= 0
    decreases n
  {
    if n > 0 { SumNonNegative(f, n - 1); }
  }

  lemma StepsLeftNonNegative(p: Prog, c: int, k: Block)
    requires p.w >= 1 && Shape1(p, c, k)
    ensures StepsLeft(p, c, k) >= 0
  {
    MulLeq(1, Rounds(p, c) - k.rnd, 3 * Unit(p));
  }

  lemma TotalNonNegative(p: Prog, s: State, i: int)
    requires p.w >= 1 && Shape(p, s) && 0 <= i <= 3
    ensures Total(p, s, i) >= 0
  {
    forall r | 0 <= r < p.w ensures RankCost(p, s, r, i) >= 0 {
      if i > 0 {
        forall b | 0 <= b < p.grid(s.call(r), r) ensures Cost(p, s.call(r), r, s.blocks(r, b), i) >= 0 {
          assert Has(p, s.call(r), r, b);
          StepsLeftNonNegative(p, s.call(r), s.blocks(r, b));
        }
        SumNonNegative(b => Cost(p, s.call(r), r, s.blocks(r, b), i), p.grid(s.call(r), r));
      }
    }
    SumNonNegative(r => RankCost(p, s, r, i), p.w);
  }

  // ---- steps lower it -----------------------------------------------------

  /** Lexicographically smaller, in the cost of one block. */
  predicate Cheaper(p: Prog, c: int, r: int, k: Block, l: Block) {
    || Cost(p, c, r, l, 1) < Cost(p, c, r, k, 1)
    || (Cost(p, c, r, l, 1) == Cost(p, c, r, k, 1) &&
        (Cost(p, c, r, l, 2) < Cost(p, c, r, k, 2)
         || (Cost(p, c, r, l, 2) == Cost(p, c, r, k, 2) && Cost(p, c, r, l, 3) < Cost(p, c, r, k, 3))))
  }

  predicate Lower(p: Prog, s: State, t: State) {
    || Total(p, t, 0) < Total(p, s, 0)
    || (Total(p, t, 0) == Total(p, s, 0) &&
        (Total(p, t, 1) < Total(p, s, 1)
         || (Total(p, t, 1) == Total(p, s, 1) &&
             (Total(p, t, 2) < Total(p, s, 2)
              || (Total(p, t, 2) == Total(p, s, 2) && Total(p, t, 3) < Total(p, s, 3))))))
  }

  ghost predicate OneBlock(s: State, t: State, r: int, b: int) {
    t.call == s.call && forall x, y :: x != r || y != b ==> t.blocks(x, y) == s.blocks(x, y)
  }

  lemma TotalChange(p: Prog, s: State, t: State, r: int, b: int, i: int)
    requires OneBlock(s, t, r, b) && Has(p, s.call(r), r, b) && 1 <= i <= 3
    ensures Total(p, t, i) - Total(p, s, i) == Cost(p, s.call(r), r, t.blocks(r, b), i) - Cost(p, s.call(r), r, s.blocks(r, b), i)
    ensures Total(p, t, 0) == Total(p, s, 0)
  {
    var c := s.call(r);
    SumChange(x => Cost(p, c, r, s.blocks(r, x), i), x => Cost(p, c, r, t.blocks(r, x), i), p.grid(c, r), b);
    assert RankCost(p, s, r, i) == SumTo(x => Cost(p, c, r, s.blocks(r, x), i), p.grid(c, r));
    assert RankCost(p, t, r, i) == SumTo(x => Cost(p, c, r, t.blocks(r, x), i), p.grid(c, r));
    forall y | 0 <= y < p.w && y != r ensures RankCost(p, t, y, i) == RankCost(p, s, y, i) {
      SumEqual(x => Cost(p, s.call(y), y, s.blocks(y, x), i), x => Cost(p, t.call(y), y, t.blocks(y, x), i), p.grid(s.call(y), y));
    }
    SumChange(y => RankCost(p, s, y, i), y => RankCost(p, t, y, i), p.w, r);
    SumEqual(y => RankCost(p, s, y, 0), y => RankCost(p, t, y, 0), p.w);
  }

  lemma BlockLowers(p: Prog, s: State, t: State, r: int, b: int)
    requires OneBlock(s, t, r, b) && Has(p, s.call(r), r, b) && Cheaper(p, s.call(r), r, s.blocks(r, b), t.blocks(r, b))
    ensures Lower(p, s, t)
  {
    TotalChange(p, s, t, r, b, 1);
    TotalChange(p, s, t, r, b, 2);
    TotalChange(p, s, t, r, b, 3);
  }

  lemma LaunchLowers(p: Prog, s: State, r: int)
    requires p.m >= 2 && 0 <= r < p.w
    ensures Lower(p, s, Step(p, s, Launch(r)))
  {
    var t := Step(p, s, Launch(r));
    SumChange(y => RankCost(p, s, y, 0), y => RankCost(p, t, y, 0), p.w, r);
  }

  lemma PickLowers(p: Prog, s: State, r: int, b: int, it: Item)
    requires p.m >= 2 && Enabled(p, s, Pick(r, b, it))
    ensures Lower(p, s, Step(p, s, Pick(r, b, it)))
  {
    BlockLowers(p, s, Step(p, s, Pick(r, b, it)), r, b);
  }

  lemma WorkCheaper(p: Prog, s: State, r: int, b: int, st: int)
    requires Has(p, s.call(r), r, b) && s.blocks(r, b).pc == Work(st) && s.blocks(r, b).cur.Busy?
    ensures var t := WorkStep(p, s, r, b, st);
      OneBlock(s, t, r, b) && Cheaper(p, s.call(r), r, s.blocks(r, b), t.blocks(r, b))
  {
    var k := s.blocks(r, b);
    var task := TaskOf(p, s.call(r), r, k, st, k.cur.item);
    if |k.cur.got| >= |task.loads| && k.cur.put < |task.stores| {
      match task.stores[k.cur.put]
      case Host(loc, f) =>
      case Out(idx, f) =>
    }
  }

  /** A step of a barrier goes forward in its round. */
  lemma BarrierCheaper(p: Prog, s: State, t: State, r: int, b: int)
    requires WellFormed(p) && Shape1(p, s.call(r), s.blocks(r, b)) && Productive(p, s, Go(r, b)) && t == GoStep(p, s, r, b)
    requires s.blocks(r, b).pc.Arr? || InBarrier(s.blocks(r, b).pc)
    ensures OneBlock(s, t, r, b) && t.blocks(r, b).rnd == s.blocks(r, b).rnd && !t.blocks(r, b).pc.Done?
    ensures Offset(p, t.blocks(r, b).pc) > Offset(p, s.blocks(r, b).pc)
  {}

  lemma RoundCheaper(p: Prog, s: State, t: State, r: int, b: int)
    requires WellFormed(p) && Shape1(p, s.call(r), s.blocks(r, b)) && t == NextRound(p, s, r, b) && s.blocks(r, b).pc.Work?
    ensures OneBlock(s, t, r, b) && StepsLeft(p, s.call(r), t.blocks(r, b)) < StepsLeft(p, s.call(r), s.blocks(r, b))
  {
    var n, u := Rounds(p, s.call(r)) - s.blocks(r, b).rnd, 3 * Unit(p);
    Distribute(n, 1, u);
    MulLeq(1, n, u);
  }

  /** A step that changes the stage or the barrier position goes forward. */
  lemma MoveCheaper(p: Prog, s: State, t: State, r: int, b: int)
    requires WellFormed(p) && Shape1(p, s.call(r), s.blocks(r, b)) && Has(p, s.call(r), r, b)
    requires Enabled(p, s, Go(r, b)) && Productive(p, s, Go(r, b)) && t == GoStep(p, s, r, b)
    requires s.blocks(r, b).pc.Work? ==> s.blocks(r, b).cur == Idle
    ensures OneBlock(s, t, r, b) && StepsLeft(p, s.call(r), t.blocks(r, b)) < StepsLeft(p, s.call(r), s.blocks(r, b))
  {
    var k := s.blocks(r, b);
    if k.pc.Arr? || InBarrier(k.pc) {
      BarrierCheaper(p, s, t, r, b);
    } else if k.pc.Work? && t == NextRound(p, s, r, b) {
      RoundCheaper(p, s, t, r, b);
    } else {
      assert t.blocks(r, b).rnd == k.rnd && !t.blocks(r, b).pc.Done?;
    }
  }

  lemma StepLowers(p: Prog, s: State, a: Action)
    requires WellFormed(p) && Shape(p, s) && Enabled(p, s, a) && Productive(p, s, a)
    ensures Lower(p, s, Step(p, s, a))
  {
    match a
    case Launch(r) => LaunchLowers(p, s, r);
    case Pick(r, b, it) => PickLowers(p, s, r, b, it);
    case Go(r, b) =>
      var t := GoStep(p, s, r, b);
      assert Shape1(p, s.call(r), s.blocks(r, b));
      if s.blocks(r, b).pc.Work? && s.blocks(r, b).cur.Busy? {
        WorkCheaper(p, s, r, b, s.blocks(r, b).pc.st);
      } else {
        MoveCheaper(p, s, t, r, b);
      }
      BlockLowers(p, s, t, r, b);
  }

  // ---- runs that end ------------------------------------------------------

  /** A run none of whose steps is a mere look at a word that does not match. */
  ghost predicate ProductiveRun(p: Prog, acts: seq<Action>)
    requires p.m >= 2
  {
    acts == [] ||
    var s := After(p, acts[..|acts| - 1]);
    ProductiveRun(p, acts[..|acts| - 1]) && Enabled(p, s, acts[|acts| - 1]) && Productive(p, s, acts[|acts| - 1])
  }

  /** Publishing barrier n on rank q: the steps a schedule may hold back. */
  ghost predicate Held(p: Prog, s: State, a: Action, q: int, n: int) {
    && a.Go? && a.r == q && s.blocks(a.r, a.b).pc.Pub?
    && 2 * Ep(p, s.call(a.r), s.blocks(a.r, a.b)) + s.blocks(a.r, a.b).pc.ph == n
  }

  /** Nothing can be done but hold back rank q's publishing of barrier n. */
  ghost predicate Exhausted(p: Prog, s: State, q: int, n: int)
    requires p.m >= 2
  {
    forall a :: Enabled(p, s, a) && Productive(p, s, a) ==> Held(p, s, a, q, n)
  }

  lemma Extend(p: Prog, acts: seq<Action>, a: Action)
    requires p.m >= 2 && Enabled(p, After(p, acts), a)
    ensures After(p, acts + [a]) == Step(p, After(p, acts), a)
    ensures Run(p, acts) ==> Run(p, acts + [a])
    ensures ProductiveRun(p, acts) && Productive(p, After(p, acts), a) ==> ProductiveRun(p, acts + [a])
  {
    assert (acts + [a])[..|acts + [a]| - 1] == acts;
  }

  /** Any run goes on, by productive steps other than the one held back, until there are none. */
  lemma {:induction false} Exhaust(p: Prog, acts: seq<Action>, q: int, n: int) returns (more: seq<Action>)
    requires WellFormed(p) && NoStale(p) && Run(p, acts)
    ensures acts <= more && Run(p, more) && Exhausted(p, After(p, more), q, n)
    ensures ProductiveRun(p, acts) ==> ProductiveRun(p, more)
    ensures Unpublished(p, acts, q, n) ==> Unpublished(p, more, q, n)
    decreases Total(p, After(p, acts), 0), Total(p, After(p, acts), 1), Total(p, After(p, acts), 2), Total(p, After(p, acts), 3)
  {
    var s := After(p, acts);
    RunInv(p, acts);
    if Exhausted(p, s, q, n) {
      more := acts;
    } else {
      var a :| Enabled(p, s, a) && Productive(p, s, a) && !Held(p, s, a, q, n);
      Extend(p, acts, a);
      StepLowers(p, s, a);
      RunInv(p, acts + [a]);
      TotalNonNegative(p, Step(p, s, a), 0);
      TotalNonNegative(p, Step(p, s, a), 1);
      TotalNonNegative(p, Step(p, s, a), 2);
      TotalNonNegative(p, Step(p, s, a), 3);
      if Unpublished(p, acts, q, n) { NotHeld(p, s, a, q, n); }
      more := Exhaust(p, acts + [a], q, n);
    }
  }

  /** n is a barrier that rank q has not published. */
  ghost predicate Unpublished(p: Prog, acts: seq<Action>, q: int, n: int)
    requires p.m >= 2
  {
    0 <= q < p.w && Used(p, n / 2, n % 2) && After(p, acts).pub(q) < n
  }

  /** Only publishing barrier n makes rank q reach it. */
  lemma NotHeld(p: Prog, s: State, a: Action, q: int, n: int)
    requires WellFormed(p) && Shape(p, s) && Sync(p, s) && 0 <= q < p.w && Used(p, n / 2, n % 2) && s.pub(q) < n
    requires Enabled(p, s, a) && !Held(p, s, a, q, n)
    ensures Step(p, s, a).pub(q) < n
  {
    if a.Go? && a.r == q && s.blocks(a.r, a.b).pc.Pub? {
      var k := s.blocks(a.r, a.b);
      assert Shape1(p, s.call(q), k);
      EpochPositive(p, s, a.r, a.b);
      BarrierBetween(p, s.call(q), k, n);
    }
  }

  /** A block at a barrier past barrier n has passed barrier n. */
  lemma BarrierBetween(p: Prog, c: int, k: Block, n: int)
    requires Shape1(p, c, k) && InBarrier(k.pc) && Ep(p, c, k) >= 1 && Used(p, n / 2, n % 2)
    ensures n < Arrived(p, c, k) ==> n <= Passed(p, c, k)
    ensures Passed(p, c, k) < Arrived(p, c, k)
  {}

  /** There is no barrier 0 to hold back. */
  lemma NothingHeld(p: Prog, s: State, a: Action, q: int)
    requires WellFormed(p) && Shape(p, s) && Enabled(p, s, a)
    ensures !Held(p, s, a, q, 0)
  {
    if a.Go? {
      EpochPositive(p, s, a.r, a.b);
      assert Shape1(p, s.call(a.r), s.blocks(a.r, a.b));
    }
  }

  /** Whatever has happened, every rank can still run every launch to its end. */
  lemma CanFinish(p: Prog, acts: seq<Action>, s: State)
    requires Reaches(p, acts, s)
    ensures exists more :: acts <= more && Run(p, more) && AllDone(p, After(p, more))
  {
    var more := Exhaust(p, acts, 0, 0);
    var t := After(p, more);
    RunInv(p, more);
    if !AllDone(p, t) {
      NeverStuck(p, more, t);
      var a :| Enabled(p, t, a) && Productive(p, t, a);
      NothingHeld(p, t, a, 0);
    }
  }
}
