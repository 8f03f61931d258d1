/** What the host-memory collectives promise, for every run of any number of ranks, blocks,
    launches and rounds, in any interleaving. `s` is always the state some run has reached. */
module HostTheorems {
  import opened HostMachine
  import opened HostControl
  import opened HostSteps
  import opened HostData
  import opened HostDataSteps

  /** A run of a well-formed program whose barrier words cannot be stale has reached s. */
  ghost predicate Reaches(p: Prog, acts: seq<Action>, s: State) {
    WellFormed(p) && NoStale(p) && Run(p, acts) && s == After(p, acts)
  }

  /** Every block of rank r has left launch c. */
  ghost predicate Finished(p: Prog, s: State, r: int, c: int) {
    c < s.call(r) || (c == s.call(r) && forall b :: Has(p, c, r, b) ==> s.blocks(r, b).pc == Done)
  }

  // ---- values -------------------------------------------------------------

  lemma FinishedOut(p: Prog, q: Spec, s: State, r: int, c: int, e: int, b: int, st: int)
    requires Shape(p, s) && DataInv(p, q, s) && 0 <= r < p.w && Finished(p, s, r, c)
    requires InCall(p, c, e) && Has(p, c, r, b) && 0 <= st <= (if p.round(e).two then 2 else 1)
    ensures OutDone(p, q, s, c, e, r, b, st)
  {
    if c < s.call(r) {
      assert Past(p, q, s, r, c);
    } else {
      assert Shape1(p, c, s.blocks(r, b)) && Outputs(p, q, s, r, b);
      assert Completed(p, c, s.blocks(r, b), e, st);
    }
  }

  lemma CoveredOut(p: Prog, q: Spec, s: State, r: int, c: int, i: int)
    requires Shape(p, s) && DataInv(p, q, s) && 0 <= r < p.w && Finished(p, s, r, c) && Covered(p, c, r, i)
    ensures s.out(c, r, i) == Full(q.out(c, r, i))
  {
    var e, b, st, it, k :| InCall(p, c, e) && 0 <= b < p.grid(c, r) && 0 <= st <= (if p.round(e).two then 2 else 1)
      && it in p.round(e).items(r, b, st) && WritesAt(p.round(e).task(r, st, it), k, i);
    FinishedOut(p, q, s, r, c, e, b, st);
    assert EffectOut(q, s, c, r, p.round(e).task(r, st, it), |p.round(e).task(r, st, it).stores|);
  }

  /** When a launch has finished on a rank, its whole output there is what the program intends, and
      it stays so while later launches run. */
  lemma OutputsCorrect(p: Prog, q: Spec, acts: seq<Action>, s: State, r: int, c: int, i: int)
    requires Reaches(p, acts, s) && Legal(p, q)
    requires 0 <= r < p.w && 0 <= c < p.calls && Finished(p, s, r, c) && 0 <= i < q.len(c)
    ensures s.out(c, r, i) == Full(q.out(c, r, i))
  {
    RunData(p, q, acts);
    assert Covered(p, c, r, i);
    CoveredOut(p, q, s, r, c, i);
  }

  /** In no reachable state does a block load a cell that is torn or holds another epoch's value. */
  lemma LoadsCorrect(p: Prog, q: Spec, acts: seq<Action>, s: State, r: int, b: int)
    requires Reaches(p, acts, s) && Legal(p, q) && Loading(p, s, r, b)
    ensures var e := Word(s.blocks(r, b));
      s.mem(Addr(Par(e), NextLoad(p, s, r, b))) == Full(q.host(e, NextLoad(p, s, r, b)))
  {
    RunData(p, q, acts);
    LoadYields(p, q, s, r, b);
  }

  // ---- slots --------------------------------------------------------------

  lemma ParityApart(p: Prog, s: State, r: int, b: int, x: int, y: int, st: int)
    requires WellFormed(p) && Shape(p, s) && Sync(p, s) && Has(p, s.call(r), r, b) && Has(p, s.call(x), x, y) && st >= 1
    requires s.blocks(r, b).pc == Work(st) && s.blocks(x, y).pc == Work(st - 1)
    ensures Par(Word(s.blocks(r, b))) != Par(Word(s.blocks(x, y)))
  {
    assert Shape1(p, s.call(r), s.blocks(r, b)) && Shape1(p, s.call(x), s.blocks(x, y));
    EpochPositive(p, s, r, b);
    EpochPositive(p, s, x, y);
    Near(p, s, r, b, x, y);
    Near(p, s, x, y, r, b);
  }

  /** While a block is in stage st >= 1 and so may read the slots of its epoch's parity that stage
      st - 1 fills, no block of any rank is filling slots of that parity, for whatever epoch: two
      parities and one barrier a round suffice. */
  lemma NoOverwrite(p: Prog, acts: seq<Action>, s: State, r: int, b: int, x: int, y: int, st: int)
    requires Reaches(p, acts, s) && Has(p, s.call(r), r, b) && Has(p, s.call(x), x, y) && st >= 1
    requires s.blocks(r, b).pc == Work(st) && s.blocks(x, y).pc == Work(st - 1)
    ensures Par(Word(s.blocks(r, b))) != Par(Word(s.blocks(x, y)))
  {
    RunInv(p, acts);
    ParityApart(p, s, r, b, x, y, st);
  }

  // ---- barrier words ------------------------------------------------------

  lemma FlagExact(p: Prog, s: State, r: int, b: int, j: int)
    requires WellFormed(p) && NoStale(p) && Shape(p, s) && Sync(p, s) && Flags(p, s) && 0 <= j < p.w
    requires Has(p, s.call(r), r, b) && s.blocks(r, b).pc.Poll?
    ensures var e, ph := Word(s.blocks(r, b)), s.blocks(r, b).pc.ph;
      var f := s.flags(Par(e), ph, j);
      f <= e && (Same(p, f, e) <==> s.pub(j) >= 2 * e + ph) && (Same(p, f, e) <==> f == e)
  {
    assert Shape1(p, s.call(r), s.blocks(r, b));
    var e, ph := Ep(p, s.call(r), s.blocks(r, b)), s.blocks(r, b).pc.ph;
    EpochPositive(p, s, r, b);
    FlagNotAhead(p, s, r, b, j);
    assert Flags1(p, s, j, ph) && Used(p, e, ph);
    if Same(p, s.flags(Par(e), ph, j), e) { FlagCurrent(p, s, r, b, j); }
  }

  /** A poller never misses its word: the flag it waits for has not moved past its epoch e, and it
      matches, modulo m, exactly when that rank has published the poller's barrier. */
  lemma FlagNotMissed(p: Prog, acts: seq<Action>, s: State, r: int, b: int, j: int)
    requires Reaches(p, acts, s) && 0 <= j < p.w && Has(p, s.call(r), r, b) && s.blocks(r, b).pc.Poll?
    ensures var e, ph := Word(s.blocks(r, b)), s.blocks(r, b).pc.ph;
      var f := s.flags(Par(e), ph, j);
      f <= e && (Same(p, f, e) <==> s.pub(j) >= 2 * e + ph) && (Same(p, f, e) <==> f == e)
  {
    RunInv(p, acts);
    FlagExact(p, s, r, b, j);
  }

  lemma GoExact(p: Prog, s: State, r: int, b: int)
    requires WellFormed(p) && NoStale(p) && Shape(p, s) && Count(p, s) && Words(p, s)
    requires Has(p, s.call(r), r, b) && s.blocks(r, b).pc.Wait?
    ensures var e, ph := Word(s.blocks(r, b)), s.blocks(r, b).pc.ph;
      s.go(r, ph) <= e && (Same(p, s.go(r, ph), e) <==> s.go(r, ph) == e)
  {
    assert Shape1(p, s.call(r), s.blocks(r, b));
    var ph := s.blocks(r, b).pc.ph;
    assert Words1(p, s, r, ph) && s.go(r, ph) <= s.shut(r, ph);
    EpochPositive(p, s, r, b);
    if Same(p, s.go(r, ph), Word(s.blocks(r, b))) { GoCurrent(p, s, r, b); }
  }

  /** Nor does a block that waits on its rank's go word. */
  lemma GoNotMissed(p: Prog, acts: seq<Action>, s: State, r: int, b: int)
    requires Reaches(p, acts, s) && Has(p, s.call(r), r, b) && s.blocks(r, b).pc.Wait?
    ensures var e, ph := Word(s.blocks(r, b)), s.blocks(r, b).pc.ph;
      s.go(r, ph) <= e && (Same(p, s.go(r, ph), e) <==> s.go(r, ph) == e)
  {
    RunInv(p, acts);
    GoExact(p, s, r, b);
  }

  // ---- positions and counters ---------------------------------------------

  /** Blocks of any two ranks are never more than one barrier apart. */
  lemma LockStep(p: Prog, acts: seq<Action>, s: State, r: int, b: int, x: int, y: int)
    requires Reaches(p, acts, s) && Has(p, s.call(r), r, b) && Has(p, s.call(x), x, y)
    ensures Passed(p, s.call(r), s.blocks(r, b)) <= Arrived(p, s.call(x), s.blocks(x, y))
  {
    RunInv(p, acts);
    Near(p, s, r, b, x, y);
  }

  /** Between two launches of a rank its arrive counters are 0 and its epoch counter has advanced by
      exactly the rounds launched so far; a block about to load it reads its own launch's value. */
  lemma BetweenLaunches(p: Prog, acts: seq<Action>, s: State, r: int, b: int)
    requires Reaches(p, acts, s) && Has(p, s.call(r), r, b)
    ensures Finished(p, s, r, s.call(r)) ==> s.arr(r, 0) == 0 && s.arr(r, 1) == 0 && s.ctr(r) == p.start(s.call(r) + 1)
    ensures s.blocks(r, b).pc.Load? ==> s.ctr(r) == p.start(s.call(r))
  {
    RunInv(p, acts);
    if Finished(p, s, r, s.call(r)) {
      assert forall y :: 0 <= y < p.grid(s.call(r), r) ==> Has(p, s.call(r), r, y);
      Quiet(p, s, r);
    }
    if s.blocks(r, b).pc.Load? { LoadReads(p, s, r, b); }
  }
}
