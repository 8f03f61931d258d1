/** Every step of the machine keeps the control invariant. */
module HostSteps {
  import opened HostMachine
  import opened HostControl

  /** Only block b of rank r moved, and its barrier positions did not go back. */
  ghost predicate Moved(p: Prog, s: State, t: State, r: int, b: int) {
    && t.call == s.call && Has(p, s.call(r), r, b)
    && (forall x, y :: x != r || y != b ==> t.blocks(x, y) == s.blocks(x, y))
    && Arrived(p, s.call(r), s.blocks(r, b)) <= Arrived(p, s.call(r), t.blocks(r, b))
    && (forall j :: s.pub(j) <= t.pub(j))
  }

  lemma ReachedStep(p: Prog, s: State, t: State, r: int, b: int)
    requires Moved(p, s, t, r, b)
    ensures forall x, n :: Reached(p, s, x, n) ==> Reached(p, t, x, n)
  {}

  lemma ShapeStep(p: Prog, s: State, t: State, r: int, b: int)
    requires Shape(p, s) && Moved(p, s, t, r, b) && Shape1(p, s.call(r), t.blocks(r, b))
    ensures Shape(p, t)
  {}

  lemma SyncStep(p: Prog, s: State, t: State, r: int, b: int)
    requires Sync(p, s) && Moved(p, s, t, r, b)
    requires forall j :: 0 <= j < p.w ==> Passed(p, s.call(r), t.blocks(r, b)) <= t.pub(j)
    requires forall x :: t.pub(x) == s.pub(x) || (x == r && Reached(p, t, r, t.pub(r)))
    ensures Sync(p, t)
  {}

  lemma LeadStep(p: Prog, s: State, t: State, r: int, b: int)
    requires Lead(p, s) && Moved(p, s, t, r, b) && Lead1(p, t, r, t.blocks(r, b))
    requires forall x, y ::
      Has(p, s.call(x), x, y) && (x != r || y != b) && Leads(s.blocks(x, y).pc) && !s.blocks(x, y).pc.Zero?
      ==> t.shut(x, s.blocks(x, y).pc.ph) == s.shut(x, s.blocks(x, y).pc.ph)
    ensures Lead(p, t)
  {
    ReachedStep(p, s, t, r, b);
    forall x, y | Has(p, s.call(x), x, y) ensures Lead1(p, t, x, t.blocks(x, y)) {
      assert Lead1(p, s, x, s.blocks(x, y));
    }
  }

  lemma CountStep(p: Prog, s: State, t: State, r: int, b: int)
    requires Count(p, s) && Moved(p, s, t, r, b) && t.arr == s.arr && t.shut == s.shut
    requires forall x, h :: t.go(x, h) <= s.go(x, h) || t.go(x, h) <= s.shut(x, h)
    requires forall h :: 0 <= h <= 1 ==> !Counted(p, s.call(r), s.blocks(r, b), h, s.shut(r, h))
    requires forall h :: 0 <= h <= 1 ==> !Counted(p, s.call(r), t.blocks(r, b), h, s.shut(r, h))
    ensures Count(p, t)
  {
    forall x, h | 0 <= x < p.w && 0 <= h <= 1 ensures Open(p, t, x, h) == Open(p, s, x, h) {}
  }

  lemma ZeroingStep(p: Prog, s: State, t: State, r: int, b: int)
    requires Zeroing(p, s) && Moved(p, s, t, r, b) && t.arr == s.arr && t.shut == s.shut && !t.blocks(r, b).pc.Zero?
    ensures Zeroing(p, t)
  {}

  lemma WordsStep(p: Prog, s: State, t: State, r: int, b: int)
    requires Words(p, s) && Moved(p, s, t, r, b) && t.go == s.go && t.shut == s.shut
    requires Passed(p, s.call(r), s.blocks(r, b)) == Passed(p, s.call(r), t.blocks(r, b))
    ensures Words(p, t)
  {
    ReachedStep(p, s, t, r, b);
    forall x, h | 0 <= x < p.w && 0 <= h <= 1 ensures Words1(p, t, x, h) { assert Words1(p, s, x, h); }
  }

  lemma FlagsStep(p: Prog, s: State, t: State)
    requires Flags(p, s) && t.flags == s.flags && t.pub == s.pub
    ensures Flags(p, t)
  {
    forall x, h | 0 <= x < p.w && 0 <= h <= 1 ensures Flags1(p, t, x, h) { assert Flags1(p, s, x, h); }
  }

  lemma CounterStep(p: Prog, s: State, t: State, r: int, b: int)
    requires Counter(p, s) && Moved(p, s, t, r, b) && t.ctr == s.ctr && t.pub == s.pub && !t.blocks(r, b).pc.Pub?
    ensures Counter(p, t)
  {
    ReachedStep(p, s, t, r, b);
    forall x | 0 <= x < p.w ensures Counter1(p, t, x) { assert Counter1(p, s, x); }
  }

  /** A step that leaves counters, go words and barrier positions alone. */
  ghost predicate Still(p: Prog, s: State, t: State, r: int, b: int) {
    var old_, new_ := s.blocks(r, b).pc, t.blocks(r, b).pc;
    && Moved(p, s, t, r, b) && t.arr == s.arr && t.go == s.go && t.shut == s.shut
    && !old_.Wait? && !old_.Zero? && !new_.Wait? && !new_.Zero?
    && Passed(p, s.call(r), t.blocks(r, b)) == Passed(p, s.call(r), s.blocks(r, b))
    && Shape1(p, s.call(r), t.blocks(r, b)) && Lead1(p, t, r, t.blocks(r, b))
    && (forall x :: t.pub(x) == s.pub(x) || (x == r && Reached(p, t, r, t.pub(r))))
  }

  lemma StillKeeps(p: Prog, s: State, t: State, r: int, b: int)
    requires Inv(p, s) && Still(p, s, t, r, b) && Flags(p, t) && Counter(p, t)
    ensures Inv(p, t)
  {
    ShapeStep(p, s, t, r, b);
    SyncStep(p, s, t, r, b);
    LeadStep(p, s, t, r, b);
    CountStep(p, s, t, r, b);
    ZeroingStep(p, s, t, r, b);
    WordsStep(p, s, t, r, b);
  }

  /** Steps inside a stage or between stages touch no barrier word at all. */
  ghost predicate Local(p: Prog, s: State, t: State, r: int, b: int) {
    && Moved(p, s, t, r, b)
    && t.arr == s.arr && t.go == s.go && t.ctr == s.ctr && t.flags == s.flags && t.pub == s.pub && t.shut == s.shut
    && !InBarrier(s.blocks(r, b).pc) && !InBarrier(t.blocks(r, b).pc)
    && Shape1(p, s.call(r), t.blocks(r, b))
    && Passed(p, s.call(r), t.blocks(r, b)) == Passed(p, s.call(r), s.blocks(r, b))
  }

  lemma LocalKeeps(p: Prog, s: State, t: State, r: int, b: int)
    requires Inv(p, s) && Local(p, s, t, r, b)
    ensures Inv(p, t)
  {
    FlagsStep(p, s, t);
    CounterStep(p, s, t, r, b);
    StillKeeps(p, s, t, r, b);
  }

  /** Block b of rank r takes its next step, from s to t. */
  ghost predicate Goes(p: Prog, s: State, t: State, r: int, b: int) {
    p.m >= 2 && Has(p, s.call(r), r, b) && t == GoStep(p, s, r, b)
  }

  // ---- arriving -----------------------------------------------------------

  function Below(n: nat): (all: set<int>)
    ensures |all| == n && forall i :: i in all <==> 0 <= i < n
  {
    if n == 0 then {} else Below(n - 1) + {n - 1}
  }

  lemma SubsetSize(a: set<int>, b: set<int>)
    requires a <= b
    ensures |a| <= |b|
    ensures |a| == |b| ==> a == b
  {
    assert |b| == |b - a| + |b * a| && b * a == a;
    if a != b { assert b - a != {}; }
  }

  /** The barrier at which a block is about to arrive is not shut. */
  lemma NotShut(p: Prog, s: State, r: int, b: int, ph: int)
    requires WellFormed(p) && Shape(p, s) && Words(p, s) && Has(p, s.call(r), r, b) && s.blocks(r, b).pc == Arr(ph)
    ensures 0 <= ph <= 1 && s.shut(r, ph) < Ep(p, s.call(r), s.blocks(r, b))
  {
    assert Shape1(p, s.call(r), s.blocks(r, b)) && Words1(p, s, r, ph);
    EpochPositive(p, s, r, b);
  }

  /** The block is not counted yet, so the counter is below the grid. */
  lemma Room(p: Prog, s: State, r: int, b: int, ph: int)
    requires Count(p, s) && Has(p, s.call(r), r, b) && s.blocks(r, b).pc == Arr(ph) && 0 <= ph <= 1
    ensures s.arr(r, ph) < p.grid(s.call(r), r)
    ensures s.arr(r, ph) == p.grid(s.call(r), r) - 1 ==> Open(p, s, r, ph) == Below(p.grid(s.call(r), r)) - {b}
  {
    var others := Below(p.grid(s.call(r), r)) - {b};
    assert Open(p, s, r, ph) <= others && |others| == p.grid(s.call(r), r) - 1;
    SubsetSize(Open(p, s, r, ph), others);
  }

  /** A block at barrier (e, ph) has passed every earlier barrier of phase ph. */
  lemma PassedBefore(p: Prog, c: int, k: Block, f: int, ph: int)
    requires Shape1(p, c, k) && (k.pc.Arr? || InBarrier(k.pc)) && k.pc.ph == ph && f < Ep(p, c, k) && Used(p, f, ph)
    ensures 2 * f + ph <= Passed(p, c, k)
  {
    assert 2 * f + ph <= Last(p, f) <= Last(p, Ep(p, c, k) - 1) <= 2 * Ep(p, c, k);
  }

  /** So its rank's go word has reached each of them. */
  lemma GoReached(p: Prog, s: State, r: int, b: int, f: int, ph: int)
    requires Shape(p, s) && Words(p, s) && Has(p, s.call(r), r, b) && 0 <= ph <= 1 && Used(p, f, ph)
    requires var pc := s.blocks(r, b).pc; (pc.Arr? || InBarrier(pc)) && pc.ph == ph
    requires f < Ep(p, s.call(r), s.blocks(r, b))
    ensures s.go(r, ph) >= f
  {
    assert Shape1(p, s.call(r), s.blocks(r, b)) && Words1(p, s, r, ph);
    PassedBefore(p, s.call(r), s.blocks(r, b), f, ph);
  }

  /** A block that is counted has arrived at every barrier of its phase about to be shut. */
  lemma CountedArrived(p: Prog, s: State, r: int, b: int, x: int, ph: int)
    requires WellFormed(p) && Shape(p, s) && Words(p, s) && 0 <= ph <= 1 && s.go(r, ph) <= s.shut(r, ph)
    requires Has(p, s.call(r), r, b) && s.blocks(r, b).pc == Arr(ph)
    requires Has(p, s.call(r), r, x) && Counted(p, s.call(r), s.blocks(r, x), ph, s.shut(r, ph))
    ensures Arrived(p, s.call(r), s.blocks(r, x)) >= 2 * Ep(p, s.call(r), s.blocks(r, b)) + ph
  {
    var f := Ep(p, s.call(r), s.blocks(r, x));
    assert Shape1(p, s.call(r), s.blocks(r, x));
    EpochPositive(p, s, r, x);
    if f < Ep(p, s.call(r), s.blocks(r, b)) { GoReached(p, s, r, b, f, ph); }
  }

  /** When the arrive counter is one short of the grid, every other block has arrived. */
  lemma LastArriver(p: Prog, s: State, r: int, b: int, x: int, ph: int)
    requires WellFormed(p) && Shape(p, s) && Count(p, s) && Words(p, s) && 0 <= ph <= 1
    requires Has(p, s.call(r), r, b) && s.blocks(r, b).pc == Arr(ph)
    requires s.arr(r, ph) == p.grid(s.call(r), r) - 1 && Has(p, s.call(r), r, x) && x != b
    ensures Arrived(p, s.call(r), s.blocks(r, x)) >= 2 * Ep(p, s.call(r), s.blocks(r, b)) + ph
  {
    Room(p, s, r, b, ph);
    assert x in Open(p, s, r, ph);
    assert s.go(r, ph) <= s.shut(r, ph);
    CountedArrived(p, s, r, b, x, ph);
  }

  lemma ArriveOpen(p: Prog, s: State, t: State, r: int, b: int, ph: int)
    requires Moved(p, s, t, r, b) && t.shut == s.shut && s.shut(r, ph) < Ep(p, s.call(r), t.blocks(r, b))
    requires s.blocks(r, b).pc == Arr(ph) && (t.blocks(r, b).pc == Zero(ph) || t.blocks(r, b).pc == Wait(ph))
    ensures Open(p, t, r, ph) == Open(p, s, r, ph) + {b} && b !in Open(p, s, r, ph)
  {}

  lemma ArriveOther(p: Prog, s: State, t: State, r: int, b: int, ph: int, x: int, h: int)
    requires Moved(p, s, t, r, b) && t.shut == s.shut && (x != r || h != ph)
    requires s.blocks(r, b).pc == Arr(ph) && (t.blocks(r, b).pc == Zero(ph) || t.blocks(r, b).pc == Wait(ph))
    ensures Open(p, t, x, h) == Open(p, s, x, h)
  {}

  lemma ArriveCount(p: Prog, s: State, t: State, r: int, b: int, ph: int)
    requires Count(p, s) && Moved(p, s, t, r, b) && t.shut == s.shut && t.go == s.go && 0 <= ph <= 1
    requires t.arr == Set2(s.arr, r, ph, s.arr(r, ph) + 1) && s.shut(r, ph) < Ep(p, s.call(r), t.blocks(r, b))
    requires s.blocks(r, b).pc == Arr(ph) && (t.blocks(r, b).pc == Zero(ph) || t.blocks(r, b).pc == Wait(ph))
    ensures Count(p, t)
  {
    ArriveOpen(p, s, t, r, b, ph);
    forall x, h | 0 <= x < p.w && 0 <= h <= 1 ensures t.arr(x, h) == |Open(p, t, x, h)| && t.go(x, h) <= t.shut(x, h) {
      if x != r || h != ph { ArriveOther(p, s, t, r, b, ph, x, h); }
    }
  }

  lemma ArriveZeroing(p: Prog, s: State, t: State, r: int, b: int, ph: int)
    requires Zeroing(p, s) && Goes(p, s, t, r, b) && s.blocks(r, b).pc == Arr(ph)
    requires s.arr(r, ph) < p.grid(s.call(r), r) && s.shut(r, ph) < Ep(p, s.call(r), s.blocks(r, b))
    ensures Zeroing(p, t)
  {}

  lemma ArriveLeads(p: Prog, s: State, t: State, r: int, b: int)
    requires WellFormed(p) && Shape(p, s) && Count(p, s) && Words(p, s) && Goes(p, s, t, r, b) && s.blocks(r, b).pc.Arr?
    ensures Lead1(p, t, r, t.blocks(r, b))
  {
    var c, k := s.call(r), s.blocks(r, b);
    assert Shape1(p, c, k);
    if t.blocks(r, b).pc.Zero? {
      forall x | Has(p, c, r, x) ensures Arrived(p, c, t.blocks(r, x)) >= 2 * Ep(p, c, k) + k.pc.ph {
        if x != b { LastArriver(p, s, r, b, x, k.pc.ph); }
      }
    }
  }

  lemma ArriveMoves(p: Prog, s: State, t: State, r: int, b: int)
    requires WellFormed(p) && Shape(p, s) && Goes(p, s, t, r, b) && s.blocks(r, b).pc.Arr?
    ensures Moved(p, s, t, r, b) && Shape1(p, s.call(r), t.blocks(r, b))
    ensures Passed(p, s.call(r), s.blocks(r, b)) == Passed(p, s.call(r), t.blocks(r, b))
  {
    assert Shape1(p, s.call(r), s.blocks(r, b));
    EpochPositive(p, s, r, b);
  }

  lemma ArriveKeeps(p: Prog, s: State, t: State, r: int, b: int)
    requires WellFormed(p) && Inv(p, s) && Goes(p, s, t, r, b) && s.blocks(r, b).pc.Arr?
    ensures Inv(p, t)
  {
    var ph := s.blocks(r, b).pc.ph;
    NotShut(p, s, r, b, ph);
    Room(p, s, r, b, ph);
    ArriveMoves(p, s, t, r, b);
    ArriveCount(p, s, t, r, b, ph);
    ArriveZeroing(p, s, t, r, b, ph);
    ArriveLeads(p, s, t, r, b);
    ShapeStep(p, s, t, r, b);
    SyncStep(p, s, t, r, b);
    LeadStep(p, s, t, r, b);
    WordsStep(p, s, t, r, b);
    FlagsStep(p, s, t);
    CounterStep(p, s, t, r, b);
  }

  // ---- resetting the arrive counter ---------------------------------------

  /** No block of the rank is in a later barrier of this phase than its resetting block. */
  lemma ZeroNewest(p: Prog, s: State, r: int, b: int, x: int)
    requires WellFormed(p) && Shape(p, s) && Count(p, s) && Words(p, s) && Zeroing(p, s)
    requires Has(p, s.call(r), r, b) && s.blocks(r, b).pc.Zero? && Has(p, s.call(r), r, x)
    requires InBarrier(s.blocks(r, x).pc) && s.blocks(r, x).pc.ph == s.blocks(r, b).pc.ph
    ensures Ep(p, s.call(r), s.blocks(r, x)) <= Ep(p, s.call(r), s.blocks(r, b))
  {
    var c, k := s.call(r), s.blocks(r, b);
    assert Shape1(p, c, k) && Words1(p, s, r, k.pc.ph) && Shape1(p, c, s.blocks(r, x));
    EpochPositive(p, s, r, b);
    assert s.go(r, k.pc.ph) <= s.shut(r, k.pc.ph) < Ep(p, c, k);
    if Ep(p, c, s.blocks(r, x)) > Ep(p, c, k) { GoReached(p, s, r, x, Ep(p, c, k), k.pc.ph); }
  }

  lemma ZeroCount(p: Prog, s: State, t: State, r: int, b: int, ph: int)
    requires Count(p, s) && Goes(p, s, t, r, b) && s.blocks(r, b).pc == Zero(ph) && s.blocks(r, b).ctr0 == p.start(s.call(r))
    requires s.shut(r, ph) < Ep(p, s.call(r), s.blocks(r, b))
    requires forall x ::
      Has(p, s.call(r), r, x) && InBarrier(s.blocks(r, x).pc) && s.blocks(r, x).pc.ph == ph
      ==> Ep(p, s.call(r), s.blocks(r, x)) <= Ep(p, s.call(r), s.blocks(r, b))
    ensures Count(p, t)
  {
    forall x, h | 0 <= x < p.w && 0 <= h <= 1
      ensures Open(p, t, x, h) == if x == r && h == ph then {} else Open(p, s, x, h)
    {}
  }

  lemma ZeroZeroing(p: Prog, s: State, t: State, r: int, b: int)
    requires Zeroing(p, s) && Goes(p, s, t, r, b) && s.blocks(r, b).pc.Zero?
    ensures Zeroing(p, t)
  {}

  /** No other block of the rank still leads an earlier barrier of this phase. */
  lemma ZeroLead(p: Prog, s: State, t: State, r: int, b: int)
    requires WellFormed(p) && Shape(p, s) && Lead(p, s) && Zeroing(p, s) && Goes(p, s, t, r, b) && s.blocks(r, b).pc.Zero?
    requires Moved(p, s, t, r, b)
    ensures Lead(p, t)
  {
    var c, k := s.call(r), s.blocks(r, b);
    assert Shape1(p, c, k) && Lead1(p, s, r, k);
    ReachedStep(p, s, t, r, b);
    forall y | Has(p, c, r, y) && y != b && Leads(s.blocks(r, y).pc) && s.blocks(r, y).pc.ph == k.pc.ph
      ensures s.blocks(r, y).pc.Zero?
    {
      assert Lead1(p, s, r, s.blocks(r, y));
    }
    LeadStep(p, s, t, r, b);
  }

  lemma ZeroWords(p: Prog, s: State, t: State, r: int, b: int)
    requires Words(p, s) && Goes(p, s, t, r, b) && s.blocks(r, b).pc.Zero? && Moved(p, s, t, r, b)
    requires s.blocks(r, b).ctr0 == p.start(s.call(r)) && Lead1(p, s, r, s.blocks(r, b))
    requires Passed(p, s.call(r), s.blocks(r, b)) == Passed(p, s.call(r), t.blocks(r, b))
    ensures Words(p, t)
  {
    ReachedStep(p, s, t, r, b);
    var u := t.(shut := s.shut);
    WordsStep(p, s, u, r, b);
    forall x, h | 0 <= x < p.w && 0 <= h <= 1 ensures Words1(p, t, x, h) {
      assert Words1(p, u, x, h);
      assert forall n :: Reached(p, u, x, n) ==> Reached(p, t, x, n);
    }
  }

  lemma ZeroMoves(p: Prog, s: State, t: State, r: int, b: int)
    requires WellFormed(p) && Shape(p, s) && Goes(p, s, t, r, b) && s.blocks(r, b).pc.Zero?
    ensures Moved(p, s, t, r, b) && Shape1(p, s.call(r), t.blocks(r, b)) && s.blocks(r, b).ctr0 == p.start(s.call(r))
    ensures Passed(p, s.call(r), s.blocks(r, b)) == Passed(p, s.call(r), t.blocks(r, b))
    ensures 0 <= s.blocks(r, b).pc.ph <= 1
  {
    assert Shape1(p, s.call(r), s.blocks(r, b));
  }

  lemma ZeroKeeps(p: Prog, s: State, t: State, r: int, b: int)
    requires WellFormed(p) && Inv(p, s) && Goes(p, s, t, r, b) && s.blocks(r, b).pc.Zero?
    ensures Inv(p, t)
  {
    var ph := s.blocks(r, b).pc.ph;
    ZeroMoves(p, s, t, r, b);
    forall x | Has(p, s.call(r), r, x) && InBarrier(s.blocks(r, x).pc) && s.blocks(r, x).pc.ph == ph
      ensures Ep(p, s.call(r), s.blocks(r, x)) <= Ep(p, s.call(r), s.blocks(r, b))
    {
      ZeroNewest(p, s, r, b, x);
    }
    ZeroCount(p, s, t, r, b, ph);
    ZeroZeroing(p, s, t, r, b);
    ZeroLead(p, s, t, r, b);
    ZeroWords(p, s, t, r, b);
    ShapeStep(p, s, t, r, b);
    SyncStep(p, s, t, r, b);
    FlagsStep(p, s, t);
    CounterStep(p, s, t, r, b);
  }

  // ---- advancing the epoch counter ----------------------------------------

  lemma CounterOther(p: Prog, s: State, t: State, r: int, b: int, x: int)
    requires Moved(p, s, t, r, b) && x != r && Counter1(p, s, x) && t.ctr(x) == s.ctr(x) && t.pub(x) == s.pub(x)
    ensures Counter1(p, t, x)
  {}

  lemma BumpCounter1(p: Prog, s: State, t: State, r: int, b: int)
    requires WellFormed(p) && Counter1(p, s, r) && Goes(p, s, t, r, b) && s.blocks(r, b).pc.Bump? && Moved(p, s, t, r, b)
    requires Shape1(p, s.call(r), s.blocks(r, b)) && Lead1(p, s, r, s.blocks(r, b)) && Ep(p, s.call(r), s.blocks(r, b)) >= 1
    ensures Counter1(p, t, r)
  {
    ReachedStep(p, s, t, r, b);
  }

  lemma BumpCounter(p: Prog, s: State, t: State, r: int, b: int)
    requires WellFormed(p) && Shape(p, s) && Lead(p, s) && Counter(p, s) && Goes(p, s, t, r, b) && s.blocks(r, b).pc.Bump?
    requires Moved(p, s, t, r, b)
    ensures Counter(p, t)
  {
    EpochPositive(p, s, r, b);
    BumpCounter1(p, s, t, r, b);
    forall x | 0 <= x < p.w && x != r ensures Counter1(p, t, x) { CounterOther(p, s, t, r, b, x); }
  }

  lemma BumpStill(p: Prog, s: State, t: State, r: int, b: int)
    requires WellFormed(p) && Shape(p, s) && Lead(p, s) && Goes(p, s, t, r, b) && s.blocks(r, b).pc.Bump?
    ensures Still(p, s, t, r, b) && t.flags == s.flags && t.pub == s.pub
  {
    assert Shape1(p, s.call(r), s.blocks(r, b)) && Lead1(p, s, r, s.blocks(r, b));
    assert Moved(p, s, t, r, b);
    ReachedStep(p, s, t, r, b);
  }

  lemma BumpKeeps(p: Prog, s: State, t: State, r: int, b: int)
    requires WellFormed(p) && Inv(p, s) && Goes(p, s, t, r, b) && s.blocks(r, b).pc.Bump?
    ensures Inv(p, t)
  {
    BumpStill(p, s, t, r, b);
    BumpCounter(p, s, t, r, b);
    FlagsStep(p, s, t);
    StillKeeps(p, s, t, r, b);
  }

  // ---- publishing ---------------------------------------------------------

  lemma PublishFlags(p: Prog, s: State, t: State, r: int, b: int)
    requires WellFormed(p) && Shape(p, s) && Sync(p, s) && Flags(p, s) && Goes(p, s, t, r, b) && s.blocks(r, b).pc.Pub?
    requires s.pub(r) <= t.pub(r)
    ensures Flags(p, t)
  {
    var c, k := s.call(r), s.blocks(r, b);
    var ph, e := k.pc.ph, Ep(p, c, k);
    assert Shape1(p, c, k);
    EpochPositive(p, s, r, b);
    forall x, h | 0 <= x < p.w && 0 <= h <= 1 ensures Flags1(p, t, x, h) {
      assert Flags1(p, s, x, h);
      if x == r {
        forall f | Used(p, f, h) && 2 * f + h <= t.pub(r) ensures t.flags(Par(f), h, r) >= f {
          if f < e || h < ph { assert 2 * f + h <= Passed(p, c, k) <= s.pub(r); }
        }
      }
    }
  }

  lemma PublishCounter1(p: Prog, s: State, t: State, r: int, b: int)
    requires WellFormed(p) && Counter1(p, s, r) && Goes(p, s, t, r, b) && s.blocks(r, b).pc.Pub? && Moved(p, s, t, r, b)
    requires Shape1(p, s.call(r), s.blocks(r, b)) && Ep(p, s.call(r), s.blocks(r, b)) >= 1
    ensures Counter1(p, t, r)
  {
    ReachedStep(p, s, t, r, b);
  }

  lemma PublishCounter(p: Prog, s: State, t: State, r: int, b: int)
    requires WellFormed(p) && Shape(p, s) && Counter(p, s) && Goes(p, s, t, r, b) && s.blocks(r, b).pc.Pub? && Moved(p, s, t, r, b)
    ensures Counter(p, t)
  {
    EpochPositive(p, s, r, b);
    PublishCounter1(p, s, t, r, b);
    forall x | 0 <= x < p.w && x != r ensures Counter1(p, t, x) { CounterOther(p, s, t, r, b, x); }
  }

  lemma PublishStill(p: Prog, s: State, t: State, r: int, b: int)
    requires WellFormed(p) && Shape(p, s) && Sync(p, s) && Lead(p, s) && Goes(p, s, t, r, b) && s.blocks(r, b).pc.Pub?
    ensures Still(p, s, t, r, b)
  {
    assert Shape1(p, s.call(r), s.blocks(r, b)) && Lead1(p, s, r, s.blocks(r, b));
    assert Moved(p, s, t, r, b);
    ReachedStep(p, s, t, r, b);
  }

  lemma PublishKeeps(p: Prog, s: State, t: State, r: int, b: int)
    requires WellFormed(p) && Inv(p, s) && Goes(p, s, t, r, b) && s.blocks(r, b).pc.Pub?
    ensures Inv(p, t)
  {
    PublishStill(p, s, t, r, b);
    PublishFlags(p, s, t, r, b);
    PublishCounter(p, s, t, r, b);
    StillKeeps(p, s, t, r, b);
  }

  // ---- polling ------------------------------------------------------------

  /** A rank has published at most one barrier more than any block anywhere has reached. */
  lemma PublishedNear(p: Prog, s: State, j: int, f: int, ph: int, r: int, b: int)
    requires WellFormed(p) && Shape(p, s) && Sync(p, s) && 0 <= j < p.w && 0 <= ph <= 1 && 2 * f + ph <= s.pub(j)
    requires Has(p, s.call(r), r, b)
    ensures 2 * f - 2 <= Arrived(p, s.call(r), s.blocks(r, b))
  {
    assert Has(p, s.call(j), j, 0);
    EpochPositive(p, s, j, 0);
    EpochPositive(p, s, r, b);
    Near(p, s, j, 0, r, b);
    assert Shape1(p, s.call(j), s.blocks(j, 0)) && Shape1(p, s.call(r), s.blocks(r, b));
    assert s.pub(j) <= Arrived(p, s.call(j), s.blocks(j, 0)) <= Passed(p, s.call(j), s.blocks(j, 0)) + 2;
  }

  /** The flag a poller waits for has not moved past its epoch. */
  lemma FlagNotAhead(p: Prog, s: State, r: int, b: int, j: int)
    requires WellFormed(p) && Shape(p, s) && Sync(p, s) && Flags(p, s)
    requires Has(p, s.call(r), r, b) && s.blocks(r, b).pc.Poll? && 0 <= j < p.w
    ensures s.flags(Par(Ep(p, s.call(r), s.blocks(r, b))), s.blocks(r, b).pc.ph, j) <= Ep(p, s.call(r), s.blocks(r, b))
  {
    var ph, e := s.blocks(r, b).pc.ph, Ep(p, s.call(r), s.blocks(r, b));
    assert Shape1(p, s.call(r), s.blocks(r, b));
    EpochPositive(p, s, r, b);
    assert Flags1(p, s, j, ph);
    if s.flags(Par(e), ph, j) != 0 { PublishedNear(p, s, j, s.flags(Par(e), ph, j), ph, r, b); }
  }

  /** A flag that equals, modulo m, the epoch its poller waits for is that very epoch. */
  lemma FlagCurrent(p: Prog, s: State, r: int, b: int, j: int)
    requires WellFormed(p) && NoStale(p) && Shape(p, s) && Sync(p, s) && Flags(p, s)
    requires Has(p, s.call(r), r, b) && s.blocks(r, b).pc.Poll? && 0 <= j < p.w
    requires Same(p, s.flags(Par(Ep(p, s.call(r), s.blocks(r, b))), s.blocks(r, b).pc.ph, j), Ep(p, s.call(r), s.blocks(r, b)))
    ensures s.pub(j) >= 2 * Ep(p, s.call(r), s.blocks(r, b)) + s.blocks(r, b).pc.ph
  {
    var c, k := s.call(r), s.blocks(r, b);
    var ph, e := k.pc.ph, Ep(p, c, k);
    var f := s.flags(Par(e), ph, j);
    assert Shape1(p, c, k);
    EpochPositive(p, s, r, b);
    FlagNotAhead(p, s, r, b, j);
    EndMonotone(p, c + 1, p.calls);
    assert Flags1(p, s, j, ph);
    if f < e {
      forall x | Used(p, x, ph) && x < e && Par(x) == Par(e) ensures x <= f {
        PassedBefore(p, c, k, x, ph);
        assert 2 * x + ph <= Passed(p, c, k) <= s.pub(j);
      }
      assert Previous(p, f, e, ph);
    }
  }

  /** So is a go word. */
  lemma GoCurrent(p: Prog, s: State, r: int, b: int)
    requires WellFormed(p) && NoStale(p) && Shape(p, s) && Count(p, s) && Words(p, s)
    requires Has(p, s.call(r), r, b) && s.blocks(r, b).pc.Wait?
    requires Same(p, s.go(r, s.blocks(r, b).pc.ph), Ep(p, s.call(r), s.blocks(r, b)))
    ensures s.go(r, s.blocks(r, b).pc.ph) == Ep(p, s.call(r), s.blocks(r, b))
  {
    var c, k := s.call(r), s.blocks(r, b);
    var ph, e := k.pc.ph, Ep(p, c, k);
    var g := s.go(r, ph);
    assert Shape1(p, c, k) && Words1(p, s, r, ph);
    EpochPositive(p, s, r, b);
    EndMonotone(p, c + 1, p.calls);
    assert g <= s.shut(r, ph) <= e;
    if g < e {
      forall x | Used(p, x, ph) && x < e ensures x <= g {
        PassedBefore(p, c, k, x, ph);
        assert 2 * x + ph <= Passed(p, c, k);
      }
      assert Previous(p, g, e, ph);
    }
  }

  lemma PollLeads(p: Prog, s: State, t: State, r: int, b: int)
    requires WellFormed(p) && NoStale(p) && Shape(p, s) && Sync(p, s) && Lead(p, s) && Flags(p, s)
    requires Goes(p, s, t, r, b) && s.blocks(r, b).pc.Poll?
    ensures Shape1(p, s.call(r), t.blocks(r, b)) && Lead1(p, s, r, t.blocks(r, b))
  {
    var k := s.blocks(r, b);
    assert Shape1(p, s.call(r), k) && Lead1(p, s, r, k);
    if Same(p, s.flags(Par(Word(k)), k.pc.ph, k.pc.j), Word(k)) { FlagCurrent(p, s, r, b, k.pc.j); }
  }

  lemma PollStill(p: Prog, s: State, t: State, r: int, b: int)
    requires Shape(p, s) && Goes(p, s, t, r, b) && s.blocks(r, b).pc.Poll?
    requires Shape1(p, s.call(r), t.blocks(r, b)) && Lead1(p, s, r, t.blocks(r, b))
    ensures Still(p, s, t, r, b) && t.flags == s.flags && t.pub == s.pub && t.ctr == s.ctr && !t.blocks(r, b).pc.Pub?
  {
    assert Moved(p, s, t, r, b);
    ReachedStep(p, s, t, r, b);
  }

  lemma PollKeeps(p: Prog, s: State, t: State, r: int, b: int)
    requires WellFormed(p) && NoStale(p) && Inv(p, s) && Goes(p, s, t, r, b) && s.blocks(r, b).pc.Poll?
    ensures Inv(p, t)
  {
    PollLeads(p, s, t, r, b);
    PollStill(p, s, t, r, b);
    FlagsStep(p, s, t);
    CounterStep(p, s, t, r, b);
    StillKeeps(p, s, t, r, b);
  }

  // ---- passing ------------------------------------------------------------

  /** Block b enters the stage after its barrier (e, ph), which every rank has published; t.go
      is s.go, or says so. */
  ghost predicate Passes(p: Prog, s: State, t: State, r: int, b: int) {
    var k := s.blocks(r, b);
    && (k.pc.Rel? || k.pc.Wait?)
    && var ph, e := k.pc.ph, Ep(p, s.call(r), k);
    && (forall j :: 0 <= j < p.w ==> s.pub(j) >= 2 * e + ph)
    && s.go(r, ph) <= e == t.go(r, ph) && e <= s.shut(r, ph)
    && (forall x, h :: x != r || h != ph ==> t.go(x, h) == s.go(x, h))
    && t == Enter(p, s, r, b, k.rnd, ph + 1).(go := t.go)
  }

  lemma PassGo(p: Prog, s: State, t: State, r: int, b: int, h: int, f: int)
    requires WellFormed(p) && Shape(p, s) && Words(p, s) && Has(p, s.call(r), r, b) && Passes(p, s, t, r, b)
    requires 0 <= h <= 1 && Used(p, f, h) && Passed(p, s.call(r), t.blocks(r, b)) >= 2 * f + h
    ensures t.go(r, h) >= f
  {
    var c, k := s.call(r), s.blocks(r, b);
    assert Shape1(p, c, k) && Words1(p, s, r, h);
    EpochPositive(p, s, r, b);
    if h != k.pc.ph || f < Ep(p, c, k) { assert Passed(p, c, k) >= 2 * f + h; }
  }

  lemma PassWords(p: Prog, s: State, t: State, r: int, b: int)
    requires WellFormed(p) && Shape(p, s) && Words(p, s) && Has(p, s.call(r), r, b) && Passes(p, s, t, r, b)
    requires Moved(p, s, t, r, b)
    ensures Words(p, t)
  {
    assert Shape1(p, s.call(r), s.blocks(r, b));
    EpochPositive(p, s, r, b);
    ReachedStep(p, s, t, r, b);
    forall h, f | 0 <= h <= 1 && Used(p, f, h) && Passed(p, s.call(r), t.blocks(r, b)) >= 2 * f + h ensures t.go(r, h) >= f {
      PassGo(p, s, t, r, b, h, f);
    }
    forall x, h | 0 <= x < p.w && 0 <= h <= 1 ensures Words1(p, t, x, h) { assert Words1(p, s, x, h); }
  }

  lemma PassMoves(p: Prog, s: State, t: State, r: int, b: int)
    requires WellFormed(p) && Shape(p, s) && Has(p, s.call(r), r, b) && Passes(p, s, t, r, b)
    ensures Moved(p, s, t, r, b) && Shape1(p, s.call(r), t.blocks(r, b))
    ensures forall j :: 0 <= j < p.w ==> Passed(p, s.call(r), t.blocks(r, b)) <= s.pub(j)
  {
    assert Shape1(p, s.call(r), s.blocks(r, b));
    EpochPositive(p, s, r, b);
  }

  lemma PassKeeps(p: Prog, s: State, t: State, r: int, b: int)
    requires WellFormed(p) && Inv(p, s) && Has(p, s.call(r), r, b) && Passes(p, s, t, r, b)
    ensures Inv(p, t)
  {
    PassMoves(p, s, t, r, b);
    PassWords(p, s, t, r, b);
    ShapeStep(p, s, t, r, b);
    SyncStep(p, s, t, r, b);
    LeadStep(p, s, t, r, b);
    CountStep(p, s, t, r, b);
    ZeroingStep(p, s, t, r, b);
    FlagsStep(p, s, t);
    CounterStep(p, s, t, r, b);
  }

  lemma ReleasePasses(p: Prog, s: State, t: State, r: int, b: int)
    requires WellFormed(p) && Shape(p, s) && Lead(p, s) && Count(p, s) && Goes(p, s, t, r, b) && s.blocks(r, b).pc.Rel?
    ensures Passes(p, s, t, r, b)
  {
    assert Shape1(p, s.call(r), s.blocks(r, b)) && Lead1(p, s, r, s.blocks(r, b));
    assert s.go(r, s.blocks(r, b).pc.ph) <= s.shut(r, s.blocks(r, b).pc.ph);
  }

  lemma WaitPasses(p: Prog, s: State, t: State, r: int, b: int)
    requires WellFormed(p) && NoStale(p) && Shape(p, s) && Count(p, s) && Words(p, s) && Goes(p, s, t, r, b) && s.blocks(r, b).pc.Wait?
    requires Same(p, s.go(r, s.blocks(r, b).pc.ph), Word(s.blocks(r, b)))
    ensures Passes(p, s, t, r, b)
  {
    var ph := s.blocks(r, b).pc.ph;
    assert Shape1(p, s.call(r), s.blocks(r, b)) && Words1(p, s, r, ph) && s.go(r, ph) <= s.shut(r, ph);
    EpochPositive(p, s, r, b);
    GoCurrent(p, s, r, b);
  }

  lemma ReleaseKeeps(p: Prog, s: State, t: State, r: int, b: int)
    requires WellFormed(p) && NoStale(p) && Inv(p, s) && Goes(p, s, t, r, b)
    requires s.blocks(r, b).pc.Rel? || s.blocks(r, b).pc.Wait?
    ensures Inv(p, t)
  {
    if s.blocks(r, b).pc.Rel? {
      ReleasePasses(p, s, t, r, b);
      PassKeeps(p, s, t, r, b);
    } else if Same(p, s.go(r, s.blocks(r, b).pc.ph), Word(s.blocks(r, b))) {
      WaitPasses(p, s, t, r, b);
      PassKeeps(p, s, t, r, b);
    }
  }

  // ---- launching ----------------------------------------------------------

  /** Between two launches the arrive counters are 0 and the epoch counter has moved by the rounds. */
  lemma Quiet(p: Prog, s: State, r: int)
    requires WellFormed(p) && Inv(p, s) && 0 <= r < p.w
    requires forall b :: 0 <= b < p.grid(s.call(r), r) ==> s.blocks(r, b).pc == Done
    ensures s.arr(r, 0) == 0 && s.arr(r, 1) == 0 && s.ctr(r) == p.start(s.call(r) + 1)
  {
    assert Open(p, s, r, 0) == {} && Open(p, s, r, 1) == {};
    assert Has(p, s.call(r), r, 0);
    assert Shape1(p, s.call(r), s.blocks(r, 0)) && Counter1(p, s, r);
  }

  /** A block that is done stands where the next launch's blocks start. */
  lemma DoneStands(p: Prog, c: int, k: Block)
    requires Shape1(p, c, k) && k.pc.Done?
    ensures Passed(p, c, k) == Arrived(p, c, k) == Last(p, p.start(c + 1))
  {}

  lemma LaunchStands(p: Prog, s: State, t: State, r: int)
    requires WellFormed(p) && Shape(p, s) && Enabled(p, s, Launch(r)) && t == Step(p, s, Launch(r))
    ensures Has(p, s.call(r), r, 0) && Arrived(p, s.call(r), s.blocks(r, 0)) == Last(p, p.start(t.call(r)))
    ensures forall b :: Passed(p, t.call(r), t.blocks(r, b)) == Arrived(p, t.call(r), t.blocks(r, b)) == Last(p, p.start(t.call(r)))
    ensures forall x, n :: Reached(p, s, x, n) ==> Reached(p, t, x, n)
  {
    assert Has(p, s.call(r), r, 0);
    DoneStands(p, s.call(r), s.blocks(r, 0));
    forall x, n | Reached(p, s, x, n) ensures Reached(p, t, x, n) {
      if x == r { assert n <= Last(p, p.start(t.call(r))); }
    }
  }

  lemma LaunchShape(p: Prog, s: State, t: State, r: int)
    requires WellFormed(p) && Shape(p, s) && Enabled(p, s, Launch(r)) && t == Step(p, s, Launch(r))
    ensures Shape(p, t)
  {}

  lemma LaunchSync(p: Prog, s: State, t: State, r: int)
    requires WellFormed(p) && Shape(p, s) && Sync(p, s) && Enabled(p, s, Launch(r)) && t == Step(p, s, Launch(r))
    ensures Sync(p, t)
  {
    LaunchStands(p, s, t, r);
    DoneStands(p, s.call(r), s.blocks(r, 0));
  }

  lemma LaunchCount(p: Prog, s: State, t: State, r: int)
    requires WellFormed(p) && Inv(p, s) && Enabled(p, s, Launch(r)) && t == Step(p, s, Launch(r))
    ensures Count(p, t) && Zeroing(p, t)
  {
    Quiet(p, s, r);
    forall x, h | 0 <= x < p.w && 0 <= h <= 1 ensures Open(p, t, x, h) == if x == r then {} else Open(p, s, x, h) {}
  }

  lemma LaunchWords(p: Prog, s: State, t: State, r: int)
    requires WellFormed(p) && Inv(p, s) && Enabled(p, s, Launch(r)) && t == Step(p, s, Launch(r))
    ensures Words(p, t)
  {
    LaunchStands(p, s, t, r);
    assert Has(p, s.call(r), r, 0);
    forall x, h | 0 <= x < p.w && 0 <= h <= 1 ensures Words1(p, t, x, h) { assert Words1(p, s, x, h); }
  }

  lemma LaunchLead(p: Prog, s: State, t: State, r: int)
    requires WellFormed(p) && Inv(p, s) && Enabled(p, s, Launch(r)) && t == Step(p, s, Launch(r))
    ensures Flags(p, t) && Lead(p, t)
  {
    LaunchStands(p, s, t, r);
    FlagsStep(p, s, t);
    forall x, b | Has(p, t.call(x), x, b) ensures Lead1(p, t, x, t.blocks(x, b)) {
      if x != r { assert Lead1(p, s, x, s.blocks(x, b)); }
    }
  }

  lemma LaunchCounter(p: Prog, s: State, t: State, r: int)
    requires WellFormed(p) && Inv(p, s) && Enabled(p, s, Launch(r)) && t == Step(p, s, Launch(r))
    ensures Counter(p, t)
  {
    Quiet(p, s, r);
    StartNonNegative(p, s.call(r));
    LaunchStands(p, s, t, r);
    assert Has(p, s.call(r), r, 0);
    assert t.pub(r) <= Last(p, p.start(t.call(r))) < Last(p, p.start(t.call(r) + 1));
    forall x | 0 <= x < p.w ensures Counter1(p, t, x) { assert Counter1(p, s, x); }
  }

  // ---- every step ---------------------------------------------------------

  /** A block that loads the epoch counter reads its launch's first epoch, never the next one's. */
  lemma LoadReads(p: Prog, s: State, r: int, b: int)
    requires WellFormed(p) && Inv(p, s) && Has(p, s.call(r), r, b) && s.blocks(r, b).pc.Load?
    ensures s.ctr(r) == p.start(s.call(r))
  {
    assert Counter1(p, s, r) && Shape1(p, s.call(r), s.blocks(r, b));
    StartNonNegative(p, s.call(r));
  }

  lemma LoadKeeps(p: Prog, s: State, t: State, r: int, b: int)
    requires WellFormed(p) && Inv(p, s) && Goes(p, s, t, r, b) && s.blocks(r, b).pc.Load?
    ensures Inv(p, t)
  {
    LoadReads(p, s, r, b);
    assert Shape1(p, s.call(r), s.blocks(r, b));
    LocalKeeps(p, s, t, r, b);
  }

  lemma NextIsLocal(p: Prog, s: State, t: State, r: int, b: int)
    requires WellFormed(p) && Shape(p, s) && Has(p, s.call(r), r, b) && s.blocks(r, b).pc.Work? && s.blocks(r, b).cur.Idle?
    requires p.m >= 2 && t == EndStage(p, s, r, b, s.blocks(r, b).pc.st)
    ensures Local(p, s, t, r, b)
  {
    assert Shape1(p, s.call(r), s.blocks(r, b));
    EpochPositive(p, s, r, b);
  }

  lemma WorkIsLocal(p: Prog, s: State, t: State, r: int, b: int)
    requires WellFormed(p) && Shape(p, s) && Goes(p, s, t, r, b) && s.blocks(r, b).pc.Work?
    ensures Local(p, s, t, r, b)
  {
    assert Shape1(p, s.call(r), s.blocks(r, b));
    if s.blocks(r, b).cur.Idle? {
      NextIsLocal(p, s, t, r, b);
    } else {
      var k := t.blocks(r, b);
      assert k == s.blocks(r, b).(cur := k.cur);
    }
  }

  lemma LaunchKeeps(p: Prog, s: State, t: State, r: int)
    requires WellFormed(p) && Inv(p, s) && Enabled(p, s, Launch(r)) && t == Step(p, s, Launch(r))
    ensures Inv(p, t)
  {
    LaunchShape(p, s, t, r);
    LaunchSync(p, s, t, r);
    LaunchCount(p, s, t, r);
    LaunchWords(p, s, t, r);
    LaunchLead(p, s, t, r);
    LaunchCounter(p, s, t, r);
  }

  lemma PickKeeps(p: Prog, s: State, t: State, r: int, b: int, it: Item)
    requires WellFormed(p) && Inv(p, s) && Enabled(p, s, Pick(r, b, it)) && t == Step(p, s, Pick(r, b, it))
    ensures Inv(p, t)
  {
    assert Shape1(p, s.call(r), s.blocks(r, b));
    LocalKeeps(p, s, t, r, b);
  }

  lemma GoKeeps(p: Prog, s: State, t: State, r: int, b: int)
    requires WellFormed(p) && NoStale(p) && Inv(p, s) && Goes(p, s, t, r, b) && s.blocks(r, b).pc != Done
    ensures Inv(p, t)
  {
    match s.blocks(r, b).pc
    case Load => LoadKeeps(p, s, t, r, b);
    case Work(st) => WorkIsLocal(p, s, t, r, b); LocalKeeps(p, s, t, r, b);
    case Arr(ph) => ArriveKeeps(p, s, t, r, b);
    case Zero(ph) => ZeroKeeps(p, s, t, r, b);
    case Bump(ph) => BumpKeeps(p, s, t, r, b);
    case Pub(ph) => PublishKeeps(p, s, t, r, b);
    case Poll(ph, j) => PollKeeps(p, s, t, r, b);
    case Rel(ph) => ReleaseKeeps(p, s, t, r, b);
    case Wait(ph) => ReleaseKeeps(p, s, t, r, b);
  }

  /** Every step keeps the invariant. */
  lemma StepKeeps(p: Prog, s: State, a: Action)
    requires WellFormed(p) && NoStale(p) && Inv(p, s) && Enabled(p, s, a)
    ensures Inv(p, Step(p, s, a))
  {
    match a
    case Launch(r) => LaunchKeeps(p, s, Step(p, s, a), r);
    case Pick(r, b, it) => PickKeeps(p, s, Step(p, s, a), r, b, it);
    case Go(r, b) => GoKeeps(p, s, Step(p, s, a), r, b);
  }

  lemma {:induction false} RunInv(p: Prog, acts: seq<Action>)
    requires WellFormed(p) && NoStale(p) && Run(p, acts)
    ensures Inv(p, After(p, acts))
  {
    if acts == [] {
      InitInv(p);
    } else {
      RunInv(p, acts[..|acts| - 1]);
      StepKeeps(p, After(p, acts[..|acts| - 1]), acts[|acts| - 1]);
    }
  }
}
