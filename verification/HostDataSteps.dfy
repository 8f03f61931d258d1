/** Every step keeps what is known of host memory and of the outputs. */
module HostDataSteps {
  import opened HostMachine
  import opened HostControl
  import opened HostSteps
  import opened HostData

  lemma EpochInCall(p: Prog, s: State, r: int, b: int)
    requires WellFormed(p) && Shape(p, s) && Has(p, s.call(r), r, b)
    ensures InCall(p, s.call(r), Ep(p, s.call(r), s.blocks(r, b))) && Ep(p, s.call(r), s.blocks(r, b)) >= 1
  {
    assert Shape1(p, s.call(r), s.blocks(r, b));
    EpochPositive(p, s, r, b);
  }

  // ---- steps that touch neither host memory nor outputs -------------------

  lemma BlocksStep(p: Prog, q: Spec, s: State, t: State, r: int, b: int)
    requires Blocks(p, q, s) && Moved(p, s, t, r, b) && t.mem == s.mem && t.out == s.out
    requires InHand(p, q, t, r, b) && Stage(p, q, t, r, b) && AtBarrier(p, q, t, r, b) && Outputs(p, q, t, r, b)
    ensures Blocks(p, q, t)
  {
    forall x, y | Has(p, t.call(x), x, y)
      ensures InHand(p, q, t, x, y) && Stage(p, q, t, x, y) && AtBarrier(p, q, t, x, y) && Outputs(p, q, t, x, y)
    {
      if x != r || y != b { BlockSame(p, q, s, t, x, y); }
    }
  }

  lemma BlockSame(p: Prog, q: Spec, s: State, t: State, x: int, y: int)
    requires Has(p, s.call(x), x, y) && t.call == s.call && t.blocks(x, y) == s.blocks(x, y) && t.mem == s.mem && t.out == s.out
    requires InHand(p, q, s, x, y) && Stage(p, q, s, x, y) && AtBarrier(p, q, s, x, y) && Outputs(p, q, s, x, y)
    ensures InHand(p, q, t, x, y) && Stage(p, q, t, x, y) && AtBarrier(p, q, t, x, y) && Outputs(p, q, t, x, y)
  {
    DoneSame(p, q, s, t);
  }

  lemma DoneSame(p: Prog, q: Spec, s: State, t: State)
    requires t.mem == s.mem && t.out == s.out
    ensures forall e, r, b, st :: HostDone(p, q, s, e, r, b, st) ==> HostDone(p, q, t, e, r, b, st)
    ensures forall c, e, r, b, st :: OutDone(p, q, s, c, e, r, b, st) ==> OutDone(p, q, t, c, e, r, b, st)
    ensures forall e, k, n :: EffectHost(q, s, e, k, n) ==> EffectHost(q, t, e, k, n)
    ensures forall c, r, k, n :: EffectOut(q, s, c, r, k, n) ==> EffectOut(q, t, c, r, k, n)
  {}

  lemma PastStep(p: Prog, q: Spec, s: State, t: State)
    requires t.mem == s.mem && t.out == s.out
    ensures forall r, c :: Past(p, q, s, r, c) ==> Past(p, q, t, r, c)
    ensures forall c, e, r, st :: Ready(p, q, s, c, e, r, st) ==> Ready(p, q, t, c, e, r, st)
  {
    DoneSame(p, q, s, t);
  }

  /** The rank keeps what it kept if no block arrived anywhere. */
  lemma RanksStep(p: Prog, q: Spec, s: State, t: State, r: int, b: int)
    requires Ranks(p, q, s) && Moved(p, s, t, r, b) && t.mem == s.mem && t.out == s.out
    requires Arrived(p, s.call(r), s.blocks(r, b)) == Arrived(p, s.call(r), t.blocks(r, b))
    requires Ep(p, s.call(r), s.blocks(r, b)) <= Ep(p, s.call(r), t.blocks(r, b))
    ensures Ranks(p, q, t)
  {
    PastStep(p, q, s, t);
    forall x, c, e, st | 0 <= x < p.w && 0 <= st <= 1 ensures Kept(p, q, t, x, c, e, st) {
      assert Kept(p, q, s, x, c, e, st);
      assert Reached(p, t, x, 2 * e + st) ==> Reached(p, s, x, 2 * e + st);
      assert Behind(p, t, x, e) ==> Behind(p, s, x, e);
    }
  }

  lemma LoadData(p: Prog, q: Spec, s: State, t: State, r: int, b: int)
    requires WellFormed(p) && Inv(p, s) && DataInv(p, q, s) && Goes(p, s, t, r, b) && s.blocks(r, b).pc.Load?
    ensures DataInv(p, q, t)
  {
    LoadReads(p, s, r, b);
    assert Shape1(p, s.call(r), s.blocks(r, b));
    assert Moved(p, s, t, r, b);
    DoneSame(p, q, s, t);
    assert Outputs(p, q, s, r, b);
    BlocksStep(p, q, s, t, r, b);
    RanksStep(p, q, s, t, r, b);
  }

  /** Inside a barrier, up to and including passing it, nothing is written. */
  lemma BarrierData(p: Prog, q: Spec, s: State, t: State, r: int, b: int)
    requires WellFormed(p) && Shape(p, s) && DataInv(p, q, s) && Moved(p, s, t, r, b) && t.mem == s.mem && t.out == s.out
    requires var k, l := s.blocks(r, b), t.blocks(r, b);
      && InBarrier(k.pc) && l.rnd == k.rnd && Arrived(p, s.call(r), k) == Arrived(p, s.call(r), l)
      && ((InBarrier(l.pc) && l.pc.ph == k.pc.ph)
          || (l.pc == Work(k.pc.ph + 1) && l.cur == Idle
              && l.todo == p.round(Ep(p, s.call(r), k)).items(r, b, k.pc.ph + 1)))
    ensures DataInv(p, q, t)
  {
    DoneSame(p, q, s, t);
    assert Outputs(p, q, s, r, b) && AtBarrier(p, q, s, r, b);
    BlocksStep(p, q, s, t, r, b);
    RanksStep(p, q, s, t, r, b);
  }

  /** A stage with nothing left to do is done. */
  lemma StageEnds(p: Prog, q: Spec, s: State, r: int, b: int)
    requires Stage(p, q, s, r, b) && s.blocks(r, b).pc.Work? && s.blocks(r, b).cur.Idle? && s.blocks(r, b).todo == {}
    ensures var st, e := s.blocks(r, b).pc.st, Ep(p, s.call(r), s.blocks(r, b));
      (st <= 1 ==> HostDone(p, q, s, e, r, b, st)) && OutDone(p, q, s, s.call(r), e, r, b, st)
  {
    var st, e := s.blocks(r, b).pc.st, Ep(p, s.call(r), s.blocks(r, b));
    forall it | it in p.round(e).items(r, b, st) ensures PutDown(s.blocks(r, b), it) {}
  }

  lemma EndStageOutputs(p: Prog, q: Spec, s: State, t: State, r: int, b: int)
    requires WellFormed(p) && Shape(p, s) && Outputs(p, q, s, r, b) && Stage(p, q, s, r, b) && Has(p, s.call(r), r, b)
    requires s.blocks(r, b).pc.Work? && s.blocks(r, b).cur.Idle? && s.blocks(r, b).todo == {}
    requires t == EndStage(p, s, r, b, s.blocks(r, b).pc.st)
    ensures Outputs(p, q, t, r, b)
  {
    var c, k := s.call(r), s.blocks(r, b);
    assert Shape1(p, c, k);
    StageEnds(p, q, s, r, b);
    DoneSame(p, q, s, t);
    forall e, st | Completed(p, c, t.blocks(r, b), e, st) ensures OutDone(p, q, t, c, e, r, b, st) {
      assert Completed(p, c, k, e, st) || (e == Ep(p, c, k) && st == k.pc.st);
    }
  }

  lemma EndStageData(p: Prog, q: Spec, s: State, t: State, r: int, b: int)
    requires WellFormed(p) && Shape(p, s) && DataInv(p, q, s) && Has(p, s.call(r), r, b)
    requires s.blocks(r, b).pc.Work? && s.blocks(r, b).cur.Idle? && s.blocks(r, b).todo == {} && p.m >= 2
    requires t == EndStage(p, s, r, b, s.blocks(r, b).pc.st)
    ensures DataInv(p, q, t)
  {
    assert Shape1(p, s.call(r), s.blocks(r, b)) && Outputs(p, q, s, r, b) && Stage(p, q, s, r, b);
    EpochInCall(p, s, r, b);
    StageEnds(p, q, s, r, b);
    EndStageOutputs(p, q, s, t, r, b);
    DoneSame(p, q, s, t);
    NextIsLocal(p, s, t, r, b);
    BlocksStep(p, q, s, t, r, b);
    RanksStep(p, q, s, t, r, b);
  }

  /** Picking an item up, loading, and putting an item down change only the block. */
  lemma HandData(p: Prog, q: Spec, s: State, t: State, r: int, b: int)
    requires Shape(p, s) && DataInv(p, q, s) && Moved(p, s, t, r, b) && t.mem == s.mem && t.out == s.out
    requires var k, l := s.blocks(r, b), t.blocks(r, b);
      k.pc.Work? && l == k.(todo := l.todo, cur := l.cur)
    requires InHand(p, q, t, r, b) && Stage(p, q, t, r, b)
    ensures DataInv(p, q, t)
  {
    DoneSame(p, q, s, t);
    assert Outputs(p, q, s, r, b);
    BlocksStep(p, q, s, t, r, b);
    RanksStep(p, q, s, t, r, b);
  }

  lemma PickData(p: Prog, q: Spec, s: State, t: State, r: int, b: int, it: Item)
    requires WellFormed(p) && Shape(p, s) && DataInv(p, q, s) && Enabled(p, s, Pick(r, b, it)) && t == Step(p, s, Pick(r, b, it))
    ensures DataInv(p, q, t)
  {
    assert Shape1(p, s.call(r), s.blocks(r, b)) && Stage(p, q, s, r, b);
    DoneSame(p, q, s, t);
    forall x | PutDown(t.blocks(r, b), x) ensures PutDown(s.blocks(r, b), x) {}
    HandData(p, q, s, t, r, b);
  }

  lemma PutDownData(p: Prog, q: Spec, s: State, t: State, r: int, b: int)
    requires WellFormed(p) && Shape(p, s) && DataInv(p, q, s) && Has(p, s.call(r), r, b)
    requires s.blocks(r, b).pc.Work? && s.blocks(r, b).cur.Busy?
    requires var k := s.blocks(r, b);
      k.cur.put == |TaskOf(p, s.call(r), r, k, k.pc.st, k.cur.item).stores| && t == SetBlock(s, r, b, k.(cur := Idle))
    ensures DataInv(p, q, t)
  {
    var k := s.blocks(r, b);
    assert Shape1(p, s.call(r), k) && Stage(p, q, s, r, b) && InHand(p, q, s, r, b);
    DoneSame(p, q, s, t);
    forall x | PutDown(t.blocks(r, b), x) ensures PutDown(k, x) || x == k.cur.item {}
    HandData(p, q, s, t, r, b);
  }

  // ---- loading ------------------------------------------------------------

  /** All of the loading block's peers have arrived at the barrier it passed, none is further
      than the next epoch. */
  lemma PeersNear(p: Prog, s: State, r: int, b: int, j: int)
    requires WellFormed(p) && Shape(p, s) && Sync(p, s) && Has(p, s.call(r), r, b) && 0 <= j < p.w
    requires s.blocks(r, b).pc == Work(1) || s.blocks(r, b).pc == Work(2)
    ensures var e, st := Ep(p, s.call(r), s.blocks(r, b)), s.blocks(r, b).pc.st;
      Reached(p, s, j, 2 * e + st - 1) && Behind(p, s, j, e)
  {
    var e, st := Ep(p, s.call(r), s.blocks(r, b)), s.blocks(r, b).pc.st;
    forall x | Has(p, s.call(j), j, x)
      ensures 2 * e + st - 1 <= Arrived(p, s.call(j), s.blocks(j, x)) && Ep(p, s.call(j), s.blocks(j, x)) <= e + 1
    {
      Near(p, s, r, b, j, x);
      Near(p, s, j, x, r, b);
      assert Shape1(p, s.call(j), s.blocks(j, x));
      EpochPositive(p, s, r, b);
    }
  }

  lemma PeersReady(p: Prog, q: Spec, s: State, r: int, b: int, j: int)
    requires WellFormed(p) && Shape(p, s) && Sync(p, s) && Ranks(p, q, s) && Has(p, s.call(r), r, b) && 0 <= j < p.w
    requires s.blocks(r, b).pc == Work(1) || s.blocks(r, b).pc == Work(2)
    ensures Ready(p, q, s, s.call(r), Ep(p, s.call(r), s.blocks(r, b)), j, s.blocks(r, b).pc.st - 1)
  {
    var c, k := s.call(r), s.blocks(r, b);
    assert Shape1(p, c, k);
    EpochInCall(p, s, r, b);
    PeersNear(p, s, r, b, j);
    assert Kept(p, q, s, j, c, Ep(p, c, k), k.pc.st - 1);
  }

  lemma ReadyHolds(p: Prog, q: Spec, s: State, c: int, e: int, st: int, loc: Loc)
    requires Ready(p, q, s, c, e, loc.rank, st) && Stored(p, c, e, st, loc) && 0 <= loc.rank < p.w
    ensures Holds(q, s, e, loc)
  {
    var b, it, k :| 0 <= b < p.grid(c, loc.rank) && it in p.round(e).items(loc.rank, b, st)
      && StoresAt(p.round(e).task(loc.rank, st, it), k, loc);
    assert HostDone(p, q, s, e, loc.rank, b, st);
  }

  lemma LegalItem(p: Prog, q: Spec, s: State, r: int, b: int)
    requires WellFormed(p) && Legal(p, q) && Shape(p, s) && InHand(p, q, s, r, b) && Has(p, s.call(r), r, b)
    requires s.blocks(r, b).pc.Work? && s.blocks(r, b).cur.Busy?
    ensures var c, k := s.call(r), s.blocks(r, b);
      LegalTask(p, q, c, Ep(p, c, k), r, k.pc.st, TaskOf(p, c, r, k, k.pc.st, k.cur.item))
  {
    EpochInCall(p, s, r, b);
    assert Shape1(p, s.call(r), s.blocks(r, b));
    assert LegalRound(p, q, s.call(r), Ep(p, s.call(r), s.blocks(r, b)));
  }

  /** The block is about to load the next cell its item in hand asks for. */
  ghost predicate Loading(p: Prog, s: State, r: int, b: int) {
    var k := s.blocks(r, b);
    && Has(p, s.call(r), r, b) && k.pc.Work? && k.cur.Busy?
    && |k.cur.got| < |TaskOf(p, s.call(r), r, k, k.pc.st, k.cur.item).loads|
  }

  function NextLoad(p: Prog, s: State, r: int, b: int): Loc
    requires Loading(p, s, r, b)
  {
    var k := s.blocks(r, b);
    TaskOf(p, s.call(r), r, k, k.pc.st, k.cur.item).loads[|k.cur.got|]
  }

  /** Every load of host memory finds the cell whole and yields the value of the block's own epoch. */
  lemma LoadYields(p: Prog, q: Spec, s: State, r: int, b: int)
    requires WellFormed(p) && Legal(p, q) && Inv(p, s) && DataInv(p, q, s) && Loading(p, s, r, b)
    ensures Holds(q, s, Ep(p, s.call(r), s.blocks(r, b)), NextLoad(p, s, r, b))
    ensures Word(s.blocks(r, b)) == Ep(p, s.call(r), s.blocks(r, b))
  {
    var loc := NextLoad(p, s, r, b);
    assert Shape1(p, s.call(r), s.blocks(r, b)) && InHand(p, q, s, r, b);
    LegalItem(p, q, s, r, b);
    PeersReady(p, q, s, r, b, loc.rank);
    ReadyHolds(p, q, s, s.call(r), Ep(p, s.call(r), s.blocks(r, b)), s.blocks(r, b).pc.st - 1, loc);
  }

  lemma LoadStep(p: Prog, q: Spec, s: State, t: State, r: int, b: int)
    requires WellFormed(p) && Legal(p, q) && Inv(p, s) && DataInv(p, q, s) && Has(p, s.call(r), r, b)
    requires Loading(p, s, r, b) && t == WorkStep(p, s, r, b, s.blocks(r, b).pc.st)
    ensures DataInv(p, q, t)
  {
    var c, k := s.call(r), s.blocks(r, b);
    var loads := TaskOf(p, c, r, k, k.pc.st, k.cur.item).loads;
    LoadYields(p, q, s, r, b);
    assert Shape1(p, c, k) && InHand(p, q, s, r, b) && Stage(p, q, s, r, b);
    DoneSame(p, q, s, t);
    assert t.blocks(r, b).cur.got == Wanted(q, Ep(p, c, k), loads)[..|k.cur.got| + 1];
    forall x | PutDown(t.blocks(r, b), x) ensures PutDown(k, x) {}
    HandData(p, q, s, t, r, b);
  }

  // ---- storing to the output ----------------------------------------------

  /** The block is about to make the next store of its item in hand. */
  ghost predicate Storing(p: Prog, s: State, r: int, b: int) {
    var k := s.blocks(r, b);
    && Has(p, s.call(r), r, b) && k.pc.Work? && k.cur.Busy?
    && var t := TaskOf(p, s.call(r), r, k, k.pc.st, k.cur.item);
    |k.cur.got| == |t.loads| && k.cur.put < |t.stores|
  }

  function NextStore(p: Prog, s: State, r: int, b: int): Store
    requires Storing(p, s, r, b)
  {
    var k := s.blocks(r, b);
    TaskOf(p, s.call(r), r, k, k.pc.st, k.cur.item).stores[k.cur.put]
  }

  function Stepped(k: Block): Block
    requires k.cur.Busy?
  {
    k.(cur := k.cur.(put := k.cur.put + 1))
  }

  /** What is loaded when an item starts to store is what was wanted. */
  lemma StoresWanted(p: Prog, q: Spec, s: State, r: int, b: int)
    requires WellFormed(p) && Legal(p, q) && Shape(p, s) && InHand(p, q, s, r, b) && Storing(p, s, r, b)
    ensures LegalStore(q, s.call(r), Ep(p, s.call(r), s.blocks(r, b)), r, s.blocks(r, b).pc.st, NextStore(p, s, r, b), s.blocks(r, b).cur.got)
  {
    var c, k := s.call(r), s.blocks(r, b);
    LegalItem(p, q, s, r, b);
    var t := TaskOf(p, c, r, k, k.pc.st, k.cur.item);
    assert k.cur.got == Wanted(q, Ep(p, c, k), t.loads);
    assert LegalStore(q, c, Ep(p, c, k), r, k.pc.st, t.stores[k.cur.put], Wanted(q, Ep(p, c, k), t.loads));
  }

  /** An output store of the value the specification gives spoils nothing. */
  ghost predicate OutStores(p: Prog, q: Spec, s: State, t: State, r: int, b: int) {
    && Storing(p, s, r, b) && NextStore(p, s, r, b).Out?
    && t == SetBlock(s, r, b, Stepped(s.blocks(r, b))).(
         out := Set3(s.out, s.call(r), r, NextStore(p, s, r, b).idx, Full(q.out(s.call(r), r, NextStore(p, s, r, b).idx))))
  }

  lemma OutKept(p: Prog, q: Spec, s: State, t: State, r: int, b: int)
    requires OutStores(p, q, s, t, r, b)
    ensures forall e, x, y, st :: HostDone(p, q, s, e, x, y, st) ==> HostDone(p, q, t, e, x, y, st)
    ensures forall c, e, x, y, st :: OutDone(p, q, s, c, e, x, y, st) ==> OutDone(p, q, t, c, e, x, y, st)
    ensures forall e, k, n :: EffectHost(q, s, e, k, n) ==> EffectHost(q, t, e, k, n)
    ensures forall c, x, k, n :: EffectOut(q, s, c, x, k, n) ==> EffectOut(q, t, c, x, k, n)
  {}

  lemma OutBlocks(p: Prog, q: Spec, s: State, t: State, r: int, b: int)
    requires Blocks(p, q, s) && OutStores(p, q, s, t, r, b)
    ensures Blocks(p, q, t)
  {
    OutKept(p, q, s, t, r, b);
    forall x, y | Has(p, t.call(x), x, y)
      ensures InHand(p, q, t, x, y) && Stage(p, q, t, x, y) && AtBarrier(p, q, t, x, y) && Outputs(p, q, t, x, y)
    {
      assert InHand(p, q, s, x, y) && Stage(p, q, s, x, y) && AtBarrier(p, q, s, x, y) && Outputs(p, q, s, x, y);
      if x == r && y == b {
        var k := s.blocks(r, b);
        forall it | PutDown(t.blocks(r, b), it) ensures PutDown(k, it) {}
      }
    }
  }

  lemma OutRanks(p: Prog, q: Spec, s: State, t: State, r: int, b: int)
    requires Ranks(p, q, s) && OutStores(p, q, s, t, r, b)
    ensures Ranks(p, q, t)
  {
    OutKept(p, q, s, t, r, b);
    forall x, c, e, st | 0 <= x < p.w && 0 <= st <= 1 ensures Kept(p, q, t, x, c, e, st) {
      assert Kept(p, q, s, x, c, e, st);
      assert Reached(p, t, x, 2 * e + st) ==> Reached(p, s, x, 2 * e + st);
      assert Behind(p, t, x, e) ==> Behind(p, s, x, e);
      assert Ready(p, q, s, c, e, x, st) ==> Ready(p, q, t, c, e, x, st);
    }
    forall x, c | 0 <= x < p.w && 0 <= c < t.call(x) ensures Past(p, q, t, x, c) { assert Past(p, q, s, x, c); }
  }

  // ---- storing to host memory ---------------------------------------------

  ghost predicate HostStores(p: Prog, q: Spec, s: State, t: State, r: int, b: int) {
    && Storing(p, s, r, b) && NextStore(p, s, r, b).Host?
    && var e, loc := Ep(p, s.call(r), s.blocks(r, b)), NextStore(p, s, r, b).loc;
    && loc.rank == r && s.blocks(r, b).pc.st <= 1 && loc.region == RegionOf(s.blocks(r, b).pc.st)
    && t == SetBlock(s, r, b, Stepped(s.blocks(r, b))).(mem := Write(s.mem, Addr(Par(e), loc), q.host(e, loc)))
  }

  /** Location m of epoch f is out of reach of a store to loc in epoch e. */
  ghost predicate Apart(e: int, loc: Loc, f: int, m: Loc) {
    Par(e) != Par(f) || m.rank != loc.rank || m.region != loc.region || (e == f && Disjoint(m, loc))
  }

  lemma HoldsKept(p: Prog, q: Spec, s: State, t: State, r: int, b: int, f: int, m: Loc)
    requires HostStores(p, q, s, t, r, b) && Holds(q, s, f, m)
    requires Apart(Ep(p, s.call(r), s.blocks(r, b)), NextStore(p, s, r, b).loc, f, m)
    ensures Holds(q, t, f, m)
  {}

  /** Two epochs of one stage of one rank, both live, are the same or of different parity. */
  predicate Near2(e: int, f: int) { e - 1 <= f <= e + 1 }

  /** Two stores of one stage of one epoch are to the same location or do not overlap. */
  lemma StoresDisjoint(p: Prog, q: Spec, s: State, t: State, r: int, b: int, y: int, it: Item, k: int)
    requires WellFormed(p) && Legal(p, q) && Shape(p, s) && HostStores(p, q, s, t, r, b) && InHand(p, q, s, r, b)
    requires var e, st := Ep(p, s.call(r), s.blocks(r, b)), s.blocks(r, b).pc.st;
      Has(p, s.call(r), r, y) && it in p.round(e).items(r, y, st) && 0 <= k < |p.round(e).task(r, st, it).stores|
      && p.round(e).task(r, st, it).stores[k].Host? && p.round(e).task(r, st, it).stores[k].loc.rank == r
    ensures var e, st := Ep(p, s.call(r), s.blocks(r, b)), s.blocks(r, b).pc.st;
      Disjoint(p.round(e).task(r, st, it).stores[k].loc, NextStore(p, s, r, b).loc)
  {
    var c, e, st := s.call(r), Ep(p, s.call(r), s.blocks(r, b)), s.blocks(r, b).pc.st;
    EpochInCall(p, s, r, b);
    assert LegalRound(p, q, c, e);
    var u, own := p.round(e).task(r, st, it), TaskOf(p, c, r, s.blocks(r, b), st, s.blocks(r, b).cur.item);
    assert StoresAt(u, k, u.stores[k].loc);
    assert Stored(p, c, e, st, u.stores[k].loc);
    assert StoresAt(own, s.blocks(r, b).cur.put, NextStore(p, s, r, b).loc);
    assert Stored(p, c, e, st, NextStore(p, s, r, b).loc);
  }

  /** What task u of rank x, stage st, epoch f has stored stays, if its slot is another one or its
      epoch is near. */
  lemma TaskKept(p: Prog, q: Spec, s: State, t: State, r: int, b: int, c: int, f: int, x: int, y: int, st: int, it: Item, n: int)
    requires WellFormed(p) && Legal(p, q) && Shape(p, s) && HostStores(p, q, s, t, r, b) && InHand(p, q, s, r, b)
    requires InCall(p, c, f) && Has(p, c, x, y) && 0 <= st <= 1 && it in p.round(f).items(x, y, st)
    requires EffectHost(q, s, f, p.round(f).task(x, st, it), n)
    requires x != r || st != s.blocks(r, b).pc.st || Par(f) != Par(Ep(p, s.call(r), s.blocks(r, b)))
      || (Near2(Ep(p, s.call(r), s.blocks(r, b)), f) && c == s.call(r))
    ensures EffectHost(q, t, f, p.round(f).task(x, st, it), n)
  {
    var e := Ep(p, s.call(r), s.blocks(r, b));
    var u := p.round(f).task(x, st, it);
    assert LegalRound(p, q, c, f);
    assert LegalTask(p, q, c, f, x, st, u);
    forall k | 0 <= k < n <= |u.stores| && u.stores[k].Host? ensures Holds(q, t, f, u.stores[k].loc) {
      assert LegalStore(q, c, f, x, st, u.stores[k], Wanted(q, f, u.loads));
      if x == r && st == s.blocks(r, b).pc.st && f == e { StoresDisjoint(p, q, s, t, r, b, y, it, k); }
      HoldsKept(p, q, s, t, r, b, f, u.stores[k].loc);
    }
  }

  /** A block of the storing block's rank that is in the same stage, or at the barrier after it,
      works for an epoch near its own. */
  lemma MatesNear(p: Prog, s: State, r: int, b: int, y: int)
    requires WellFormed(p) && Shape(p, s) && Sync(p, s) && Has(p, s.call(r), r, b) && Has(p, s.call(r), r, y)
    requires s.blocks(r, b).pc == Work(0) || s.blocks(r, b).pc == Work(1)
    requires var st, pc := s.blocks(r, b).pc.st, s.blocks(r, y).pc;
      pc == Work(st) || ((pc.Arr? || InBarrier(pc)) && pc.ph == st)
    ensures Near2(Ep(p, s.call(r), s.blocks(r, b)), Ep(p, s.call(r), s.blocks(r, y)))
  {
    Near(p, s, r, b, r, y);
    Near(p, s, r, y, r, b);
    EpochPositive(p, s, r, b);
    EpochPositive(p, s, r, y);
  }

  lemma OutSame(q: Spec, p: Prog, s: State, t: State)
    requires t.out == s.out
    ensures forall c, e, x, y, st :: OutDone(p, q, s, c, e, x, y, st) ==> OutDone(p, q, t, c, e, x, y, st)
    ensures forall c, x, k, n :: EffectOut(q, s, c, x, k, n) ==> EffectOut(q, t, c, x, k, n)
  {}

  lemma HostStage(p: Prog, q: Spec, s: State, t: State, r: int, b: int, x: int, y: int)
    requires WellFormed(p) && Legal(p, q) && Shape(p, s) && Sync(p, s) && HostStores(p, q, s, t, r, b) && InHand(p, q, s, r, b)
    requires Has(p, s.call(x), x, y) && Stage(p, q, s, x, y)
    ensures Stage(p, q, t, x, y)
  {
    var k := s.blocks(x, y);
    if k.pc.Work? {
      OutSame(q, p, s, t);
      assert Shape1(p, s.call(x), k) && Shape1(p, s.call(r), s.blocks(r, b));
      EpochInCall(p, s, x, y);
      if x == r && k.pc == s.blocks(r, b).pc { MatesNear(p, s, r, b, y); }
      forall it | it in p.round(Ep(p, s.call(x), k)).items(x, y, k.pc.st) && PutDown(t.blocks(x, y), it)
        ensures var u := p.round(Ep(p, s.call(x), k)).task(x, k.pc.st, it);
          (k.pc.st <= 1 ==> EffectHost(q, t, Ep(p, s.call(x), k), u, |u.stores|)) && EffectOut(q, t, s.call(x), x, u, |u.stores|)
      {
        assert PutDown(k, it);
        var u := p.round(Ep(p, s.call(x), k)).task(x, k.pc.st, it);
        if k.pc.st <= 1 { TaskKept(p, q, s, t, r, b, s.call(x), Ep(p, s.call(x), k), x, y, k.pc.st, it, |u.stores|); }
      }
    }
  }

  /** The stores already made by the item in hand of any block stay. */
  lemma HandKept(p: Prog, q: Spec, s: State, t: State, r: int, b: int, x: int, y: int)
    requires WellFormed(p) && Legal(p, q) && Shape(p, s) && Sync(p, s) && HostStores(p, q, s, t, r, b) && InHand(p, q, s, r, b)
    requires Has(p, s.call(x), x, y) && InHand(p, q, s, x, y)
    requires s.blocks(x, y).pc.Work? && s.blocks(x, y).cur.Busy? && s.blocks(x, y).pc.st <= 1
    ensures var k := s.blocks(x, y);
      EffectHost(q, t, Ep(p, s.call(x), k), TaskOf(p, s.call(x), x, k, k.pc.st, k.cur.item), k.cur.put)
  {
    var k := s.blocks(x, y);
    assert Shape1(p, s.call(x), k) && Shape1(p, s.call(r), s.blocks(r, b));
    EpochInCall(p, s, x, y);
    if x == r && k.pc == s.blocks(r, b).pc { MatesNear(p, s, r, b, y); }
    TaskKept(p, q, s, t, r, b, s.call(x), Ep(p, s.call(x), k), x, y, k.pc.st, k.cur.item, k.cur.put);
  }

  lemma HostHand(p: Prog, q: Spec, s: State, t: State, r: int, b: int, x: int, y: int)
    requires WellFormed(p) && Legal(p, q) && Shape(p, s) && Sync(p, s) && HostStores(p, q, s, t, r, b) && InHand(p, q, s, r, b)
    requires Has(p, s.call(x), x, y) && InHand(p, q, s, x, y)
    ensures InHand(p, q, t, x, y)
  {
    var k := s.blocks(x, y);
    if k.pc.Work? && k.cur.Busy? {
      OutSame(q, p, s, t);
      if k.pc.st <= 1 { HandKept(p, q, s, t, r, b, x, y); }
      if x == r && y == b {
        var e, u := Ep(p, s.call(x), k), TaskOf(p, s.call(x), x, k, k.pc.st, k.cur.item);
        assert Holds(q, t, e, NextStore(p, s, r, b).loc);
        assert EffectHost(q, t, e, u, k.cur.put + 1);
      }
    }
  }

  lemma HostBarrier(p: Prog, q: Spec, s: State, t: State, r: int, b: int, x: int, y: int)
    requires WellFormed(p) && Legal(p, q) && Shape(p, s) && Sync(p, s) && HostStores(p, q, s, t, r, b) && InHand(p, q, s, r, b)
    requires Has(p, s.call(x), x, y) && AtBarrier(p, q, s, x, y)
    ensures AtBarrier(p, q, t, x, y)
  {
    var k := s.blocks(x, y);
    if k.pc.Arr? || InBarrier(k.pc) {
      assert Shape1(p, s.call(x), k) && Shape1(p, s.call(r), s.blocks(r, b));
      EpochInCall(p, s, x, y);
      if x == r && k.pc.ph == s.blocks(r, b).pc.st { MatesNear(p, s, r, b, y); }
      forall it | it in p.round(Ep(p, s.call(x), k)).items(x, y, k.pc.ph)
        ensures var u := p.round(Ep(p, s.call(x), k)).task(x, k.pc.ph, it); EffectHost(q, t, Ep(p, s.call(x), k), u, |u.stores|)
      {
        var u := p.round(Ep(p, s.call(x), k)).task(x, k.pc.ph, it);
        TaskKept(p, q, s, t, r, b, s.call(x), Ep(p, s.call(x), k), x, y, k.pc.ph, it, |u.stores|);
      }
    }
  }

  lemma HostBlocks(p: Prog, q: Spec, s: State, t: State, r: int, b: int)
    requires WellFormed(p) && Legal(p, q) && Shape(p, s) && Sync(p, s) && HostStores(p, q, s, t, r, b) && Blocks(p, q, s)
    ensures Blocks(p, q, t)
  {
    OutSame(q, p, s, t);
    forall x, y | Has(p, t.call(x), x, y)
      ensures InHand(p, q, t, x, y) && Stage(p, q, t, x, y) && AtBarrier(p, q, t, x, y) && Outputs(p, q, t, x, y)
    {
      assert Outputs(p, q, s, x, y);
      HostHand(p, q, s, t, r, b, x, y);
      HostStage(p, q, s, t, r, b, x, y);
      HostBarrier(p, q, s, t, r, b, x, y);
    }
  }

  /** An epoch whose stores the rank keeps is the one before the storing block's: other parity. */
  lemma KeptOther(p: Prog, s: State, r: int, b: int, f: int)
    requires WellFormed(p) && Shape(p, s) && Has(p, s.call(r), r, b) && f >= 1
    requires s.blocks(r, b).pc == Work(0) || s.blocks(r, b).pc == Work(1)
    requires Reached(p, s, r, 2 * f + s.blocks(r, b).pc.st) && Behind(p, s, r, f)
    ensures f == Ep(p, s.call(r), s.blocks(r, b)) - 1
  {
    EpochPositive(p, s, r, b);
    assert 2 * f + s.blocks(r, b).pc.st <= Arrived(p, s.call(r), s.blocks(r, b));
  }

  lemma ReadyKept(p: Prog, q: Spec, s: State, t: State, r: int, b: int, x: int, c: int, f: int, st: int)
    requires WellFormed(p) && Legal(p, q) && Shape(p, s) && HostStores(p, q, s, t, r, b) && InHand(p, q, s, r, b)
    requires InCall(p, c, f) && 0 <= x < p.w && 0 <= st <= 1 && Ready(p, q, s, c, f, x, st)
    requires x != r || st != s.blocks(r, b).pc.st || Par(f) != Par(Ep(p, s.call(r), s.blocks(r, b)))
    ensures Ready(p, q, t, c, f, x, st)
  {
    forall y, it | Has(p, c, x, y) && it in p.round(f).items(x, y, st)
      ensures var u := p.round(f).task(x, st, it); EffectHost(q, t, f, u, |u.stores|)
    {
      assert HostDone(p, q, s, f, x, y, st);
      TaskKept(p, q, s, t, r, b, c, f, x, y, st, it, |p.round(f).task(x, st, it).stores|);
    }
  }

  lemma HostStands(p: Prog, q: Spec, s: State, t: State, r: int, b: int, x: int, n: int, f: int)
    requires HostStores(p, q, s, t, r, b) && Reached(p, t, x, n) && Behind(p, t, x, f)
    ensures Reached(p, s, x, n) && Behind(p, s, x, f)
  {
    assert Arrived(p, s.call(r), t.blocks(r, b)) == Arrived(p, s.call(r), s.blocks(r, b));
  }

  lemma HostKept(p: Prog, q: Spec, s: State, t: State, r: int, b: int, x: int, c: int, f: int, st: int)
    requires WellFormed(p) && Legal(p, q) && Shape(p, s) && Sync(p, s) && HostStores(p, q, s, t, r, b) && InHand(p, q, s, r, b)
    requires 0 <= x < p.w && 0 <= st <= 1 && Kept(p, q, s, x, c, f, st)
    ensures Kept(p, q, t, x, c, f, st)
  {
    assert Shape1(p, s.call(r), s.blocks(r, b));
    if InCall(p, c, f) && Used(p, f, st) && Reached(p, t, x, 2 * f + st) && Behind(p, t, x, f) {
      HostStands(p, q, s, t, r, b, x, 2 * f + st, f);
      if x == r && st == s.blocks(r, b).pc.st { KeptOther(p, s, r, b, f); }
      ReadyKept(p, q, s, t, r, b, x, c, f, st);
    }
  }

  lemma HostRanks(p: Prog, q: Spec, s: State, t: State, r: int, b: int)
    requires WellFormed(p) && Legal(p, q) && Shape(p, s) && Sync(p, s) && HostStores(p, q, s, t, r, b) && InHand(p, q, s, r, b)
    requires Ranks(p, q, s)
    ensures Ranks(p, q, t)
  {
    OutSame(q, p, s, t);
    forall x, c, f, st | 0 <= x < p.w && 0 <= st <= 1 ensures Kept(p, q, t, x, c, f, st) {
      HostKept(p, q, s, t, r, b, x, c, f, st);
    }
    forall x, c | 0 <= x < p.w && 0 <= c < t.call(x) ensures Past(p, q, t, x, c) { assert Past(p, q, s, x, c); }
  }

  lemma StoreData(p: Prog, q: Spec, s: State, t: State, r: int, b: int)
    requires WellFormed(p) && Legal(p, q) && Inv(p, s) && DataInv(p, q, s) && Storing(p, s, r, b)
    requires t == WorkStep(p, s, r, b, s.blocks(r, b).pc.st)
    ensures DataInv(p, q, t)
  {
    assert Shape1(p, s.call(r), s.blocks(r, b)) && InHand(p, q, s, r, b);
    StoresWanted(p, q, s, r, b);
    match NextStore(p, s, r, b)
    case Host(loc, f) =>
      assert HostStores(p, q, s, t, r, b);
      HostBlocks(p, q, s, t, r, b);
      HostRanks(p, q, s, t, r, b);
    case Out(idx, f) =>
      assert OutStores(p, q, s, t, r, b);
      OutBlocks(p, q, s, t, r, b);
      OutRanks(p, q, s, t, r, b);
  }

  // ---- arriving -----------------------------------------------------------

  lemma {:induction false} CallUnique(p: Prog, c: int, d: int, e: int)
    requires WellFormed(p) && InCall(p, c, e) && InCall(p, d, e)
    ensures c == d
  {
    if c < d { EndMonotone(p, c + 1, d); } else if d < c { EndMonotone(p, d + 1, c); }
  }

  /** When the last block arrives, every block of the rank stands at this barrier, its stores done. */
  lemma ArriveReady(p: Prog, q: Spec, s: State, t: State, r: int, b: int)
    requires WellFormed(p) && Shape(p, s) && Sync(p, s) && Blocks(p, q, s) && Has(p, s.call(r), r, b) && s.blocks(r, b).pc.Arr?
    requires Moved(p, s, t, r, b) && Reached(p, t, r, 2 * Ep(p, s.call(r), s.blocks(r, b)) + s.blocks(r, b).pc.ph)
    ensures Ready(p, q, s, s.call(r), Ep(p, s.call(r), s.blocks(r, b)), r, s.blocks(r, b).pc.ph)
  {
    var c, k := s.call(r), s.blocks(r, b);
    var e, ph := Ep(p, c, k), k.pc.ph;
    assert Shape1(p, c, k);
    forall y | Has(p, c, r, y) ensures HostDone(p, q, s, e, r, y, ph) {
      assert AtBarrier(p, q, s, r, y);
      if y != b {
        Near(p, s, r, y, r, b);
        assert Shape1(p, c, s.blocks(r, y));
        EpochPositive(p, s, r, y);
        EpochPositive(p, s, r, b);
        assert 2 * e + ph <= Arrived(p, c, t.blocks(r, y));
      }
    }
  }

  lemma ArriveKept(p: Prog, q: Spec, s: State, t: State, r: int, b: int, x: int, c: int, f: int, st: int)
    requires WellFormed(p) && Shape(p, s) && Sync(p, s) && DataInv(p, q, s) && Goes(p, s, t, r, b) && s.blocks(r, b).pc.Arr?
    requires Moved(p, s, t, r, b) && 0 <= x < p.w && 0 <= st <= 1
    ensures Kept(p, q, t, x, c, f, st)
  {
    var k := s.blocks(r, b);
    assert Kept(p, q, s, x, c, f, st) && Shape1(p, s.call(r), k);
    EpochInCall(p, s, r, b);
    PastStep(p, q, s, t);
    if InCall(p, c, f) && Used(p, f, st) && Reached(p, t, x, 2 * f + st) && Behind(p, t, x, f) {
      assert Behind(p, s, x, f);
      if x == r && f == Ep(p, s.call(r), k) && st == k.pc.ph {
        CallUnique(p, c, s.call(r), f);
        ArriveReady(p, q, s, t, r, b);
      } else {
        assert Reached(p, s, x, 2 * f + st) by {
          if x == r {
            assert 2 * f + st <= Arrived(p, s.call(r), t.blocks(r, b));
            ArrivedBefore(p, s.call(r), k, f, st);
          }
        }
      }
    }
  }

  /** A used barrier other than (e, ph) and not past it is at or before the last one passed. */
  lemma ArrivedBefore(p: Prog, c: int, k: Block, f: int, st: int)
    requires Shape1(p, c, k) && k.pc.Arr? && Used(p, f, st) && 0 <= st <= 1 && Ep(p, c, k) >= 1
    requires 2 * f + st < 2 * Ep(p, c, k) + k.pc.ph
    ensures 2 * f + st <= Arrived(p, c, k)
  {}

  lemma ArriveData(p: Prog, q: Spec, s: State, t: State, r: int, b: int)
    requires WellFormed(p) && Inv(p, s) && DataInv(p, q, s) && Goes(p, s, t, r, b) && s.blocks(r, b).pc.Arr?
    ensures DataInv(p, q, t)
  {
    ArriveMoves(p, s, t, r, b);
    assert Outputs(p, q, s, r, b) && AtBarrier(p, q, s, r, b);
    DoneSame(p, q, s, t);
    BlocksStep(p, q, s, t, r, b);
    PastStep(p, q, s, t);
    forall x, c, f, st | 0 <= x < p.w && 0 <= st <= 1 ensures Kept(p, q, t, x, c, f, st) {
      ArriveKept(p, q, s, t, r, b, x, c, f, st);
    }
  }

  // ---- launching ----------------------------------------------------------

  lemma LaunchPast(p: Prog, q: Spec, s: State, r: int)
    requires WellFormed(p) && Shape(p, s) && Blocks(p, q, s) && Enabled(p, s, Launch(r))
    ensures Past(p, q, s, r, s.call(r))
  {
    var c := s.call(r);
    forall e, b, st | InCall(p, c, e) && Has(p, c, r, b) && 0 <= st <= (if p.round(e).two then 2 else 1)
      ensures OutDone(p, q, s, c, e, r, b, st)
    {
      assert Shape1(p, c, s.blocks(r, b)) && Outputs(p, q, s, r, b);
      assert Completed(p, c, s.blocks(r, b), e, st);
    }
  }

  lemma LaunchOther(p: Prog, s: State, t: State, r: int, x: int, n: int, f: int)
    requires p.m >= 2 && t == Step(p, s, Launch(r)) && x != r
    ensures Reached(p, t, x, n) == Reached(p, s, x, n) && Behind(p, t, x, f) == Behind(p, s, x, f)
  {
    assert t.call(x) == s.call(x) && forall b :: t.blocks(x, b) == s.blocks(x, b);
  }

  lemma LaunchOwn(p: Prog, s: State, t: State, r: int, n: int, f: int)
    requires WellFormed(p) && Shape(p, s) && Enabled(p, s, Launch(r)) && t == Step(p, s, Launch(r))
    requires Reached(p, t, r, n) && Behind(p, t, r, f)
    ensures Reached(p, s, r, n) && Behind(p, s, r, f)
  {
    LaunchStands(p, s, t, r);
    assert Has(p, t.call(r), r, 0);
    forall b | Has(p, s.call(r), r, b)
      ensures n <= Arrived(p, s.call(r), s.blocks(r, b)) && Ep(p, s.call(r), s.blocks(r, b)) <= f + 1
    {
      DoneStands(p, s.call(r), s.blocks(r, b));
      assert Ep(p, t.call(r), t.blocks(r, 0)) <= f + 1;
    }
  }

  lemma LaunchKept(p: Prog, q: Spec, s: State, t: State, r: int, x: int, c: int, f: int, st: int)
    requires WellFormed(p) && Shape(p, s) && Enabled(p, s, Launch(r)) && t == Step(p, s, Launch(r))
    requires 0 <= x < p.w && 0 <= st <= 1 && Kept(p, q, s, x, c, f, st)
    ensures Kept(p, q, t, x, c, f, st)
  {
    PastStep(p, q, s, t);
    if Reached(p, t, x, 2 * f + st) && Behind(p, t, x, f) {
      if x == r { LaunchOwn(p, s, t, r, 2 * f + st, f); } else { LaunchOther(p, s, t, r, x, 2 * f + st, f); }
    }
  }

  lemma LaunchBlocks(p: Prog, q: Spec, s: State, t: State, r: int)
    requires p.m >= 2 && Blocks(p, q, s) && Enabled(p, s, Launch(r)) && t == Step(p, s, Launch(r))
    ensures Blocks(p, q, t)
  {
    forall x, y | Has(p, t.call(x), x, y)
      ensures InHand(p, q, t, x, y) && Stage(p, q, t, x, y) && AtBarrier(p, q, t, x, y) && Outputs(p, q, t, x, y)
    {
      if x != r { FrameRank(p, q, s, t, x, y); }
    }
  }

  lemma FrameRank(p: Prog, q: Spec, s: State, t: State, x: int, y: int)
    requires Blocks(p, q, s) && Has(p, s.call(x), x, y) && t.mem == s.mem && t.out == s.out
    requires t.call(x) == s.call(x) && t.blocks(x, y) == s.blocks(x, y)
    ensures InHand(p, q, t, x, y) && Stage(p, q, t, x, y) && AtBarrier(p, q, t, x, y) && Outputs(p, q, t, x, y)
  {
    DoneSame(p, q, s, t);
    assert InHand(p, q, s, x, y) && Stage(p, q, s, x, y) && AtBarrier(p, q, s, x, y) && Outputs(p, q, s, x, y);
  }

  lemma LaunchData(p: Prog, q: Spec, s: State, t: State, r: int)
    requires WellFormed(p) && Inv(p, s) && DataInv(p, q, s) && Enabled(p, s, Launch(r)) && t == Step(p, s, Launch(r))
    ensures DataInv(p, q, t)
  {
    LaunchBlocks(p, q, s, t, r);
    LaunchPast(p, q, s, r);
    PastStep(p, q, s, t);
    forall x, c, f, st | 0 <= x < p.w && 0 <= st <= 1 ensures Kept(p, q, t, x, c, f, st) {
      LaunchKept(p, q, s, t, r, x, c, f, st);
    }
    forall x, c | 0 <= x < p.w && 0 <= c < t.call(x) ensures Past(p, q, t, x, c) {
      if x == r && c == s.call(r) {} else { assert Past(p, q, s, x, c); }
    }
  }

  // ---- every step ---------------------------------------------------------

  lemma WorkData(p: Prog, q: Spec, s: State, t: State, r: int, b: int)
    requires WellFormed(p) && Legal(p, q) && Inv(p, s) && DataInv(p, q, s) && Enabled(p, s, Go(r, b))
    requires s.blocks(r, b).pc.Work? && t == GoStep(p, s, r, b)
    ensures DataInv(p, q, t)
  {
    var k := s.blocks(r, b);
    if k.cur.Idle? {
      EndStageData(p, q, s, t, r, b);
    } else {
      assert InHand(p, q, s, r, b);
      var u := TaskOf(p, s.call(r), r, k, k.pc.st, k.cur.item);
      if |k.cur.got| < |u.loads| {
        LoadStep(p, q, s, t, r, b);
      } else if k.cur.put < |u.stores| {
        StoreData(p, q, s, t, r, b);
      } else {
        PutDownData(p, q, s, t, r, b);
      }
    }
  }

  lemma PassData(p: Prog, q: Spec, s: State, t: State, r: int, b: int)
    requires WellFormed(p) && NoStale(p) && Inv(p, s) && DataInv(p, q, s) && Goes(p, s, t, r, b)
    requires s.blocks(r, b).pc.Rel? || (s.blocks(r, b).pc.Wait? && Same(p, s.go(r, s.blocks(r, b).pc.ph), Word(s.blocks(r, b))))
    ensures DataInv(p, q, t)
  {
    if s.blocks(r, b).pc.Rel? { ReleasePasses(p, s, t, r, b); } else { WaitPasses(p, s, t, r, b); }
    PassMoves(p, s, t, r, b);
    assert Shape1(p, s.call(r), s.blocks(r, b));
    BarrierData(p, q, s, t, r, b);
  }

  lemma LeaderMoves(p: Prog, s: State, t: State, r: int, b: int)
    requires WellFormed(p) && Shape(p, s) && Sync(p, s) && Goes(p, s, t, r, b)
    requires Leads(s.blocks(r, b).pc) && !s.blocks(r, b).pc.Rel?
    ensures Moved(p, s, t, r, b) && t.mem == s.mem && t.out == s.out && t.blocks(r, b).rnd == s.blocks(r, b).rnd
    ensures InBarrier(t.blocks(r, b).pc) && t.blocks(r, b).pc.ph == s.blocks(r, b).pc.ph
  {
    assert Shape1(p, s.call(r), s.blocks(r, b));
  }

  lemma LeaderData(p: Prog, q: Spec, s: State, t: State, r: int, b: int)
    requires WellFormed(p) && Inv(p, s) && DataInv(p, q, s) && Goes(p, s, t, r, b)
    requires Leads(s.blocks(r, b).pc) && !s.blocks(r, b).pc.Rel?
    ensures DataInv(p, q, t)
  {
    LeaderMoves(p, s, t, r, b);
    BarrierData(p, q, s, t, r, b);
  }

  lemma GoData(p: Prog, q: Spec, s: State, t: State, r: int, b: int)
    requires WellFormed(p) && NoStale(p) && Legal(p, q) && Inv(p, s) && DataInv(p, q, s)
    requires Enabled(p, s, Go(r, b)) && t == GoStep(p, s, r, b)
    ensures DataInv(p, q, t)
  {
    match s.blocks(r, b).pc
    case Load => LoadData(p, q, s, t, r, b);
    case Work(st) => WorkData(p, q, s, t, r, b);
    case Arr(ph) => ArriveData(p, q, s, t, r, b);
    case Rel(ph) => PassData(p, q, s, t, r, b);
    case Wait(ph) => if Same(p, s.go(r, ph), Word(s.blocks(r, b))) { PassData(p, q, s, t, r, b); }
    case _ => LeaderData(p, q, s, t, r, b);
  }

  lemma StepData(p: Prog, q: Spec, s: State, a: Action)
    requires WellFormed(p) && NoStale(p) && Legal(p, q) && Inv(p, s) && DataInv(p, q, s) && Enabled(p, s, a)
    ensures DataInv(p, q, Step(p, s, a))
  {
    match a
    case Launch(r) => LaunchData(p, q, s, Step(p, s, a), r);
    case Pick(r, b, it) => PickData(p, q, s, Step(p, s, a), r, b, it);
    case Go(r, b) => GoData(p, q, s, Step(p, s, a), r, b);
  }

  lemma InitData(p: Prog, q: Spec)
    requires WellFormed(p)
    ensures DataInv(p, q, Init())
  {
    forall r, c, e, st | 0 <= r < p.w && 0 <= st <= 1 ensures Kept(p, q, Init(), r, c, e, st) {
      if InCall(p, c, e) {
        StartNonNegative(p, c);
        assert Has(p, 0, r, 0) && Arrived(p, 0, Init().blocks(r, 0)) == 0;
      }
    }
  }

  /** Every reachable state keeps both invariants. */
  lemma {:induction false} RunData(p: Prog, q: Spec, acts: seq<Action>)
    requires WellFormed(p) && NoStale(p) && Legal(p, q) && Run(p, acts)
    ensures Inv(p, After(p, acts)) && DataInv(p, q, After(p, acts))
  {
    if acts == [] {
      InitInv(p);
      InitData(p, q);
    } else {
      var before := After(p, acts[..|acts| - 1]);
      RunData(p, q, acts[..|acts| - 1]);
      StepKeeps(p, before, acts[|acts| - 1]);
      StepData(p, q, before, acts[|acts| - 1]);
    }
  }
}
