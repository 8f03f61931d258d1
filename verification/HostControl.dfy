/** The barrier protocol: what every reachable state of the machine keeps, whatever the tasks do. */
module HostControl {
  import opened HostMachine

  /** Barrier (e, ph) has the number 2e + ph; this is the last barrier of epoch e (0 before any). */
  function Last(p: Prog, e: int): int {
    if e <= 0 then 0 else 2 * e + (if p.round(e).two then 1 else 0)
  }

  predicate InBarrier(pc: Pc) {
    pc.Zero? || pc.Bump? || pc.Pub? || pc.Poll? || pc.Rel? || pc.Wait?
  }

  /** The last arriver of a barrier, until it has released the others. */
  predicate Leads(pc: Pc) { InBarrier(pc) && !pc.Wait? }

  function Phase(pc: Pc): int
    requires InBarrier(pc)
  {
    pc.ph
  }

  /** The last barrier a block of launch c has passed. */
  function Passed(p: Prog, c: int, k: Block): int {
    var e := Ep(p, c, k);
    match k.pc
    case Load => Last(p, e - 1)
    case Work(st) => if st == 0 then Last(p, e - 1) else 2 * e + st - 1
    case Done => Last(p, e)
    case pc => if pc.ph == 0 then Last(p, e - 1) else 2 * e
  }

  /** The last barrier at which it has arrived. */
  function Arrived(p: Prog, c: int, k: Block): int {
    if InBarrier(k.pc) then 2 * Ep(p, c, k) + Phase(k.pc) else Passed(p, c, k)
  }

  /** Program counter and registers are in range and agree with the launch. */
  ghost predicate Shape1(p: Prog, c: int, k: Block) {
    var two := p.round(Ep(p, c, k)).two;
    && 0 <= k.rnd < Rounds(p, c)
    && (k.pc.Load? ==> k.rnd == 0)
    && (!k.pc.Load? ==> k.ctr0 == p.start(c))
    && (k.pc.Done? ==> k.rnd == Rounds(p, c) - 1)
    && (k.pc.Work? ==> 0 <= k.pc.st <= 2 && (k.pc.st == 2 ==> two))
    && (k.pc.Arr? || InBarrier(k.pc) ==> 0 <= k.pc.ph <= 1 && (k.pc.ph == 1 ==> two))
    && (k.pc.Poll? ==> 0 <= k.pc.j < p.w)
  }

  ghost predicate Shape(p: Prog, s: State) {
    && (forall r :: 0 <= r < p.w ==> 0 <= s.call(r) < p.calls)
    && (forall r, b :: Has(p, s.call(r), r, b) ==> Shape1(p, s.call(r), s.blocks(r, b)))
  }

  /** Nobody passes a barrier some rank has not published, and no rank publishes a barrier one of
      its own blocks has not reached: so any two blocks are at most one barrier apart. */
  ghost predicate Sync(p: Prog, s: State) {
    && (forall r, b, j :: Has(p, s.call(r), r, b) && 0 <= j < p.w ==> Passed(p, s.call(r), s.blocks(r, b)) <= s.pub(j))
    && (forall r, b :: Has(p, s.call(r), r, b) ==> s.pub(r) <= Arrived(p, s.call(r), s.blocks(r, b)))
  }

  /** Every block of rank r has arrived at barrier n. */
  ghost predicate Reached(p: Prog, s: State, r: int, n: int) {
    forall b :: Has(p, s.call(r), r, b) ==> n <= Arrived(p, s.call(r), s.blocks(r, b))
  }

  ghost predicate Lead1(p: Prog, s: State, r: int, k: Block) {
    Leads(k.pc) ==>
      var n := 2 * Ep(p, s.call(r), k) + k.pc.ph;
      && Reached(p, s, r, n)
      && (!k.pc.Zero? ==> s.shut(r, k.pc.ph) == Ep(p, s.call(r), k))
      && (k.pc.Poll? || k.pc.Rel? ==> s.pub(r) >= n)
      && (k.pc.Poll? ==> forall j :: 0 <= j < k.pc.j ==> s.pub(j) >= n)
      && (k.pc.Rel? ==> forall j :: 0 <= j < p.w ==> s.pub(j) >= n)
  }

  ghost predicate Lead(p: Prog, s: State) {
    forall r, b :: Has(p, s.call(r), r, b) ==> Lead1(p, s, r, s.blocks(r, b))
  }

  /** A block the arrive counter counts: in a barrier of phase ph not yet shut. */
  predicate Counted(p: Prog, c: int, k: Block, ph: int, shut: int) {
    (k.pc == Wait(ph) || k.pc == Zero(ph)) && Ep(p, c, k) > shut
  }

  function Open(p: Prog, s: State, r: int, ph: int): set<int> {
    set b | 0 <= b < p.grid(s.call(r), r) && Counted(p, s.call(r), s.blocks(r, b), ph, s.shut(r, ph))
  }

  ghost predicate Count(p: Prog, s: State) {
    forall r, ph :: 0 <= r < p.w && 0 <= ph <= 1 ==> s.arr(r, ph) == |Open(p, s, r, ph)| && s.go(r, ph) <= s.shut(r, ph)
  }

  /** The last arriver is alone in resetting a full counter of an open barrier. */
  ghost predicate Zeroing(p: Prog, s: State) {
    && (forall r, b :: Has(p, s.call(r), r, b) && s.blocks(r, b).pc.Zero? ==>
        var ph := s.blocks(r, b).pc.ph;
        s.arr(r, ph) == p.grid(s.call(r), r) && Ep(p, s.call(r), s.blocks(r, b)) > s.shut(r, ph))
    && (forall r, b, x ::
        Has(p, s.call(r), r, b) && Has(p, s.call(r), r, x) && s.blocks(r, b).pc.Zero? && s.blocks(r, x).pc == s.blocks(r, b).pc
        ==> x == b)
  }

  ghost predicate Words1(p: Prog, s: State, r: int, ph: int) {
    && (s.go(r, ph) == 0 || Used(p, s.go(r, ph), ph))
    && (s.go(r, ph) > 0 ==> forall j :: 0 <= j < p.w ==> s.pub(j) >= 2 * s.go(r, ph) + ph)
    && (s.shut(r, ph) > 0 ==> Reached(p, s, r, 2 * s.shut(r, ph) + ph))
    && (forall b, e :: Has(p, s.call(r), r, b) && Used(p, e, ph) && Passed(p, s.call(r), s.blocks(r, b)) >= 2 * e + ph
          ==> s.go(r, ph) >= e)
  }

  ghost predicate Flags1(p: Prog, s: State, r: int, ph: int) {
    && (forall par :: 0 <= par <= 1 ==>
        var f := s.flags(par, ph, r);
        f == 0 || (Used(p, f, ph) && Par(f) == par && 2 * f + ph <= s.pub(r)))
    && (forall e :: Used(p, e, ph) && 2 * e + ph <= s.pub(r) ==> s.flags(Par(e), ph, r) >= e)
  }

  ghost predicate Words(p: Prog, s: State) {
    forall r, ph :: 0 <= r < p.w && 0 <= ph <= 1 ==> Words1(p, s, r, ph)
  }

  ghost predicate Flags(p: Prog, s: State) {
    forall r, ph :: 0 <= r < p.w && 0 <= ph <= 1 ==> Flags1(p, s, r, ph)
  }

  /** The epoch counter is the launch's first or, from its last barrier on, the next launch's. */
  ghost predicate Counter1(p: Prog, s: State, r: int) {
    var c := s.call(r);
    var end := p.start(c + 1);
    && (s.ctr(r) == p.start(c) || s.ctr(r) == end)
    && (s.ctr(r) == end ==> Reached(p, s, r, Last(p, end)))
    && (s.pub(r) >= Last(p, end) ==> s.ctr(r) == end)
    && (forall b :: Has(p, c, r, b) && s.blocks(r, b).pc.Pub? && Final(p, c, s.blocks(r, b), s.blocks(r, b).pc.ph)
          ==> s.ctr(r) == end)
  }

  ghost predicate Counter(p: Prog, s: State) {
    forall r :: 0 <= r < p.w ==> Counter1(p, s, r)
  }

  ghost predicate Inv(p: Prog, s: State) {
    Shape(p, s) && Sync(p, s) && Lead(p, s) && Count(p, s) && Zeroing(p, s) && Words(p, s) && Flags(p, s) && Counter(p, s)
  }

  /** Phase ph is used in epoch e, and f is the last epoch before e, of e's parity, that a word of
      this phase can hold: one that used it, or 0, which the words start with. */
  ghost predicate Previous(p: Prog, f: int, e: int, ph: int) {
    && 0 <= f < e <= p.start(p.calls) && 0 <= ph <= 1 && Used(p, e, ph) && (f == 0 || Used(p, f, ph))
    && (forall x :: f < x < e && Par(x) == Par(e) ==> !Used(p, x, ph))
  }

  /** No word still holds, modulo m, the epoch that its pollers are about to wait for. */
  ghost predicate NoStale(p: Prog)
    requires p.m >= 2
  {
    forall e, f, ph :: Previous(p, f, e, ph) ==> !Same(p, f, e)
  }

  lemma {:induction false} StartNonNegative(p: Prog, c: int)
    requires WellFormed(p) && 0 <= c <= p.calls
    ensures p.start(c) >= 0
  {
    if c > 0 { StartNonNegative(p, c - 1); }
  }

  /** Any two blocks, of any ranks, are at most one barrier apart. */
  lemma Near(p: Prog, s: State, r: int, b: int, q: int, d: int)
    requires Sync(p, s) && Has(p, s.call(r), r, b) && Has(p, s.call(q), q, d)
    ensures Passed(p, s.call(r), s.blocks(r, b)) <= Arrived(p, s.call(q), s.blocks(q, d))
  {}

  lemma InitInv(p: Prog)
    requires WellFormed(p)
    ensures Inv(p, Init())
  {
    var s := Init();
    forall r, ph | 0 <= r < p.w && 0 <= ph <= 1 ensures s.arr(r, ph) == |Open(p, s, r, ph)| {
      assert Open(p, s, r, ph) == {};
    }
  }

  lemma {:induction false} EndMonotone(p: Prog, c: int, d: int)
    requires WellFormed(p) && 0 <= c <= d <= p.calls
    ensures p.start(c) <= p.start(d)
    decreases d - c
  {
    if c < d { EndMonotone(p, c + 1, d); }
  }

  /** Positivity and order facts about the epoch of a block. */
  lemma EpochPositive(p: Prog, s: State, r: int, b: int)
    requires WellFormed(p) && Shape(p, s) && Has(p, s.call(r), r, b)
    ensures 1 <= Ep(p, s.call(r), s.blocks(r, b)) <= p.start(s.call(r) + 1)
  {
    StartNonNegative(p, s.call(r));
    assert Shape1(p, s.call(r), s.blocks(r, b));
  }
}
