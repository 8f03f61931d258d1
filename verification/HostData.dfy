/** What the blocks load and store: under the barrier protocol every load of host memory yields the
    value of its own epoch, whatever the interleaving, so every output is the intended one. */
module HostData {
  import opened HostMachine
  import opened HostControl

  /** The values a program is meant to leave: `host(e, loc)` in host memory in epoch e, `out(c, r, i)`
      at index i of the output of launch c on rank r, which has `len(c)` words. */
  datatype Spec = Spec(host: (int, Loc) -> Val, out: (int, int, int) -> Val, len: int -> int)

  predicate InCall(p: Prog, c: int, e: int) {
    0 <= c < p.calls && p.start(c) < e <= p.start(c + 1)
  }

  function RegionOf(st: int): Region { if st == 0 then Dat else Red }

  function Wanted(q: Spec, e: int, loads: seq<Loc>): (vs: seq<Val>)
    ensures |vs| == |loads|
    ensures forall i :: 0 <= i < |loads| ==> vs[i] == q.host(e, loads[i])
  {
    if loads == [] then [] else Wanted(q, e, loads[..|loads| - 1]) + [q.host(e, loads[|loads| - 1])]
  }

  /** Some block of loc's rank stores to `loc` in stage st of epoch e. */
  ghost predicate Stored(p: Prog, c: int, e: int, st: int, loc: Loc) {
    exists b, it, k :: 0 <= b < p.grid(c, loc.rank) && it in p.round(e).items(loc.rank, b, st)
      && StoresAt(p.round(e).task(loc.rank, st, it), k, loc)
  }

  ghost predicate StoresAt(t: Task, k: int, loc: Loc) {
    0 <= k < |t.stores| && t.stores[k].Host? && t.stores[k].loc == loc
  }

  /** A task of stage st reads what the stage before stored, stores to its own rank's slot of that
      stage, and computes the intended values from the intended values. */
  ghost predicate LegalTask(p: Prog, q: Spec, c: int, e: int, r: int, st: int, t: Task) {
    && (st == 0 ==> t.loads == [])
    && (forall i :: 0 <= i < |t.loads| ==>
          0 <= t.loads[i].rank < p.w && Stored(p, c, e, st - 1, t.loads[i]))
    && (forall k :: 0 <= k < |t.stores| ==> LegalStore(q, c, e, r, st, t.stores[k], Wanted(q, e, t.loads)))
  }

  ghost predicate LegalStore(q: Spec, c: int, e: int, r: int, st: int, x: Store, vs: seq<Val>) {
    match x
    case Host(loc, f) => st <= 1 && loc.rank == r && loc.region == RegionOf(st) && f(vs) == q.host(e, loc)
    case Out(idx, f) => f(vs) == q.out(c, r, idx)
  }

  ghost predicate Disjoint(a: Loc, b: Loc) { a == b || !Overlap(a, b) }

  ghost predicate LegalRound(p: Prog, q: Spec, c: int, e: int) {
    && (forall r, b, st, it :: Has(p, c, r, b) && 0 <= st <= 2 && it in p.round(e).items(r, b, st)
          ==> LegalTask(p, q, c, e, r, st, p.round(e).task(r, st, it)))
    && (forall a, b, st :: Stored(p, c, e, st, a) && Stored(p, c, e, st, b) ==> Disjoint(a, b))
  }

  /** Index i of the output is written by some block in some stage of some round of launch c. */
  ghost predicate Covered(p: Prog, c: int, r: int, i: int) {
    exists e, b, st, it, k :: InCall(p, c, e) && 0 <= b < p.grid(c, r) && 0 <= st <= (if p.round(e).two then 2 else 1)
      && it in p.round(e).items(r, b, st) && WritesAt(p.round(e).task(r, st, it), k, i)
  }

  ghost predicate WritesAt(t: Task, k: int, i: int) {
    0 <= k < |t.stores| && t.stores[k].Out? && t.stores[k].idx == i
  }

  ghost predicate Legal(p: Prog, q: Spec) {
    && (forall c, e :: InCall(p, c, e) ==> LegalRound(p, q, c, e))
    && (forall c, r, i :: 0 <= c < p.calls && 0 <= r < p.w && 0 <= i < q.len(c) ==> Covered(p, c, r, i))
  }

  // ---- what has been done -------------------------------------------------

  ghost predicate Holds(q: Spec, s: State, e: int, loc: Loc) {
    s.mem(Addr(Par(e), loc)) == Full(q.host(e, loc))
  }

  /** The first n stores of a task to host memory, or to the output, are in place. */
  ghost predicate EffectHost(q: Spec, s: State, e: int, t: Task, n: int) {
    forall k :: 0 <= k < n <= |t.stores| && t.stores[k].Host? ==> Holds(q, s, e, t.stores[k].loc)
  }

  ghost predicate EffectOut(q: Spec, s: State, c: int, r: int, t: Task, n: int) {
    forall k :: 0 <= k < n <= |t.stores| && t.stores[k].Out? ==> s.out(c, r, t.stores[k].idx) == Full(q.out(c, r, t.stores[k].idx))
  }

  /** Every host store of block b's stage st in epoch e is in place. */
  ghost predicate HostDone(p: Prog, q: Spec, s: State, e: int, r: int, b: int, st: int) {
    forall it :: it in p.round(e).items(r, b, st) ==>
      var t := p.round(e).task(r, st, it);
      EffectHost(q, s, e, t, |t.stores|)
  }

  /** Every output store of block b's stage st in epoch e of launch c is in place. */
  ghost predicate OutDone(p: Prog, q: Spec, s: State, c: int, e: int, r: int, b: int, st: int) {
    forall it :: it in p.round(e).items(r, b, st) ==>
      var t := p.round(e).task(r, st, it);
      EffectOut(q, s, c, r, t, |t.stores|)
  }

  /** The item in hand: what was loaded is what was wanted, and its first stores are in place. */
  ghost predicate InHand(p: Prog, q: Spec, s: State, r: int, b: int) {
    var c, k := s.call(r), s.blocks(r, b);
    k.pc.Work? && k.cur.Busy? ==>
      var e, st := Ep(p, c, k), k.pc.st;
      var t := TaskOf(p, c, r, k, st, k.cur.item);
      && k.cur.item in p.round(e).items(r, b, st)
      && |k.cur.got| <= |t.loads| && k.cur.got == Wanted(q, e, t.loads)[..|k.cur.got|]
      && k.cur.put <= |t.stores| && (k.cur.put > 0 ==> |k.cur.got| == |t.loads|)
      && (st <= 1 ==> EffectHost(q, s, e, t, k.cur.put)) && EffectOut(q, s, c, r, t, k.cur.put)
  }

  predicate PutDown(k: Block, it: Item) {
    it !in k.todo && (k.cur.Busy? ==> k.cur.item != it)
  }

  /** The items of the running stage that are neither left to do nor in hand are done. */
  ghost predicate Stage(p: Prog, q: Spec, s: State, r: int, b: int) {
    var c, k := s.call(r), s.blocks(r, b);
    k.pc.Work? ==>
      var e, st := Ep(p, c, k), k.pc.st;
      && k.todo <= p.round(e).items(r, b, st)
      && (forall it :: it in p.round(e).items(r, b, st) && PutDown(k, it) ==>
            var t := p.round(e).task(r, st, it);
            (st <= 1 ==> EffectHost(q, s, e, t, |t.stores|)) && EffectOut(q, s, c, r, t, |t.stores|))
  }

  /** A block at barrier (e, ph) has done the host stores of stage ph of epoch e. */
  ghost predicate AtBarrier(p: Prog, q: Spec, s: State, r: int, b: int) {
    var k := s.blocks(r, b);
    k.pc.Arr? || InBarrier(k.pc) ==> HostDone(p, q, s, Ep(p, s.call(r), k), r, b, k.pc.ph)
  }

  /** The stages a block has completed in its launch. */
  predicate Completed(p: Prog, c: int, k: Block, e: int, st: int) {
    && p.start(c) < e <= Ep(p, c, k) && 0 <= st <= (if p.round(e).two then 2 else 1)
    && (e == Ep(p, c, k) ==> !k.pc.Load? && (k.pc.Work? ==> st < k.pc.st) && (k.pc.Arr? || InBarrier(k.pc) ==> st <= k.pc.ph))
  }

  ghost predicate Outputs(p: Prog, q: Spec, s: State, r: int, b: int) {
    forall e, st :: Completed(p, s.call(r), s.blocks(r, b), e, st) ==> OutDone(p, q, s, s.call(r), e, r, b, st)
  }

  /** No block of rank r works for an epoch past e + 1, the next to use e's slots. */
  ghost predicate Behind(p: Prog, s: State, r: int, e: int) {
    forall b :: Has(p, s.call(r), r, b) ==> Ep(p, s.call(r), s.blocks(r, b)) <= e + 1
  }

  /** From the moment all of rank r has arrived at barrier (e, st) and until it reuses the slots,
      host memory holds all that rank r stored in stage st of epoch e. */
  ghost predicate Ready(p: Prog, q: Spec, s: State, c: int, e: int, r: int, st: int) {
    forall b :: Has(p, c, r, b) ==> HostDone(p, q, s, e, r, b, st)
  }

  ghost predicate Kept(p: Prog, q: Spec, s: State, r: int, c: int, e: int, st: int) {
    InCall(p, c, e) && Used(p, e, st) && Reached(p, s, r, 2 * e + st) && Behind(p, s, r, e) ==> Ready(p, q, s, c, e, r, st)
  }

  ghost predicate Past(p: Prog, q: Spec, s: State, r: int, c: int) {
    forall e, b, st :: InCall(p, c, e) && Has(p, c, r, b) && 0 <= st <= (if p.round(e).two then 2 else 1)
      ==> OutDone(p, q, s, c, e, r, b, st)
  }

  ghost predicate Blocks(p: Prog, q: Spec, s: State) {
    forall r, b :: Has(p, s.call(r), r, b) ==>
      InHand(p, q, s, r, b) && Stage(p, q, s, r, b) && AtBarrier(p, q, s, r, b) && Outputs(p, q, s, r, b)
  }

  ghost predicate Ranks(p: Prog, q: Spec, s: State) {
    && (forall r, c, e, st :: 0 <= r < p.w && 0 <= st <= 1 ==> Kept(p, q, s, r, c, e, st))
    && (forall r, c :: 0 <= r < p.w && 0 <= c < s.call(r) ==> Past(p, q, s, r, c))
  }

  ghost predicate DataInv(p: Prog, q: Spec, s: State) {
    Blocks(p, q, s) && Ranks(p, q, s)
  }
}
