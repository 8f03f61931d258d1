/**
The host-memory all-reduce of suffix_hybrid/host_ar.py as a transition system.

`w` ranks run the same list of kernel launches. On every rank a launch is a grid of blocks that
share an arrive counter and a go word per barrier phase and an epoch counter; all ranks share one
flag word per (epoch parity, phase, rank) and, per (epoch parity, rank), a partial slot and a
reduced slot. Blocks take one step at a time in any order: one load, one store, one atomic.

Words of the kernel are 32 bits wide. Here they are unbounded, and every observation the kernel
makes of one (an equality test, the low bit) is made modulo `m`, an even number (2^32 there).

What a block does between two barriers is a set of `Item`s, each with a `Task`: load some cells of
host memory, then store to host memory or to the output. HostKernels.dfy gives the tasks of the four
kernels; here they are arbitrary.
*/
module HostMachine {
  /** The bit pattern of a 16-bit word, an int8 code, an fp32 scale. */
  type Val = int

  function Set1<V>(f: int -> V, i: int, v: V): int -> V {
    x => if x == i then v else f(x)
  }

  function Set2<V>(f: (int, int) -> V, i: int, j: int, v: V): (int, int) -> V {
    (x, y) => if x == i && y == j then v else f(x, y)
  }

  function Set3<V>(f: (int, int, int) -> V, i: int, j: int, k: int, v: V): (int, int, int) -> V {
    (x, y, z) => if x == i && y == j && z == k then v else f(x, y, z)
  }

  datatype Region = Dat | Red

  /** Bytes [off, off + len) of a rank's slot; the slot's parity is that of the running epoch. */
  datatype Loc = Loc(region: Region, rank: int, off: int, len: int)
  datatype Addr = Addr(par: int, loc: Loc)

  /** What a cell holds: nothing usable once a store to overlapping bytes has torn it. */
  datatype Cell = Torn | Full(v: Val)

  datatype Store = Host(loc: Loc, hf: seq<Val> -> Val) | Out(idx: int, of: seq<Val> -> Val)
  datatype Task = Task(loads: seq<Loc>, stores: seq<Store>)
  datatype Item = Item(j: int, o: int)

  /** One in-kernel round: `items(r, b, st)` is the work of block b of rank r in stage st
      (0 before the first barrier, 1 after it, 2 after the second, if there is one). */
  datatype Round = Round(two: bool, items: (int, int, int) -> set<Item>, task: (int, int, Item) -> Task)

  /** Launch c runs the rounds of epochs start(c) + 1 .. start(c + 1). */
  datatype Prog = Prog(w: int, m: int, calls: int, start: int -> int, round: int -> Round, grid: (int, int) -> int)

  ghost predicate WellFormed(p: Prog) {
    && p.w >= 1 && p.m >= 2 && p.m % 2 == 0 && p.calls >= 1 && p.start(0) == 0
    && (forall c :: 0 <= c < p.calls ==> p.start(c) < p.start(c + 1))
    && (forall c, r :: 0 <= c < p.calls && 0 <= r < p.w ==> p.grid(c, r) >= 1)
  }

  /** Barrier phase ph is used in epoch e. */
  predicate Used(p: Prog, e: int, ph: int) {
    e >= 1 && (ph == 0 || (ph == 1 && p.round(e).two))
  }

  datatype Cur = Idle | Busy(item: Item, got: seq<Val>, put: nat)
  datatype Pc =
    | Load                  // about to read the epoch counter
    | Work(st: int)         // in stage st
    | Arr(ph: int)          // about to add to the arrive counter
    | Zero(ph: int)         // last arriver: about to reset the arrive counter
    | Bump(ph: int)         // last arriver: about to advance the epoch counter if final
    | Pub(ph: int)          // last arriver: about to publish its rank's flag
    | Poll(ph: int, j: int) // last arriver: has seen the flags of ranks below j
    | Rel(ph: int)          // last arriver: about to release the other blocks
    | Wait(ph: int)         // polling the go word
    | Done
  datatype Block = Block(pc: Pc, ctr0: int, rnd: int, todo: set<Item>, cur: Cur)

  /** `pub` and `shut` only record history: the last barrier (2 * epoch + phase) a rank published,
      and the last epoch whose arrive counter it reset. */
  datatype State = State(
    call: int -> int, blocks: (int, int) -> Block, arr: (int, int) -> int, go: (int, int) -> int,
    ctr: int -> int, flags: (int, int, int) -> int, mem: Addr -> Cell, out: (int, int, int) -> Cell,
    pub: int -> int, shut: (int, int) -> int)

  const Fresh := Block(Load, 0, 0, {}, Idle)

  function Init(): State {
    State(r => 0, (r, b) => Fresh, (r, ph) => 0, (r, ph) => 0, r => 0, (par, ph, r) => 0,
          a => Torn, (c, r, i) => Torn, r => 0, (r, ph) => 0)
  }

  function Rounds(p: Prog, c: int): int { p.start(c + 1) - p.start(c) }

  /** The epoch a block of launch c works for. */
  function Ep(p: Prog, c: int, k: Block): int { p.start(c) + k.rnd + 1 }

  /** The epoch as the block computes it from the counter it loaded. */
  function Word(k: Block): int { k.ctr0 + k.rnd + 1 }

  function Par(x: int): int { x % 2 }

  predicate Overlap(a: Loc, b: Loc) {
    && a.region == b.region && a.rank == b.rank
    && a.off < b.off + b.len && b.off < a.off + a.len
  }

  function Write(mem: Addr -> Cell, a: Addr, v: Val): Addr -> Cell {
    x => if x == a then Full(v) else if x.par == a.par && Overlap(x.loc, a.loc) then Torn else mem(x)
  }

  function Read(c: Cell): Val { if c.Full? then c.v else 0 }

  function SetBlock(s: State, r: int, b: int, k: Block): State {
    s.(blocks := Set2(s.blocks, r, b, k))
  }

  function Goto(s: State, r: int, b: int, pc: Pc): State {
    SetBlock(s, r, b, s.blocks(r, b).(pc := pc))
  }

  /** Block b of rank r exists in launch c. */
  predicate Has(p: Prog, c: int, r: int, b: int) {
    0 <= r < p.w && 0 <= b < p.grid(c, r)
  }

  function TaskOf(p: Prog, c: int, r: int, k: Block, st: int, it: Item): Task {
    p.round(Ep(p, c, k)).task(r, st, it)
  }

  /** Enter stage st of the round with number rnd. */
  function Enter(p: Prog, s: State, r: int, b: int, rnd: int, st: int): State {
    var todo := p.round(p.start(s.call(r)) + rnd + 1).items(r, b, st);
    SetBlock(s, r, b, s.blocks(r, b).(pc := Work(st), rnd := rnd, todo := todo, cur := Idle))
  }

  function NextRound(p: Prog, s: State, r: int, b: int): State {
    var rnd := s.blocks(r, b).rnd;
    if rnd + 1 < Rounds(p, s.call(r)) then Enter(p, s, r, b, rnd + 1, 0) else Goto(s, r, b, Done)
  }

  function EndStage(p: Prog, s: State, r: int, b: int, st: int): State {
    if st == 0 then Goto(s, r, b, Arr(0))
    else if st == 1 && p.round(Ep(p, s.call(r), s.blocks(r, b))).two then Goto(s, r, b, Arr(1))
    else NextRound(p, s, r, b)
  }

  /** The next load or store of the item in hand, or putting it down. */
  function WorkStep(p: Prog, s: State, r: int, b: int, st: int): State
    requires s.blocks(r, b).cur.Busy?
  {
    var k := s.blocks(r, b);
    var t := TaskOf(p, s.call(r), r, k, st, k.cur.item);
    var par := Par(Word(k));
    if |k.cur.got| < |t.loads| then
      var v := Read(s.mem(Addr(par, t.loads[|k.cur.got|])));
      SetBlock(s, r, b, k.(cur := k.cur.(got := k.cur.got + [v])))
    else if k.cur.put < |t.stores| then
      var s' := SetBlock(s, r, b, k.(cur := k.cur.(put := k.cur.put + 1)));
      match t.stores[k.cur.put]
      case Host(loc, f) => s'.(mem := Write(s.mem, Addr(par, loc), f(k.cur.got)))
      case Out(idx, f) => s'.(out := Set3(s.out, s.call(r), r, idx, Full(f(k.cur.got))))
    else
      SetBlock(s, r, b, k.(cur := Idle))
  }

  /** The last barrier of the round advances the epoch counter in the last round of a launch. */
  predicate Final(p: Prog, c: int, k: Block, ph: int) {
    k.rnd == Rounds(p, c) - 1 && ph == (if p.round(Ep(p, c, k)).two then 1 else 0)
  }

  predicate Same(p: Prog, x: int, y: int)
    requires p.m >= 2
  {
    x % p.m == y % p.m
  }

  datatype Action =
    | Launch(r: int)                        // every block has exited: start the next kernel
    | Pick(r: int, b: int, item: Item)      // take up any item left in this stage
    | Go(r: int, b: int)                    // the block's next step

  ghost predicate Enabled(p: Prog, s: State, a: Action) {
    match a
    case Launch(r) => 0 <= r < p.w && s.call(r) + 1 < p.calls
                      && forall b :: 0 <= b < p.grid(s.call(r), r) ==> s.blocks(r, b).pc == Done
    case Pick(r, b, it) => Has(p, s.call(r), r, b) && s.blocks(r, b).pc.Work? && s.blocks(r, b).cur == Idle
                           && it in s.blocks(r, b).todo
    case Go(r, b) => Has(p, s.call(r), r, b) && s.blocks(r, b).pc != Done
                     && (s.blocks(r, b).pc.Work? && s.blocks(r, b).cur == Idle ==> s.blocks(r, b).todo == {})
  }

  function GoStep(p: Prog, s: State, r: int, b: int): State
    requires p.m >= 2
  {
    var k := s.blocks(r, b);
    var e := Word(k);
    match k.pc
    case Load => Enter(p, SetBlock(s, r, b, k.(ctr0 := s.ctr(r))), r, b, 0, 0)
    case Work(st) => if k.cur.Busy? then WorkStep(p, s, r, b, st) else EndStage(p, s, r, b, st)
    case Arr(ph) =>
      var s' := s.(arr := Set2(s.arr, r, ph, s.arr(r, ph) + 1));
      Goto(s', r, b, if s.arr(r, ph) == p.grid(s.call(r), r) - 1 then Zero(ph) else Wait(ph))
    case Zero(ph) =>
      Goto(s.(arr := Set2(s.arr, r, ph, 0), shut := Set2(s.shut, r, ph, e)), r, b, Bump(ph))
    case Bump(ph) =>
      var s' := if Final(p, s.call(r), k, ph) then s.(ctr := Set1(s.ctr, r, k.ctr0 + Rounds(p, s.call(r)))) else s;
      Goto(s', r, b, Pub(ph))
    case Pub(ph) =>
      Goto(s.(flags := Set3(s.flags, Par(e), ph, r, e), pub := Set1(s.pub, r, 2 * e + ph)), r, b, Poll(ph, 0))
    case Poll(ph, j) =>
      if !Same(p, s.flags(Par(e), ph, j), e) then Goto(s, r, b, Poll(ph, 0))
      else Goto(s, r, b, if j + 1 < p.w then Poll(ph, j + 1) else Rel(ph))
    case Rel(ph) => Enter(p, s.(go := Set2(s.go, r, ph, e)), r, b, k.rnd, ph + 1)
    case Wait(ph) => if Same(p, s.go(r, ph), e) then Enter(p, s, r, b, k.rnd, ph + 1) else s
    case Done => s
  }

  function Step(p: Prog, s: State, a: Action): State
    requires p.m >= 2
  {
    match a
    case Launch(r) =>
      s.(call := Set1(s.call, r, s.call(r) + 1), blocks := (x, y) => if x == r then Fresh else s.blocks(x, y))
    case Pick(r, b, it) =>
      var k := s.blocks(r, b);
      SetBlock(s, r, b, k.(todo := k.todo - {it}, cur := Busy(it, [], 0)))
    case Go(r, b) => GoStep(p, s, r, b)
  }

  /** The state after the actions `acts`, and whether each was enabled when it was taken. */
  ghost function After(p: Prog, acts: seq<Action>): State
    requires p.m >= 2
  {
    if acts == [] then Init() else Step(p, After(p, acts[..|acts| - 1]), acts[|acts| - 1])
  }

  ghost predicate Run(p: Prog, acts: seq<Action>)
    requires p.m >= 2
  {
    acts == [] || (Run(p, acts[..|acts| - 1]) && Enabled(p, After(p, acts[..|acts| - 1]), acts[|acts| - 1]))
  }
}
