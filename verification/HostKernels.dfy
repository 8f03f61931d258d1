/**
The four kernels of suffix_hybrid/host_ar.py as programs of the machine: which elements each block
handles between two barriers, what it loads and stores for them, and what that is meant to leave.
*/
module HostKernels {
  import opened HostMachine
  import opened IntMath

  /** The arithmetic, of which nothing is assumed: fp32 addition, bf16 to fp32 and back (rounding),
      and the int8 transport: scale and codes of a group, and code times scale. */
  datatype Arith = Arith(
    zero: Val, add: (Val, Val) -> Val, up: Val -> Val, down: Val -> Val,
    scale: seq<Val> -> Val, code: (seq<Val>, int) -> Val, deq: (Val, Val) -> Val)

  datatype Kind = OneShot | TwoShot | Quant | Gather

  /** One round of one launch: elements [base, base + rn) of the inputs `x(rank, i)` of length n;
      `cap` is ROUND, `blk` BLOCK, `g` the quantization group. */
  datatype Job = Job(ar: Arith, w: int, cap: int, blk: int, g: int, kind: Kind, n: int, base: int,
                     x: (int, int) -> Val, grid: int -> int)

  ghost predicate Sane(k: Job) {
    && k.w >= 1 && k.blk >= 1 && k.g >= 4 && k.cap >= 1 && k.n >= 1
    && k.cap % k.w == 0 && (k.cap / k.w) % 8 == 0 && (k.cap / k.w) % k.g == 0
    && 0 <= k.base < k.n
    && (k.kind == Quant ==> k.n % k.g == 0 && k.base % k.g == 0 && k.cap % k.g == 0)
    && (forall r :: 0 <= r < k.w ==> k.grid(r) >= 1)
  }

  function Len(k: Job): int { Min(k.n - k.base, k.cap) }

  function Align(k: Job): int { if k.kind == Quant then k.g else 8 }

  /** Chunk length: ceil(ceil(rn / w) / align) * align. */
  function Chunk(k: Job): int
    requires k.w > 0 && k.g > 0
  {
    CeilDiv(CeilDiv(Len(k), k.w), Align(k)) * Align(k)
  }

  function Lo(k: Job, r: int): int
    requires k.w > 0 && k.g > 0
  {
    r * Chunk(k)
  }

  function Hi(k: Job, r: int): int
    requires k.w > 0 && k.g > 0
  {
    Min(Lo(k, r) + Chunk(k), Len(k))
  }

  predicate InChunk(k: Job, r: int, o: int)
    requires k.w > 0 && k.g > 0
  {
    Lo(k, r) <= o < Hi(k, r)
  }

  /** The block that reaches element o in a loop that starts at `from`, one BLOCK per block per turn. */
  function Owner(k: Job, r: int, from: int, o: int): int
    requires k.blk > 0 && k.grid(r) > 0
  {
    ((o - from) / k.blk) % k.grid(r)
  }

  predicate Chunked(k: Job) { k.kind == TwoShot || k.kind == Quant }

  /** What stages do: `it.o` is the element, or the first element of the group for the int8 kernel;
      `it.j` the rank whose data the item moves. */
  predicate Does(k: Job, r: int, b: int, st: int, it: Item)
    requires k.w > 0 && k.g > 0 && k.blk > 0 && k.grid(r) > 0
  {
    && (k.kind == Quant ==> it.o % k.g == 0)
    && match st
       case 0 => it.j == r && (Chunked(k) ==> !InChunk(k, r, it.o)) && Owner(k, r, 0, it.o) == b
       case 1 => (if k.kind == Gather then it.j != r else it.j == r)
                 && (Chunked(k) ==> InChunk(k, r, it.o))
                 && Owner(k, r, if Chunked(k) then Lo(k, r) else 0, it.o) == b
       case 2 => Chunked(k) && it.j != r && InChunk(k, it.j, it.o) && Owner(k, r, Lo(k, it.j), it.o) == b
       case _ => false
  }

  function Items(k: Job, r: int, b: int, st: int): set<Item>
    requires k.w > 0 && k.g > 0 && k.blk > 0 && k.grid(r) > 0
  {
    set j, o | 0 <= j < k.w && 0 <= o < Len(k) && Does(k, r, b, st, Item(j, o)) :: Item(j, o)
  }

  // ---- cells --------------------------------------------------------------

  function RoundChunk(k: Job): int
    requires k.w > 0
  {
    k.cap / k.w
  }

  function Elem(region: Region, rank: int, o: int): Loc { Loc(region, rank, 2 * o, 2) }

  function CodeAt(region: Region, rank: int, o: int): Loc { Loc(region, rank, o, 1) }

  /** fp32 scale number i, after the codes: ROUND of them in a partial slot, ROUND / w in a reduced. */
  function ScaleAt(k: Job, region: Region, rank: int, i: int): Loc
    requires k.w > 0
  {
    Loc(region, rank, (if region == Dat then k.cap else RoundChunk(k)) + 4 * i, 4)
  }

  /** The codes of the group at o of a slot, then its scale. */
  function GroupAt(k: Job, region: Region, rank: int, o: int): seq<Loc>
    requires k.w > 0 && k.g > 0
  {
    seq(k.g + 1, i => if i < k.g then CodeAt(region, rank, o + i) else ScaleAt(k, region, rank, o / k.g))
  }

  function At(got: seq<Val>, i: int): Val { if 0 <= i < |got| then got[i] else 0 }

  /** The i-th rank other than r, and its inverse. */
  function Peer(r: int, i: int): int { if i < r then i else i + 1 }

  function Slot(r: int, j: int): int { if j < r then j else j - 1 }

  // ---- values -------------------------------------------------------------

  /** zero + v(0) + ... + v(m - 1), from the left. */
  function Sum(ar: Arith, v: int -> Val, m: int): Val
    decreases m
  {
    if m <= 0 then ar.zero else ar.add(Sum(ar, v, m - 1), v(m - 1))
  }

  /** The promised all-reduce: all inputs in rank order, added in fp32 and rounded once. */
  function RankSum(ar: Arith, w: int, x: (int, int) -> Val, i: int): Val {
    ar.down(Sum(ar, j => ar.up(x(j, i)), w))
  }

  /** The group at o of rank j's input, in fp32; its scale; its codes; a decoded element. */
  function Group(k: Job, j: int, o: int): seq<Val>
    requires k.g > 0
  {
    seq(k.g, i => k.ar.up(k.x(j, k.base + o + i)))
  }

  /** What rank c adds for rank j: its own input exactly, a peer's decoded. */
  function Term(k: Job, c: int, o: int, i: int, j: int): Val
    requires k.g > 0
  {
    if j == c then k.ar.up(k.x(j, k.base + o + i))
    else k.ar.deq(k.ar.code(Group(k, j, o), i), k.ar.scale(Group(k, j, o)))
  }

  function ReducedGroup(k: Job, c: int, o: int): seq<Val>
    requires k.g > 0
  {
    seq(k.g, i => Sum(k.ar, j => Term(k, c, o, i, j), k.w))
  }

  function Decoded(ar: Arith, group: seq<Val>, i: int): Val {
    ar.down(ar.deq(ar.code(group, i), ar.scale(group)))
  }

  /** The chunk an element is in. */
  function ChunkOf(k: Job, o: int): int
    requires k.w > 0 && k.g > 0
  {
    if Chunk(k) > 0 then o / Chunk(k) else 0
  }

  /** The int8 kernel's result at element o of the round. */
  function QuantResult(k: Job, o: int): Val
    requires k.w > 0 && k.g > 0
  {
    var g0 := o - o % k.g;
    Decoded(k.ar, ReducedGroup(k, ChunkOf(k, g0), g0), o - g0)
  }

  // ---- tasks --------------------------------------------------------------

  function PutTask(k: Job, r: int, o: int): Task
    requires k.w > 0 && k.g > 0
  {
    match k.kind
    case Quant =>
      Task([], seq(k.g + 1, i =>
        if i < k.g then Host(CodeAt(Dat, r, o + i), (got: seq<Val>) => k.ar.code(Group(k, r, o), i))
        else Host(ScaleAt(k, Dat, r, o / k.g), (got: seq<Val>) => k.ar.scale(Group(k, r, o)))))
    case Gather =>
      Task([], [Host(Elem(Dat, r, o), (got: seq<Val>) => k.x(r, k.base + o)),
                Out(r * k.n + k.base + o, (got: seq<Val>) => k.x(r, k.base + o))])
    case _ =>
      Task([], [Host(Elem(Dat, r, o), (got: seq<Val>) => k.x(r, k.base + o))])
  }

  /** Rank order: the block's own input is read from x, the peers' partials from host memory. */
  function Added(k: Job, r: int, o: int, got: seq<Val>): Val {
    k.ar.down(Sum(k.ar, j => k.ar.up(if j == r then k.x(r, k.base + o) else At(got, Slot(r, j))), k.w))
  }

  /** Code i of rank j's group (its scale, for i == g) among what the int8 reduction of rank r loaded. */
  function FromPeer(k: Job, r: int, j: int, i: int, got: seq<Val>): Val { At(got, (k.g + 1) * Slot(r, j) + i) }

  /** The int8 accumulator of the group at o. */
  function AddedGroup(k: Job, r: int, o: int, got: seq<Val>): seq<Val>
    requires k.g > 0
  {
    seq(k.g, i => Sum(k.ar, j =>
      if j == r then k.ar.up(k.x(r, k.base + o + i))
      else k.ar.deq(FromPeer(k, r, j, i, got), FromPeer(k, r, j, k.g, got)), k.w))
  }

  function ReduceTask(k: Job, r: int, o: int): Task
    requires k.w > 0 && k.g > 0
  {
    match k.kind
    case Quant =>
      Task(seq((k.g + 1) * (k.w - 1), i requires 0 <= i => GroupAt(k, Dat, Peer(r, i / (k.g + 1)), o)[i % (k.g + 1)]),
           seq(2 * k.g + 1, i =>
             if i < k.g then
               Out(k.base + o + i, (got: seq<Val>) => Decoded(k.ar, AddedGroup(k, r, o, got), i))
             else if i < 2 * k.g then
               Host(CodeAt(Red, r, o - Lo(k, r) + i - k.g), (got: seq<Val>) => k.ar.code(AddedGroup(k, r, o, got), i - k.g))
             else
               Host(ScaleAt(k, Red, r, (o - Lo(k, r)) / k.g), (got: seq<Val>) => k.ar.scale(AddedGroup(k, r, o, got)))))
    case TwoShot =>
      Task(seq(k.w - 1, i => Elem(Dat, Peer(r, i), o)),
           [Out(k.base + o, (got: seq<Val>) => Added(k, r, o, got)),
            Host(Elem(Red, r, o - Lo(k, r)), (got: seq<Val>) => Added(k, r, o, got))])
    case _ =>
      Task(seq(k.w - 1, i => Elem(Dat, Peer(r, i), o)),
           [Out(k.base + o, (got: seq<Val>) => Added(k, r, o, got))])
  }

  /** Copy rank j's element (or reduced element, or group of reduced codes) from host memory. */
  function CopyTask(k: Job, j: int, o: int): Task
    requires k.w > 0 && k.g > 0
  {
    match k.kind
    case Quant =>
      Task(GroupAt(k, Red, j, o - Lo(k, j)),
           seq(k.g, i => Out(k.base + o + i, (got: seq<Val>) => k.ar.down(k.ar.deq(At(got, i), At(got, k.g))))))
    case Gather =>
      Task([Elem(Dat, j, o)], [Out(j * k.n + k.base + o, (got: seq<Val>) => At(got, 0))])
    case _ =>
      Task([Elem(Red, j, o - Lo(k, j))], [Out(k.base + o, (got: seq<Val>) => At(got, 0))])
  }

  function TaskFor(k: Job, r: int, st: int, it: Item): Task
    requires k.w > 0 && k.g > 0
  {
    if st == 0 then PutTask(k, r, it.o)
    else if st == 1 && k.kind != Gather then ReduceTask(k, r, it.o)
    else CopyTask(k, it.j, it.o)
  }

  // ---- what it is meant to leave ------------------------------------------

  function HostSpec(k: Job, loc: Loc): Val
    requires k.w > 0 && k.g > 0
  {
    if k.kind == Quant then
      if loc.region == Dat then
        if loc.len == 1 then k.ar.code(Group(k, loc.rank, loc.off - loc.off % k.g), loc.off % k.g)
        else k.ar.scale(Group(k, loc.rank, (loc.off - k.cap) / 4 * k.g))
      else
        if loc.len == 1 then
          k.ar.code(ReducedGroup(k, loc.rank, Lo(k, loc.rank) + loc.off - loc.off % k.g), loc.off % k.g)
        else k.ar.scale(ReducedGroup(k, loc.rank, Lo(k, loc.rank) + (loc.off - RoundChunk(k)) / 4 * k.g))
    else if loc.region == Dat then k.x(loc.rank, k.base + loc.off / 2)
    else RankSum(k.ar, k.w, k.x, k.base + Lo(k, loc.rank) + loc.off / 2)
  }

  /** Index i of the output of the whole launch. */
  function OutSpec(k: Job, i: int): Val
    requires k.w > 0 && k.g > 0 && k.n > 0
  {
    match k.kind
    case Gather => k.x(i / k.n, i % k.n)
    case Quant => QuantResult(k, i - k.base)
    case _ => RankSum(k.ar, k.w, k.x, i)
  }
}
