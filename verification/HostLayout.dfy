/** The shared mapping: flag lines, then partial slots, then reduced slots, each per parity and rank.
    Two cells of the machine share a byte exactly when the machine says that they overlap. */
module HostLayout {
  import opened IntMath
  import opened HostMachine
  import opened HostKernels
  import opened HostStored
  import opened HostCollectives

  const FLAG_STRIDE := 16
  const FLAG_BYTES := 65536

  function Slots(f: Config): int { 2 * f.w }

  /** Bytes of one slot: ROUND bf16 words, or ROUND / w of them. */
  function SlotBytes(f: Config, region: Region): int
    requires f.w > 0
  {
    2 * (if region == Dat then f.cap else f.cap / f.w)
  }

  function RegionStart(f: Config, region: Region): int
    requires f.w > 0
  {
    FLAG_BYTES + (if region == Dat then 0 else Slots(f) * SlotBytes(f, Dat))
  }

  /** HostAllReduce.size. */
  function MappingBytes(f: Config): int
    requires f.w > 0
  {
    FLAG_BYTES + Slots(f) * SlotBytes(f, Dat) + Slots(f) * SlotBytes(f, Red)
  }

  function FirstByte(f: Config, a: Addr): int
    requires f.w > 0
  {
    RegionStart(f, a.loc.region) + (a.par * f.w + a.loc.rank) * SlotBytes(f, a.loc.region) + a.loc.off
  }

  predicate ShareByte(f: Config, a: Addr, b: Addr)
    requires f.w > 0
  {
    FirstByte(f, a) < FirstByte(f, b) + b.loc.len && FirstByte(f, b) < FirstByte(f, a) + a.loc.len
  }

  /** A cell inside its slot. */
  predicate InSlot(f: Config, a: Addr)
    requires f.w > 0
  {
    && 0 <= a.par <= 1 && 0 <= a.loc.rank < f.w && a.loc.len > 0
    && 0 <= a.loc.off && a.loc.off + a.loc.len <= SlotBytes(f, a.loc.region)
  }

  /** Flag word of a parity, phase and rank, as an int32 index into the mapping. */
  function FlagWord(f: Config, par: int, ph: int, r: int): int {
    (par * (2 * f.w) + ph * f.w + r) * FLAG_STRIDE
  }

  // ---- arithmetic ---------------------------------------------------------

  /** Row i of n rows of s bytes that start at `from`. */
  lemma RowInside(i: int, n: int, s: int)
    requires 0 <= i < n && s >= 0
    ensures 0 <= i * s && i * s + s <= n * s
  {
    MulLeq(0, i, s);
    MulLeq(i + 1, n, s);
  }

  lemma RowsApart(i: int, j: int, s: int)
    requires i < j && s >= 0
    ensures i * s + s <= j * s
  {
    MulLeq(i + 1, j, s);
  }

  lemma SlotIndex(par: int, rank: int, w: int)
    requires 0 <= par <= 1 && 0 <= rank < w
    ensures 0 <= par * w + rank < 2 * w
  {}

  lemma SameSlot(p: int, r: int, q: int, s: int, w: int)
    requires 0 <= p <= 1 && 0 <= q <= 1 && 0 <= r < w && 0 <= s < w && p * w + r == q * w + s
    ensures p == q && r == s
  {}

  lemma SlotSizes(f: Config)
    requires f.w > 0 && f.cap > 0
    ensures SlotBytes(f, Dat) >= 0 && SlotBytes(f, Red) >= 0
  {
    Division(f.cap, f.w);
    if f.cap / f.w < 0 { MulLeq(f.cap / f.w, -1, f.w); }
  }

  // ---- the map ------------------------------------------------------------

  lemma Within(f: Config, a: Addr)
    requires f.w > 0 && f.cap > 0 && InSlot(f, a)
    ensures RegionStart(f, a.loc.region) <= FirstByte(f, a)
    ensures FirstByte(f, a) + a.loc.len <= RegionStart(f, a.loc.region) + Slots(f) * SlotBytes(f, a.loc.region) <= MappingBytes(f)
  {
    SlotIndex(a.par, a.loc.rank, f.w);
    SlotSizes(f);
    RowInside(a.par * f.w + a.loc.rank, Slots(f), SlotBytes(f, a.loc.region));
    RowInside(0, Slots(f), SlotBytes(f, Red));
  }

  lemma OtherSlot(f: Config, a: Addr, b: Addr)
    requires f.w > 0 && f.cap > 0 && InSlot(f, a) && InSlot(f, b) && a.loc.region == b.loc.region
    requires a.par * f.w + a.loc.rank < b.par * f.w + b.loc.rank
    ensures FirstByte(f, a) + a.loc.len <= FirstByte(f, b)
  {
    RowsApart(a.par * f.w + a.loc.rank, b.par * f.w + b.loc.rank, SlotBytes(f, a.loc.region));
  }

  /** Cells inside their slots share a byte of the mapping if and only if they are of one parity and
      overlap as cells; so the machine's `Write` tears exactly the cells the hardware would. */
  lemma OverlapIsSharing(f: Config, a: Addr, b: Addr)
    requires f.w > 0 && f.cap > 0 && InSlot(f, a) && InSlot(f, b)
    ensures ShareByte(f, a, b) <==> a.par == b.par && Overlap(a.loc, b.loc)
    ensures FLAG_BYTES <= FirstByte(f, a) && FirstByte(f, a) + a.loc.len <= MappingBytes(f)
  {
    Within(f, a);
    Within(f, b);
    if a.loc.region == b.loc.region {
      var i, j := a.par * f.w + a.loc.rank, b.par * f.w + b.loc.rank;
      if i < j { OtherSlot(f, a, b); } else if j < i { OtherSlot(f, b, a); } else { SameSlot(a.par, a.loc.rank, b.par, b.loc.rank, f.w); }
    }
  }

  /** Every cell the kernels store, in an epoch of either parity, is inside its slot. */
  lemma FormInSlot(f: Config, k: Job, par: int, loc: Loc)
    requires f.w > 0 && k.w == f.w && k.cap == f.cap && CellForm(k, loc) && 0 <= par <= 1 && 0 <= loc.rank < f.w
    ensures InSlot(f, Addr(par, loc))
  {}

  /** Any two cells that the kernels store, in whatever rounds and of whatever kinds, share a byte of the
      mapping if and only if their epochs have one parity and they overlap in their slots. */
  lemma KernelCells(f: Config, k: Job, a: Loc, par: int, l: Job, b: Loc, par': int)
    requires f.w > 0 && f.cap > 0 && 0 <= par <= 1 && 0 <= par' <= 1 && 0 <= a.rank < f.w && 0 <= b.rank < f.w
    requires k.w == f.w && k.cap == f.cap && CellForm(k, a) && l.w == f.w && l.cap == f.cap && CellForm(l, b)
    ensures ShareByte(f, Addr(par, a), Addr(par', b)) <==> par == par' && Overlap(a, b)
    ensures FLAG_BYTES <= FirstByte(f, Addr(par, a)) && FirstByte(f, Addr(par, a)) + a.len <= MappingBytes(f)
  {
    FormInSlot(f, k, par, a);
    FormInSlot(f, l, par', b);
    OverlapIsSharing(f, Addr(par, a), Addr(par', b));
  }

  /** Flags of different parity, phase or rank are different 64-byte lines below the slots. */
  lemma FlagsApart(f: Config, par: int, ph: int, r: int, par': int, ph': int, r': int)
    requires 1 <= f.w <= 256 && 0 <= par <= 1 && 0 <= ph <= 1 && 0 <= r < f.w && 0 <= par' <= 1 && 0 <= ph' <= 1 && 0 <= r' < f.w
    requires (par, ph, r) != (par', ph', r')
    ensures FlagWord(f, par, ph, r) / FLAG_STRIDE != FlagWord(f, par', ph', r') / FLAG_STRIDE
    ensures 0 <= 4 * FlagWord(f, par, ph, r) && 4 * FlagWord(f, par, ph, r) + 4 <= FLAG_BYTES
  {}

  lemma Bf16Pointer(par: int, w: int, u: int, j: int, o: int)
    ensures 2 * (par * (w * u) + j * u + o) == (par * w + j) * (2 * u) + 2 * o
  {
    Distribute(par * w, j, u);
    assert par * (w * u) == par * w * u;
    assert (par * w + j) * (2 * u) == 2 * ((par * w + j) * u);
  }

  lemma Fp32Pointer(v: int, u: int, o: int)
    requires u % 4 == 0
    ensures 4 * (v * (u / 2) + u / 4 + o) == v * (2 * u) + (u + 4 * o)
  {
    var h := u / 4;
    assert u == 4 * h && u / 2 == 2 * h;
    assert v * (2 * h) == 2 * (v * h) && v * (2 * (4 * h)) == 8 * (v * h);
  }

  /** The kernels' pointer expressions, in bf16, int8 and fp32 units from the start of a region, are
      the machine's cells. */
  lemma Pointers(f: Config, k: Job, region: Region, par: int, j: int, o: int)
    requires f.w > 0 && k.w == f.w && k.cap == f.cap && f.cap % f.w == 0 && (f.cap / f.w) % 4 == 0 && f.cap % 4 == 0
    ensures var u := if region == Dat then f.cap else f.cap / f.w;
      && RegionStart(f, region) + 2 * (par * (f.w * u) + j * u + o) == FirstByte(f, Addr(par, Elem(region, j, o)))
      && RegionStart(f, region) + ((par * f.w + j) * (2 * u) + o) == FirstByte(f, Addr(par, CodeAt(region, j, o)))
      && RegionStart(f, region) + 4 * ((par * f.w + j) * (u / 2) + u / 4 + o) == FirstByte(f, Addr(par, ScaleAt(k, region, j, o)))
  {
    var u := if region == Dat then f.cap else f.cap / f.w;
    Bf16Pointer(par, f.w, u, j, o);
    Fp32Pointer(par * f.w + j, u, o);
  }
}
