/** What a round stores: every cell a task loads has been stored in the stage before, stored cells
    are disjoint and inside their slots, and every element of the output is written. */
module HostStored {
  import opened IntMath
  import opened HostMachine
  import opened HostData
  import opened HostKernels
  import opened HostLegal

  // ---- every load has been stored -----------------------------------------

  ghost predicate StoredBy(k: Job, st: int, loc: Loc, b: int, it: Item, i: int)
    requires k.w > 0 && k.g > 0 && k.blk > 0 && k.grid(loc.rank) > 0
  {
    0 <= b < k.grid(loc.rank) && it in Items(k, loc.rank, b, st) && StoresAt(TaskFor(k, loc.rank, st, it), i, loc)
  }

  /** The block that owns element o in a loop of rank j, as a witness. */
  lemma OwnerIs(k: Job, j: int, from: int, o: int)
    requires Sane(k) && 0 <= j < k.w
    ensures 0 <= Owner(k, j, from, o) < k.grid(j)
  {}

  ghost predicate IsStored(k: Job, st: int, loc: Loc)
    requires Sane(k)
  {
    0 <= loc.rank < k.w && exists b, it, i :: StoredBy(k, st, loc, b, it, i)
  }

  lemma PutStores(k: Job, j: int, o: int, i: int, loc: Loc)
    requires Sane(k) && 0 <= j < k.w && 0 <= o < Len(k) && (Chunked(k) ==> !InChunk(k, j, o)) && (k.kind == Quant ==> o % k.g == 0)
    requires StoresAt(PutTask(k, j, o), i, loc) && loc.rank == j
    ensures IsStored(k, 0, loc)
  {
    OwnerIs(k, j, 0, o);
    assert Does(k, j, Owner(k, j, 0, o), 0, Item(j, o));
    assert StoredBy(k, 0, loc, Owner(k, j, 0, o), Item(j, o), i);
  }

  lemma ReduceStores(k: Job, j: int, o: int, i: int, loc: Loc)
    requires Sane(k) && Chunked(k) && 0 <= j < k.w && 0 <= o < Len(k) && InChunk(k, j, o) && (k.kind == Quant ==> o % k.g == 0)
    requires StoresAt(ReduceTask(k, j, o), i, loc) && loc.rank == j
    ensures IsStored(k, 1, loc)
  {
    OwnerIs(k, j, Lo(k, j), o);
    assert Does(k, j, Owner(k, j, Lo(k, j), o), 1, Item(j, o));
    assert StoredBy(k, 1, loc, Owner(k, j, Lo(k, j), o), Item(j, o), i);
  }

  /** A partial that rank r adds: the element (or cell i of the group) at o of another rank j. */
  lemma PartialStored(k: Job, j: int, o: int, i: int)
    requires Sane(k) && 0 <= j < k.w && 0 <= o < Len(k) && (Chunked(k) ==> !InChunk(k, j, o)) && (k.kind == Quant ==> o % k.g == 0)
    ensures k.kind != Quant ==> IsStored(k, 0, Elem(Dat, j, o))
    ensures k.kind == Quant && 0 <= i <= k.g ==> IsStored(k, 0, GroupAt(k, Dat, j, o)[i])
  {
    if k.kind != Quant {
      PutStores(k, j, o, 0, Elem(Dat, j, o));
    } else if 0 <= i <= k.g {
      PutStores(k, j, o, i, GroupAt(k, Dat, j, o)[i]);
    }
  }

  lemma ReducedElem(k: Job, j: int, o: int)
    requires Sane(k) && k.kind == TwoShot && 0 <= j < k.w && 0 <= o < Len(k) && InChunk(k, j, o)
    ensures IsStored(k, 1, Elem(Red, j, o - Lo(k, j)))
  {
    ReduceStores(k, j, o, 1, Elem(Red, j, o - Lo(k, j)));
  }

  /** The cells of the reduced group at o, u elements into its chunk, are stores of the reduction. */
  lemma ReducedCodeStored(k: Job, j: int, o: int, u: int, i: int)
    requires Sane(k) && k.kind == Quant && 0 <= j < k.w && 0 <= o < Len(k) && InChunk(k, j, o) && o % k.g == 0
    requires u == o - Lo(k, j) && 0 <= i < k.g
    ensures IsStored(k, 1, CodeAt(Red, j, u + i))
  {
    var n := k.g + i;
    assert StoresAt(ReduceTask(k, j, o), n, CodeAt(Red, j, u + n - k.g));
    ReduceStores(k, j, o, n, CodeAt(Red, j, u + n - k.g));
  }

  lemma ReducedScaleStored(k: Job, j: int, o: int, u: int)
    requires Sane(k) && k.kind == Quant && 0 <= j < k.w && 0 <= o < Len(k) && InChunk(k, j, o) && o % k.g == 0
    requires u == o - Lo(k, j)
    ensures IsStored(k, 1, ScaleAt(k, Red, j, u / k.g))
  {
    ReduceStores(k, j, o, 2 * k.g, ScaleAt(k, Red, j, u / k.g));
  }

  lemma ReducedGroupStored(k: Job, j: int, o: int, u: int, i: int)
    requires Sane(k) && k.kind == Quant && 0 <= j < k.w && 0 <= o < Len(k) && InChunk(k, j, o) && o % k.g == 0
    requires u == o - Lo(k, j) && 0 <= i <= k.g
    ensures IsStored(k, 1, GroupAt(k, Red, j, u)[i])
  {
    if i < k.g { ReducedCodeStored(k, j, o, u, i); } else { ReducedScaleStored(k, j, o, u); }
  }

  lemma QuantLoadStored(k: Job, r: int, o: int, p: int, i: int)
    requires Sane(k) && k.kind == Quant && 0 <= r < k.w && 0 <= o < Len(k) && o % k.g == 0 && InChunk(k, r, o)
    requires 0 <= i <= k.g && 0 <= p < k.w - 1
    ensures IsStored(k, 0, GroupAt(k, Dat, Peer(r, p), o)[i])
  {
    ChunkIs(k, o);
    PartialStored(k, Peer(r, p), o, i);
  }

  lemma ElemLoadStored(k: Job, r: int, o: int, i: int)
    requires Sane(k) && (k.kind == OneShot || k.kind == TwoShot) && 0 <= r < k.w && 0 <= o < Len(k)
    requires (Chunked(k) ==> InChunk(k, r, o)) && 0 <= i < |ReduceTask(k, r, o).loads|
    ensures IsStored(k, 0, ReduceTask(k, r, o).loads[i])
  {
    assert ReduceTask(k, r, o).loads[i] == Elem(Dat, Peer(r, i), o);
    ChunkIs(k, o);
    PartialStored(k, Peer(r, i), o, 0);
  }

  lemma GroupLoadStored(k: Job, r: int, o: int, i: int)
    requires Sane(k) && k.kind == Quant && 0 <= r < k.w && 0 <= o < Len(k)
    requires InChunk(k, r, o) && o % k.g == 0 && 0 <= i < |ReduceTask(k, r, o).loads|
    ensures IsStored(k, 0, ReduceTask(k, r, o).loads[i])
  {
    TableIndex(i, k.w - 1, k.g + 1);
    PeerPart(k, r, o, i / (k.g + 1), i % (k.g + 1));
    QuantLoadStored(k, r, o, i / (k.g + 1), i % (k.g + 1));
  }

  lemma CopyLoadStored(k: Job, j: int, o: int, i: int)
    requires Sane(k) && Chunked(k) && 0 <= j < k.w && 0 <= o < Len(k) && InChunk(k, j, o)
    requires (k.kind == Quant ==> o % k.g == 0) && 0 <= i < |CopyTask(k, j, o).loads|
    ensures IsStored(k, 1, CopyTask(k, j, o).loads[i])
  {
    if k.kind == Quant { ReducedGroupStored(k, j, o, o - Lo(k, j), i); } else { ReducedElem(k, j, o); }
  }

  /** Every cell a task loads was stored, by its owner, in the stage before. */
  lemma LoadStored(k: Job, r: int, b: int, st: int, it: Item, i: int)
    requires Sane(k) && 0 <= r < k.w && 1 <= st <= 2 && it in Items(k, r, b, st) && 0 <= i < |TaskFor(k, r, st, it).loads|
    ensures IsStored(k, st - 1, TaskFor(k, r, st, it).loads[i])
  {
    if st == 2 {
      CopyLoadStored(k, it.j, it.o, i);
    } else if k.kind == Gather {
      PartialStored(k, it.j, it.o, 0);
    } else {
      if k.kind == Quant { GroupLoadStored(k, r, it.o, i); } else { ElemLoadStored(k, r, it.o, i); }
    }
  }

  // ---- stored cells do not overlap ----------------------------------------

  /** Half the bytes of a slot: ROUND of them in a partial slot, ROUND / w in a reduced one. */
  function Half(k: Job, region: Region): int
    requires k.w > 0
  {
    if region == Dat then k.cap else RoundChunk(k)
  }

  /** 16-bit words, or codes in the lower half of the slot and fp32 scales in the upper. */
  ghost predicate CellForm(k: Job, loc: Loc)
    requires k.w > 0
  {
    var h := Half(k, loc.region);
    if k.kind != Quant then loc.len == 2 && loc.off % 2 == 0 && 0 <= loc.off && loc.off + 2 <= 2 * h
    else (loc.len == 1 && 0 <= loc.off < h) || (loc.len == 4 && (loc.off - h) % 4 == 0 && h <= loc.off && loc.off + 4 <= 2 * h)
  }

  lemma FormsDisjoint(k: Job, a: Loc, b: Loc)
    requires k.w > 0 && CellForm(k, a) && CellForm(k, b)
    ensures Disjoint(a, b)
  {}

  /** The scale of the group at o fits after h codes. */
  lemma ScaleFits(o: int, h: int, g: int)
    requires g >= 4 && h % g == 0 && o % g == 0 && 0 <= o < h
    ensures 0 <= 4 * (o / g) && 4 * (o / g) + 4 <= h && 4 * (o / g) % 4 == 0
  {
    Division(o, g);
    Division(h, g);
    if h / g <= o / g { MulLeq(h / g, o / g, g); }
    if o / g < 0 { MulLeq(o / g, -1, g); }
    MulLeq(4, g, h / g);
    MultipleTimes(o / g, 4);
  }

  lemma ScaleForm(k: Job, region: Region, r: int, i: int)
    requires k.w > 0 && k.kind == Quant && 0 <= 4 * i && 4 * i + 4 <= Half(k, region) && 4 * i % 4 == 0
    ensures CellForm(k, ScaleAt(k, region, r, i))
  {}

  lemma PutCodeForm(k: Job, r: int, o: int, i: int)
    requires Sane(k) && k.kind == Quant && 0 <= o < Len(k) && o % k.g == 0 && 0 <= i < k.g
    ensures CellForm(k, CodeAt(Dat, r, o + i))
  {
    GroupEnds(o, k.cap, k.g);
  }

  lemma PutScaleForm(k: Job, r: int, o: int)
    requires Sane(k) && k.kind == Quant && 0 <= o < Len(k) && o % k.g == 0
    ensures CellForm(k, ScaleAt(k, Dat, r, o / k.g))
  {
    ScaleFits(o, k.cap, k.g);
    ScaleForm(k, Dat, r, o / k.g);
  }

  lemma PutForm(k: Job, r: int, o: int, i: int, loc: Loc)
    requires Sane(k) && 0 <= o < Len(k) && (k.kind == Quant ==> o % k.g == 0) && StoresAt(PutTask(k, r, o), i, loc)
    ensures CellForm(k, loc)
  {
    if k.kind == Quant {
      if i < k.g { PutCodeForm(k, r, o, i); } else { PutScaleForm(k, r, o); }
    } else {
      assert loc == Elem(Dat, r, o);
    }
  }

  lemma ReducedCodeForm(k: Job, r: int, u: int, i: int)
    requires Sane(k) && k.kind == Quant && 0 <= u < Chunk(k) && u % k.g == 0 && 0 <= i < k.g
    ensures CellForm(k, CodeAt(Red, r, u + i))
  {
    ChunkFits(k);
    GroupEnds(u, Chunk(k), k.g);
  }

  lemma ReducedScaleForm(k: Job, r: int, u: int)
    requires Sane(k) && k.kind == Quant && 0 <= u < Chunk(k) && u % k.g == 0
    ensures CellForm(k, ScaleAt(k, Red, r, u / k.g))
  {
    ChunkFits(k);
    ScaleFits(u, RoundChunk(k), k.g);
    ScaleForm(k, Red, r, u / k.g);
  }

  lemma QuantReduceForm(k: Job, r: int, o: int, u: int, i: int, loc: Loc)
    requires Sane(k) && k.kind == Quant && u == o - Lo(k, r) && StoresAt(ReduceTask(k, r, o), i, loc)
    requires u % k.g == 0 && InChunk(k, r, o)
    ensures CellForm(k, loc)
  {
    if i < 2 * k.g {
      assert loc == CodeAt(Red, r, u + i - k.g);
      ReducedCodeForm(k, r, u, i - k.g);
    } else {
      assert loc == ScaleAt(k, Red, r, u / k.g);
      ReducedScaleForm(k, r, u);
    }
  }

  lemma ReduceForm(k: Job, r: int, o: int, i: int, loc: Loc)
    requires Sane(k) && (k.kind == OneShot || k.kind == TwoShot) && StoresAt(ReduceTask(k, r, o), i, loc)
    requires 0 <= o < Len(k) && (Chunked(k) ==> InChunk(k, r, o))
    ensures CellForm(k, loc)
  {
    ChunkFits(k);
    assert k.kind == TwoShot && loc == Elem(Red, r, o - Lo(k, r));
  }

  lemma StoredForm(k: Job, st: int, loc: Loc, b: int, it: Item, i: int)
    requires Sane(k) && k.grid(loc.rank) > 0 && StoredBy(k, st, loc, b, it, i)
    ensures CellForm(k, loc)
  {
    var r := loc.rank;
    if st == 0 {
      PutForm(k, r, it.o, i, loc);
    } else if st == 1 && k.kind != Gather {
      if k.kind == Quant {
        GroupStarts(k, r);
        MultipleSum(it.o, Lo(k, r), k.g);
        QuantReduceForm(k, r, it.o, it.o - Lo(k, r), i, loc);
      } else {
        ReduceForm(k, r, it.o, i, loc);
      }
    }
  }

  // ---- every output element is written ------------------------------------

  ghost predicate WrittenBy(k: Job, r: int, idx: int, b: int, st: int, it: Item, n: int)
    requires k.w > 0 && k.g > 0 && k.blk > 0 && k.grid(r) > 0
  {
    && 0 <= b < k.grid(r) && 0 <= st <= (if Chunked(k) then 2 else 1)
    && it in Items(k, r, b, st) && WritesAt(TaskFor(k, r, st, it), n, idx)
  }

  ghost predicate IsWritten(k: Job, r: int, idx: int)
    requires k.w > 0 && k.g > 0 && k.blk > 0 && k.grid(r) > 0
  {
    exists b, st, it, n :: WrittenBy(k, r, idx, b, st, it, n)
  }

  lemma ReduceWrites(k: Job, r: int, o: int, i: int)
    requires Sane(k) && k.kind != Gather && 0 <= r < k.w && 0 <= o < Len(k)
    requires (Chunked(k) ==> InChunk(k, r, o)) && (k.kind == Quant ==> o % k.g == 0 && 0 <= i < k.g) && (k.kind != Quant ==> i == 0)
    ensures IsWritten(k, r, k.base + o + i)
  {
    var b := Owner(k, r, if Chunked(k) then Lo(k, r) else 0, o);
    assert Does(k, r, b, 1, Item(r, o));
    assert WritesAt(ReduceTask(k, r, o), i, k.base + o + i);
    assert WrittenBy(k, r, k.base + o + i, b, 1, Item(r, o), i);
  }

  lemma CopyWrites(k: Job, r: int, j: int, o: int, i: int)
    requires Sane(k) && Chunked(k) && 0 <= r < k.w && 0 <= j < k.w && j != r && 0 <= o < Len(k) && InChunk(k, j, o)
    requires (k.kind == Quant ==> o % k.g == 0 && 0 <= i < k.g) && (k.kind != Quant ==> i == 0)
    ensures IsWritten(k, r, k.base + o + i)
  {
    var b := Owner(k, r, Lo(k, j), o);
    assert Does(k, r, b, 2, Item(j, o));
    assert WritesAt(CopyTask(k, j, o), i, k.base + o + i);
    assert WrittenBy(k, r, k.base + o + i, b, 2, Item(j, o), i);
  }

  lemma ChunkWritten(k: Job, r: int, o: int, i: int)
    requires Sane(k) && k.kind != Gather && 0 <= r < k.w && 0 <= o < Len(k)
    requires (k.kind == Quant ==> o % k.g == 0 && 0 <= i < k.g) && (k.kind != Quant ==> i == 0)
    ensures IsWritten(k, r, k.base + o + i)
  {
    ChunkIs(k, o);
    if Chunked(k) && ChunkOf(k, o) != r { CopyWrites(k, r, ChunkOf(k, o), o, i); } else { ReduceWrites(k, r, o, i); }
  }

  /** Element o of the round is written on every rank. */
  lemma RoundWritten(k: Job, r: int, o: int)
    requires Sane(k) && k.kind != Gather && 0 <= r < k.w && 0 <= o < Len(k)
    ensures IsWritten(k, r, k.base + o)
  {
    if k.kind == Quant {
      var g0 := o / k.g * k.g;
      Division(o, k.g);
      MultipleTimes(o / k.g, k.g);
      if o / k.g < 0 { MulLeq(o / k.g, -1, k.g); }
      ChunkWritten(k, r, g0, o % k.g);
    } else {
      ChunkWritten(k, r, o, 0);
    }
  }

  lemma GatherWritten(k: Job, r: int, j: int, o: int)
    requires Sane(k) && k.kind == Gather && 0 <= r < k.w && 0 <= j < k.w && 0 <= o < Len(k)
    ensures IsWritten(k, r, j * k.n + k.base + o)
  {
    var b := Owner(k, r, 0, o);
    if j == r {
      assert Does(k, r, b, 0, Item(r, o));
      assert WrittenBy(k, r, j * k.n + k.base + o, b, 0, Item(r, o), 1);
    } else {
      assert Does(k, r, b, 1, Item(j, o));
      assert WrittenBy(k, r, j * k.n + k.base + o, b, 1, Item(j, o), 0);
    }
  }
}
