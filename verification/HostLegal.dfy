/** The kernels' tasks load what the stage before stored and compute what they are meant to. */
module HostLegal {
  import opened HostMachine
  import opened HostKernels
  import opened IntMath

  // ---- arithmetic of chunks -----------------------------------------------

  /** The chunks are aligned, cover the round and fit their slots: ch <= ROUND / WORLD. */
  lemma ChunkFits(k: Job)
    requires Sane(k)
    ensures 0 <= Chunk(k) <= RoundChunk(k) && Chunk(k) % Align(k) == 0 && 1 <= Len(k) <= k.w * Chunk(k) && Len(k) <= k.cap
  {
    Division(k.cap, k.w);
    ChunkMath(Len(k), k.w, Align(k), RoundChunk(k));
  }

  /** Every element of the round is in the chunk of exactly one rank. */
  lemma ChunkIs(k: Job, o: int)
    requires Sane(k) && 0 <= o < Len(k)
    ensures Chunk(k) > 0 && 0 <= ChunkOf(k, o) < k.w && InChunk(k, ChunkOf(k, o), o)
    ensures forall j :: InChunk(k, j, o) ==> j == ChunkOf(k, o)
  {
    ChunkFits(k);
    ChunkOfMath(o, Chunk(k), k.w);
  }

  lemma GroupStarts(k: Job, r: int)
    requires Sane(k) && k.kind == Quant
    ensures Lo(k, r) % k.g == 0 && Len(k) % k.g == 0 && Hi(k, r) % k.g == 0
  {
    ChunkFits(k);
    Division(Chunk(k), k.g);
    assert Lo(k, r) == r * (Chunk(k) / k.g * k.g) == (r * (Chunk(k) / k.g)) * k.g;
    MultipleTimes(r * (Chunk(k) / k.g), k.g);
    MultipleSum(k.n, k.base, k.g);
    MultipleSum(Lo(k, r), Chunk(k), k.g);
  }

  // ---- values -------------------------------------------------------------

  lemma {:induction false} SumSame(ar: Arith, u: int -> Val, v: int -> Val, m: int)
    requires forall j :: 0 <= j < m ==> u(j) == v(j)
    ensures Sum(ar, u, m) == Sum(ar, v, m)
    decreases m
  {
    if m > 0 { SumSame(ar, u, v, m - 1); }
  }

  /** What was loaded is what the specification says the cells hold. */
  ghost predicate Loaded(k: Job, t: Task, vs: seq<Val>)
    requires k.w > 0 && k.g > 0
  {
    |vs| == |t.loads| && forall i :: 0 <= i < |vs| ==> vs[i] == HostSpec(k, t.loads[i])
  }

  ghost predicate GoodStore(k: Job, r: int, st: int, x: Store, vs: seq<Val>)
    requires k.w > 0 && k.g > 0 && k.n > 0
  {
    match x
    case Host(loc, f) => st <= 1 && loc.rank == r && loc.region == (if st == 0 then Dat else Red) && f(vs) == HostSpec(k, loc)
    case Out(idx, f) => f(vs) == OutSpec(k, idx)
  }

  ghost predicate GoodTask(k: Job, r: int, st: int, t: Task, vs: seq<Val>)
    requires k.w > 0 && k.g > 0 && k.n > 0
  {
    Loaded(k, t, vs) ==> forall i :: 0 <= i < |t.stores| ==> GoodStore(k, r, st, t.stores[i], vs)
  }

  lemma AddedIs(k: Job, r: int, o: int, vs: seq<Val>)
    requires Sane(k) && k.kind != Quant && 0 <= r < k.w && |vs| == k.w - 1
    requires forall i :: 0 <= i < |vs| ==> vs[i] == k.x(Peer(r, i), k.base + o)
    ensures Added(k, r, o, vs) == RankSum(k.ar, k.w, k.x, k.base + o)
  {
    var u := j => k.ar.up(if j == r then k.x(r, k.base + o) else At(vs, Slot(r, j)));
    var v := j => k.ar.up(k.x(j, k.base + o));
    forall j | 0 <= j < k.w ensures u(j) == v(j) {
      if j != r { assert Peer(r, Slot(r, j)) == j && 0 <= Slot(r, j) < k.w - 1; }
    }
    SumSame(k.ar, u, v, k.w);
  }

  lemma PutGood(k: Job, r: int, o: int, vs: seq<Val>)
    requires Sane(k) && k.kind != Quant && 0 <= r < k.w && 0 <= o < Len(k)
    ensures GoodTask(k, r, 0, PutTask(k, r, o), vs)
  {
    if k.kind == Gather { QuotientIs(r * k.n + k.base + o, k.n, r); }
  }

  lemma ReduceGood(k: Job, r: int, o: int, vs: seq<Val>)
    requires Sane(k) && (k.kind == OneShot || k.kind == TwoShot) && 0 <= r < k.w && 0 <= o < Len(k)
    ensures GoodTask(k, r, 1, ReduceTask(k, r, o), vs)
  {
    var t := ReduceTask(k, r, o);
    if Loaded(k, t, vs) {
      forall i | 0 <= i < |vs| ensures vs[i] == k.x(Peer(r, i), k.base + o) {
        assert t.loads[i] == Elem(Dat, Peer(r, i), o);
      }
      AddedIs(k, r, o, vs);
    }
  }

  lemma CopyGood(k: Job, r: int, st: int, j: int, o: int, vs: seq<Val>)
    requires Sane(k) && k.kind != Quant && 0 <= j < k.w && 0 <= o < Len(k)
    ensures GoodTask(k, r, st, CopyTask(k, j, o), vs)
  {
    if k.kind == Gather { QuotientIs(j * k.n + k.base + o, k.n, j); }
  }

  // ---- the int8 kernel ----------------------------------------------------

  /** The specification of a code and of a scale in a partial and in a reduced slot. */
  lemma CodeCell(k: Job, j: int, o: int, i: int)
    requires Sane(k) && k.kind == Quant && o % k.g == 0 && 0 <= i < k.g
    ensures HostSpec(k, CodeAt(Dat, j, o + i)) == k.ar.code(Group(k, j, o), i)
    ensures HostSpec(k, CodeAt(Red, j, o - Lo(k, j) + i)) == k.ar.code(ReducedGroup(k, j, o), i)
  {
    InGroup(o, k.g, i);
    GroupStarts(k, j);
    MultipleSum(o, Lo(k, j), k.g);
    InGroup(o - Lo(k, j), k.g, i);
  }

  lemma ScaleCell(k: Job, j: int, o: int)
    requires Sane(k) && k.kind == Quant && o % k.g == 0
    ensures HostSpec(k, ScaleAt(k, Dat, j, o / k.g)) == k.ar.scale(Group(k, j, o))
    ensures HostSpec(k, ScaleAt(k, Red, j, (o - Lo(k, j)) / k.g)) == k.ar.scale(ReducedGroup(k, j, o))
  {
    InGroup(o, k.g, 0);
    GroupStarts(k, j);
    MultipleSum(o, Lo(k, j), k.g);
    InGroup(o - Lo(k, j), k.g, 0);
    assert 4 * (o / k.g) / 4 == o / k.g && 4 * ((o - Lo(k, j)) / k.g) / 4 == (o - Lo(k, j)) / k.g;
  }

  lemma QuantPutGood(k: Job, r: int, o: int, vs: seq<Val>)
    requires Sane(k) && k.kind == Quant && 0 <= r < k.w && 0 <= o < Len(k) && o % k.g == 0
    ensures GoodTask(k, r, 0, PutTask(k, r, o), vs)
  {
    var t := PutTask(k, r, o);
    forall i | 0 <= i < |t.stores| ensures GoodStore(k, r, 0, t.stores[i], vs) {
      if i < k.g { CodeCell(k, r, o, i); } else { ScaleCell(k, r, o); }
    }
  }

  lemma QuantIs(k: Job, j: int, o: int, i: int)
    requires Sane(k) && k.kind == Quant && 0 <= o < Len(k) && o % k.g == 0 && InChunk(k, j, o) && 0 <= i < k.g
    ensures OutSpec(k, k.base + o + i) == Decoded(k.ar, ReducedGroup(k, j, o), i)
  {
    ChunkIs(k, o);
    InGroup(o, k.g, i);
  }

  /** The p-th peer's part of what the int8 reduction loads. */
  lemma PeerPart(k: Job, r: int, o: int, p: int, i: int)
    requires Sane(k) && k.kind == Quant && 0 <= p < k.w - 1 && 0 <= i <= k.g
    ensures 0 <= (k.g + 1) * p + i < |ReduceTask(k, r, o).loads|
    ensures ReduceTask(k, r, o).loads[(k.g + 1) * p + i] == GroupAt(k, Dat, Peer(r, p), o)[i]
  {
    RowMajor(p, k.w - 1, k.g + 1, i);
  }

  lemma PeerValue(k: Job, r: int, o: int, vs: seq<Val>, i: int, j: int)
    requires Sane(k) && k.kind == Quant && 0 <= r < k.w && Loaded(k, ReduceTask(k, r, o), vs)
    requires 0 <= i <= k.g && 0 <= j < k.w && j != r
    ensures FromPeer(k, r, j, i, vs) == HostSpec(k, GroupAt(k, Dat, j, o)[i])
  {
    assert Peer(r, Slot(r, j)) == j && 0 <= Slot(r, j) < k.w - 1;
    PeerPart(k, r, o, Slot(r, j), i);
  }

  lemma PeerCode(k: Job, r: int, o: int, vs: seq<Val>, i: int, j: int)
    requires Sane(k) && k.kind == Quant && 0 <= r < k.w && o % k.g == 0 && Loaded(k, ReduceTask(k, r, o), vs)
    requires 0 <= i < k.g && 0 <= j < k.w && j != r
    ensures FromPeer(k, r, j, i, vs) == k.ar.code(Group(k, j, o), i)
  {
    PeerValue(k, r, o, vs, i, j);
    CodeCell(k, j, o, i);
  }

  lemma PeerScale(k: Job, r: int, o: int, vs: seq<Val>, j: int)
    requires Sane(k) && k.kind == Quant && 0 <= r < k.w && o % k.g == 0 && Loaded(k, ReduceTask(k, r, o), vs)
    requires 0 <= j < k.w && j != r
    ensures FromPeer(k, r, j, k.g, vs) == k.ar.scale(Group(k, j, o))
  {
    PeerValue(k, r, o, vs, k.g, j);
    ScaleCell(k, j, o);
  }

  lemma AddedTerm(k: Job, r: int, o: int, vs: seq<Val>, i: int)
    requires Sane(k) && k.kind == Quant && 0 <= r < k.w && o % k.g == 0 && Loaded(k, ReduceTask(k, r, o), vs) && 0 <= i < k.g
    ensures forall j :: 0 <= j < k.w && j != r ==>
      k.ar.deq(FromPeer(k, r, j, i, vs), FromPeer(k, r, j, k.g, vs)) == Term(k, r, o, i, j)
  {
    forall j | 0 <= j < k.w && j != r
      ensures k.ar.deq(FromPeer(k, r, j, i, vs), FromPeer(k, r, j, k.g, vs)) == Term(k, r, o, i, j)
    {
      PeerCode(k, r, o, vs, i, j);
      PeerScale(k, r, o, vs, j);
    }
  }

  lemma AddedEntry(k: Job, r: int, o: int, vs: seq<Val>, i: int)
    requires Sane(k) && 0 <= r < k.w && 0 <= i < k.g
    requires forall j :: 0 <= j < k.w && j != r ==>
      k.ar.deq(FromPeer(k, r, j, i, vs), FromPeer(k, r, j, k.g, vs)) == Term(k, r, o, i, j)
    ensures AddedGroup(k, r, o, vs)[i] == ReducedGroup(k, r, o)[i]
  {
    var u := j =>
      if j == r then k.ar.up(k.x(r, k.base + o + i))
      else k.ar.deq(FromPeer(k, r, j, i, vs), FromPeer(k, r, j, k.g, vs));
    SumSame(k.ar, u, j => Term(k, r, o, i, j), k.w);
  }

  lemma AddedGroupIs(k: Job, r: int, o: int, vs: seq<Val>)
    requires Sane(k) && k.kind == Quant && 0 <= r < k.w && o % k.g == 0 && Loaded(k, ReduceTask(k, r, o), vs)
    ensures AddedGroup(k, r, o, vs) == ReducedGroup(k, r, o)
  {
    forall i | 0 <= i < k.g ensures AddedGroup(k, r, o, vs)[i] == ReducedGroup(k, r, o)[i] {
      AddedTerm(k, r, o, vs, i);
      AddedEntry(k, r, o, vs, i);
    }
  }

  lemma QuantReduceStore(k: Job, r: int, o: int, vs: seq<Val>, i: int)
    requires Sane(k) && k.kind == Quant && 0 <= r < k.w && 0 <= o < Len(k) && o % k.g == 0 && InChunk(k, r, o)
    requires AddedGroup(k, r, o, vs) == ReducedGroup(k, r, o) && 0 <= i < |ReduceTask(k, r, o).stores|
    ensures GoodStore(k, r, 1, ReduceTask(k, r, o).stores[i], vs)
  {
    if i < k.g {
      QuantIs(k, r, o, i);
    } else if i < 2 * k.g {
      CodeCell(k, r, o, i - k.g);
    } else {
      ScaleCell(k, r, o);
    }
  }

  lemma QuantReduceGood(k: Job, r: int, o: int, vs: seq<Val>)
    requires Sane(k) && k.kind == Quant && 0 <= r < k.w && 0 <= o < Len(k) && o % k.g == 0 && InChunk(k, r, o)
    ensures GoodTask(k, r, 1, ReduceTask(k, r, o), vs)
  {
    var t := ReduceTask(k, r, o);
    if Loaded(k, t, vs) {
      AddedGroupIs(k, r, o, vs);
      forall i | 0 <= i < |t.stores| ensures GoodStore(k, r, 1, t.stores[i], vs) { QuantReduceStore(k, r, o, vs, i); }
    }
  }

  lemma QuantCopyStore(k: Job, r: int, j: int, o: int, vs: seq<Val>, i: int)
    requires Sane(k) && k.kind == Quant && 0 <= j < k.w && 0 <= o < Len(k) && o % k.g == 0 && InChunk(k, j, o) && 0 <= i < k.g
    requires At(vs, i) == HostSpec(k, CodeAt(Red, j, o - Lo(k, j) + i))
    requires At(vs, k.g) == HostSpec(k, ScaleAt(k, Red, j, (o - Lo(k, j)) / k.g))
    ensures GoodStore(k, r, 2, CopyTask(k, j, o).stores[i], vs)
  {
    QuantIs(k, j, o, i);
    CodeCell(k, j, o, i);
    ScaleCell(k, j, o);
  }

  lemma QuantCopyGood(k: Job, r: int, j: int, o: int, vs: seq<Val>)
    requires Sane(k) && k.kind == Quant && 0 <= j < k.w && 0 <= o < Len(k) && o % k.g == 0 && InChunk(k, j, o)
    ensures GoodTask(k, r, 2, CopyTask(k, j, o), vs)
  {
    var t := CopyTask(k, j, o);
    if Loaded(k, t, vs) {
      forall i | 0 <= i < |t.stores| ensures GoodStore(k, r, 2, t.stores[i], vs) {
        assert t.loads[i] == CodeAt(Red, j, o - Lo(k, j) + i) && t.loads[k.g] == ScaleAt(k, Red, j, (o - Lo(k, j)) / k.g);
        QuantCopyStore(k, r, j, o, vs, i);
      }
    }
  }

  /** Every task computes the intended values from the intended values. */
  lemma TaskGood(k: Job, r: int, b: int, st: int, it: Item, vs: seq<Val>)
    requires Sane(k) && 0 <= r < k.w && 0 <= st <= 2 && it in Items(k, r, b, st)
    ensures GoodTask(k, r, st, TaskFor(k, r, st, it), vs)
  {
    if st == 0 {
      if k.kind == Quant { QuantPutGood(k, r, it.o, vs); } else { PutGood(k, r, it.o, vs); }
    } else if st == 1 && k.kind != Gather {
      if k.kind == Quant { QuantReduceGood(k, r, it.o, vs); } else { ReduceGood(k, r, it.o, vs); }
    } else {
      if k.kind == Quant { QuantCopyGood(k, r, it.j, it.o, vs); } else { CopyGood(k, r, st, it.j, it.o, vs); }
    }
  }
}
