/** The CPU side of suffix_hybrid/host_ar.py: the routing policy, the round count, and the torch
    reference of the int8 kernel, which computes what the protocol delivers. */
module HostReference {
  import opened IntMath
  import opened HostMachine
  import opened HostKernels
  import opened HostLegal
  import opened HostCollectives
  import opened Wrappers

  /** The kernel for an n-element message; the last two arguments override the size policy. */
  function Route(n: int, oneshotMax: int, q8Min: int, g: int, oneshot: Option<bool>, q8: Option<bool>): Kind
    requires g > 0
  {
    var one := if oneshot.None? then n * 2 <= oneshotMax else oneshot.value;
    var eight := if q8.None? then !one && n * 2 >= q8Min else q8.value;
    if eight && n % g == 0 then Quant else if one then OneShot else TwoShot
  }

  /** Whatever the policy and the overrides, a routed message meets its kernel's requirements, and
      int8 transport is never chosen unasked for a message that one-shot takes. */
  lemma RouteSafe(f: Config, n: int, x: (int, int) -> Val, grid: int -> int, oneshotMax: int, q8Min: int, oneshot: Option<bool>, q8: Option<bool>)
    requires ConfigOk(f) && n >= 1 && forall r :: 0 <= r < f.w ==> grid(r) >= 1
    ensures var kind := Route(n, oneshotMax, q8Min, f.g, oneshot, q8);
      && CallOk(f, Call(kind, n, x, grid)) && kind != Gather
      && (q8 == None && kind == Quant ==> n * 2 >= q8Min && (oneshot == None ==> n * 2 > oneshotMax))
      && (q8 == None && q8Min > n * 2 ==> (kind == OneShot <==> (if oneshot == None then n * 2 <= oneshotMax else oneshot.value)))
  {}

  /** Python's -(-n // r): the least number of rounds that hold n elements. */
  function Rounds(n: int, r: int): (k: int)
    requires n >= 0 && r > 0
    ensures (k - 1) * r < n <= k * r && k >= 0
  {
    Division(-n, r);
    assert -((-n) / r) * r == -(((-n) / r) * r);
    RoundsPositive(n, r);
    -((-n) / r)
  }

  lemma RoundsPositive(n: int, r: int)
    requires n >= 0 && r > 0
    ensures -((-n) / r) >= 0
  {
    Division(-n, r);
    if (-n) / r >= 1 { MulLeq(1, (-n) / r, r); }
  }

  /** The policy's round count is the number of epochs a launch uses. */
  lemma RoundsAreEpochs(f: Config, calls: seq<Call>, c: int)
    requires ConfigOk(f) && CallsOk(f, calls) && 0 <= c < |calls|
    ensures StartOf(f, calls, c + 1) - StartOf(f, calls, c) == Rounds(calls[c].n, f.cap)
  {
    var n, k := calls[c].n, Rounds(calls[c].n, f.cap);
    CeilDivLeast(n, f.cap, k);
    CeilDivLeast(n, f.cap, k - 1);
  }

  // ---- q8_reference -------------------------------------------------------

  /** The group of g entries of v that entry i is in. */
  function GroupOf(v: seq<Val>, g: int, i: int): seq<Val>
    requires g > 0
  {
    seq(g, t => At(v, i - i % g + t))
  }

  /** deq(*quant(v)): what int8 transport makes of every entry. */
  function Transport(ar: Arith, v: seq<Val>, g: int): (u: seq<Val>)
    requires g > 0
    ensures |u| == |v|
  {
    seq(|v|, i => ar.deq(ar.code(GroupOf(v, g, i), i % g), ar.scale(GroupOf(v, g, i))))
  }

  /** Entry i of the accumulator of chunk c, which starts at lo, after the terms of ranks below m. */
  function Partial(k: Job, c: int, lo: int, i: int, m: int): Val
    requires k.g > 0
  {
    Sum(k.ar, j => Term(k, c, lo + i - i % k.g, i % k.g, j), m)
  }

  ghost predicate Accumulated(k: Job, c: int, lo: int, m: int, acc: seq<Val>)
    requires k.g > 0
  {
    forall i :: 0 <= i < |acc| ==> acc[i] == Partial(k, c, lo, i, m)
  }

  /** The inputs of rank j on [lo, lo + len). */
  function Slice(k: Job, j: int, lo: int, len: int): (t: seq<Val>)
    requires len >= 0
    ensures |t| == len
  {
    seq(len, i => k.ar.up(k.x(j, k.base + lo + i)))
  }

  lemma GroupStart(i: int, g: int, len: int)
    requires g > 0 && 0 <= i < len && len % g == 0
    ensures 0 <= i - i % g && (i - i % g) % g == 0 && i - i % g + g <= len
  {
    Division(i, g);
    MultipleTimes(i / g, g);
    if i / g < 0 { MulLeq(i / g, -1, g); }
    GroupEnds(i / g * g, len, g);
  }

  lemma SliceAt(k: Job, j: int, lo: int, len: int, s: int, t: int)
    requires k.g > 0 && 0 <= s && 0 <= t < k.g && s + k.g <= len
    ensures At(Slice(k, j, lo, len), s + t) == Group(k, j, lo + s)[t]
  {
    assert k.base + lo + (s + t) == k.base + (lo + s) + t;
  }

  lemma SliceGroup(k: Job, j: int, lo: int, len: int, i: int)
    requires k.g > 0 && 0 <= i < len && len % k.g == 0
    ensures GroupOf(Slice(k, j, lo, len), k.g, i) == Group(k, j, lo + i - i % k.g)
  {
    GroupStart(i, k.g, len);
    var s, u := i - i % k.g, Slice(k, j, lo, len);
    forall t | 0 <= t < k.g ensures GroupOf(u, k.g, i)[t] == Group(k, j, lo + s)[t] { SliceAt(k, j, lo, len, s, t); }
    assert lo + s == lo + i - i % k.g;
  }

  /** Adding rank j's slice, as it is or transported, adds its term. */
  lemma AddTerm(k: Job, c: int, lo: int, j: int, acc: seq<Val>, i: int)
    requires k.g > 0 && j >= 0 && 0 <= i < |acc| && |acc| % k.g == 0 && Accumulated(k, c, lo, j, acc)
    ensures var t := Slice(k, j, lo, |acc|);
      k.ar.add(acc[i], (if j == c then t else Transport(k.ar, t, k.g))[i]) == Partial(k, c, lo, i, j + 1)
  {
    SliceGroup(k, j, lo, |acc|, i);
    GroupStart(i, k.g, |acc|);
  }

  lemma PartialInGroup(k: Job, c: int, lo: int, s: int, t: int)
    requires k.g > 0 && s % k.g == 0 && 0 <= t < k.g
    ensures Partial(k, c, lo, s + t, k.w) == ReducedGroup(k, c, lo + s)[t]
  {
    InGroup(s, k.g, t);
    SumSame(k.ar, j => Term(k, c, lo + (s + t) - (s + t) % k.g, (s + t) % k.g, j), j => Term(k, c, lo + s, t, j), k.w);
  }

  lemma AccumulatedGroup(k: Job, c: int, lo: int, acc: seq<Val>, i: int)
    requires k.g > 0 && 0 <= i < |acc| && |acc| % k.g == 0 && Accumulated(k, c, lo, k.w, acc)
    ensures GroupOf(acc, k.g, i) == ReducedGroup(k, c, lo + i - i % k.g)
  {
    var s := i - i % k.g;
    GroupStart(i, k.g, |acc|);
    forall t | 0 <= t < k.g ensures GroupOf(acc, k.g, i)[t] == ReducedGroup(k, c, lo + s)[t] {
      assert GroupOf(acc, k.g, i)[t] == At(acc, s + t);
      assert acc[s + t] == Partial(k, c, lo, s + t, k.w);
      PartialInGroup(k, c, lo, s, t);
    }
    assert lo + s == lo + i - i % k.g;
  }

  /** Entry i of chunk c is in the group that starts at a multiple of g inside that chunk. */
  lemma ChunkEntry(k: Job, c: int, i: int)
    requires Sane(k) && k.kind == Quant && 0 <= c < k.w && 0 <= i < Hi(k, c) - Lo(k, c)
    ensures (Lo(k, c) + i) % k.g == i % k.g && ChunkOf(k, Lo(k, c) + i - i % k.g) == c
  {
    var lo, s := Lo(k, c), i - i % k.g;
    GroupStarts(k, c);
    MultipleSum(Hi(k, c), lo, k.g);
    GroupStart(i, k.g, Hi(k, c) - lo);
    MultipleSum(lo, s, k.g);
    InGroup(lo + s, k.g, i % k.g);
    ChunkFits(k);
    MulLeq(0, c, Chunk(k));
    assert InChunk(k, c, lo + s);
    ChunkIs(k, lo + s);
  }

  /** A transported accumulator holds the kernel's result. */
  lemma ChunkResult(k: Job, c: int, lo: int, acc: seq<Val>, i: int)
    requires Sane(k) && k.kind == Quant && 0 <= c < k.w && lo == Lo(k, c) && |acc| == Hi(k, c) - lo && 0 <= i < |acc|
    requires |acc| % k.g == 0 && Accumulated(k, c, lo, k.w, acc)
    ensures k.ar.down(Transport(k.ar, acc, k.g)[i]) == QuantResult(k, lo + i)
  {
    ChunkEntry(k, c, i);
    AccumulatedGroup(k, c, lo, acc, i);
  }

  method Accumulate(k: Job, c: int, lo: int, len: int) returns (acc: seq<Val>)
    requires k.g > 0 && k.w >= 0 && len >= 0 && len % k.g == 0
    ensures |acc| == len && Accumulated(k, c, lo, k.w, acc)
  {
    acc := seq(len, i => k.ar.zero);
    var j := 0;
    while j < k.w
      invariant 0 <= j <= k.w && |acc| == len && Accumulated(k, c, lo, j, acc)
    {
      var t := Slice(k, j, lo, len);
      if j != c { t := Transport(k.ar, t, k.g); }
      forall i | 0 <= i < len ensures k.ar.add(acc[i], t[i]) == Partial(k, c, lo, i, j + 1) {
        AddTerm(k, c, lo, j, acc, i);
      }
      acc := seq(len, i requires 0 <= i < len && len == |acc| == |t| => k.ar.add(acc[i], t[i]));
      j := j + 1;
    }
  }

  method ReferenceChunk(k: Job, c: int, lo: int, hi: int) returns (res: seq<Val>)
    requires Sane(k) && k.kind == Quant && 0 <= c < k.w && lo == Lo(k, c) && hi == Hi(k, c) && lo < hi
    ensures |res| == hi - lo && forall i :: 0 <= i < hi - lo ==> res[i] == QuantResult(k, lo + i)
  {
    GroupStarts(k, c);
    MultipleSum(hi, lo, k.g);
    var acc := Accumulate(k, c, lo, hi - lo);
    var part := Transport(k.ar, acc, k.g);
    forall i | 0 <= i < hi - lo ensures k.ar.down(part[i]) == QuantResult(k, lo + i) { ChunkResult(k, c, lo, acc, i); }
    res := seq(hi - lo, i requires 0 <= i < hi - lo == |part| => k.ar.down(part[i]));
  }

  /** The torch reference of one round: chunk by chunk, the owner's own slice exactly, every other
      rank's transported, the sum transported again. It is what the kernel leaves. */
  method QuantReference(k: Job) returns (out: seq<Val>)
    requires Sane(k) && k.kind == Quant
    ensures |out| == Len(k) && forall o :: 0 <= o < Len(k) ==> out[o] == QuantResult(k, o)
  {
    var n := Len(k);
    var ch := CeilDiv(CeilDiv(n, k.w), k.g) * k.g;
    ChunkFits(k);
    out := seq(n, i => 0);
    var c := 0;
    while c < k.w
      invariant 0 <= c <= k.w && |out| == n
      invariant forall o :: 0 <= o < Min(c * ch, n) ==> out[o] == QuantResult(k, o)
    {
      var lo, hi := c * ch, Min((c + 1) * ch, n);
      Distribute(c, 1, ch);
      if lo < hi {
        MulLeq(0, c, ch);
        var res := ReferenceChunk(k, c, lo, hi);
        forall o | lo <= o < hi ensures res[o - lo] == QuantResult(k, o) { assert lo + (o - lo) == o; }
        out := out[..lo] + res + out[hi..];
      }
      c := c + 1;
    }
  }
}
