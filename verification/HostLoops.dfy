/** The strided, masked loops of the kernels: block pid of a grid takes one BLOCK in every
    grid * BLOCK elements. Together the blocks handle every element, each exactly once. */
module HostLoops {
  import opened IntMath
  import HostKernels

  /** Element o of a loop from `from` is block pid's. */
  predicate Mine(from: int, pid: int, grid: int, blk: int, o: int)
    requires grid > 0 && blk > 0
  {
    ((o - from) / blk) % grid == pid
  }

  /** The share of a block is what the kernels' tasks give it. */
  lemma MineIsOwned(k: HostKernels.Job, r: int, from: int, b: int, o: int)
    requires k.blk > 0 && k.grid(r) > 0
    ensures Mine(from, b, k.grid(r), k.blk, o) <==> HostKernels.Owner(k, r, from, o) == b
  {}

  predicate Increasing(s: seq<int>) {
    forall i, j :: 0 <= i < j < |s| ==> s[i] < s[j]
  }

  lemma JoinIncreasing(a: seq<int>, b: seq<int>, m: int)
    requires Increasing(a) && Increasing(b) && (forall x :: x in a ==> x < m) && forall y :: y in b ==> m <= y
    ensures Increasing(a + b)
  {
    forall i, j | 0 <= i < j < |a + b| ensures (a + b)[i] < (a + b)[j] {
      if i < |a| { assert a[i] in a; }
      if j >= |a| { assert b[j - |a|] in b; }
    }
  }

  /** In a turn that starts at position (pid + t * grid) * blk, the first blk elements are the block's
      and the rest of the grid's turn is not. */
  lemma Turn(pid: int, grid: int, blk: int, t: int, x: int)
    requires 0 <= pid < grid && blk > 0 && t >= 0
    requires (pid + t * grid) * blk <= x < (pid + t * grid) * blk + grid * blk
    ensures (x / blk) % grid == pid <==> x < (pid + t * grid) * blk + blk
  {
    var u := pid + t * grid;
    Division(x, blk);
    if x / blk < u { MulLeq(x / blk + 1, u, blk); }
    if x / blk >= u + grid { MulLeq(u + grid, x / blk, blk); Distribute(u, grid, blk); }
    if x / blk == u {
      QuotientIs(u, grid, t);
    } else {
      MulLeq(u + 1, x / blk, blk);
      if x / blk < (t + 1) * grid { QuotientIs(x / blk, grid, t); } else { QuotientIs(x / blk, grid, t + 1); }
    }
  }

  /** Nothing before the block's first turn is its own. */
  lemma BeforeTurns(pid: int, grid: int, blk: int, x: int)
    requires 0 <= pid < grid && blk > 0 && 0 <= x < pid * blk
    ensures (x / blk) % grid != pid
  {
    Division(x, blk);
    if x / blk >= pid { MulLeq(pid, x / blk, blk); }
    if x / blk < 0 { MulLeq(x / blk, -1, blk); }
    QuotientIs(x / blk, grid, 0);
  }

  /** for s in range(from + pid * BLOCK, limit, grid * BLOCK): the elements s .. s + BLOCK - 1 below
      limit, in the order in which the block handles them. */
  method Strided(from: int, limit: int, pid: int, grid: int, blk: int) returns (seen: seq<int>)
    requires 0 <= pid < grid && blk > 0
    ensures forall o :: o in seen <==> from <= o < limit && Mine(from, pid, grid, blk, o)
    ensures Increasing(seen)
  {
    seen := [];
    var s, t := from + pid * blk, 0;
    forall o | from <= o < s ensures !Mine(from, pid, grid, blk, o) { BeforeTurns(pid, grid, blk, o - from); }
    MulLeq(0, pid, blk);
    while s < limit
      invariant t >= 0 && s == from + (pid + t * grid) * blk && from <= s
      invariant forall o :: o in seen <==> from <= o < limit && o < s && Mine(from, pid, grid, blk, o)
      invariant Increasing(seen)
      decreases limit - s
    {
      var turn := Slice(s, blk, limit);
      forall o | s <= o < s + grid * blk ensures Mine(from, pid, grid, blk, o) <==> o < s + blk {
        Turn(pid, grid, blk, t, o - from);
      }
      JoinIncreasing(seen, turn, s);
      seen := seen + turn;
      MulLeq(1, grid, blk);
      Distribute(t, 1, grid);
      Distribute(pid + t * grid, grid, blk);
      s, t := s + grid * blk, t + 1;
    }
  }

  /** o = s + arange(0, BLOCK), masked by o < limit. */
  method Slice(s: int, blk: int, limit: int) returns (os: seq<int>)
    requires blk > 0
    ensures forall o :: o in os <==> s <= o < s + blk && o < limit
    ensures Increasing(os)
  {
    os := [];
    for o := s to s + blk
      invariant forall x :: x in os <==> s <= x < o && x < limit
      invariant Increasing(os)
    {
      if o < limit {
        JoinIncreasing(os, [o], o);
        os := os + [o];
      }
    }
  }

  /** The loop of block b of rank r in a kernel handles exactly the elements that the block owns. */
  method OwnedLoop(k: HostKernels.Job, r: int, b: int, from: int, limit: int) returns (seen: seq<int>)
    requires k.blk > 0 && 0 <= b < k.grid(r)
    ensures forall o :: o in seen <==> from <= o < limit && HostKernels.Owner(k, r, from, o) == b
    ensures Increasing(seen)
  {
    forall o ensures Mine(from, b, k.grid(r), k.blk, o) <==> HostKernels.Owner(k, r, from, o) == b { MineIsOwned(k, r, from, b, o); }
    seen := Strided(from, limit, b, k.grid(r), k.blk);
  }
}
