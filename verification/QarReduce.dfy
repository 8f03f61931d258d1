/**
The compressed all-reduce of suffix_hybrid/nccl_qar.py over any arithmetic: what each rank packs, sends,
sums and gathers, the single-process reference, and the one block of the inputs an element depends on.
*/
module QarReduce {
  import opened IntMath

  const BLOCK: nat := 128

  /** A packed row: codes, then one scale a block. Each scale is one cell here. */
  datatype Cell<T> = Code(q: int) | Scale(s: T)

  type Row<T> = seq<Cell<T>>

  /** The arithmetic of the tensors; code takes a value and its block's scale. */
  datatype Arith<!T> = Arith(zero: T, scale: seq<T> -> T, code: (T, T) -> int, value: (int, T) -> T, add: (T, T) -> T, cast: T -> T)

  // ---- pieces -------------------------------------------------------------

  function Piece<T>(x: seq<T>, size: nat, j: nat): (p: seq<T>)
    requires j * size + size <= |x|
    ensures |p| == size
  {
    x[j * size..j * size + size]
  }

  lemma PieceFits(k: nat, size: nat, j: nat)
    requires j < k
    ensures j * size + size <= k * size
  {
    MulLeq(j + 1, k, size);
  }

  lemma PieceAt(i: nat, k: nat, size: nat)
    requires size > 0 && i < k * size
    ensures i / size < k && i / size * size + size <= k * size && i == i / size * size + i % size
  {
    Division(i, size);
    if i / size >= k { MulLeq(k, i / size, size); }
    PieceFits(k, size, i / size);
  }

  lemma SliceOfSlice<T>(x: seq<T>, o: nat, len: nat, p: nat, size: nat)
    requires o + len <= |x| && p + size <= len
    ensures x[o..o + len][p..p + size] == x[o + p..o + p + size]
  {
    var piece, whole := x[o..o + len][p..p + size], x[o + p..o + p + size];
    assert forall i :: 0 <= i < size ==> piece[i] == whole[i];
  }

  lemma RowOffset(j: nat, m: nat, q: nat, size: nat)
    ensures (j * m + q) * size == j * (m * size) + q * size
  {
    Distribute(j * m, q, size);
    Regroup(j, m, size);
  }

  lemma Regroup(j: nat, m: nat, size: nat)
    ensures j * m * size == j * (m * size)
  {}

  /** Piece q of piece j, where a piece of c elements holds m small pieces. */
  lemma PieceOfPiece<T>(x: seq<T>, size: nat, m: nat, c: nat, w: nat, j: nat, q: nat)
    requires c == m * size && |x| == w * c && j < w && q < m
    ensures j * c + c <= |x| && q * size + size <= c && (j * m + q) * size + size <= |x|
    ensures Piece(Piece(x, c, j), size, q) == Piece(x, size, j * m + q)
  {
    PieceFits(w, c, j);
    PieceFits(m, size, q);
    RowOffset(j, m, q, size);
    SliceOfSlice(x, j * c, c, q * size, size);
  }

  // ---- one row ------------------------------------------------------------

  /** A block element after quantizing and dequantizing. */
  function Requant<T>(a: Arith<T>, blk: seq<T>, i: nat): T
    requires i < |blk|
  {
    a.value(a.code(blk[i], a.scale(blk)), a.scale(blk))
  }

  function BlockOf<T>(x: seq<T>, k: nat, i: nat): (b: seq<T>)
    requires |x| == k * BLOCK && i < |x|
    ensures |b| == BLOCK
  {
    PieceAt(i, k, BLOCK);
    Piece(x, BLOCK, i / BLOCK)
  }

  function ScaleAt<T>(a: Arith<T>, x: seq<T>, k: nat, b: nat): T
    requires |x| == k * BLOCK && b < k
  {
    PieceFits(k, BLOCK, b);
    a.scale(Piece(x, BLOCK, b))
  }

  function CodeAt<T>(a: Arith<T>, x: seq<T>, k: nat, i: nat): int
    requires |x| == k * BLOCK && i < |x|
  {
    a.code(x[i], a.scale(BlockOf(x, k, i)))
  }

  predicate Packed<T>(row: Row<T>, k: nat) {
    && |row| == k * BLOCK + k
    && (forall i :: 0 <= i < k * BLOCK ==> row[i].Code?)
    && (forall i :: k * BLOCK <= i < |row| ==> row[i].Scale?)
  }

  /** _pack: the codes of a row of k blocks, then the k scales. */
  function Pack<T>(a: Arith<T>, x: seq<T>, k: nat): (row: Row<T>)
    requires |x| == k * BLOCK
    ensures Packed(row, k)
  {
    seq(k * BLOCK, i requires 0 <= i < k * BLOCK => Code(CodeAt(a, x, k, i)))
      + seq(k, b requires 0 <= b < k => Scale(ScaleAt(a, x, k, b)))
  }

  function ValueAt<T>(a: Arith<T>, row: Row<T>, k: nat, i: nat): T
    requires Packed(row, k) && i < k * BLOCK
  {
    PieceAt(i, k, BLOCK);
    a.value(row[i].q, row[k * BLOCK + i / BLOCK].s)
  }

  /** _unpack of one row. */
  function Unpack<T>(a: Arith<T>, row: Row<T>, k: nat): (x: seq<T>)
    requires Packed(row, k)
    ensures |x| == k * BLOCK
  {
    seq(k * BLOCK, i requires 0 <= i < k * BLOCK => ValueAt(a, row, k, i))
  }

  /** What a row carries: every element requantized in its own block. */
  lemma UnpackPack<T>(a: Arith<T>, x: seq<T>, k: nat, i: nat)
    requires |x| == k * BLOCK && i < |x|
    ensures Unpack(a, Pack(a, x, k), k)[i] == Requant(a, BlockOf(x, k, i), i % BLOCK)
  {
    PieceAt(i, k, BLOCK);
    var row := Pack(a, x, k);
    assert row[i] == Code(CodeAt(a, x, k, i));
    assert row[k * BLOCK + i / BLOCK] == Scale(ScaleAt(a, x, k, i / BLOCK));
    assert BlockOf(x, k, i)[i % BLOCK] == x[i];
  }

  // ---- splitting ----------------------------------------------------------

  /** Blocks in each of the w rows a vector of n elements is padded to. */
  function RowBlocks(n: nat, w: nat): (k: nat)
    requires w > 0
  {
    CeilDivBounds(n, w * BLOCK);
    CeilDiv(n, w * BLOCK)
  }

  /** _split: padded with zeros to a multiple of w * BLOCK. */
  function Padded<T>(a: Arith<T>, x: seq<T>, w: nat): (p: seq<T>)
    requires w > 0
  {
    x + seq((0 - |x|) % (w * BLOCK), i => a.zero)
  }

  /** The padding is the least that fills the rows. */
  lemma PaddingFills(n: nat, w: nat)
    requires w > 0
    ensures n + (0 - n) % (w * BLOCK) == w * (RowBlocks(n, w) * BLOCK)
    ensures RowBlocks(n, w) > 0 ==> n > w * ((RowBlocks(n, w) - 1) * BLOCK)
  {
    var d, k := w * BLOCK, RowBlocks(n, w);
    CeilDivBounds(n, d);
    assert k * d == w * (k * BLOCK);
    assert (k - 1) * d == w * ((k - 1) * BLOCK);
    Division(0 - n, d);
    var q := (0 - n) / d;
    QuotientUp(n, d, k, q);
  }

  lemma QuotientUp(n: int, d: int, k: int, q: int)
    requires d > 0 && (k - 1) * d < n <= k * d && q * d <= -n < q * d + d
    ensures q == -k
  {
    if q < -k { MulLeq(q + 1, -k, d); }
    if q > -k { MulLeq(-k + 1, q, d); }
  }

  lemma PaddedLength<T>(a: Arith<T>, x: seq<T>, w: nat)
    requires w > 0
    ensures |Padded(a, x, w)| == w * (RowBlocks(|x|, w) * BLOCK)
  {
    PaddingFills(|x|, w);
  }

  /** Row j of the split vector. */
  function SplitRow<T>(a: Arith<T>, x: seq<T>, w: nat, j: nat): (row: seq<T>)
    requires j < w
    ensures |row| == RowBlocks(|x|, w) * BLOCK
  {
    PaddedLength(a, x, w);
    PieceFits(w, RowBlocks(|x|, w) * BLOCK, j);
    Piece(Padded(a, x, w), RowBlocks(|x|, w) * BLOCK, j)
  }

  // ---- the collective -----------------------------------------------------

  /** Left fold in rank order. */
  function Fold<T>(a: Arith<T>, v: seq<T>): T
    requires |v| > 0
  {
    if |v| == 1 then v[0] else a.add(Fold(a, v[..|v| - 1]), v[|v| - 1])
  }

  predicate AllPacked<T>(rows: seq<Row<T>>, k: nat) { forall j :: 0 <= j < |rows| ==> Packed(rows[j], k) }

  function Column<T>(a: Arith<T>, rows: seq<Row<T>>, k: nat, i: nat): (v: seq<T>)
    requires AllPacked(rows, k) && i < k * BLOCK
    ensures |v| == |rows|
  {
    seq(|rows|, j requires 0 <= j < |rows| => Unpack(a, rows[j], k)[i])
  }

  /** The received rows dequantized and added in rank order. */
  function SumRows<T>(a: Arith<T>, rows: seq<Row<T>>, k: nat): (x: seq<T>)
    requires AllPacked(rows, k) && |rows| > 0
    ensures |x| == k * BLOCK
  {
    seq(k * BLOCK, i requires 0 <= i < k * BLOCK => Fold(a, Column(a, rows, k, i)))
  }

  /** The rows of a rank, one for every rank. */
  function Sends<T>(a: Arith<T>, x: seq<T>, w: nat): (rows: seq<Row<T>>)
    requires w > 0
    ensures |rows| == w && AllPacked(rows, RowBlocks(|x|, w))
  {
    seq(w, j requires 0 <= j < w => Pack(a, SplitRow(a, x, w, j), RowBlocks(|x|, w)))
  }

  /** What a rank puts into the all-gather, from the rows it received. */
  function Mine<T>(a: Arith<T>, received: seq<Row<T>>, k: nat): (row: Row<T>)
    requires AllPacked(received, k) && |received| > 0
    ensures Packed(row, k)
  {
    Pack(a, SumRows(a, received, k), k)
  }

  function Flatten<T>(a: Arith<T>, rows: seq<Row<T>>, k: nat): (x: seq<T>)
    requires AllPacked(rows, k)
    ensures |x| == |rows| * (k * BLOCK)
  {
    if rows == [] then [] else Flatten(a, rows[..|rows| - 1], k) + Unpack(a, rows[|rows| - 1], k)
  }

  /** All gathered rows dequantized, the padding cut off, and cast back. */
  function Finish<T>(a: Arith<T>, rows: seq<Row<T>>, k: nat, n: nat): (x: seq<T>)
    requires AllPacked(rows, k) && n <= |rows| * (k * BLOCK)
    ensures |x| == n
  {
    var flat := Flatten(a, rows, k);
    seq(n, i requires 0 <= i < n => a.cast(flat[i]))
  }

  /** The two transports of a rank, as far as this call uses them. */
  ghost predicate Transports<T(!new)>(w: nat, k: nat, a2a: seq<Row<T>> -> seq<Row<T>>, ag: Row<T> -> seq<Row<T>>) {
    && (forall rows: seq<Row<T>> :: AllPacked(rows, k) && |rows| == w ==> |a2a(rows)| == w && AllPacked(a2a(rows), k))
    && (forall row: Row<T> :: Packed(row, k) ==> |ag(row)| == w && AllPacked(ag(row), k))
  }

  /** qar_all_reduce. */
  ghost function QarAllReduce<T(!new)>(a: Arith<T>, x: seq<T>, w: nat, a2a: seq<Row<T>> -> seq<Row<T>>, ag: Row<T> -> seq<Row<T>>): (r: seq<T>)
    requires w > 0 && Transports(w, RowBlocks(|x|, w), a2a, ag)
    ensures |r| == |x|
  {
    var k := RowBlocks(|x|, w);
    PaddingFills(|x|, w);
    Finish(a, ag(Mine(a, a2a(Sends(a, x, w)), k)), k, |x|)
  }

  predicate SameLength<T>(xs: seq<seq<T>>, n: nat) { forall r :: 0 <= r < |xs| ==> |xs[r]| == n }

  /** The rows addressed to rank j, in the order of their senders. */
  function Incoming<T>(a: Arith<T>, xs: seq<seq<T>>, n: nat, j: nat): (rows: seq<Row<T>>)
    requires SameLength(xs, n) && j < |xs|
    ensures |rows| == |xs| && AllPacked(rows, RowBlocks(n, |xs|))
  {
    seq(|xs|, r requires 0 <= r < |xs| => Sends(a, xs[r], |xs|)[j])
  }

  function Parts<T>(a: Arith<T>, xs: seq<seq<T>>, n: nat): (rows: seq<Row<T>>)
    requires SameLength(xs, n) && |xs| > 0
    ensures |rows| == |xs| && AllPacked(rows, RowBlocks(n, |xs|))
  {
    seq(|xs|, j requires 0 <= j < |xs| => Mine(a, Incoming(a, xs, n, j), RowBlocks(n, |xs|)))
  }

  /** simulate: the single-process reference. */
  function Simulate<T>(a: Arith<T>, xs: seq<seq<T>>, n: nat): (r: seq<T>)
    requires SameLength(xs, n) && |xs| > 0
    ensures |r| == n
  {
    PaddingFills(n, |xs|);
    Finish(a, Parts(a, xs, n), RowBlocks(n, |xs|), n)
  }

  /** The all-to-all gives rank r the rows addressed to it, the all-gather every rank's row. */
  ghost predicate Delivers<T(!new)>(a: Arith<T>, xs: seq<seq<T>>, n: nat, r: nat, a2a: seq<Row<T>> -> seq<Row<T>>, ag: Row<T> -> seq<Row<T>>)
    requires SameLength(xs, n) && r < |xs|
  {
    var w, k := |xs|, RowBlocks(n, |xs|);
    && Transports(w, k, a2a, ag)
    && a2a(Sends(a, xs[r], w)) == Incoming(a, xs, n, r)
    && ag(Parts(a, xs, n)[r]) == Parts(a, xs, n)
  }

  /** Every rank gets the reference's result. */
  lemma RankIsSimulate<T(!new)>(a: Arith<T>, xs: seq<seq<T>>, n: nat, r: nat, a2a: seq<Row<T>> -> seq<Row<T>>, ag: Row<T> -> seq<Row<T>>)
    requires SameLength(xs, n) && r < |xs| && Delivers(a, xs, n, r, a2a, ag)
    ensures QarAllReduce(a, xs[r], |xs|, a2a, ag) == Simulate(a, xs, n)
  {
    assert Mine(a, Incoming(a, xs, n, r), RowBlocks(n, |xs|)) == Parts(a, xs, n)[r];
  }

  /** What rank r puts into the all-gather in a joint call, from the rows its all-to-all gave it. */
  ghost function Contributed<T(!new)>(a: Arith<T>, xs: seq<seq<T>>, n: nat, r: nat, a2a: seq<Row<T>> -> seq<Row<T>>, ag: Row<T> -> seq<Row<T>>): Row<T>
    requires SameLength(xs, n) && r < |xs| && Transports(|xs|, RowBlocks(n, |xs|), a2a, ag)
  {
    Mine(a, a2a(Sends(a, xs[r], |xs|)), RowBlocks(n, |xs|))
  }

  ghost predicate AllTransport<T(!new)>(w: nat, k: nat, a2as: seq<seq<Row<T>> -> seq<Row<T>>>, ags: seq<Row<T> -> seq<Row<T>>>) {
    |a2as| == |ags| == w && forall r :: 0 <= r < w ==> Transports(w, k, a2as[r], ags[r])
  }

  /** Rank r receives from rank j what j sent to r. */
  ghost predicate Transposed<T(!new)>(a: Arith<T>, xs: seq<seq<T>>, n: nat, r: nat, j: nat, a2a: seq<Row<T>> -> seq<Row<T>>)
    requires SameLength(xs, n) && r < |xs| && j < |xs|
  {
    var got := a2a(Sends(a, xs[r], |xs|));
    j < |got| && got[j] == Sends(a, xs[j], |xs|)[r]
  }

  /** One call on all ranks: the all-to-all transposes what the ranks send, and the all-gather gives each
      the rows that they all contributed, whatever these are. */
  ghost predicate Joint<T(!new)>(a: Arith<T>, xs: seq<seq<T>>, n: nat, a2as: seq<seq<Row<T>> -> seq<Row<T>>>, ags: seq<Row<T> -> seq<Row<T>>>)
    requires SameLength(xs, n) && |xs| > 0
  {
    && AllTransport(|xs|, RowBlocks(n, |xs|), a2as, ags)
    && (forall r, j :: 0 <= r < |xs| && 0 <= j < |xs| ==> Transposed(a, xs, n, r, j, a2as[r]))
    && forall r, j :: 0 <= r < |xs| && 0 <= j < |xs| ==> Gathered(a, xs, n, r, j, a2as, ags)
  }

  ghost predicate Gathered<T(!new)>(a: Arith<T>, xs: seq<seq<T>>, n: nat, r: nat, j: nat, a2as: seq<seq<Row<T>> -> seq<Row<T>>>, ags: seq<Row<T> -> seq<Row<T>>>)
    requires SameLength(xs, n) && r < |xs| && j < |xs| && AllTransport(|xs|, RowBlocks(n, |xs|), a2as, ags)
  {
    var rows := ags[r](Contributed(a, xs, n, r, a2as[r], ags[r]));
    j < |rows| && rows[j] == Contributed(a, xs, n, j, a2as[j], ags[j])
  }

  lemma ContributesPart<T(!new)>(a: Arith<T>, xs: seq<seq<T>>, n: nat, r: nat, a2as: seq<seq<Row<T>> -> seq<Row<T>>>, ags: seq<Row<T> -> seq<Row<T>>>)
    requires SameLength(xs, n) && r < |xs| && Joint(a, xs, n, a2as, ags)
    ensures a2as[r](Sends(a, xs[r], |xs|)) == Incoming(a, xs, n, r)
    ensures Contributed(a, xs, n, r, a2as[r], ags[r]) == Parts(a, xs, n)[r]
  {
    var got, want := a2as[r](Sends(a, xs[r], |xs|)), Incoming(a, xs, n, r);
    assert Transports(|xs|, RowBlocks(n, |xs|), a2as[r], ags[r]);
    forall j | 0 <= j < |xs| ensures got[j] == want[j] { assert Transposed(a, xs, n, r, j, a2as[r]); }
    assert got == want;
  }

  /** In a joint call every rank ends with the reference's result, so all ranks end with the same. */
  lemma JointIsSimulate<T(!new)>(a: Arith<T>, xs: seq<seq<T>>, n: nat, r: nat, a2as: seq<seq<Row<T>> -> seq<Row<T>>>, ags: seq<Row<T> -> seq<Row<T>>>)
    requires SameLength(xs, n) && r < |xs| && Joint(a, xs, n, a2as, ags)
    ensures Transports(|xs|, RowBlocks(|xs[r]|, |xs|), a2as[r], ags[r])
    ensures QarAllReduce(a, xs[r], |xs|, a2as[r], ags[r]) == Simulate(a, xs, n)
  {
    ContributesPart(a, xs, n, r, a2as, ags);
    var rows, parts := ags[r](Contributed(a, xs, n, r, a2as[r], ags[r])), Parts(a, xs, n);
    assert Transports(|xs|, RowBlocks(n, |xs|), a2as[r], ags[r]);
    forall j | 0 <= j < |xs| ensures rows[j] == parts[j] {
      assert Gathered(a, xs, n, r, j, a2as, ags);
      ContributesPart(a, xs, n, j, a2as, ags);
    }
    assert rows == parts;
    RankIsSimulate(a, xs, n, r, a2as[r], ags[r]);
  }

  // ---- what one element depends on ----------------------------------------

  lemma {:induction false} FlattenAt<T>(a: Arith<T>, rows: seq<Row<T>>, k: nat, c: nat, j: nat, p: nat)
    requires AllPacked(rows, k) && c == k * BLOCK && j < |rows| && p < c
    ensures j * c + p < |rows| * c && Flatten(a, rows, k)[j * c + p] == Unpack(a, rows[j], k)[p]
  {
    var w := |rows|;
    PieceFits(w, c, j);
    Distribute(w - 1, 1, c);
    if j < w - 1 {
      PieceFits(w - 1, c, j);
      FlattenAt(a, rows[..w - 1], k, c, j, p);
    }
  }

  /** Block b of a rank's padded vector. */
  function InputBlock<T>(a: Arith<T>, x: seq<T>, w: nat, b: nat): (blk: seq<T>)
    requires w > 0 && b < w * RowBlocks(|x|, w)
    ensures |blk| == BLOCK
  {
    PaddedLength(a, x, w);
    assert w * RowBlocks(|x|, w) * BLOCK == w * (RowBlocks(|x|, w) * BLOCK);
    PieceFits(w * RowBlocks(|x|, w), BLOCK, b);
    Piece(Padded(a, x, w), BLOCK, b)
  }

  function BlockColumn<T>(a: Arith<T>, xs: seq<seq<T>>, n: nat, b: nat, i: nat): (v: seq<T>)
    requires SameLength(xs, n) && |xs| > 0 && b < |xs| * RowBlocks(n, |xs|) && i < BLOCK
    ensures |v| == |xs|
  {
    seq(|xs|, r requires 0 <= r < |xs| => Requant(a, InputBlock(a, xs[r], |xs|, b), i))
  }

  /** Block b of the partial sums. */
  function PartBlock<T>(a: Arith<T>, xs: seq<seq<T>>, n: nat, b: nat): (blk: seq<T>)
    requires SameLength(xs, n) && |xs| > 0 && b < |xs| * RowBlocks(n, |xs|)
    ensures |blk| == BLOCK
  {
    seq(BLOCK, i requires 0 <= i < BLOCK => Fold(a, BlockColumn(a, xs, n, b, i)))
  }

  lemma SplitBlock<T>(a: Arith<T>, x: seq<T>, w: nat, k: nat, j: nat, q: nat)
    requires w > 0 && k == RowBlocks(|x|, w) && j < w && q < k
    ensures j * k + q < w * k && q * BLOCK + BLOCK <= k * BLOCK
    ensures Piece(SplitRow(a, x, w, j), BLOCK, q) == InputBlock(a, x, w, j * k + q)
  {
    PaddedLength(a, x, w);
    PieceFits(w, k, j);
    PieceOfPiece(Padded(a, x, w), BLOCK, k, k * BLOCK, w, j, q);
  }

  lemma ColumnIs<T>(a: Arith<T>, xs: seq<seq<T>>, n: nat, k: nat, j: nat, q: nat, t: nat, i: nat)
    requires SameLength(xs, n) && j < |xs| && k == RowBlocks(n, |xs|) && q < k && t < BLOCK && i == q * BLOCK + t
    ensures i < k * BLOCK && j * k + q < |xs| * k
    ensures Column(a, Incoming(a, xs, n, j), k, i) == BlockColumn(a, xs, n, j * k + q, t)
  {
    PieceFits(k, BLOCK, q);
    PieceFits(|xs|, k, j);
    var col, blk := Column(a, Incoming(a, xs, n, j), k, i), BlockColumn(a, xs, n, j * k + q, t);
    forall r | 0 <= r < |xs| ensures col[r] == blk[r] {
      ColumnAt(a, xs, n, k, j, q, t, i, r);
    }
  }

  lemma ColumnAt<T>(a: Arith<T>, xs: seq<seq<T>>, n: nat, k: nat, j: nat, q: nat, t: nat, i: nat, r: nat)
    requires SameLength(xs, n) && j < |xs| && k == RowBlocks(n, |xs|) && q < k && t < BLOCK && i == q * BLOCK + t && r < |xs|
    ensures i < k * BLOCK && j * k + q < |xs| * k
    ensures Column(a, Incoming(a, xs, n, j), k, i)[r] == Requant(a, InputBlock(a, xs[r], |xs|, j * k + q), t)
  {
    PieceFits(k, BLOCK, q);
    QuotientIs(i, BLOCK, q);
    SplitBlock(a, xs[r], |xs|, k, j, q);
    UnpackPack(a, SplitRow(a, xs[r], |xs|, j), k, i);
  }

  lemma PartIs<T>(a: Arith<T>, xs: seq<seq<T>>, n: nat, k: nat, j: nat, q: nat)
    requires SameLength(xs, n) && j < |xs| && k == RowBlocks(n, |xs|) && q < k
    ensures q * BLOCK + BLOCK <= k * BLOCK && j * k + q < |xs| * k
    ensures Piece(SumRows(a, Incoming(a, xs, n, j), k), BLOCK, q) == PartBlock(a, xs, n, j * k + q)
  {
    PieceFits(k, BLOCK, q);
    PieceFits(|xs|, k, j);
    var sum, part := Piece(SumRows(a, Incoming(a, xs, n, j), k), BLOCK, q), PartBlock(a, xs, n, j * k + q);
    forall t | 0 <= t < BLOCK ensures sum[t] == part[t] {
      ColumnIs(a, xs, n, k, j, q, t, q * BLOCK + t);
    }
  }

  /** Place t of block q of row j, where a row has k blocks. */
  lemma Place(i: nat, k: nat, c: nat, j: nat, q: nat, t: nat)
    requires c == k * BLOCK && i == j * c + (q * BLOCK + t) && t < BLOCK
    ensures i / BLOCK == j * k + q && i % BLOCK == t
  {
    RowOffset(j, k, q, BLOCK);
    QuotientIs(i, BLOCK, j * k + q);
  }

  /** Every element of the result depends only on its own block of the padded inputs: each rank's block
      requantized, added in rank order, and the sum requantized. Rows and ranks do not show. */
  lemma SimulateAt<T>(a: Arith<T>, xs: seq<seq<T>>, n: nat, i: nat)
    requires SameLength(xs, n) && |xs| > 0 && i < n
    ensures i / BLOCK < |xs| * RowBlocks(n, |xs|)
    ensures Simulate(a, xs, n)[i] == a.cast(Requant(a, PartBlock(a, xs, n, i / BLOCK), i % BLOCK))
  {
    var k := RowBlocks(n, |xs|);
    PaddingFills(n, |xs|);
    var j, q, t := Locate(i, |xs|, k, k * BLOCK);
    Place(i, k, k * BLOCK, j, q, t);
    FinishAt(a, xs, n, k, i, j, q, t);
  }

  lemma RowsNotEmpty(w: nat, c: nat)
    ensures w * c > 0 ==> c > 0
  {}

  lemma Locate(i: nat, w: nat, k: nat, c: nat) returns (j: nat, q: nat, t: nat)
    requires c == k * BLOCK && i < w * c
    ensures j < w && q < k && t < BLOCK && i == j * c + (q * BLOCK + t)
  {
    var p;
    RowsNotEmpty(w, c);
    j, p := LocateIn(i, w, c);
    q, t := LocateIn(p, k, BLOCK);
  }

  lemma LocateIn(i: nat, w: nat, c: nat) returns (j: nat, p: nat)
    requires c > 0 && i < w * c
    ensures j < w && p < c && i == j * c + p
  {
    PieceAt(i, w, c);
    Division(i, c);
    j, p := i / c, i % c;
  }

  lemma FinishAt<T>(a: Arith<T>, xs: seq<seq<T>>, n: nat, k: nat, i: nat, j: nat, q: nat, t: nat)
    requires SameLength(xs, n) && |xs| > 0 && i < n && k == RowBlocks(n, |xs|)
    requires j < |xs| && q < k && t < BLOCK && i == j * (k * BLOCK) + (q * BLOCK + t)
    ensures j * k + q < |xs| * k
    ensures Simulate(a, xs, n)[i] == a.cast(Requant(a, PartBlock(a, xs, n, j * k + q), t))
  {
    var p := q * BLOCK + t;
    PaddingFills(n, |xs|);
    PieceFits(k, BLOCK, q);
    QuotientIs(p, BLOCK, q);
    FlattenAt(a, Parts(a, xs, n), k, k * BLOCK, j, p);
    PartAt(a, xs, n, k, j, q, t, p);
  }

  lemma PartAt<T>(a: Arith<T>, xs: seq<seq<T>>, n: nat, k: nat, j: nat, q: nat, t: nat, p: nat)
    requires SameLength(xs, n) && |xs| > 0 && k == RowBlocks(n, |xs|)
    requires j < |xs| && q < k && t < BLOCK && p == q * BLOCK + t
    ensures j * k + q < |xs| * k && p < k * BLOCK
    ensures Unpack(a, Parts(a, xs, n)[j], k)[p] == Requant(a, PartBlock(a, xs, n, j * k + q), t)
  {
    PieceFits(k, BLOCK, q);
    QuotientIs(p, BLOCK, q);
    UnpackPack(a, SumRows(a, Incoming(a, xs, n, j), k), k, p);
    PartIs(a, xs, n, k, j, q);
  }

  // ---- what is added ------------------------------------------------------

  /** The fold as its running sums: the first value, then one addition a value. */
  lemma {:induction false} FoldSteps<T>(a: Arith<T>, v: seq<T>) returns (p: seq<T>)
    requires |v| > 0
    ensures |p| == |v| && p[0] == v[0] && p[|v| - 1] == Fold(a, v)
    ensures forall j :: 0 <= j < |v| - 1 ==> p[j + 1] == a.add(p[j], v[j + 1])
  {
    if |v| == 1 {
      p := [v[0]];
    } else {
      var init := FoldSteps(a, v[..|v| - 1]);
      p := init + [Fold(a, v)];
    }
  }

  /** A block of the input, and zeros beyond its end. */
  lemma InputAt<T>(a: Arith<T>, x: seq<T>, w: nat, b: nat, i: nat)
    requires w > 0 && b < w * RowBlocks(|x|, w) && i < 128
    ensures InputBlock(a, x, w, b)[i] == if 128 * b + i < |x| then x[128 * b + i] else a.zero
  {
    PaddedLength(a, x, w);
    assert w * RowBlocks(|x|, w) * BLOCK == w * (RowBlocks(|x|, w) * BLOCK);
    PieceFits(w * RowBlocks(|x|, w), BLOCK, b);
    PaddedAt(a, x, w, b * BLOCK + i);
  }

  lemma PaddedAt<T>(a: Arith<T>, x: seq<T>, w: nat, i: nat)
    requires w > 0 && i < |Padded(a, x, w)|
    ensures Padded(a, x, w)[i] == if i < |x| then x[i] else a.zero
  {}

  /** One element of the result, step by step: the ranks' requantized elements are added in rank order, and
      the sums of the block are requantized once more. */
  lemma ElementSteps<T>(a: Arith<T>, xs: seq<seq<T>>, n: nat, i: nat, t: nat) returns (p: seq<T>)
    requires SameLength(xs, n) && |xs| > 0 && i < n && t < BLOCK
    ensures i / BLOCK < |xs| * RowBlocks(n, |xs|)
    ensures |p| == |xs| && PartBlock(a, xs, n, i / BLOCK)[t] == p[|xs| - 1]
    ensures p[0] == Requant(a, InputBlock(a, xs[0], |xs|, i / BLOCK), t)
    ensures forall r :: 0 <= r < |xs| - 1 ==> p[r + 1] == a.add(p[r], Requant(a, InputBlock(a, xs[r + 1], |xs|, i / BLOCK), t))
  {
    SimulateAt(a, xs, n, i);
    p := FoldSteps(a, BlockColumn(a, xs, n, i / BLOCK, t));
  }
}
