// tools/convert_mimo_v2_to_bf16.py: a fused qkv_proj holds, shard after shard, [q_i | k_i | v_i]; every shard is
// block-quantized on its own and padded to whole 128-row blocks.
module FusedQkv {
  import opened Arithmetic
  import opened Views
  import opened Wrappers

  const BLOCK: pos := 128

  // ---- dequantization, shard by shard ----

  // dequant_fp8_block: every weight times the scale of its 128 x 128 block. The repeated and cut scale must have the
  // shape of the weight.
  function DequantBlock<W, S, T>(w: Matrix<W>, scaleInv: Matrix<S>, scaled: (W, S) -> T): Option<Matrix<T>> {
    var scale := TakeCols(RepeatCols(TakeRows(RepeatRows(scaleInv, BLOCK), w.rows), BLOCK), w.cols);
    if scale.rows == w.rows && scale.cols == w.cols
    then Some(Matrix(w.rows, w.cols, (r: nat, c: nat) => scaled(w.at(r, c), scale.at(r, c))))
    else None
  }

  // The blocks of zip(weights, scales, strict=True), dequantized one by one.
  function DequantZip<W, S, T>(ws: seq<Matrix<W>>, ss: seq<Matrix<S>>, scaled: (W, S) -> T)
    : (blocks: Option<seq<Matrix<T>>>)
    ensures blocks.Some? ==> |blocks.value| == |ws|
  {
    if ws == [] && ss == [] then Some([])
    else if ws == [] || ss == [] then None
    else
      var first, rest := DequantBlock(ws[0], ss[0], scaled), DequantZip(ws[1..], ss[1..], scaled);
      if first.None? || rest.None? then None else Some([first.value] + rest.value)
  }

  // dequant_fused_qkv; `scaled` multiplies a weight by its block scale and rounds to bfloat16.
  function DequantFused<W, S, T>(w: Matrix<W>, scaleInv: Matrix<S>, shards: pos, scaled: (W, S) -> T)
    : Option<Matrix<T>>
    requires w.rows > 0
  {
    var blocks := CeilDiv(w.rows / shards, BLOCK);
    if blocks == 0 || scaleInv.rows != shards * blocks then None
    else
      match DequantZip(Chunk(w, shards), Split(scaleInv, blocks), scaled)
      case None => None
      case Some(pieces) => Some(Cat(pieces))
  }

  // ---- which scale a row gets ----

  function ChunkRows(rows: nat, shards: pos): nat {
    CeilDiv(rows, shards)
  }

  // The scale row weight row r should be multiplied by, or None for shapes that cannot be dequantized: the scale must
  // have whole blocks for every shard, there must be as many chunks as shards, and a chunk must fit its blocks.
  function ScaleRow(rows: pos, scaleRows: nat, shards: pos, r: nat): Option<nat> {
    var blocks := CeilDiv(rows / shards, BLOCK);
    var size := ChunkRows(rows, shards);
    if rows < shards || scaleRows != shards * blocks then None
    else if size == 0 || CeilDiv(rows, size) != shards || size > blocks * BLOCK then None
    else Some(Place(Quot(r, size), blocks, Quot(Rem(r, size), BLOCK)))
  }

  // d is w, row r multiplied by row index(r) of the scales and column c by their column c / 128.
  ghost predicate ScaledBy<W, S, T>(d: Matrix<T>, w: Matrix<W>, s: Matrix<S>, scaled: (W, S) -> T, index: nat -> nat) {
    && d.rows == w.rows && d.cols == w.cols
    && forall r: nat, c: nat :: r < w.rows && c < w.cols ==>
         d.at(r, c) == scaled(w.at(r, c), s.at(index(r), Quot(c, BLOCK)))
  }

  // The scale a row has when pieces of `size` rows have `blocks` scale rows each.
  function PieceIndex(size: pos, blocks: pos): nat -> nat {
    (r: nat) => Place(Quot(r, size), blocks, Quot(Rem(r, size), BLOCK))
  }

  lemma OneBlock<W, S, T>(w: Matrix<W>, s: Matrix<S>, scaled: (W, S) -> T, size: pos, blocks: pos)
    requires w.rows <= size
    ensures DequantBlock(w, s, scaled).Some? <==> w.rows <= s.rows * BLOCK && w.cols <= s.cols * BLOCK
    ensures DequantBlock(w, s, scaled).Some? ==>
      ScaledBy(DequantBlock(w, s, scaled).value, w, s, scaled, PieceIndex(size, blocks))
  {
    forall r: nat | r < w.rows && r < size ensures PieceIndex(size, blocks)(r) == Quot(r, BLOCK) {
      DivisionIsUnique(r, size, 0, r);
    }
  }

  lemma PieceCount(rows: nat, size: pos)
    requires rows > size
    ensures CeilDiv(rows, size) == CeilDiv(rows - size, size) + 1
  {
    var n := rows + size - 1;
    assert n == n / size * size + n % size;
    DivisionIsUnique(n - size, size, n / size - 1, n % size);
  }

  // Piece by piece, the weights of a piece meet the scales of the same piece; or the pieces do not match up.
  ghost predicate Meets<W, S, T>(w: Matrix<W>, s: Matrix<S>, scaled: (W, S) -> T, size: pos, blocks: pos, n: nat) {
    var pieces := DequantZip(Split(w, size), Split(s, blocks), scaled);
    && (pieces.Some? <==> CeilDiv(w.rows, size) == n && (w.rows <= blocks * BLOCK || size <= blocks * BLOCK)
                          && w.cols <= s.cols * BLOCK)
    && (pieces.Some? ==> ScaledBy(Cat(pieces.value), w, s, scaled, PieceIndex(size, blocks)))
  }

  lemma {:induction false} PiecesMeet<W, S, T>(w: Matrix<W>, s: Matrix<S>, scaled: (W, S) -> T, size: pos, blocks: pos,
                                               n: pos)
    requires w.rows > 0 && s.rows == n * blocks
    ensures Meets(w, s, scaled, size, blocks, n)
    decreases w.rows
  {
    if w.rows <= size {
      LastPiece(w, s, scaled, size, blocks, n);
    } else if n == 1 {
      PieceCount(w.rows, size);
      assert DequantZip(Split(DropRows(w, size), size), [], scaled).None?;
    } else {
      MulMonotone(2, n, blocks);
      assert (n - 1) * blocks == n * blocks - blocks;
      PiecesMeet(DropRows(w, size), DropRows(s, blocks), scaled, size, blocks, n - 1);
      MeetsAbove(w, s, scaled, size, blocks, n);
    }
  }

  lemma LastPiece<W, S, T>(w: Matrix<W>, s: Matrix<S>, scaled: (W, S) -> T, size: pos, blocks: pos, n: pos)
    requires 0 < w.rows <= size && s.rows == n * blocks
    ensures Meets(w, s, scaled, size, blocks, n)
  {
    DivisionIsUnique(w.rows + size - 1, size, 1, w.rows - 1);
    if n == 1 {
      OneBlock(w, s, scaled, size, blocks);
    } else {
      MulMonotone(2, n, blocks);
    }
  }

  lemma MeetsAbove<W, S, T>(w: Matrix<W>, s: Matrix<S>, scaled: (W, S) -> T, size: pos, blocks: pos, n: nat)
    requires w.rows > size && n > 1 && s.rows > blocks
    requires Meets(DropRows(w, size), DropRows(s, blocks), scaled, size, blocks, n - 1)
    ensures Meets(w, s, scaled, size, blocks, n)
  {
    var top, scales := TakeRows(w, size), TakeRows(s, blocks);
    var rest, restScales := DropRows(w, size), DropRows(s, blocks);
    PieceCount(w.rows, size);
    OneBlock(top, scales, scaled, size, blocks);
    ZipStep(top, scales, Split(rest, size), Split(restScales, blocks), scaled);
    var tail := DequantZip(Split(rest, size), Split(restScales, blocks), scaled);
    if DequantBlock(top, scales, scaled).Some? && tail.Some? {
      RowsBelow(size, blocks);
      StackScaled(w, s, scaled, size, blocks, PieceIndex(size, blocks), DequantBlock(top, scales, scaled).value,
                  tail.value);
    }
  }

  lemma ZipStep<W, S, T>(w: Matrix<W>, s: Matrix<S>, ws: seq<Matrix<W>>, ss: seq<Matrix<S>>, scaled: (W, S) -> T)
    ensures var first, rest := DequantBlock(w, s, scaled), DequantZip(ws, ss, scaled);
      DequantZip([w] + ws, [s] + ss, scaled)
      == if first.None? || rest.None? then None else Some([first.value] + rest.value)
  {
    assert ([w] + ws)[1..] == ws && ([s] + ss)[1..] == ss;
  }

  // Row r, if below the first piece, has its scale `blocks` further down than the row one piece up.
  ghost predicate OnePieceUp(index: nat -> nat, size: nat, blocks: nat, r: nat) {
    r >= size ==> index(r) == index(r - size) + blocks
  }

  // The first piece stacked on the others.
  lemma StackScaled<W, S, T>(w: Matrix<W>, s: Matrix<S>, scaled: (W, S) -> T, size: nat, blocks: nat,
                             index: nat -> nat, first: Matrix<T>, rest: seq<Matrix<T>>)
    requires w.rows > size && s.rows >= blocks && rest != []
    requires forall r: nat :: OnePieceUp(index, size, blocks, r)
    requires ScaledBy(first, TakeRows(w, size), TakeRows(s, blocks), scaled, index)
    requires ScaledBy(Cat(rest), DropRows(w, size), DropRows(s, blocks), scaled, index)
    ensures ScaledBy(Cat([first] + rest), w, s, scaled, index)
  {
    assert ([first] + rest)[1..] == rest;
    forall r: nat, c: nat | r < w.rows && c < w.cols
      ensures Cat([first] + rest).at(r, c) == scaled(w.at(r, c), s.at(index(r), Quot(c, BLOCK)))
    {
      assert OnePieceUp(index, size, blocks, r);
    }
  }

  lemma RowsBelow(size: pos, blocks: pos)
    ensures forall r: nat :: OnePieceUp(PieceIndex(size, blocks), size, blocks, r)
  {
    forall r: nat ensures OnePieceUp(PieceIndex(size, blocks), size, blocks, r) {
      if r >= size {
        RowBelow(r, size, blocks);
      }
    }
  }

  lemma RowBelow(r: nat, size: pos, blocks: pos)
    requires r >= size
    ensures PieceIndex(size, blocks)(r) == PieceIndex(size, blocks)(r - size) + blocks
  {
    var q, m := r / size, r % size;
    assert r == q * size + m;
    DivisionIsUnique(r - size, size, q - 1, m);
    assert (q - 1) * blocks == q * blocks - blocks;
  }

  // d is w, row r multiplied by row ScaleRow of the scales and column c by their column c / 128.
  ghost predicate ScaledByRow<W, S, T>(d: Matrix<T>, w: Matrix<W>, s: Matrix<S>, shards: pos, scaled: (W, S) -> T) {
    && d.rows == w.rows && d.cols == w.cols
    && forall r: nat, c: nat :: r < w.rows && c < w.cols ==>
         var x := ScaleRow(w.rows, s.rows, shards, r);
         x.Some? && d.at(r, c) == scaled(w.at(r, c), s.at(x.value, Quot(c, BLOCK)))
  }

  lemma ShapesAccepted(rows: pos, scaleRows: nat, shards: pos)
    ensures ChunkRows(rows, shards) > 0
    ensures var blocks, size := CeilDiv(rows / shards, BLOCK), ChunkRows(rows, shards);
      ScaleRow(rows, scaleRows, shards, 0).Some? <==>
        && blocks > 0 && scaleRows == shards * blocks && CeilDiv(rows, size) == shards
        && (rows <= blocks * BLOCK || size <= blocks * BLOCK)
  {
    ChunkAtMost(rows, shards);
    ShardHasRows(rows, shards);
  }

  lemma ChunkAtMost(rows: pos, shards: pos)
    ensures 0 < CeilDiv(rows, shards) <= rows
  {
    var n := rows + shards - 1;
    var q := n / shards;
    assert n == q * shards + n % shards;
    MulMonotone(q, 0, shards);
    MulMonotone(rows + 1, q, shards);
    MulMonotone(1, shards, rows);
    assert (rows + 1) * shards == rows * shards + shards;
  }

  lemma ShardHasRows(rows: nat, shards: pos)
    ensures rows / shards > 0 <==> rows >= shards
  {
    var q := rows / shards;
    assert rows == q * shards + rows % shards;
    MulMonotone(1, q, shards);
    MulMonotone(q, 0, shards);
  }

  // dequant_fused_qkv goes through exactly on the shapes ScaleRow accepts, when the scales also cover the columns; and
  // then every row gets the scales ScaleRow says.
  lemma DequantReadsScaleRow<W, S, T>(w: Matrix<W>, s: Matrix<S>, shards: pos, scaled: (W, S) -> T)
    requires w.rows > 0
    ensures var d := DequantFused(w, s, shards, scaled);
      && (d.Some? <==> ScaleRow(w.rows, s.rows, shards, 0).Some? && w.cols <= s.cols * BLOCK)
      && (d.Some? ==> ScaledByRow(d.value, w, s, shards, scaled))
  {
    ShapesAccepted(w.rows, s.rows, shards);
    var blocks, size := CeilDiv(w.rows / shards, BLOCK), ChunkRows(w.rows, shards);
    if blocks > 0 && s.rows == shards * blocks {
      PiecesMeet(w, s, scaled, size, blocks, shards);
      var d := DequantFused(w, s, shards, scaled);
      if d.Some? {
        PiecesAreRows(d.value, w, s, shards, scaled, size, blocks);
      }
    }
  }

  lemma PiecesAreRows<W, S, T>(d: Matrix<T>, w: Matrix<W>, s: Matrix<S>, shards: pos, scaled: (W, S) -> T, size: pos,
                               blocks: pos)
    requires w.rows > 0 && size == ChunkRows(w.rows, shards) && blocks == CeilDiv(w.rows / shards, BLOCK)
    requires ScaleRow(w.rows, s.rows, shards, 0).Some? && ScaledBy(d, w, s, scaled, PieceIndex(size, blocks))
    ensures ScaledByRow(d, w, s, shards, scaled)
  {
    forall r: nat, c: nat | r < w.rows && c < w.cols
      ensures var x := ScaleRow(w.rows, s.rows, shards, r);
        x.Some? && d.at(r, c) == scaled(w.at(r, c), s.at(x.value, Quot(c, BLOCK)))
    {
      assert ScaleRow(w.rows, s.rows, shards, r) == Some(PieceIndex(size, blocks)(r));
    }
  }

  // Whenever the dequantization goes through, evenly divided or not, row r is scaled by the block its place in its
  // chunk lies in, among the blocks of that chunk: no chunk reads another one's scales.
  lemma ScaleRowOfChunk(rows: pos, scaleRows: nat, shards: pos, r: nat)
    requires r < rows && ScaleRow(rows, scaleRows, shards, r).Some?
    ensures ChunkRows(rows, shards) > 0 && CeilDiv(rows / shards, BLOCK) > 0
    ensures var x, size, blocks := ScaleRow(rows, scaleRows, shards, r).value,
                                   ChunkRows(rows, shards), CeilDiv(rows / shards, BLOCK);
            x < scaleRows && x / blocks == r / size < shards && x % blocks == r % size / BLOCK
  {
    var blocks, size := CeilDiv(rows / shards, BLOCK), ChunkRows(rows, shards);
    var shard, at := r / size, r % size;
    assert at / BLOCK < blocks;
    assert shard < shards by { ChunkCount(rows, size, shards, r); }
    DivisionIsUnique(shard * blocks + at / BLOCK, blocks, shard, at / BLOCK);
    InRange(shard, at / BLOCK, shards, blocks);
  }

  lemma ChunkCount(rows: pos, size: pos, shards: pos, r: nat)
    requires r < rows && CeilDiv(rows, size) == shards
    ensures r / size < shards
  {
    var n := rows + size - 1;
    assert n == shards * size + n % size && r == r / size * size + r % size;
    MulMonotone(shards, r / size, size);
  }

  // Rows that divide evenly: row r of shard r / n has its own shard's scale block, whatever n is modulo 128.
  lemma ScaleRowOfShard(n: pos, shards: pos, r: nat)
    requires r < n * shards
    ensures n * shards > 0
    ensures ScaleRow(n * shards, shards * CeilDiv(n, BLOCK), shards, r)
         == Some(r / n * CeilDiv(n, BLOCK) + r % n / BLOCK)
    ensures r / n < shards && r % n / BLOCK < CeilDiv(n, BLOCK)
  {
    Divides(n, shards);
    InShard(n, shards, r);
  }

  lemma Divides(n: pos, shards: pos)
    ensures n * shards >= shards && n * shards > 0
    ensures n * shards / shards == n && ChunkRows(n * shards, shards) == n && CeilDiv(n * shards, n) == shards
  {
    MulMonotone(1, n, shards);
    DivisionIsUnique(n * shards, shards, n, 0);
    DivisionIsUnique(n * shards + shards - 1, shards, n, shards - 1);
    DivisionIsUnique(n * shards + n - 1, n, shards, n - 1);
  }

  lemma InShard(n: pos, shards: pos, r: nat)
    requires r < n * shards
    ensures r / n < shards
  {
    assert r == r / n * n + r % n;
    MulMonotone(shards, r / n, n);
  }

  // Ignoring the shards would read the same scale rows exactly when there is no padding to skip.
  lemma PaddingMatters(n: pos, shards: pos)
    ensures (forall r: nat :: r < n * shards ==> r / n * CeilDiv(n, BLOCK) + r % n / BLOCK == Quot(r, BLOCK))
            <==> n % BLOCK == 0 || shards == 1
  {
    if n % BLOCK == 0 {
      forall r: nat | r < n * shards ensures r / n * CeilDiv(n, BLOCK) + r % n / BLOCK == Quot(r, BLOCK) {
        WholeShards(n, r);
      }
    } else if shards == 1 {
      forall r: nat | r < n * shards ensures r / n * CeilDiv(n, BLOCK) + r % n / BLOCK == Quot(r, BLOCK) {
        DivisionIsUnique(r, n, 0, r);
      }
    } else {
      MulMonotone(2, shards, n);
      DivisionIsUnique(n, n, 1, 0);
      assert n < n * shards && n / n * CeilDiv(n, BLOCK) + n % n / BLOCK == CeilDiv(n, BLOCK) != Quot(n, BLOCK);
    }
  }

  lemma WholeShards(n: pos, r: nat)
    requires n % BLOCK == 0
    ensures r / n * CeilDiv(n, BLOCK) + r % n / BLOCK == Quot(r, BLOCK)
  {
    var b := n / BLOCK;
    assert CeilDiv(n, BLOCK) == b;
    assert r == r / n * n + r % n;
    assert r / n * n == (r / n * b) * BLOCK;
    DivisionIsUnique(r, BLOCK, r / n * b + r % n / BLOCK, r % n % BLOCK);
  }

  // ---- splitting ----

  // Rows of a shard: q then k then v.
  datatype Sizes = Sizes(q: pos, k: pos, v: pos)

  function Sum(s: Sizes): pos {
    s.q + s.k + s.v
  }

  // One part of qkv.view(shards, sum, -1).split(sizes, dim=1), reshaped to rows: element (y, c).
  function Part<T>(qkv: (nat, nat) -> T, cols: pos, sum: pos, first: nat, size: pos, y: nat, c: nat): T {
    var row := Quot(y * cols + c, cols);
    var col := Rem(y * cols + c, cols);
    var flat := (Quot(row, size) * sum + (first + Rem(row, size))) * cols + col;
    qkv(Quot(flat, cols), Rem(flat, cols))
  }

  function SplitQ<T>(qkv: (nat, nat) -> T, cols: pos, s: Sizes): (nat, nat) -> T {
    (y: nat, c: nat) => Part(qkv, cols, Sum(s), 0, s.q, y, c)
  }

  function SplitK<T>(qkv: (nat, nat) -> T, cols: pos, s: Sizes): (nat, nat) -> T {
    (y: nat, c: nat) => Part(qkv, cols, Sum(s), s.q, s.k, y, c)
  }

  function SplitV<T>(qkv: (nat, nat) -> T, cols: pos, s: Sizes): (nat, nat) -> T {
    (y: nat, c: nat) => Part(qkv, cols, Sum(s), s.q + s.k, s.v, y, c)
  }

  // The layout the checkpoint stores, as its documentation gives it: shard i is [q_i | k_i | v_i].
  function Fuse<T>(q: (nat, nat) -> T, k: (nat, nat) -> T, v: (nat, nat) -> T, s: Sizes): (nat, nat) -> T {
    (r: nat, c: nat) =>
      var shard, at := Quot(r, Sum(s)), Rem(r, Sum(s));
      if at < s.q then q(shard * s.q + at, c)
      else if at < s.q + s.k then k(shard * s.k + (at - s.q), c)
      else v(shard * s.v + (at - s.q - s.k), c)
  }

  // Row y of a part is row y % size of the part in shard y / size.
  lemma PartAt<T>(qkv: (nat, nat) -> T, cols: pos, sum: pos, first: nat, size: pos, y: nat, c: nat)
    requires c < cols
    ensures Part(qkv, cols, sum, first, size, y, c) == qkv(y / size * sum + (first + y % size), c)
  {
    DivisionIsUnique(y * cols + c, cols, y, c);
    DivisionIsUnique((y / size * sum + (first + y % size)) * cols + c, cols, y / size * sum + (first + y % size), c);
  }

  lemma FuseAt<T>(q: (nat, nat) -> T, k: (nat, nat) -> T, v: (nat, nat) -> T, s: Sizes, shard: nat, at: nat, c: nat)
    requires at < Sum(s)
    ensures Fuse(q, k, v, s)(shard * Sum(s) + at, c)
         == if at < s.q then q(shard * s.q + at, c)
            else if at < s.q + s.k then k(shard * s.k + (at - s.q), c)
            else v(shard * s.v + (at - s.q - s.k), c)
  {
    DivisionIsUnique(shard * Sum(s) + at, Sum(s), shard, at);
  }

  lemma RowOfPart(y: nat, size: pos)
    ensures y / size * size + y % size == y && y % size < size
  {
  }

  // Row `at` of the part in a shard, read through the split.
  lemma PartRow<T>(qkv: (nat, nat) -> T, cols: pos, sum: pos, first: nat, size: pos, shard: nat, at: nat, c: nat)
    requires c < cols && at < size
    ensures Part(qkv, cols, sum, first, size, shard * size + at, c) == qkv(shard * sum + (first + at), c)
  {
    DivisionIsUnique(shard * size + at, size, shard, at);
    PartAt(qkv, cols, sum, first, size, shard * size + at, c);
  }

  lemma SplitQRow<T>(
    q: (nat, nat) -> T, k: (nat, nat) -> T, v: (nat, nat) -> T, cols: pos, s: Sizes, shard: nat, at: nat, c: nat)
    requires c < cols && at < s.q
    ensures SplitQ(Fuse(q, k, v, s), cols, s)(shard * s.q + at, c) == q(shard * s.q + at, c)
  {
    PartRow(Fuse(q, k, v, s), cols, Sum(s), 0, s.q, shard, at, c);
    FuseAt(q, k, v, s, shard, 0 + at, c);
  }

  lemma SplitKRow<T>(
    q: (nat, nat) -> T, k: (nat, nat) -> T, v: (nat, nat) -> T, cols: pos, s: Sizes, shard: nat, at: nat, c: nat)
    requires c < cols && at < s.k
    ensures SplitK(Fuse(q, k, v, s), cols, s)(shard * s.k + at, c) == k(shard * s.k + at, c)
  {
    PartRow(Fuse(q, k, v, s), cols, Sum(s), s.q, s.k, shard, at, c);
    FuseAt(q, k, v, s, shard, s.q + at, c);
  }

  lemma SplitVRow<T>(
    q: (nat, nat) -> T, k: (nat, nat) -> T, v: (nat, nat) -> T, cols: pos, s: Sizes, shard: nat, at: nat, c: nat)
    requires c < cols && at < s.v
    ensures SplitV(Fuse(q, k, v, s), cols, s)(shard * s.v + at, c) == v(shard * s.v + at, c)
  {
    PartRow(Fuse(q, k, v, s), cols, Sum(s), s.q + s.k, s.v, shard, at, c);
    FuseAt(q, k, v, s, shard, s.q + s.k + at, c);
  }

  // Splitting undoes the interleaving, for any shard count and head sizes.
  lemma SplitUndoesFuse<T>(
    q: (nat, nat) -> T, k: (nat, nat) -> T, v: (nat, nat) -> T, cols: pos, s: Sizes, y: nat, c: nat)
    requires c < cols
    ensures SplitQ(Fuse(q, k, v, s), cols, s)(y, c) == q(y, c)
    ensures SplitK(Fuse(q, k, v, s), cols, s)(y, c) == k(y, c)
    ensures SplitV(Fuse(q, k, v, s), cols, s)(y, c) == v(y, c)
  {
    RowOfPart(y, s.q);
    SplitQRow(q, k, v, cols, s, y / s.q, y % s.q, c);
    RowOfPart(y, s.k);
    SplitKRow(q, k, v, cols, s, y / s.k, y % s.k, c);
    RowOfPart(y, s.v);
    SplitVRow(q, k, v, cols, s, y / s.v, y % s.v, c);
  }

  lemma FusedRow<T>(qkv: (nat, nat) -> T, cols: pos, s: Sizes, shard: nat, at: nat, c: nat)
    requires c < cols && at < Sum(s)
    ensures Fuse(SplitQ(qkv, cols, s), SplitK(qkv, cols, s), SplitV(qkv, cols, s), s)(shard * Sum(s) + at, c)
         == qkv(shard * Sum(s) + at, c)
  {
    FuseAt(SplitQ(qkv, cols, s), SplitK(qkv, cols, s), SplitV(qkv, cols, s), s, shard, at, c);
    if at < s.q {
      PartRow(qkv, cols, Sum(s), 0, s.q, shard, at, c);
    } else if at < s.q + s.k {
      PartRow(qkv, cols, Sum(s), s.q, s.k, shard, at - s.q, c);
    } else {
      PartRow(qkv, cols, Sum(s), s.q + s.k, s.v, shard, at - s.q - s.k, c);
    }
  }

  // Fusing undoes the splitting, so no row of the tensor is lost or duplicated.
  lemma FuseUndoesSplit<T>(qkv: (nat, nat) -> T, cols: pos, s: Sizes, r: nat, c: nat)
    requires c < cols
    ensures Fuse(SplitQ(qkv, cols, s), SplitK(qkv, cols, s), SplitV(qkv, cols, s), s)(r, c) == qkv(r, c)
  {
    RowOfPart(r, Sum(s));
    FusedRow(qkv, cols, s, r / Sum(s), r % Sum(s), c);
  }

  // ---- head order and scales together ----

  // Row j of head h, with `local` heads of `dim` rows a shard, comes from shard h / local: heads come out in order.
  lemma HeadsInOrder<T>(
    qkv: (nat, nat) -> T, cols: pos, sum: pos, first: nat, local: pos, dim: pos, h: nat, j: nat, c: nat)
    requires c < cols && j < dim
    ensures local * dim > 0
    ensures Part(qkv, cols, sum, first, local * dim, h * dim + j, c)
         == qkv(h / local * sum + (first + (h % local * dim + j)), c)
  {
    MulMonotone(1, local, dim);
    InRange(h % local, j, local, dim);
    RowOfPart(h, local);
    FlatPosition(h / local, h % local, j, local, dim);
    PartRow(qkv, cols, sum, first, local * dim, h / local, h % local * dim + j, c);
  }

  // Whole shards of `sum` rows, with their scales.
  ghost predicate WholeShardsOf<W, S>(w: Matrix<W>, s: Matrix<S>, shards: pos, sum: pos) {
    w.rows > 0 && w.rows == sum * shards && s.rows == shards * CeilDiv(sum, BLOCK) && w.cols <= s.cols * BLOCK
  }

  // Shards of `sum` rows: the dequantization goes through, and row `at` of a shard gets that shard's own scales.
  lemma ShardKeepsScale<W, S, T>(
    w: Matrix<W>, s: Matrix<S>, shards: pos, scaled: (W, S) -> T, sum: pos, shard: nat, at: nat, c: nat)
    requires WholeShardsOf(w, s, shards, sum)
    requires c < w.cols && at < sum && shard < shards
    ensures DequantFused(w, s, shards, scaled).Some?
    ensures DequantFused(w, s, shards, scaled).value.at(Place(shard, sum, at), c)
         == scaled(w.at(Place(shard, sum, at), c),
                   s.at(Place(shard, CeilDiv(sum, BLOCK), Quot(at, BLOCK)), Quot(c, BLOCK)))
  {
    var row := Place(shard, sum, at);
    InRange(shard, at, shards, sum);
    assert row < sum * shards;
    DivisionIsUnique(row, sum, shard, at);
    ScaleRowOfShard(sum, shards, 0);
    ScaleRowOfShard(sum, shards, row);
    DequantReadsScaleRow(w, s, shards, scaled);
  }

  // After dequantizing and splitting, row `at` of a part in a shard carries the scale block of that shard its row
  // lies in, counted from the start of the shard.
  lemma PartsKeepTheirScale<W, S, T>(
    w: Matrix<W>, s: Matrix<S>, shards: pos, scaled: (W, S) -> T,
    sum: pos, first: nat, size: pos, shard: nat, at: nat, c: nat)
    requires WholeShardsOf(w, s, shards, sum)
    requires c < w.cols && at < size && first + size <= sum && shard < shards
    ensures DequantFused(w, s, shards, scaled).Some?
    ensures Part(DequantFused(w, s, shards, scaled).value.at, w.cols, sum, first, size, Place(shard, size, at), c)
         == scaled(w.at(Place(shard, sum, first + at), c),
                   s.at(Place(shard, CeilDiv(sum, BLOCK), Quot(first + at, BLOCK)), Quot(c, BLOCK)))
  {
    ShardKeepsScale(w, s, shards, scaled, sum, shard, first + at, c);
    PartRow(DequantFused(w, s, shards, scaled).value.at, w.cols, sum, first, size, shard, at, c);
  }
}
