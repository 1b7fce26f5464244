// Row-major tensors: what `view`, `reshape`, `transpose(1, 2)`, `flatten` and `unflatten` read.
// A tensor is its shape and a function from indices; a view goes through the flat position of an element.
module Views {
  import opened Arithmetic

  // Element (i, a, j, b) of a matrix with `cols` columns viewed in the shape (_, dimA, dimJ, dimB).
  function View4<T>(m: (nat, nat) -> T, cols: pos, dimA: nat, dimJ: nat, dimB: nat, i: nat, a: nat, j: nat, b: nat): T {
    var flat := ((i * dimA + a) * dimJ + j) * dimB + b;
    m(Quot(flat, cols), Rem(flat, cols))
  }

  // Element (r, c) of the shape (_, cols) that a tensor of shape (_, dimA, dimJ, dimB) is reshaped to.
  function Reshape2<T>(t: (nat, nat, nat, nat) -> T, cols: nat, dimA: pos, dimJ: pos, dimB: pos, r: nat, c: nat): T {
    var flat := r * cols + c;
    var tile := Quot(flat, dimB);
    var row := Quot(tile, dimJ);
    t(Quot(row, dimA), Rem(row, dimA), Rem(tile, dimJ), Rem(flat, dimB))
  }

  // Element (r, c) of the shape (_, cols) that a tensor of shape (_, half, 2) is reshaped to.
  function Interleave<T>(t: (nat, nat, nat) -> T, cols: nat, half: pos, r: nat, c: nat): T {
    var flat := r * cols + c;
    t(Quot(Quot(flat, 2), half), Rem(Quot(flat, 2), half), Rem(flat, 2))
  }

  // The element at position k of the last dimension after flattening trailing dimensions (_, width).
  function Flatten<T>(t: (nat, nat) -> T, width: pos, k: nat): T {
    t(Quot(k, width), Rem(k, width))
  }

  lemma InRange(j: nat, b: nat, dimJ: nat, dimB: nat)
    requires j < dimJ && b < dimB
    ensures j * dimB + b < dimJ * dimB
  {
    MulMonotone(j + 1, dimJ, dimB);
    assert (j + 1) * dimB == j * dimB + dimB;
  }

  lemma FlatPosition(row: nat, j: nat, b: nat, dimJ: nat, dimB: nat)
    ensures (row * dimJ + j) * dimB + b == row * (dimJ * dimB) + (j * dimB + b)
  {
    assert (row * dimJ) * dimB == row * (dimJ * dimB);
  }

  // A view splits rows by dimA and columns by dimB.
  lemma View4At<T>(m: (nat, nat) -> T, cols: pos, dimA: nat, dimJ: nat, dimB: nat, i: nat, a: nat, j: nat, b: nat)
    requires cols == dimJ * dimB && j < dimJ && b < dimB
    ensures View4(m, cols, dimA, dimJ, dimB, i, a, j, b) == m(i * dimA + a, j * dimB + b)
  {
    var row := i * dimA + a;
    InRange(j, b, dimJ, dimB);
    FlatPosition(row, j, b, dimJ, dimB);
    DivisionIsUnique((row * dimJ + j) * dimB + b, cols, row, j * dimB + b);
  }

  // Reshaping back to a matrix reads the tile the row and the column lie in.
  lemma Reshape2At<T>(t: (nat, nat, nat, nat) -> T, cols: nat, dimA: pos, dimJ: pos, dimB: pos, r: nat, c: nat)
    requires cols == dimJ * dimB && c < cols
    ensures Reshape2(t, cols, dimA, dimJ, dimB, r, c) == t(r / dimA, r % dimA, c / dimB, c % dimB)
  {
    var flat := r * cols + c;
    FlatPosition(r, c / dimB, c % dimB, dimJ, dimB);
    DivisionIsUnique(flat, dimB, r * dimJ + c / dimB, c % dimB);
    DivisionIsUnique(r * dimJ + c / dimB, dimJ, r, c / dimB);
  }

  lemma InterleaveAt<T>(t: (nat, nat, nat) -> T, cols: nat, half: pos, r: nat, c: nat)
    requires cols == half * 2 && c < cols
    ensures Interleave(t, cols, half, r, c) == t(r, c / 2, c % 2)
  {
    var flat := r * cols + c;
    assert r * cols == (r * half) * 2;
    DivisionIsUnique(flat, 2, r * half + c / 2, c % 2);
    DivisionIsUnique(r * half + c / 2, half, r, c / 2);
  }

  // ---- matrices that carry their shape ----

  datatype Matrix<!T> = Matrix(rows: nat, cols: nat, at: (nat, nat) -> T)

  // repeat_interleave(n, dim=0) and (n, dim=1).
  function RepeatRows<T>(m: Matrix<T>, n: pos): Matrix<T> {
    Matrix(m.rows * n, m.cols, (r: nat, c: nat) => m.at(Quot(r, n), c))
  }

  function RepeatCols<T>(m: Matrix<T>, n: pos): Matrix<T> {
    Matrix(m.rows, m.cols * n, (r: nat, c: nat) => m.at(r, Quot(c, n)))
  }

  // m[:rows] and m[:, :cols], which take what there is.
  function TakeRows<T>(m: Matrix<T>, rows: nat): Matrix<T> {
    m.(rows := if m.rows < rows then m.rows else rows)
  }

  function TakeCols<T>(m: Matrix<T>, cols: nat): Matrix<T> {
    m.(cols := if m.cols < cols then m.cols else cols)
  }

  function DropRows<T>(m: Matrix<T>, rows: nat): Matrix<T>
    requires rows <= m.rows
  {
    Matrix(m.rows - rows, m.cols, (r: nat, c: nat) => m.at(r + rows, c))
  }

  // split(size): pieces of `size` rows, the last of which may be shorter.
  function Split<T>(m: Matrix<T>, size: pos): (pieces: seq<Matrix<T>>)
    ensures pieces != []
    decreases m.rows
  {
    if m.rows <= size then [m] else [TakeRows(m, size)] + Split(DropRows(m, size), size)
  }

  // chunk(n) of a matrix with rows: split into pieces of ceil(rows / n) rows, so possibly into fewer than n.
  function Chunk<T>(m: Matrix<T>, n: pos): seq<Matrix<T>>
    requires m.rows > 0
  {
    Split(m, CeilDiv(m.rows, n))
  }

  // torch.cat along the rows.
  function Cat<T>(pieces: seq<Matrix<T>>): Matrix<T>
    requires pieces != []
  {
    if |pieces| == 1 then pieces[0]
    else
      var first, rest := pieces[0], Cat(pieces[1..]);
      Matrix(first.rows + rest.rows, first.cols,
             (r: nat, c: nat) => if r < first.rows then first.at(r, c) else rest.at(r - first.rows, c))
  }
}
