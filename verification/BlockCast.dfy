// MXFP4 (E2M1 elements in sections of 32 with an E8M0 scale each, sections 5.3.3 and 5.4.1 of the OCP Microscaling
// Formats (MX) Specification v1.0) to E4M3 with one power-of-two scale per 128x128 block, written twice:
// by tools/convert_mimo_v2_to_bf16.py over broadcast exponents, by tools/convert_mxfp4_to_fp8.py over block views.
// Arithmetic is over the reals.
module BlockCast {
  import opened Arithmetic
  import opened E4M3
  import opened Views
  import opened Wrappers

  type byte = n: nat | n < 256

  const BLOCK: pos := 128
  const SECTION: pos := 32
  const GROUPS: pos := 4

  datatype Mxfp4 = Mxfp4(
    rows: nat, half: nat, packed: (nat, nat) -> byte,                  // two elements a byte
    scaleRows: nat, scaleCols: nat, scale: (nat, nat) -> byte)         // E8M0

  function Cols(t: Mxfp4): nat {
    t.half * 2
  }

  // The assertions both casts make.
  predicate Whole(t: Mxfp4) {
    && t.rows % BLOCK == 0 && Cols(t) % BLOCK == 0
    && t.scaleRows == t.rows && t.scaleCols == Cols(t) / SECTION
  }

  predicate InBounds(t: Mxfp4, r: nat, c: nat) {
    r < t.rows && c < Cols(t)
  }

  // A signed magnitude, so that a negative zero keeps its sign.
  datatype Signed = Signed(negative: bool, magnitude: real)

  // An FP8 element: sign and magnitude code.
  datatype Fp8 = Fp8(negative: bool, code: nat)

  function Nibble(b: byte, which: nat): nat {
    if which == 0 then b % 16 else b / 16
  }

  // Twice the magnitude of an E2M1 element.
  predicate IsHalves(h: nat) {
    h <= 4 || h == 6 || h == 8 || h == 12
  }

  // Twice the magnitude FP4_TABLE gives a nibble.
  function Halves(nibble: nat): (h: nat)
    ensures IsHalves(h)
  {
    var m := nibble % 8;
    if m <= 4 then m else if m == 5 then 6 else if m == 6 then 8 else 12
  }

  function Fp4(nibble: nat): (x: Signed)
    ensures x.magnitude >= 0.0
  {
    Signed(nibble >= 8, Halves(nibble) as real / 2.0)
  }

  function Times(x: Signed, factor: real): (y: Signed)
    ensures x.magnitude >= 0.0 && factor >= 0.0 ==> y.magnitude >= 0.0
  {
    Signed(x.negative, x.magnitude * factor)
  }

  function ToE4M3(x: Signed): Fp8
    requires x.magnitude >= 0.0
  {
    Fp8(x.negative, Encode(x.magnitude * 512.0))
  }

  // unpack_e2m1: both nibbles of every byte stacked in a new last dimension, then reshaped to rows.
  function NibbleStack(t: Mxfp4): (nat, nat, nat) -> nat {
    (r: nat, p: nat, which: nat) => Nibble(t.packed(r, p), which)
  }

  function Unpacked(t: Mxfp4, half: pos): (nat, nat) -> nat {
    (r: nat, c: nat) => Interleave(NibbleStack(t), half * 2, half, r, c)
  }

  // The nibble that holds element (r, c).
  function NibbleAt(t: Mxfp4, r: nat, c: nat): nat {
    Nibble(t.packed(r, c / 2), c % 2)
  }

  lemma UnpackedAt(t: Mxfp4, half: pos, r: nat, c: nat)
    requires c < half * 2
    ensures Unpacked(t, half)(r, c) == NibbleAt(t, r, c)
  {
    InterleaveAt(NibbleStack(t), half * 2, half, r, c);
  }

  // ---- amax ----

  function Values<T>(f: nat -> T, n: nat): (s: seq<T>)
    ensures |s| == n && forall k :: 0 <= k < n ==> s[k] == f(k)
  {
    seq(n, k requires 0 <= k < n => f(k))
  }

  function MaxIn(s: seq<int>): int
    requires s != []
  {
    var last := s[|s| - 1];
    if |s| == 1 || last > MaxIn(s[..|s| - 1]) then last else MaxIn(s[..|s| - 1])
  }

  function MaxRealIn(s: seq<real>): real
    requires s != []
  {
    var last := s[|s| - 1];
    if |s| == 1 || last > MaxRealIn(s[..|s| - 1]) then last else MaxRealIn(s[..|s| - 1])
  }

  function Max(f: nat -> int, n: pos): int {
    MaxIn(Values(f, n))
  }

  function MaxReal(f: nat -> real, n: pos): real {
    MaxRealIn(Values(f, n))
  }

  lemma {:induction false} MaxInBounds(s: seq<int>, k: nat)
    requires k < |s|
    ensures s[k] <= MaxIn(s)
  {
    if k < |s| - 1 { MaxInBounds(s[..|s| - 1], k); }
  }

  lemma {:induction false} MaxInAttained(s: seq<int>) returns (k: nat)
    requires s != []
    ensures k < |s| && s[k] == MaxIn(s)
  {
    if |s| == 1 || s[|s| - 1] > MaxIn(s[..|s| - 1]) {
      k := |s| - 1;
    } else {
      k := MaxInAttained(s[..|s| - 1]);
    }
  }

  lemma MaxBounds(f: nat -> int, n: pos, k: nat)
    requires k < n
    ensures f(k) <= Max(f, n)
  {
    MaxInBounds(Values(f, n), k);
  }

  lemma MaxAttained(f: nat -> int, n: pos) returns (k: nat)
    ensures k < n && f(k) == Max(f, n)
  {
    k := MaxInAttained(Values(f, n));
  }

  // The largest power is the power of the largest exponent.
  lemma {:induction false} MaxInPowers(p: seq<real>, e: seq<int>)
    requires |p| == |e| > 0 && forall k :: 0 <= k < |p| ==> p[k] == Exp2(e[k])
    ensures MaxRealIn(p) == Exp2(MaxIn(e))
  {
    if |p| > 1 {
      var last := e[|e| - 1];
      var rest := MaxIn(e[..|e| - 1]);
      MaxInPowers(p[..|p| - 1], e[..|e| - 1]);
      if last > rest {
        Exp2Monotone(rest + 1, last);
      } else {
        Exp2Monotone(last, rest);
      }
    }
  }

  lemma MaxOfPowers(g: nat -> real, f: nat -> int, n: pos)
    requires forall k :: 0 <= k < n ==> g(k) == Exp2(f(k))
    ensures MaxReal(g, n) == Exp2(Max(f, n))
  {
    MaxInPowers(Values(g, n), Values(f, n));
  }

  function Row(f: (nat, nat) -> int, a: nat): nat -> int {
    (g: nat) => f(a, g)
  }

  // amax over two dimensions: the maximum of every row, then over the rows.
  function RowMaxima(f: (nat, nat) -> int, width: pos): nat -> int {
    (a: nat) => Max(Row(f, a), width)
  }

  function Flat(f: (nat, nat) -> int, width: pos): nat -> int {
    (k: nat) => Flatten(f, width, k)
  }

  lemma RowOf(k: nat, rows: pos, width: pos)
    requires k < rows * width
    ensures k / width < rows && k % width < width
  {
  }

  lemma FlatValue(f: (nat, nat) -> int, rows: pos, width: pos, a: nat, g: nat)
    requires a < rows && g < width
    ensures f(a, g) <= Max(RowMaxima(f, width), rows)
  {
    MaxBounds(Row(f, a), width, g);
    MaxBounds(RowMaxima(f, width), rows, a);
  }

  lemma FlatValueAt(f: (nat, nat) -> int, rows: pos, width: pos, n: pos, k: nat)
    requires k < n == rows * width
    ensures Flat(f, width)(k) <= Max(RowMaxima(f, width), rows)
  {
    RowOf(k, rows, width);
    FlatValue(f, rows, width, k / width, k % width);
  }

  lemma FlatAtMostNested(f: (nat, nat) -> int, rows: pos, width: pos, n: pos)
    requires n == rows * width
    ensures Max(Flat(f, width), n) <= Max(RowMaxima(f, width), rows)
  {
    var k := MaxAttained(Flat(f, width), n);
    FlatValueAt(f, rows, width, n, k);
  }

  lemma NestedAtMostFlat(f: (nat, nat) -> int, rows: pos, width: pos, n: pos)
    requires n == rows * width
    ensures Max(RowMaxima(f, width), rows) <= Max(Flat(f, width), n)
  {
    var a := MaxAttained(RowMaxima(f, width), rows);
    var g := MaxAttained(Row(f, a), width);
    var k := a * width + g;
    DivisionIsUnique(k, width, a, g);
    InRange(a, g, rows, width);
    assert Flat(f, width)(k) == f(a, g);
    MaxBounds(Flat(f, width), n, k);
  }

  // ---- the cast over broadcast exponents ----

  function Exponent(t: Mxfp4): (nat, nat) -> int {
    (r: nat, g: nat) => t.scale(r, g) as int - 127
  }

  // exponent.view(...), one block
  function ExponentTile(t: Mxfp4, wide: pos, i: nat, j: nat): (nat, nat) -> int {
    (a: nat, g: nat) => View4(Exponent(t), wide * GROUPS, BLOCK, wide, GROUPS, i, a, j, g)
  }

  // exponent.view(...).amax(dim=(1, 3))
  function TopExponent(t: Mxfp4, wide: pos, i: nat, j: nat): int {
    Max(RowMaxima(ExponentTile(t, wide, i, j), GROUPS), BLOCK)
  }

  function BlockExponent(t: Mxfp4, wide: pos, i: nat, j: nat): int {
    TopExponent(t, wide, i, j) - 6
  }

  // Both repeat_interleaves: rows by 128, groups by 4.
  function Shift(t: Mxfp4, wide: pos, r: nat, g: nat): int {
    Exponent(t)(r, g) - BlockExponent(t, wide, r / BLOCK, g / GROUPS)
  }

  function CastNibble(nibble: nat, shift: int): Fp8 {
    ToE4M3(Times(Fp4(nibble), Exp2(shift)))
  }

  // cast_mxfp4_to_fp8_block: element (r, c) and the scale of block (i, j).
  function BroadcastElement(t: Mxfp4, wide: pos, r: nat, c: nat): Fp8 {
    CastNibble(Unpacked(t, wide * 64)(r, c), Shift(t, wide, r, c / SECTION))
  }

  function BroadcastScale(t: Mxfp4, wide: pos, i: nat, j: nat): real {
    Exp2(BlockExponent(t, wide, i, j))
  }

  // ---- the cast over block views ----

  function Scale(t: Mxfp4): (nat, nat) -> real {
    (r: nat, g: nat) => Exp2(t.scale(r, g) as int - 127)
  }

  // scale.view(...).transpose(1, 2), one block
  function ScaleTile(t: Mxfp4, wide: pos, i: nat, j: nat): (nat, nat) -> real {
    (a: nat, g: nat) => View4(Scale(t), wide * GROUPS, BLOCK, wide, GROUPS, i, a, j, g)
  }

  // ... .flatten(2)
  function FlatScales(t: Mxfp4, wide: pos, i: nat, j: nat): nat -> real {
    (k: nat) => Flatten(ScaleTile(t, wide, i, j), GROUPS, k)
  }

  // scale.amax(dim=-1)
  function TopScale(t: Mxfp4, wide: pos, i: nat, j: nat): real {
    MaxReal(FlatScales(t, wide, i, j), BLOCK * GROUPS)
  }

  function TileScale(t: Mxfp4, wide: pos, i: nat, j: nat): real {
    TopScale(t, wide, i, j) / 64.0
  }

  // (scale / tile_scale).unflatten(-1, (128, -1)).repeat_interleave(32, dim=-1)
  function Offset(t: Mxfp4, wide: pos, i: nat, j: nat, a: nat, b: nat): real {
    var tile := TileScale(t, wide, i, j);
    if tile == 0.0 then 0.0 else FlatScales(t, wide, i, j)(a * GROUPS + b / SECTION) / tile
  }

  // (x * offset).transpose(1, 2), before it is reshaped to rows
  function Products(t: Mxfp4, wide: pos): (nat, nat, nat, nat) -> Signed {
    (i: nat, a: nat, j: nat, b: nat) =>
      Times(Fp4(View4(Unpacked(t, wide * 64), wide * BLOCK, BLOCK, wide, BLOCK, i, a, j, b)),
            Offset(t, wide, i, j, a, b))
  }

  function ViewProduct(t: Mxfp4, wide: pos, r: nat, c: nat): Signed {
    Reshape2(Products(t, wide), wide * BLOCK, BLOCK, wide, BLOCK, r, c)
  }

  // ---- the two casts agree ----

  lemma Exp2Quotient(a: int, b: int)
    ensures Exp2(a) / Exp2(b) == Exp2(a - b)
  {
    Exp2Splits(a - b, b);
    Quotient(Exp2(a), Exp2(a - b), Exp2(b));
  }

  lemma Quotient(p: real, q: real, r: real)
    requires IsProduct(p, q, r) && r > 0.0
    ensures p / r == q
  {
  }

  lemma TileOfPowers(t: Mxfp4, wide: pos, i: nat, j: nat, a: nat, g: nat)
    ensures ScaleTile(t, wide, i, j)(a, g) == Exp2(ExponentTile(t, wide, i, j)(a, g))
  {
  }

  lemma FlatOfPowers(t: Mxfp4, wide: pos, i: nat, j: nat, k: nat)
    ensures FlatScales(t, wide, i, j)(k) == Exp2(Flat(ExponentTile(t, wide, i, j), GROUPS)(k))
  {
    TileOfPowers(t, wide, i, j, k / GROUPS, k % GROUPS);
  }

  lemma NestedIsFlat(f: (nat, nat) -> int, rows: pos, width: pos)
    ensures Max(Flat(f, width), rows * width) == Max(RowMaxima(f, width), rows)
  {
    FlatAtMostNested(f, rows, width, rows * width);
    NestedAtMostFlat(f, rows, width, rows * width);
  }

  lemma TopScaleIsPower(t: Mxfp4, wide: pos, i: nat, j: nat)
    ensures TopScale(t, wide, i, j) == Exp2(TopExponent(t, wide, i, j))
  {
    forall k: nat
      ensures FlatScales(t, wide, i, j)(k) == Exp2(Flat(ExponentTile(t, wide, i, j), GROUPS)(k))
    {
      FlatOfPowers(t, wide, i, j, k);
    }
    MaxOfPowers(FlatScales(t, wide, i, j), Flat(ExponentTile(t, wide, i, j), GROUPS), BLOCK * GROUPS);
    NestedIsFlat(ExponentTile(t, wide, i, j), BLOCK, GROUPS);
  }

  lemma SixtyFourth(top: real, m: int)
    requires top == Exp2(m)
    ensures top / 64.0 == Exp2(m - 6)
  {
    Exp2Quotient(m, 6);
  }

  // The block scales are the same power of two.
  lemma ScalesAgree(t: Mxfp4, wide: pos, i: nat, j: nat)
    ensures TileScale(t, wide, i, j) == BroadcastScale(t, wide, i, j)
  {
    TopScaleIsPower(t, wide, i, j);
    SixtyFourth(TopScale(t, wide, i, j), TopExponent(t, wide, i, j));
  }

  lemma ScaleOfElement(t: Mxfp4, wide: pos, i: nat, j: nat, a: nat, g: nat)
    requires j < wide && g < GROUPS
    ensures FlatScales(t, wide, i, j)(a * GROUPS + g) == Exp2(Exponent(t)(i * BLOCK + a, j * GROUPS + g))
  {
    DivisionIsUnique(a * GROUPS + g, GROUPS, a, g);
    TileOfPowers(t, wide, i, j, a, g);
    View4At(Exponent(t), wide * GROUPS, BLOCK, wide, GROUPS, i, a, j, g);
  }

  lemma OffsetOf(t: Mxfp4, wide: pos, i: nat, j: nat, a: nat, b: nat, shift: int)
    requires j < wide && b < BLOCK
    requires shift == Exponent(t)(i * BLOCK + a, j * GROUPS + b / SECTION) - BlockExponent(t, wide, i, j)
    ensures Offset(t, wide, i, j, a, b) == Exp2(shift)
  {
    var g := b / SECTION;
    var x, y := FlatScales(t, wide, i, j)(a * GROUPS + g), TileScale(t, wide, i, j);
    var e, top := Exponent(t)(i * BLOCK + a, j * GROUPS + g), BlockExponent(t, wide, i, j);
    assert x == Exp2(e) && y == Exp2(top) by { ScalesArePowers(t, wide, i, j, a, g); }
    assert Offset(t, wide, i, j, a, b) == x / y;
    PowerQuotient(x, y, e, top, shift);
  }

  lemma ScalesArePowers(t: Mxfp4, wide: pos, i: nat, j: nat, a: nat, g: nat)
    requires j < wide && g < GROUPS
    ensures FlatScales(t, wide, i, j)(a * GROUPS + g) == Exp2(Exponent(t)(i * BLOCK + a, j * GROUPS + g))
    ensures TileScale(t, wide, i, j) == Exp2(BlockExponent(t, wide, i, j))
  {
    ScaleOfElement(t, wide, i, j, a, g);
    ScalesAgree(t, wide, i, j);
  }

  lemma PowerQuotient(x: real, y: real, a: int, b: int, k: int)
    requires x == Exp2(a) && y == Exp2(b) && k == a - b
    ensures y != 0.0 && x / y == Exp2(k)
  {
    Exp2Quotient(a, b);
  }

  lemma SectionOf(c: nat, wide: pos)
    requires c < wide * BLOCK
    ensures c / BLOCK < wide && c / SECTION == c / BLOCK * GROUPS + c % BLOCK / SECTION
    ensures c / SECTION / GROUPS == c / BLOCK
  {
  }

  lemma ShiftOf(t: Mxfp4, wide: pos, r: nat, s: nat, i: nat, j: nat, a: nat, g: nat)
    requires r / BLOCK == i && r % BLOCK == a && s / GROUPS == j && s == j * GROUPS + g
    ensures Shift(t, wide, r, s) == Exponent(t)(i * BLOCK + a, j * GROUPS + g) - BlockExponent(t, wide, i, j)
  {
    assert i * BLOCK + a == r;
  }

  // The offset of an element is the power of two the broadcast cast shifts it by.
  lemma OffsetIsShift(t: Mxfp4, wide: pos, r: nat, c: nat)
    requires c < wide * BLOCK
    ensures Offset(t, wide, r / BLOCK, c / BLOCK, r % BLOCK, c % BLOCK) == Exp2(Shift(t, wide, r, c / SECTION))
  {
    var i, j, a, b := r / BLOCK, c / BLOCK, r % BLOCK, c % BLOCK;
    SectionOf(c, wide);
    ShiftOf(t, wide, r, c / SECTION, i, j, a, b / SECTION);
    OffsetOf(t, wide, i, j, a, b, Shift(t, wide, r, c / SECTION));
  }

  lemma NibbleOfTile(t: Mxfp4, wide: pos, r: nat, c: nat)
    requires c < wide * BLOCK
    ensures View4(Unpacked(t, wide * 64), wide * BLOCK, BLOCK, wide, BLOCK, r / BLOCK, r % BLOCK, c / BLOCK, c % BLOCK)
         == Unpacked(t, wide * 64)(r, c)
  {
    SectionOf(c, wide);
    View4At(Unpacked(t, wide * 64), wide * BLOCK, BLOCK, wide, BLOCK, r / BLOCK, r % BLOCK, c / BLOCK, c % BLOCK);
    assert r / BLOCK * BLOCK + r % BLOCK == r && c / BLOCK * BLOCK + c % BLOCK == c;
  }

  lemma ProductsAgree(t: Mxfp4, wide: pos, r: nat, c: nat)
    requires c < wide * BLOCK
    ensures ViewProduct(t, wide, r, c)
         == Times(Fp4(Unpacked(t, wide * 64)(r, c)), Exp2(Shift(t, wide, r, c / SECTION)))
  {
    Reshape2At(Products(t, wide), wide * BLOCK, BLOCK, wide, BLOCK, r, c);
    NibbleOfTile(t, wide, r, c);
    OffsetIsShift(t, wide, r, c);
  }

  // A cast result; only indices inside the shape mean anything.
  datatype Quantized = Quantized(rows: nat, cols: nat, element: (nat, nat) -> Fp8, blockScale: (nat, nat) -> real)

  function BroadcastCast(t: Mxfp4): Option<Quantized> {
    if !Whole(t) then None else
    var wide := Cols(t) / BLOCK;
    Some(Quantized(t.rows, Cols(t),
      (r: nat, c: nat) => if c < wide * BLOCK then BroadcastElement(t, wide, r, c) else Fp8(false, 0),
      (i: nat, j: nat) => if j < wide then BroadcastScale(t, wide, i, j) else 0.0))
  }

  function ViewElement(t: Mxfp4, wide: pos, r: nat, c: nat): Fp8
    requires c < wide * BLOCK
  {
    ProductsAgree(t, wide, r, c);
    ToE4M3(ViewProduct(t, wide, r, c))
  }

  function ViewCast(t: Mxfp4): Option<Quantized> {
    if !Whole(t) then None else
    var wide := Cols(t) / BLOCK;
    Some(Quantized(t.rows, Cols(t),
      (r: nat, c: nat) => if c < wide * BLOCK then ViewElement(t, wide, r, c) else Fp8(false, 0),
      (i: nat, j: nat) => if j < wide then TileScale(t, wide, i, j) else 0.0))
  }

  ghost predicate SameQuantized(p: Quantized, q: Quantized) {
    && p.rows == q.rows && p.cols == q.cols
    && (forall r, c :: 0 <= r < p.rows && 0 <= c < p.cols ==> p.element(r, c) == q.element(r, c))
    && (forall i, j :: 0 <= i < p.rows / BLOCK && 0 <= j < p.cols / BLOCK ==> p.blockScale(i, j) == q.blockScale(i, j))
  }

  // Both converters cast every tensor alike, element for element and scale for scale, and refuse the same shapes.
  lemma CastsAgree(t: Mxfp4)
    ensures BroadcastCast(t).Some? <==> ViewCast(t).Some?
    ensures BroadcastCast(t).Some? ==> SameQuantized(BroadcastCast(t).value, ViewCast(t).value)
  {
    if Whole(t) {
      var wide := Cols(t) / BLOCK;
      forall r: nat, c: nat | c < wide * BLOCK ensures BroadcastElement(t, wide, r, c) == ViewElement(t, wide, r, c) {
        ProductsAgree(t, wide, r, c);
      }
      forall i: nat, j: nat | j < wide ensures BroadcastScale(t, wide, i, j) == TileScale(t, wide, i, j) {
        ScalesAgree(t, wide, i, j);
      }
    }
  }

  // ---- range and exactness ----

  // The E8M0 exponent of element (r, c), and the largest one in its block.
  function ElementExponent(t: Mxfp4, r: nat, c: nat): int {
    t.scale(r, c / SECTION) as int - 127
  }

  function Spread(t: Mxfp4, wide: pos, r: nat, c: nat): int {
    TopExponent(t, wide, r / BLOCK, c / BLOCK) - ElementExponent(t, r, c)
  }

  lemma SpreadIsNatural(t: Mxfp4, wide: pos, r: nat, c: nat)
    requires c < wide * BLOCK
    ensures Spread(t, wide, r, c) >= 0 && Shift(t, wide, r, c / SECTION) == 6 - Spread(t, wide, r, c)
  {
    var i, j, a, g := r / BLOCK, c / BLOCK, r % BLOCK, c % BLOCK / SECTION;
    SectionOf(c, wide);
    View4At(Exponent(t), wide * GROUPS, BLOCK, wide, GROUPS, i, a, j, g);
    assert i * BLOCK + a == r;
    FlatValue(ExponentTile(t, wide, i, j), BLOCK, GROUPS, a, g);
  }

  // How often 2 divides an E2M1 magnitude counted in halves.
  function TwoAdic(h: nat): nat {
    if h == 8 then 3 else if h == 4 || h == 12 then 2 else if h == 2 || h == 6 then 1 else 0
  }

  lemma NegativePowers()
    ensures Exp2(-1) == 0.5 && Exp2(-2) == 0.25 && Exp2(-3) == 0.125 && Exp2(-4) == 0.0625
  {
    assert Exp2(-2) == Exp2(-1) / 2.0;
    assert Exp2(-3) == Exp2(-2) / 2.0;
    assert Exp2(-4) == Exp2(-3) / 2.0;
  }

  lemma WholeIff(h: nat, k: int)
    requires IsHalves(h) && k < 0
    ensures 0.0 <= Scaled(h, k) < 16.0
    ensures Scaled(h, k).Floor as real == Scaled(h, k) <==> h == 0 || -k <= TwoAdic(h)
  {
    NegativePowers();
    if k <= -4 {
      Exp2Monotone(k, -4);
      Below(h as real, Exp2(k), 0.0625);
    } else if k == -3 {
      assert Scaled(h, k) == h as real * 0.125;
    } else if k == -2 {
      assert Scaled(h, k) == h as real * 0.25;
    } else {
      assert Scaled(h, k) == h as real * 0.5;
    }
  }

  // h * 2^k units are a value of E4M3 exactly when dividing by 2^-k leaves a whole number of units.
  lemma KeptIff(h: nat, k: int)
    requires IsHalves(h)
    ensures Scaled(h, k) >= 0.0
    ensures Units(Encode(Scaled(h, k))) as real == Scaled(h, k) <==> h == 0 || -k <= TwoAdic(h)
  {
    if k >= 0 {
      FourBitsAreExact(h, k);
    } else {
      WholeIff(h, k);
    }
  }

  function HalvesAt(t: Mxfp4, r: nat, c: nat): nat {
    Halves(NibbleAt(t, r, c))
  }

  lemma HalfTimesPower(h: nat, k: int)
    ensures h as real / 2.0 * Exp2(k) * 512.0 == Scaled(h, k + 8)
  {
    Exp2Splits(k, 8);
    assert Exp2(9) == 2.0 * Exp2(8);
  }

  lemma TimesScaled(x: Signed, h: nat, shift: int)
    requires x.magnitude == h as real / 2.0
    ensures Times(x, Exp2(shift)).magnitude * 512.0 == Scaled(h, shift + 8)
  {
    HalfTimesPower(h, shift);
  }

  lemma Fp4Scaled(nibble: nat, shift: int)
    ensures Times(Fp4(nibble), Exp2(shift)).magnitude * 512.0 == Scaled(Halves(nibble), shift + 8)
  {
    TimesScaled(Fp4(nibble), Halves(nibble), shift);
  }

  lemma CastNibbleIs(nibble: nat, spread: int)
    ensures Scaled(Halves(nibble), 14 - spread) >= 0.0
    ensures CastNibble(nibble, 6 - spread) == Fp8(nibble >= 8, Encode(Scaled(Halves(nibble), 14 - spread)))
  {
    Fp4Scaled(nibble, 6 - spread);
    var y := Times(Fp4(nibble), Exp2(6 - spread));
    assert CastNibble(nibble, 6 - spread) == Fp8(y.negative, Encode(y.magnitude * 512.0));
  }

  lemma ElementIs(t: Mxfp4, wide: pos, r: nat, c: nat)
    requires c < wide * BLOCK
    ensures BroadcastElement(t, wide, r, c) == CastNibble(NibbleAt(t, r, c), 6 - Spread(t, wide, r, c))
  {
    var nibble, shift := Unpacked(t, wide * 64)(r, c), Shift(t, wide, r, c / SECTION);
    assert nibble == NibbleAt(t, r, c) by { UnpackedAt(t, wide * 64, r, c); }
    assert shift == 6 - Spread(t, wide, r, c) by { SpreadIsNatural(t, wide, r, c); }
    assert BroadcastElement(t, wide, r, c) == CastNibble(nibble, shift);
  }

  // What the cast rounds: the element, its exponents spread d below its block's largest, is h * 2^(14-d) units.
  lemma CodeOf(t: Mxfp4, wide: pos, r: nat, c: nat)
    requires c < wide * BLOCK
    ensures Scaled(HalvesAt(t, r, c), 14 - Spread(t, wide, r, c)) >= 0.0
    ensures BroadcastElement(t, wide, r, c)
         == Fp8(NibbleAt(t, r, c) >= 8, Encode(Scaled(HalvesAt(t, r, c), 14 - Spread(t, wide, r, c))))
  {
    ElementIs(t, wide, r, c);
    CastNibbleIs(NibbleAt(t, r, c), Spread(t, wide, r, c));
  }

  // Every cast value is finite: its magnitude is at most 384.
  lemma CastIsFinite(t: Mxfp4, wide: pos, r: nat, c: nat)
    requires c < wide * BLOCK
    ensures BroadcastElement(t, wide, r, c).code <= 124 < MAX_FINITE
    ensures Units(BroadcastElement(t, wide, r, c).code) <= 384 * 512
  {
    var h, k := HalvesAt(t, r, c), 14 - Spread(t, wide, r, c);
    assert k <= 14 by { SpreadIsNatural(t, wide, r, c); }
    assert Scaled(h, k) >= 0.0 && BroadcastElement(t, wide, r, c).code == Encode(Scaled(h, k)) by {
      CodeOf(t, wide, r, c);
    }
    CodeAtMostTop(h, k);
  }

  lemma CodeAtMostTop(h: nat, k: int)
    requires h <= 12 && k <= 14 && Scaled(h, k) >= 0.0
    ensures Encode(Scaled(h, k)) <= 124 && Units(Encode(Scaled(h, k))) <= 384 * 512
  {
    AtMostTop(h, k);
    assert Units(124) == 384 * 512;
    EncodeAtMost(Scaled(h, k), 124);
    UnitsOrder(Encode(Scaled(h, k)), 124);
  }

  lemma AtMostTop(h: nat, k: int)
    requires h <= 12 && k <= 14
    ensures Scaled(h, k) <= 384.0 * 512.0
  {
    Exp2Monotone(k, 14);
    assert Exp2(14) == 32.0 * Exp2(9);
    Below(h as real, Exp2(k), 16384.0);
  }

  lemma Below(h: real, p: real, q: real)
    requires 0.0 <= h <= 12.0 && 0.0 <= p <= q
    ensures h * p <= 12.0 * q
  {
  }

  // dequant_fp8_block of a magnitude of u units, and dequant_mxfp4 of a magnitude of h halves.
  function FromFp8(u: nat, blockScale: real): real {
    u as real / 512.0 * blockScale
  }

  function FromMxfp4(h: nat, scale: real): real {
    h as real / 2.0 * scale
  }

  // Magnitudes of element (r, c) after the cast and before it; CodeOf says the signs are equal.
  function CastValue(t: Mxfp4, wide: pos, r: nat, c: nat): real {
    FromFp8(Units(BroadcastElement(t, wide, r, c).code), BroadcastScale(t, wide, r / BLOCK, c / BLOCK))
  }

  function SourceValue(t: Mxfp4, r: nat, c: nat): real {
    FromMxfp4(HalvesAt(t, r, c), Exp2(ElementExponent(t, r, c)))
  }

  // An element survives the cast exactly when its exponent is within 14 of its block's largest, one more for every
  // factor 2 in its magnitude; zero always does.
  predicate Survives(h: nat, spread: int) {
    h == 0 || spread <= 14 + TwoAdic(h)
  }

  lemma SameScale(u: nat, h: nat, top: int, e: int)
    ensures FromFp8(u, Exp2(top - 6)) == FromMxfp4(h, Exp2(e)) <==> u as real == Scaled(h, e - top + 14)
  {
    Exp2Splits(top - 15, 9);
    Exp2Splits(e - top + 14, top - 15);
    Cancel(u, h, Exp2(top - 15), Exp2(top - 6), e - top + 14, Exp2(e - 1), Exp2(e));
  }

  lemma Cancel(u: nat, h: nat, s: real, s512: real, k: int, half: real, p: real)
    requires s > 0.0 && IsProduct(s512, s, 512.0) && IsProduct(half, Exp2(k), s) && p == 2.0 * half
    ensures FromFp8(u, s512) == FromMxfp4(h, p) <==> u as real == Scaled(h, k)
  {
    var q := Exp2(k);
    assert u as real / 512.0 * s512 == u as real * s;
    assert h as real / 2.0 * p == h as real * half == h as real * (q * s) == (h as real * q) * s;
  }

  // A nibble cast with exponent e under a largest exponent `top`, and both scales.
  lemma NibbleKeptIff(nibble: nat, top: int, e: int, u: nat, blockScale: real, scale: real)
    requires u == Units(CastNibble(nibble, 6 - (top - e)).code)
    requires blockScale == Exp2(top - 6) && scale == Exp2(e)
    ensures FromFp8(u, blockScale) == FromMxfp4(Halves(nibble), scale) <==> Survives(Halves(nibble), top - e)
  {
    var h := Halves(nibble);
    CastNibbleIs(nibble, top - e);
    SameScale(u, h, top, e);
    KeptIff(h, 14 - (top - e));
  }

  lemma ElementKeptIff(x: Fp8, nibble: nat, spread: int, top: int, e: int, value: real, source: real)
    requires x == CastNibble(nibble, 6 - spread) && spread == top - e
    requires value == FromFp8(Units(x.code), Exp2(top - 6)) && source == FromMxfp4(Halves(nibble), Exp2(e))
    ensures value == source <==> Survives(Halves(nibble), spread)
  {
    NibbleKeptIff(nibble, top, e, Units(x.code), Exp2(top - 6), Exp2(e));
  }

  lemma CastValueIs(t: Mxfp4, wide: pos, r: nat, c: nat, top: int)
    requires top == TopExponent(t, wide, r / BLOCK, c / BLOCK)
    ensures CastValue(t, wide, r, c) == FromFp8(Units(BroadcastElement(t, wide, r, c).code), Exp2(top - 6))
  {
  }

  // The cast is exact on an element exactly when it survives.
  lemma CastIsExactIff(t: Mxfp4, wide: pos, r: nat, c: nat)
    requires c < wide * BLOCK
    ensures CastValue(t, wide, r, c) == SourceValue(t, r, c)
       <==> Survives(HalvesAt(t, r, c), Spread(t, wide, r, c))
  {
    var top, e := TopExponent(t, wide, r / BLOCK, c / BLOCK), ElementExponent(t, r, c);
    ElementIs(t, wide, r, c);
    CastValueIs(t, wide, r, c, top);
    ElementKeptIff(BroadcastElement(t, wide, r, c), NibbleAt(t, r, c), Spread(t, wide, r, c), top, e,
                   CastValue(t, wide, r, c), SourceValue(t, r, c));
  }

  // The whole cast is exact exactly when every element survives.
  lemma WholeCastIsExactIff(t: Mxfp4, wide: pos)
    requires Whole(t) && Cols(t) == wide * BLOCK
    ensures var q := BroadcastCast(t).value;
            (forall r: nat, c: nat :: r < t.rows && c < Cols(t) ==>
               FromFp8(Units(q.element(r, c).code), q.blockScale(r / BLOCK, c / BLOCK)) == SourceValue(t, r, c))
            <==>
            (forall r: nat, c: nat :: r < t.rows && c < Cols(t) ==>
               Survives(HalvesAt(t, r, c), Spread(t, wide, r, c)))
  {
    var q := BroadcastCast(t).value;
    forall r: nat, c: nat | r < t.rows && c < Cols(t)
      ensures FromFp8(Units(q.element(r, c).code), q.blockScale(r / BLOCK, c / BLOCK)) == SourceValue(t, r, c)
         <==> Survives(HalvesAt(t, r, c), Spread(t, wide, r, c))
    {
      assert q.element(r, c) == BroadcastElement(t, wide, r, c);
      assert q.blockScale(r / BLOCK, c / BLOCK) == BroadcastScale(t, wide, r / BLOCK, c / BLOCK);
      CastIsExactIff(t, wide, r, c);
    }
  }

  // Exponents within 14 of each other inside every block make the whole cast exact.
  lemma SpreadFourteenIsExact(t: Mxfp4, wide: pos)
    requires forall r: nat, c: nat :: r < t.rows && c < wide * BLOCK ==> Spread(t, wide, r, c) <= 14
    ensures forall r: nat, c: nat :: r < t.rows && c < wide * BLOCK ==>
              CastValue(t, wide, r, c) == SourceValue(t, r, c)
  {
    forall r: nat, c: nat | r < t.rows && c < wide * BLOCK ensures CastValue(t, wide, r, c) == SourceValue(t, r, c) {
      CastIsExactIff(t, wide, r, c);
    }
  }

  // 14 is the best such bound: at 15 the element 0.5 is rounded to zero.
  lemma FifteenLosesHalf(t: Mxfp4, wide: pos, r: nat, c: nat)
    requires c < wide * BLOCK
    requires HalvesAt(t, r, c) == 1 && Spread(t, wide, r, c) == 15
    ensures BroadcastElement(t, wide, r, c).code == 0 && SourceValue(t, r, c) > 0.0
  {
    CodeOf(t, wide, r, c);
    NegativePowers();
    assert Scaled(1, -1) == 0.5;
    assert FromMxfp4(1, Exp2(ElementExponent(t, r, c))) > 0.0;
  }

  // One block of elements 0.5 whose first row is scaled 2^15 times the others.
  function LossyTensor(): Mxfp4 {
    Mxfp4(128, 64, (r: nat, p: nat) => 17, 128, 4, (r: nat, g: nat) => if r == 0 then 142 else 127)
  }

  lemma LossyTile(a: nat, g: nat)
    requires g < GROUPS
    ensures ExponentTile(LossyTensor(), 1, 0, 0)(a, g) == if a == 0 then 15 else 0
  {
    View4At(Exponent(LossyTensor()), 1 * GROUPS, BLOCK, 1, GROUPS, 0, a, 0, g);
  }

  lemma LossyTop()
    ensures TopExponent(LossyTensor(), 1, 0, 0) == 15
  {
    var tile := ExponentTile(LossyTensor(), 1, 0, 0);
    LossyTile(0, 0);
    FlatValue(tile, BLOCK, GROUPS, 0, 0);
    var a := MaxAttained(RowMaxima(tile, GROUPS), BLOCK);
    var g := MaxAttained(Row(tile, a), GROUPS);
    LossyTile(a, g);
  }

  // The cast is not lossless on every valid tensor: here the second row becomes zero.
  lemma CastCanLose()
    ensures Whole(LossyTensor())
    ensures BroadcastElement(LossyTensor(), 1, 1, 0).code == 0 && SourceValue(LossyTensor(), 1, 0) == 0.5
  {
    LossyTop();
    FifteenLosesHalf(LossyTensor(), 1, 1, 0);
  }
}
