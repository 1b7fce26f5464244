// tools/convert_hf_to_int4_direct.py: packing b-bit values into int32 words, and the zero points of a group.
module Int4Pack {
  import opened Arithmetic
  import opened Wrappers

  const WORD := 0x1_0000_0000

  // int32 and uint8 arithmetic wraps around.
  function Unsigned(x: int): (n: nat)
    ensures n < WORD
  {
    x % WORD
  }

  function Wrap32(x: int): int {
    if Unsigned(x) >= 0x8000_0000 then Unsigned(x) - WORD else Unsigned(x)
  }

  function ToUint8(x: int): (n: nat)
    ensures n < 256
  {
    x % 256
  }

  function Pow(base: nat, e: nat): (p: nat)
    ensures base > 0 ==> p > 0
  {
    if e == 0 then 1 else base * Pow(base, e - 1)
  }

  type bits = b: nat | 1 <= b <= 8 witness 4

  // The radix of a b-bit field and the number of fields in a word.
  function Radix(b: bits): (r: nat)
    ensures r in {2, 4, 8, 16, 32, 64, 128, 256}
  {
    [2, 4, 8, 16, 32, 64, 128, 256][b - 1]
  }

  function Fields(b: bits): (n: nat)
    ensures n > 0
  {
    32 / b
  }

  // ---- one word ----

  // (reshaped << bit_shifts).sum(dim=2, dtype=torch.int32): every shift and every addition wraps.
  function PackWord(s: seq<nat>, radix: nat): int {
    if s == [] then 0
    else Wrap32(PackWord(s[..|s| - 1], radix) + Wrap32(s[|s| - 1] * Pow(radix, |s| - 1)))
  }

  // Field k of a word.
  function Extract(word: int, radix: nat, k: nat): (d: nat)
    requires radix > 0
    ensures d < radix
  {
    DigitAt(Unsigned(word), radix, k)
  }

  function DigitAt(n: nat, radix: nat, k: nat): (d: nat)
    requires radix > 0
    ensures d < radix
  {
    Quot(n, Pow(radix, k)) % radix
  }

  // The number whose digits are s, the first one least significant.
  function Value(s: seq<nat>, radix: nat): nat {
    if s == [] then 0 else s[0] + radix * Value(s[1..], radix)
  }

  lemma ModSum(a: int, b: int, m: nat)
    requires m > 0
    ensures (a % m + b % m) % m == (a + b) % m
  {
    var c := a % m + b % m;
    assert a == a / m * m + a % m && b == b / m * m + b % m && c == c / m * m + c % m;
    assert a + b == (a / m + b / m + c / m) * m + c % m by {
      assert (a / m + b / m + c / m) * m == a / m * m + b / m * m + c / m * m;
    }
    DivisionIsUnique(a + b, m, a / m + b / m + c / m, c % m);
  }

  lemma WrapStep(word: int, value: int, x: int)
    requires Unsigned(word) == Unsigned(value)
    ensures Unsigned(Wrap32(word + Wrap32(x))) == Unsigned(value + x)
  {
    ModSum(word, Wrap32(x), WORD);
    ModSum(value, x, WORD);
  }

  lemma Distribute(r: nat, v: nat, x: nat, p: nat)
    ensures r * (v + x * p) == r * v + x * (r * p)
  {
    assert r * (x * p) == x * (r * p);
  }

  lemma {:induction false} ValueSnoc(s: seq<nat>, x: nat, radix: nat)
    ensures Value(s + [x], radix) == Value(s, radix) + x * Pow(radix, |s|)
  {
    if s == [] {
      assert ([x])[1..] == [];
    } else {
      ValueSnoc(s[1..], x, radix);
      assert (s + [x])[1..] == s[1..] + [x];
      Distribute(radix, Value(s[1..], radix), x, Pow(radix, |s| - 1));
    }
  }

  // The wrapped shifts and sums compute the number with those digits, modulo the word size.
  lemma {:induction false} PackedIsValue(s: seq<nat>, radix: nat)
    ensures Unsigned(PackWord(s, radix)) == Unsigned(Value(s, radix))
  {
    if s != [] {
      var n := |s| - 1;
      PackedIsValue(s[..n], radix);
      assert s[..n] + [s[n]] == s;
      ValueSnoc(s[..n], s[n], radix);
      WrapStep(PackWord(s[..n], radix), Value(s[..n], radix), s[n] * Pow(radix, n));
    }
  }

  predicate Digits(s: seq<nat>, radix: nat) {
    forall k :: 0 <= k < |s| ==> s[k] < radix
  }

  lemma {:induction false} ValueBelow(s: seq<nat>, radix: nat)
    requires Digits(s, radix) && radix > 0
    ensures Value(s, radix) < Pow(radix, |s|)
  {
    if s != [] {
      ValueBelow(s[1..], radix);
      assert s[0] < radix;
      MulMonotone(Value(s[1..], radix) + 1, Pow(radix, |s| - 1), radix);
      assert (Value(s[1..], radix) + 1) * radix == radix * Value(s[1..], radix) + radix;
    }
  }

  lemma TwoSteps(n: nat, a: nat, b: nat, q: nat, r: nat, q2: nat, r2: nat)
    requires n == q * a + r && r < a && q == q2 * b + r2 && r2 < b
    ensures n == q2 * (a * b) + (r2 * a + r) && r2 * a + r < a * b
  {
    MulMonotone(r2 + 1, b, a);
    assert (r2 + 1) * a == r2 * a + a;
    assert (q2 * b + r2) * a == q2 * (a * b) + r2 * a;
  }

  lemma QuotQuot(n: nat, a: nat, b: nat)
    requires a > 0 && b > 0
    ensures a * b > 0 && Quot(n, a * b) == Quot(Quot(n, a), b)
  {
    var q, r := n / a, n % a;
    var q2, r2 := q / b, q % b;
    TwoSteps(n, a, b, q, r, q2, r2);
    DivisionIsUnique(n, a * b, q2, r2 * a + r);
  }

  lemma NextDigit(n: nat, radix: nat, k: nat)
    requires radix > 0 && k > 0
    ensures DigitAt(n, radix, k) == DigitAt(Quot(n, radix), radix, k - 1)
  {
    QuotQuot(n, radix, Pow(radix, k - 1));
  }

  lemma {:induction false} DigitOf(s: seq<nat>, radix: nat, k: nat)
    requires Digits(s, radix) && radix > 0 && k < |s|
    ensures DigitAt(Value(s, radix), radix, k) == s[k]
  {
    DivisionIsUnique(Value(s, radix), radix, Value(s[1..], radix), s[0]);
    if k > 0 {
      NextDigit(Value(s, radix), radix, k);
      DigitOf(s[1..], radix, k - 1);
    }
  }

  lemma Associate(r: nat, p: nat)
    ensures r * (r * p) == r * r * p
  {
  }

  lemma {:induction false} PowSquare(r: nat, e: nat)
    ensures Pow(r * r, e) == Pow(r, 2 * e)
  {
    if e > 0 {
      PowSquare(r, e - 1);
      var p := Pow(r, 2 * (e - 1));
      assert Pow(r, 2 * e - 1) == r * p;
      Associate(r, p);
    }
  }

  lemma FourthPower(r: nat)
    ensures Pow(r, 2) == r * r && Pow(r, 3) == r * (r * r) && Pow(r, 4) == r * (r * (r * r))
    ensures Pow(r, 5) == r * (r * (r * (r * r)))
  {
    assert Pow(r, 1) == r * Pow(r, 0) == r;
    assert Pow(r, 2) == r * Pow(r, 1);
    assert Pow(r, 3) == r * Pow(r, 2);
    assert Pow(r, 4) == r * Pow(r, 3);
    assert Pow(r, 5) == r * Pow(r, 4);
  }

  lemma FullWords()
    ensures Pow(2, 32) == Pow(4, 16) == Pow(16, 8) == Pow(256, 4) == WORD
  {
    PowSquare(2, 16);
    PowSquare(4, 8);
    PowSquare(16, 4);
    FourthPower(256);
  }

  lemma LooseWords()
    ensures Pow(8, 10) == Pow(64, 5) == 0x4000_0000 && Pow(32, 6) == 0x4000_0000 && Pow(128, 4) == 0x1000_0000
  {
    PowSquare(8, 5);
    FourthPower(64);
    PowSquare(32, 3);
    FourthPower(1024);
    FourthPower(128);
  }

  lemma RadixAndFields(b: bits)
    ensures (Radix(b), Fields(b)) in
              {(2, 32), (4, 16), (8, 10), (16, 8), (32, 6), (64, 5), (128, 4), (256, 4)}
  {
    assert b in {1, 2, 3, 4, 5, 6, 7, 8};
  }

  // Fields of b bits never reach past bit 32.
  lemma WordHolds(b: bits)
    ensures Pow(Radix(b), Fields(b)) <= WORD
  {
    RadixAndFields(b);
    PowOfPair((Radix(b), Fields(b)));
  }

  lemma PowOfPair(p: (nat, nat))
    requires p in {(2, 32), (4, 16), (8, 10), (16, 8), (32, 6), (64, 5), (128, 4), (256, 4)}
    ensures Pow(p.0, p.1) <= WORD
  {
    FullWords();
    LooseWords();
  }

  // A field comes back out of its word when every value of the word fits its field.
  lemma ExtractPacked(s: seq<nat>, radix: nat, k: nat)
    requires Digits(s, radix) && radix > 0 && k < |s| && Pow(radix, |s|) <= WORD
    ensures Extract(PackWord(s, radix), radix, k) == s[k]
  {
    var v := Value(s, radix);
    assert Unsigned(v) == v by { ValueBelow(s, radix); }
    PackedIsValue(s, radix);
    assert Extract(PackWord(s, radix), radix, k) == DigitAt(v, radix, k);
    DigitOf(s, radix, k);
  }

  // ---- a matrix ----

  datatype Matrix = Matrix(rows: nat, cols: nat, at: (nat, nat) -> int)

  datatype PackError = TooWide | TooNarrow

  function Offset(b: bits, sym: bool): nat {
    if sym then Radix(b) / 2 else 0
  }

  // The unsigned field a value becomes.
  function Field(v: int, b: bits, sym: bool): nat {
    ToUint8(v + Offset(b, sym))
  }

  function PaddedField(m: Matrix, b: bits, sym: bool, r: nat, c: nat): nat {
    if c < m.cols then Field(m.at(r, c), b, sym) else 0
  }

  // The fields of word g of row r, padded with zeros past the last column.
  function WordFields(m: Matrix, b: bits, sym: bool, r: nat, g: nat): (s: seq<nat>)
    ensures |s| == Fields(b)
    ensures forall k :: 0 <= k < Fields(b) ==> s[k] == PaddedField(m, b, sym, r, g * Fields(b) + k)
  {
    seq<nat>(Fields(b), k requires 0 <= k < Fields(b) => PaddedField(m, b, sym, r, g * Fields(b) + k))
  }

  function Transposed(m: Matrix): Matrix {
    Matrix(m.cols, m.rows, (r: nat, c: nat) => m.at(c, r))
  }

  function PackRows(m: Matrix, b: bits, sym: bool): Matrix {
    Matrix(m.rows, CeilDiv(m.cols, Fields(b)), (r: nat, g: nat) => PackWord(WordFields(m, b, sym, r, g), Radix(b)))
  }

  // pack_to_int32
  function Pack(m: Matrix, width: int, packedDim: nat, sym: bool): Result<Matrix, PackError> {
    if width > 8 then Err(TooWide)
    else if width < 1 then Err(TooNarrow)
    else if packedDim == 0 then Ok(Transposed(PackRows(Transposed(m), width, sym)))
    else Ok(PackRows(m, width, sym))
  }

  // What a reader of the packed tensor makes of it: take the field, remove the offset.
  function UnpackRow(p: Matrix, b: bits, sym: bool, r: nat, c: nat): int {
    Extract(p.at(r, c / Fields(b)), Radix(b), c % Fields(b)) - Offset(b, sym)
  }

  function UnpackAt(p: Matrix, b: bits, packedDim: nat, sym: bool, r: nat, c: nat): int {
    if packedDim == 0 then UnpackRow(Transposed(p), b, sym, c, r) else UnpackRow(p, b, sym, r, c)
  }

  // Values of the signed (or unsigned) b-bit range, and what an int8 (or uint8) can hold at all.
  predicate InRange(v: int, b: bits, sym: bool) {
    0 <= v + Offset(b, sym) < Radix(b)
  }

  predicate IsByte(v: int, sym: bool) {
    if sym then -128 <= v < 128 else 0 <= v < 256
  }

  lemma FieldIff(v: int, b: bits, sym: bool)
    requires IsByte(v, sym)
    ensures Field(v, b, sym) < Radix(b) <==> InRange(v, b, sym)
    ensures InRange(v, b, sym) ==> Field(v, b, sym) == v + Offset(b, sym)
  {
  }

  ghost predicate RowInRange(m: Matrix, b: bits, sym: bool, r: nat) {
    forall c: nat :: c < m.cols ==> InRange(m.at(r, c), b, sym)
  }

  ghost predicate AllBytes(m: Matrix, sym: bool) {
    forall r: nat, c: nat :: r < m.rows && c < m.cols ==> IsByte(m.at(r, c), sym)
  }

  lemma FieldsAreDigits(m: Matrix, b: bits, sym: bool, r: nat, g: nat)
    requires RowInRange(m, b, sym, r) && (forall c: nat :: c < m.cols ==> IsByte(m.at(r, c), sym))
    ensures Digits(WordFields(m, b, sym, r, g), Radix(b))
  {
    forall k | 0 <= k < Fields(b) ensures WordFields(m, b, sym, r, g)[k] < Radix(b) {
      var c := g * Fields(b) + k;
      assert WordFields(m, b, sym, r, g)[k] == PaddedField(m, b, sym, r, c);
      if c < m.cols { FieldIff(m.at(r, c), b, sym); }
    }
  }

  lemma FieldOfColumn(m: Matrix, b: bits, sym: bool, r: nat, c: nat)
    requires c < m.cols
    ensures c % Fields(b) < Fields(b)
    ensures WordFields(m, b, sym, r, c / Fields(b))[c % Fields(b)] == Field(m.at(r, c), b, sym)
  {
    assert c == c / Fields(b) * Fields(b) + c % Fields(b);
  }

  // Round trip of a row whose values all fit: unpacking gives every value back, padding or not.
  lemma RowRoundTrip(m: Matrix, b: bits, sym: bool, r: nat, c: nat)
    requires RowInRange(m, b, sym, r) && (forall j: nat :: j < m.cols ==> IsByte(m.at(r, j), sym))
    requires c < m.cols
    ensures UnpackRow(PackRows(m, b, sym), b, sym, r, c) == m.at(r, c)
  {
    var fields, k := WordFields(m, b, sym, r, c / Fields(b)), c % Fields(b);
    FieldOfColumn(m, b, sym, r, c);
    FieldIff(m.at(r, c), b, sym);
    assert Extract(PackWord(fields, Radix(b)), Radix(b), k) == fields[k] by {
      FieldsAreDigits(m, b, sym, r, c / Fields(b));
      WordHolds(b);
      ExtractPacked(fields, Radix(b), k);
    }
  }

  // A value outside the range never comes back, whatever else is in its word.
  lemma OutOfRangeIsLost(p: Matrix, b: bits, sym: bool, r: nat, c: nat, v: int)
    requires !InRange(v, b, sym)
    ensures UnpackRow(p, b, sym, r, c) != v
  {
  }

  // Packing is reversible exactly on matrices of the b-bit range, for every width and either dimension.
  lemma RoundTripIff(m: Matrix, width: int, packedDim: nat, sym: bool)
    requires AllBytes(m, sym)
    ensures Pack(m, width, packedDim, sym).Ok? <==> 1 <= width <= 8
    ensures 1 <= width <= 8 ==>
      ((forall r: nat, c: nat :: r < m.rows && c < m.cols ==>
          UnpackAt(Pack(m, width, packedDim, sym).value, width, packedDim, sym, r, c) == m.at(r, c))
       <==>
       (forall r: nat, c: nat :: r < m.rows && c < m.cols ==> InRange(m.at(r, c), width, sym)))
  {
    if 1 <= width <= 8 {
      var b: bits := width;
      var p := Pack(m, width, packedDim, sym).value;
      if forall r: nat, c: nat :: r < m.rows && c < m.cols ==> InRange(m.at(r, c), b, sym) {
        forall r: nat, c: nat | r < m.rows && c < m.cols
          ensures UnpackAt(p, b, packedDim, sym, r, c) == m.at(r, c)
        {
          if packedDim == 0 { RowRoundTrip(Transposed(m), b, sym, c, r); } else { RowRoundTrip(m, b, sym, r, c); }
        }
      } else {
        var r: nat, c: nat :| r < m.rows && c < m.cols && !InRange(m.at(r, c), b, sym);
        if packedDim == 0 {
          OutOfRangeIsLost(Transposed(p), b, sym, c, r, m.at(r, c));
        } else {
          OutOfRangeIsLost(p, b, sym, r, c, m.at(r, c));
        }
      }
    }
  }

  // ---- zero points ----

  // new_order_map: the nibble each of eight consecutive zero points goes to.
  function NibbleFor(k: nat): (p: nat)
    requires k < 8
    ensures p < 8
  {
    [0, 4, 1, 5, 2, 6, 3, 7][k]
  }

  // The sum runs in int64 and is cut to int32 at the end.
  function ShiftedSum(z: seq<nat>): nat
    requires |z| <= 8
  {
    if z == [] then 0 else ShiftedSum(z[..|z| - 1]) + z[|z| - 1] * Pow(16, NibbleFor(|z| - 1))
  }

  function PackZeros(z: seq<nat>): int
    requires |z| == 8
  {
    Wrap32(ShiftedSum(z))
  }

  // The zero points in nibble order.
  function NibbleOrder(z: seq<nat>): seq<nat>
    requires |z| == 8
  {
    [z[0], z[2], z[4], z[6], z[1], z[3], z[5], z[7]]
  }

  lemma ShiftedSumOf8(a: nat, b: nat, c: nat, d: nat, e: nat, f: nat, g: nat, h: nat)
    ensures ShiftedSum([a, b, c, d, e, f, g, h])
         == a + b * 65536 + c * 16 + d * 1048576 + e * 256 + f * 16777216 + g * 4096 + h * 268435456
  {
    var z := [a, b, c, d, e, f, g, h];
    assert z[..7] == [a, b, c, d, e, f, g];
    assert z[..7][..6] == [a, b, c, d, e, f];
    ShiftedSumOf6(a, b, c, d, e, f);
    assert ShiftedSum(z[..7]) == ShiftedSum(z[..7][..6]) + g * Pow(16, 3);
  }

  lemma ShiftedSumOf6(a: nat, b: nat, c: nat, d: nat, e: nat, f: nat)
    ensures ShiftedSum([a, b, c, d, e, f]) == a + b * 65536 + c * 16 + d * 1048576 + e * 256 + f * 16777216
  {
    assert [a, b, c, d, e, f][..5] == [a, b, c, d, e];
    assert [a, b, c, d, e][..4] == [a, b, c, d];
    assert [a, b, c, d][..3] == [a, b, c];
    assert [a, b, c][..2] == [a, b];
    assert [a, b][..1] == [a];
    assert [a][..0] == [];
    assert ShiftedSum([a]) == a;
    assert ShiftedSum([a, b]) == a + b * 65536;
    assert ShiftedSum([a, b, c]) == a + b * 65536 + c * 16;
    assert ShiftedSum([a, b, c, d]) == a + b * 65536 + c * 16 + d * 1048576;
  }

  lemma ValueOf8(a: nat, b: nat, c: nat, d: nat, e: nat, f: nat, g: nat, h: nat)
    ensures Value([a, b, c, d, e, f, g, h], 16)
         == a + b * 16 + c * 256 + d * 4096 + e * 65536 + f * 1048576 + g * 16777216 + h * 268435456
  {
    ValueOf4(e, f, g, h);
    assert [d, e, f, g, h][1..] == [e, f, g, h];
    assert [c, d, e, f, g, h][1..] == [d, e, f, g, h];
    assert [b, c, d, e, f, g, h][1..] == [c, d, e, f, g, h];
    assert [a, b, c, d, e, f, g, h][1..] == [b, c, d, e, f, g, h];
    var three := Value([d, e, f, g, h], 16);
    var two := Value([c, d, e, f, g, h], 16);
    assert Value([b, c, d, e, f, g, h], 16) == b + 16 * two;
  }

  lemma ValueOf4(e: nat, f: nat, g: nat, h: nat)
    ensures Value([e, f, g, h], 16) == e + f * 16 + g * 256 + h * 4096
  {
    assert [h][1..] == [] && [g, h][1..] == [h] && [f, g, h][1..] == [g, h] && [e, f, g, h][1..] == [f, g, h];
    assert Value([h], 16) == h;
    assert Value([g, h], 16) == g + 16 * h;
    assert Value([f, g, h], 16) == f + 16 * (g + 16 * h);
  }

  // The interleaved shifts write the zero points as hexadecimal digits in nibble order.
  lemma ZerosAreDigits(z: seq<nat>)
    requires |z| == 8
    ensures ShiftedSum(z) == Value(NibbleOrder(z), 16)
  {
    assert z == [z[0], z[1], z[2], z[3], z[4], z[5], z[6], z[7]];
    ShiftedSumOf8(z[0], z[1], z[2], z[3], z[4], z[5], z[6], z[7]);
    ValueOf8(z[0], z[2], z[4], z[6], z[1], z[3], z[5], z[7]);
  }

  // Zero points come back from their nibbles exactly when all of them fit four bits.
  lemma ZerosRoundTripIff(z: seq<nat>)
    requires |z| == 8
    ensures (forall k :: 0 <= k < 8 ==> Extract(PackZeros(z), 16, NibbleFor(k)) == z[k]) <==> Digits(z, 16)
  {
    if Digits(z, 16) {
      forall k | 0 <= k < 8 ensures Extract(PackZeros(z), 16, NibbleFor(k)) == z[k] {
        ZeroComesBack(z, k);
      }
    } else {
      var k :| 0 <= k < 8 && z[k] >= 16;
      assert Extract(PackZeros(z), 16, NibbleFor(k)) < 16;
    }
  }

  lemma ZeroComesBack(z: seq<nat>, k: nat)
    requires |z| == 8 && Digits(z, 16) && k < 8
    ensures Extract(PackZeros(z), 16, NibbleFor(k)) == z[k]
  {
    var o, n := NibbleOrder(z), NibbleFor(k);
    assert n < 8 && o[n] == z[k];
    assert Digits(o, 16);
    assert Extract(PackZeros(z), 16, n) == o[n] by {
      ZerosAreDigits(z);
      FullWords();
      ValueBelow(o, 16);
      DigitOf(o, 16, n);
    }
  }
}
