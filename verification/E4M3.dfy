// The FP8 format E4M3 (section 5.3.1 of the OCP Microscaling Formats (MX) Specification v1.0) and the rounding
// of `Tensor.to(torch.float8_e4m3fn)`: nearest value, ties to even. Magnitudes only; the sign is a bit beside them.
module E4M3 {

  // 2 to the power e.
  function Exp2(e: int): (p: real)
    ensures p > 0.0
    decreases if e < 0 then -e else e
  {
    if e == 0 then 1.0 else if e > 0 then 2.0 * Exp2(e - 1) else Exp2(e + 1) / 2.0
  }

  predicate IsProduct(p: real, q: real, r: real) {
    p == q * r
  }

  // Exp2(b) is a factor of Exp2(a + b) with quotient Exp2(a).
  predicate Splits(a: int, b: int) {
    IsProduct(Exp2(a + b), Exp2(a), Exp2(b))
  }

  lemma SplitsStep(a: int, b: int)
    ensures Splits(a, b) <==> Splits(a, b + 1)
  {
  }

  lemma {:induction false} Exp2Splits(a: int, b: int)
    ensures Splits(a, b)
    decreases if b < 0 then -b else b
  {
    if b > 0 {
      Exp2Splits(a, b - 1);
      SplitsStep(a, b - 1);
    } else if b < 0 {
      Exp2Splits(a, b + 1);
      SplitsStep(a, b);
    }
  }

  lemma {:induction false} Exp2Monotone(a: int, b: int)
    requires a <= b
    ensures Exp2(a) <= Exp2(b)
    decreases b - a
  {
    if a < b {
      Exp2Monotone(a, b - 1);
    }
  }

  // The magnitude a code stands for, in units of the smallest subnormal 2^-9: codes 0..15 count units, and
  // eight codes further every value has doubled. Code 126 is the largest finite one, 127 is NaN.
  function Units(code: nat): nat {
    if code < 16 then code else 2 * Units(code - 8)
  }

  const MAX_FINITE := 126

  function Abs(x: real): real {
    if x < 0.0 then -x else x
  }

  // Nearest integer, ties to even.
  function RoundHalfEven(x: real): (n: nat)
    requires x >= 0.0
  {
    var low := x.Floor;
    var rest := x - low as real;
    if rest < 0.5 || (rest == 0.5 && low % 2 == 0) then low else low + 1
  }

  // The code x units are rounded to.
  function Encode(x: real): (code: nat)
    requires x >= 0.0
    decreases x.Floor
  {
    if x < 16.0 then RoundHalfEven(x) else 8 + Encode(x / 2.0)
  }

  lemma {:induction false} UnitsIncrease(a: nat, b: nat)
    requires a < b
    ensures Units(a) < Units(b)
  {
    if b >= 16 {
      if a >= 16 {
        UnitsIncrease(a - 8, b - 8);
      } else if a >= 8 {
        if a < b - 8 { UnitsIncrease(a, b - 8); }
        if b - 8 < a { UnitsIncrease(b - 8, a); }
        UnitsAbove(b);
      } else {
        UnitsAbove(b);
      }
    }
  }

  lemma {:induction false} UnitsAbove(b: nat)
    requires b >= 16
    ensures Units(b) >= 16
  {
    if b >= 24 { UnitsAbove(b - 8); }
  }

  // code is closer to x than other, or as close and even.
  ghost predicate Closer(x: real, code: nat, other: nat) {
    Abs(x - Units(code) as real) < Abs(x - Units(other) as real)
    || (Abs(x - Units(code) as real) == Abs(x - Units(other) as real) && code % 2 == 0)
  }

  ghost predicate Nearest(x: real, code: nat) {
    forall other: nat :: other != code ==> Closer(x, code, other)
  }

  // The rounding is correct: it finds the nearest value of the format for every magnitude.
  lemma {:induction false} EncodeIsNearest(x: real)
    requires x >= 0.0
    ensures Nearest(x, Encode(x))
    ensures x >= 8.0 ==> Encode(x) >= 8
    decreases x.Floor
  {
    if x < 16.0 {
      EncodeSmall(x);
    } else {
      EncodeIsNearest(x / 2.0);
      EncodeLarge(x);
    }
  }

  lemma EncodeSmall(x: real)
    requires 0.0 <= x < 16.0
    ensures Nearest(x, Encode(x))
  {
    var r := Encode(x);
    forall other: nat | other != r ensures Closer(x, r, other) {
      assert Units(r) == r;
      if other > 16 {
        UnitsIncrease(16, other);
      } else {
        assert Units(other) == other;
      }
    }
  }

  lemma Halves(x: real, u: int)
    ensures Abs(x - (2 * u) as real) == 2.0 * Abs(x / 2.0 - u as real)
  {
  }

  lemma CloserDoubled(x: real, code: nat, other: nat)
    requires code >= 8 && other >= 8 && Closer(x / 2.0, code, other)
    ensures Closer(x, code + 8, other + 8)
  {
    Halves(x, Units(code));
    Halves(x, Units(other));
  }

  lemma EncodeLarge(x: real)
    requires x >= 16.0 && Nearest(x / 2.0, Encode(x / 2.0)) && Encode(x / 2.0) >= 8
    ensures Nearest(x, Encode(x))
  {
    var half := Encode(x / 2.0);
    forall other: nat {:trigger Closer(x, half + 8, other)} | other != half + 8 ensures Closer(x, half + 8, other) {
      if other >= 16 {
        CloserDoubled(x, half, other - 8);
      } else {
        if half != 8 { CloserDoubled(x, half, 8); }
      }
    }
  }

  // A magnitude that the format has is kept, and no other is.
  lemma EncodeExactIff(x: real)
    requires x >= 0.0
    ensures Units(Encode(x)) as real == x <==> exists code: nat :: Units(code) as real == x
  {
    EncodeIsNearest(x);
    forall code: nat | Units(code) as real == x
      ensures Units(Encode(x)) as real == x
    {
      if code != Encode(x) { assert Closer(x, Encode(x), code); }
    }
  }

  function Scaled(s: nat, k: int): real {
    s as real * Exp2(k)
  }

  lemma HalfOfScaled(s: nat, k: int)
    ensures Scaled(s, k) == 2.0 * Scaled(s, k - 1)
  {
  }

  lemma {:induction false} ScaledWhole(s: nat, k: nat)
    ensures Scaled(s, k).Floor as real == Scaled(s, k) >= 0.0
  {
    if k > 0 {
      ScaledWhole(s, k - 1);
      HalfOfScaled(s, k);
      assert Scaled(s, k) == (2 * Scaled(s, k - 1).Floor) as real;
    } else {
      assert Scaled(s, 0) == s as real;
    }
  }

  // Everything that fits in four significant bits at a non-negative power of two is kept.
  lemma {:induction false} FourBitsAreExact(s: nat, k: nat)
    requires s < 16
    ensures Scaled(s, k) >= 0.0 && Units(Encode(Scaled(s, k))) as real == Scaled(s, k)
    decreases k
  {
    ScaledWhole(s, k);
    if k > 0 && Scaled(s, k) >= 16.0 {
      HalfOfScaled(s, k);
      FourBitsAreExact(s, k - 1);
      EncodeIsNearest(Scaled(s, k - 1));
    } else if k == 0 {
      assert Scaled(s, 0) == s as real;
    }
  }

  // A magnitude up to a value of the format is not rounded above it.
  lemma EncodeAtMost(x: real, code: nat)
    requires 0.0 <= x <= Units(code) as real
    ensures Encode(x) <= code
  {
    EncodeIsNearest(x);
    UnitsOrder(code, Encode(x));
    assert Encode(x) != code ==> Closer(x, Encode(x), code);
  }

  lemma UnitsOrder(a: nat, b: nat)
    ensures a < b ==> Units(a) < Units(b)
  {
    if a < b { UnitsIncrease(a, b); }
  }

}
