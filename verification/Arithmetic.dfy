/** Natural division and the facts about it that the layout and schedule proofs share. */
module Arithmetic {

  type pos = n: nat | n > 0 witness 1

  function Quot(n: nat, d: pos): nat {
    n / d
  }

  function Rem(n: nat, d: pos): nat {
    n % d
  }

  function CeilDiv(n: nat, d: pos): nat {
    (n + d - 1) / d
  }

  /** The position of column `col` of row `row` when rows of `width` are laid end to end. */
  function Place(row: nat, width: nat, col: nat): nat {
    row * width + col
  }

  lemma MulMonotone(x: int, y: int, k: nat)
    ensures x <= y ==> x * k <= y * k
  {
    assert y * k - x * k == (y - x) * k;
  }

  lemma NoMultipleBetween(x: int, k: int)
    requires 0 < k && -k < x * k < k
    ensures x == 0
  {
    assert (x - 1) * k == x * k - k && (-1 - x) * k == -k - x * k;
    assert x >= 1 ==> (x - 1) * k >= 0;
    assert x <= -1 ==> (-1 - x) * k >= 0;
  }

  /** Quotient and remainder are determined by n = q * k + m with 0 <= m < k. */
  lemma DivisionIsUnique(n: int, k: int, q: int, m: int)
    requires 0 <= m < k && n == q * k + m
    ensures n / k == q && n % k == m
  {
    var x := n / k - q;
    assert n == (n / k) * k + n % k;
    assert x * k == m - n % k by { assert x * k == (n / k) * k - q * k; }
    NoMultipleBetween(x, k);
  }

  lemma ModStep(n: nat, k: nat)
    requires k > 0
    ensures (n + 1) % k == if n % k == k - 1 then 0 else n % k + 1
  {
    var q := n / k;
    assert n == q * k + n % k;
    if n % k == k - 1 {
      assert n + 1 == (q + 1) * k + 0;
      DivisionIsUnique(n + 1, k, q + 1, 0);
    } else {
      DivisionIsUnique(n + 1, k, q, n % k + 1);
    }
  }
}
