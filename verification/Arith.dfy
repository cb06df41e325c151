/** Division with remainder, as the size computations of the channels need it. */
module Arith {

  lemma MulSign(d: int, k: int)
    requires d > 0
    ensures k >= 1 ==> d * k >= d
    ensures k <= -1 ==> d * k <= -d
  {
    assert d * k == d * (k - 1) + d;
    assert d * k == d * (k + 1) - d;
  }

  /** The quotient and the remainder are determined by `n == d * q + r`. */
  lemma DivModIs(n: int, d: int, q: int, r: int)
    requires 0 <= r < d && n == d * q + r
    ensures n / d == q && n % d == r
  {
    var q', r' := n / d, n % d;
    assert n == d * q' + r';
    assert d * (q' - q) == r - r';
    MulSign(d, q' - q);
  }

  lemma DivMod(n: int, d: int)
    requires d > 0
    ensures n == d * (n / d) + n % d && 0 <= n % d < d
  {
  }

  /** The rounding to a whole number of blocks that pads a plaintext. */
  lemma PadsToBlock(n: int, d: int)
    requires d > 0
    ensures var p := (d - n % d) % d; 0 <= p < d && (n + p) % d == 0 && (n + p) / d * d == n + p
    ensures n % d == 0 ==> (d - n % d) % d == 0
  {
    var r := n % d;
    DivMod(n, d);
    if r == 0 {
      DivModIs(d, d, 1, 0);
    } else {
      DivModIs(d - r, d, 0, d - r);
      assert n + (d - r) == d * (n / d + 1) + 0;
      DivModIs(n + (d - r), d, n / d + 1, 0);
    }
  }

  /** `(n + d - 1) / d` blocks of size `d` cover `n` bytes, and one block fewer does not. */
  lemma CeilDiv(n: nat, d: nat, i: nat)
    requires d > 0
    ensures i < (n + d - 1) / d ==> d * i < n
    ensures i >= (n + d - 1) / d ==> d * i >= n
  {
    var c := (n + d - 1) / d;
    DivMod(n + d - 1, d);
    MulSign(d, c - i);
    MulSign(d, i - c);
    assert d * (c - i) == d * c - d * i;
  }
}
