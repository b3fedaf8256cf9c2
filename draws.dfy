/**
 * Scaling a draw of the seeded generator by a total weight. The product
 * `u * n` is written as `n` copies of `u` added up, so that reasoning about
 * selection stays within linear arithmetic; `ScaledIsProduct` ties it back
 * to the product.
 */
module Draws {

  /** `u * n`, as `n` copies of `u` added up (subtracted for a negative `n`). */
  function Scaled(u: real, n: int): real
    decreases if n < 0 then -n else n
  {
    if n == 0 then 0.0
    else if n > 0 then Scaled(u, n - 1) + u
    else Scaled(u, n + 1) - u
  }

  lemma {:induction false} ScaledIsProduct(u: real, n: int)
    ensures Scaled(u, n) == u * n as real
    decreases if n < 0 then -n else n
  {
    if n > 0 {
      ScaledIsProduct(u, n - 1);
      assert u * (n - 1) as real + u == u * n as real;
    } else if n < 0 {
      ScaledIsProduct(u, n + 1);
      assert u * (n + 1) as real - u == u * n as real;
    }
  }

  /** A draw in `[0, 1)` scaled by a positive total lies in `[0, total)`. */
  lemma {:induction false} ScaledBounds(u: real, n: int)
    requires 0.0 <= u < 1.0 && n > 0
    ensures 0.0 <= Scaled(u, n) < n as real
    decreases n
  {
    if n > 1 {
      ScaledBounds(u, n - 1);
    }
  }

  /** Every point of `[0, total)` is reached by scaling some draw in `[0, 1)`. */
  lemma ScaledOnto(a: real, n: int)
    requires n > 0 && 0.0 <= a < n as real
    ensures exists u: real :: 0.0 <= u < 1.0 && Scaled(u, n) == a
  {
    var t := n as real;
    var u := a / t;
    assert u * t == a;
    assert 0.0 <= u < 1.0;
    ScaledIsProduct(u, n);
    assert Scaled(u, n) == a;
  }
}
