/** Types and exact arithmetic shared by every component. */
module Basics {

  datatype Option<+T> = None | Some(value: T)

  datatype Result<+T, +E> = Ok(value: T) | Err(error: E)

  /** `Math.round`: the nearest integer, ties towards plus infinity. */
  function Round(x: real): int {
    (x + 0.5).Floor
  }

  function MinInt(a: int, b: int): int {
    if a <= b then a else b
  }

  function AbsInt(a: int): int {
    if a < 0 then -a else a
  }

  function MinReal(a: real, b: real): real {
    if a <= b then a else b
  }

  function MaxReal(a: real, b: real): real {
    if a <= b then b else a
  }

  function AbsReal(a: real): real {
    if a < 0.0 then -a else a
  }

  /** 2 to the power n. */
  function Pow2(n: nat): nat {
    if n == 0 then 1 else 2 * Pow2(n - 1)
  }

  // ---------------------------------------------------------------- products and quotients

  lemma Divided(n: real, k: real)
    requires k > 0.0
    ensures n / k * k == n
  {
  }

  lemma Cancel(x: real, y: real, k: real, xk: real, yk: real)
    requires k > 0.0 && x * k == xk <= yk == y * k
    ensures x <= y
  {
    if x > y {
      ProductPositive(x - y, k);
    }
  }

  lemma ProductPositive(a: real, b: real)
    requires a > 0.0 && b > 0.0
    ensures a * b > 0.0
  {
  }

  lemma CancelStrict(x: real, y: real, k: real, xk: real, yk: real)
    requires k > 0.0 && x * k == xk < yk == y * k
    ensures x < y
  {
    if x > y {
      ProductPositive(x - y, k);
    }
  }

  lemma RealProduct(a: int, b: int, ab: int)
    requires ab == a * b
    ensures ab as real == a as real * b as real
  {
  }
}
