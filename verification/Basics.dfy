/** Optional values, extremes, and remainders one fact at a time. */
module Basics {

  datatype Option<+T> = None | Some(value: T)

  function Max(a: int, b: int): int {
    if a > b then a else b
  }

  function Min(a: int, b: int): int {
    if a < b then a else b
  }

  lemma MulGrows(d: int, k: int)
    requires d > 0
    ensures k >= 1 ==> d * k >= d
    ensures k <= -1 ==> d * k <= -d
  {
  }

  lemma ModOf(x: int, d: int, q: int, r: int)
    requires d > 0 && x == d * q + r && 0 <= r < d
    ensures x % d == r
  {
    var q2, r2 := x / d, x % d;
    assert x == d * q2 + r2 && 0 <= r2 < d;
    assert d * (q - q2) == r2 - r;
    MulGrows(d, q - q2);
  }

  /** Counting one further modulo `n`. */
  lemma NextTurn(x: nat, n: nat)
    requires n > 0
    ensures (x % n + 1) % n == (x + 1) % n
  {
    var q, r := x / n, x % n;
    assert x == n * q + r;
    if r + 1 < n {
      ModOf(x + 1, n, q, r + 1);
    } else {
      assert x + 1 == n * (q + 1);
      ModOf(x + 1, n, q + 1, 0);
    }
  }
}
