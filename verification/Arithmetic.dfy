/** Machine words, and quotients and remainders by a variable. */
module Arithmetic {

  const TWO_64: nat := 0x1_0000_0000_0000_0000

  /** A uint64 conversion. */
  function U64(n: int): (r: nat)
    ensures r < TWO_64 && (0 <= n < TWO_64 ==> r == n)
  {
    n % TWO_64
  }

  function Min(a: int, b: int): int {
    if a < b then a else b
  }

  function Max(a: int, b: int): int {
    if a < b then b else a
  }

  lemma Ordered(a: nat, b: nat, c: nat)
    requires a <= b
    ensures a * c <= b * c
  {}

  lemma DivMod(n: nat, d: nat)
    requires d > 0
    ensures n == (n / d) * d + n % d && n % d < d
  {}

  /** Quotient and remainder are determined. */
  lemma Unique(n: nat, d: nat, q: nat, r: nat)
    requires r < d && n == q * d + r
    ensures n / d == q && n % d == r
  {
    var a, b := n / d, n % d;
    DivMod(n, d);
    if a < q {
      Ordered(a + 1, q, d);
    } else if q < a {
      Ordered(q + 1, a, d);
    }
  }

  lemma NextRow(n: nat, d: nat)
    requires d > 0
    ensures (n + d) % d == n % d && (n + d) / d == n / d + 1
  {
    DivMod(n, d);
    Unique(n + d, d, n / d + 1, n % d);
  }

  /** Within one row no remainder repeats. */
  lemma RowDistinct(m: nat, n: nat, d: nat)
    requires m < n < m + d
    ensures n % d != m % d
  {
    var a, b := n / d, m / d;
    DivMod(n, d);
    DivMod(m, d);
    if a >= b + 1 {
      Ordered(b + 1, a, d);
    } else {
      Ordered(a, b, d);
    }
  }

  /** uint64 increment of a wrapped number. */
  lemma WrapNext(n: nat)
    ensures (n + 1) % TWO_64 == (n % TWO_64 + 1) % TWO_64
  {}
}
