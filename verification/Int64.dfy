/** Go's int64: its range, its wrap-around and its division. */
module Int64 {
  const MIN_INT64 := -0x8000_0000_0000_0000
  const MAX_INT64 := 0x7fff_ffff_ffff_ffff
  const WORD := 0x1_0000_0000_0000_0000

  predicate Fits(n: int) {
    MIN_INT64 <= n <= MAX_INT64
  }

  /** An int64 count of nanodollars. */
  type Nanos = n: int | MIN_INT64 <= n <= MAX_INT64

  /** Two's complement wrap-around, which every int64 operation applies to its exact result. */
  function Wrap(n: int): (r: int)
    ensures Fits(r)
    ensures r == n <==> Fits(n)
  {
    (n - MIN_INT64) % WORD + MIN_INT64
  }

  /** Wrapping the terms of a sum first changes nothing, so a sum may be wrapped once at its end. */
  lemma WrapOfSum(a: int, b: int)
    ensures Wrap(Wrap(a) + b) == Wrap(a + b)
  {
    var x, k := a - MIN_INT64, (a - MIN_INT64) / WORD;
    assert Wrap(a) == a - k * WORD;
    ModuloShift(a + b - MIN_INT64, -k);
  }

  lemma ModuloShift(x: int, k: int)
    ensures (x + k * WORD) % WORD == x % WORD
  {
    var q := x / WORD;
    assert x + k * WORD == (q + k) * WORD + x % WORD;
    QuotientIsUnique(q + k, x % WORD);
  }

  lemma QuotientIsUnique(q: int, r: int)
    requires 0 <= r < WORD
    ensures (q * WORD + r) % WORD == r
  {
  }

  /** Integer division truncates towards zero. */
  function Quotient(a: int, b: int): int
    requires b > 0
  {
    if a >= 0 then a / b else -((-a) / b)
  }
}
