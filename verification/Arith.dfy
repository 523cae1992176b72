// 64-bit words, and the few facts about products, quotients, remainders and sizes that the other modules need.

module Arith {
  const U64 := 0x1_0000_0000_0000_0000

  // The casts between signed and unsigned 64-bit numbers.
  function AsU64(n: int): nat {
    n % U64
  }

  function AsI64(n: nat): int {
    var low := n % U64;
    if low < U64 / 2 then low else low - U64
  }

  // The greatest multiple of w at or below x.
  function RoundDown(x: nat, w: nat): (r: nat)
    requires w > 0
    ensures r <= x
  {
    Split(x, w);
    (x / w) * w
  }

  lemma {:induction false} AtLeastOneTimes(a: int, n: int)
    requires a >= 1 && n >= 0
    ensures a * n >= n
  {
    if a > 1 {
      AtLeastOneTimes(a - 1, n);
      assert a * n == (a - 1) * n + n;
    }
  }

  lemma Split(x: int, n: int)
    requires n > 0
    ensures x == (x / n) * n + x % n
  {
  }

  lemma Distribute(a: int, b: int, n: int)
    ensures (a - b) * n == a * n - b * n
    ensures (a + b) * n == a * n + b * n
  {
  }

  // A quotient and a remainder are determined by their equation.
  lemma Unique(x: int, q: int, r: int, n: int)
    requires 0 <= r < n && x == q * n + r
    ensures x / n == q && x % n == r
  {
    var d := x / n;
    Split(x, n);
    Distribute(d, q, n);
    Distribute(q, d, n);
    if d > q {
      AtLeastOneTimes(d - q, n);
    } else if q > d {
      AtLeastOneTimes(q - d, n);
    }
  }

  lemma AddMultiple(r: int, d: int, n: int)
    requires n > 0
    ensures (d * n + r) % n == r % n
    ensures (d * n + r) / n == d + r / n
  {
    Split(r, n);
    Distribute(d, r / n, n);
    Unique(d * n + r, d + r / n, r % n, n);
  }

  lemma Associate(a: int, b: int, c: int)
    ensures a * (b * c) == (a * b) * c
  {
  }

  // Reducing modulo a multiple of n first does not change the remainder modulo n.
  lemma ModOfMod(p: int, m: int, n: int)
    requires n > 0 && m > 0 && m % n == 0
    ensures (p % m) % n == p % n
  {
    var q := m / n;
    Split(m, n);
    Split(p, m);
    Associate(p / m, q, n);
    AddMultiple(p % m, (p / m) * q, n);
  }

  lemma Monotone(a: int, b: int, n: int)
    requires a <= b && n >= 0
    ensures a * n <= b * n
  {
    if a < b {
      AtLeastOneTimes(b - a, n);
      Distribute(b, a, n);
    }
  }

  lemma {:induction false} SubsetIsNoLarger<T>(a: set<T>, b: set<T>)
    requires a <= b
    ensures |a| <= |b|
  {
    if a != {} {
      var x :| x in a;
      SubsetIsNoLarger(a - {x}, b - {x});
    }
  }
}
