/** The few facts about division, remainder and products that the mixed-radix
    index arithmetic needs. */
module Arith {

  lemma MulMono(a: nat, b: nat, k: nat)
    requires a <= b
    ensures a * k <= b * k
  {}

  lemma QuotientUnique(n: int, d: int, q: int, r: int)
    requires d > 0 && 0 <= r < d && n == q * d + r
    ensures n / d == q && n % d == r
  {
    var k := n / d - q;
    assert k * d == (n / d) * d - q * d == r - n % d;
    if k > 0 { MulMono(1, k, d); }
    if k < 0 { MulMono(1, -k, d); }
  }

  lemma SmallMod(n: nat, d: nat)
    requires n < d
    ensures n % d == n && n / d == 0
  {}

  lemma DivModParts(n: nat, d: nat)
    requires d > 0
    ensures n == (n / d) * d + n % d && n % d < d
  {}

  lemma ModTwice(n: nat, d: nat)
    requires d > 0
    ensures (n % d) % d == n % d
  {
    SmallMod(n % d, d);
  }

  lemma DivBound(n: nat, a: nat, d: nat)
    requires d > 0 && n < a * d
    ensures n / d < a
  {
    if n / d >= a {
      MulMono(a, n / d, d);
    }
  }

  /** Dropping whole multiples of `a * b` does not change the digit below. */
  lemma ModOfProduct(n: nat, a: nat, b: nat)
    requires a > 0 && b > 0
    ensures a * b > 0
    ensures (n % (a * b)) % b == n % b
    ensures (n % (a * b)) / b == (n / b) % a
    ensures n / (a * b) == (n / b) / a
  {
    var q, r := n / b, n % b;
    var u, v := q / a, q % a;
    assert 0 <= v * b + r < a * b by { MulMono(v, a - 1, b); assert (a - 1) * b == a * b - b; }
    assert n == q * b + r;
    assert q == u * a + v;
    assert q * b == (u * a + v) * b == u * (a * b) + v * b;
    QuotientUnique(n, a * b, u, v * b + r);
    QuotientUnique(v * b + r, b, v, r);
  }

  /** n / d rounded up, as the library computes it. */
  function CeilDiv(n: nat, d: nat): (q: nat)
    requires d > 0
    ensures q * d >= n && (q == 0 || (q - 1) * d < n)
    ensures q > 0 <==> n > 0
  {
    var q := if n % d == 0 then n / d else n / d + 1;
    assert (n / d + 1) * d == (n / d) * d + d;
    q
  }

  lemma CeilDivAbove(x: nat, n: nat, d: nat)
    requires d > 0 && x < n
    ensures x / d < CeilDiv(n, d)
  {
    DivBound(x, CeilDiv(n, d), d);
  }

  lemma CeilDivBelow(c: nat, n: nat, d: nat)
    requires d > 0
    ensures c < CeilDiv(n, d) <==> c * d < n
  {
    var q := CeilDiv(n, d);
    if c < q { MulMono(c, q - 1, d); }
    if q <= c { MulMono(q, c, d); }
  }

  /** Where block `l` starts, for blocks of `size` items. */
  function Start(l: nat, size: nat): nat { l * size }

  lemma StartNext(l: nat, size: nat)
    ensures Start(l + 1, size) == Start(l, size) + size
  {}

  lemma StartMono(l: nat, m: nat, size: nat)
    requires l <= m
    ensures Start(l, size) <= Start(m, size)
  {
    MulMono(l, m, size);
  }

  lemma StartIs(l: nat, size: nat)
    ensures Start(l, size) == l * size
  {}

  lemma StartZero(size: nat)
    ensures Start(0, size) == 0
  {}
}
