/** Divisibility facts that the slot arithmetic of the ticketed queue rests on. */
module Arithmetic {

  ghost predicate Divides(d: int, n: int) {
    exists k: int :: n == d * k
  }

  /** No common divisor above 1. */
  ghost predicate Coprime(a: nat, b: nat) {
    forall d: nat :: d > 1 && Divides(d, a) ==> !Divides(d, b)
  }

  lemma DividesIntro(d: int, n: int, k: int)
    requires n == d * k
    ensures Divides(d, n)
  {
  }

  lemma DividesIffMod(d: nat, n: int)
    requires d > 0
    ensures Divides(d, n) <==> n % d == 0
  {
    if n % d == 0 {
      DividesIntro(d, n, n / d);
    }
    if Divides(d, n) {
      var k :| n == d * k;
      ModOfSum(0, k, d);
    }
  }

  /** Adding a multiple of the modulus does not change the remainder. */
  lemma ModOfSum(r: int, k: int, m: nat)
    requires m > 0
    ensures (r + m * k) % m == r % m
  {
    var q := (r + m * k) / m - r / m;
    var diff := (r + m * k) % m - r % m;
    assert diff == m * (k - q) by {
      assert r + m * k == m * ((r + m * k) / m) + (r + m * k) % m;
      assert r == m * (r / m) + r % m;
      assert m * (k - q) == m * k - m * q;
      assert m * q == m * ((r + m * k) / m) - m * (r / m);
    }
    MultipleInRange(diff, k - q, m);
  }

  /** The only multiple of m strictly between -m and m is 0. */
  lemma MultipleInRange(x: int, k: int, m: nat)
    requires m > 0 && x == m * k && 0 - m < x < m
    ensures x == 0 && k == 0
  {
    ScaleMonotone(m, 1, k);
    ScaleMonotone(m, k, -1);
  }

  lemma ScaleMonotone(m: nat, a: int, b: int)
    ensures a <= b ==> m * a <= m * b
  {
  }

  lemma SameRemainder(a: int, b: int, m: nat)
    requires m > 0
    ensures a % m == b % m <==> Divides(m, a - b)
  {
    if a % m == b % m {
      assert a - b == m * (a / m - b / m) by {
        assert a == m * (a / m) + a % m;
        assert b == m * (b / m) + b % m;
        assert m * (a / m - b / m) == m * (a / m) - m * (b / m);
      }
    }
    if Divides(m, a - b) {
      var k :| a - b == m * k;
      ModOfSum(b, k, m);
    }
  }

  lemma DividesCombination(d: int, a: int, b: int, x: int, y: int)
    requires Divides(d, a) && Divides(d, b)
    ensures Divides(d, a * x + b * y)
  {
    var k :| a == d * k;
    var l :| b == d * l;
    assert a * x == d * (k * x);
    assert b * y == d * (l * y);
    assert a * x + b * y == d * (k * x + l * y);
  }

  /** Coprime numbers have 1 as an integer combination (Euclid's algorithm). */
  lemma {:induction false} Bezout(a: nat, b: nat) returns (u: int, v: int)
    requires Coprime(a, b)
    ensures u * a + v * b == 1
    decreases b
  {
    if b == 0 {
      DividesIntro(a, a, 1);
      DividesIntro(a, 0, 0);
      DividesIntro(2, 0, 0);
      assert a == 1;
      u, v := 1, 0;
    } else {
      var q, r := a / b, a % b;
      assert a == b * q + r;
      forall d: nat | d > 1 && Divides(d, b) ensures !Divides(d, r) {
        if Divides(d, r) {
          DividesCombination(d, b, r, q, 1);
          assert Divides(d, a);
        }
      }
      var u', v' := Bezout(b, r);
      u, v := v', u' - q * v';
      assert u * a + v * b == v' * (b * q + r) + (u' - q * v') * b;
      assert v' * (b * q + r) == v' * (b * q) + v' * r;
      assert (u' - q * v') * b == u' * b - (q * v') * b;
      assert v' * (b * q) == (q * v') * b;
    }
  }

  /** A factor coprime to the modulus has an inverse modulo it. */
  lemma InverseExists(m: nat, s: nat) returns (u: nat, w: int)
    requires m > 0 && Coprime(s, m)
    ensures u * s == 1 + m * w
  {
    var x, v := Bezout(s, m);
    var q := x / m;
    u := x % m;
    w := -v - q * s;
    assert u * s == x * s - (m * q) * s by {
      assert (m * q + u) * s == (m * q) * s + u * s;
    }
    assert m * w == -(v * m) - (m * q) * s by {
      assert m * (q * s) == (m * q) * s;
      assert m * (-v - q * s) == -(m * v) - m * (q * s);
    }
  }

  /** A factor coprime to the modulus can be cancelled. */
  lemma CancelCoprime(m: nat, s: nat, d: int)
    requires m > 0 && Coprime(s, m) && Divides(m, d * s)
    ensures Divides(m, d)
  {
    var u, w := InverseExists(m, s);
    var k :| d * s == m * k;
    CancelStep(m, s, d, u, w, k);
    DividesIntro(m, d, k * u - d * w);
  }

  lemma CancelStep(m: int, s: int, d: int, u: int, w: int, k: int)
    requires u * s == 1 + m * w && d * s == m * k
    ensures d == m * (k * u - d * w)
  {
    calc {
      d;
      d * (u * s - m * w);
      { Distribute(d, u * s, m * w); }
      d * (u * s) - d * (m * w);
      { assert d * (u * s) == (d * s) * u; }
      (m * k) * u - d * (m * w);
      { assert (m * k) * u == m * (k * u); assert d * (m * w) == m * (d * w); }
      m * (k * u) - m * (d * w);
      { Distribute(m, k * u, d * w); }
      m * (k * u - d * w);
    }
  }

  lemma ScaleInverse(m: int, s: int, i: int, u: int, w: int)
    requires u * s == 1 + m * w
    ensures (i * u) * s == i + m * (i * w)
  {
    calc {
      (i * u) * s;
      { assert (i * u) * s == i * (u * s); }
      i * (1 + m * w);
      { Distribute(i, 1, -(m * w)); }
      i + i * (m * w);
      { assert i * (m * w) == m * (i * w); }
      i + m * (i * w);
    }
  }

  lemma Distribute(a: int, b: int, c: int)
    ensures a * (b - c) == a * b - a * c
  {
  }

  lemma Associate(a: int, b: int, c: int)
    ensures (a * b) * c == a * (b * c)
  {
  }

  function Pow(base: nat, n: nat): nat {
    if n == 0 then 1 else base * Pow(base, n - 1)
  }

  lemma {:induction false} PowPositive(base: nat, n: nat)
    requires base > 0
    ensures Pow(base, n) >= 1
  {
    if n > 0 {
      PowPositive(base, n - 1);
      ScaleMonotone(base, 1, Pow(base, n - 1));
    }
  }

  lemma {:induction false} PowSum(base: nat, m: nat, n: nat)
    ensures Pow(base, m + n) == Pow(base, m) * Pow(base, n)
  {
    if m > 0 {
      PowSum(base, m - 1, n);
      Associate(base, Pow(base, m - 1), Pow(base, n));
    }
  }
}
