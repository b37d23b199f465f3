/** Bitwise operations on natural numbers, digit by digit, and the laws the other modules use. */
module BitOps {

  function Pow2(k: nat): (p: nat)
    ensures p > 0
  {
    if k == 0 then 1 else 2 * Pow2(k - 1)
  }

  function And(a: nat, b: nat): nat {
    if a == 0 || b == 0 then 0 else 2 * And(a / 2, b / 2) + (if a % 2 == 1 && b % 2 == 1 then 1 else 0)
  }

  function Or(a: nat, b: nat): nat {
    if a == 0 then b else if b == 0 then a else 2 * Or(a / 2, b / 2) + (if a % 2 == 1 || b % 2 == 1 then 1 else 0)
  }

  function Shr(n: nat, k: nat): nat {
    if k == 0 then n else Shr(n, k - 1) / 2
  }

  function Shl(n: nat, k: nat): nat {
    n * Pow2(k)
  }

  /** The number of bits needed to write `n`. */
  function BitLen(n: nat): (k: nat)
    ensures n < Pow2(k)
    ensures n > 0 ==> k > 0 && Pow2(k - 1) <= n
  {
    if n == 0 then 0 else BitLen(n / 2) + 1
  }

  lemma BitLenUnique(n: nat, k: nat)
    requires n < Pow2(k) && (k == 0 || Pow2(k - 1) <= n)
    ensures BitLen(n) == k
  {
    var b := BitLen(n);
    if b < k {
      if b < k - 1 { Pow2Monotone(b, k - 1); }
    } else if k < b {
      if k < b - 1 { Pow2Monotone(k, b - 1); }
    }
  }

  lemma {:induction false} Pow2Sum(a: nat, b: nat)
    ensures Pow2(a + b) == Pow2(a) * Pow2(b)
  {
    if a > 0 {
      Pow2Sum(a - 1, b);
      assert Pow2(a) * Pow2(b) == 2 * (Pow2(a - 1) * Pow2(b));
    }
  }

  lemma {:induction false} Pow2Monotone(a: nat, b: nat)
    requires a < b
    ensures 2 * Pow2(a) <= Pow2(b)
  {
    if a + 1 < b {
      Pow2Monotone(a, b - 1);
    }
  }

  /** Quotients compared without dividing. */
  lemma QuotientAtLeast(d: nat, q: int, r: int, b: int)
    requires 0 <= r < d && d * q + r >= d * b
    ensures q >= b
  {
    assert d * (b - q) == d * b - d * q;
    if q < b {
      ScaleUp(d, b - q);
    }
  }

  lemma DivAtLeast(n: nat, d: nat, b: int)
    requires d > 0 && n >= d * b
    ensures n / d >= b
  {
    QuotientAtLeast(d, n / d, n % d, b);
  }

  lemma DivBelow(n: nat, d: nat, b: int)
    requires d > 0 && n < d * b
    ensures n / d < b
  {
    if n / d >= b {
      assert d * (n / d) >= d * b by { MulMonotone(d, b, n / d); }
    }
  }

  lemma MulMonotone(d: nat, a: int, b: int)
    requires a <= b
    ensures d * a <= d * b
  {
  }

  lemma DivLeq(n: nat, d: nat)
    requires d > 0
    ensures n / d <= n
  {
    assert d * (n + 1) > n by { MulMonotone(n + 1, 1, d); }
    DivBelow(n, d, n + 1);
  }

  lemma DoubleDivisor(n: nat, h: nat, x: nat, b: nat, r: nat)
    requires r < h && b < 2 && n == h * (2 * x + b) + r
    ensures n / (2 * h) == x
  {
    Regroup(h, x, b);
    DivModUnique(n, 2 * h, x, if b == 0 then r else h + r);
  }

  lemma Regroup(h: nat, x: nat, b: nat)
    requires b < 2
    ensures h * (2 * x + b) == (2 * h) * x + if b == 0 then 0 else h
  {
  }

  /** A right shift divides. */
  lemma {:induction false} ShrDivides(n: nat, k: nat)
    ensures Shr(n, k) == n / Pow2(k)
  {
    if k > 0 {
      ShrDivides(n, k - 1);
      HalfAgain(n, Pow2(k - 1));
    }
  }

  lemma HalfAgain(n: nat, h: nat)
    requires h > 0
    ensures n / h / 2 == n / (2 * h)
  {
    var q := n / h;
    assert q == 2 * (q / 2) + q % 2;
    assert n == h * q + n % h;
    DoubleDivisor(n, h, q / 2, q % 2, n % h);
  }

  /** Masking with `2^k - 1` is the remainder modulo `2^k`. */
  lemma {:induction false} AndMask(x: nat, k: nat)
    ensures And(x, Pow2(k) - 1) == x % Pow2(k)
  {
    if k > 0 {
      AndMask(x / 2, k - 1);
      var h := Pow2(k - 1);
      assert Pow2(k) - 1 == 2 * (h - 1) + 1;
      HalfMod(x, h);
    }
  }

  lemma HalfMod(x: nat, h: nat)
    requires h > 0
    ensures x % (2 * h) == 2 * ((x / 2) % h) + x % 2
  {
    var q, r := (x / 2) / h, (x / 2) % h;
    assert x / 2 == q * h + r;
    assert x == (2 * h) * q + (2 * r + x % 2);
    DivModUnique(x, 2 * h, q, 2 * r + x % 2);
  }

  lemma DivModUnique(x: int, d: nat, q: int, r: nat)
    requires d > 0 && r < d && x == d * q + r
    ensures x / d == q && x % d == r
  {
    var k := x / d - q;
    assert d * k == r - x % d by {
      assert x == d * (x / d) + x % d;
      assert d * k == d * (x / d) - d * q;
    }
    if k >= 1 {
      ScaleUp(d, k);
    } else if k <= -1 {
      ScaleDown(d, k);
    }
  }

  lemma ScaleUp(d: nat, k: int)
    requires k >= 1
    ensures d * k >= d
  {
    assert d * k == d + d * (k - 1);
  }

  lemma ScaleDown(d: nat, k: int)
    requires k <= -1
    ensures d * k + d <= 0
  {
    assert d * k + d == d * (k + 1);
  }

  /** The low `k` bits do not meet the high ones: `or` works on each part by itself. */
  lemma {:induction false} OrSplit(hi: nat, x: nat, y: nat, k: nat)
    requires x < Pow2(k) && y < Pow2(k)
    ensures Or(hi * Pow2(k) + x, y) == hi * Pow2(k) + Or(x, y)
  {
    if k == 0 {
      assert x == 0 && y == 0;
    } else if y != 0 {
      var h := Pow2(k - 1);
      var a := hi * Pow2(k) + x;
      assert a == 2 * (hi * h) + x;
      assert a / 2 == hi * h + x / 2 && a % 2 == x % 2;
      if a != 0 {
        OrSplit(hi, x / 2, y / 2, k - 1);
        if x == 0 {
          assert Or(0, y / 2) == y / 2;
        }
      } else {
        assert x == 0;
      }
    }
  }

  /** `or` keeps every bit of both arguments and needs no new bit position. */
  lemma {:induction false} OrBounds(x: nat, y: nat, k: nat)
    requires x < Pow2(k) && y < Pow2(k)
    ensures x <= Or(x, y) < Pow2(k) && y <= Or(x, y)
  {
    if x != 0 && y != 0 {
      OrBounds(x / 2, y / 2, k - 1);
    }
  }

  /** Adding a field above the bits already present. */
  lemma OrDisjoint(low: nat, hi: nat, k: nat)
    requires low < Pow2(k)
    ensures Or(low, Shl(hi, k)) == low + Shl(hi, k)
  {
    OrCommutes(low, hi * Pow2(k));
    OrSplit(hi, 0, low, k);
  }

  lemma {:induction false} OrCommutes(a: nat, b: nat)
    ensures Or(a, b) == Or(b, a)
  {
    if a != 0 && b != 0 {
      OrCommutes(a / 2, b / 2);
    }
  }
}
