/** Bitwise operators on non-negative integers, and when they agree with ordinary arithmetic. */
module Bits {

  function Pow2(k: nat): (r: nat)
    ensures r >= 1
  {
    if k == 0 then 1 else 2 * Pow2(k - 1)
  }

  function And(a: nat, b: nat): nat {
    if a == 0 || b == 0 then 0 else (a % 2) * (b % 2) + 2 * And(a / 2, b / 2)
  }

  function Or(a: nat, b: nat): nat {
    if a == 0 then b
    else if b == 0 then a
    else (if a % 2 == 1 || b % 2 == 1 then 1 else 0) + 2 * Or(a / 2, b / 2)
  }

  function ShiftLeft(a: nat, k: nat): nat {
    a * Pow2(k)
  }

  /** How often m fits into a: integer division. */
  function Quotient(a: nat, m: nat): nat
    requires m > 0
  {
    if a < m then 0 else 1 + Quotient(a - m, m)
  }

  lemma {:induction false} QuotientIs(a: nat, m: nat)
    requires m > 0
    ensures Quotient(a, m) == a / m
  {
    if a >= m {
      QuotientIs(a - m, m);
      var q := (a - m) / m;
      assert a - m == q * m + (a - m) % m;
      assert (q + 1) * m == q * m + m;
      RemainderIs(a, m, q + 1, (a - m) % m);
    } else {
      RemainderIs(a, m, 0, a);
    }
  }

  function ShiftRight(a: nat, k: nat): nat {
    Quotient(a, Pow2(k))
  }

  /** `a << k` on 32 bits, read as an unsigned number. */
  function ShiftLeft32(a: nat, k: nat): nat {
    Modulo(ShiftLeft(a, k), Pow2(32))
  }

  function Modulo(a: nat, m: nat): (r: nat)
    requires m > 0
    ensures r < m
  {
    a % m
  }

  lemma {:induction false} Pow2Sum(a: nat, b: nat)
    ensures Pow2(a + b) == Pow2(a) * Pow2(b)
  {
    if a > 0 {
      Pow2Sum(a - 1, b);
    }
  }

  lemma PowersOfTwo()
    ensures Pow2(4) == 0x10 && Pow2(8) == 0x100 && Pow2(16) == 0x1_0000 && Pow2(24) == 0x100_0000
    ensures Pow2(32) == 0x1_0000_0000
  {
    assert Pow2(4) == 16;
    Pow2Sum(4, 4);
    Pow2Sum(8, 8);
    Pow2Sum(16, 8);
    Pow2Sum(16, 16);
  }

  /** Or-ing something into the vacated low bits is addition. */
  lemma {:induction false} OrIntoLow(a: nat, b: nat, k: nat)
    requires b < Pow2(k)
    ensures Or(a * Pow2(k), b) == a * Pow2(k) + b
  {
    if k > 0 && a > 0 && b > 0 {
      var high := a * Pow2(k - 1);
      assert a * Pow2(k) == 2 * high;
      OrIntoLow(a, b / 2, k - 1);
    } else if k > 0 && a == 0 {
      assert a * Pow2(k) == 0;
    }
  }

  lemma AndOdd(a: nat, b: nat)
    ensures And(a, 2 * b + 1) == a % 2 + 2 * And(a / 2, b)
  {
    var m := 2 * b + 1;
    assert m % 2 == 1 && m / 2 == b;
    if a > 0 {
      assert And(a, m) == (a % 2) * (m % 2) + 2 * And(a / 2, m / 2);
    }
  }

  /** Masking with k low ones keeps the remainder. */
  lemma {:induction false} AndLowOnes(a: nat, k: nat)
    ensures And(a, AllOnes(k)) == Modulo(a, Pow2(k))
  {
    if k > 0 {
      AndLowOnes(a / 2, k - 1);
      AndOdd(a, AllOnes(k - 1));
      HalfRemainder(a, Pow2(k - 1));
    }
  }

  lemma HalfRemainder(a: nat, m: nat)
    requires m > 0
    ensures a % (2 * m) == a % 2 + 2 * ((a / 2) % m)
  {
    var h := a / 2;
    var q, r := h / m, h % m;
    assert h == q * m + r && r < m;
    assert q * (2 * m) == 2 * (q * m);
    RemainderIs(a, 2 * m, q, 2 * r + a % 2);
  }

  lemma AtLeastOne(d: int, m: int)
    requires m > 0
    ensures d >= 1 ==> d * m >= m
    ensures d <= -1 ==> d * m <= -m
  {
  }

  lemma RemainderIs(a: int, m: int, q: int, r: int)
    requires m > 0 && a == q * m + r && 0 <= r < m
    ensures a % m == r && a / m == q
  {
    var d := a / m - q;
    assert d * m == (a / m) * m - q * m;
    AtLeastOne(d, m);
  }

  lemma {:induction false} PowersGrow(k: nat, width: nat)
    requires k <= width
    ensures Pow2(k) <= Pow2(width)
  {
    if k < width {
      PowersGrow(k, width - 1);
    }
  }

  function AllOnes(width: nat): nat {
    Pow2(width) - 1
  }

  /** The ones from bit k up to the width. */
  function HighOnes(k: nat, width: nat): (r: nat)
    requires k <= width
    ensures r == Pow2(width) - Pow2(k)
  {
    PowersGrow(k, width);
    Pow2(width) - Pow2(k)
  }

  lemma AndDouble(a: nat, b: nat)
    ensures And(a, 2 * b) == 2 * And(a / 2, b)
  {
  }

  /** Masking with the ones above bit k clears the low k bits, as long as the number fits. */
  lemma {:induction false} AndHighOnes(a: nat, k: nat, width: nat)
    requires k <= width && a < Pow2(width)
    ensures And(a, HighOnes(k, width)) == a - a % Pow2(k)
    decreases width
  {
    if k == 0 {
      AndLowOnes(a, width);
      RemainderIs(a, Pow2(width), 0, a);
    } else {
      AndHighOnes(a / 2, k - 1, width - 1);
      AndDouble(a, HighOnes(k - 1, width - 1));
      HalfRemainder(a, Pow2(k - 1));
    }
  }

  /** Two numbers agree above bit k exactly when they lie in the same aligned block of 2^k numbers. */
  lemma SameBlock(a: nat, p: nat, m: nat)
    requires m > 0
    ensures a / m == p / m <==> p - p % m <= a < p - p % m + m
    ensures a - a % m == p - p % m <==> a / m == p / m
  {
    var d := a / m - p / m;
    assert d * m == (a / m) * m - (p / m) * m;
    AtLeastOne(d, m);
  }

  /** The mask of the source's CIDR test: `(~0 << (32 - length)) >>> 0`. */
  lemma NetMask(k: nat)
    requires k < 32
    ensures ShiftLeft32(AllOnes(32), k) == HighOnes(k, 32)
  {
    PowersGrow(k, 32);
    MaskWraps(Pow2(k), Pow2(32));
    WrapOf(AllOnes(32), k);
  }

  lemma WrapOf(a: nat, k: nat)
    ensures ShiftLeft32(a, k) == (a * Pow2(k)) % Pow2(32)
  {
  }

  lemma MaskWraps(p: nat, whole: nat)
    requires 1 <= p <= whole
    ensures ((whole - 1) * p) % whole == whole - p
  {
    assert (whole - 1) * p == (p - 1) * whole + (whole - p);
    RemainderIs((whole - 1) * p, whole, p - 1, whole - p);
  }
}
