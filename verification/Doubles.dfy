/** Addition of JavaScript numbers that hold non-negative integers: IEEE 754 binary64,
    53 significant bits, round half to even. */
module Doubles {

  const TWO_53: nat := 9007199254740992
  const MAX_SAFE_INTEGER: nat := 9007199254740991

  /** The spacing of the doubles around n: halving drops one bit until 53 are left. */
  function Spacing(n: nat): (u: nat)
    ensures u >= 1
  {
    if n < TWO_53 then 1 else 2 * Spacing(n / 2)
  }

  /** The leading 53 bits of n. */
  function Leading(n: nat): nat {
    if n < TWO_53 then n else Leading(n / 2)
  }

  /** n with the bits that do not fit cleared. */
  function Kept(n: nat): nat {
    if n < TWO_53 then n else 2 * Kept(n / 2)
  }

  /** The bits that do not fit. */
  function Lost(n: nat): nat {
    if n < TWO_53 then 0 else 2 * Lost(n / 2) + n % 2
  }

  function Round(n: nat): nat {
    var up := 2 * Lost(n) > Spacing(n) || (2 * Lost(n) == Spacing(n) && Leading(n) % 2 == 1);
    if up then Kept(n) + Spacing(n) else Kept(n)
  }

  function Add(a: nat, b: nat): nat {
    Round(a + b)
  }

  predicate IsDouble(n: nat) {
    Round(n) == n
  }

  lemma {:induction false} BinadeBounds(n: nat)
    ensures Lost(n) < Spacing(n)
    ensures Kept(n) + Lost(n) == n
    ensures Kept(n) + Spacing(n) <= TWO_53 * Spacing(n)
    ensures Spacing(n) > 1 ==> TWO_53 * Spacing(n) <= 2 * Kept(n)
  {
    if n >= TWO_53 {
      BinadeBounds(n / 2);
    }
  }

  lemma {:induction false} SpacingSteps(n: nat, m: nat)
    requires n <= m
    ensures Spacing(n) == Spacing(m) || 2 * Spacing(n) <= Spacing(m)
  {
    if n >= TWO_53 {
      SpacingSteps(n / 2, m / 2);
    }
  }

  lemma {:induction false} SameBinade(n: nat, m: nat)
    requires n <= m && Spacing(n) == Spacing(m)
    ensures || (Leading(n) == Leading(m) && Kept(n) == Kept(m) && Lost(n) <= Lost(m))
            || Kept(n) + Spacing(n) <= Kept(m)
  {
    BinadeBounds(n);
    BinadeBounds(m);
    if n >= TWO_53 && m >= TWO_53 {
      SameBinade(n / 2, m / 2);
    }
  }

  lemma RoundMonotone(n: nat, m: nat)
    requires n <= m
    ensures Round(n) <= Round(m)
  {
    SpacingSteps(n, m);
    BinadeBounds(n);
    BinadeBounds(m);
    if Spacing(n) == Spacing(m) {
      SameBinade(n, m);
    }
  }

  /** A sum is never rounded below a bound that is itself a double. */
  lemma AddAtLeast(a: nat, b: nat, bound: nat)
    requires IsDouble(bound) && bound <= a + b
    ensures bound <= Add(a, b)
  {
    RoundMonotone(bound, a + b);
  }

  /** The floating-point test `c + w <= total` agrees with the exact one for every c and w
      exactly when adding 1 to the total is not lost to rounding; every total below 2^53 qualifies. */
  lemma PartitionTestExact(total: nat)
    requires IsDouble(total)
    ensures (forall c: nat, w: nat | IsDouble(c) && IsDouble(w) && Add(c, w) <= total :: c + w <= total)
            <==> Add(total, 1) > total
    ensures total <= MAX_SAFE_INTEGER ==> Add(total, 1) > total
  {
    if Add(total, 1) > total {
      forall c: nat, w: nat | IsDouble(c) && IsDouble(w) && Add(c, w) <= total
        ensures c + w <= total
      {
        if c + w > total {
          RoundMonotone(total + 1, c + w);
        }
      }
    } else {
      assert IsDouble(1);
      assert total + 1 > total;
    }
  }
}
