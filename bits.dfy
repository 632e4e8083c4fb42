/**
 * Python's bitwise operators on non-negative integers, bit by bit: `n >> i & 1`,
 * `a | b`, `a & b` and `1 << i`, with the facts the day models use about them.
 */
module Bits {
  import Py

  /** `n >> i & 1 == 1`. */
  predicate Bit(n: nat, i: nat)
    decreases i
  {
    if i == 0 then n % 2 == 1 else Bit(n / 2, i - 1)
  }

  /** `a | b`. */
  function Or(a: nat, b: nat): nat
    decreases a + b
  {
    if a == 0 && b == 0 then 0
    else (if a % 2 == 1 || b % 2 == 1 then 1 else 0) + 2 * Or(a / 2, b / 2)
  }

  /** `a & b`. */
  function And(a: nat, b: nat): nat
    decreases a
  {
    if a == 0 || b == 0 then 0
    else (if a % 2 == 1 && b % 2 == 1 then 1 else 0) + 2 * And(a / 2, b / 2)
  }

  /** The bits of `c + 2 * y` for a low bit `c`: `c` at 0, and the bits of `y` shifted up by one. */
  lemma LowBit(c: nat, y: nat, i: nat)
    requires c < 2
    ensures Bit(c + 2 * y, i) == if i == 0 then c == 1 else Bit(y, i - 1)
  {
    assert (c + 2 * y) % 2 == c && (c + 2 * y) / 2 == y;
  }

  lemma {:induction false} OrBits(a: nat, b: nat, i: nat)
    ensures Bit(Or(a, b), i) == (Bit(a, i) || Bit(b, i))
    decreases a + b
  {
    if a == 0 && b == 0 {
      ZeroBits(i);
    } else {
      var c := if a % 2 == 1 || b % 2 == 1 then 1 else 0;
      LowBit(c, Or(a / 2, b / 2), i);
      if i > 0 {
        OrBits(a / 2, b / 2, i - 1);
      }
    }
  }

  lemma {:induction false} AndBits(a: nat, b: nat, i: nat)
    ensures Bit(And(a, b), i) == (Bit(a, i) && Bit(b, i))
    decreases a
  {
    if a == 0 || b == 0 {
      ZeroBits(i);
    } else {
      var c := if a % 2 == 1 && b % 2 == 1 then 1 else 0;
      LowBit(c, And(a / 2, b / 2), i);
      if i > 0 {
        AndBits(a / 2, b / 2, i - 1);
      }
    }
  }

  lemma {:induction false} ZeroBits(i: nat)
    ensures !Bit(0, i)
  {
    if i > 0 {
      ZeroBits(i - 1);
    }
  }

  /** `1 << k` has exactly bit k set. */
  lemma {:induction false} PowerBits(k: nat, i: nat)
    ensures Bit(Py.Pow2(k), i) == (i == k)
    decreases k
  {
    if k == 0 {
      LowBit(1, 0, i);
      if i > 0 {
        ZeroBits(i - 1);
      }
    } else {
      LowBit(0, Py.Pow2(k - 1), i);
      if i > 0 {
        PowerBits(k - 1, i - 1);
      }
    }
  }

  /** Numbers with the same bits are equal. */
  lemma {:induction false} BitsEqual(a: nat, b: nat)
    requires forall i: nat :: Bit(a, i) == Bit(b, i)
    ensures a == b
    decreases a + b
  {
    if a + b > 0 {
      forall i: nat ensures Bit(a / 2, i) == Bit(b / 2, i) {
        assert Bit(a, i + 1) == Bit(b, i + 1);
      }
      BitsEqual(a / 2, b / 2);
      assert Bit(a, 0) == Bit(b, 0);
    }
  }

  /** No bit at or above `k` is set below `2^k`. */
  lemma {:induction false} BitsBelow(n: nat, k: nat, i: nat)
    requires n < Py.Pow2(k) && i >= k
    ensures !Bit(n, i)
    decreases k
  {
    if k == 0 {
      assert n == 0;
      ZeroBits(i);
    } else {
      BitsBelow(n / 2, k - 1, i - 1);
    }
  }

  /** Adding a power of two whose bit is clear is the same as or-ing it in. */
  lemma {:induction false} AddClearBit(y: nat, k: nat)
    requires !Bit(y, k)
    ensures y + Py.Pow2(k) == Or(y, Py.Pow2(k))
    decreases k
  {
    if k == 0 {
      assert y % 2 == 0;
      OrZero(y / 2);
      assert Or(y, 1) == 1 + 2 * Or(y / 2, 0);
    } else {
      AddClearBit(y / 2, k - 1);
      assert Py.Pow2(k) / 2 == Py.Pow2(k - 1) && Py.Pow2(k) % 2 == 0;
      assert y + Py.Pow2(k) == y % 2 + 2 * (y / 2 + Py.Pow2(k - 1));
    }
  }

  lemma {:induction false} OrZero(a: nat)
    ensures Or(a, 0) == a
    decreases a
  {
    if a > 0 {
      OrZero(a / 2);
    }
  }
}
