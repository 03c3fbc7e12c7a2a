/** Machine words as bounded naturals, and the bit masks the firmware keeps in them.

    A mask is an unsigned word; bit `k` stands for node id (or chunk index) `k`.
    The bitwise operators are given by recursion on the binary digits, and every
    mask is related to the set of its bit positions by `Bits`. */
module Words {
  type u8 = x: nat | x < 0x100
  type u16 = x: nat | x < 0x1_0000
  type u32 = x: nat | x < 0x1_0000_0000
  type u64 = x: nat | x < 0x1_0000_0000_0000_0000

  /** A C++ `float`, as its 32-bit pattern; 0.0f is the pattern 0. */
  type Float = u32

  function Pow2(k: nat): (p: nat)
    ensures p > 0
  {
    if k == 0 then 1 else 2 * Pow2(k - 1)
  }

  predicate Test(m: nat, k: nat)
  {
    if k == 0 then m % 2 == 1 else Test(m / 2, k - 1)
  }

  function Or(a: nat, b: nat): nat
  {
    if a == 0 && b == 0 then 0
    else 2 * Or(a / 2, b / 2) + (if a % 2 == 1 || b % 2 == 1 then 1 else 0)
  }

  function And(a: nat, b: nat): nat
  {
    if a == 0 then 0
    else 2 * And(a / 2, b / 2) + (if a % 2 == 1 && b % 2 == 1 then 1 else 0)
  }

  /** `a & ~b`. */
  function AndNot(a: nat, b: nat): nat
  {
    if a == 0 then 0
    else 2 * AndNot(a / 2, b / 2) + (if a % 2 == 1 && b % 2 == 0 then 1 else 0)
  }

  lemma {:induction false} TestOr(a: nat, b: nat, k: nat)
    ensures Test(Or(a, b), k) == (Test(a, k) || Test(b, k))
    decreases k
  {
    if a == 0 && b == 0 {
      TestZero(k);
    } else if k > 0 {
      TestOr(a / 2, b / 2, k - 1);
    }
  }

  lemma {:induction false} TestAnd(a: nat, b: nat, k: nat)
    ensures Test(And(a, b), k) == (Test(a, k) && Test(b, k))
    decreases k
  {
    if a == 0 {
      TestZero(k);
    } else if k > 0 {
      TestAnd(a / 2, b / 2, k - 1);
    }
  }

  lemma {:induction false} TestAndNot(a: nat, b: nat, k: nat)
    ensures Test(AndNot(a, b), k) == (Test(a, k) && !Test(b, k))
    decreases k
  {
    if a == 0 {
      TestZero(k);
    } else if k > 0 {
      TestAndNot(a / 2, b / 2, k - 1);
    }
  }

  lemma {:induction false} TestZero(k: nat)
    ensures !Test(0, k)
  {
    if k > 0 {
      TestZero(k - 1);
    }
  }

  lemma {:induction false} TestPow2(j: nat, k: nat)
    ensures Test(Pow2(j), k) == (j == k)
  {
    if j == 0 {
      if k > 0 { TestZero(k - 1); }
    } else if k > 0 {
      TestPow2(j - 1, k - 1);
    }
  }

  lemma {:induction false} TestOnes(n: nat, k: nat)
    ensures Test(Pow2(n) - 1, k) == (k < n)
  {
    if n == 0 {
      TestZero(k);
    } else {
      assert (Pow2(n) - 1) / 2 == Pow2(n - 1) - 1;
      if k > 0 { TestOnes(n - 1, k - 1); }
    }
  }

  lemma {:induction false} Pow2Mono(j: nat, k: nat)
    requires j <= k
    ensures Pow2(j) <= Pow2(k)
    decreases k
  {
    if j < k {
      Pow2Mono(j, k - 1);
    }
  }

  lemma {:induction false} Pow2Product(j: nat, k: nat)
    ensures Pow2(j) * Pow2(k) == Pow2(j + k)
  {
    if j > 0 {
      Pow2Product(j - 1, k);
      assert Pow2(j) * Pow2(k) == 2 * (Pow2(j - 1) * Pow2(k));
    }
  }

  lemma {:induction false} OrBound(a: nat, b: nat, width: nat)
    requires a < Pow2(width) && b < Pow2(width)
    ensures Or(a, b) < Pow2(width)
    decreases width
  {
    if width > 0 {
      OrBound(a / 2, b / 2, width - 1);
    }
  }

  lemma {:induction false} AndNotBound(a: nat, b: nat)
    ensures AndNot(a, b) <= a
    decreases a
  {
    if a > 0 {
      AndNotBound(a / 2, b / 2);
    }
  }

  lemma {:induction false} AndBound(a: nat, b: nat)
    ensures And(a, b) <= a
    decreases a
  {
    if a > 0 {
      AndBound(a / 2, b / 2);
    }
  }

  /** Two masks of `width` bits with the same bits are the same number. */
  lemma {:induction false} TestExtensional(a: nat, b: nat, width: nat)
    requires a < Pow2(width) && b < Pow2(width)
    requires forall k :: 0 <= k < width ==> Test(a, k) == Test(b, k)
    ensures a == b
    decreases width
  {
    if width > 0 {
      assert Test(a, 0) == Test(b, 0);
      forall k | 0 <= k < width - 1
        ensures Test(a / 2, k) == Test(b / 2, k)
      {
        assert Test(a, k + 1) == Test(b, k + 1);
      }
      TestExtensional(a / 2, b / 2, width - 1);
    }
  }

  lemma Pow2Values()
    ensures Pow2(4) == 16 && Pow2(8) == 0x100 && Pow2(16) == 0x1_0000
  {
    assert Pow2(4) == 16;
    assert Pow2(8) == 16 * Pow2(4);
    assert Pow2(12) == 16 * Pow2(8);
    assert Pow2(16) == 16 * Pow2(12);
  }

  /** The node ids whose bit is set in a 16-bit mask. */
  function Bits(m: u16): (ids: set<nat>)
  {
    set k: nat | k < 16 && Test(m, k)
  }

  /** The node ids 0 .. n-1. */
  function Range(n: nat): (ids: set<nat>)
    ensures forall k: nat :: k in ids <==> k < n
    ensures |ids| == n
  {
    if n == 0 then {} else Range(n - 1) + {n - 1}
  }

  /** `mask |= 1 << id` adds exactly `id`. */
  lemma BitsOr(m: u16, id: nat)
    requires id < 16
    ensures Or(m, Pow2(id)) < 0x1_0000
    ensures Bits(Or(m, Pow2(id))) == Bits(m) + {id}
  {
    Pow2Values();
    Pow2Mono(id + 1, 16);
    OrBound(m, Pow2(id), 16);
    forall k: nat | k < 16
      ensures Test(Or(m, Pow2(id)), k) == (Test(m, k) || k == id)
    {
      TestOr(m, Pow2(id), k);
      TestPow2(id, k);
    }
  }

  /** `(received & expected) == expected` says that every expected id was received. */
  lemma BitsCovers(received: u16, expected: u16)
    ensures (And(received, expected) == expected) <==> (Bits(expected) <= Bits(received))
  {
    Pow2Values();
    AndBound(received, expected);
    forall k: nat | k < 16
      ensures Test(And(received, expected), k) == (Test(received, k) && Test(expected, k))
    {
      TestAnd(received, expected, k);
    }
    if And(received, expected) == expected {
      forall k | k in Bits(expected)
        ensures k in Bits(received)
      {
        assert Test(And(received, expected), k);
      }
    }
    if Bits(expected) <= Bits(received) {
      forall k | 0 <= k < 16
        ensures Test(And(received, expected), k) == Test(expected, k)
      {
        if Test(expected, k) { assert k in Bits(expected); }
      }
      TestExtensional(And(received, expected), expected, 16);
    }
  }

  /** `mask & (1 << id)` is non-zero exactly when `id` is in the mask. */
  lemma BitsTest(m: u16, id: nat)
    requires id < 16
    ensures (And(m, Pow2(id)) != 0) <==> (id in Bits(m))
  {
    TestAnd(m, Pow2(id), id);
    TestPow2(id, id);
    TestZero(id);
    if And(m, Pow2(id)) != 0 && !Test(m, id) {
      Pow2Values();
      AndBound(m, Pow2(id));
      forall k | 0 <= k < 16
        ensures Test(And(m, Pow2(id)), k) == Test(0, k)
      {
        TestAnd(m, Pow2(id), k);
        TestPow2(id, k);
        TestZero(k);
      }
      TestExtensional(And(m, Pow2(id)), 0, 16);
    }
  }

  /** `roster & ~(1 << a) & ~(1 << b)` drops exactly `a` and `b`. */
  lemma BitsDrop(m: u16, a: nat, b: nat)
    requires a < 16 && b < 16
    ensures AndNot(AndNot(m, Pow2(a)), Pow2(b)) < 0x1_0000
    ensures Bits(AndNot(AndNot(m, Pow2(a)), Pow2(b))) == Bits(m) - {a, b}
  {
    AndNotBound(m, Pow2(a));
    AndNotBound(AndNot(m, Pow2(a)), Pow2(b));
    forall k: nat | k < 16
      ensures Test(AndNot(AndNot(m, Pow2(a)), Pow2(b)), k) == (Test(m, k) && k != a && k != b)
    {
      TestAndNot(AndNot(m, Pow2(a)), Pow2(b), k);
      TestAndNot(m, Pow2(a), k);
      TestPow2(a, k);
      TestPow2(b, k);
    }
  }

  lemma OnesBound(n: nat)
    requires n <= 16
    ensures Pow2(n) <= 0x1_0000
  {
    Pow2Values();
    Pow2Mono(n, 16);
  }

  /** `(1 << n) - 1` as a 16-bit mask. */
  function Ones(n: nat): (m: u16)
    requires n <= 16
    ensures m == Pow2(n) - 1
  {
    OnesBound(n);
    Pow2(n) - 1
  }

  /** `(1 << n) - 1` is the mask of the ids 0 .. n-1. */
  lemma BitsOnes(n: nat)
    requires n <= 16
    ensures Bits(Ones(n)) == Range(n)
  {
    var ones := Ones(n);
    forall k: nat
      ensures Test(ones, k) == (k < n)
    {
      TestOnes(n, k);
    }
  }

  lemma BitsZero()
    ensures Bits(0) == {}
  {
    if k :| k in Bits(0) {
      TestZero(k);
    }
  }

  lemma BitsNonZero(m: u16)
    ensures m != 0 <==> Bits(m) != {}
  {
    BitsZero();
    Pow2Values();
    if m != 0 && Bits(m) == {} {
      forall k | 0 <= k < 16
        ensures Test(m, k) == Test(0, k)
      {
        TestZero(k);
        assert k !in Bits(m);
      }
      TestExtensional(m, 0, 16);
    }
  }
}
