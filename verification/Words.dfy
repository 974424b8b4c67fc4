/** Unsigned 64-bit words as numbers below 2^64: the shifts and masks the replay
    windows use, and what they do to single bits. */
module Words {

  const LIMIT: nat := 0x1_0000_0000_0000_0000

  type Word = x: nat | x < LIMIT

  const MAX_WORD: Word := LIMIT - 1

  predicate Bit(x: nat, i: nat)
    decreases i
  {
    if i == 0 then x % 2 == 1 else Bit(x / 2, i - 1)
  }

  function Pow2(n: nat): nat {
    if n == 0 then 1 else 2 * Pow2(n - 1)
  }

  function Or(a: nat, b: nat): nat
    decreases a
  {
    if a == 0 then b else (if a % 2 == 1 || b % 2 == 1 then 1 else 0) + 2 * Or(a / 2, b / 2)
  }

  function And(a: nat, b: nat): nat
    decreases a
  {
    if a == 0 then 0 else (if a % 2 == 1 && b % 2 == 1 then 1 else 0) + 2 * And(a / 2, b / 2)
  }

  /** Bits pushed past the top are lost. */
  function ShiftLeft(x: Word, k: nat): Word
    decreases k
  {
    if k == 0 then x else ShiftLeft(2 * x % LIMIT, k - 1)
  }

  // ----- Single bits ---------------------------------------------------------

  lemma {:induction false} NoBitOfZero(i: nat)
    ensures !Bit(0, i)
    decreases i
  {
    if i > 0 {
      NoBitOfZero(i - 1);
    }
  }

  lemma {:induction false} OnlyBitOfOne(i: nat)
    ensures Bit(1, i) <==> i == 0
  {
    if i > 0 {
      NoBitOfZero(i - 1);
    }
  }

  lemma {:induction false} OrBit(a: nat, b: nat, i: nat)
    ensures Bit(Or(a, b), i) <==> Bit(a, i) || Bit(b, i)
    decreases i
  {
    NoBitOfZero(i);
    if a > 0 {
      HalfOfSum(Or(a / 2, b / 2), if a % 2 == 1 || b % 2 == 1 then 1 else 0);
      if i > 0 {
        OrBit(a / 2, b / 2, i - 1);
      }
    }
  }

  lemma {:induction false} AndBit(a: nat, b: nat, i: nat)
    ensures Bit(And(a, b), i) <==> Bit(a, i) && Bit(b, i)
    decreases i
  {
    NoBitOfZero(i);
    if a > 0 {
      HalfOfSum(And(a / 2, b / 2), if a % 2 == 1 && b % 2 == 1 then 1 else 0);
      if i > 0 {
        AndBit(a / 2, b / 2, i - 1);
      }
    }
  }

  lemma {:induction false} OrBound(a: nat, b: nat, n: nat)
    requires a < Pow2(n) && b < Pow2(n)
    ensures Or(a, b) < Pow2(n)
    decreases n
  {
    if n > 0 && a > 0 {
      OrBound(a / 2, b / 2, n - 1);
    }
  }

  lemma {:induction false} AndBound(a: nat, b: nat)
    ensures And(a, b) <= a
    decreases a
  {
    if a > 0 {
      AndBound(a / 2, b / 2);
    }
  }

  lemma {:induction false} NoBitsIsZero(x: nat, n: nat)
    requires x < Pow2(n) && forall i :: 0 <= i < n ==> !Bit(x, i)
    ensures x == 0
    decreases n
  {
    if n > 0 {
      assert !Bit(x, 0);
      forall i | 0 <= i < n - 1 ensures !Bit(x / 2, i) {
        assert !Bit(x, i + 1);
      }
      NoBitsIsZero(x / 2, n - 1);
    }
  }

  lemma HalfOfSum(m: nat, r: nat)
    ensures (2 * m + r) / 2 == m + r / 2 && (2 * m + r) % 2 == r % 2
  {
  }

  /** Taking away a power of two leaves the bits below it alone. */
  lemma {:induction false} LowerBitsStay(x: nat, n: nat, i: nat)
    requires i < n && x >= Pow2(n)
    ensures Bit(x - Pow2(n), i) <==> Bit(x, i)
    decreases n
  {
    var p := Pow2(n - 1);
    assert (x - 2 * p) % 2 == x % 2 && (x - 2 * p) / 2 == x / 2 - p;
    if i > 0 {
      LowerBitsStay(x / 2, n - 1, i - 1);
    }
  }

  lemma {:induction false} Pow2Sum(a: nat, b: nat)
    ensures Pow2(a + b) == Pow2(a) * Pow2(b)
    decreases a
  {
    if a > 0 {
      Pow2Sum(a - 1, b);
    }
  }

  lemma LimitIsPow2()
    ensures LIMIT == Pow2(64)
  {
    assert Pow2(8) == 256;
    Pow2Sum(8, 8);
    Pow2Sum(16, 16);
    Pow2Sum(32, 32);
  }

  lemma DoubledBit(x: Word, i: nat)
    requires i < 64
    ensures Bit(2 * x % LIMIT, i) <==> i > 0 && Bit(x, i - 1)
  {
    LimitIsPow2();
    if 2 * x >= LIMIT {
      assert 2 * x % LIMIT == 2 * x - LIMIT;
      LowerBitsStay(2 * x, 64, i);
    } else {
      assert 2 * x % LIMIT == 2 * x;
    }
  }

  lemma {:induction false} ShiftedBit(x: Word, k: nat, i: nat)
    requires i < 64
    ensures Bit(ShiftLeft(x, k), i) <==> i >= k && Bit(x, i - k)
    decreases k
  {
    if k > 0 {
      ShiftedBit(2 * x % LIMIT, k - 1, i);
      if i >= k - 1 {
        DoubledBit(x, i - (k - 1));
      }
    }
  }

  lemma OneAtBit(offset: nat, i: nat)
    requires offset < 64 && i < 64
    ensures Bit(ShiftLeft(1, offset), i) <==> i == offset
  {
    ShiftedBit(1, offset, i);
    if i >= offset {
      OnlyBitOfOne(i - offset);
    }
  }

  /** Testing a word against a one-bit mask reads that bit. */
  lemma MaskReadsBit(x: Word, offset: nat)
    requires offset < 64
    ensures And(x, ShiftLeft(1, offset)) != 0 <==> Bit(x, offset)
  {
    var mask := ShiftLeft(1, offset);
    AndBit(x, mask, offset);
    OneAtBit(offset, offset);
    NoBitOfZero(offset);
    if !Bit(x, offset) {
      forall i | 0 <= i < 64 ensures !Bit(And(x, mask), i) {
        AndBit(x, mask, i);
        OneAtBit(offset, i);
      }
      AndBound(x, mask);
      LimitIsPow2();
      NoBitsIsZero(And(x, mask), 64);
    }
  }

  lemma OrIsWord(a: Word, b: Word)
    ensures Or(a, b) < LIMIT
  {
    LimitIsPow2();
    OrBound(a, b, 64);
  }
}
