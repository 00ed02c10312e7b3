/** Index arithmetic of the ring buffer: the power-of-two test `n & (n - 1)` and
    wrapping with a bit mask, for natural numbers of any size. */
module IndexMask {

  /** Bitwise AND, bit by bit from the least significant one. */
  function And(a: nat, b: nat): nat {
    if a == 0 || b == 0 then 0
    else (if a % 2 == 1 && b % 2 == 1 then 1 else 0) + 2 * And(a / 2, b / 2)
  }

  function Pow2(k: nat): (p: nat)
    ensures p > 0
  {
    if k == 0 then 1 else 2 * Pow2(k - 1)
  }

  ghost predicate IsPow2(n: nat) {
    exists k: nat :: Pow2(k) == n
  }

  /** Masking with `2^k - 1` is reduction modulo `2^k`. */
  lemma {:induction false} MaskPow2(i: nat, k: nat)
    ensures And(i, Pow2(k) - 1) == i % Pow2(k)
  {
    if k == 0 {
    } else if i == 0 {
    } else {
      var h := Pow2(k - 1);
      MaskPow2(i / 2, k - 1);
      assert (Pow2(k) - 1) / 2 == h - 1 && (Pow2(k) - 1) % 2 == 1;
      DoubleMod(i, h);
      if h == 1 {
        assert And(i / 2, 0) == 0;
      }
    }
  }

  lemma DoubleMod(i: nat, h: nat)
    requires h > 0
    ensures i % (2 * h) == i % 2 + 2 * ((i / 2) % h)
  {
    var q, r := (i / 2) / h, (i / 2) % h;
    assert i == (2 * h) * q + (2 * r + i % 2) by {
      assert i / 2 == h * q + r;
      assert i == 2 * (i / 2) + i % 2;
    }
    ModUnique(i, 2 * h, q, 2 * r + i % 2);
  }

  lemma MultipleIsBig(n: nat, d: int)
    requires n > 0
    ensures d == 0 || n * d >= n || n * d + n <= 0
  {
    if d >= 1 {
      assert n * d >= n * 1;
    } else if d <= -1 {
      assert n * d <= n * -1;
    }
  }

  /** A quotient and a remainder below the divisor are the quotient and the remainder. */
  lemma ModUnique(x: int, n: nat, q: int, r: int)
    requires n > 0 && x == n * q + r && 0 <= r < n
    ensures x % n == r && x / n == q
  {
    var q', r' := x / n, x % n;
    assert n * (q - q') == r' - r;
    MultipleIsBig(n, q - q');
  }

  lemma {:induction false} Pow2Passes(k: nat)
    ensures And(Pow2(k), Pow2(k) - 1) == 0
  {
    MaskPow2(Pow2(k), k);
    ModUnique(Pow2(k), Pow2(k), 1, 0);
  }

  lemma {:induction false} PassingIsPow2(n: nat)
    requires n > 0 && And(n, n - 1) == 0
    ensures IsPow2(n)
  {
    if n == 1 {
      assert Pow2(0) == 1;
    } else if n % 2 == 1 {
      assert n / 2 == (n - 1) / 2;
      AndSelf(n / 2);
    } else {
      assert (n - 1) / 2 == n / 2 - 1;
      PassingIsPow2(n / 2);
      var k: nat :| Pow2(k) == n / 2;
      assert Pow2(k + 1) == n;
    }
  }

  lemma {:induction false} AndSelf(a: nat)
    ensures And(a, a) == a
  {
    if a > 0 {
      AndSelf(a / 2);
    }
  }

  /** The acceptance test of `init`: a capacity passes exactly when it is a power of two. */
  lemma TestAcceptsExactlyPowersOfTwo(n: nat)
    ensures n != 0 && And(n, n - 1) == 0 <==> IsPow2(n)
  {
    if n != 0 && And(n, n - 1) == 0 {
      PassingIsPow2(n);
    }
    if IsPow2(n) {
      var k: nat :| Pow2(k) == n;
      Pow2Passes(k);
    }
  }

  /** For an accepted capacity the mask wraps every index by remainder. */
  lemma MaskIsRemainder(n: nat, i: nat)
    requires IsPow2(n)
    ensures n > 0 && And(i, n - 1) == i % n
  {
    var k: nat :| Pow2(k) == n;
    MaskPow2(i, k);
  }

  /** Indices less than one lap apart wrap to the same slot only when equal. */
  lemma SameSlot(n: nat, i: nat, j: nat)
    requires n > 0 && i <= j < i + n
    ensures i % n == j % n <==> i == j
  {
    if i % n == j % n {
      ModUnique(i, n, i / n, i % n);
      assert j - i == n * (j / n - i / n);
      MultipleIsBig(n, j / n - i / n);
    }
  }

  /** The index after `h` wraps to the slot of `j` exactly when the two span a whole lap. */
  lemma WholeLap(n: nat, j: nat, h: nat)
    requires n > 0 && j <= h < j + n
    ensures (h + 1) % n == j % n <==> h - j == n - 1
  {
    if h - j == n - 1 {
      assert h + 1 == n * (j / n + 1) + j % n by {
        assert n * (j / n + 1) == n * (j / n) + n;
      }
      ModUnique(h + 1, n, j / n + 1, j % n);
    } else {
      SameSlot(n, j, h + 1);
    }
  }

  /** Wrapping before the increment does not change the slot reached after it. */
  lemma NextSlot(n: nat, i: nat)
    requires n > 0
    ensures (i % n + 1) % n == (i + 1) % n
  {
    var q, r := i / n, i % n;
    if r + 1 < n {
      ModUnique(i + 1, n, q, r + 1);
      ModUnique(r + 1, n, 0, r + 1);
    } else {
      assert n * (q + 1) == n * q + n;
      ModUnique(i + 1, n, q + 1, 0);
      ModUnique(r + 1, n, 1, 0);
    }
  }

  /** The masked increment of a wrapped counter. */
  lemma NextWrapped(cap: nat, i: nat)
    requires IsPow2(cap) && cap > 0
    ensures And(i % cap + 1, cap - 1) == (i + 1) % cap
  {
    MaskIsRemainder(cap, i % cap + 1);
    NextSlot(cap, i);
  }

  /** The same of an index below the capacity, without remainders. */
  lemma NextIndex(cap: nat, i: nat)
    requires IsPow2(cap) && i < cap
    ensures And(i + 1, cap - 1) == if i + 1 == cap then 0 else i + 1
  {
    MaskIsRemainder(cap, i + 1);
    ModUnique(i + 1, cap, if i + 1 == cap then 1 else 0, if i + 1 == cap then 0 else i + 1);
  }
}
