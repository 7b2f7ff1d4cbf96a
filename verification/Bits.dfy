/** Bitwise operations on unsigned numbers of any width, and `MY_ALIGN`
    (MySQL Server 5.7/include/my_global.h:462). */
module Bits {

  function Pow2(k: nat): (r: nat)
    ensures r >= 1
  {
    if k == 0 then 1 else 2 * Pow2(k - 1)
  }

  function And(x: nat, y: nat): nat {
    if x == 0 || y == 0 then 0 else 2 * And(x / 2, y / 2) + (x % 2) * (y % 2)
  }

  function Or(x: nat, y: nat): nat {
    if x == 0 then y
    else if y == 0 then x
    else 2 * Or(x / 2, y / 2) + if x % 2 == 1 || y % 2 == 1 then 1 else 0
  }

  /** Bit k of a number. */
  function Bit(x: nat, k: nat): bool
    decreases k
  {
    if k == 0 then x % 2 == 1 else Bit(x / 2, k - 1)
  }

  /** Both operations act bit by bit. */
  lemma {:induction false} BitByBit(x: nat, y: nat, k: nat)
    ensures Bit(And(x, y), k) <==> Bit(x, k) && Bit(y, k)
    ensures Bit(Or(x, y), k) <==> Bit(x, k) || Bit(y, k)
    decreases k
  {
    NoBits(k);
    if k > 0 {
      BitByBit(x / 2, y / 2, k - 1);
    }
    HalfAndOr(x, y);
  }

  lemma HalfAndOr(x: nat, y: nat)
    ensures And(x, y) / 2 == And(x / 2, y / 2) && (And(x, y) % 2 == 1 <==> x % 2 == 1 && y % 2 == 1)
    ensures Or(x, y) / 2 == Or(x / 2, y / 2) && (Or(x, y) % 2 == 1 <==> x % 2 == 1 || y % 2 == 1)
  {
    assert x % 2 == 0 || x % 2 == 1;
    assert y % 2 == 0 || y % 2 == 1;
  }

  lemma {:induction false} NoBits(k: nat)
    ensures !Bit(0, k)
  {
    if k > 0 {
      NoBits(k - 1);
    }
  }

  lemma {:induction false} PowMonotone(k: nat, w: nat)
    requires k <= w
    ensures Pow2(k) <= Pow2(w)
  {
    if k < w {
      PowMonotone(k, w - 1);
    }
  }

  // ---------------------------------------------------------------- division

  lemma {:induction false} MulGrows(k: int, d: int)
    requires k >= 1 && d >= 0
    ensures k * d >= d
    decreases k
  {
    if k > 1 {
      MulGrows(k - 1, d);
      assert k * d == (k - 1) * d + d;
    }
  }

  lemma Distribute(a: int, b: int, d: int)
    ensures (a - b) * d == a * d - b * d
  {
  }

  /** Two multiples of d less than d apart are equal. */
  lemma CloseMultiples(q: int, q': int, r: int, r': int, d: int)
    requires 0 <= r < d && 0 <= r' < d && q * d + r == q' * d + r'
    ensures q == q' && r == r'
  {
    if q > q' {
      Distribute(q, q', d);
      MulGrows(q - q', d);
    } else if q < q' {
      Distribute(q', q, d);
      MulGrows(q' - q, d);
    }
  }

  lemma DivisionUnique(x: int, d: nat, q: int, r: int)
    requires d > 0 && x == q * d + r && 0 <= r < d
    ensures x / d == q && x % d == r
  {
    DivMod(x, d);
    CloseMultiples(x / d, q, x % d, r, d);
  }

  lemma DivMod(x: int, d: nat)
    requires d > 0
    ensures x == (x / d) * d + x % d && 0 <= x % d < d
  {
  }

  lemma HalveMod(x: nat, m: nat)
    requires m > 0
    ensures x % (2 * m) == 2 * ((x / 2) % m) + x % 2
  {
    var q, r := (x / 2) / m, (x / 2) % m;
    DivMod(x / 2, m);
    assert x / 2 == q * m + r;
    Double(q, m);
    DivisionUnique(x, 2 * m, q, 2 * r + x % 2);
  }

  lemma Double(q: int, m: int)
    ensures q * (2 * m) == 2 * (q * m)
  {
  }

  // ---------------------------------------------------------------- masks

  lemma AndEven(x: nat, m: nat)
    ensures And(x, 2 * m) == 2 * And(x / 2, m)
  {
    assert (2 * m) / 2 == m && (2 * m) % 2 == 0;
  }

  lemma AndOdd(x: nat, m: nat)
    ensures And(x, 2 * m + 1) == 2 * And(x / 2, m) + x % 2
  {
    assert (2 * m + 1) / 2 == m && (2 * m + 1) % 2 == 1;
  }

  lemma {:induction false} AndOnes(x: nat, w: nat)
    requires x < Pow2(w)
    ensures And(x, Pow2(w) - 1) == x
  {
    if w > 0 {
      AndOnes(x / 2, w - 1);
      AndOdd(x, Pow2(w - 1) - 1);
    }
  }

  /** Masking with all ones above bit k clears the k low bits. */
  lemma {:induction false} AndHighMask(x: nat, k: nat, w: nat)
    requires k <= w && x < Pow2(w)
    ensures Pow2(k) <= Pow2(w)
    ensures And(x, Pow2(w) - Pow2(k)) == x - x % Pow2(k)
    decreases k
  {
    PowMonotone(k, w);
    if k == 0 {
      AndOnes(x, w);
    } else {
      AndHighMask(x / 2, k - 1, w - 1);
      HighMaskStep(x, Pow2(k - 1), Pow2(w - 1) - Pow2(k - 1), Pow2(k), Pow2(w) - Pow2(k));
    }
  }

  lemma HighMaskStep(x: nat, p: nat, m: nat, p': nat, m': nat)
    requires p > 0 && And(x / 2, m) == x / 2 - x / 2 % p
    requires p' == 2 * p && m' == 2 * m
    ensures And(x, m') == x - x % p'
  {
    AndEven(x, m);
    HalveMod(x, p);
  }

  /** Bits that do not overlap: or is addition. */
  lemma {:induction false} OrIsSum(x: nat, y: nat, k: nat)
    requires x % Pow2(k) == 0 && y < Pow2(k)
    ensures Or(x, y) == x + y
    decreases k
  {
    if k > 0 {
      HalveMod(x, Pow2(k - 1));
      OrIsSum(x / 2, y / 2, k - 1);
    }
  }

  // ---------------------------------------------------------------- MY_ALIGN

  /** (A + L - 1) & ~(L - 1) in unsigned arithmetic of w bits, where L is 2 to the k. */
  function Align(a: nat, k: nat, w: nat): nat
    requires k <= w
  {
    PowMonotone(k, w);
    And((a + Pow2(k) - 1) % Pow2(w), Pow2(w) - 1 - (Pow2(k) - 1))
  }

  /** `m` is the least multiple of `l` not below `a`. */
  ghost predicate IsLeastMultiple(m: int, a: int, l: nat) {
    l > 0 && m % l == 0 && a <= m < a + l
  }

  lemma LeastMultipleUnique(m: int, m': int, a: int, l: nat)
    requires IsLeastMultiple(m, a, l) && IsLeastMultiple(m', a, l)
    ensures m == m'
  {
    DivMod(m, l);
    DivMod(m', l);
    if m <= m' {
      CloseMultiples(m / l, m' / l, m' - m, 0, l);
    } else {
      CloseMultiples(m' / l, m / l, m - m', 0, l);
    }
  }

  lemma RoundUp(a: nat, l: nat)
    requires l > 0
    ensures IsLeastMultiple((a + l - 1) / l * l, a, l)
  {
    DivMod(a + l - 1, l);
    var q := (a + l - 1) / l;
    DivisionUnique(q * l, l, q, 0);
  }

  lemma AlignInRange(a: nat, k: nat, w: nat)
    requires k <= w && a + Pow2(k) - 1 < Pow2(w)
    ensures Align(a, k, w) == (a + Pow2(k) - 1) / Pow2(k) * Pow2(k)
  {
    PowMonotone(k, w);
    var x := a + Pow2(k) - 1;
    DivisionUnique(x, Pow2(w), 0, x);
    AndHighMask(x, k, w);
    DivMod(x, Pow2(k));
  }

  lemma AlignOverflow(a: nat, k: nat, w: nat)
    requires k <= w && a < Pow2(w) <= a + Pow2(k) - 1
    ensures Align(a, k, w) == 0
  {
    PowMonotone(k, w);
    var x := a + Pow2(k) - 1 - Pow2(w);
    DivisionUnique(a + Pow2(k) - 1, Pow2(w), 1, x);
    AndHighMask(x, k, w);
    DivisionUnique(x, Pow2(k), 0, x);
  }

  /** `MY_ALIGN` rounds up to the next multiple exactly when the sum does not overflow (or
      there is nothing to round); otherwise it yields 0. Where it rounds up it is the division
      form used for the word boundaries of a string. */
  lemma AlignExact(a: nat, k: nat, w: nat)
    requires k <= w && a < Pow2(w)
    ensures IsLeastMultiple(Align(a, k, w), a, Pow2(k)) <==> a + Pow2(k) - 1 < Pow2(w)
    ensures a + Pow2(k) - 1 < Pow2(w) ==> Align(a, k, w) == (a + Pow2(k) - 1) / Pow2(k) * Pow2(k)
    ensures a + Pow2(k) - 1 >= Pow2(w) ==> Align(a, k, w) == 0 < a
  {
    PowMonotone(k, w);
    if a + Pow2(k) - 1 < Pow2(w) {
      AlignInRange(a, k, w);
      RoundUp(a, Pow2(k));
    } else {
      AlignOverflow(a, k, w);
    }
  }

  lemma {:induction false} PowSplit(k: nat, w: nat)
    requires k <= w
    ensures Pow2(w) == Pow2(w - k) * Pow2(k)
  {
    if k < w {
      PowSplit(k, w - 1);
      assert 2 * (Pow2(w - 1 - k) * Pow2(k)) == (2 * Pow2(w - 1 - k)) * Pow2(k);
    }
  }

  /** There is room for one more unit above a multiple below 2 to the w. */
  lemma RoomAbove(m: nat, k: nat, w: nat)
    requires k <= w && m < Pow2(w) && m % Pow2(k) == 0
    ensures m + Pow2(k) <= Pow2(w)
  {
    var l, p := Pow2(k), Pow2(w - k);
    PowSplit(k, w);
    DivMod(m, l);
    var q := m / l;
    if q >= p {
      Distribute(q, p, l);
      assert q == p || (q - p) * l >= l by {
        if q > p {
          MulGrows(q - p, l);
        }
      }
    } else {
      Distribute(p, q, l);
      MulGrows(p - q, l);
    }
  }

  /** Rounding up is idempotent and monotone. */
  lemma AlignIdempotentMonotone(a: nat, b: nat, k: nat, w: nat)
    requires k <= w && a <= b && b + Pow2(k) - 1 < Pow2(w)
    ensures Align(a, k, w) <= Align(b, k, w)
    ensures Align(Align(b, k, w), k, w) == Align(b, k, w)
  {
    var l := Pow2(k);
    AlignExact(a, k, w);
    AlignExact(b, k, w);
    var m, n := Align(a, k, w), Align(b, k, w);
    if n < m {
      assert IsLeastMultiple(n, a, l);
      LeastMultipleUnique(m, n, a, l);
    }
    RoomAbove(n, k, w);
    AlignExact(n, k, w);
    LeastMultipleUnique(Align(n, k, w), n, n, l);
  }
}
