/** Machine words as natural numbers, with the bitwise operations that the report classes use. */
module Bits {
  function Pow2(n: nat): (p: nat)
    ensures p > 0
  {
    if n == 0 then 1 else 2 * Pow2(n - 1)
  }

  predicate Bit(w: nat, j: nat) {
    if j == 0 then w % 2 == 1 else Bit(w / 2, j - 1)
  }

  /** Bitwise `a | b`. */
  function Or(a: nat, b: nat): nat
    decreases a + b
  {
    if a == 0 then b else if b == 0 then a
    else 2 * Or(a / 2, b / 2) + if a % 2 == 1 || b % 2 == 1 then 1 else 0
  }

  /** Bitwise `a & ~b`. */
  function AndNot(a: nat, b: nat): nat {
    if a == 0 then 0
    else 2 * AndNot(a / 2, b / 2) + if a % 2 == 1 && b % 2 == 0 then 1 else 0
  }

  /** Bitwise `a & b`. */
  function And(a: nat, b: nat): nat {
    if a == 0 then 0
    else 2 * And(a / 2, b / 2) + if a % 2 == 1 && b % 2 == 1 then 1 else 0
  }

  lemma {:induction false} BitOfZero(j: nat)
    ensures !Bit(0, j)
  {
    if j > 0 { BitOfZero(j - 1); }
  }

  lemma {:induction false} BitOfPow2(n: nat, j: nat)
    ensures Bit(Pow2(n), j) <==> j == n
  {
    if n == 0 {
      if j > 0 { BitOfZero(j - 1); }
    } else if j > 0 {
      BitOfPow2(n - 1, j - 1);
    }
  }

  lemma {:induction false} BitOfOr(a: nat, b: nat, j: nat)
    ensures Bit(Or(a, b), j) <==> Bit(a, j) || Bit(b, j)
  {
    BitOfZero(j);
    if a != 0 && b != 0 && j > 0 { BitOfOr(a / 2, b / 2, j - 1); }
  }

  lemma {:induction false} BitOfAndNot(a: nat, b: nat, j: nat)
    ensures Bit(AndNot(a, b), j) <==> Bit(a, j) && !Bit(b, j)
  {
    BitOfZero(j);
    if a != 0 && j > 0 { BitOfAndNot(a / 2, b / 2, j - 1); }
  }

  lemma {:induction false} BitOfAnd(a: nat, b: nat, j: nat)
    ensures Bit(And(a, b), j) <==> Bit(a, j) && Bit(b, j)
  {
    BitOfZero(j);
    if a != 0 && j > 0 { BitOfAnd(a / 2, b / 2, j - 1); }
  }

  /** A word is zero when it has no bit. */
  lemma {:induction false} NonzeroHasBit(w: nat) returns (j: nat)
    requires w != 0
    ensures Bit(w, j)
  {
    if w % 2 == 1 { j := 0; }
    else {
      j := NonzeroHasBit(w / 2);
      j := j + 1;
    }
  }

  /** Testing one bit with a mask. */
  lemma MaskTest(w: nat, n: nat)
    ensures And(w, Pow2(n)) != 0 <==> Bit(w, n)
  {
    BitOfPow2(n, n);
    BitOfAnd(w, Pow2(n), n);
    BitOfZero(n);
    if And(w, Pow2(n)) != 0 {
      var j := NonzeroHasBit(And(w, Pow2(n)));
      BitOfAnd(w, Pow2(n), j);
      BitOfPow2(n, j);
    }
  }

  lemma {:induction false} OrBound(a: nat, b: nat, n: nat)
    requires a < Pow2(n) && b < Pow2(n)
    ensures Or(a, b) < Pow2(n)
  {
    if n > 0 && a != 0 && b != 0 { OrBound(a / 2, b / 2, n - 1); }
  }

  lemma {:induction false} AndNotBound(a: nat, b: nat)
    ensures AndNot(a, b) <= a
  {
    if a != 0 { AndNotBound(a / 2, b / 2); }
  }

  lemma {:induction false} Pow2Monotone(m: nat, n: nat)
    requires m < n
    ensures Pow2(m) < Pow2(n)
  {
    if m + 1 < n { Pow2Monotone(m, n - 1); }
  }

  lemma {:induction false} HighBitsClear(w: nat, n: nat, j: nat)
    requires w < Pow2(n) && n <= j
    ensures !Bit(w, j)
  {
    if n == 0 { BitOfZero(j); }
    else { HighBitsClear(w / 2, n - 1, j - 1); }
  }

  // ---------------------------------------------------------------- a word as a set of bit numbers

  function BitsOf(w: nat, n: nat): set<nat> {
    set j: nat | j < n && Bit(w, j)
  }

  /** The sum of the powers of two named by `s`, up to 2^(n-1). */
  function PowerSum(s: set<nat>, n: nat): nat {
    if n == 0 then 0 else PowerSum(s, n - 1) + if n - 1 in s then Pow2(n - 1) else 0
  }

  lemma {:induction false} PowerSumShift(s: set<nat>, t: set<nat>, n: nat)
    requires forall j: nat | j < n :: j + 1 in s <==> j in t
    ensures PowerSum(s, n + 1) == 2 * PowerSum(t, n) + if 0 in s then 1 else 0
  {
    if n > 0 {
      PowerSumShift(s, t, n - 1);
    } else {
      assert PowerSum(s, 1) == PowerSum(s, 0) + if 0 in s then Pow2(0) else 0;
    }
  }

  /** The raw value of a word is the sum of the powers of two of its bits. */
  lemma {:induction false} ValueIsPowerSum(w: nat, n: nat)
    requires w < Pow2(n)
    ensures w == PowerSum(BitsOf(w, n), n)
  {
    if n > 0 {
      ValueIsPowerSum(w / 2, n - 1);
      PowerSumShift(BitsOf(w, n), BitsOf(w / 2, n - 1), n - 1);
    }
  }

  // ---------------------------------------------------------------- bytes of a word

  lemma BitAboveTwo(w: nat, j: nat)
    ensures Bit(w / 4, j) <==> Bit(w, j + 2)
  {
    assert w / 4 == w / 2 / 2;
    assert Bit(w, j + 2) == Bit(w / 2, j + 1) == Bit(w / 2 / 2, j);
  }

  /** Dropping the low byte moves the bits down by eight. */
  lemma BitAboveByte(w: nat, j: nat)
    ensures Bit(w / 256, j) <==> Bit(w, j + 8)
  {
    assert w / 256 == w / 64 / 4 && w / 64 == w / 16 / 4 && w / 16 == w / 4 / 4;
    BitAboveTwo(w / 64, j);
    BitAboveTwo(w / 16, j + 2);
    BitAboveTwo(w / 4, j + 4);
    BitAboveTwo(w, j + 6);
  }

  /** The low part of a word has the word's low bits. */
  lemma {:induction false} BitOfLow(w: nat, high: nat, n: nat, j: nat)
    requires w < Pow2(n) && j < n
    ensures Bit(w + high * Pow2(n), j) <==> Bit(w, j)
  {
    assert high * Pow2(n) == 2 * (high * Pow2(n - 1));
    var half := w / 2 + high * Pow2(n - 1);
    assert (w + high * Pow2(n)) / 2 == half && (w + high * Pow2(n)) % 2 == w % 2;
    if j > 0 { BitOfLow(w / 2, high, n - 1, j - 1); }
  }

  lemma BitInByte(w: nat, j: nat)
    requires j < 8
    ensures Bit(w % 256, j) <==> Bit(w, j)
  {
    assert Pow2(8) == 256;
    assert w == w % 256 + (w / 256) * 256;
    BitOfLow(w % 256, w / 256, 8, j);
  }
}
