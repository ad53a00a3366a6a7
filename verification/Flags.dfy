/** `buttons` and `modifiers`: sets kept as the bits of one machine word. */
module Flags {
  import opened Protocol
  import opened Bits

  /** Setting bit `k` adds `k` to the set. */
  lemma SetFlag(w: nat, n: nat, k: nat)
    requires w < Pow2(n) && k < n
    ensures Or(w, Pow2(k)) < Pow2(n)
    ensures BitsOf(Or(w, Pow2(k)), n) == BitsOf(w, n) + {k}
  {
    Pow2Monotone(k, n);
    OrBound(w, Pow2(k), n);
    forall j: nat ensures Bit(Or(w, Pow2(k)), j) <==> Bit(w, j) || j == k {
      BitOfOr(w, Pow2(k), j);
      BitOfPow2(k, j);
    }
  }

  /** Clearing bit `k` takes `k` out of the set. */
  lemma ClearFlag(w: nat, n: nat, k: nat)
    requires w < Pow2(n)
    ensures AndNot(w, Pow2(k)) < Pow2(n)
    ensures BitsOf(AndNot(w, Pow2(k)), n) == BitsOf(w, n) - {k}
  {
    AndNotBound(w, Pow2(k));
    forall j: nat ensures Bit(AndNot(w, Pow2(k)), j) <==> Bit(w, j) && j != k {
      BitOfAndNot(w, Pow2(k), j);
      BitOfPow2(k, j);
    }
  }

  /** Two words of `n` bits are equal exactly when they stand for the same set. */
  lemma SetDeterminesWord(v: nat, w: nat, n: nat)
    requires v < Pow2(n) && w < Pow2(n)
    ensures v == w <==> BitsOf(v, n) == BitsOf(w, n)
  {
    ValueIsPowerSum(v, n);
    ValueIsPowerSum(w, n);
  }

  lemma EmptyWord(w: nat, n: nat)
    requires w < Pow2(n)
    ensures w == 0 <==> BitsOf(w, n) == {}
  {
    ValueIsPowerSum(w, n);
    if w != 0 {
      var j := NonzeroHasBit(w);
      if n <= j { HighBitsClear(w, n, j); }
      assert j in BitsOf(w, n);
    } else {
      forall j: nat ensures !Bit(0, j) { BitOfZero(j); }
    }
  }

  // ---------------------------------------------------------------- buttons

  const BUTTONS: nat := 32

  predicate IsButton(button: uint8) {
    1 <= button as nat <= BUTTONS
  }

  function BitNumber(button: uint8): nat
    requires IsButton(button)
  {
    button as nat - 1
  }

  lemma WordWidth()
    ensures Pow2(32) == 0x1_0000_0000 && Pow2(8) == 0x100
  {
    assert Pow2(8) == 0x100;
    assert Pow2(16) == 0x1_0000;
    assert Pow2(24) == 0x100_0000;
  }

  class Buttons {
    var word: uint32

    /** The pressed buttons, as bit numbers: button `b` is bit `b - 1`. */
    ghost function Pressed(): set<nat>
      reads this
    {
      BitsOf(word as nat, BUTTONS)
    }

    constructor ()
      ensures word == 0 && Pressed() == {}
    {
      word := 0;
      WordWidth();
      EmptyWord(0, BUTTONS);
    }

    /** The raw value is the sum of the powers of two of the pressed buttons. */
    method GetRawValue() returns (r: uint32)
      ensures r == word && r as nat == PowerSum(Pressed(), BUTTONS)
    {
      WordWidth();
      ValueIsPowerSum(word as nat, BUTTONS);
      r := word;
    }

    method Empty() returns (r: bool)
      ensures r <==> Pressed() == {}
    {
      WordWidth();
      EmptyWord(word as nat, BUTTONS);
      r := word == 0;
    }

    method Clear()
      modifies this
      ensures Pressed() == {}
    {
      WordWidth();
      EmptyWord(0, BUTTONS);
      word := 0;
    }

    method Insert(button: uint8)
      modifies this
      ensures Pressed() == if IsButton(button) then old(Pressed()) + {BitNumber(button)} else old(Pressed())
    {
      if IsButton(button) {
        WordWidth();
        SetFlag(word as nat, BUTTONS, BitNumber(button));
        word := Or(word as nat, Pow2(BitNumber(button))) as uint32;
      }
    }

    method Erase(button: uint8)
      modifies this
      ensures Pressed() == if IsButton(button) then old(Pressed()) - {BitNumber(button)} else old(Pressed())
    {
      if IsButton(button) {
        WordWidth();
        ClearFlag(word as nat, BUTTONS, BitNumber(button));
        word := AndNot(word as nat, Pow2(BitNumber(button))) as uint32;
      }
    }

    method Exists(button: uint8) returns (r: bool)
      ensures r <==> IsButton(button) && BitNumber(button) in Pressed()
    {
      if IsButton(button) {
        MaskTest(word as nat, BitNumber(button));
        return And(word as nat, Pow2(BitNumber(button))) != 0;
      }
      return false;
    }
  }

  // ---------------------------------------------------------------- modifiers

  const MODIFIERS: nat := 8

  datatype Modifier =
    | LeftControl | LeftShift | LeftOption | LeftCommand
    | RightControl | RightShift | RightOption | RightCommand

  function Shift(m: Modifier): (k: nat)
    ensures k < MODIFIERS
  {
    match m
    case LeftControl => 0
    case LeftShift => 1
    case LeftOption => 2
    case LeftCommand => 3
    case RightControl => 4
    case RightShift => 5
    case RightOption => 6
    case RightCommand => 7
  }

  class Modifiers {
    var byte: uint8

    /** The held modifiers, as bit numbers. */
    ghost function Held(): set<nat>
      reads this
    {
      BitsOf(byte as nat, MODIFIERS)
    }

    constructor ()
      ensures byte == 0 && Held() == {}
    {
      byte := 0;
      WordWidth();
      EmptyWord(0, MODIFIERS);
    }

    method GetRawValue() returns (r: uint8)
      ensures r == byte && r as nat == PowerSum(Held(), MODIFIERS)
    {
      WordWidth();
      ValueIsPowerSum(byte as nat, MODIFIERS);
      r := byte;
    }

    method Empty() returns (r: bool)
      ensures r <==> Held() == {}
    {
      WordWidth();
      EmptyWord(byte as nat, MODIFIERS);
      r := byte == 0;
    }

    method Clear()
      modifies this
      ensures Held() == {}
    {
      WordWidth();
      EmptyWord(0, MODIFIERS);
      byte := 0;
    }

    method Insert(value: Modifier)
      modifies this
      ensures Held() == old(Held()) + {Shift(value)}
    {
      WordWidth();
      SetFlag(byte as nat, MODIFIERS, Shift(value));
      byte := Or(byte as nat, Pow2(Shift(value))) as uint8;
    }

    method Erase(value: Modifier)
      modifies this
      ensures Held() == old(Held()) - {Shift(value)}
    {
      WordWidth();
      ClearFlag(byte as nat, MODIFIERS, Shift(value));
      byte := AndNot(byte as nat, Pow2(Shift(value))) as uint8;
    }

    method Exists(value: Modifier) returns (r: bool)
      ensures r <==> Shift(value) in Held()
    {
      MaskTest(byte as nat, Shift(value));
      r := And(byte as nat, Pow2(Shift(value))) != 0;
    }
  }
}
