/**
  The 32-slot key array of a HID report. Functions on sequences say what each operation does to the slots;
  the class below does it in place; the lemmas show that the array is a set of at most 32 keys.
 */
module Keys {
  import opened Protocol
  import opened Sequences

  const SLOTS: nat := 32

  function Position(slots: seq<uint16>, key: uint16): (i: nat)
    ensures i <= |slots|
    ensures i < |slots| ==> slots[i] == key
    ensures forall j | 0 <= j < i :: slots[j] != key
  {
    if slots == [] || slots[0] == key then 0
    else
      var rest := Position(slots[1..], key);
      assert forall j | 1 <= j < rest + 1 :: slots[j] == slots[1..][j - 1];
      1 + rest
  }

  function Inserted(slots: seq<uint16>, key: uint16): seq<uint16> {
    if key in slots || Position(slots, 0) == |slots| then slots else slots[Position(slots, 0) := key]
  }

  function Erased(slots: seq<uint16>, key: uint16): seq<uint16> {
    seq(|slots|, i requires 0 <= i < |slots| => if slots[i] == key then 0 else slots[i])
  }

  function Nonzero(slots: seq<uint16>): nat {
    if slots == [] then 0 else (if slots[0] != 0 then 1 else 0) + Nonzero(slots[1..])
  }

  function Cleared(): seq<uint16> {
    seq(SLOTS, i => 0)
  }

  // ---------------------------------------------------------------- the set that the slots stand for

  function KeySet(slots: seq<uint16>): set<uint16> {
    set k | k in slots && k != 0
  }

  /** No key occupies two slots. */
  ghost predicate Distinct(slots: seq<uint16>) {
    forall i, j | 0 <= i < j < |slots| :: slots[i] != 0 ==> slots[i] != slots[j]
  }

  lemma {:induction false} NonzeroIsCardinality(slots: seq<uint16>)
    requires Distinct(slots)
    ensures Nonzero(slots) == |KeySet(slots)|
  {
    if slots != [] {
      var rest := slots[1..];
      NonzeroIsCardinality(rest);
      if slots[0] != 0 {
        assert slots[0] !in rest;
        assert KeySet(slots) == KeySet(rest) + {slots[0]};
      } else {
        assert KeySet(slots) == KeySet(rest);
      }
    }
  }

  lemma {:induction false} NonzeroFull(slots: seq<uint16>)
    ensures Nonzero(slots) <= |slots|
    ensures Nonzero(slots) == |slots| <==> 0 !in slots
  {
    if slots != [] { NonzeroFull(slots[1..]); }
  }

  /** There is room exactly when some slot is zero. */
  lemma RoomIsZero(slots: seq<uint16>)
    requires Distinct(slots)
    ensures |KeySet(slots)| <= |slots|
    ensures |KeySet(slots)| < |slots| <==> 0 in slots
  {
    NonzeroIsCardinality(slots);
    NonzeroFull(slots);
  }

  /** Inserting adds the key if it is one and there is room. */
  lemma InsertedSet(slots: seq<uint16>, key: uint16)
    requires Distinct(slots)
    ensures Distinct(Inserted(slots, key)) && |Inserted(slots, key)| == |slots|
    ensures KeySet(Inserted(slots, key)) == if key != 0 && |KeySet(slots)| < |slots| then KeySet(slots) + {key} else KeySet(slots)
  {
    RoomIsZero(slots);
    var free := Position(slots, 0);
    assert free < |slots| <==> 0 in slots by {
      if free == |slots| { assert slots[..free] == slots; }
    }
    if key !in slots && free < |slots| {
      var after := slots[free := key];
      assert after[free] == key;
      forall k | k in KeySet(slots) ensures k in after {
        var i :| 0 <= i < |slots| && slots[i] == k;
        assert after[i] == k;
      }
    }
  }

  lemma ErasedSet(slots: seq<uint16>, key: uint16)
    requires Distinct(slots)
    ensures Distinct(Erased(slots, key)) && |Erased(slots, key)| == |slots|
    ensures KeySet(Erased(slots, key)) == KeySet(slots) - {key}
  {
    var after := Erased(slots, key);
    forall k | k in KeySet(slots) - {key} ensures k in after {
      var i :| 0 <= i < |slots| && slots[i] == k;
      assert after[i] == k;
    }
  }

  // ---------------------------------------------------------------- whole runs

  datatype Operation = Insert(key: uint16) | Erase(key: uint16) | Clear

  function Perform(slots: seq<uint16>, operation: Operation): seq<uint16> {
    match operation
    case Insert(key) => Inserted(slots, key)
    case Erase(key) => Erased(slots, key)
    case Clear => Cleared()
  }

  function Slots(operations: seq<Operation>): seq<uint16> {
    if operations == [] then Cleared() else Perform(Slots(Front(operations)), Last(operations))
  }

  /** The bounded set: zero is not a key, and a surplus key is dropped. */
  function Change(held: set<uint16>, operation: Operation): set<uint16> {
    match operation
    case Insert(key) => if key != 0 && |held| < SLOTS then held + {key} else held
    case Erase(key) => held - {key}
    case Clear => {}
  }

  function Held(operations: seq<Operation>): set<uint16> {
    if operations == [] then {} else Change(Held(Front(operations)), Last(operations))
  }

  /** Main result: after any operations the slots stand for the bounded set, each key once. */
  lemma {:induction false} SlotsHoldTheSet(operations: seq<Operation>)
    ensures var slots := Slots(operations);
            && |slots| == SLOTS && Distinct(slots)
            && KeySet(slots) == Held(operations)
            && Nonzero(slots) == |Held(operations)| <= SLOTS
            && (0 in slots <==> |Held(operations)| < SLOTS)
  {
    if operations != [] {
      var before := Front(operations);
      SlotsHoldTheSet(before);
      match Last(operations)
      case Insert(key) => InsertedSet(Slots(before), key);
      case Erase(key) => ErasedSet(Slots(before), key);
      case Clear =>
    }
    NonzeroIsCardinality(Slots(operations));
    RoomIsZero(Slots(operations));
  }

  lemma PerformKeeps(slots: seq<uint16>, operation: Operation, i: nat)
    requires i < |slots| && slots[i] != 0 && operation != Erase(slots[i]) && operation != Clear
    ensures i < |Perform(slots, operation)| && Perform(slots, operation)[i] == slots[i]
  {
  }

  /** A held key stays in its slot, whatever is done, until it is erased or everything is cleared. */
  lemma {:induction false} HeldKeysStay(before: seq<Operation>, later: seq<Operation>, i: nat)
    requires i < |Slots(before)| && Slots(before)[i] != 0
    requires Erase(Slots(before)[i]) !in later && Clear !in later
    ensures i < |Slots(before + later)| && Slots(before + later)[i] == Slots(before)[i]
  {
    if later == [] {
      assert before + later == before;
    } else {
      forall operation | operation in Front(later) ensures operation in later {}
      HeldKeysStay(before, Front(later), i);
      assert Front(before + later) == before + Front(later) && Last(before + later) == Last(later);
      assert Last(later) in later;
      PerformKeeps(Slots(before + Front(later)), Last(later), i);
    }
  }

  // ---------------------------------------------------------------- the class

  class KeyArray {
    const slots: array<uint16>

    ghost predicate Valid()
      reads this, slots
    {
      slots.Length == SLOTS && Distinct(slots[..])
    }

    constructor ()
      ensures Valid() && slots[..] == Cleared() && KeySet(slots[..]) == {}
      ensures fresh(slots)
    {
      var zeros := new uint16[SLOTS](i => 0);
      assert zeros[..] == Cleared();
      slots := zeros;
    }

    method Empty() returns (r: bool)
      requires Valid()
      ensures r <==> KeySet(slots[..]) == {}
    {
      for i := 0 to slots.Length
        invariant forall k | 0 <= k < i :: slots[k] == 0
      {
        if slots[i] != 0 {
          assert slots[i] in slots[..];
          assert slots[i] in KeySet(slots[..]);
          return false;
        }
      }
      return true;
    }

    method Clear()
      requires Valid()
      modifies slots
      ensures Valid() && slots[..] == Cleared() && KeySet(slots[..]) == {}
    {
      for i := 0 to slots.Length
        invariant forall k | 0 <= k < i :: slots[k] == 0
      {
        slots[i] := 0;
      }
    }

    method Exists(key: uint16) returns (r: bool)
      requires Valid()
      ensures r <==> key in slots[..]
      ensures r <==> if key != 0 then key in KeySet(slots[..]) else |KeySet(slots[..])| < SLOTS
    {
      RoomIsZero(slots[..]);
      for i := 0 to slots.Length
        invariant key !in slots[..i]
      {
        if slots[i] == key {
          assert slots[..][i] == key;
          return true;
        }
        assert slots[..i + 1] == slots[..i] + [slots[i]];
      }
      assert slots[..slots.Length] == slots[..];
      return false;
    }

    method Insert(key: uint16)
      requires Valid()
      modifies slots
      ensures Valid() && slots[..] == Inserted(old(slots[..]), key)
      ensures KeySet(slots[..]) == if key != 0 && |KeySet(old(slots[..]))| < SLOTS then KeySet(old(slots[..])) + {key} else KeySet(old(slots[..]))
    {
      InsertedSet(slots[..], key);
      var present := Exists(key);
      if !present {
        for i := 0 to slots.Length
          invariant slots[..] == old(slots[..])
          invariant forall k | 0 <= k < i :: slots[k] != 0
        {
          if slots[i] == 0 {
            assert Position(slots[..], 0) == i;
            slots[i] := key;
            return;
          }
        }
      }
    }

    method Erase(key: uint16)
      requires Valid()
      modifies slots
      ensures Valid() && slots[..] == Erased(old(slots[..]), key)
      ensures KeySet(slots[..]) == KeySet(old(slots[..])) - {key}
    {
      ErasedSet(slots[..], key);
      for i := 0 to slots.Length
        invariant forall k | 0 <= k < i :: slots[k] == Erased(old(slots[..]), key)[k]
        invariant forall k | i <= k < slots.Length :: slots[k] == old(slots[k])
      {
        if slots[i] == key {
          slots[i] := 0;
        }
      }
      assert slots[..] == Erased(old(slots[..]), key);
    }

    method Count() returns (result: nat)
      requires Valid()
      ensures result == |KeySet(slots[..])|
    {
      result := 0;
      NonzeroIsCardinality(slots[..]);
      for i := 0 to slots.Length
        invariant result + Nonzero(slots[i..]) == Nonzero(slots[..])
      {
        assert slots[i..][1..] == slots[i + 1..];
        if slots[i] != 0 {
          result := result + 1;
        }
      }
    }
  }
}
