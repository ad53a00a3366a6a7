/**
  Report descriptors and how a host reads reports through them: USB HID 1.11, sections 5.4 to 5.8 and 6.2.2.
  A descriptor is a list of short items; main items declare fields under the global state (kept across
  collections, saved and restored by Push and Pop) and the local state (cleared by every main item).
 */
module HidDescriptor {
  import opened Bits

  datatype List<T> = Nil | Cons(head: T, tail: List<T>)

  /** Short items with no, one or two bytes of data. */
  datatype Items =
    | End
    | I0(prefix: nat, rest: Items)
    | I1(prefix: nat, data: nat, rest: Items)
    | I2(prefix: nat, low: nat, high: nat, rest: Items)

  // ---------------------------------------------------------------- items as bytes

  /** The low two bits of the prefix say how many bytes of data follow. */
  predicate WellFormed(items: Items) {
    match items
    case End => true
    case I0(prefix, rest) => prefix % 4 == 0 && WellFormed(rest)
    case I1(prefix, data, rest) => prefix % 4 == 1 && WellFormed(rest)
    case I2(prefix, low, high, rest) => prefix % 4 == 2 && WellFormed(rest)
  }

  function Bytes(items: Items): seq<nat> {
    match items
    case End => []
    case I0(prefix, rest) => [prefix] + Bytes(rest)
    case I1(prefix, data, rest) => [prefix, data] + Bytes(rest)
    case I2(prefix, low, high, rest) => [prefix, low, high] + Bytes(rest)
  }

  /** Reads items until the bytes run out or an item is cut short. */
  function Parse(bytes: seq<nat>): Items {
    if bytes == [] then End
    else if bytes[0] % 4 == 0 then I0(bytes[0], Parse(bytes[1..]))
    else if bytes[0] % 4 == 1 && |bytes| >= 2 then I1(bytes[0], bytes[1], Parse(bytes[2..]))
    else if bytes[0] % 4 == 2 && |bytes| >= 3 then I2(bytes[0], bytes[1], bytes[2], Parse(bytes[3..]))
    else End
  }

  /** The byte table determines its items. */
  lemma {:induction false} ParseBytes(items: Items)
    requires WellFormed(items)
    ensures Parse(Bytes(items)) == items
  {
    match items
    case End =>
    case I0(prefix, rest) =>
      ParseBytes(rest);
      assert Bytes(items)[1..] == Bytes(rest);
    case I1(prefix, data, rest) =>
      ParseBytes(rest);
      assert Bytes(items)[2..] == Bytes(rest);
    case I2(prefix, low, high, rest) =>
      ParseBytes(rest);
      assert Bytes(items)[3..] == Bytes(rest);
  }

  /** The item at the start of the bytes, with the items behind it. */
  function Item(bytes: seq<nat>, size: nat, rest: Items): Items
    requires size < 3 && size < |bytes|
  {
    if size == 0 then I0(bytes[0], rest) else if size == 1 then I1(bytes[0], bytes[1], rest) else I2(bytes[0], bytes[1], bytes[2], rest)
  }

  lemma ItemBytes(bytes: seq<nat>, size: nat, rest: Items)
    requires size < 3 && size < |bytes| && bytes[0] % 4 == size
    ensures Bytes(Item(bytes, size, rest)) == bytes[..size + 1] + Bytes(rest)
    ensures WellFormed(Item(bytes, size, rest)) == WellFormed(rest)
  {
    if size == 0 {
      assert bytes[..1] == [bytes[0]];
    } else if size == 1 {
      assert bytes[..2] == [bytes[0], bytes[1]];
    } else {
      assert bytes[..3] == [bytes[0], bytes[1], bytes[2]];
    }
  }

  lemma ParseItem(bytes: seq<nat>, size: nat)
    requires size < 3 && size < |bytes| && bytes[0] % 4 == size
    ensures Parse(bytes) == Item(bytes, size, Parse(bytes[size + 1..]))
  {
  }

  /** What is read of any bytes is a descriptor, byte by byte; what is left, if anything, is an item cut short or a long one. */
  lemma {:induction false} ParseReadsPrefix(bytes: seq<nat>)
    ensures WellFormed(Parse(bytes)) && Bytes(Parse(bytes)) <= bytes
    ensures Parse(bytes[|Bytes(Parse(bytes))|..]) == End
  {
    if bytes != [] {
      var size := bytes[0] % 4;
      if size < 3 && size < |bytes| {
        var rest := bytes[size + 1..];
        ParseReadsPrefix(rest);
        ParseItem(bytes, size);
        ItemBytes(bytes, size, Parse(rest));
        assert bytes == bytes[..size + 1] + rest;
        assert bytes[|Bytes(Parse(bytes))|..] == rest[|Bytes(Parse(rest))|..];
      }
    }
  }

  /** Bytes are read to their end exactly when they are those of some items. */
  lemma ParsesWholeIff(bytes: seq<nat>)
    ensures Bytes(Parse(bytes)) == bytes <==> exists items :: WellFormed(items) && Bytes(items) == bytes
  {
    ParseReadsPrefix(bytes);
    if items :| WellFormed(items) && Bytes(items) == bytes { ParseBytes(items); }
  }

  // ---------------------------------------------------------------- interpreting items

  datatype Kind = Input | Output | Feature

  /** An inclusive range of usages; a single Usage item is a range of one. */
  datatype Range = Range(from: nat, to: nat)

  datatype Field = Field(
    kind: Kind, reportId: nat, size: nat, count: nat, flags: nat,
    page: nat, usages: List<Range>, logicalMin: int, logicalMax: int)

  datatype Global = Global(page: nat, logicalMin: int, logicalMax: int, size: nat, count: nat, reportId: nat)

  /** `list` backwards, then `onto`. */
  function Reverse<T>(list: List<T>, onto: List<T>): List<T>
    decreases list
  {
    match list
    case Nil => onto
    case Cons(head, tail) => Reverse(tail, Cons(head, onto))
  }

  /** `usages` and `fields` are kept last one first. */
  datatype State = State(global: Global, stack: List<Global>, usages: List<Range>, usageMin: nat, depth: int, fields: List<Field>)

  const START := State(Global(0, 0, 0, 0, 0, 0), Nil, Nil, 0, 0, Nil)

  function EndMain(s: State): State {
    s.(usages := Nil, usageMin := 0)
  }

  function Declare(s: State, kind: Kind, flags: nat): State {
    var g := s.global;
    EndMain(s.(fields := Cons(Field(kind, g.reportId, g.size, g.count, flags, g.page, Reverse(s.usages, Nil), g.logicalMin, g.logicalMax), s.fields)))
  }

  /** One item; `tag` is the prefix without its size, `u` and `i` the data read unsigned and signed. Units and physical ranges do not affect the layout. */
  function Apply(s: State, tag: nat, u: nat, i: int): State {
    if tag == 0x80 then Declare(s, Input, u)
    else if tag == 0x90 then Declare(s, Output, u)
    else if tag == 0xb0 then Declare(s, Feature, u)
    else if tag == 0xa0 then EndMain(s.(depth := s.depth + 1))
    else if tag == 0xc0 then EndMain(s.(depth := s.depth - 1))
    else if tag == 0x04 then s.(global := s.global.(page := u))
    else if tag == 0x14 then s.(global := s.global.(logicalMin := i))
    else if tag == 0x24 then s.(global := s.global.(logicalMax := i))
    else if tag == 0x74 then s.(global := s.global.(size := u))
    else if tag == 0x84 then s.(global := s.global.(reportId := u))
    else if tag == 0x94 then s.(global := s.global.(count := u))
    else if tag == 0xa4 then s.(stack := Cons(s.global, s.stack))
    else if tag == 0xb4 && s.stack.Cons? then s.(global := s.stack.head, stack := s.stack.tail)
    else if tag == 0x08 then s.(usages := Cons(Range(u, u), s.usages))
    else if tag == 0x18 then s.(usageMin := u)
    else if tag == 0x28 then s.(usages := Cons(Range(s.usageMin, u), s.usages))
    else s
  }

  /** Two's complement with sign bit `sign`. */
  function Signed(value: nat, sign: nat): int {
    if value < sign then value else value - 2 * sign
  }

  /** Runs through the items; `f` gets the tag, and the data read unsigned and signed. */
  function Fold<S>(items: Items, s: S, f: (S, nat, nat, int) -> S): S
    decreases items
  {
    match items
    case End => s
    case I0(prefix, rest) => Fold(rest, f(s, prefix - prefix % 4, 0, 0), f)
    case I1(prefix, data, rest) => Fold(rest, f(s, prefix - prefix % 4, data, Signed(data, 0x80)), f)
    case I2(prefix, low, high, rest) =>
      Fold(rest, f(s, prefix - prefix % 4, low + 256 * high, Signed(low + 256 * high, 0x8000)), f)
  }

  function Interpret(items: Items, s: State): State {
    Fold(items, s, Apply)
  }

  /** The fields of one report in the order of their declaration; `declared` has the last one first. */
  function FieldsOf(declared: List<Field>, kind: Kind, reportId: nat, onto: List<Field>): List<Field>
    decreases declared
  {
    match declared
    case Nil => onto
    case Cons(f, earlier) => FieldsOf(earlier, kind, reportId, if f.kind == kind && f.reportId == reportId then Cons(f, onto) else onto)
  }

  /** The size of a report in bits. */
  function Width(fields: List<Field>): nat {
    match fields
    case Nil => 0
    case Cons(f, rest) => f.size * f.count + Width(rest)
  }

  // ---------------------------------------------------------------- descriptors in sections

  function Concat(a: Items, b: Items): Items {
    match a
    case End => b
    case I0(prefix, rest) => I0(prefix, Concat(rest, b))
    case I1(prefix, data, rest) => I1(prefix, data, Concat(rest, b))
    case I2(prefix, low, high, rest) => I2(prefix, low, high, Concat(rest, b))
  }

  function Join(sections: List<Items>): Items {
    match sections
    case Nil => End
    case Cons(head, tail) => Concat(head, Join(tail))
  }

  function InterpretAll(sections: List<Items>, s: State): State {
    match sections
    case Nil => s
    case Cons(head, tail) => InterpretAll(tail, Interpret(head, s))
  }

  lemma {:induction false} FoldConcat<S>(a: Items, b: Items, s: S, f: (S, nat, nat, int) -> S)
    ensures Fold(Concat(a, b), s, f) == Fold(b, Fold(a, s, f), f)
  {
    match a
    case End =>
    case I0(prefix, rest) => FoldConcat(rest, b, f(s, prefix - prefix % 4, 0, 0), f);
    case I1(prefix, data, rest) => FoldConcat(rest, b, f(s, prefix - prefix % 4, data, Signed(data, 0x80)), f);
    case I2(prefix, low, high, rest) =>
      FoldConcat(rest, b, f(s, prefix - prefix % 4, low + 256 * high, Signed(low + 256 * high, 0x8000)), f);
  }

  /** Interpreting a descriptor section by section. */
  lemma {:induction false} InterpretJoin(sections: List<Items>, s: State)
    ensures Interpret(Join(sections), s) == InterpretAll(sections, s)
  {
    match sections
    case Nil =>
    case Cons(head, tail) =>
      FoldConcat(head, Join(tail), s, Apply);
      InterpretJoin(tail, Interpret(head, s));
  }

  lemma NextSection(head: Items, tail: List<Items>, before: State, after: State)
    requires Interpret(head, before) == after
    ensures InterpretAll(Cons(head, tail), before) == InterpretAll(tail, after)
  {
  }

  predicate AllWellFormed(sections: List<Items>) {
    match sections
    case Nil => true
    case Cons(head, tail) => WellFormed(head) && AllWellFormed(tail)
  }

  lemma {:induction false} WellFormedConcat(a: Items, b: Items)
    requires WellFormed(a) && WellFormed(b)
    ensures WellFormed(Concat(a, b))
  {
    match a
    case End =>
    case I0(_, rest) => WellFormedConcat(rest, b);
    case I1(_, _, rest) => WellFormedConcat(rest, b);
    case I2(_, _, _, rest) => WellFormedConcat(rest, b);
  }

  lemma {:induction false} WellFormedJoin(sections: List<Items>)
    requires AllWellFormed(sections)
    ensures WellFormed(Join(sections))
  {
    match sections
    case Nil =>
    case Cons(head, tail) =>
      WellFormedJoin(tail);
      WellFormedConcat(head, Join(tail));
  }

  /** The bytes of a descriptor parse back into its items. */
  lemma ParseJoin(sections: List<Items>)
    requires AllWellFormed(sections)
    ensures Parse(Bytes(Join(sections))) == Join(sections)
  {
    WellFormedJoin(sections);
    ParseBytes(Join(sections));
  }

  // ---------------------------------------------------------------- reading a report

  /** Reports are little endian: bit `j` of the payload is bit `j % 8` of byte `j / 8`; missing bits read as zero. */
  predicate PayloadBit(payload: seq<nat>, j: nat) {
    j / 8 < |payload| && Bit(payload[j / 8], j % 8)
  }

  function Extract(payload: seq<nat>, from: nat, size: nat): nat
    decreases size
  {
    if size == 0 then 0 else (if PayloadBit(payload, from) then 1 else 0) + 2 * Extract(payload, from + 1, size - 1)
  }

  /** Element `i` of a field that starts at bit `offset`, signed when its logical minimum is negative. */
  function Element(f: Field, offset: nat, payload: seq<nat>, i: nat): int {
    var raw := Extract(payload, offset + i * f.size, f.size);
    if f.logicalMin < 0 && f.size > 0 then Signed(raw, Pow2(f.size - 1)) else raw
  }

  datatype Usage = Usage(page: nat, id: nat)

  /** The usage of element `i`: usages are assigned in order, the last one repeating. */
  function UsageAt(usages: List<Range>, i: nat): nat {
    match usages
    case Nil => 0
    case Cons(r, rest) =>
      if r.from + i <= r.to then r.from + i
      else if rest.Nil? || r.to < r.from then r.to
      else UsageAt(rest, i - (r.to - r.from + 1))
  }

  predicate InRange(f: Field, value: int) {
    f.logicalMin <= value <= f.logicalMax
  }

  predicate IsConstant(f: Field) {
    f.flags % 2 == 1
  }

  predicate IsVariable(f: Field) {
    f.flags / 2 % 2 == 1
  }

  /**
    What a field says: a variable gives its usage a value, an array lists usages that are on (value 1), usage 0
    meaning none. Values outside the logical range are null values and say nothing.
   */
  ghost predicate Says(f: Field, offset: nat, payload: seq<nat>, usage: Usage, value: int) {
    !IsConstant(f) && usage.page == f.page &&
    if IsVariable(f) then
      exists i: nat | i < f.count :: usage.id == UsageAt(f.usages, i) && value == Element(f, offset, payload, i) && InRange(f, value)
    else
      value == 1 && usage.id != 0 && f.usages.Cons? &&
      exists i: nat | i < f.count :: InRange(f, Element(f, offset, payload, i)) && usage.id == f.usages.head.from + Element(f, offset, payload, i) - f.logicalMin
  }

  /** What the fields of a report say that follow each other from bit `offset` on. */
  ghost predicate AnySays(fields: List<Field>, offset: nat, payload: seq<nat>, usage: Usage, value: int) {
    match fields
    case Nil => false
    case Cons(f, rest) => Says(f, offset, payload, usage, value) || AnySays(rest, offset + f.size * f.count, payload, usage, value)
  }

  lemma OneSays(a: Field, offset: nat, payload: seq<nat>, usage: Usage, value: int)
    ensures AnySays(Cons(a, Nil), offset, payload, usage, value) <==> Says(a, offset, payload, usage, value)
  {
    assert !AnySays(Nil, offset + a.size * a.count, payload, usage, value);
  }

  lemma TwoSay(a: Field, b: Field, offset: nat, payload: seq<nat>, usage: Usage, value: int)
    ensures AnySays(Cons(a, Cons(b, Nil)), offset, payload, usage, value)
       <==> Says(a, offset, payload, usage, value) || Says(b, offset + a.size * a.count, payload, usage, value)
  {
    OneSays(b, offset + a.size * a.count, payload, usage, value);
  }

  // ---------------------------------------------------------------- reading whole bytes

  function ShiftRight(w: nat, n: nat): nat {
    if n == 0 then w else ShiftRight(w / 2, n - 1)
  }

  lemma {:induction false} ShiftRightNext(w: nat, n: nat)
    ensures ShiftRight(w, n) == 2 * ShiftRight(w, n + 1) + if Bit(w, n) then 1 else 0
  {
    if n == 0 {
      assert ShiftRight(w, 1) == ShiftRight(w / 2, 0);
    } else {
      ShiftRightNext(w / 2, n - 1);
    }
  }

  lemma {:induction false} ShiftedOut(w: nat, n: nat)
    requires w < Pow2(n)
    ensures ShiftRight(w, n) == 0
  {
    if n > 0 { ShiftedOut(w / 2, n - 1); }
  }

  /** The `n` bits of `w` stand in the payload from bit `from` on. */
  ghost predicate HoldsAt(payload: seq<nat>, from: nat, w: nat, n: nat) {
    forall j: nat | j < n :: PayloadBit(payload, from + j) <==> Bit(w, j)
  }

  lemma {:induction false} ExtractRest(payload: seq<nat>, from: nat, w: nat, n: nat, a: nat)
    requires w < Pow2(n) && a <= n && HoldsAt(payload, from, w, n)
    ensures Extract(payload, from + a, n - a) == ShiftRight(w, a)
    decreases n - a
  {
    if a == n {
      ShiftedOut(w, n);
    } else {
      ExtractRest(payload, from, w, n, a + 1);
      ShiftRightNext(w, a);
    }
  }

  /** A word that stands in the payload is what is extracted there. */
  lemma ExtractHeld(payload: seq<nat>, from: nat, w: nat, n: nat)
    requires w < Pow2(n) && HoldsAt(payload, from, w, n)
    ensures Extract(payload, from, n) == w
  {
    ExtractRest(payload, from, w, n, 0);
  }

  lemma BitOfByte(payload: seq<nat>, k: nat, j: nat)
    requires j < 8
    ensures PayloadBit(payload, 8 * k + j) <==> k < |payload| && Bit(payload[k], j)
  {
    assert (8 * k + j) / 8 == k && (8 * k + j) % 8 == j;
  }

  lemma ByteHolds(payload: seq<nat>, k: nat)
    requires k < |payload|
    ensures HoldsAt(payload, 8 * k, payload[k], 8)
  {
    forall j: nat | j < 8 ensures PayloadBit(payload, 8 * k + j) <==> Bit(payload[k], j) {
      BitOfByte(payload, k, j);
    }
  }

  /** A byte and the word after it make one word, little endian. */
  lemma HoldsBoth(payload: seq<nat>, from: nat, w: nat, upper: nat)
    requires HoldsAt(payload, from, w % 256, 8) && HoldsAt(payload, from + 8, w / 256, upper)
    ensures HoldsAt(payload, from, w, 8 + upper)
  {
    forall j: nat | j < 8 + upper ensures PayloadBit(payload, from + j) <==> Bit(w, j) {
      if j < 8 {
        BitInByte(w, j);
      } else {
        BitAboveByte(w, j - 8);
        assert from + j == from + 8 + (j - 8);
      }
    }
  }

  /** Two bytes, low byte first, hold a 16-bit word. */
  lemma PairHolds(payload: seq<nat>, k: nat, w: nat)
    requires k + 1 < |payload| && payload[k] == w % 256 && payload[k + 1] == w / 256
    ensures HoldsAt(payload, 8 * k, w, 16)
  {
    ByteHolds(payload, k);
    ByteHolds(payload, k + 1);
    assert 8 * (k + 1) == 8 * k + 8;
    HoldsBoth(payload, 8 * k, w, 8);
  }

  lemma ExtractBit(payload: seq<nat>, j: nat)
    ensures Extract(payload, j, 1) == if PayloadBit(payload, j) then 1 else 0
  {
    assert Extract(payload, j + 1, 0) == 0;
  }

  /** An element of a field with unsigned values is the word that stands in its place. */
  lemma ElementHeld(f: Field, offset: nat, data: seq<nat>, i: nat, from: nat, w: nat)
    requires f.logicalMin >= 0 && w < Pow2(f.size) && from == offset + i * f.size && HoldsAt(data, from, w, f.size)
    ensures Element(f, offset, data, i) == w
  {
    ExtractHeld(data, from, w, f.size);
  }

  /** What an array field says, given its elements. */
  lemma ArraySays(f: Field, offset: nat, data: seq<nat>, elements: seq<int>, usage: Usage, value: int)
    requires !IsConstant(f) && !IsVariable(f) && f.usages.Cons? && |elements| == f.count
    requires forall i: nat | i < f.count :: Element(f, offset, data, i) == elements[i]
    ensures Says(f, offset, data, usage, value)
       <==> (value == 1 && usage.page == f.page && usage.id != 0
             && exists e | e in elements :: InRange(f, e) && usage.id == f.usages.head.from + e - f.logicalMin)
  {
    if e :| e in elements && InRange(f, e) && usage.id == f.usages.head.from + e - f.logicalMin {
      var i :| 0 <= i < |elements| && elements[i] == e;
      assert Element(f, offset, data, i) == e;
    }
  }

  /** What a variable field says, given its elements. */
  lemma VariableSays(f: Field, offset: nat, data: seq<nat>, elements: seq<int>, usage: Usage, value: int)
    requires !IsConstant(f) && IsVariable(f) && |elements| == f.count
    requires forall i: nat | i < f.count :: Element(f, offset, data, i) == elements[i]
    ensures Says(f, offset, data, usage, value)
       <==> (usage.page == f.page && InRange(f, value)
             && exists i: nat | i < f.count :: usage.id == UsageAt(f.usages, i) && value == elements[i])
  {
    if i: nat :| i < f.count && usage.id == UsageAt(f.usages, i) && value == elements[i] && InRange(f, value) {
      assert Element(f, offset, data, i) == value;
    }
  }

  /** The same for a field of one element, and of two. */
  lemma OneElementSays(f: Field, offset: nat, data: seq<nat>, element: int, usage: Usage, value: int)
    requires !IsConstant(f) && IsVariable(f) && f.count == 1 && Element(f, offset, data, 0) == element
    ensures Says(f, offset, data, usage, value)
       <==> usage == Usage(f.page, UsageAt(f.usages, 0)) && InRange(f, value) && value == element
  {
    VariableSays(f, offset, data, [element], usage, value);
    assert [element][0] == element;
  }

  lemma TwoElementsSay(f: Field, offset: nat, data: seq<nat>, first: int, second: int, usage: Usage, value: int)
    requires !IsConstant(f) && IsVariable(f) && f.count == 2
    requires Element(f, offset, data, 0) == first && Element(f, offset, data, 1) == second
    ensures Says(f, offset, data, usage, value)
       <==> (InRange(f, value)
             && ((usage == Usage(f.page, UsageAt(f.usages, 0)) && value == first) || (usage == Usage(f.page, UsageAt(f.usages, 1)) && value == second)))
  {
    var elements := [first, second];
    VariableSays(f, offset, data, elements, usage, value);
    assert elements[0] == first && elements[1] == second;
  }

  function BitValue(w: nat, i: nat): int {
    if Bit(w, i) then 1 else 0
  }

  /** A field of single bits gives each usage of its range the value of its bit. */
  lemma BitFieldSays(f: Field, offset: nat, data: seq<nat>, w: nat, first: nat, usage: Usage, value: int)
    requires !IsConstant(f) && IsVariable(f) && f.size == 1 && f.logicalMin == 0 && f.logicalMax >= 1
    requires f.count > 0 && f.usages == Cons(Range(first, first + f.count - 1), Nil)
    requires HoldsAt(data, offset, w, f.count)
    ensures Says(f, offset, data, usage, value)
       <==> usage.page == f.page && first <= usage.id < first + f.count && value == BitValue(w, usage.id - first)
  {
    forall i: nat | i < f.count ensures Element(f, offset, data, i) == BitValue(w, i) {
      ExtractBit(data, offset + i);
      assert PayloadBit(data, offset + i) <==> Bit(w, i);
    }
    VariableSays(f, offset, data, seq(f.count, i requires 0 <= i => BitValue(w, i)), usage, value);
    if first <= usage.id < first + f.count {
      assert UsageAt(f.usages, usage.id - first) == usage.id;
    }
  }

  /** An element of a field of signed bytes. */
  lemma SignedByteElement(f: Field, data: seq<nat>, k: nat, i: nat)
    requires f.size == 8 && f.logicalMin < 0 && k + i < |data| && data[k + i] < 256
    ensures Element(f, 8 * k, data, i) == Signed(data[k + i], 0x80)
  {
    ByteOffset(k, i, f.size);
    ByteHolds(data, k + i);
    ByteWidth();
    ExtractHeld(data, 8 * (k + i), data[k + i], f.size);
  }

  lemma ByteOffset(k: nat, i: nat, size: nat)
    requires size == 8
    ensures 8 * k + i * size == 8 * (k + i)
  {
  }

  lemma ByteWidth()
    ensures Pow2(8) == 0x100 && Pow2(7) == 0x80
  {
  }
}
