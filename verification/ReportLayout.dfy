/** The reports that clients build, read by a host through the report descriptors. */
module ReportLayout {
  import opened Protocol
  import opened Bits
  import opened HidDescriptor
  import opened DescriptorTables
  import Keys

  // ---------------------------------------------------------------- packed reports

  /** The 16-bit slots of a key array as they lie in memory: little endian. */
  function PackKeys(slots: seq<uint16>): (bytes: seq<uint8>)
    ensures |bytes| == 2 * |slots|
  {
    if slots == [] then [] else [(slots[0] % 256) as uint8, (slots[0] / 256) as uint8] + PackKeys(slots[1..])
  }

  lemma {:induction false} PackedAt(slots: seq<uint16>, i: nat)
    requires i < |slots|
    ensures PackKeys(slots)[2 * i] as nat == slots[i] as nat % 256
    ensures PackKeys(slots)[2 * i + 1] as nat == slots[i] as nat / 256
  {
    if i > 0 {
      PackedAt(slots[1..], i - 1);
      assert slots[1..][i - 1] == slots[i];
    }
  }

  const KEYBOARD_ID: uint8 := 1
  const CONSUMER_ID: uint8 := 2
  const TOP_CASE_ID: uint8 := 3
  const VENDOR_KEYBOARD_ID: uint8 := 4
  const LED_OUTPUT_ID: uint8 := 5
  const LED_INPUT_ID: uint8 := 6
  const DESKTOP_ID: uint8 := 7

  /** `keyboard_input`: report id, modifiers, a reserved byte and the keys. */
  function KeyboardReport(modifiers: uint8, slots: seq<uint16>): seq<uint8> {
    [KEYBOARD_ID, modifiers, 0] + PackKeys(slots)
  }

  /** `consumer_input`, `apple_vendor_top_case_input`, `apple_vendor_keyboard_input` and `generic_desktop_input`. */
  function KeysReport(id: uint8, slots: seq<uint16>): seq<uint8> {
    [id] + PackKeys(slots)
  }

  /** `pointing_input`. */
  function PointingReport(buttons: uint32, x: uint8, y: uint8, verticalWheel: uint8, horizontalWheel: uint8): seq<uint8> {
    var w := buttons as nat;
    [(w % 256) as uint8, (w / 256 % 256) as uint8, (w / 256 / 256 % 256) as uint8, (w / 256 / 256 / 256) as uint8,
     x, y, verticalWheel, horizontalWheel]
  }

  // ---------------------------------------------------------------- reading

  function Payload(bytes: seq<uint8>): seq<nat> {
    seq(|bytes|, i requires 0 <= i < |bytes| => bytes[i] as nat)
  }

  /** Reports start with their id if the descriptor declares ids (section 5.6 of USB HID 1.11). */
  predicate Numbered(declared: List<Field>) {
    declared.Cons? && declared.head.reportId != 0
  }

  function ReportFields(declared: List<Field>, kind: Kind, report: seq<uint8>): List<Field> {
    FieldsOf(declared, kind, if Numbered(declared) && report != [] then report[0] as nat else 0, Nil)
  }

  function ReportData(declared: List<Field>, report: seq<uint8>): seq<nat> {
    Payload(if Numbered(declared) && report != [] then report[1..] else report)
  }

  /** The host learns from `report` that `usage` has `value`. */
  ghost predicate Reports(declared: List<Field>, kind: Kind, report: seq<uint8>, usage: Usage, value: int) {
    AnySays(ReportFields(declared, kind, report), 0, ReportData(declared, report), usage, value)
  }

  /** The declared fields of the report fill it exactly. */
  predicate Fills(declared: List<Field>, kind: Kind, report: seq<uint8>) {
    Width(ReportFields(declared, kind, report)) == 8 * |ReportData(declared, report)|
  }

  /** The tables, as bytes, parse back into the items whose fields are stated in DescriptorTables. */
  lemma TablesParse()
    ensures Parse(Bytes(Join(KeyboardTable()))) == Join(KeyboardTable())
    ensures Parse(Bytes(Join(PointingTable()))) == Join(PointingTable())
  {
    KeyboardWellFormed();
    ParseJoin(KeyboardTable());
    PointingWellFormed();
    ParseJoin(PointingTable());
  }

  lemma KeyboardWellFormed()
    ensures AllWellFormed(KeyboardTable())
  {
    assert AllWellFormed(DesktopCollection(Nil));
    assert AllWellFormed(LedInputCollection(DesktopCollection(Nil)));
    assert AllWellFormed(LedOutputCollection(LedInputCollection(DesktopCollection(Nil))));
  }

  lemma PointingWellFormed()
    ensures AllWellFormed(PointingTable())
  {
    assert AllWellFormed(PointingTableEnd());
  }

  // ---------------------------------------------------------------- arrays of keys

  /** The slots stand in the data from byte `k` on. */
  ghost predicate SlotsAt(data: seq<nat>, k: nat, slots: seq<uint16>) {
    |data| == k + 2 * |slots| &&
    forall i: nat | i < |slots| :: data[k + 2 * i] == slots[i] as nat % 256 && data[k + 2 * i + 1] == slots[i] as nat / 256
  }

  lemma ElementIsSlot(f: Field, k: nat, data: seq<nat>, slots: seq<uint16>, i: nat)
    requires f.size == 16 && f.logicalMin == 0 && i < |slots| && SlotsAt(data, k, slots)
    ensures Element(f, 8 * k, data, i) == slots[i] as int
  {
    PairHolds(data, k + 2 * i, slots[i] as nat);
    SixteenBits(slots[i]);
    assert 8 * (k + 2 * i) == 8 * k + i * f.size;
    ElementHeld(f, 8 * k, data, i, 8 * (k + 2 * i), slots[i] as nat);
  }

  lemma SixteenBits(key: uint16)
    ensures key as nat < Pow2(16)
  {
    assert Pow2(8) == 0x100;
    assert Pow2(16) == 0x1_0000;
  }

  /** An array field lists exactly the nonzero keys up to its logical maximum. */
  lemma KeysFieldSays(id: nat, page: nat, max: nat, k: nat, data: seq<nat>, slots: seq<uint16>, usage: Usage, value: int)
    requires |slots| == Keys.SLOTS && SlotsAt(data, k, slots) && max < 0x1_0000
    ensures Says(KeysField(id, page, max), 8 * k, data, usage, value)
       <==> value == 1 && usage.page == page && ListsKey(slots, max, usage.id)
  {
    var f := KeysField(id, page, max);
    var elements := Values(slots);
    forall i: nat | i < f.count ensures Element(f, 8 * k, data, i) == elements[i] {
      ElementIsSlot(f, k, data, slots, i);
    }
    ArraySays(f, 8 * k, data, elements, usage, value);
    if ListsKey(slots, max, usage.id) {
      var i :| 0 <= i < |slots| && slots[i] == usage.id as uint16;
      assert elements[i] in elements;
    }
  }

  function Values(slots: seq<uint16>): seq<int> {
    seq(|slots|, i requires 0 <= i < |slots| => slots[i] as int)
  }

  /** `key` is a key in the slots that the field can report. */
  predicate ListsKey(slots: seq<uint16>, max: nat, key: nat) {
    0 < key <= max && key < 0x1_0000 && key as uint16 in Keys.KeySet(slots)
  }

  // ---------------------------------------------------------------- the keyboard's reports

  lemma KeyboardInputFields()
    ensures FieldsOf(KeyboardDeclared(), Input, 1, Nil) == Cons(MODIFIER_FIELD, Cons(RESERVED_FIELD, Cons(KeysField(1, 0x07, 255), Nil)))
  {
  }

  lemma KeyboardReportData(modifiers: uint8, slots: seq<uint16>)
    ensures var data := ReportData(KeyboardDeclared(), KeyboardReport(modifiers, slots));
            |data| == 2 + 2 * |slots| && data[0] == modifiers as nat && SlotsAt(data, 2, slots)
  {
    forall i: nat | i < |slots| ensures
      var data := ReportData(KeyboardDeclared(), KeyboardReport(modifiers, slots));
      data[2 + 2 * i] == slots[i] as nat % 256 && data[2 + 2 * i + 1] == slots[i] as nat / 256
    {
      PackedAt(slots, i);
    }
  }

  /** Main result: a host reads from the keyboard report the held modifiers, as usages 0xE0 to 0xE7, and the keys up to 255. */
  lemma KeyboardReportReads(modifiers: uint8, slots: seq<uint16>, usage: Usage, value: int)
    requires |slots| == Keys.SLOTS
    ensures |KeyboardReport(modifiers, slots)| == 67 && Fills(KeyboardDeclared(), Input, KeyboardReport(modifiers, slots))
    ensures Reports(KeyboardDeclared(), Input, KeyboardReport(modifiers, slots), usage, value)
       <==> usage.page == 0x07 && (IsModifier(modifiers, usage.id, value) || (value == 1 && ListsKey(slots, 255, usage.id)))
  {
    KeyboardInputFields();
    KeyboardReportData(modifiers, slots);
    KeyboardFieldsSay(ReportData(KeyboardDeclared(), KeyboardReport(modifiers, slots)), modifiers, slots, usage, value);
  }

  lemma KeyboardFieldsSay(data: seq<nat>, modifiers: uint8, slots: seq<uint16>, usage: Usage, value: int)
    requires |slots| == Keys.SLOTS && SlotsAt(data, 2, slots) && data[0] == modifiers as nat
    ensures AnySays(Cons(MODIFIER_FIELD, Cons(RESERVED_FIELD, Cons(KeysField(1, 0x07, 255), Nil))), 0, data, usage, value)
       <==> usage.page == 0x07 && (IsModifier(modifiers, usage.id, value) || (value == 1 && ListsKey(slots, 255, usage.id)))
  {
    ByteHolds(data, 0);
    BitFieldSays(MODIFIER_FIELD, 0, data, modifiers as nat, 0xe0, usage, value);
    KeysFieldSays(1, 0x07, 255, 2, data, slots, usage, value);
    TwoSay(RESERVED_FIELD, KeysField(1, 0x07, 255), 8, data, usage, value);
  }

  /** `id` is a modifier usage, and `value` says whether that modifier is held. */
  predicate IsModifier(modifiers: uint8, id: nat, value: int) {
    0xe0 <= id <= 0xe7 && value == BitValue(modifiers as nat, id - 0xe0)
  }

  /** The reports that carry keys only: their id, usage page and greatest key. */
  predicate IsKeysReport(id: uint8, page: nat, max: nat) {
    match id
    case 2 => page == 0x0c && max == 768
    case 3 => page == 0xff && max == 255
    case 4 => page == 0xff01 && max == 255
    case 7 => page == 0x01 && max == 255
    case _ => false
  }

  lemma KeysInputFields(id: uint8, page: nat, max: nat)
    requires IsKeysReport(id, page, max)
    ensures FieldsOf(KeyboardDeclared(), Input, id as nat, Nil) == Cons(KeysField(id as nat, page, max), Nil)
  {
    var first := if id == DESKTOP_ID then Cons(KeysField(7, 0x01, 255), Nil) else Nil;
    assert FieldsOf(KeyboardDeclared(), Input, id as nat, Nil) == FieldsOf(KeyboardDeclaredBeforeLeds(), Input, id as nat, first);
  }

  /** Main result: a host reads from the other reports exactly their keys up to the greatest one declared. */
  lemma KeysReportReads(id: uint8, page: nat, max: nat, slots: seq<uint16>, usage: Usage, value: int)
    requires IsKeysReport(id, page, max) && |slots| == Keys.SLOTS
    ensures |KeysReport(id, slots)| == 65 && Fills(KeyboardDeclared(), Input, KeysReport(id, slots))
    ensures Reports(KeyboardDeclared(), Input, KeysReport(id, slots), usage, value)
       <==> value == 1 && usage.page == page && ListsKey(slots, max, usage.id)
  {
    var data := ReportData(KeyboardDeclared(), KeysReport(id, slots));
    KeysInputFields(id, page, max);
    assert ReportFields(KeyboardDeclared(), Input, KeysReport(id, slots)) == Cons(KeysField(id as nat, page, max), Nil);
    KeysReportData(id, slots);
    KeysFieldSays(id as nat, page, max, 0, data, slots, usage, value);
    OneSays(KeysField(id as nat, page, max), 0, data, usage, value);
  }

  lemma KeysReportData(id: uint8, slots: seq<uint16>)
    ensures SlotsAt(ReportData(KeyboardDeclared(), KeysReport(id, slots)), 0, slots)
  {
    forall i: nat | i < |slots| ensures
      var data := ReportData(KeyboardDeclared(), KeysReport(id, slots));
      data[0 + 2 * i] == slots[i] as nat % 256 && data[0 + 2 * i + 1] == slots[i] as nat / 256
    {
      PackedAt(slots, i);
    }
  }

  // ---------------------------------------------------------------- the LED reports

  function LedReport(id: uint8, state: uint8): seq<uint8> {
    [id, state]
  }

  lemma LedFields()
    ensures FieldsOf(KeyboardDeclared(), Output, 5, Nil) == Cons(LedField(Output, 5), Cons(LedPadding(Output, 5), Nil))
    ensures FieldsOf(KeyboardDeclared(), Input, 6, Nil) == Cons(LedField(Input, 6), Cons(LedPadding(Input, 6), Nil))
  {
  }

  /** Both LED reports give usages 1 and 2 of the LED page the two low bits of the state. */
  lemma LedReportReads(kind: Kind, id: uint8, state: uint8, usage: Usage, value: int)
    requires (kind == Output && id == LED_OUTPUT_ID) || (kind == Input && id == LED_INPUT_ID)
    ensures Fills(KeyboardDeclared(), kind, LedReport(id, state))
    ensures Reports(KeyboardDeclared(), kind, LedReport(id, state), usage, value)
       <==> usage.page == 0x08 && 1 <= usage.id <= 2 && value == BitValue(state as nat, usage.id - 1)
  {
    var data := ReportData(KeyboardDeclared(), LedReport(id, state));
    LedFields();
    ByteHolds(data, 0);
    BitFieldSays(LedField(kind, id as nat), 0, data, state as nat, 1, usage, value);
    var padding := LedPadding(kind, id as nat);
    assert !AnySays(Cons(padding, Nil), 2, data, usage, value);
  }

  // ---------------------------------------------------------------- the pointing report

  lemma PointingInputFields()
    ensures FieldsOf(PointingDeclared(), Input, 0, Nil)
         == Cons(BUTTON_FIELD, Cons(POSITION_FIELD, Cons(WHEEL_FIELD, Cons(PAN_FIELD, Nil))))
    ensures FieldsOf(PointingDeclared(), Feature, 0, Nil)
         == Cons(MULTIPLIER_FIELD, Cons(MULTIPLIER_FIELD, Cons(FEATURE_PADDING, Nil)))
  {
  }

  lemma ButtonBits(data: seq<nat>, w: nat)
    requires |data| == 8 && data[0] == w % 256 && data[1] == w / 256 % 256
    requires data[2] == w / 256 / 256 % 256 && data[3] == w / 256 / 256 / 256
    ensures HoldsAt(data, 0, w, 32)
  {
    ByteHolds(data, 0);
    ByteHolds(data, 1);
    ByteHolds(data, 2);
    ByteHolds(data, 3);
    HoldsBoth(data, 16, w / 256 / 256, 8);
    HoldsBoth(data, 8, w / 256, 16);
    HoldsBoth(data, 0, w, 24);
  }

  /** `byte` moves the axis `usage` by `value`; 0x80 is outside the logical range and moves nothing. */
  predicate Moves(byte: uint8, page: nat, id: nat, usage: Usage, value: int) {
    usage == Usage(page, id) && byte != 0x80 && value == Signed(byte as nat, 0x80)
  }

  /** The null value 0x80 is the only one out of range. */
  lemma AxisRange(f: Field, byte: uint8)
    requires f == POSITION_FIELD || f == WHEEL_FIELD || f == PAN_FIELD
    ensures InRange(f, Signed(byte as nat, 0x80)) <==> byte != 0x80
  {
  }

  lemma AxisShape(f: Field)
    requires f == WHEEL_FIELD || f == PAN_FIELD
    ensures !IsConstant(f) && IsVariable(f) && f.count == 1 && f.size == 8 && f.logicalMin < 0
  {
  }

  lemma AxisSays(f: Field, k: nat, data: seq<nat>, byte: uint8, usage: Usage, value: int)
    requires (f == WHEEL_FIELD || f == PAN_FIELD) && k < |data| && data[k] == byte as nat
    ensures Says(f, 8 * k, data, usage, value) <==> Moves(byte, f.page, f.usages.head.from, usage, value)
  {
    AxisShape(f);
    ByteSays(f, k, data, byte, usage, value);
    AxisRange(f, byte);
    AxisUsage(f);
  }

  lemma ByteSays(f: Field, k: nat, data: seq<nat>, byte: uint8, usage: Usage, value: int)
    requires !IsConstant(f) && IsVariable(f) && f.count == 1 && f.size == 8 && f.logicalMin < 0
    requires k < |data| && data[k] == byte as nat
    ensures Says(f, 8 * k, data, usage, value)
       <==> usage == Usage(f.page, UsageAt(f.usages, 0)) && InRange(f, value) && value == Signed(byte as nat, 0x80)
  {
    SignedByteElement(f, data, k, 0);
    OneElementSays(f, 8 * k, data, Signed(byte as nat, 0x80), usage, value);
  }

  lemma AxisUsage(f: Field)
    requires f == WHEEL_FIELD || f == PAN_FIELD
    ensures UsageAt(f.usages, 0) == f.usages.head.from
  {
  }

  lemma PositionShape()
    ensures var f := POSITION_FIELD;
            !IsConstant(f) && IsVariable(f) && f.count == 2 && f.size == 8 && f.logicalMin < 0
  {
  }

  lemma PositionSays(f: Field, k: nat, data: seq<nat>, x: uint8, y: uint8, usage: Usage, value: int)
    requires f == POSITION_FIELD && k + 1 < |data| && data[k] == x as nat && data[k + 1] == y as nat
    ensures Says(f, 8 * k, data, usage, value) <==> Moves(x, 1, 0x30, usage, value) || Moves(y, 1, 0x31, usage, value)
  {
    PositionShape();
    PairSays(f, k, data, x, y, usage, value);
    PositionMeans(f, x, y, usage, value);
  }

  lemma PairSays(f: Field, k: nat, data: seq<nat>, x: uint8, y: uint8, usage: Usage, value: int)
    requires !IsConstant(f) && IsVariable(f) && f.count == 2 && f.size == 8 && f.logicalMin < 0
    requires k + 1 < |data| && data[k] == x as nat && data[k + 1] == y as nat
    ensures Says(f, 8 * k, data, usage, value)
       <==> (InRange(f, value)
             && ((usage == Usage(f.page, UsageAt(f.usages, 0)) && value == Signed(x as nat, 0x80))
                 || (usage == Usage(f.page, UsageAt(f.usages, 1)) && value == Signed(y as nat, 0x80))))
  {
    SignedByteElement(f, data, k, 0);
    SignedByteElement(f, data, k, 1);
    TwoElementsSay(f, 8 * k, data, Signed(x as nat, 0x80), Signed(y as nat, 0x80), usage, value);
  }

  lemma PositionMeans(f: Field, x: uint8, y: uint8, usage: Usage, value: int)
    requires f == POSITION_FIELD
    ensures (InRange(f, value)
             && ((usage == Usage(f.page, UsageAt(f.usages, 0)) && value == Signed(x as nat, 0x80))
                 || (usage == Usage(f.page, UsageAt(f.usages, 1)) && value == Signed(y as nat, 0x80))))
       <==> Moves(x, 1, 0x30, usage, value) || Moves(y, 1, 0x31, usage, value)
  {
    AxisRange(f, x);
    AxisRange(f, y);
    PositionUsages();
  }

  lemma PositionUsages()
    ensures UsageAt(POSITION_FIELD.usages, 0) == 0x30 && UsageAt(POSITION_FIELD.usages, 1) == 0x31
  {
  }

  predicate IsPressed(buttons: uint32, usage: Usage, value: int) {
    usage.page == 0x09 && 1 <= usage.id <= 32 && value == BitValue(buttons as nat, usage.id - 1)
  }

  /** Main result: a host reads from the pointing report the 32 buttons and the four signed movements. */
  lemma PointingReportReads(buttons: uint32, x: uint8, y: uint8, vertical: uint8, horizontal: uint8, usage: Usage, value: int)
    ensures var report := PointingReport(buttons, x, y, vertical, horizontal);
            |report| == 8 && Fills(PointingDeclared(), Input, report)
    ensures Reports(PointingDeclared(), Input, PointingReport(buttons, x, y, vertical, horizontal), usage, value)
       <==> (IsPressed(buttons, usage, value)
             || Moves(x, 0x01, 0x30, usage, value) || Moves(y, 0x01, 0x31, usage, value)
             || Moves(vertical, 0x01, 0x38, usage, value) || Moves(horizontal, 0x0c, 0x238, usage, value))
  {
    PointingInputFields();
    var data := ReportData(PointingDeclared(), PointingReport(buttons, x, y, vertical, horizontal));
    PointingFieldsSay(data, buttons, x, y, vertical, horizontal, usage, value);
  }

  lemma PointingFieldsSay(data: seq<nat>, buttons: uint32, x: uint8, y: uint8, vertical: uint8, horizontal: uint8, usage: Usage, value: int)
    requires data == Payload(PointingReport(buttons, x, y, vertical, horizontal))
    ensures AnySays(Cons(BUTTON_FIELD, Cons(POSITION_FIELD, Cons(WHEEL_FIELD, Cons(PAN_FIELD, Nil)))), 0, data, usage, value)
       <==> (IsPressed(buttons, usage, value)
             || Moves(x, 0x01, 0x30, usage, value) || Moves(y, 0x01, 0x31, usage, value)
             || Moves(vertical, 0x01, 0x38, usage, value) || Moves(horizontal, 0x0c, 0x238, usage, value))
  {
    ButtonBits(data, buttons as nat);
    BitFieldSays(BUTTON_FIELD, 0, data, buttons as nat, 1, usage, value);
    PositionSays(POSITION_FIELD, 4, data, x, y, usage, value);
    AxisSays(WHEEL_FIELD, 6, data, vertical, usage, value);
    AxisSays(PAN_FIELD, 7, data, horizontal, usage, value);
    TwoSay(WHEEL_FIELD, PAN_FIELD, 48, data, usage, value);
    assert AnySays(Cons(POSITION_FIELD, Cons(WHEEL_FIELD, Cons(PAN_FIELD, Nil))), 32, data, usage, value)
      == (Says(POSITION_FIELD, 32, data, usage, value) || AnySays(Cons(WHEEL_FIELD, Cons(PAN_FIELD, Nil)), 48, data, usage, value));
  }
}
