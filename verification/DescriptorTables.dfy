/** The report descriptors of the two devices, and the fields that a host finds in them. */
module DescriptorTables {
  import opened HidDescriptor

  // ---------------------------------------------------------------- the tables, in sections

  function KeyboardHeader(): Items {
    I1(0x05, 0x01, // usage page
    I1(0x09, 0x06, // usage
    I1(0xa1, 0x01, // collection
    I1(0x85, 0x01, // report id
    I1(0x05, 0x07, End)))))
  }

  function KeyboardModifiers(): Items {
    I1(0x19, 0xe0, // usage minimum
    I1(0x29, 0xe7, // usage maximum
    I1(0x15, 0x00, // logical minimum
    I1(0x25, 0x01, // logical maximum
    I1(0x75, 0x01, // report size
    I1(0x95, 0x08, // report count
    I1(0x81, 0x02, End)))))))
  }

  function KeyboardReserved(): Items {
    I1(0x95, 0x01, // report count
    I1(0x75, 0x08, // report size
    I1(0x81, 0x01, End)))
  }

  function KeyboardKeysRange(): Items {
    I1(0x95, 0x20, // report count
    I1(0x75, 0x10, // report size
    I1(0x15, 0x00, // logical minimum
    I2(0x26, 0xff, 0x00, End))))
  }

  function KeyboardKeys(): Items {
    I1(0x05, 0x07, // usage page
    I1(0x19, 0x00, // usage minimum
    I2(0x2a, 0xff, 0x00, // usage maximum
    I1(0x81, 0x00, // input
    I0(0xc0, End)))))
  }

  function ConsumerHeader(): Items {
    I1(0x05, 0x0c, // usage page
    I1(0x09, 0x01, // usage
    I1(0xa1, 0x01, // collection
    I1(0x85, 0x02, // report id
    I1(0x05, 0x0c, // usage page
    I1(0x95, 0x20, // report count
    I1(0x75, 0x10, End)))))))
  }

  function ConsumerKeys(): Items {
    I1(0x15, 0x00, // logical minimum
    I2(0x26, 0x00, 0x03, // logical maximum
    I1(0x19, 0x00, // usage minimum
    I2(0x2a, 0x00, 0x03, // usage maximum
    I1(0x81, 0x00, // input
    I0(0xc0, End))))))
  }

  function TopCaseHeader(): Items {
    I2(0x06, 0x00, 0xff, // usage page
    I1(0x09, 0x01, // usage
    I1(0xa1, 0x01, // collection
    I1(0x85, 0x03, // report id
    I1(0x05, 0xff, // usage page
    I1(0x95, 0x20, // report count
    I1(0x75, 0x10, End)))))))
  }

  function TopCaseKeys(): Items {
    I1(0x15, 0x00, // logical minimum
    I2(0x26, 0xff, 0x00, // logical maximum
    I1(0x19, 0x00, // usage minimum
    I2(0x2a, 0xff, 0x00, // usage maximum
    I1(0x81, 0x00, // input
    I0(0xc0, End))))))
  }

  function VendorKeyboardHeader(): Items {
    I2(0x06, 0x00, 0xff, // usage page
    I1(0x09, 0x06, // usage
    I1(0xa1, 0x01, // collection
    I1(0x85, 0x04, // report id
    I2(0x06, 0x01, 0xff, // usage page
    I1(0x95, 0x20, // report count
    I1(0x75, 0x10, End)))))))
  }

  function VendorKeyboardKeys(): Items {
    I1(0x15, 0x00, // logical minimum
    I2(0x26, 0xff, 0x00, // logical maximum
    I1(0x19, 0x00, // usage minimum
    I2(0x2a, 0xff, 0x00, // usage maximum
    I1(0x81, 0x00, // input
    I0(0xc0, End))))))
  }

  function LedOutputHeader(): Items {
    I1(0x05, 0x01, // usage page
    I1(0x09, 0x06, // usage
    I1(0xa1, 0x01, // collection
    I1(0x85, 0x05, End))))
  }

  function LedOutputStates(): Items {
    I1(0x05, 0x08, // usage page
    I1(0x95, 0x02, // report count
    I1(0x75, 0x01, // report size
    I1(0x19, 0x01, // usage minimum
    I1(0x29, 0x02, // usage maximum
    I1(0x91, 0x02, End))))))
  }

  function LedOutputPadding(): Items {
    I1(0x95, 0x01, // report count
    I1(0x75, 0x06, // report size
    I1(0x91, 0x01, // output
    I0(0xc0, End))))
  }

  function LedInputHeader(): Items {
    I1(0x05, 0x01, // usage page
    I1(0x09, 0x06, // usage
    I1(0xa1, 0x01, // collection
    I1(0x85, 0x06, End))))
  }

  function LedInputStates(): Items {
    I1(0x05, 0x08, // usage page
    I1(0x95, 0x02, // report count
    I1(0x75, 0x01, // report size
    I1(0x19, 0x01, // usage minimum
    I1(0x29, 0x02, // usage maximum
    I1(0x81, 0x02, End))))))
  }

  function LedInputPadding(): Items {
    I1(0x95, 0x01, // report count
    I1(0x75, 0x06, // report size
    I1(0x81, 0x01, // input
    I0(0xc0, End))))
  }

  function DesktopHeader(): Items {
    I1(0x05, 0x01, // usage page
    I1(0x09, 0x06, // usage
    I1(0xa1, 0x01, // collection
    I1(0x85, 0x07, // report id
    I1(0x05, 0x01, // usage page
    I1(0x95, 0x20, // report count
    I1(0x75, 0x10, End)))))))
  }

  function DesktopKeys(): Items {
    I1(0x15, 0x00, // logical minimum
    I2(0x26, 0xff, 0x00, // logical maximum
    I1(0x19, 0x00, // usage minimum
    I2(0x2a, 0xff, 0x00, // usage maximum
    I1(0x81, 0x00, // input
    I0(0xc0, End))))))
  }

  function PointingHeader(): Items {
    I1(0x05, 0x01, // usage page
    I1(0x09, 0x02, // usage
    I1(0xa1, 0x01, // collection
    I1(0x09, 0x02, // usage
    I1(0xa1, 0x02, // collection
    I1(0x09, 0x01, // usage
    I1(0xa1, 0x00, // collection
    I1(0x05, 0x09, End))))))))
  }

  function PointingButtons(): Items {
    I1(0x19, 0x01, // usage minimum
    I1(0x29, 0x20, // usage maximum
    I1(0x15, 0x00, // logical minimum
    I1(0x25, 0x01, // logical maximum
    I1(0x75, 0x01, // report size
    I1(0x95, 0x20, // report count
    I1(0x81, 0x02, End)))))))
  }

  function PointingPosition(): Items {
    I1(0x05, 0x01, // usage page
    I1(0x09, 0x30, // usage
    I1(0x09, 0x31, // usage
    I1(0x15, 0x81, // logical minimum
    I1(0x25, 0x7f, // logical maximum
    I1(0x75, 0x08, // report size
    I1(0x95, 0x02, // report count
    I1(0x81, 0x06, End))))))))
  }

  function VerticalMultiplierRange(): Items {
    I1(0xa1, 0x02, // collection
    I1(0x09, 0x48, // usage
    I1(0x15, 0x00, // logical minimum
    I1(0x25, 0x01, // logical maximum
    I1(0x35, 0x01, // physical minimum
    I1(0x45, 0x04, End))))))
  }

  function VerticalMultiplier(): Items {
    I1(0x75, 0x02, // report size
    I1(0x95, 0x01, // report count
    I0(0xa4, // push
    I1(0xb1, 0x02, End))))
  }

  function VerticalWheel(): Items {
    I1(0x09, 0x38, // usage
    I1(0x15, 0x81, // logical minimum
    I1(0x25, 0x7f, // logical maximum
    I1(0x35, 0x00, // physical minimum
    I1(0x45, 0x00, // physical maximum
    I1(0x75, 0x08, // report size
    I1(0x81, 0x06, // input
    I0(0xc0, End))))))))
  }

  function HorizontalMultiplier(): Items {
    I1(0xa1, 0x02, // collection
    I1(0x09, 0x48, // usage
    I0(0xb4, // pop
    I1(0xb1, 0x02, End))))
  }

  function FeaturePadding(): Items {
    I1(0x35, 0x00, // physical minimum
    I1(0x45, 0x00, // physical maximum
    I1(0x75, 0x04, // report size
    I1(0xb1, 0x03, End))))
  }

  function HorizontalWheel(): Items {
    I1(0x05, 0x0c, // usage page
    I2(0x0a, 0x38, 0x02, // usage
    I1(0x15, 0x81, // logical minimum
    I1(0x25, 0x7f, // logical maximum
    I1(0x75, 0x08, // report size
    I1(0x81, 0x06, // input
    I0(0xc0, End)))))))
  }

  function PointingEnd(): Items {
    I0(0xc0, // end collection
    I0(0xc0, // end collection
    I0(0xc0, End)))
  }

  function KeyboardCollection(rest: List<Items>): List<Items> {
    Cons(KeyboardHeader(), KeyboardBody(rest))
  }

  function KeyboardBody(rest: List<Items>): List<Items> {
    Cons(KeyboardModifiers(), Cons(KeyboardReserved(), KeyboardArray(rest)))
  }

  function KeyboardArray(rest: List<Items>): List<Items> {
    Cons(KeyboardKeysRange(), Cons(KeyboardKeys(), rest))
  }

  function ConsumerCollection(rest: List<Items>): List<Items> {
    Cons(ConsumerHeader(), Cons(ConsumerKeys(), rest))
  }

  function TopCaseCollection(rest: List<Items>): List<Items> {
    Cons(TopCaseHeader(), Cons(TopCaseKeys(), rest))
  }

  function VendorKeyboardCollection(rest: List<Items>): List<Items> {
    Cons(VendorKeyboardHeader(), Cons(VendorKeyboardKeys(), rest))
  }

  function LedOutputCollection(rest: List<Items>): List<Items> {
    Cons(LedOutputHeader(), LedOutputBody(rest))
  }

  function LedOutputBody(rest: List<Items>): List<Items> {
    Cons(LedOutputStates(), Cons(LedOutputPadding(), rest))
  }

  function LedInputCollection(rest: List<Items>): List<Items> {
    Cons(LedInputHeader(), LedInputBody(rest))
  }

  function LedInputBody(rest: List<Items>): List<Items> {
    Cons(LedInputStates(), Cons(LedInputPadding(), rest))
  }

  function DesktopCollection(rest: List<Items>): List<Items> {
    Cons(DesktopHeader(), Cons(DesktopKeys(), rest))
  }

  /** The keyboard's table. */
  function KeyboardTable(): List<Items> {
    KeyboardCollection(ConsumerCollection(TopCaseCollection(VendorKeyboardCollection(
      LedOutputCollection(LedInputCollection(DesktopCollection(Nil)))))))
  }

  /** The pointing device's table. */
  function PointingTable(): List<Items> {
    Cons(PointingHeader(), Cons(PointingButtons(), Cons(PointingPosition(), Cons(VerticalMultiplierRange(),
      Cons(VerticalMultiplier(), PointingTableEnd())))))
  }

  function PointingTableEnd(): List<Items> {
    Cons(VerticalWheel(), Cons(HorizontalMultiplier(), Cons(FeaturePadding(), Cons(HorizontalWheel(), Cons(PointingEnd(), Nil)))))
  }

  // ---------------------------------------------------------------- the fields they declare

  const MODIFIER_FIELD := Field(Input, 1, 1, 8, 2, 0x07, Cons(Range(0xe0, 0xe7), Nil), 0, 1)
  const RESERVED_FIELD := Field(Input, 1, 8, 1, 1, 0x07, Nil, 0, 1)

  /** 32 array elements of 16 bits. */
  function KeysField(reportId: nat, page: nat, max: nat): Field {
    Field(Input, reportId, 16, 32, 0, page, Cons(Range(0, max), Nil), 0, max)
  }

  /** The LED collections do not set a logical range, so 0 to 255 is carried over from the collection before. */
  function LedField(kind: Kind, reportId: nat): Field {
    Field(kind, reportId, 1, 2, 2, 0x08, Cons(Range(1, 2), Nil), 0, 255)
  }

  function LedPadding(kind: Kind, reportId: nat): Field {
    Field(kind, reportId, 6, 1, 1, 0x08, Nil, 0, 255)
  }

  /** A state between two fields: no usages are pending. */
  function Inside(global: Global, stack: List<Global>, depth: int, fields: List<Field>): State {
    State(global, stack, Nil, 0, depth, fields)
  }

  const BUTTON_FIELD := Field(Input, 0, 1, 32, 2, 0x09, Cons(Range(1, 32), Nil), 0, 1)
  const POSITION_FIELD := Field(Input, 0, 8, 2, 6, 0x01, Cons(Range(0x30, 0x30), Cons(Range(0x31, 0x31), Nil)), -127, 127)
  const WHEEL_FIELD := Field(Input, 0, 8, 1, 6, 0x01, Cons(Range(0x38, 0x38), Nil), -127, 127)
  const PAN_FIELD := Field(Input, 0, 8, 1, 6, 0x0c, Cons(Range(0x238, 0x238), Nil), -127, 127)
  const MULTIPLIER_FIELD := Field(Feature, 0, 2, 1, 2, 0x01, Cons(Range(0x48, 0x48), Nil), 0, 1)
  const FEATURE_PADDING := Field(Feature, 0, 4, 1, 3, 0x01, Nil, 0, 1)

  lemma KeyboardHeaderFields(fields: List<Field>)
    ensures Interpret(KeyboardHeader(), Inside(Global(0, 0, 0, 0, 0, 0), Nil, 0, fields))
         == Inside(Global(7, 0, 0, 0, 0, 1), Nil, 1, fields)
  {
  }

  lemma KeyboardModifiersFields(fields: List<Field>)
    ensures Interpret(KeyboardModifiers(), Inside(Global(7, 0, 0, 0, 0, 1), Nil, 1, fields))
         == Inside(Global(7, 0, 1, 1, 8, 1), Nil, 1, Cons(MODIFIER_FIELD, fields))
  {
  }

  lemma KeyboardReservedFields(fields: List<Field>)
    ensures Interpret(KeyboardReserved(), Inside(Global(7, 0, 1, 1, 8, 1), Nil, 1, fields))
         == Inside(Global(7, 0, 1, 8, 1, 1), Nil, 1, Cons(RESERVED_FIELD, fields))
  {
  }

  lemma KeyboardKeysRangeFields(fields: List<Field>)
    ensures Interpret(KeyboardKeysRange(), Inside(Global(7, 0, 1, 8, 1, 1), Nil, 1, fields))
         == Inside(Global(7, 0, 255, 16, 32, 1), Nil, 1, fields)
  {
  }

  lemma KeyboardKeysFields(fields: List<Field>)
    ensures Interpret(KeyboardKeys(), Inside(Global(7, 0, 255, 16, 32, 1), Nil, 1, fields))
         == Inside(Global(7, 0, 255, 16, 32, 1), Nil, 0, Cons(KeysField(1, 0x07, 255), fields))
  {
  }

  lemma ConsumerHeaderFields(fields: List<Field>)
    ensures Interpret(ConsumerHeader(), Inside(Global(7, 0, 255, 16, 32, 1), Nil, 0, fields))
         == Inside(Global(0xc, 0, 255, 16, 32, 2), Nil, 1, fields)
  {
  }

  lemma ConsumerKeysFields(fields: List<Field>)
    ensures Interpret(ConsumerKeys(), Inside(Global(0xc, 0, 255, 16, 32, 2), Nil, 1, fields))
         == Inside(Global(0xc, 0, 768, 16, 32, 2), Nil, 0, Cons(KeysField(2, 0x0c, 768), fields))
  {
  }

  lemma TopCaseHeaderFields(fields: List<Field>)
    ensures Interpret(TopCaseHeader(), Inside(Global(0xc, 0, 768, 16, 32, 2), Nil, 0, fields))
         == Inside(Global(0xff, 0, 768, 16, 32, 3), Nil, 1, fields)
  {
  }

  lemma TopCaseKeysFields(fields: List<Field>)
    ensures Interpret(TopCaseKeys(), Inside(Global(0xff, 0, 768, 16, 32, 3), Nil, 1, fields))
         == Inside(Global(0xff, 0, 255, 16, 32, 3), Nil, 0, Cons(KeysField(3, 0xff, 255), fields))
  {
  }

  lemma VendorKeyboardHeaderFields(fields: List<Field>)
    ensures Interpret(VendorKeyboardHeader(), Inside(Global(0xff, 0, 255, 16, 32, 3), Nil, 0, fields))
         == Inside(Global(0xff01, 0, 255, 16, 32, 4), Nil, 1, fields)
  {
  }

  lemma VendorKeyboardKeysFields(fields: List<Field>)
    ensures Interpret(VendorKeyboardKeys(), Inside(Global(0xff01, 0, 255, 16, 32, 4), Nil, 1, fields))
         == Inside(Global(0xff01, 0, 255, 16, 32, 4), Nil, 0, Cons(KeysField(4, 0xff01, 255), fields))
  {
  }

  lemma LedOutputHeaderFields(fields: List<Field>)
    ensures Interpret(LedOutputHeader(), Inside(Global(0xff01, 0, 255, 16, 32, 4), Nil, 0, fields))
         == Inside(Global(1, 0, 255, 16, 32, 5), Nil, 1, fields)
  {
  }

  lemma LedOutputStatesFields(fields: List<Field>)
    ensures Interpret(LedOutputStates(), Inside(Global(1, 0, 255, 16, 32, 5), Nil, 1, fields))
         == Inside(Global(8, 0, 255, 1, 2, 5), Nil, 1, Cons(LedField(Output, 5), fields))
  {
  }

  lemma LedOutputPaddingFields(fields: List<Field>)
    ensures Interpret(LedOutputPadding(), Inside(Global(8, 0, 255, 1, 2, 5), Nil, 1, fields))
         == Inside(Global(8, 0, 255, 6, 1, 5), Nil, 0, Cons(LedPadding(Output, 5), fields))
  {
  }

  lemma LedInputHeaderFields(fields: List<Field>)
    ensures Interpret(LedInputHeader(), Inside(Global(8, 0, 255, 6, 1, 5), Nil, 0, fields))
         == Inside(Global(1, 0, 255, 6, 1, 6), Nil, 1, fields)
  {
  }

  lemma LedInputStatesFields(fields: List<Field>)
    ensures Interpret(LedInputStates(), Inside(Global(1, 0, 255, 6, 1, 6), Nil, 1, fields))
         == Inside(Global(8, 0, 255, 1, 2, 6), Nil, 1, Cons(LedField(Input, 6), fields))
  {
  }

  lemma LedInputPaddingFields(fields: List<Field>)
    ensures Interpret(LedInputPadding(), Inside(Global(8, 0, 255, 1, 2, 6), Nil, 1, fields))
         == Inside(Global(8, 0, 255, 6, 1, 6), Nil, 0, Cons(LedPadding(Input, 6), fields))
  {
  }

  lemma DesktopHeaderFields(fields: List<Field>)
    ensures Interpret(DesktopHeader(), Inside(Global(8, 0, 255, 6, 1, 6), Nil, 0, fields))
         == Inside(Global(1, 0, 255, 16, 32, 7), Nil, 1, fields)
  {
  }

  lemma DesktopKeysFields(fields: List<Field>)
    ensures Interpret(DesktopKeys(), Inside(Global(1, 0, 255, 16, 32, 7), Nil, 1, fields))
         == Inside(Global(1, 0, 255, 16, 32, 7), Nil, 0, Cons(KeysField(7, 0x01, 255), fields))
  {
  }

  lemma PointingHeaderFields(fields: List<Field>)
    ensures Interpret(PointingHeader(), Inside(Global(0, 0, 0, 0, 0, 0), Nil, 0, fields))
         == Inside(Global(9, 0, 0, 0, 0, 0), Nil, 3, fields)
  {
  }

  lemma PointingButtonsFields(fields: List<Field>)
    ensures Interpret(PointingButtons(), Inside(Global(9, 0, 0, 0, 0, 0), Nil, 3, fields))
         == Inside(Global(9, 0, 1, 1, 32, 0), Nil, 3, Cons(BUTTON_FIELD, fields))
  {
  }

  lemma PointingPositionFields(fields: List<Field>)
    ensures Interpret(PointingPosition(), Inside(Global(9, 0, 1, 1, 32, 0), Nil, 3, fields))
         == Inside(Global(1, -127, 127, 8, 2, 0), Nil, 3, Cons(POSITION_FIELD, fields))
  {
  }

  lemma VerticalMultiplierRangeFields(fields: List<Field>)
    ensures Interpret(VerticalMultiplierRange(), Inside(Global(1, -127, 127, 8, 2, 0), Nil, 3, fields))
         == State(Global(1, 0, 1, 8, 2, 0), Nil, Cons(Range(72, 72), Nil), 0, 4, fields)
  {
  }

  lemma VerticalMultiplierFields(fields: List<Field>)
    ensures Interpret(VerticalMultiplier(), State(Global(1, 0, 1, 8, 2, 0), Nil, Cons(Range(72, 72), Nil), 0, 4, fields))
         == Inside(Global(1, 0, 1, 2, 1, 0), Cons(Global(1, 0, 1, 2, 1, 0), Nil), 4, Cons(MULTIPLIER_FIELD, fields))
  {
  }

  lemma VerticalWheelFields(fields: List<Field>)
    ensures Interpret(VerticalWheel(), Inside(Global(1, 0, 1, 2, 1, 0), Cons(Global(1, 0, 1, 2, 1, 0), Nil), 4, fields))
         == Inside(Global(1, -127, 127, 8, 1, 0), Cons(Global(1, 0, 1, 2, 1, 0), Nil), 3, Cons(WHEEL_FIELD, fields))
  {
  }

  lemma HorizontalMultiplierFields(fields: List<Field>)
    ensures Interpret(HorizontalMultiplier(), Inside(Global(1, -127, 127, 8, 1, 0), Cons(Global(1, 0, 1, 2, 1, 0), Nil), 3, fields))
         == Inside(Global(1, 0, 1, 2, 1, 0), Nil, 4, Cons(MULTIPLIER_FIELD, fields))
  {
  }

  lemma FeaturePaddingFields(fields: List<Field>)
    ensures Interpret(FeaturePadding(), Inside(Global(1, 0, 1, 2, 1, 0), Nil, 4, fields))
         == Inside(Global(1, 0, 1, 4, 1, 0), Nil, 4, Cons(FEATURE_PADDING, fields))
  {
  }

  lemma HorizontalWheelFields(fields: List<Field>)
    ensures Interpret(HorizontalWheel(), Inside(Global(1, 0, 1, 4, 1, 0), Nil, 4, fields))
         == Inside(Global(0xc, -127, 127, 8, 1, 0), Nil, 3, Cons(PAN_FIELD, fields))
  {
  }

  lemma PointingEndFields(fields: List<Field>)
    ensures Interpret(PointingEnd(), Inside(Global(0xc, -127, 127, 8, 1, 0), Nil, 3, fields))
         == Inside(Global(0xc, -127, 127, 8, 1, 0), Nil, 0, fields)
  {
  }

  lemma KeyboardBodyFields(rest: List<Items>, fields: List<Field>)
    ensures InterpretAll(KeyboardBody(rest), Inside(Global(7, 0, 0, 0, 0, 1), Nil, 1, fields))
         == InterpretAll(rest, Inside(Global(7, 0, 255, 16, 32, 1), Nil, 0, Cons(KeysField(1, 0x07, 255), Cons(RESERVED_FIELD, Cons(MODIFIER_FIELD, fields)))))
  {
    KeyboardModifiersFields(fields);
    KeyboardReservedFields(Cons(MODIFIER_FIELD, fields));
    KeyboardArrayFields(rest, Cons(RESERVED_FIELD, Cons(MODIFIER_FIELD, fields)));
  }

  lemma KeyboardArrayFields(rest: List<Items>, fields: List<Field>)
    ensures InterpretAll(KeyboardArray(rest), Inside(Global(7, 0, 1, 8, 1, 1), Nil, 1, fields))
         == InterpretAll(rest, Inside(Global(7, 0, 255, 16, 32, 1), Nil, 0, Cons(KeysField(1, 0x07, 255), fields)))
  {
    KeyboardKeysRangeFields(fields);
    KeyboardKeysFields(fields);
  }

  lemma KeyboardCollectionFields(rest: List<Items>, fields: List<Field>)
    ensures InterpretAll(KeyboardCollection(rest), Inside(Global(0, 0, 0, 0, 0, 0), Nil, 0, fields))
         == InterpretAll(rest, Inside(Global(7, 0, 255, 16, 32, 1), Nil, 0, Cons(KeysField(1, 0x07, 255), Cons(RESERVED_FIELD, Cons(MODIFIER_FIELD, fields)))))
  {
    var start := Inside(Global(0, 0, 0, 0, 0, 0), Nil, 0, fields);
    var afterHeader := Inside(Global(7, 0, 0, 0, 0, 1), Nil, 1, fields);
    KeyboardHeaderFields(fields);
    NextSection(KeyboardHeader(), KeyboardBody(rest), start, afterHeader);
    KeyboardBodyFields(rest, fields);
  }

  lemma ConsumerCollectionFields(rest: List<Items>, fields: List<Field>)
    ensures InterpretAll(ConsumerCollection(rest), Inside(Global(7, 0, 255, 16, 32, 1), Nil, 0, fields))
         == InterpretAll(rest, Inside(Global(0xc, 0, 768, 16, 32, 2), Nil, 0, Cons(KeysField(2, 0x0c, 768), fields)))
  {
    ConsumerHeaderFields(fields);
    ConsumerKeysFields(fields);
  }

  lemma TopCaseCollectionFields(rest: List<Items>, fields: List<Field>)
    ensures InterpretAll(TopCaseCollection(rest), Inside(Global(0xc, 0, 768, 16, 32, 2), Nil, 0, fields))
         == InterpretAll(rest, Inside(Global(0xff, 0, 255, 16, 32, 3), Nil, 0, Cons(KeysField(3, 0xff, 255), fields)))
  {
    TopCaseHeaderFields(fields);
    TopCaseKeysFields(fields);
  }

  lemma VendorKeyboardCollectionFields(rest: List<Items>, fields: List<Field>)
    ensures InterpretAll(VendorKeyboardCollection(rest), Inside(Global(0xff, 0, 255, 16, 32, 3), Nil, 0, fields))
         == InterpretAll(rest, Inside(Global(0xff01, 0, 255, 16, 32, 4), Nil, 0, Cons(KeysField(4, 0xff01, 255), fields)))
  {
    VendorKeyboardHeaderFields(fields);
    VendorKeyboardKeysFields(fields);
  }

  lemma LedOutputBodyFields(rest: List<Items>, fields: List<Field>)
    ensures InterpretAll(LedOutputBody(rest), Inside(Global(1, 0, 255, 16, 32, 5), Nil, 1, fields))
         == InterpretAll(rest, Inside(Global(8, 0, 255, 6, 1, 5), Nil, 0, Cons(LedPadding(Output, 5), Cons(LedField(Output, 5), fields))))
  {
    LedOutputStatesFields(fields);
    LedOutputPaddingFields(Cons(LedField(Output, 5), fields));
  }

  lemma LedOutputCollectionFields(rest: List<Items>, fields: List<Field>)
    ensures InterpretAll(LedOutputCollection(rest), Inside(Global(0xff01, 0, 255, 16, 32, 4), Nil, 0, fields))
         == InterpretAll(rest, Inside(Global(8, 0, 255, 6, 1, 5), Nil, 0, Cons(LedPadding(Output, 5), Cons(LedField(Output, 5), fields))))
  {
    LedOutputHeaderFields(fields);
    NextSection(LedOutputHeader(), LedOutputBody(rest), Inside(Global(0xff01, 0, 255, 16, 32, 4), Nil, 0, fields), Inside(Global(1, 0, 255, 16, 32, 5), Nil, 1, fields));
    LedOutputBodyFields(rest, fields);
  }

  lemma LedInputBodyFields(rest: List<Items>, fields: List<Field>)
    ensures InterpretAll(LedInputBody(rest), Inside(Global(1, 0, 255, 6, 1, 6), Nil, 1, fields))
         == InterpretAll(rest, Inside(Global(8, 0, 255, 6, 1, 6), Nil, 0, Cons(LedPadding(Input, 6), Cons(LedField(Input, 6), fields))))
  {
    LedInputStatesFields(fields);
    LedInputPaddingFields(Cons(LedField(Input, 6), fields));
  }

  lemma LedInputCollectionFields(rest: List<Items>, fields: List<Field>)
    ensures InterpretAll(LedInputCollection(rest), Inside(Global(8, 0, 255, 6, 1, 5), Nil, 0, fields))
         == InterpretAll(rest, Inside(Global(8, 0, 255, 6, 1, 6), Nil, 0, Cons(LedPadding(Input, 6), Cons(LedField(Input, 6), fields))))
  {
    LedInputHeaderFields(fields);
    NextSection(LedInputHeader(), LedInputBody(rest), Inside(Global(8, 0, 255, 6, 1, 5), Nil, 0, fields), Inside(Global(1, 0, 255, 6, 1, 6), Nil, 1, fields));
    LedInputBodyFields(rest, fields);
  }

  lemma DesktopCollectionFields(rest: List<Items>, fields: List<Field>)
    ensures InterpretAll(DesktopCollection(rest), Inside(Global(8, 0, 255, 6, 1, 6), Nil, 0, fields))
         == InterpretAll(rest, Inside(Global(1, 0, 255, 16, 32, 7), Nil, 0, Cons(KeysField(7, 0x01, 255), fields)))
  {
    DesktopHeaderFields(fields);
    DesktopKeysFields(fields);
  }

  /** The fields of the keyboard table, last one first. */
  function KeyboardDeclared(): List<Field> {
    Cons(KeysField(7, 0x01, 255), Cons(LedPadding(Input, 6), Cons(LedField(Input, 6), Cons(LedPadding(Output, 5),
    Cons(LedField(Output, 5), KeyboardDeclaredBeforeLeds())))))
  }

  function KeyboardDeclaredBeforeLeds(): List<Field> {
    Cons(KeysField(4, 0xff01, 255), Cons(KeysField(3, 0xff, 255), Cons(KeysField(2, 0x0c, 768),
    Cons(KeysField(1, 0x07, 255), Cons(RESERVED_FIELD, Cons(MODIFIER_FIELD, Nil))))))
  }

  /** Main result on the keyboard table: its collections and stack are balanced, and these are its fields. */
  lemma KeyboardFields()
    ensures Interpret(Join(KeyboardTable()), START) == Inside(Global(1, 0, 255, 16, 32, 7), Nil, 0, KeyboardDeclared())
  {
    InterpretJoin(KeyboardTable(), START);
    var r6 := DesktopCollection(Nil);
    var r5 := LedInputCollection(r6);
    var r4 := LedOutputCollection(r5);
    var r3 := VendorKeyboardCollection(r4);
    var r2 := TopCaseCollection(r3);
    var r1 := ConsumerCollection(r2);
    KeyboardCollectionFields(r1, Nil);
    var f1 := Cons(KeysField(1, 0x07, 255), Cons(RESERVED_FIELD, Cons(MODIFIER_FIELD, Nil)));
    ConsumerCollectionFields(r2, f1);
    var f2 := Cons(KeysField(2, 0x0c, 768), f1);
    TopCaseCollectionFields(r3, f2);
    var f3 := Cons(KeysField(3, 0xff, 255), f2);
    VendorKeyboardCollectionFields(r4, f3);
    var f4 := Cons(KeysField(4, 0xff01, 255), f3);
    LedOutputCollectionFields(r5, f4);
    var f5 := Cons(LedPadding(Output, 5), Cons(LedField(Output, 5), f4));
    LedInputCollectionFields(r6, f5);
    var f6 := Cons(LedPadding(Input, 6), Cons(LedField(Input, 6), f5));
    DesktopCollectionFields(Nil, f6);
  }

  function PointingDeclared(): List<Field> {
    Cons(PAN_FIELD, Cons(FEATURE_PADDING, Cons(MULTIPLIER_FIELD, Cons(WHEEL_FIELD,
    Cons(MULTIPLIER_FIELD, Cons(POSITION_FIELD, Cons(BUTTON_FIELD, Nil)))))))
  }

  /** Main result on the pointing table: Push and Pop give both multipliers the same range and size. */
  lemma PointingFields()
    ensures Interpret(Join(PointingTable()), START) == Inside(Global(0xc, -127, 127, 8, 1, 0), Nil, 0, PointingDeclared())
  {
    InterpretJoin(PointingTable(), START);
    PointingHeaderFields(Nil);
    PointingButtonsFields(Nil);
    var f1 := Cons(BUTTON_FIELD, Nil);
    PointingPositionFields(f1);
    var f2 := Cons(POSITION_FIELD, f1);
    VerticalMultiplierRangeFields(f2);
    VerticalMultiplierFields(f2);
    var f3 := Cons(MULTIPLIER_FIELD, f2);
    VerticalWheelFields(f3);
    var f4 := Cons(WHEEL_FIELD, f3);
    HorizontalMultiplierFields(f4);
    var f5 := Cons(MULTIPLIER_FIELD, f4);
    FeaturePaddingFields(f5);
    var f6 := Cons(FEATURE_PADDING, f5);
    HorizontalWheelFields(f6);
    var f7 := Cons(PAN_FIELD, f6);
    PointingEndFields(f7);
  }
}
