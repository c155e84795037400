/**
 * The column's observable behaviour, replayed as client code: each method
 * but RenormalizeConstant builds columns and buffers, runs the same sequence
 * of calls as one test of base-attribute.spec.js, and returns what that test
 * inspects. The postconditions are the test's expectations, proved from the
 * method contracts and function definitions of Columns. RenormalizeConstant
 * exercises a rule of the model that the test does not assert.
 */
module ColumnScenarios {
  import opened Wrappers
  import opened GLTypes
  import opened ConstantLayout
  import opened Columns

  /** value1 and value2 of the tests: two equal Float32Arrays. */
  const Value1 := RawValue(Float32Array, [0.0, 0.0, 0.0, 0.0, 1.0, 2.0, 3.0, 4.0])
  const Value2 := RawValue(Float32Array, [0.0, 0.0, 0.0, 0.0, 1.0, 2.0, 3.0, 4.0])

  const IdentityMatrix := RawValue(PlainArray,
    [1.0, 0.0, 0.0, 0.0, 0.0, 1.0, 0.0, 0.0, 0.0, 0.0, 1.0, 0.0, 0.0, 0.0, 0.0, 1.0])

  /** Construction defaults, delete of an owned and of a borrowed buffer, construction without a context. */
  method ConstructAndDelete() returns (
    target: Target, elementType: ElementType, divisor: nat,
    ownBufferCreated: bool, ownBufferReleased: bool, slotCleared: bool,
    indexedSlotEmpty: bool, indexedTarget: Target, externalLive: bool,
    indexedDefaultType: ElementType, detachedSlotEmpty: bool)
    ensures ownBufferCreated && target == ArrayBuffer && elementType == Float && divisor == 0
    ensures TargetCode(target) == 0x8892 && TypeCode(elementType) == 0x1406
    ensures ownBufferReleased && slotCleared
    ensures indexedSlotEmpty && indexedTarget == ElementArrayBuffer && externalLive
    ensures TargetCode(indexedTarget) == 0x8893
    ensures indexedDefaultType == UnsignedInt && TypeCode(indexedDefaultType) == 0x1405
    ensures detachedSlotEmpty
  {
    var attribute := new Column(true, false, NoOptions.(source := UseValue(Value1), size := Some(4)));
    var own := attribute.buffer;
    ownBufferCreated := own != null;
    target := attribute.Target();
    elementType := attribute.meta.elementType;
    divisor := attribute.meta.divisor;
    attribute.Delete();
    ownBufferReleased := own != null && own.released;
    slotCleared := attribute.buffer == null;

    var external := new Buffer(Some(Float), None);
    var indexed := new Column(true, true, NoOptions.(source := UseBuffer(external), size := Some(4)));
    indexedSlotEmpty := indexed.buffer == null;
    indexedTarget := indexed.Target();
    indexed.Delete();
    externalLive := !external.released;

    var pending := new Column(true, true, NoOptions.(size := Some(1)));
    indexedDefaultType := pending.meta.elementType;

    var detached := new Column(false, false, NoOptions.(source := UseValue(Value1), size := Some(4)));
    detachedSlotEmpty := detached.buffer == null;
  }

  /** A value update reuses the buffer; divisors come from options or from a buffer's accessor. */
  method UpdateValueAndDivisor() returns (bufferReused: bool, divisorSetTo1: nat, divisorSetTo0: nat, divisorFromBuffer: nat)
    ensures bufferReused
    ensures divisorSetTo1 == 1 && divisorSetTo0 == 0 && divisorFromBuffer == 1
  {
    var attribute := new Column(true, false, NoOptions.(source := UseValue(Value1), size := Some(4)));
    var own := attribute.buffer;
    attribute.Update(NoOptions.(source := UseValue(Value2)));
    bufferReused := own != null && attribute.buffer == own;

    attribute.Update(NoOptions.(divisor := Some(1)));
    divisorSetTo1 := attribute.meta.divisor;
    attribute.Update(NoOptions.(divisor := Some(0)));
    divisorSetTo0 := attribute.meta.divisor;

    var aggregation := new Buffer(Some(Float), Some(1));
    attribute.Update(NoOptions.(source := UseBuffer(aggregation)));
    divisorFromBuffer := attribute.meta.divisor;
    attribute.Delete();
  }

  /** The constants stored by normalized constant columns of each type. */
  method NormalizeConstants() returns (floats: seq<real>, ubytes: seq<real>, ushorts: seq<real>, bytes: seq<real>, shorts: seq<real>)
    ensures floats == [1.0, 2.0, 3.0]
    ensures ubytes == [1.0, 128.0 / 255.0, 0.0]
    ensures ushorts == [1.0, 255.0 / 65535.0, 0.0]
    ensures bytes == [-1.0, 1.0, 1.0 / 255.0]
    ensures shorts == [-1.0, 1.0 / 65535.0, 32769.0 / 65535.0]
  {
    Normalization.NormalizationTestValues();
    var constant := NoOptions.(size := Some(3), normalized := Some(true));
    var attribute := new Column(true, false, constant.(source := UseConstant(RawValue(PlainArray, [1.0, 2.0, 3.0]))));
    floats := attribute.value;
    attribute := new Column(true, false, constant.(elementType := Some(UnsignedByte),
      source := UseConstant(RawValue(Uint8ClampedArray, [255.0, 128.0, 0.0]))));
    ubytes := attribute.value;
    attribute := new Column(true, false, constant.(elementType := Some(UnsignedShort),
      source := UseConstant(RawValue(Uint16Array, [65535.0, 255.0, 0.0]))));
    ushorts := attribute.value;
    attribute := new Column(true, false, constant.(elementType := Some(Byte),
      source := UseConstant(RawValue(Int8Array, [-128.0, 127.0, 0.0]))));
    bytes := attribute.value;
    attribute := new Column(true, false, constant.(elementType := Some(Short),
      source := UseConstant(RawValue(Int16Array, [-32768.0, 0.0, 16384.0]))));
    shorts := attribute.value;
  }

  /** The three stored forms of the constant [127, 0] that RenormalizeConstant reads back. */
  lemma RenormalizedValues()
    ensures Normalization.NormalizeConstant(UnsignedByte, false, [127.0, 0.0]) == [127.0, 0.0]
    ensures Normalization.NormalizeConstant(UnsignedByte, true, [127.0, 0.0]) == [127.0 / 255.0, 0.0]
    ensures Normalization.NormalizeConstant(Byte, true, [127.0, 0.0]) == [1.0, 1.0 / 255.0]
  {
  }

  /**
   * A constant follows later changes of `normalized` and `type`: it is
   * re-derived from the caller's input, never from its normalized form.
   * This is a rule of the model, not a test of base-attribute.spec.js.
   */
  method RenormalizeConstant() returns (raw: seq<real>, asUnsignedByte: seq<real>, asByte: seq<real>)
    ensures raw == [127.0, 0.0]
    ensures asUnsignedByte == [127.0 / 255.0, 0.0]
    ensures asByte == [1.0, 1.0 / 255.0]
  {
    RenormalizedValues();
    var input := [127.0, 0.0];
    var attribute := new Column(true, false, NoOptions.(size := Some(2), elementType := Some(UnsignedByte),
      source := UseConstant(RawValue(PlainArray, input))));
    assert attribute.source.Constant? && attribute.constantInput == input;
    assert attribute.meta.elementType == UnsignedByte && !attribute.meta.normalized;
    raw := attribute.value;

    attribute.Update(NoOptions.(normalized := Some(true)));
    assert attribute.source.Constant? && attribute.constantInput == input;
    assert attribute.meta.elementType == UnsignedByte && attribute.meta.normalized;
    asUnsignedByte := attribute.value;

    attribute.Update(NoOptions.(elementType := Some(Byte)));
    assert attribute.source.Constant? && attribute.constantInput == input;
    assert attribute.meta.elementType == Byte && attribute.meta.normalized;
    asByte := attribute.value;
  }

  /** getBuffer() across owned, borrowed, owned, constant and borrowed again. */
  method GetBufferAcrossSources() returns (
    own1: Buffer?, got1: Buffer?, external: Buffer, got2: Buffer?,
    own3: Buffer?, got3: Buffer?, got4: Buffer?, got5: Buffer?)
    ensures own1 != null && got1 == own1
    ensures got2 == external
    ensures own3 != null && got3 == own3
    ensures got4 == null
    ensures got5 == external
  {
    var attribute := new Column(true, false, NoOptions.(source := UseValue(Value1), size := Some(4)));
    own1, got1 := attribute.buffer, attribute.GetBuffer();

    external := new Buffer(Some(Float), None);
    attribute.Update(NoOptions.(source := UseBuffer(external)));
    got2 := attribute.GetBuffer();

    attribute.Update(NoOptions.(source := UseValue(Value2)));
    own3, got3 := attribute.buffer, attribute.GetBuffer();

    attribute.Update(NoOptions.(source := UseConstant(RawValue(PlainArray, [0.0, 0.0, 0.0, 0.0]))));
    got4 := attribute.GetBuffer();

    attribute.Update(NoOptions.(source := UseBuffer(external)));
    got5 := attribute.GetBuffer();
    attribute.Delete();
  }

  /** getValue() across the same sequence; a constant comes back truncated to `size`. */
  method GetValueAcrossSources() returns (
    own1: Buffer?, got1: AttributeValue, external: Buffer, got2: AttributeValue,
    own3: Buffer?, got3: AttributeValue, got4: AttributeValue, got5: AttributeValue)
    ensures own1 != null && got1.BufferValue? && got1.buffer == own1
    ensures got2.BufferValue? && got2.buffer == external
    ensures own3 != null && got3.BufferValue? && got3.buffer == own3
    ensures got4 == ConstantValue(Value1.data[..4])
    ensures got5.BufferValue? && got5.buffer == external
  {
    var attribute := new Column(true, false, NoOptions.(source := UseValue(Value1), size := Some(4)));
    own1, got1 := attribute.buffer, attribute.GetValue();

    assert attribute.meta == Metadata(4, Float, false, 0, 0, 0);
    external := new Buffer(Some(Float), None);
    attribute.Update(NoOptions.(source := UseBuffer(external)));
    got2 := attribute.GetValue();

    attribute.Update(NoOptions.(source := UseValue(Value2)));
    own3, got3 := attribute.buffer, attribute.GetValue();

    Normalization.NormalizeConstantIdentity(Float, false, Value1.data);
    attribute.Update(NoOptions.(source := UseConstant(Value1)));
    assert attribute.meta == Metadata(4, Float, false, 0, 0, 0);
    assert attribute.source.Constant? && attribute.value == Value1.data;
    assert attribute.ElementOffset() == 0;
    got4 := attribute.GetValue();

    attribute.Update(NoOptions.(source := UseBuffer(external)));
    got5 := attribute.GetValue();
    attribute.Delete();
  }

  /** A constant read through a byte offset: rows of the identity matrix. */
  method ConstantWithOffset() returns (
    noOffset: AttributeValue, noOffsetElements: nat,
    floatOffset: AttributeValue, floatOffsetElements: nat,
    byteOffset: AttributeValue, byteOffsetElements: nat)
    ensures noOffset == ConstantValue([1.0, 0.0, 0.0, 0.0]) && noOffsetElements == 0
    ensures floatOffset == ConstantValue([0.0, 1.0, 0.0, 0.0]) && floatOffsetElements == 4
    ensures byteOffset == ConstantValue([0.0, 0.0, 1.0, 0.0]) && byteOffsetElements == 8
  {
    ElementOffsetTestValues();
    Normalization.NormalizeConstantIdentity(Float, false, IdentityMatrix.data);
    Normalization.NormalizeConstantIdentity(UnsignedByte, false, IdentityMatrix.data);
    var constant := NoOptions.(size := Some(4), source := UseConstant(IdentityMatrix));

    var rows := IdentityMatrix.data;
    assert rows[0..4] == [1.0, 0.0, 0.0, 0.0];
    assert rows[4..8] == [0.0, 1.0, 0.0, 0.0];
    assert rows[8..12] == [0.0, 0.0, 1.0, 0.0];

    var attribute := new Column(true, false, constant);
    assert attribute.value == rows && attribute.ElementOffset() == 0;
    noOffset, noOffsetElements := attribute.GetValue(), attribute.ElementOffset();

    attribute := new Column(true, false, constant.(offset := Some(16)));
    assert attribute.value == rows && attribute.ElementOffset() == 4;
    floatOffset, floatOffsetElements := attribute.GetValue(), attribute.ElementOffset();

    attribute := new Column(true, false, constant.(elementType := Some(UnsignedByte), offset := Some(8)));
    assert attribute.value == rows && attribute.ElementOffset() == 8;
    byteOffset, byteOffsetElements := attribute.GetValue(), attribute.ElementOffset();
  }
}
