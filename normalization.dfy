/**
 * Normalization of constant attribute values: the fixed-point to
 * floating-point conversion of section 2.1.2 ("Data Conversions") of the
 * OpenGL ES 2.0 specification, which WebGL 1 inherits. An unsigned b-bit
 * component c becomes c / (2^b - 1); a signed one becomes
 * (2c + 1) / (2^b - 1). Float components are never converted. Values are
 * exact rationals here, so no rounding is modelled.
 */
module Normalization {
  import opened GLTypes

  /** The floating-point value a stored component of type `t` stands for. */
  function NormalizeComponent(t: ElementType, c: real): real {
    if !IsInteger(t) then c
    else if IsSigned(t) then (2.0 * c + 1.0) / FullScale(t) as real
    else c / FullScale(t) as real
  }

  /**
   * Consecutive representable integers are evenly spaced after conversion:
   * one step is 1 / (2^b - 1) for unsigned types and 2 / (2^b - 1) for
   * signed ones, so the images form an even grid from the lower end to 1.
   */
  lemma NormalizeStep(t: ElementType, c: int)
    requires IsInteger(t) && MinValue(t) <= c < MaxValue(t)
    ensures NormalizeComponent(t, (c + 1) as real) - NormalizeComponent(t, c as real)
      == (if IsSigned(t) then 2.0 else 1.0) / FullScale(t) as real
  {
  }

  /**
   * Every representable integer lands in [0, 1] (unsigned) or [-1, 1]
   * (signed).
   */
  lemma NormalizedRange(t: ElementType, c: int)
    requires IsInteger(t) && MinValue(t) <= c <= MaxValue(t)
    ensures -1.0 <= NormalizeComponent(t, c as real) <= 1.0
    ensures !IsSigned(t) ==> 0.0 <= NormalizeComponent(t, c as real)
  {
  }

  /**
   * The extremes of the range map to the ends of the float range: the
   * largest value to 1, the smallest to -1 (signed) or 0 (unsigned).
   */
  lemma NormalizedExtremes(t: ElementType)
    requires IsInteger(t)
    ensures NormalizeComponent(t, MaxValue(t) as real) == 1.0
    ensures NormalizeComponent(t, MinValue(t) as real) == if IsSigned(t) then -1.0 else 0.0
  {
  }

  /** Conversion keeps the order of stored components, strictly. */
  lemma NormalizeStrictlyMonotone(t: ElementType, c1: real, c2: real)
    requires c1 < c2
    ensures NormalizeComponent(t, c1) < NormalizeComponent(t, c2)
  {
  }

  /**
   * The signed rule has no exact zero: stored 0 becomes 1 / (2^b - 1), the
   * 0.0039 the BYTE test expects, which a divisor of 2^(b-1) - 1 would not
   * give.
   */
  lemma SignedZeroIsOffset(t: ElementType)
    requires IsInteger(t) && IsSigned(t)
    ensures NormalizeComponent(t, 0.0) == 1.0 / FullScale(t) as real
    ensures NormalizeComponent(t, 0.0) > 0.0
  {
  }

  /**
   * The stored form of a constant value: each component normalized when
   * `normalized` is set, all of them untouched otherwise.
   */
  function NormalizeConstant(t: ElementType, normalized: bool, v: seq<real>): (r: seq<real>)
    ensures |r| == |v|
    ensures forall i :: 0 <= i < |v| ==>
      r[i] == if normalized then NormalizeComponent(t, v[i]) else v[i]
  {
    if v == [] then []
    else
      var last := v[|v| - 1];
      NormalizeConstant(t, normalized, v[..|v| - 1])
        + [if normalized then NormalizeComponent(t, last) else last]
  }

  /** Float values, and values of a column that is not normalized, are stored as given. */
  lemma NormalizeConstantIdentity(t: ElementType, normalized: bool, v: seq<real>)
    requires !normalized || !IsInteger(t)
    ensures NormalizeConstant(t, normalized, v) == v
  {
  }

  /** The normalized constants the tests expect, as exact rationals. */
  lemma NormalizationTestValues()
    ensures NormalizeConstant(Float, true, [1.0, 2.0, 3.0]) == [1.0, 2.0, 3.0]
    ensures NormalizeConstant(UnsignedByte, true, [255.0, 128.0, 0.0]) == [1.0, 128.0 / 255.0, 0.0]
    ensures NormalizeConstant(UnsignedShort, true, [65535.0, 255.0, 0.0]) == [1.0, 255.0 / 65535.0, 0.0]
    ensures NormalizeConstant(Byte, true, [-128.0, 127.0, 0.0]) == [-1.0, 1.0, 1.0 / 255.0]
    ensures NormalizeConstant(Short, true, [-32768.0, 0.0, 16384.0]) == [-1.0, 1.0 / 65535.0, 32769.0 / 65535.0]
    // the decimals the tests print: 0.50196, 0.0039, 0.0039, 0, 0.5
    ensures 0.50195 < 128.0 / 255.0 < 0.50197
    ensures 0.00389 < 255.0 / 65535.0 < 0.0039 && 0.0039 < 1.0 / 255.0 < 0.00393
    ensures 0.0 < 1.0 / 65535.0 < 0.00002 && 0.5 < 32769.0 / 65535.0 < 0.50003
  {
  }
}
