/**
 * The WebGL vocabulary a column speaks: numeric element types with their
 * enumerants, widths and ranges, the two binding targets, and the kinds of
 * typed arrays a caller may hand over as a value.
 */
module GLTypes {
  import opened Wrappers

  /** Component types of a vertex attribute. */
  datatype ElementType = Byte | UnsignedByte | Short | UnsignedShort | Int | UnsignedInt | Float

  /** The GL enumerant of each element type (GL.BYTE ... GL.FLOAT). */
  function TypeCode(t: ElementType): nat {
    match t
    case Byte => 0x1400
    case UnsignedByte => 0x1401
    case Short => 0x1402
    case UnsignedShort => 0x1403
    case Int => 0x1404
    case UnsignedInt => 0x1405
    case Float => 0x1406
  }

  /** Binding targets: per-vertex data or vertex indices. */
  datatype Target = ArrayBuffer | ElementArrayBuffer

  /** The GL enumerant of each target (GL.ARRAY_BUFFER, GL.ELEMENT_ARRAY_BUFFER). */
  function TargetCode(t: Target): nat {
    match t
    case ArrayBuffer => 0x8892
    case ElementArrayBuffer => 0x8893
  }

  predicate IsInteger(t: ElementType) {
    t != Float
  }

  predicate IsSigned(t: ElementType) {
    t == Byte || t == Short || t == Int
  }

  function BitWidth(t: ElementType): nat {
    match t
    case Byte | UnsignedByte => 8
    case Short | UnsignedShort => 16
    case Int | UnsignedInt | Float => 32
  }

  /** Bytes per element (the typed array's BYTES_PER_ELEMENT). */
  function ByteSize(t: ElementType): nat {
    match t
    case Byte | UnsignedByte => 1
    case Short | UnsignedShort => 2
    case Int | UnsignedInt | Float => 4
  }

  function Pow2(n: nat): nat {
    if n == 0 then 1 else 2 * Pow2(n - 1)
  }

  lemma {:induction false} Pow2Add(a: nat, b: nat)
    ensures Pow2(a + b) == Pow2(a) * Pow2(b)
  {
    if a > 0 {
      Pow2Add(a - 1, b);
    }
  }

  /** 2^b - 1 for a b-bit integer type. */
  function FullScale(t: ElementType): nat
    requires IsInteger(t)
  {
    match t
    case Byte | UnsignedByte => 255
    case Short | UnsignedShort => 65535
    case Int | UnsignedInt => 4294967295
  }

  /** Smallest value an integer type represents. */
  function MinValue(t: ElementType): int
    requires IsInteger(t)
  {
    match t
    case Byte => -128
    case Short => -32768
    case Int => -2147483648
    case UnsignedByte | UnsignedShort | UnsignedInt => 0
  }

  /** Largest value an integer type represents. */
  function MaxValue(t: ElementType): int
    requires IsInteger(t)
  {
    match t
    case Byte => 127
    case Short => 32767
    case Int => 2147483647
    case UnsignedByte => 255
    case UnsignedShort => 65535
    case UnsignedInt => 4294967295
  }

  /** The powers of two the integer types are built from. */
  lemma Pow2Values()
    ensures Pow2(7) == 128 && Pow2(8) == 256
    ensures Pow2(15) == 32768 && Pow2(16) == 65536
    ensures Pow2(31) == 2147483648 && Pow2(32) == 4294967296
  {
    assert Pow2(8) == 256;
    Pow2Add(8, 7);
    Pow2Add(8, 8);
    Pow2Add(16, 15);
    Pow2Add(16, 16);
  }

  /**
   * The tabulated constants are the two's-complement and unsigned ranges of
   * a b-bit integer, and FullScale is 2^b - 1.
   */
  lemma RangesFollowBitWidth(t: ElementType)
    requires IsInteger(t)
    ensures FullScale(t) == Pow2(BitWidth(t)) - 1
    ensures IsSigned(t) ==> MinValue(t) + Pow2(BitWidth(t) - 1) == 0 && MaxValue(t) == Pow2(BitWidth(t) - 1) - 1
    ensures !IsSigned(t) ==> MinValue(t) == 0 && MaxValue(t) == FullScale(t)
  {
    Pow2Values();
  }

  /** The element kinds of the arrays a caller supplies as a value. */
  datatype ArrayKind =
    | Int8Array | Uint8Array | Uint8ClampedArray | Int16Array | Uint16Array
    | Int32Array | Uint32Array | Float32Array
    | PlainArray

  /** The element type a typed array implies; a plain array implies none. */
  function InferredType(k: ArrayKind): (r: Option<ElementType>)
    ensures r.None? <==> k == PlainArray
  {
    match k
    case Int8Array => Some(Byte)
    case Uint8Array | Uint8ClampedArray => Some(UnsignedByte)
    case Int16Array => Some(Short)
    case Uint16Array => Some(UnsignedShort)
    case Int32Array => Some(Int)
    case Uint32Array => Some(UnsignedInt)
    case Float32Array => Some(Float)
    case PlainArray => None
  }

  /** A value as a caller passes it: its array kind and its numbers. */
  datatype RawValue = RawValue(kind: ArrayKind, data: seq<real>)
}
