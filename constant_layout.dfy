/**
 * Addressing inside a column's value: the byte offset re-expressed in
 * elements, and the `size` components a constant column hands to a draw.
 */
module ConstantLayout {
  import opened GLTypes

  /** The byte offset counted in elements of type `t`, rounded down. */
  function ElementOffsetOf(byteOffset: nat, t: ElementType): (e: nat)
    ensures e * ByteSize(t) <= byteOffset < (e + 1) * ByteSize(t)
  {
    match t
    case Byte | UnsignedByte => byteOffset
    case Short | UnsignedShort => byteOffset / 2
    case Int | UnsignedInt | Float => byteOffset / 4
  }

  /** An offset of k whole elements is exactly k elements. */
  lemma ElementOffsetOfWholeElements(k: nat, t: ElementType)
    ensures ElementOffsetOf(k * ByteSize(t), t) == k
  {
  }

  /** The test cases: offset 0, 16 bytes of FLOAT, 8 bytes of UNSIGNED_BYTE. */
  lemma ElementOffsetTestValues()
    ensures ElementOffsetOf(0, Float) == 0
    ensures ElementOffsetOf(16, Float) == 4
    ensures ElementOffsetOf(8, UnsignedByte) == 8
  {
  }

  /** Component `i` of a stored value; missing trailing components read as 0. */
  function ComponentAt(v: seq<real>, i: nat): real {
    if i < |v| then v[i] else 0.0
  }

  /**
   * The `size` components starting at element `start`. When the stored
   * value reaches far enough this is exactly the slice v[start..start + size].
   */
  function ConstantSlice(v: seq<real>, start: nat, size: nat): (r: seq<real>)
    ensures |r| == size
    ensures forall i :: 0 <= i < size ==> r[i] == ComponentAt(v, start + i)
    ensures start + size <= |v| ==> r == v[start..start + size]
    decreases size
  {
    if size == 0 then []
    else ConstantSlice(v, start, size - 1) + [ComponentAt(v, start + size - 1)]
  }
}
