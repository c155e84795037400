/**
 * GPUColumn: one vertex or instance attribute and the single data source
 * behind it - a buffer the column allocated and owns, a buffer a caller
 * lends it, or a constant ("generic") value - together with the binding
 * metadata a draw call needs.
 */
module Columns {
  import opened Wrappers
  import opened GLTypes
  import opened Normalization
  import opened ConstantLayout

  /**
   * A GPU buffer, kept opaque: its identity, the accessor metadata it was
   * created with, and whether its GPU resource has been released.
   */
  class Buffer {
    const accessorType: Option<ElementType>
    const accessorDivisor: Option<nat>
    var released: bool

    constructor (accessorType: Option<ElementType>, accessorDivisor: Option<nat>)
      ensures this.accessorType == accessorType && this.accessorDivisor == accessorDivisor
      ensures !released
    {
      this.accessorType := accessorType;
      this.accessorDivisor := accessorDivisor;
      released := false;
    }

    /** Frees the GPU resource; a live resource is freed exactly once. */
    method Release()
      requires !released
      modifies this
      ensures released
    {
      released := true;
    }
  }

  /** Which data source is active. */
  datatype Source = Owned | Borrowed(external: Buffer) | Constant

  /**
   * The data source named by a construction or update: keep the current one,
   * bind a caller's buffer (`{buffer}`), upload a value into the owned buffer
   * (`{value}`), or store a constant (`{constant: true, value}`).
   */
  datatype SourceUpdate = KeepSource | UseBuffer(external: Buffer) | UseValue(raw: RawValue) | UseConstant(raw: RawValue)

  /** The options of a construction or update; None leaves a field as it is. */
  datatype Props = Props(
    source: SourceUpdate,
    size: Option<nat>,
    elementType: Option<ElementType>,
    normalized: Option<bool>,
    divisor: Option<nat>,
    offset: Option<nat>,
    stride: Option<nat>)

  const NoOptions := Props(KeepSource, None, None, None, None, None, None)

  /** Binding metadata of a column; `offset` and `stride` are in bytes. */
  datatype Metadata = Metadata(
    size: nat,
    elementType: ElementType,
    normalized: bool,
    divisor: nat,
    offset: nat,
    stride: nat)

  /** Metadata before any option applies: an indexed column holds UNSIGNED_INT indices. */
  function DefaultMetadata(isIndexed: bool): Metadata {
    Metadata(1, if isIndexed then UnsignedInt else Float, false, 0, 0, 0)
  }

  /**
   * The element type after an update: an explicit `type` wins, then the
   * accessor type of a supplied buffer, then the kind of a supplied typed
   * array; otherwise the current type stays.
   */
  function MergedType(current: ElementType, props: Props): ElementType {
    if props.elementType.Some? then props.elementType.value
    else match props.source
      case KeepSource => current
      case UseBuffer(b) => b.accessorType.GetOr(current)
      case UseValue(raw) => InferredType(raw.kind).GetOr(current)
      case UseConstant(raw) => InferredType(raw.kind).GetOr(current)
  }

  /**
   * The divisor after an update: the accessor divisor of a freshly supplied
   * buffer wins, then an explicit `divisor`; otherwise it stays.
   */
  function MergedDivisor(current: nat, props: Props): nat {
    if props.source.UseBuffer? && props.source.external.accessorDivisor.Some? then
      props.source.external.accessorDivisor.value
    else props.divisor.GetOr(current)
  }

  /** The metadata after an update, each field merged over the current one. */
  function Merge(m: Metadata, props: Props): Metadata {
    Metadata(
      props.size.GetOr(m.size),
      MergedType(m.elementType, props),
      props.normalized.GetOr(m.normalized),
      MergedDivisor(m.divisor, props),
      props.offset.GetOr(m.offset),
      props.stride.GetOr(m.stride))
  }

  /** An update with no options leaves the metadata as it was. */
  lemma MergeWithoutOptions(m: Metadata)
    ensures Merge(m, NoOptions) == m
  {
  }

  /** An update naming only `divisor` sets the divisor and nothing else. */
  lemma MergeDivisorOnly(m: Metadata, d: nat)
    ensures Merge(m, NoOptions.(divisor := Some(d))) == m.(divisor := d)
  {
  }

  /** What a draw binds for a buffer-backed attribute besides the buffer. */
  datatype Accessor = Accessor(
    size: nat,
    elementType: ElementType,
    normalized: bool,
    stride: nat,
    elementOffset: nat,
    divisor: nat)

  /** The result of getValue(). */
  datatype AttributeValue =
    | BufferValue(buffer: Buffer, accessor: Accessor)
    | ConstantValue(components: seq<real>)
    | NoValue

  class Column {
    /** Whether a GL context was supplied; without one nothing is allocated. */
    const hasContext: bool
    const isIndexed: bool
    var source: Source
    /** The buffer slot (`attribute.buffer`): only ever a buffer this column owns. */
    var buffer: Buffer?
    /** The last value supplied; for a constant, its normalized form. */
    var value: seq<real>
    /** The last constant as the caller supplied it, before normalization. */
    var constantInput: seq<real>
    var meta: Metadata
    /** Every buffer this column has allocated. */
    ghost var Allocated: set<Buffer>

    /**
     * Ownership discipline: the slot holds a live buffer of this column's
     * own only in owned mode, every other buffer the column allocated has
     * been released, and a borrowed buffer is never one of its own.
     */
    ghost predicate OwnershipValid()
      reads this, Allocated
    {
      (buffer != null ==> hasContext && source.Owned? && buffer in Allocated && !buffer.released) &&
      (forall b :: b in Allocated && b != buffer ==> b.released) &&
      (source.Borrowed? ==> source.external !in Allocated)
    }

    /**
     * The column invariant: the ownership discipline, and a constant held
     * normalized for the current type and `normalized` flag, always from the
     * caller's input, so normalization never compounds.
     */
    ghost predicate Valid()
      reads this, Allocated
    {
      OwnershipValid() &&
      (source.Constant? ==> value == NormalizeConstant(meta.elementType, meta.normalized, constantInput))
    }

    /** The binding target, fixed by `isIndexed`. */
    function Target(): Target {
      if isIndexed then ElementArrayBuffer else ArrayBuffer
    }

    /** `elementOffset`: the byte offset counted in elements of the current type. */
    function ElementOffset(): nat
      reads this
    {
      ElementOffsetOf(meta.offset, meta.elementType)
    }

    /**
     * getBuffer(): null for a constant, the caller's buffer when one is
     * borrowed, the buffer slot otherwise.
     */
    function GetBuffer(): (b: Buffer?)
      reads this
      ensures source.Constant? ==> b == null
      ensures source.Borrowed? ==> b == source.external
      ensures source.Owned? ==> b == buffer
    {
      match source
      case Owned => buffer
      case Borrowed(external) => external
      case Constant => null
    }

    /**
     * getValue(): for a buffer source, the buffer getBuffer() returns with
     * its accessor; for a constant, exactly `size` components of the stored
     * value starting at `elementOffset`.
     */
    function GetValue(): (r: AttributeValue)
      reads this
      ensures r.ConstantValue? <==> source.Constant?
      ensures r.BufferValue? ==> r.buffer == GetBuffer()
      ensures r.NoValue? <==> !source.Constant? && GetBuffer() == null
      ensures r.BufferValue? ==> r.accessor == Accessor(meta.size, meta.elementType, meta.normalized, meta.stride, ElementOffset(), meta.divisor)
      ensures r.ConstantValue? ==> |r.components| == meta.size
      ensures r.ConstantValue? && ElementOffset() + meta.size <= |value| ==>
        r.components == value[ElementOffset()..ElementOffset() + meta.size]
    {
      if source.Constant? then ConstantValue(ConstantSlice(value, ElementOffset(), meta.size))
      else if GetBuffer() == null then NoValue
      else BufferValue(GetBuffer(), Accessor(meta.size, meta.elementType, meta.normalized, meta.stride, ElementOffset(), meta.divisor))
    }

    /**
     * new GPUColumn(gl, props): defaults for `isIndexed`, then the options
     * applied as by update().
     */
    constructor (hasContext: bool, isIndexed: bool, props: Props)
      ensures Valid()
      ensures this.hasContext == hasContext && this.isIndexed == isIndexed
      ensures meta == Merge(DefaultMetadata(isIndexed), props)
      ensures props.source.KeepSource? ==> source == Owned && buffer == null && value == []
      ensures props.source.UseBuffer? ==> source == Borrowed(props.source.external) && buffer == null && value == []
      ensures props.source.UseValue? ==> source == Owned && value == props.source.raw.data
      ensures props.source.UseValue? ==> if hasContext then buffer != null && fresh(buffer) else buffer == null
      ensures props.source.UseConstant? ==>
        source == Constant && buffer == null && constantInput == props.source.raw.data &&
        value == NormalizeConstant(meta.elementType, meta.normalized, props.source.raw.data)
      ensures !props.source.UseConstant? ==> constantInput == []
      ensures Allocated == if buffer == null then {} else {buffer}
    {
      this.hasContext := hasContext;
      this.isIndexed := isIndexed;
      source := Owned;
      buffer := null;
      value := [];
      constantInput := [];
      meta := DefaultMetadata(isIndexed);
      Allocated := {};
      new;
      Update(props);
    }

    /**
     * update(props): merges the options over the metadata, then switches the
     * data source. A value for a column that already owns a buffer is
     * uploaded into that same buffer; an owned buffer the new source leaves
     * behind is released. A constant is re-derived from the caller's input
     * whenever the type or the `normalized` flag may have changed.
     */
    method Update(props: Props)
      requires Valid()
      requires props.source.UseBuffer? ==> props.source.external !in Allocated
      modifies this, buffer
      ensures Valid()
      ensures meta == Merge(old(meta), props)
      ensures props.source.KeepSource? ==> source == old(source) && buffer == old(buffer)
      ensures props.source.KeepSource? && !source.Constant? ==> value == old(value)
      ensures props.source.UseBuffer? ==> source == Borrowed(props.source.external) && buffer == null && value == old(value)
      ensures props.source.UseValue? ==> source == Owned && value == props.source.raw.data
      ensures !props.source.UseConstant? ==> constantInput == old(constantInput)
      ensures source.Constant? ==> value == NormalizeConstant(meta.elementType, meta.normalized, constantInput)
      ensures props.source.UseValue? && old(buffer) != null ==> buffer == old(buffer)
      ensures props.source.UseValue? && old(buffer) == null ==>
        if hasContext then buffer != null && fresh(buffer) else buffer == null
      ensures props.source.UseConstant? ==>
        source == Constant && buffer == null && constantInput == props.source.raw.data &&
        value == NormalizeConstant(meta.elementType, meta.normalized, props.source.raw.data)
      ensures old(buffer) != null && buffer != old(buffer) ==> old(buffer).released
      ensures Allocated == if buffer != old(buffer) && buffer != null then old(Allocated) + {buffer} else old(Allocated)
    {
      meta := Merge(meta, props);
      match props.source
      case KeepSource =>
        if source.Constant? {
          value := NormalizeConstant(meta.elementType, meta.normalized, constantInput);
        }
      case UseBuffer(external) =>
        ReleaseOwned();
        source := Borrowed(external);
      case UseValue(raw) =>
        if buffer == null && hasContext {
          var created := new Buffer(Some(meta.elementType), None);
          buffer := created;
          Allocated := Allocated + {created};
        }
        source := Owned;
        value := raw.data;
      case UseConstant(raw) =>
        ReleaseOwned();
        source := Constant;
        constantInput := raw.data;
        value := NormalizeConstant(meta.elementType, meta.normalized, raw.data);
    }

    /** Releases the owned buffer, if any, and empties the slot. */
    method ReleaseOwned()
      requires OwnershipValid()
      modifies this`buffer, buffer
      ensures buffer == null
      ensures old(buffer) != null ==> old(buffer).released
      ensures forall b :: b in Allocated ==> b.released
    {
      if buffer != null {
        buffer.Release();
        buffer := null;
      }
    }

    /**
     * delete(): releases the owned buffer and clears the slot. A borrowed
     * buffer is left alone, and a second delete does nothing.
     */
    method Delete()
      requires Valid()
      modifies this, buffer
      ensures Valid()
      ensures buffer == null
      ensures old(buffer) != null ==> old(buffer).released
      ensures old(buffer) == null ==> unchanged(this)
      ensures source == old(source) && value == old(value) && meta == old(meta) && Allocated == old(Allocated)
      ensures constantInput == old(constantInput)
      ensures source == old(source) && (source.Borrowed? ==> unchanged(source.external))
    {
      ReleaseOwned();
    }
  }

  /** In owned mode the buffer getBuffer() returns is never a released one. */
  lemma OwnedBindingIsLive(c: Column)
    requires c.Valid()
    requires c.source.Owned? && c.GetBuffer() != null
    ensures c.GetBuffer() in c.Allocated && !c.GetBuffer().released
  {
  }
}
