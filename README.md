# GPUColumn: a verified model

`GPUColumn` (deck.gl core's `base-attribute`, as tested in the gpu-table module)
wraps one vertex or instance attribute. Its data comes from exactly one of three sources:

- a buffer the column allocated and owns;
- a buffer a caller lends it;
- a constant ("generic") value.

The column also keeps the binding metadata a draw call needs: element type,
size, normalized flag, binding target, divisor, byte offset and stride.
The implementation module `@deck.gl/core/lib/base-attribute` is not part of
this model. The model follows what the test
`modules/gpu-table/test/lib/columns/base-attribute.spec.js` asserts. Where the
test is silent, the model follows the rules listed under "Update rules" below.

Modules:

- `Wrappers` (wrappers.dfy): `Option`.
- `GLTypes` (gl_types.dfy): the element types and their GL enumerants
  (`BYTE` = 0x1400 … `FLOAT` = 0x1406), widths, byte sizes and ranges. The two
  targets, `ARRAY_BUFFER` = 0x8892 and `ELEMENT_ARRAY_BUFFER` = 0x8893. The
  kinds of typed array a caller passes as a value, and the element type each
  one implies.
- `Normalization` (normalization.dfy): the integer-to-float conversion of
  section 2.1.2 ("Data Conversions") of the OpenGL ES 2.0 specification, which
  WebGL 1 inherits. An unsigned b-bit component c becomes c / (2^b − 1). A signed
  one becomes (2c + 1) / (2^b − 1). Float components are unchanged. The test's
  BYTE value 0 → 0.0039 rules out the divisor 2^(b−1) − 1, so the model uses
  the (2c + 1) rule. Values are exact rationals (`real`).
- `ConstantLayout` (constant_layout.dfy): `elementOffset` as the byte offset
  divided by the element size. The `size`-long slice of a constant value that
  starts at that element offset.
- `Columns` (column.dfy): the state machine.
  - `Buffer` is an opaque object. It has an identity, constant accessor
    metadata (type, divisor) and a `released` flag.
  - `Column` is a class. Its fields are the context flag, `isIndexed`, the
    active `Source` (`Owned | Borrowed(external) | Constant`), the buffer slot
    `buffer` (`attribute.buffer`), the last `value`, the last constant as the
    caller supplied it (`constantInput`), the `meta`data, and a ghost set
    `Allocated` of every buffer it created.
  - `OwnershipValid()` is the ownership discipline. The slot holds a live
    buffer of the column's own, and only in owned mode. Every other buffer the
    column allocated has been released. A borrowed buffer is never one of its
    own.
  - `Valid()` adds that a constant is held normalized for the current type and
    `normalized` flag, computed from `constantInput`.
  - The JavaScript option bag becomes `Props`. Its data-source part is the
    variant `SourceUpdate`:
    - `{buffer}` becomes `UseBuffer`;
    - `{value}` becomes `UseValue`;
    - `{constant: true, value}` becomes `UseConstant`;
    - no source option becomes `KeepSource`.

    `Merge` applies the other options field by field.
- `ColumnScenarios` (column_scenarios.dfy): the tests of base-attribute.spec.js,
  written as client code over `Columns`. Each method's postconditions are the
  test's expectations, proved from the method contracts and function
  definitions of `Columns`. One method, `RenormalizeConstant`, is not a test
  of base-attribute.spec.js: it exercises the constant re-derivation rule
  below, which the test does not assert.

Update rules the model follows (`Merge`, `Column.Update`):

- type: an explicit `type` wins. Otherwise the accessor type of a supplied
  buffer is used, then the element type implied by a typed-array value.
  Otherwise the current type stays. It starts as `UNSIGNED_INT` for an indexed
  column and `FLOAT` otherwise.
- divisor: the accessor divisor of a freshly supplied buffer wins, then an
  explicit `divisor`. Otherwise it stays; it starts at 0.
- `UseValue` uploads into the owned buffer when there is one, which keeps its
  identity. Otherwise it allocates a new buffer, but only when a context
  exists.
- `UseBuffer` and `UseConstant` release the owned buffer and empty the slot.
- a constant is stored after normalization with the column's merged type and
  `normalized` flag. It is re-derived from the caller's input whenever an
  update changes the metadata. Normalization therefore never compounds, and a
  later `type` or `normalized` change takes effect on the constant.
- `getValue()` of a constant returns exactly `size` components of the stored
  value, starting at `elementOffset`.

## Model

| member | source | states |
|---|---|---|
| GLTypes.InferredType | modules/gpu-table/test/lib/columns/base-attribute.spec.js:17-26 | every typed-array kind implies an element type (a Float32Array gives FLOAT); only a plain array implies none |
| GLTypes.RangesFollowBitWidth | modules/gpu-table/test/lib/columns/base-attribute.spec.js:98-123 | the tabulated ranges are the b-bit ranges: unsigned [0, 2^b − 1], signed [−2^(b−1), 2^(b−1) − 1]; the conversion divisor is 2^b − 1 |
| Normalization.NormalizeStep | modules/gpu-table/test/lib/columns/base-attribute.spec.js:89-123 | consecutive representable integers convert to values exactly 1/(2^b − 1) apart (unsigned) or 2/(2^b − 1) apart (signed), so the images form an even grid ending at 1 |
| Normalization.NormalizedRange | modules/gpu-table/test/lib/columns/base-attribute.spec.js:89-123 | every representable integer normalizes into [0, 1] for unsigned types and into [−1, 1] for signed types |
| Normalization.NormalizedExtremes | modules/gpu-table/test/lib/columns/base-attribute.spec.js:89-123 | the largest value of every integer type normalizes to 1; the smallest to −1 (signed) or 0 (unsigned) |
| Normalization.NormalizeStrictlyMonotone | modules/gpu-table/test/lib/columns/base-attribute.spec.js:89-123 | normalization preserves the strict order of components |
| Normalization.SignedZeroIsOffset | modules/gpu-table/test/lib/columns/base-attribute.spec.js:107-114 | a signed 0 normalizes to 1 / (2^b − 1), not to 0: the BYTE 0 → 0.0039 the test expects |
| Normalization.NormalizeConstant | modules/gpu-table/test/lib/columns/base-attribute.spec.js:80-123 | the stored constant has as many components as the input, each normalized when `normalized` is set and untouched otherwise |
| Normalization.NormalizeConstantIdentity | modules/gpu-table/test/lib/columns/base-attribute.spec.js:80-87 | a float constant, or any constant of a column that is not normalized, is stored exactly as given |
| Normalization.NormalizationTestValues | modules/gpu-table/test/lib/columns/base-attribute.spec.js:80-123 | the five normalized constants of the test, as exact rationals, and that they match the test's decimals (0.50196, 0.0039, 0.5) |
| ConstantLayout.ElementOffsetOf | modules/gpu-table/test/lib/columns/base-attribute.spec.js:303-322 | the element offset is the byte offset divided by the element's byte size, rounded down; `Columns.Column.ElementOffset` (`attribute.elementOffset`) applies it to the column's offset and type |
| ConstantLayout.ElementOffsetOfWholeElements | modules/gpu-table/test/lib/columns/base-attribute.spec.js:310-322 | an offset of k whole elements is element offset k, for every type |
| ConstantLayout.ElementOffsetTestValues | modules/gpu-table/test/lib/columns/base-attribute.spec.js:306-322 | offset 0 gives 0, offset 16 with FLOAT gives 4, offset 8 with UNSIGNED_BYTE gives 8 |
| ConstantLayout.ConstantSlice | modules/gpu-table/test/lib/columns/base-attribute.spec.js:303-322 | exactly `size` components, component i being the stored component start + i; when the value is long enough it is the slice v[start..start + size] |
| Columns.Buffer.constructor | modules/gpu-table/test/lib/columns/base-attribute.spec.js:69-71 | a new buffer is live and carries the accessor type and divisor it was given |
| Columns.Buffer.Release | modules/gpu-table/test/lib/columns/base-attribute.spec.js:29-30 | releasing frees the resource, and only a live resource can be released |
| Columns.Column.GetBuffer | modules/gpu-table/test/lib/columns/base-attribute.spec.js:128-148 | null for a constant, the caller's buffer when borrowed, the column's own slot when owned |
| Columns.Column.GetValue | modules/gpu-table/test/lib/columns/base-attribute.spec.js:150-171 | for a buffer source, the buffer getBuffer() returns, with the accessor metadata; for a constant, exactly `size` components of the stored value from `elementOffset` |
| Columns.Column.constructor | modules/gpu-table/test/lib/columns/base-attribute.spec.js:16-48 | defaults (UNSIGNED_INT type when indexed, FLOAT otherwise, divisor 0), then the options as by update: no own buffer for an external one, an own buffer only when a context exists; `Columns.Column.Target` (`attribute.target`) is ELEMENT_ARRAY_BUFFER exactly when indexed |
| Columns.Column.Update | modules/gpu-table/test/lib/columns/base-attribute.spec.js:53-73 | metadata merged over the old; a value reuses the owned buffer (same identity) or allocates one; a buffer or a constant releases the owned buffer; a constant is held normalized for the new type and flag, from the caller's input (the test does not assert this rule; `ColumnScenarios.RenormalizeConstant` is its witness: [127, 0] stored as given, then [127/255, 0] after `normalized: true`, then [1, 1/255] after retyping to BYTE); invariant kept |
| Columns.MergeWithoutOptions | modules/gpu-table/test/lib/columns/base-attribute.spec.js:53-73 | an update with no options leaves all metadata as it was |
| Columns.MergeDivisorOnly | modules/gpu-table/test/lib/columns/base-attribute.spec.js:63-67 | for every metadata and every d, an update naming only `divisor: d` sets the divisor to d and changes nothing else |
| Columns.Column.Delete | modules/gpu-table/test/lib/columns/base-attribute.spec.js:29-42 | the owned buffer is released and the slot cleared; a borrowed buffer is untouched; nothing else changes, so a second delete is a no-op |
| Columns.OwnedBindingIsLive | modules/gpu-table/test/lib/columns/base-attribute.spec.js:128-137 | in owned mode the buffer getBuffer() returns is one of the column's own and has not been released |
| ColumnScenarios.ConstructAndDelete | modules/gpu-table/test/lib/columns/base-attribute.spec.js:16-51 | ARRAY_BUFFER (0x8892) target, FLOAT (0x1406) type and divisor 0 inferred; delete releases the own buffer and clears the slot; an indexed column over an external buffer has ELEMENT_ARRAY_BUFFER (0x8893) target, no own buffer, and leaves the external buffer live after delete; an indexed column without type is UNSIGNED_INT (0x1405); construction without a context succeeds and allocates nothing |
| ColumnScenarios.UpdateValueAndDivisor | modules/gpu-table/test/lib/columns/base-attribute.spec.js:53-78 | a value update keeps the same buffer; divisor updates to 1 and back to 0; a buffer with accessor divisor 1 sets the divisor to 1 |
| ColumnScenarios.NormalizeConstants | modules/gpu-table/test/lib/columns/base-attribute.spec.js:80-126 | the stored constants: floats unchanged, UNSIGNED_BYTE [1, 128/255, 0], UNSIGNED_SHORT [1, 255/65535, 0], BYTE [−1, 1, 1/255], SHORT [−1, 1/65535, 32769/65535] |
| ColumnScenarios.GetBufferAcrossSources | modules/gpu-table/test/lib/columns/base-attribute.spec.js:128-148 | getBuffer() is the own buffer, then the caller's, then the own again, then null for a constant, then the caller's again |
| ColumnScenarios.GetValueAcrossSources | modules/gpu-table/test/lib/columns/base-attribute.spec.js:150-174 | getValue()[0] follows the same sequence, and the constant comes back as value1.slice(0, 4) |
| ColumnScenarios.ConstantWithOffset | modules/gpu-table/test/lib/columns/base-attribute.spec.js:303-325 | the identity matrix read with no offset, 16 bytes of FLOAT and 8 bytes of UNSIGNED_BYTE gives rows [1,0,0,0], [0,1,0,0], [0,0,1,0] and element offsets 0, 4, 8 |

## Left out

- The "missing component" test (base-attribute.spec.js lines 176-301) is left out. It draws
  with shaders and reads pixels back, and its (0, 0, 0, 1) default for missing
  components is GPU or driver behaviour, not behaviour of the column.
- Buffer upload and read-back (`buffer.getData()`) are left out, and so are the
  WebGL2-only checks and the luma.gl classes `Buffer`, `Model`, `Framebuffer`
  and `readPixelsToArray`. These are foreign calls. A buffer is an identity
  with a released flag, and the GL context is the flag `hasContext`.
- `isHeadlessGL` and the tape harness are environment plumbing and are left
  out.
- IEEE floating point, the Float32 storage of constants and the `vecEquals`
  tolerance are left out. Values are exact rationals.
- Configuration errors are not modelled, because the test asserts none. These
  are a size outside 1–4, `buffer` together with `constant`, a missing data
  source and an undeterminable type. `SourceUpdate` names one source per
  update, so `buffer` with `constant` cannot be expressed. `size` is not
  range-checked; a column built without `size` has size 1.
- Reallocation for a value of a different byte length is not modelled, because
  the test asserts none. A value update always reuses the owned buffer.
- Options the test never passes are not modelled. `stride` is stored and
  reported, never used.
- ConstantLayout.ElementOffsetOf: rounds down. The model does not capture a
  fractional offset that JavaScript division would give for a byte offset that
  is not a multiple of the element size.
- ConstantLayout.ConstantSlice: components beyond the stored value read as 0.
  The test does not say what a too-short constant gives.
- Columns.Column.Update: requires that a buffer passed with `UseBuffer` is not
  one the column allocated itself. A borrowed buffer is by definition the
  caller's.
- Columns.Column.Update: the test does not fix these rules; the model chooses
  them as follows. A value update on a constant column
  returns it to an owned buffer. Switching to a borrowed buffer or a constant
  releases the owned buffer. A buffer's accessor divisor takes precedence
  over an explicit `divisor`.
- Columns.Column.Delete: does not clear a borrowed binding. The test only
  asserts that the external buffer stays live.
