/** Arrays and tensors, abstracted to an element kind and a flat sequence of values.

  A numpy array is an `NdArray`: its `dtype.kind` letter becomes a `Kind`
  (`'i'` is `Int`, `'f'` is `Float`, every other letter such as `'u'`, `'b'`,
  `'c'` or `'O'` is `Other`) and its contents become a flat value sequence.
  A torch tensor is a `Tensor`: its element type (`LongTensor` or
  `FloatTensor`) and the same flat values. Element values are opaque.
 */
module Tensors {
  import opened Wrappers

  /** An element value, kept opaque: the model never computes with it. */
  type Element = int

  /** The kind letter of a numpy dtype, as far as the converters distinguish it. */
  datatype Kind = Int | Float | Other

  /** A numpy array: element kind and flattened contents. */
  datatype NdArray = NdArray(kind: Kind, values: seq<Element>)

  /** The two torch element types the converters produce. */
  datatype DType = Long | Float32

  /** A torch tensor: element type and flattened contents. */
  datatype Tensor = Tensor(dtype: DType, values: seq<Element>)

  /** `torch.LongTensor(a)`: a copy of `a`'s values typed as 64-bit integers. */
  function LongTensor(a: NdArray): Tensor
  {
    Tensor(Long, a.values)
  }

  /** `torch.FloatTensor(a)`: a copy of `a`'s values typed as floats. */
  function FloatTensor(a: NdArray): Tensor
  {
    Tensor(Float32, a.values)
  }

  /** The tensor type a numpy kind maps to, if any: `'i'` to Long, `'f'` to Float32. */
  function DTypeOf(k: Kind): Option<DType>
  {
    match k
    case Int => Some(Long)
    case Float => Some(Float32)
    case Other => None
  }

  /** The branch on `dtype.kind` shared by target and additional-feature
      conversion: `'i'` gives a LongTensor, `'f'` a FloatTensor, and any other
      kind falls through both branches, so no value is produced. */
  function ConvertByKind(a: NdArray): (r: Option<Tensor>)
    ensures r.Some? <==> a.kind != Other
    ensures r.Some? ==> Some(r.value.dtype) == DTypeOf(a.kind)
    ensures r.Some? ==> r.value.values == a.values
  {
    match a.kind
    case Int => Some(LongTensor(a))
    case Float => Some(FloatTensor(a))
    case Other => None
  }

  /** The numpy kind a tensor type reads back as. */
  function KindOf(d: DType): Kind
  {
    match d
    case Long => Int
    case Float32 => Float
  }

  /** Reading a tensor back as an array (`tensor.numpy()`). */
  function ToArray(x: Tensor): NdArray
  {
    NdArray(KindOf(x.dtype), x.values)
  }

  /** The kind branch is lossless: whenever it produces a tensor, reading that
      tensor back gives the original array, kind and values alike. */
  lemma ConvertByKindRoundTrip(a: NdArray)
    ensures ConvertByKind(a).Some? ==> ToArray(ConvertByKind(a).value) == a
  {
  }

  /** A fixed-role conversion round-trips exactly when the array already has the
      role's kind: LongTensor preserves integer arrays, FloatTensor float ones. */
  lemma RoleConversionRoundTrip(a: NdArray)
    ensures ToArray(LongTensor(a)) == a <==> a.kind == Int
    ensures ToArray(FloatTensor(a)) == a <==> a.kind == Float
    ensures ToArray(LongTensor(a)).values == a.values && ToArray(FloatTensor(a)).values == a.values
  {
  }
}
