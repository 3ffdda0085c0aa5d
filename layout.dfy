/**
  The layout side of the codec: numpy arrays as the codec sees them, the
  `_prepare_data` rule that turns an array of any rank into a
  (samples x channels) matrix, `tobytes` and `frombuffer`, and the `reshape`
  a caller applies to the decoded column.
 */
module Layout {
  import opened Wrappers

  /** The channel ceiling of the codec (`WavPackPipesCodec.max_channels`). */
  const MaxChannels: nat := 1024

  /** A numpy dtype by its kind letter and item size in bytes; its byte order is not modelled. */
  datatype DType = DType(kind: char, itemsize: nat)

  /** An ndarray: dtype, shape, and its elements in row-major order, each element as its bytes. */
  datatype NdArray = NdArray(dtype: DType, shape: seq<nat>, elems: seq<seq<bv8>>)

  /** The two assertions of `_prepare_data`. */
  datatype LayoutError =
    | UnsupportedKind(kind: char)
    | WrongDtype(expected: DType, found: DType)

  function Product(shape: seq<nat>): nat
  {
    if shape == [] then 1 else shape[0] * Product(shape[1..])
  }

  /** What every ndarray satisfies: as many elements as its shape says, each `itemsize` bytes. */
  predicate WellFormed(a: NdArray)
  {
    && |a.elems| == Product(a.shape)
    && forall i :: 0 <= i < |a.elems| ==> |a.elems[i]| == a.dtype.itemsize
  }

  predicate IsNumericKind(kind: char) { kind == 'i' || kind == 'u' || kind == 'f' }

  /** `buf.flatten()[:, None]`: every element, in row-major order, as one column. */
  function Column(a: NdArray): NdArray
  {
    NdArray(a.dtype, [|a.elems|, 1], a.elems)
  }

  /**
    `_prepare_data`: reject a non-numeric dtype, then a dtype other than the
    configured one; otherwise give a rank-2 matrix. Only a rank-2 array with at
    most `MaxChannels` columns is kept as it is; everything else becomes one
    column holding every element.
   */
  lemma ProductOfPair(x: nat, y: nat)
    ensures Product([x, y]) == x * y
  {
    assert Product([x, y]) == x * Product([y]);
    assert Product([y]) == y * Product([]);
  }

  function PrepareData(a: NdArray, configured: DType): (r: Result<NdArray, LayoutError>)
    requires WellFormed(a)
    ensures !IsNumericKind(a.dtype.kind) ==> r == Failure(UnsupportedKind(a.dtype.kind))
    ensures IsNumericKind(a.dtype.kind) && a.dtype != configured ==> r == Failure(WrongDtype(configured, a.dtype))
    ensures r.Success? <==> IsNumericKind(a.dtype.kind) && a.dtype == configured
    ensures r.Success? ==>
      && WellFormed(r.value)
      && r.value.dtype == configured
      && r.value.elems == a.elems
      && |r.value.shape| == 2
      && r.value.shape[0] * r.value.shape[1] == Product(a.shape)
      && r.value.shape[1] <= MaxChannels
    ensures r.Success? ==> (r.value == a <==> |a.shape| == 2 && a.shape[1] <= MaxChannels)
    ensures r.Success? && r.value != a ==> r.value.shape == [Product(a.shape), 1]
  {
    if !IsNumericKind(a.dtype.kind) then Failure(UnsupportedKind(a.dtype.kind))
    else if a.dtype != configured then Failure(WrongDtype(configured, a.dtype))
    else if |a.shape| == 1 then
      ProductOfPair(a.shape[0], 1);
      assert Product(a.shape) == a.shape[0] * Product([]);
      Success(NdArray(a.dtype, [a.shape[0], 1], a.elems))
    else if |a.shape| == 2 then
      ProductOfPair(a.shape[0], a.shape[1]);
      assert a.shape == [a.shape[0], a.shape[1]];
      ProductOfPair(|a.elems|, 1);
      if a.shape[1] > MaxChannels then Success(Column(a)) else Success(a)
    else
      ProductOfPair(|a.elems|, 1);
      Success(Column(a))
  }

  /** A rank-1 array of length N becomes an N x 1 matrix. */
  lemma PrepareVector(a: NdArray)
    requires WellFormed(a) && |a.shape| == 1
    requires IsNumericKind(a.dtype.kind)
    ensures PrepareData(a, a.dtype) == Success(NdArray(a.dtype, [a.shape[0], 1], a.elems))
  {
    assert Product(a.shape) == a.shape[0] * Product([]);
  }

  /** The ceiling is inclusive: 1024 columns pass through, 1025 are flattened. */
  lemma ChannelCeilingBoundary(a: NdArray)
    requires WellFormed(a) && IsNumericKind(a.dtype.kind) && |a.shape| == 2
    ensures a.shape[1] == MaxChannels ==> PrepareData(a, a.dtype) == Success(a)
    ensures a.shape[1] == MaxChannels + 1 ==>
      PrepareData(a, a.dtype) == Success(NdArray(a.dtype, [a.shape[0] * (MaxChannels + 1), 1], a.elems))
  {
    ProductOfPair(a.shape[0], a.shape[1]);
    assert a.shape == [a.shape[0], a.shape[1]];
  }

  /** `ndarray.tobytes()`: the elements' bytes, one after another. */
  function ToBytes(elems: seq<seq<bv8>>): (b: seq<bv8>)
  {
    if elems == [] then [] else elems[0] + ToBytes(elems[1..])
  }

  lemma {:induction false} ToBytesLength(elems: seq<seq<bv8>>, itemsize: nat)
    requires forall i :: 0 <= i < |elems| ==> |elems[i]| == itemsize
    ensures |ToBytes(elems)| == |elems| * itemsize
    decreases |elems|
  {
    if elems != [] {
      ToBytesLength(elems[1..], itemsize);
    }
  }

  /**
    `np.frombuffer(b, dtype)`: the buffer cut into items of `itemsize` bytes;
    a buffer whose length is not a multiple of the item size is refused.
   */
  function FromBuffer(b: seq<bv8>, itemsize: nat): (r: Option<seq<seq<bv8>>>)
    ensures r.Some? <==> 0 < itemsize && IsMultiple(|b|, itemsize)
    ensures r.Some? ==>
      && ToBytes(r.value) == b
      && |r.value| * itemsize == |b|
      && forall i :: 0 <= i < |r.value| ==> |r.value[i]| == itemsize
    decreases |b|
  {
    if itemsize == 0 || !IsMultiple(|b|, itemsize) then None
    else if b == [] then Some([])
    else
      var rest := FromBuffer(b[itemsize..], itemsize);
      OneMoreItem(|rest.value|, itemsize);
      Some([b[..itemsize]] + rest.value)
  }

  /** One more item of `itemsize` bytes adds `itemsize` bytes. */
  lemma OneMoreItem(n: nat, itemsize: nat)
    ensures (1 + n) * itemsize == itemsize + n * itemsize
  {
  }

  /** `n` is a whole number of `k`-byte items (`n % k == 0` for a positive `k`). */
  predicate IsMultiple(n: nat, k: nat)
    decreases n
  {
    n == 0 || (0 < k <= n && IsMultiple(n - k, k))
  }

  /** Reading back what `tobytes` wrote gives the same elements. */
  lemma {:induction false} FromBufferToBytes(elems: seq<seq<bv8>>, itemsize: nat)
    requires 0 < itemsize
    requires forall i :: 0 <= i < |elems| ==> |elems[i]| == itemsize
    ensures FromBuffer(ToBytes(elems), itemsize) == Some(elems)
    decreases |elems|
  {
    ToBytesLength(elems, itemsize);
    var b := ToBytes(elems);
    MultipleOfItems(|elems|, itemsize);
    if elems != [] {
      FromBufferToBytes(elems[1..], itemsize);
      assert b[..itemsize] == elems[0];
      assert b[itemsize..] == ToBytes(elems[1..]);
      assert [elems[0]] + elems[1..] == elems;
    }
  }

  lemma {:induction false} MultipleOfItems(m: nat, k: nat)
    requires 0 < k
    ensures IsMultiple(m * k, k)
    decreases m
  {
    if m > 0 {
      MultipleOfItems(m - 1, k);
      assert m * k - k == (m - 1) * k;
    }
  }

  /** `ndarray.reshape(shape)`: the same elements under a shape of the same size, or a ValueError. */
  function Reshape(a: NdArray, shape: seq<nat>): (r: Option<NdArray>)
    ensures r.Some? <==> Product(shape) == |a.elems|
    ensures r.Some? ==> r.value.elems == a.elems && r.value.shape == shape && r.value.dtype == a.dtype
  {
    if Product(shape) == |a.elems| then Some(NdArray(a.dtype, shape, a.elems)) else None
  }

  /** The layout is undone by reshaping to the original shape: nothing is reordered or lost. */
  lemma PrepareThenReshape(a: NdArray)
    requires WellFormed(a) && IsNumericKind(a.dtype.kind)
    ensures Reshape(PrepareData(a, a.dtype).value, a.shape) == Some(a)
  {
  }
}
