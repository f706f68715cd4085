/** The wire format of events: little-endian, each value behind a one-byte tag. Encoding and decoding as
    functions, and exactly which values and events survive the trip. */
module PackFormat {
  import opened EventModel

  // ------------------------------------------------------------------------- integers

  function Pow256(k: nat): nat {
    if k == 0 then 1 else 0x100 * Pow256(k - 1)
  }

  function Le(n: nat, k: nat): (bs: seq<byte>)
    ensures |bs| == k
  {
    if k == 0 then [] else [n % 0x100] + Le(n / 0x100, k - 1)
  }

  function FromLe(bs: seq<byte>): nat {
    if bs == [] then 0 else bs[0] + 0x100 * FromLe(bs[1..])
  }

  lemma {:induction false} FromLeOfLe(n: nat, k: nat)
    requires n < Pow256(k)
    ensures FromLe(Le(n, k)) == n
  {
    if k > 0 {
      FromLeOfLe(n / 0x100, k - 1);
      assert Le(n, k)[1..] == Le(n / 0x100, k - 1);
    }
  }

  lemma Powers()
    ensures Pow256(1) == TWO_8 && Pow256(2) == TWO_16 && Pow256(4) == TWO_32 && Pow256(8) == TWO_64
  {
    assert Pow256(3) == 0x100_0000;
    assert Pow256(5) == 0x100 * Pow256(4);
    assert Pow256(6) == 0x100 * Pow256(5);
    assert Pow256(7) == 0x100 * Pow256(6);
  }

  // ----------------------------------------------------------------------------- tags

  function ElemTag(e: Elem): byte {
    match e
    case EInt8 => 1 case EInt16 => 2 case EInt32 => 3 case EInt64 => 4 case EFloat => 5 case EDouble => 6
    case EUInt8 => 7 case EUInt16 => 8 case EUInt32 => 9 case EUInt64 => 10
  }

  const ELEMS: seq<Elem> := [EInt8, EInt16, EInt32, EInt64, EFloat, EDouble, EUInt8, EUInt16, EUInt32, EUInt64]

  function ElemSize(e: Elem): nat {
    match e
    case EInt8 => 1 case EInt16 => 2 case EInt32 => 4 case EInt64 => 8 case EFloat => 4 case EDouble => 8
    case EUInt8 => 1 case EUInt16 => 2 case EUInt32 => 4 case EUInt64 => 8
  }

  const TAG_NONE: byte := 0
  const TAG_ANY: byte := 11
  const TAG_STR: byte := 12
  const TAG_TENSOR: byte := 13
  const COPY_BUFFER: byte := 0
  const SHARED_BUFFER: byte := 1

  // -------------------------------------------------------------------------- encoding

  /** Tensor::size(), in 32-bit arithmetic. */
  function Product(dims: seq<uint32>): uint32 {
    if dims == [] then 1 else (Product(dims[..|dims| - 1]) * dims[|dims| - 1]) % TWO_32
  }

  function TensorSize(nbDims: nat, dims: seq<uint32>): uint32
    requires nbDims <= |dims|
  {
    if nbDims == 0 then 0 else Product(dims[..nbDims])
  }

  /** What the C++ types guarantee: 32-bit buffer sizes, and tensors whose buffer has the size their dimensions say. */
  predicate WellFormed(v: Value) {
    match v
    case Buffer(bytes) => |bytes| < TWO_32
    case Tensor(nbDims, dims, elem, data, _) =>
      && |dims| == TENSOR_NB_DIMS && nbDims <= TENSOR_NB_DIMS
      && |data| == TensorSize(nbDims, dims) * ElemSize(elem)
    case _ => true
  }

  function EncodeDims(dims: seq<uint32>): seq<byte> {
    if dims == [] then [] else EncodeDims(dims[..|dims| - 1]) + Le(dims[|dims| - 1], 4)
  }

  function EncodeTensor(nbDims: byte, dims: seq<uint32>, elem: Elem, data: seq<byte>): seq<byte>
    requires nbDims <= |dims|
  {
    [nbDims] + Le(TENSOR_NB_DIMS, 4) + EncodeDims(dims)
    + [ElemTag(elem), COPY_BUFFER] + Le(TensorSize(nbDims, dims), 4) + data
  }

  function EncodeValue(v: Value): (bs: seq<byte>)
    requires WellFormed(v)
    ensures |bs| >= 1
  {
    match v
    case NoValue => [TAG_NONE]
    case Int8(x) => [1] + Le(x, 1)
    case Int16(x) => [2] + Le(x, 2)
    case Int32(x) => [3] + Le(x, 4)
    case Int64(x) => [4] + Le(x, 8)
    case Float(x) => [5] + Le(x, 4)
    case Double(x) => [6] + Le(x, 8)
    case UInt8(x) => [7] + Le(x, 1)
    case UInt16(x) => [8] + Le(x, 2)
    case UInt32(x) => [9] + Le(x, 4)
    case UInt64(x) => [10] + Le(x, 8)
    case Buffer(bytes) => [TAG_ANY, COPY_BUFFER] + Le(|bytes|, 4) + bytes
    case Str(chars) => [TAG_STR] + Le((|chars| + 1) % TWO_32, 4) + (chars + [0])
    case Tensor(nbDims, dims, elem, data, _) => [TAG_TENSOR] + EncodeTensor(nbDims, dims, elem, data)
  }

  // -------------------------------------------------------------------------- decoding

  /** A value and the position behind it, or a read outside of the data, which the code does not check. */
  datatype Parsed<T> = Got(value: T, next: nat) | Invalid

  /** A number that is known to fit. */
  function Fit(n: nat, limit: nat): (r: nat)
    requires limit > 0
    ensures r < limit && (n < limit ==> r == n)
  {
    if n < limit then n else 0
  }

  function ReadLe(bs: seq<byte>, at: nat, k: nat): (p: Parsed<nat>)
    ensures p.Got? ==> p.next == at + k <= |bs|
  {
    if at + k <= |bs| then Got(FromLe(bs[at..at + k]), at + k) else Invalid
  }

  function ReadBytes(bs: seq<byte>, at: nat, n: nat): (p: Parsed<seq<byte>>)
    ensures p.Got? ==> p.next == at + n <= |bs| && |p.value| == n
  {
    if at + n <= |bs| then Got(bs[at..at + n], at + n) else Invalid
  }

  /** The scalars that unpack_value knows: there is no case for 64-bit integers. */
  predicate IsScalarTag(tag: byte) {
    tag == 1 || tag == 2 || tag == 3 || tag == 5 || tag == 6 || tag == 7 || tag == 8 || tag == 9
  }

  function ScalarSize(tag: byte): nat {
    if tag == 1 || tag == 7 then 1 else if tag == 2 || tag == 8 then 2 else if tag == 6 then 8 else 4
  }

  function Scalar(tag: byte, n: nat): Value {
    if tag == 1 then Int8(Fit(n, TWO_8)) else if tag == 2 then Int16(Fit(n, TWO_16)) else if tag == 3 then Int32(Fit(n, TWO_32))
    else if tag == 5 then Float(Fit(n, TWO_32)) else if tag == 6 then Double(Fit(n, TWO_64))
    else if tag == 7 then UInt8(Fit(n, TWO_8)) else if tag == 8 then UInt16(Fit(n, TWO_16)) else UInt32(Fit(n, TWO_32))
  }

  function DecodeScalar(bs: seq<byte>, at: nat, tag: byte): Parsed<Value> {
    var p := ReadLe(bs, at, ScalarSize(tag));
    if p.Invalid? then Invalid else Got(Scalar(tag, p.value), p.next)
  }

  /** A shared buffer is two words: without a memory server it comes back as no value. */
  function DecodeShared(bs: seq<byte>, at: nat): Parsed<Value> {
    if at + 8 <= |bs| then Got(NoValue, at + 8) else Invalid
  }

  function DecodeBuffer(bs: seq<byte>, at: nat): Parsed<Value> {
    if at >= |bs| then Invalid
    else if bs[at] == SHARED_BUFFER then DecodeShared(bs, at + 1)
    else if bs[at] != COPY_BUFFER then Got(NoValue, at + 1)
    else
      var size := ReadLe(bs, at + 1, 4);
      if size.Invalid? then Invalid
      else
        var data := ReadBytes(bs, size.next, size.value);
        if data.Invalid? then Invalid else Got(Buffer(data.value), data.next)
  }

  /** The last byte is dropped; with a size of zero there is none. */
  function DecodeStr(bs: seq<byte>, at: nat): Parsed<Value> {
    var size := ReadLe(bs, at, 4);
    if size.Invalid? || size.value == 0 then Invalid
    else
      var data := ReadBytes(bs, size.next, size.value);
      if data.Invalid? then Invalid else Got(Str(data.value[..size.value - 1]), data.next)
  }

  function DimsOneMore(bs: seq<byte>, init: Parsed<seq<uint32>>): (p: Parsed<seq<uint32>>)
    ensures p.Got? ==> init.Got? && |p.value| == |init.value| + 1
  {
    if init.Invalid? then Invalid
    else
      var d := ReadLe(bs, init.next, 4);
      if d.Invalid? then Invalid else Got(init.value + [Fit(d.value, TWO_32)], d.next)
  }

  /** The stored length of the dimensions is skipped. */
  function DecodeDims(bs: seq<byte>, at: nat, n: nat): (p: Parsed<seq<uint32>>)
    ensures p.Got? ==> |p.value| == n
  {
    if n == 0 then (if at + 4 <= |bs| then Got([], at + 4) else Invalid)
    else DimsOneMore(bs, DecodeDims(bs, at, n - 1))
  }

  /** unpack_tensor<T>. An empty buffer whose allocation gives NULL loses the dimensions. */
  function DecodeData(bs: seq<byte>, at: nat, nbDims: byte, dims: seq<uint32>, elem: Elem, nullIfEmpty: bool): Parsed<Value> {
    if at >= |bs| then Invalid
    else if bs[at] == SHARED_BUFFER then DecodeShared(bs, at + 1)
    else if bs[at] != COPY_BUFFER then Got(NoValue, at + 1)
    else
      var nb := ReadLe(bs, at + 1, 4);
      if nb.Invalid? then Invalid
      else
        var data := ReadBytes(bs, nb.next, nb.value * ElemSize(elem));
        if data.Invalid? then Invalid
        else Got(Tensor(if nullIfEmpty && nb.value == 0 then 0 else nbDims, dims, elem, data.value, false), data.next)
  }

  function DecodeTensor(bs: seq<byte>, at: nat, nullIfEmpty: bool): Parsed<Value> {
    if at >= |bs| then Invalid
    else
      var dims := DecodeDims(bs, at + 1, TENSOR_NB_DIMS);
      if dims.Invalid? || dims.next >= |bs| then Invalid
      else
        var tag := bs[dims.next];
        if 1 <= tag <= |ELEMS|
        then DecodeData(bs, dims.next + 1, bs[at], dims.value, ELEMS[tag - 1], nullIfEmpty)
        else Got(NoValue, dims.next)
  }

  /** unpack_value: a tag it does not know is not consumed, and stands for no value. */
  function DecodeValue(bs: seq<byte>, at: nat, nullIfEmpty: bool): Parsed<Value> {
    if at >= |bs| then Invalid
    else
      var tag := bs[at];
      if tag == TAG_NONE then Got(NoValue, at + 1)
      else if IsScalarTag(tag) then DecodeScalar(bs, at + 1, tag)
      else if tag == TAG_ANY then DecodeBuffer(bs, at + 1)
      else if tag == TAG_STR then DecodeStr(bs, at + 1)
      else if tag == TAG_TENSOR then DecodeTensor(bs, at + 1, nullIfEmpty)
      else Got(NoValue, at)
  }

  // ------------------------------------------------------------------------ round trip

  predicate Gives<T(==)>(p: Parsed<T>, v: T) {
    p.Got? && p.value == v
  }

  /** `part` stands in the data at a position. */
  predicate Holds(bs: seq<byte>, at: nat, part: seq<byte>) {
    at + |part| <= |bs| && bs[at..at + |part|] == part
  }

  lemma HoldsParts(bs: seq<byte>, at: nat, a: seq<byte>, b: seq<byte>)
    requires Holds(bs, at, a + b)
    ensures Holds(bs, at, a) && Holds(bs, at + |a|, b)
  {
    assert bs[at..at + |a|] == (a + b)[..|a|];
    assert bs[at + |a|..at + |a| + |b|] == (a + b)[|a|..];
  }

  lemma ReadLeBack(bs: seq<byte>, at: nat, n: nat, k: nat)
    requires Holds(bs, at, Le(n, k)) && n < Pow256(k)
    ensures ReadLe(bs, at, k) == Got(n, at + k)
  {
    FromLeOfLe(n, k);
  }

  /** What unpack gives back: everything but 64-bit integers, strings whose size does not fit, constant tensors
      (they come back as tensors), and, where an empty allocation is NULL, empty tensors with dimensions. */
  predicate Portable(v: Value, nullIfEmpty: bool)
    requires WellFormed(v)
  {
    match v
    case Int64(_) => false
    case UInt64(_) => false
    case Str(chars) => |chars| + 1 < TWO_32
    case Tensor(nbDims, dims, _, _, constant) => !constant && !(nullIfEmpty && nbDims > 0 && TensorSize(nbDims, dims) == 0)
    case _ => true
  }

  lemma TagStep(bs: seq<byte>, at: nat, tag: byte, part: seq<byte>)
    requires Holds(bs, at, [tag] + part)
    ensures at < |bs| && bs[at] == tag && Holds(bs, at + 1, part)
  {
    HoldsParts(bs, at, [tag], part);
    assert bs[at] == bs[at..at + 1][0];
  }

  function ScalarLimit(tag: byte): nat {
    if ScalarSize(tag) == 1 then TWO_8 else if ScalarSize(tag) == 2 then TWO_16
    else if ScalarSize(tag) == 8 then TWO_64 else TWO_32
  }

  lemma ScalarBack(bs: seq<byte>, at: nat, tag: byte, n: nat, nullIfEmpty: bool)
    requires IsScalarTag(tag) && n < ScalarLimit(tag)
    requires Holds(bs, at, [tag] + Le(n, ScalarSize(tag)))
    ensures DecodeValue(bs, at, nullIfEmpty) == Got(Scalar(tag, n), at + 1 + ScalarSize(tag))
  {
    TagStep(bs, at, tag, Le(n, ScalarSize(tag)));
    Powers();
    ReadLeBack(bs, at + 1, n, ScalarSize(tag));
  }

  lemma ReadSizeBack(bs: seq<byte>, at: nat, n: uint32, part: seq<byte>)
    requires Holds(bs, at, Le(n, 4) + part)
    ensures ReadLe(bs, at, 4) == Got(n, at + 4) && Holds(bs, at + 4, part)
  {
    Powers();
    HoldsParts(bs, at, Le(n, 4), part);
    ReadLeBack(bs, at, n, 4);
  }

  lemma BufferBack(bs: seq<byte>, at: nat, bytes: seq<byte>, n: uint32)
    requires n == |bytes| && Holds(bs, at, [COPY_BUFFER] + (Le(n, 4) + bytes))
    ensures DecodeBuffer(bs, at) == Got(Buffer(bytes), at + 5 + n)
  {
    TagStep(bs, at, COPY_BUFFER, Le(n, 4) + bytes);
    ReadSizeBack(bs, at + 1, n, bytes);
  }

  lemma StrBack(bs: seq<byte>, at: nat, chars: seq<byte>, size: uint32)
    requires size == (|chars| + 1) % TWO_32 && Holds(bs, at, Le(size, 4) + (chars + [0]))
    ensures |chars| + 1 < TWO_32 ==> DecodeStr(bs, at) == Got(Str(chars), at + 5 + |chars|)
    ensures Gives(DecodeStr(bs, at), Str(chars)) ==> |chars| + 1 < TWO_32
  {
    ReadSizeBack(bs, at, size, chars + [0]);
    var data := ReadBytes(bs, at + 4, size);
    if |chars| + 1 < TWO_32 {
      assert data.value[..size - 1] == chars;
    } else if size > 0 && data.Got? {
      assert |data.value[..size - 1]| < |chars|;
    }
  }

  lemma ReadWordBack(bs: seq<byte>, at: nat, n: uint32)
    requires Holds(bs, at, Le(n, 4))
    ensures ReadLe(bs, at, 4) == Got(n, at + 4)
  {
    Powers();
    ReadLeBack(bs, at, n, 4);
  }

  lemma DimsStep(bs: seq<byte>, init: seq<uint32>, d: uint32, at: nat)
    requires Holds(bs, at, Le(d, 4))
    ensures DimsOneMore(bs, Got(init, at)) == Got(init + [d], at + 4)
  {
    ReadWordBack(bs, at, d);
  }

  lemma {:induction false} DimsLength(dims: seq<uint32>)
    ensures |EncodeDims(dims)| == 4 * |dims|
  {
    if dims != [] {
      DimsLength(dims[..|dims| - 1]);
    }
  }

  lemma {:induction false} DimsBack(bs: seq<byte>, at: nat, dims: seq<uint32>) returns (p: Parsed<seq<uint32>>, end: nat)
    requires Holds(bs, at, Le(TENSOR_NB_DIMS, 4) + EncodeDims(dims))
    ensures p == DecodeDims(bs, at, |dims|) && p == Got(dims, end) && end == at + 4 + |EncodeDims(dims)|
  {
    if dims == [] {
      p, end := Got([], at + 4), at + 4;
    } else {
      var init, d := dims[..|dims| - 1], dims[|dims| - 1];
      assert init + [d] == dims;
      DimsSplit(bs, at, init, d);
      var q, middle := DimsBack(bs, at, init);
      DimsStep(bs, init, d, middle);
      p, end := DimsOneMore(bs, q), middle + 4;
    }
  }

  lemma DimsSplit(bs: seq<byte>, at: nat, init: seq<uint32>, d: uint32)
    requires Holds(bs, at, Le(TENSOR_NB_DIMS, 4) + EncodeDims(init + [d]))
    ensures Holds(bs, at, Le(TENSOR_NB_DIMS, 4) + EncodeDims(init))
    ensures Holds(bs, at + 4 + |EncodeDims(init)|, Le(d, 4)) && |EncodeDims(init + [d])| == |EncodeDims(init)| + 4
  {
    assert (init + [d])[..|init|] == init;
    Regroup3(Le(TENSOR_NB_DIMS, 4), EncodeDims(init), Le(d, 4));
    HoldsParts(bs, at, Le(TENSOR_NB_DIMS, 4) + EncodeDims(init), Le(d, 4));
  }

  lemma Regroup3(a: seq<byte>, b: seq<byte>, c: seq<byte>)
    ensures a + (b + c) == (a + b) + c
  {
  }

  lemma DataBack(bs: seq<byte>, at: nat, nbDims: byte, dims: seq<uint32>, elem: Elem, data: seq<byte>, nullIfEmpty: bool)
    requires WellFormed(Tensor(nbDims, dims, elem, data, false))
    requires Holds(bs, at, [COPY_BUFFER] + (Le(TensorSize(nbDims, dims), 4) + data))
    ensures DecodeData(bs, at, nbDims, dims, elem, nullIfEmpty)
         == Got(Tensor(if nullIfEmpty && TensorSize(nbDims, dims) == 0 then 0 else nbDims, dims, elem, data, false), at + 5 + |data|)
  {
    var nb := TensorSize(nbDims, dims);
    TagStep(bs, at, COPY_BUFFER, Le(nb, 4) + data);
    ReadSizeBack(bs, at + 1, nb, data);
  }

  lemma ElemTags(elem: Elem)
    ensures 1 <= ElemTag(elem) <= |ELEMS| && ELEMS[ElemTag(elem) - 1] == elem
  {
  }

  lemma TensorParts(bs: seq<byte>, at: nat, nbDims: byte, dims: seq<uint32>, elem: Elem, data: seq<byte>, tail: seq<byte>)
    requires |dims| == TENSOR_NB_DIMS && nbDims <= |dims| && Holds(bs, at, EncodeTensor(nbDims, dims, elem, data))
    requires tail == [COPY_BUFFER] + (Le(TensorSize(nbDims, dims), 4) + data)
    ensures |EncodeTensor(nbDims, dims, elem, data)| == 18 + |tail|
    ensures at + 18 <= |bs| && bs[at] == nbDims && bs[at + 17] == ElemTag(elem)
    ensures DecodeDims(bs, at + 1, TENSOR_NB_DIMS) == Got(dims, at + 17) && Holds(bs, at + 18, tail)
  {
    TensorLayout(nbDims, dims, elem, data);
    var shape := Le(TENSOR_NB_DIMS, 4) + EncodeDims(dims);
    TagStep(bs, at, nbDims, shape + ([ElemTag(elem)] + tail));
    HoldsParts(bs, at + 1, shape, [ElemTag(elem)] + tail);
    ShapeBack(bs, at + 1, dims);
    TagStep(bs, at + 17, ElemTag(elem), tail);
  }

  lemma TensorBack(bs: seq<byte>, at: nat, nbDims: byte, dims: seq<uint32>, elem: Elem, data: seq<byte>, nullIfEmpty: bool)
    requires WellFormed(Tensor(nbDims, dims, elem, data, false))
    requires Holds(bs, at, EncodeTensor(nbDims, dims, elem, data))
    ensures |EncodeTensor(nbDims, dims, elem, data)| == 23 + |data|
    ensures DecodeTensor(bs, at, nullIfEmpty)
         == Got(Tensor(if nullIfEmpty && TensorSize(nbDims, dims) == 0 then 0 else nbDims, dims, elem, data, false), at + 23 + |data|)
  {
    TensorParts(bs, at, nbDims, dims, elem, data, [COPY_BUFFER] + (Le(TensorSize(nbDims, dims), 4) + data));
    ElemTags(elem);
    DataBack(bs, at + 18, nbDims, dims, elem, data, nullIfEmpty);
  }

  lemma TensorLayout(nbDims: byte, dims: seq<uint32>, elem: Elem, data: seq<byte>)
    requires nbDims <= |dims|
    ensures EncodeTensor(nbDims, dims, elem, data)
         == [nbDims] + ((Le(TENSOR_NB_DIMS, 4) + EncodeDims(dims))
                        + ([ElemTag(elem)] + ([COPY_BUFFER] + (Le(TensorSize(nbDims, dims), 4) + data))))
  {
    Regroup(nbDims, Le(TENSOR_NB_DIMS, 4), EncodeDims(dims), ElemTag(elem), COPY_BUFFER,
            Le(TensorSize(nbDims, dims), 4), data);
  }

  lemma Regroup(a: byte, b: seq<byte>, c: seq<byte>, d: byte, e: byte, f: seq<byte>, g: seq<byte>)
    ensures [a] + b + c + [d, e] + f + g == [a] + ((b + c) + ([d] + ([e] + (f + g))))
  {
  }

  lemma ShapeBack(bs: seq<byte>, at: nat, dims: seq<uint32>)
    requires |dims| == TENSOR_NB_DIMS && Holds(bs, at, Le(TENSOR_NB_DIMS, 4) + EncodeDims(dims))
    ensures |EncodeDims(dims)| == 12 && DecodeDims(bs, at, TENSOR_NB_DIMS) == Got(dims, at + 16)
  {
    DimsLength(dims);
    var p, end := DimsBack(bs, at, dims);
  }

  lemma UnknownBack(bs: seq<byte>, at: nat, tag: byte, part: seq<byte>, nullIfEmpty: bool)
    requires (tag == 4 || tag == 10) && Holds(bs, at, [tag] + part)
    ensures DecodeValue(bs, at, nullIfEmpty) == Got(NoValue, at)
  {
    TagStep(bs, at, tag, part);
  }

  lemma BufferLayout(bytes: seq<byte>, size: seq<byte>)
    ensures [TAG_ANY, COPY_BUFFER] + size + bytes == [TAG_ANY] + ([COPY_BUFFER] + (size + bytes))
  {
  }

  lemma StrLayout(chars: seq<byte>, size: seq<byte>)
    ensures [TAG_STR] + size + (chars + [0]) == [TAG_STR] + (size + (chars + [0]))
  {
  }

  lemma BufferRoundTrip(bs: seq<byte>, at: nat, bytes: seq<byte>, nullIfEmpty: bool)
    requires |bytes| < TWO_32 && Holds(bs, at, EncodeValue(Buffer(bytes)))
    ensures DecodeValue(bs, at, nullIfEmpty) == Got(Buffer(bytes), at + |EncodeValue(Buffer(bytes))|)
  {
    BufferLayout(bytes, Le(|bytes|, 4));
    TagStep(bs, at, TAG_ANY, [COPY_BUFFER] + (Le(|bytes|, 4) + bytes));
    BufferBack(bs, at + 1, bytes, |bytes|);
  }

  lemma StrRoundTrip(bs: seq<byte>, at: nat, chars: seq<byte>, nullIfEmpty: bool)
    requires Holds(bs, at, EncodeValue(Str(chars)))
    ensures |chars| + 1 < TWO_32 ==>
              DecodeValue(bs, at, nullIfEmpty) == Got(Str(chars), at + |EncodeValue(Str(chars))|)
    ensures Gives(DecodeValue(bs, at, nullIfEmpty), Str(chars)) ==> |chars| + 1 < TWO_32
  {
    var size := (|chars| + 1) % TWO_32;
    StrLayout(chars, Le(size, 4));
    TagStep(bs, at, TAG_STR, Le(size, 4) + (chars + [0]));
    StrBack(bs, at + 1, chars, size);
  }

  lemma TensorRoundTrip(bs: seq<byte>, at: nat, v: Value, nullIfEmpty: bool)
    requires v.Tensor? && WellFormed(v) && Holds(bs, at, EncodeValue(v))
    ensures Portable(v, nullIfEmpty) ==> DecodeValue(bs, at, nullIfEmpty) == Got(v, at + |EncodeValue(v)|)
    ensures Gives(DecodeValue(bs, at, nullIfEmpty), v) ==> Portable(v, nullIfEmpty)
  {
    TagStep(bs, at, TAG_TENSOR, EncodeTensor(v.nbDims, v.dims, v.elem, v.data));
    TensorBack(bs, at + 1, v.nbDims, v.dims, v.elem, v.data, nullIfEmpty);
  }

  predicate Is64(v: Value) {
    v.Int64? || v.UInt64?
  }

  /** The scalars that unpack knows, as tag and bit pattern. */
  lemma ScalarLayout(v: Value) returns (tag: byte, n: nat)
    requires !v.Buffer? && !v.Str? && !v.Tensor? && !v.NoValue? && !Is64(v)
    ensures IsScalarTag(tag) && n < ScalarLimit(tag) && Scalar(tag, n) == v
    ensures EncodeValue(v) == [tag] + Le(n, ScalarSize(tag))
  {
    match v
    case Int8(x) => tag, n := 1, x;
    case Int16(x) => tag, n := 2, x;
    case Int32(x) => tag, n := 3, x;
    case Float(x) => tag, n := 5, x;
    case Double(x) => tag, n := 6, x;
    case UInt8(x) => tag, n := 7, x;
    case UInt16(x) => tag, n := 8, x;
    case UInt32(x) => tag, n := 9, x;
  }

  lemma ScalarRoundTrip(bs: seq<byte>, at: nat, v: Value, nullIfEmpty: bool)
    requires !v.Buffer? && !v.Str? && !v.Tensor? && Holds(bs, at, EncodeValue(v))
    ensures !Is64(v) ==> DecodeValue(bs, at, nullIfEmpty) == Got(v, at + |EncodeValue(v)|)
    ensures Gives(DecodeValue(bs, at, nullIfEmpty), v) ==> !Is64(v)
  {
    if v.NoValue? {
      TagStep(bs, at, TAG_NONE, []);
    } else if v.Int64? {
      UnknownBack(bs, at, 4, Le(v.i64, 8), nullIfEmpty);
    } else if v.UInt64? {
      UnknownBack(bs, at, 10, Le(v.u64, 8), nullIfEmpty);
    } else {
      var tag, n := ScalarLayout(v);
      ScalarBack(bs, at, tag, n, nullIfEmpty);
    }
  }

  /** Round trip: a portable value comes back, and exactly its encoding is consumed whatever follows; any other
      does not come back at all. */
  lemma ValueRoundTrip(bs: seq<byte>, at: nat, v: Value, nullIfEmpty: bool)
    requires WellFormed(v) && Holds(bs, at, EncodeValue(v))
    ensures Portable(v, nullIfEmpty) ==> DecodeValue(bs, at, nullIfEmpty) == Got(v, at + |EncodeValue(v)|)
    ensures Gives(DecodeValue(bs, at, nullIfEmpty), v) ==> Portable(v, nullIfEmpty)
  {
    match v
    case Buffer(bytes) => BufferRoundTrip(bs, at, bytes, nullIfEmpty);
    case Str(chars) => StrRoundTrip(bs, at, chars, nullIfEmpty);
    case Tensor(_, _, _, _, _) => TensorRoundTrip(bs, at, v, nullIfEmpty);
    case _ => ScalarRoundTrip(bs, at, v, nullIfEmpty);
  }
}
