/** The serialiser and its counterpart: Pack appends to a byte vector, Unpack moves a pointer over the data it
    is given. Both are proved against the wire format. */
module Pack {
  import opened EventModel
  import opened PackFormat
  import opened EventFormat

  lemma LeBytes(n: nat)
    ensures Le(n, 1) == [n % 0x100]
    ensures Le(n, 2) == [n % 0x100, (n / 0x100) % 0x100]
    ensures Le(n, 4) == [n % 0x100, (n / 0x100) % 0x100, (n / 0x1_0000) % 0x100, (n / 0x100_0000) % 0x100]
  {
    var a, b, c := n / 0x100, n / 0x1_0000, n / 0x100_0000;
    assert a / 0x100 == b && b / 0x100 == c;
    assert Le(c, 1) == [c % 0x100];
    assert Le(b, 2) == [b % 0x100] + Le(c, 1);
    assert Le(a, 3) == [a % 0x100] + Le(b, 2);
    assert Le(a, 1) == [a % 0x100];
  }

  lemma LeStep(n: nat, k: nat)
    requires k > 0
    ensures Le(n, k) == [n % 0x100] + Le(n / 0x100, k - 1)
  {
  }

  lemma LeBytes8(n: nat, d: nat)
    requires d == n / TWO_32
    ensures Le(n, 8) == [n % 0x100, (n / 0x100) % 0x100, (n / 0x1_0000) % 0x100, (n / 0x100_0000) % 0x100] + Le(d, 4)
  {
    var a, b, c := n / 0x100, n / 0x1_0000, n / 0x100_0000;
    assert a / 0x100 == b && b / 0x100 == c && c / 0x100 == d;
    LeStep(n, 8);
    LeStep(a, 7);
    LeStep(b, 6);
    LeStep(c, 5);
    Join(n % 0x100, a % 0x100, b % 0x100, c % 0x100, Le(d, 4));
  }

  lemma Join(a: byte, b: byte, c: byte, d: byte, s: seq<byte>)
    ensures [a] + ([b] + ([c] + ([d] + s))) == [a, b, c, d] + s
  {
  }

  /** Appending one after the other is appending what they make together. */
  lemma Chain(s: seq<byte>, a: seq<byte>, b: seq<byte>, c: seq<byte>, d: seq<byte>)
    ensures s + a + b + c + d == s + (a + (b + (c + d)))
  {
  }

  lemma Chain2(s: seq<byte>, a: seq<byte>, b: seq<byte>)
    ensures s + a + b == s + (a + b)
  {
  }

  lemma Chain3(s: seq<byte>, a: seq<byte>, b: seq<byte>, c: seq<byte>)
    ensures s + a + b + c == s + (a + (b + c))
  {
  }

  lemma TensorChain(s: seq<byte>, n: byte, shape: seq<byte>, e: byte, c: byte, data: seq<byte>)
    ensures s + [n] + shape + [e] + [c] + data == s + ([n] + (shape + ([e] + ([c] + data))))
  {
  }

  class Pack {
    var serializedObject: seq<byte>

    constructor ()
      ensures serializedObject == []
    {
      serializedObject := [];
    }

    method WriteByte(res: byte)
      modifies this
      ensures serializedObject == old(serializedObject) + [res]
    {
      serializedObject := serializedObject + [res % 0x100];
    }

    method WriteU16(res: uint16)
      modifies this
      ensures serializedObject == old(serializedObject) + Le(res, 2)
    {
      LeBytes(res);
      serializedObject := serializedObject + [res % 0x100];
      serializedObject := serializedObject + [(res / 0x100) % 0x100];
    }

    method WriteU32(res: uint32)
      modifies this
      ensures serializedObject == old(serializedObject) + Le(res, 4)
    {
      LeBytes(res);
      serializedObject := serializedObject + [res % 0x100];
      serializedObject := serializedObject + [(res / 0x100) % 0x100];
      serializedObject := serializedObject + [(res / 0x1_0000) % 0x100];
      serializedObject := serializedObject + [(res / 0x100_0000) % 0x100];
    }

    method WriteU64(res: uint64)
      modifies this
      ensures serializedObject == old(serializedObject) + Le(res, 8)
    {
      ghost var d := res / TWO_32;
      LeBytes8(res, d);
      LeBytes(d);
      assert d / 0x100 == res / 0x100_0000_0000 && d / 0x1_0000 == res / 0x1_0000_0000_0000;
      assert d / 0x100_0000 == res / 0x100_0000_0000_0000;
      serializedObject := serializedObject + [res % 0x100];
      serializedObject := serializedObject + [(res / 0x100) % 0x100];
      serializedObject := serializedObject + [(res / 0x1_0000) % 0x100];
      serializedObject := serializedObject + [(res / 0x100_0000) % 0x100];
      serializedObject := serializedObject + [(res / 0x1_0000_0000) % 0x100];
      serializedObject := serializedObject + [(res / 0x100_0000_0000) % 0x100];
      serializedObject := serializedObject + [(res / 0x1_0000_0000_0000) % 0x100];
      serializedObject := serializedObject + [(res / 0x100_0000_0000_0000) % 0x100];
    }

    /** The elements as they are in memory, behind their number in 32 bits. */
    method PackArray(d: seq<byte>, nbelems: nat)
      modifies this
      ensures serializedObject == old(serializedObject) + (Le(nbelems % TWO_32, 4) + d)
      ensures nbelems < TWO_32 ==> serializedObject == old(serializedObject) + (Le(nbelems, 4) + d)
    {
      ghost var s := serializedObject;
      WriteU32(nbelems % TWO_32);
      serializedObject := serializedObject + d;
      Chain2(s, Le(nbelems % TWO_32, 4), d);
    }

    method PackTensor(t: Value)
      requires t.Tensor? && WellFormed(t)
      modifies this
      ensures serializedObject == old(serializedObject) + EncodeValue(t)
    {
      ghost var s := serializedObject;
      WriteByte(TAG_TENSOR);
      PackTensorBody(t.nbDims, t.dims, t.elem, t.data);
      Chain2(s, [TAG_TENSOR], EncodeTensor(t.nbDims, t.dims, t.elem, t.data));
    }

    method PackTensorBody(nbDims: byte, dims: seq<uint32>, elem: Elem, data: seq<byte>)
      requires nbDims <= |dims|
      modifies this
      ensures serializedObject == old(serializedObject) + EncodeTensor(nbDims, dims, elem, data)
    {
      ghost var s, shape := serializedObject, Le(TENSOR_NB_DIMS, 4) + EncodeDims(dims);
      ghost var sized := Le(TensorSize(nbDims, dims), 4) + data;
      WriteByte(nbDims);
      PackArray(EncodeDims(dims), TENSOR_NB_DIMS);
      WriteByte(ElemTag(elem));
      WriteByte(COPY_BUFFER);
      PackArray(data, TensorSize(nbDims, dims));
      TensorChain(s, nbDims, shape, ElemTag(elem), COPY_BUFFER, sized);
      TensorLayout(nbDims, dims, elem, data);
    }

    /** A tag and a value of 1, 2, 4 or 8 bytes. */
    method WriteTagged(tag: byte, res: nat, size: nat)
      requires (size == 1 && res < TWO_8) || (size == 2 && res < TWO_16) || (size == 4 && res < TWO_32)
               || (size == 8 && res < TWO_64)
      modifies this
      ensures serializedObject == old(serializedObject) + ([tag] + Le(res, size))
    {
      WriteByte(tag);
      match size {
        case 1 =>
          LeBytes(res);
          WriteByte(res);
        case 2 => WriteU16(res);
        case 4 => WriteU32(res);
        case _ => WriteU64(res);
      }
    }

    method PackScalar(v: Value)
      requires !v.Buffer? && !v.Str? && !v.Tensor?
      modifies this
      ensures serializedObject == old(serializedObject) + EncodeValue(v)
    {
      match v {
        case NoValue =>
          WriteByte(TAG_NONE);
        case UInt8(x) =>
          WriteTagged(7, x, 1);
        case UInt16(x) =>
          WriteTagged(8, x, 2);
        case UInt32(x) =>
          WriteTagged(9, x, 4);
        case UInt64(x) =>
          WriteTagged(10, x, 8);
        case Int8(x) =>
          WriteTagged(1, x, 1);
        case Int16(x) =>
          WriteTagged(2, x, 2);
        case Int32(x) =>
          WriteTagged(3, x, 4);
        case Int64(x) =>
          WriteTagged(4, x, 8);
        case Float(x) =>
          WriteTagged(5, x, 4);
        case Double(x) =>
          WriteTagged(6, x, 8);
      }
    }

    method PackValue(v: Value)
      requires WellFormed(v)
      modifies this
      ensures serializedObject == old(serializedObject) + EncodeValue(v)
    {
      match v {
        case Buffer(bytes) =>
          WriteByte(TAG_ANY);
          WriteByte(COPY_BUFFER);
          PackArray(bytes, |bytes|);
          BufferLayout(bytes, Le(|bytes|, 4));
        case Str(chars) =>
          WriteByte(TAG_STR);
          PackArray(chars + [0], |chars| + 1);
          StrLayout(chars, Le((|chars| + 1) % TWO_32, 4));
        case Tensor(_, _, _, _, _) =>
          PackTensor(v);
        case _ =>
          PackScalar(v);
      }
    }

    /** pack(): behind what was packed before comes the encoding of the event. */
    method PackEvent(node: uint32, e: Event)
      requires WellFormedEvent(e)
      modifies this
      ensures serializedObject == old(serializedObject) + EncodeEvent(node, e)
    {
      ghost var s := serializedObject;
      WriteU32(node);
      WriteU32(e.id);
      WriteByte(e.priority % TWO_8);
      PackData(e.data);
      Chain(s, Le(node, 4), Le(e.id, 4), [e.priority % TWO_8], EncodeData(e.data));
    }

    method PackData(d: EventData)
      requires WellFormedData(d) && AllWellFormed(Values(d))
      modifies this
      ensures serializedObject == old(serializedObject) + EncodeData(d)
    {
      if d.Single? {
        PackSingle(d);
      } else {
        PackMany(d);
      }
    }

    method PackMany(d: EventData)
      requires d.List? && WellFormedData(d) && AllWellFormed(Values(d))
      modifies this
      ensures serializedObject == old(serializedObject) + EncodeData(d)
    {
      ghost var s, size, values := serializedObject, Le(d.nb, 4), EncodeValues(Values(d));
      WriteByte(1);
      WriteU32(d.nb);
      PackList(d);
      Chain3(s, [1], size, values);
    }

    method PackSingle(d: EventData)
      requires d.Single? && AllWellFormed(Values(d))
      modifies this
      ensures serializedObject == old(serializedObject) + EncodeData(d)
    {
      ghost var s := serializedObject;
      assert Values(d)[0] == d.value;
      WriteByte(0);
      PackValue(d.value);
      Chain2(s, [0], EncodeValue(d.value));
    }

    method PackList(d: EventData)
      requires d.List? && WellFormedData(d) && AllWellFormed(Values(d))
      modifies this
      ensures serializedObject == old(serializedObject) + EncodeValues(Values(d))
    {
      ghost var s, vs := serializedObject, Values(d);
      var i := 0;
      assert s + EncodeValues(vs[..0]) == s;
      while i < d.nb
        invariant 0 <= i <= d.nb
        invariant serializedObject == s + EncodeValues(vs[..i])
      {
        assert vs[i] == d.values[i];
        PackValue(d.values[i]);
        EncodeLast(s, vs, i);
        i := i + 1;
      }
      assert vs[..d.nb] == vs;
    }
  }

  lemma EncodeLast(s: seq<byte>, vs: seq<Value>, i: nat)
    requires i < |vs| && AllWellFormed(vs)
    ensures s + EncodeValues(vs[..i]) + EncodeValue(vs[i]) == s + EncodeValues(vs[..i + 1])
  {
    EncodeOneMore(vs, i);
    Chain2(s, EncodeValues(vs[..i]), EncodeValue(vs[i]));
  }

  lemma EncodeOneMore(vs: seq<Value>, i: nat)
    requires i < |vs| && AllWellFormed(vs)
    ensures EncodeValues(vs[..i + 1]) == EncodeValues(vs[..i]) + EncodeValue(vs[i])
  {
    assert vs[..i + 1][..i] == vs[..i];
  }
}
