/** The deserialiser: it moves a pointer over the data it is given and never looks at their size, so what is
    there must decode. */
module Unpack {
  import opened EventModel
  import opened PackFormat
  import opened EventFormat

  class Unpack {
    const data: seq<byte>
    /** Whether an allocation of no bytes gives a null pointer. */
    const nullIfEmpty: bool
    var pointer: nat

    constructor (data: seq<byte>, nullIfEmpty: bool)
      ensures this.data == data && this.nullIfEmpty == nullIfEmpty && pointer == 0
    {
      this.data := data;
      this.nullIfEmpty := nullIfEmpty;
      pointer := 0;
    }

    /** read_value<T> for a type of `k` bytes. */
    method ReadValue(k: nat) returns (n: nat)
      requires ReadLe(data, pointer, k).Got?
      modifies this
      ensures Got(n, pointer) == ReadLe(data, old(pointer), k)
    {
      n := FromLe(data[pointer..pointer + k]);
      pointer := pointer + k;
    }

    method ReadBuffer(size: nat) returns (bytes: seq<byte>)
      requires ReadBytes(data, pointer, size).Got?
      modifies this
      ensures Got(bytes, pointer) == ReadBytes(data, old(pointer), size)
    {
      bytes := data[pointer..pointer + size];
      pointer := pointer + size;
    }

    /** A tag is consumed only if it is the expected one. */
    method Maybe(k: byte) returns (found: bool)
      requires pointer < |data|
      modifies this
      ensures found == (data[old(pointer)] == k) && pointer == old(pointer) + if found then 1 else 0
    {
      found := data[pointer] == k;
      if found {
        pointer := pointer + 1;
      }
    }

    method ReadArray() returns (dims: seq<uint32>)
      requires DecodeDims(data, pointer, TENSOR_NB_DIMS).Got?
      modifies this
      ensures Got(dims, pointer) == DecodeDims(data, old(pointer), TENSOR_NB_DIMS)
    {
      ghost var start := pointer;
      DimsPrefix(data, start, 0, TENSOR_NB_DIMS);
      dims := [];
      pointer := pointer + 4;
      var i := 0;
      while i < TENSOR_NB_DIMS
        invariant 0 <= i <= TENSOR_NB_DIMS
        invariant Got(dims, pointer) == DecodeDims(data, start, i)
      {
        DimsPrefix(data, start, i + 1, TENSOR_NB_DIMS);
        var d := ReadValue(4);
        dims := dims + [Fit(d, TWO_32)];
        i := i + 1;
      }
    }

    method UnpackShared() returns (v: Value)
      requires DecodeShared(data, pointer).Got?
      modifies this
      ensures Got(v, pointer) == DecodeShared(data, old(pointer))
    {
      var size := ReadValue(4);
      var globalId := ReadValue(4);
      v := NoValue;
    }

    method UnpackTensor(nbDims: byte, dims: seq<uint32>, elem: Elem) returns (v: Value)
      requires DecodeData(data, pointer, nbDims, dims, elem, nullIfEmpty).Got?
      modifies this
      ensures Got(v, pointer) == DecodeData(data, old(pointer), nbDims, dims, elem, nullIfEmpty)
    {
      var kind := data[pointer];
      pointer := pointer + 1;
      if kind == COPY_BUFFER {
        var nb := ReadValue(4);
        var bytes := ReadBuffer(nb * ElemSize(elem));
        v := Tensor(if nullIfEmpty && nb == 0 then 0 else nbDims, dims, elem, bytes, false);
      } else if kind == SHARED_BUFFER {
        v := UnpackShared();
      } else {
        v := NoValue;
      }
    }

    method UnpackAny() returns (v: Value)
      requires DecodeBuffer(data, pointer).Got?
      modifies this
      ensures Got(v, pointer) == DecodeBuffer(data, old(pointer))
    {
      var kind := data[pointer];
      pointer := pointer + 1;
      if kind == COPY_BUFFER {
        var size := ReadValue(4);
        var bytes := ReadBuffer(size);
        v := Buffer(bytes);
      } else if kind == SHARED_BUFFER {
        v := UnpackShared();
      } else {
        v := NoValue;
      }
    }

    method UnpackStr() returns (v: Value)
      requires DecodeStr(data, pointer).Got?
      modifies this
      ensures Got(v, pointer) == DecodeStr(data, old(pointer))
    {
      var size := ReadValue(4);
      var bytes := ReadBuffer(size);
      v := Str(bytes[..size - 1]);
    }

    method UnpackAnyTensor() returns (v: Value)
      requires DecodeTensor(data, pointer, nullIfEmpty).Got?
      modifies this
      ensures Got(v, pointer) == DecodeTensor(data, old(pointer), nullIfEmpty)
    {
      var nbDims := data[pointer];
      pointer := pointer + 1;
      var dims := ReadArray();
      var tag := data[pointer];
      if 1 <= tag <= |ELEMS| {
        pointer := pointer + 1;
        v := UnpackTensor(nbDims, dims, ELEMS[tag - 1]);
      } else {
        v := NoValue;
      }
    }

    method UnpackScalar(tag: byte) returns (v: Value)
      requires IsScalarTag(tag) && DecodeScalar(data, pointer, tag).Got?
      modifies this
      ensures Got(v, pointer) == DecodeScalar(data, old(pointer), tag)
    {
      var n := ReadValue(ScalarSize(tag));
      v := Scalar(tag, n);
    }

    /** unpack_value: the tags are tried one after the other. */
    method UnpackValue() returns (v: Value)
      requires DecodeValue(data, pointer, nullIfEmpty).Got?
      modifies this
      ensures Got(v, pointer) == DecodeValue(data, old(pointer), nullIfEmpty)
    {
      var found := Maybe(TAG_NONE);
      if found {
        return NoValue;
      }
      found := Maybe(7);
      if found {
        v := UnpackScalar(7);
        return;
      }
      found := Maybe(1);
      if found {
        v := UnpackScalar(1);
        return;
      }
      found := Maybe(8);
      if found {
        v := UnpackScalar(8);
        return;
      }
      found := Maybe(2);
      if found {
        v := UnpackScalar(2);
        return;
      }
      found := Maybe(9);
      if found {
        v := UnpackScalar(9);
        return;
      }
      found := Maybe(3);
      if found {
        v := UnpackScalar(3);
        return;
      }
      found := Maybe(5);
      if found {
        v := UnpackScalar(5);
        return;
      }
      found := Maybe(6);
      if found {
        v := UnpackScalar(6);
        return;
      }
      v := UnpackBuffered();
    }

    method UnpackBuffered() returns (v: Value)
      requires DecodeValue(data, pointer, nullIfEmpty).Got?
      requires !IsScalarTag(data[pointer]) && data[pointer] != TAG_NONE
      modifies this
      ensures Got(v, pointer) == DecodeValue(data, old(pointer), nullIfEmpty)
    {
      var found := Maybe(TAG_ANY);
      if found {
        v := UnpackAny();
        return;
      }
      found := Maybe(TAG_STR);
      if found {
        v := UnpackStr();
        return;
      }
      found := Maybe(TAG_TENSOR);
      if found {
        v := UnpackAnyTensor();
        return;
      }
      return NoValue;
    }

    method UnpackList() returns (d: EventData)
      requires DecodeList(data, pointer, nullIfEmpty).Got?
      modifies this
      ensures Got(d, pointer) == DecodeList(data, old(pointer), nullIfEmpty)
    {
      var nb := ReadValue(4);
      var values := UnpackValues(nb);
      d := ListOf(values);
    }

    method UnpackValues(nb: nat) returns (values: seq<Value>)
      requires DecodeValues(data, pointer, nb, nullIfEmpty).Got?
      modifies this
      ensures Got(values, pointer) == DecodeValues(data, old(pointer), nb, nullIfEmpty)
    {
      ghost var start := pointer;
      values := [];
      var i := 0;
      while i < nb
        invariant 0 <= i <= nb
        invariant Got(values, pointer) == DecodeValues(data, start, i, nullIfEmpty)
      {
        ValuesNext(data, start, i, nb, Got(values, pointer), nullIfEmpty);
        var v := UnpackValue();
        values := values + [v];
        i := i + 1;
      }
    }

    /** unpack(). */
    method UnpackEvent() returns (node: nat, e: Event)
      requires DecodeEvent(data, pointer, nullIfEmpty).Got?
      modifies this
      ensures Got(Addressed(node, e), pointer) == DecodeEvent(data, old(pointer), nullIfEmpty)
    {
      node := ReadValue(4);
      var id := ReadValue(4);
      e := UnpackBody(node, Fit(id, TWO_32));
    }

    method UnpackBody(ghost node: nat, id: uint32) returns (e: Event)
      requires DecodeBody(data, pointer, node, id, nullIfEmpty).Got?
      modifies this
      ensures Got(Addressed(node, e), pointer) == DecodeBody(data, old(pointer), node, id, nullIfEmpty)
    {
      var priority, dataCase := PriorityOf(data[pointer]), data[pointer + 1];
      pointer := pointer + 2;
      if dataCase == 0 {
        var v := UnpackValue();
        e := Event(id, priority, Single(v), 0);
      } else if dataCase == 1 {
        var d := UnpackList();
        e := Event(id, priority, d, 0);
      } else {
        e := Event(DO_EVENT, priority, Single(NoValue), 0);
      }
    }
  }

  lemma {:induction false} DimsPrefix(bs: seq<byte>, at: nat, i: nat, n: nat)
    requires i <= n && DecodeDims(bs, at, n).Got?
    ensures DecodeDims(bs, at, i).Got?
  {
    if i < n {
      DimsPrefix(bs, at, i, n - 1);
    }
  }

  lemma {:induction false} ValuesPrefix(bs: seq<byte>, at: nat, i: nat, n: nat, nullIfEmpty: bool)
    requires i <= n && DecodeValues(bs, at, n, nullIfEmpty).Got?
    ensures DecodeValues(bs, at, i, nullIfEmpty).Got?
  {
    if i < n {
      ValuesPrefix(bs, at, i, n - 1, nullIfEmpty);
    }
  }

  lemma ValuesNext(bs: seq<byte>, at: nat, i: nat, n: nat, p: Parsed<seq<Value>>, nullIfEmpty: bool)
    requires i < n && DecodeValues(bs, at, n, nullIfEmpty).Got?
    requires p == DecodeValues(bs, at, i, nullIfEmpty) && p.Got?
    ensures DecodeValue(bs, p.next, nullIfEmpty).Got?
    ensures DecodeValues(bs, at, i + 1, nullIfEmpty) == DecodeOneMore(bs, p, nullIfEmpty)
  {
    ValuesPrefix(bs, at, i + 1, n, nullIfEmpty);
  }
}
