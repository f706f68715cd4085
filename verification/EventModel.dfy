/** The data that queues, outputs and the serialiser carry. Bit patterns stand for numbers: a signed or
    floating-point scalar is held as the unsigned integer with the same bytes. */
module EventModel {

  const TWO_8: nat := 0x100
  const TWO_16: nat := 0x1_0000
  const TWO_32: nat := 0x1_0000_0000
  const TWO_64: nat := 0x1_0000_0000_0000_0000

  type byte = b: nat | b < TWO_8
  type uint16 = b: nat | b < TWO_16
  type uint32 = b: nat | b < TWO_32
  type uint64 = b: nat | b < TWO_64

  /** CG_MAX_VALUES and CG_TENSOR_NB_DIMS of the POSIX configuration. */
  const MAX_VALUES: nat := 8
  const TENSOR_NB_DIMS: nat := 3

  const NO_EVENT: uint32 := 0
  const DO_EVENT: uint32 := 1

  /** The element types of tensors. */
  datatype Elem = EInt8 | EInt16 | EInt32 | EInt64 | EUInt8 | EUInt16 | EUInt32 | EUInt64 | EFloat | EDouble

  /** cg_value: a tensor holds the bytes of its elements; a constant one has its own types. */
  datatype Value =
    | NoValue
    | Int8(i8: byte) | Int16(i16: uint16) | Int32(i32: uint32) | Int64(i64: uint64)
    | Float(f: uint32) | Double(d: uint64)
    | UInt8(u8: byte) | UInt16(u16: uint16) | UInt32(u32: uint32) | UInt64(u64: uint64)
    | Buffer(bytes: seq<byte>)
    | Str(chars: seq<byte>)
    | Tensor(nbDims: byte, dims: seq<uint32>, elem: Elem, data: seq<byte>, constant: bool)

  /** A ListValue has room for MAX_VALUES values and uses the first `nb`. */
  datatype EventData = Single(value: Value) | List(nb: nat, values: seq<Value>)

  datatype Event = Event(id: uint32, priority: uint32, data: EventData, ttl: uint32)

  predicate WellFormedData(d: EventData) {
    d.List? ==> d.nb <= MAX_VALUES && |d.values| == MAX_VALUES
  }

  /** The values an event hands to a handler. */
  function Values(d: EventData): seq<Value>
    requires WellFormedData(d)
  {
    if d.Single? then [d.value] else d.values[..d.nb]
  }

  /** Equal for everything a node can look at: the unused slots of a list are not. */
  predicate SameEvent(a: Event, b: Event)
    requires WellFormedData(a.data) && WellFormedData(b.data)
  {
    && a.id == b.id && a.priority == b.priority && a.ttl == b.ttl
    && a.data.Single? == b.data.Single? && Values(a.data) == Values(b.data)
  }

  /** Event::clone with an allocation that succeeds: only the used slots of a list are copied. */
  method Clone(e: Event) returns (c: Event)
    requires WellFormedData(e.data)
    ensures WellFormedData(c.data) && SameEvent(e, c)
  {
    if e.data.Single? {
      return Event(e.id, e.priority, Single(e.data.value), e.ttl);
    }
    var values := seq(MAX_VALUES, _ => NoValue);
    var i := 0;
    while i < e.data.nb
      invariant 0 <= i <= e.data.nb && |values| == MAX_VALUES
      invariant values[..i] == e.data.values[..i]
    {
      values := values[i := e.data.values[i]];
      i := i + 1;
    }
    c := Event(e.id, e.priority, List(e.data.nb, values), e.ttl);
  }
}
