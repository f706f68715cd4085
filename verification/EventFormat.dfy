/** The wire format of whole events, and exactly which of them survive the trip. */
module EventFormat {
  import opened EventModel
  import opened PackFormat

  predicate AllWellFormed(vs: seq<Value>) {
    forall i :: 0 <= i < |vs| ==> WellFormed(vs[i])
  }

  predicate AllPortable(vs: seq<Value>, nullIfEmpty: bool)
    requires AllWellFormed(vs)
  {
    forall i :: 0 <= i < |vs| ==> Portable(vs[i], nullIfEmpty)
  }

  predicate WellFormedEvent(e: Event) {
    WellFormedData(e.data) && AllWellFormed(Values(e.data))
  }

  function EncodeValues(vs: seq<Value>): seq<byte>
    requires AllWellFormed(vs)
  {
    if vs == [] then [] else EncodeValues(vs[..|vs| - 1]) + EncodeValue(vs[|vs| - 1])
  }

  function EncodeData(d: EventData): seq<byte>
    requires WellFormedData(d) && AllWellFormed(Values(d))
  {
    assert d.Single? ==> Values(d)[0] == d.value;
    if d.Single? then [0] + EncodeValue(d.value) else [1] + (Le(d.nb, 4) + EncodeValues(Values(d)))
  }

  /** The time to live is not written. */
  function EncodeEvent(node: uint32, e: Event): seq<byte>
    requires WellFormedEvent(e)
  {
    Le(node, 4) + (Le(e.id, 4) + ([e.priority % TWO_8] + EncodeData(e.data)))
  }

  function DecodeOneMore(bs: seq<byte>, init: Parsed<seq<Value>>, nullIfEmpty: bool): (p: Parsed<seq<Value>>)
    ensures p.Got? ==> init.Got? && |p.value| == |init.value| + 1
  {
    if init.Invalid? then Invalid
    else
      var v := DecodeValue(bs, init.next, nullIfEmpty);
      if v.Invalid? then Invalid else Got(init.value + [v.value], v.next)
  }

  function DecodeValues(bs: seq<byte>, at: nat, n: nat, nullIfEmpty: bool): (p: Parsed<seq<Value>>)
    ensures p.Got? ==> |p.value| == n
  {
    if n == 0 then Got([], at) else DecodeOneMore(bs, DecodeValues(bs, at, n - 1, nullIfEmpty), nullIfEmpty)
  }

  /** A priority that is not known becomes the normal one. */
  function PriorityOf(n: byte): uint32 {
    if n == 0 then 0 else if n == 2 then 2 else 1
  }

  const NO_VALUES: seq<Value> := [NoValue, NoValue, NoValue, NoValue, NoValue, NoValue, NoValue, NoValue]

  function ListOf(vs: seq<Value>): (d: EventData)
    requires |vs| <= MAX_VALUES
    ensures WellFormedData(d) && Values(d) == vs
  {
    List(|vs|, vs + NO_VALUES[|vs|..])
  }

  /** More values than a list has room for are written outside of it. */
  function DecodeList(bs: seq<byte>, at: nat, nullIfEmpty: bool): (p: Parsed<EventData>)
    ensures p.Got? ==> WellFormedData(p.value)
  {
    var nb := ReadLe(bs, at, 4);
    if nb.Invalid? || nb.value > MAX_VALUES then Invalid
    else
      var vs := DecodeValues(bs, nb.next, nb.value, nullIfEmpty);
      if vs.Invalid? then Invalid else Got(ListOf(vs.value), vs.next)
  }

  function DecodeSingle(bs: seq<byte>, at: nat, nullIfEmpty: bool): Parsed<EventData> {
    var v := DecodeValue(bs, at, nullIfEmpty);
    if v.Invalid? then Invalid else Got(Single(v.value), v.next)
  }

  datatype Addressed = Addressed(node: nat, event: Event)

  function DecodeBody(bs: seq<byte>, at: nat, node: nat, id: uint32, nullIfEmpty: bool): (p: Parsed<Addressed>)
    ensures p.Got? ==> WellFormedData(p.value.event.data)
  {
    if at + 2 > |bs| then Invalid
    else
      var priority := PriorityOf(bs[at]);
      if bs[at + 1] > 1 then Got(Addressed(node, Event(DO_EVENT, priority, Single(NoValue), 0)), at + 2)
      else
        var d := if bs[at + 1] == 0 then DecodeSingle(bs, at + 2, nullIfEmpty) else DecodeList(bs, at + 2, nullIfEmpty);
        if d.Invalid? then Invalid else Got(Addressed(node, Event(id, priority, d.value, 0)), d.next)
  }

  function DecodeEvent(bs: seq<byte>, at: nat, nullIfEmpty: bool): (p: Parsed<Addressed>)
    ensures p.Got? ==> WellFormedData(p.value.event.data)
  {
    var node := ReadLe(bs, at, 4);
    if node.Invalid? then Invalid
    else
      var id := ReadLe(bs, node.next, 4);
      if id.Invalid? then Invalid else DecodeBody(bs, id.next, node.value, Fit(id.value, TWO_32), nullIfEmpty)
  }

  // ------------------------------------------------------------------------ round trip

  lemma PortableLast(init: seq<Value>, v: Value, nullIfEmpty: bool)
    requires AllWellFormed(init) && WellFormed(v)
    ensures AllWellFormed(init + [v])
    ensures AllPortable(init + [v], nullIfEmpty) <==> AllPortable(init, nullIfEmpty) && Portable(v, nullIfEmpty)
  {
    var vs := init + [v];
    assert vs[|init|] == v && forall i :: 0 <= i < |init| ==> vs[i] == init[i];
  }

  /** One value more, `p` being what the values before it gave. */
  lemma OneMoreBack(bs: seq<byte>, init: seq<Value>, v: Value, p: Parsed<seq<Value>>, at: nat, nullIfEmpty: bool)
    returns (q: Parsed<seq<Value>>, end: nat)
    requires AllWellFormed(init) && WellFormed(v) && Holds(bs, at, EncodeValue(v))
    requires AllPortable(init, nullIfEmpty) ==> p == Got(init, at)
    requires (Gives(p, init) ==> AllPortable(init, nullIfEmpty)) && (p.Got? ==> |p.value| == |init|)
    ensures q == DecodeOneMore(bs, p, nullIfEmpty) && end == at + |EncodeValue(v)| && AllWellFormed(init + [v])
    ensures AllPortable(init + [v], nullIfEmpty) ==> q == Got(init + [v], end)
    ensures Gives(q, init + [v]) ==> AllPortable(init + [v], nullIfEmpty)
  {
    PortableLast(init, v, nullIfEmpty);
    ValueRoundTrip(bs, at, v, nullIfEmpty);
    q, end := DecodeOneMore(bs, p, nullIfEmpty), at + |EncodeValue(v)|;
    if Gives(q, init + [v]) {
      assert q.value[|init|] == v;
      assert q.value[..|init|] == p.value && (init + [v])[..|init|] == init;
    }
  }

  /** What decoding values gave, against the values that were encoded. */
  predicate Back(vs: seq<Value>, p: Parsed<seq<Value>>, end: nat, nullIfEmpty: bool)
    requires AllWellFormed(vs)
  {
    && (AllPortable(vs, nullIfEmpty) ==> p == Got(vs, end))
    && (Gives(p, vs) ==> AllPortable(vs, nullIfEmpty))
  }

  lemma ValuesStep(bs: seq<byte>, at: nat, vs: seq<Value>, q: Parsed<seq<Value>>, nullIfEmpty: bool)
    requires vs != [] && AllWellFormed(vs) && Holds(bs, at, EncodeValues(vs)) && AllWellFormed(vs[..|vs| - 1])
    requires Back(vs[..|vs| - 1], q, at + |EncodeValues(vs[..|vs| - 1])|, nullIfEmpty)
    requires q.Got? ==> |q.value| == |vs| - 1
    ensures Back(vs, DecodeOneMore(bs, q, nullIfEmpty), at + |EncodeValues(vs)|, nullIfEmpty)
  {
    var init, v := Split(vs);
    HoldsParts(bs, at, EncodeValues(init), EncodeValue(v));
    var p, end := OneMoreBack(bs, init, v, q, at + |EncodeValues(init)|, nullIfEmpty);
  }

  lemma {:induction false} ValuesBack(bs: seq<byte>, at: nat, vs: seq<Value>, nullIfEmpty: bool)
    requires AllWellFormed(vs) && Holds(bs, at, EncodeValues(vs))
    ensures Back(vs, DecodeValues(bs, at, |vs|, nullIfEmpty), at + |EncodeValues(vs)|, nullIfEmpty)
  {
    if vs != [] {
      var init, v := Split(vs);
      HoldsParts(bs, at, EncodeValues(init), EncodeValue(v));
      ValuesBack(bs, at, init, nullIfEmpty);
      ValuesStep(bs, at, vs, DecodeValues(bs, at, |init|, nullIfEmpty), nullIfEmpty);
    }
  }

  lemma Split(vs: seq<Value>) returns (init: seq<Value>, v: Value)
    requires vs != [] && AllWellFormed(vs)
    ensures vs == init + [v] && init == vs[..|vs| - 1] && v == vs[|vs| - 1] && AllWellFormed(init) && WellFormed(v)
    ensures EncodeValues(vs) == EncodeValues(init) + EncodeValue(v)
  {
    init, v := vs[..|vs| - 1], vs[|vs| - 1];
  }

  /** What decoding the data of an event gave, against the data that were encoded. */
  predicate DataComesBack(d: EventData, p: Parsed<EventData>, end: nat, nullIfEmpty: bool)
    requires WellFormedData(d) && AllWellFormed(Values(d)) && (p.Got? ==> WellFormedData(p.value))
  {
    && (AllPortable(Values(d), nullIfEmpty) ==>
          p.Got? && p.value.Single? == d.Single? && Values(p.value) == Values(d) && p.next == end)
    && (p.Got? && Values(p.value) == Values(d) ==> AllPortable(Values(d), nullIfEmpty))
  }

  lemma SingleBack(bs: seq<byte>, at: nat, d: EventData, nullIfEmpty: bool)
    requires d.Single? && AllWellFormed(Values(d)) && Holds(bs, at, EncodeData(d))
    ensures at < |bs| && bs[at] == 0
    ensures DataComesBack(d, DecodeSingle(bs, at + 1, nullIfEmpty), at + |EncodeData(d)|, nullIfEmpty)
  {
    assert Values(d)[0] == d.value;
    TagStep(bs, at, 0, EncodeValue(d.value));
    ValueRoundTrip(bs, at + 1, d.value, nullIfEmpty);
  }

  lemma ListBack(bs: seq<byte>, at: nat, d: EventData, nullIfEmpty: bool)
    requires d.List? && WellFormedData(d) && AllWellFormed(Values(d)) && Holds(bs, at, EncodeData(d))
    ensures at < |bs| && bs[at] == 1
    ensures DataComesBack(d, DecodeList(bs, at + 1, nullIfEmpty), at + |EncodeData(d)|, nullIfEmpty)
  {
    TagStep(bs, at, 1, Le(d.nb, 4) + EncodeValues(Values(d)));
    ReadSizeBack(bs, at + 1, d.nb, EncodeValues(Values(d)));
    ValuesBack(bs, at + 5, Values(d), nullIfEmpty);
  }

  /** Only the three known priorities come back. */
  lemma PriorityBack(p: uint32)
    ensures PriorityOf(p % TWO_8) == p <==> p <= 2
  {
  }

  lemma BodyBack(bs: seq<byte>, at: nat, node: nat, e: Event, priority: byte, nullIfEmpty: bool)
    requires WellFormedEvent(e) && Holds(bs, at, [priority] + EncodeData(e.data))
    requires PriorityOf(priority) == e.priority <==> e.priority <= 2
    ensures var p := DecodeBody(bs, at, node, e.id, nullIfEmpty);
            && (AllPortable(Values(e.data), nullIfEmpty) && e.priority <= 2 ==>
                  p.Got? && p.value.node == node && SameEvent(p.value.event, e.(ttl := 0))
                  && p.next == at + 1 + |EncodeData(e.data)|)
            && (p.Got? && SameEvent(p.value.event, e.(ttl := 0)) ==>
                  AllPortable(Values(e.data), nullIfEmpty) && e.priority <= 2)
  {
    TagStep(bs, at, priority, EncodeData(e.data));
    if e.data.Single? {
      SingleBack(bs, at + 1, e.data, nullIfEmpty);
    } else {
      ListBack(bs, at + 1, e.data, nullIfEmpty);
    }
  }

  lemma HeadBack(bs: seq<byte>, at: nat, node: uint32, id: uint32, body: seq<byte>, nullIfEmpty: bool)
    requires Holds(bs, at, Le(node, 4) + (Le(id, 4) + body))
    ensures Holds(bs, at + 8, body) && DecodeEvent(bs, at, nullIfEmpty) == DecodeBody(bs, at + 8, node, id, nullIfEmpty)
  {
    ReadSizeBack(bs, at, node, Le(id, 4) + body);
    ReadSizeBack(bs, at + 4, id, body);
    var i := ReadLe(bs, at + 4, 4);
    assert i == Got(id, at + 8);
  }

  /** Round trip of an event: node, event id, priority and values come back, with a time to live of zero, and
      exactly the encoding is consumed whatever follows, if and only if the priority is one of the three known
      and every value is portable. Any other event does not come back. */
  lemma EventRoundTrip(bs: seq<byte>, at: nat, node: uint32, e: Event, nullIfEmpty: bool)
    requires WellFormedEvent(e) && Holds(bs, at, EncodeEvent(node, e))
    ensures AllPortable(Values(e.data), nullIfEmpty) && e.priority <= 2 ==>
              var p := DecodeEvent(bs, at, nullIfEmpty);
              p.Got? && p.value.node == node && SameEvent(p.value.event, e.(ttl := 0))
              && p.next == at + |EncodeEvent(node, e)|
    ensures var p := DecodeEvent(bs, at, nullIfEmpty);
            p.Got? && SameEvent(p.value.event, e.(ttl := 0)) ==>
              AllPortable(Values(e.data), nullIfEmpty) && e.priority <= 2
  {
    HeadBack(bs, at, node, e.id, [e.priority % TWO_8] + EncodeData(e.data), nullIfEmpty);
    PriorityBack(e.priority);
    BodyBack(bs, at + 8, node, e, e.priority % TWO_8, nullIfEmpty);
  }

  /** The event that is packed is not the one that is unpacked. */
  ghost predicate IsLost(e: Event, nullIfEmpty: bool)
    requires WellFormedEvent(e)
  {
    var p := DecodeEvent(EncodeEvent(0, e), 0, nullIfEmpty);
    !(p.Got? && SameEvent(p.value.event, e.(ttl := 0)))
  }

  lemma LostIfNotPortable(e: Event, nullIfEmpty: bool)
    requires WellFormedEvent(e) && !(AllPortable(Values(e.data), nullIfEmpty) && e.priority <= 2)
    ensures IsLost(e, nullIfEmpty)
  {
    EventRoundTrip(EncodeEvent(0, e), 0, 0, e, nullIfEmpty);
  }

  /** An event with one value, of normal priority. */
  function With(v: Value): Event {
    Event(DO_EVENT, 1, Single(v), 0)
  }

  lemma LostAlone(v: Value, nullIfEmpty: bool)
    requires WellFormed(v) && !Portable(v, nullIfEmpty)
    ensures WellFormedEvent(With(v)) && IsLost(With(v), nullIfEmpty)
  {
    assert Values(With(v).data)[0] == v;
    LostIfNotPortable(With(v), nullIfEmpty);
  }

  const ONE_BYTE := Tensor(1, [1, 1, 1], EUInt8, [9], true)
  const NO_BYTE := Tensor(1, [0, 1, 1], EUInt8, [], false)

  lemma TensorsAreLost(nullIfEmpty: bool)
    ensures WellFormedEvent(With(ONE_BYTE)) && IsLost(With(ONE_BYTE), nullIfEmpty)
    ensures WellFormedEvent(With(NO_BYTE)) && IsLost(With(NO_BYTE), true)
  {
    TensorsWellFormed();
    LostAlone(ONE_BYTE, nullIfEmpty);
    LostAlone(NO_BYTE, true);
  }

  lemma StringIsLost(nullIfEmpty: bool)
    ensures IsLost(With(Str(seq(TWO_32 - 1, _ => 65))), nullIfEmpty)
  {
    LostAlone(Str(seq(TWO_32 - 1, _ => 65)), nullIfEmpty);
  }

  /** One event of each other kind that does not come back. */
  lemma EventsThatAreLost(nullIfEmpty: bool)
    ensures IsLost(With(Int64(7)), nullIfEmpty) && IsLost(With(UInt64(7)), nullIfEmpty)
    ensures IsLost(Event(DO_EVENT, 3, Single(NoValue), 0), nullIfEmpty)
  {
    LostAlone(Int64(7), nullIfEmpty);
    LostAlone(UInt64(7), nullIfEmpty);
    LostIfNotPortable(Event(DO_EVENT, 3, Single(NoValue), 0), nullIfEmpty);
  }

  lemma TensorsWellFormed()
    ensures WellFormed(ONE_BYTE) && WellFormed(NO_BYTE)
    ensures !Portable(ONE_BYTE, false) && !Portable(ONE_BYTE, true) && !Portable(NO_BYTE, true)
  {
    assert ONE_BYTE.dims[..1] == [1] && NO_BYTE.dims[..1] == [0];
  }
}
