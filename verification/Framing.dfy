/** Reassembly of length-prefixed messages from a byte stream that arrives in arbitrary pieces. */
module Framing {
  import opened EventModel
  import opened PackFormat

  /** What a stream means: its complete messages and the incomplete rest. */
  datatype Frames = Frames(messages: seq<seq<byte>>, tail: seq<byte>)

  /** The four-byte header. */
  function Length(s: seq<byte>): (n: uint32)
    requires |s| >= 4
  {
    FromLe(s[..4]) % TWO_32
  }

  function Split(s: seq<byte>): Frames
    decreases |s|
  {
    if |s| < 4 || |s| < 4 + Length(s) then Frames([], s)
    else
      var rest := Split(s[4 + Length(s)..]);
      Frames([s[4..4 + Length(s)]] + rest.messages, rest.tail)
  }

  /** Every header of the stream, that of an incomplete message included, leaves room for its own four bytes in
      32 bits. */
  predicate Sane(s: seq<byte>)
    decreases |s|
  {
    |s| < 4 || (Length(s) < TWO_32 - 4 && (|s| < 4 + Length(s) || Sane(s[4 + Length(s)..])))
  }

  lemma LengthOfPrefix(a: seq<byte>, b: seq<byte>)
    requires |a| >= 4
    ensures Length(a + b) == Length(a)
  {
    assert (a + b)[..4] == a[..4];
  }

  predicate Incomplete(s: seq<byte>) {
    |s| < 4 || |s| < 4 + Length(s)
  }

  /** The first message is complete, and stays so. */
  lemma FirstStays(a: seq<byte>, b: seq<byte>, n: nat)
    requires !Incomplete(a) && n == 4 + Length(a)
    ensures !Incomplete(a + b) && Length(a + b) == Length(a)
    ensures (a + b)[n..] == a[n..] + b && (a + b)[4..n] == a[4..n]
  {
    LengthOfPrefix(a, b);
  }

  /** Streams followed by more data: `x` is the whole, `t` the incomplete rest with the new data. */
  predicate Joined(a: Frames, t: Frames, x: Frames) {
    x.messages == a.messages + t.messages && x.tail == t.tail
  }

  /** More data after a stream: what was complete stays, and the rest is looked at again with the new data. */
  lemma {:induction false} SplitAppend(a: seq<byte>, b: seq<byte>)
    ensures Joined(Split(a), Split(Split(a).tail + b), Split(a + b))
    decreases |a|
  {
    if Incomplete(a) {
      assert [] + Split(a + b).messages == Split(a + b).messages;
    } else {
      var n := 4 + Length(a);
      FirstStays(a, b, n);
      SplitAppend(a[n..], b);
      OneBefore(a[4..n], Split(a[n..]), Split(Split(a[n..]).tail + b), Split(a[n..] + b));
    }
  }

  lemma OneBefore(m: seq<byte>, a: Frames, t: Frames, x: Frames)
    requires Joined(a, t, x)
    ensures Joined(Frames([m] + a.messages, a.tail), t, Frames([m] + x.messages, x.tail))
  {
  }

  lemma {:induction false} SaneAppend(a: seq<byte>, b: seq<byte>)
    ensures Sane(a + b) ==> Sane(a)
    ensures Sane(a) ==> (Sane(a + b) <==> Sane(Split(a).tail + b))
    decreases |a|
  {
    if Incomplete(a) {
      if |a| >= 4 {
        LengthOfPrefix(a, b);
      }
    } else {
      var n := 4 + Length(a);
      FirstStays(a, b, n);
      SaneAppend(a[n..], b);
    }
  }

  lemma {:induction false} TailIncomplete(s: seq<byte>)
    ensures Incomplete(Split(s).tail) && (Sane(s) ==> Sane(Split(s).tail))
    decreases |s|
  {
    if !Incomplete(s) {
      TailIncomplete(s[4 + Length(s)..]);
    }
  }

  // ------------------------------------------------------------------------- the code

  datatype Outcome = Waiting(messages: seq<seq<byte>>, buffer: seq<byte>) | OutOfRange

  /** The loop over the buffer. The size of a message with its header is computed in 32 bits, but the copy is not
      bounded by it. */
  function Process(buffer: seq<byte>): Outcome
    decreases |buffer|
  {
    if |buffer| < 4 then Waiting([], buffer)
    else
      var msgLen := Length(buffer);
      if |buffer| < (4 + msgLen) % TWO_32 then Waiting([], buffer)
      else if |buffer| < 4 + msgLen then OutOfRange
      else
        var rest := Process(buffer[4 + msgLen..]);
        if rest.OutOfRange? then OutOfRange else Waiting([buffer[4..4 + msgLen]] + rest.messages, rest.buffer)
  }

  /** The loop splits the buffer into its frames if no header wraps around. One that does, in a message that is
      not there yet, makes it read outside of the buffer. */
  lemma {:induction false} ProcessIsSplit(buffer: seq<byte>)
    ensures Sane(buffer) ==> Process(buffer) == Waiting(Split(buffer).messages, Split(buffer).tail)
    decreases |buffer|
  {
    if !Incomplete(buffer) {
      ProcessIsSplit(buffer[4 + Length(buffer)..]);
    }
  }

  /** One piece of data arrives. */
  function Receive(o: Outcome, chunk: seq<byte>): Outcome {
    if o.OutOfRange? then OutOfRange
    else
      var p := Process(o.buffer + chunk);
      if p.OutOfRange? then OutOfRange else Waiting(o.messages + p.messages, p.buffer)
  }

  function ReceiveAll(chunks: seq<seq<byte>>): Outcome {
    if chunks == [] then Waiting([], []) else Receive(ReceiveAll(chunks[..|chunks| - 1]), chunks[|chunks| - 1])
  }

  function Concat(chunks: seq<seq<byte>>): seq<byte> {
    if chunks == [] then [] else Concat(chunks[..|chunks| - 1]) + chunks[|chunks| - 1]
  }

  function Whole(s: seq<byte>): Outcome {
    Waiting(Split(s).messages, Split(s).tail)
  }

  lemma ReceiveStep(s: seq<byte>, chunk: seq<byte>)
    requires Sane(s + chunk)
    ensures Receive(Whole(s), chunk) == Whole(s + chunk)
  {
    SaneAppend(s, chunk);
    SplitAppend(s, chunk);
    ProcessIsSplit(Split(s).tail + chunk);
  }

  /** Chunk independence: however the stream is cut into pieces, the messages handled are its frames, in order,
      and the incomplete rest stays in the buffer. */
  lemma {:induction false} ChunkIndependence(chunks: seq<seq<byte>>)
    requires Sane(Concat(chunks))
    ensures ReceiveAll(chunks) == Whole(Concat(chunks))
  {
    if chunks != [] {
      var init, last := chunks[..|chunks| - 1], chunks[|chunks| - 1];
      SaneAppend(Concat(init), last);
      ChunkIndependence(init);
      ReceiveStep(Concat(init), last);
    }
  }

  function Bytewise(s: seq<byte>): seq<seq<byte>> {
    if s == [] then [] else Bytewise(s[..|s| - 1]) + [[s[|s| - 1]]]
  }

  /** The byte that completes a bad header is fatal. */
  lemma BadHeader(s: seq<byte>, b: byte)
    requires Sane(s) && !Sane(s + [b])
    ensures Receive(Whole(s), [b]) == OutOfRange
  {
    var t := Split(s).tail;
    TailIncomplete(s);
    SaneAppend(s, [b]);
    if |t| >= 4 {
      LengthOfPrefix(t, [b]);
    }
  }

  lemma {:induction false} BytewiseFails(s: seq<byte>)
    ensures Concat(Bytewise(s)) == s
    ensures !Sane(s) ==> ReceiveAll(Bytewise(s)) == OutOfRange
  {
    if s != [] {
      var init, b := s[..|s| - 1], s[|s| - 1];
      BytewiseFails(init);
      assert init + [b] == s;
      var bytes := Bytewise(s);
      assert bytes[..|bytes| - 1] == Bytewise(init) && bytes[|bytes| - 1] == [b];
      if Sane(init) && !Sane(s) {
        ChunkIndependence(Bytewise(init));
        BadHeader(init, b);
      }
    }
  }

  ghost predicate AnyCutWorks(s: seq<byte>) {
    forall chunks :: Concat(chunks) == s ==> ReceiveAll(chunks) == Whole(s)
  }

  /** Exactly when a stream is received correctly however it is cut: no header is above 2^32 - 5. Otherwise
      receiving it byte by byte makes the code read behind its buffer. */
  lemma WhenAnyCutWorks(s: seq<byte>)
    ensures AnyCutWorks(s) <==> Sane(s)
  {
    if Sane(s) {
      forall chunks | Concat(chunks) == s ensures ReceiveAll(chunks) == Whole(s) {
        ChunkIndependence(chunks);
      }
    } else {
      BytewiseFails(s);
      assert ReceiveAll(Bytewise(s)) != Whole(s);
    }
  }

  const HUGE_HEADER: seq<byte> := [255, 255, 255, 255]

  lemma HugeLength()
    ensures Length(HUGE_HEADER) == TWO_32 - 1
  {
    assert HUGE_HEADER[..4] == HUGE_HEADER && HUGE_HEADER[1..] == [255, 255, 255];
    assert HUGE_HEADER[1..][1..] == [255, 255] && [255, 255][1..] == [255] && [255][1..] == [];
  }

  lemma HeaderOverruns(s: seq<byte>)
    requires |s| == 4 && Length(s) == TWO_32 - 1
    ensures Process(s).OutOfRange? && !AnyCutWorks(s)
  {
    WhenAnyCutWorks(s);
  }

  /** These four bytes make the code read behind its buffer. */
  lemma HugeHeaderOverruns()
    ensures Process(HUGE_HEADER).OutOfRange? && !AnyCutWorks(HUGE_HEADER)
  {
    HugeLength();
    HeaderOverruns(HUGE_HEADER);
  }

  /** The receiver of the host connection: `handled` is what handleMessage was called with. */
  class MessageReceiver {
    var buffer: seq<byte>
    var handled: seq<seq<byte>>

    constructor ()
      ensures buffer == [] && handled == []
    {
      buffer := [];
      handled := [];
    }

    /** One piece of data that recv() returned, and the loop over the buffer. With a bad header the code has no
        defined behaviour, and the result is false here. */
    method ReceiveMessages(temp: seq<byte>) returns (defined: bool)
      modifies this
      ensures defined == !Receive(Waiting(old(handled), old(buffer)), temp).OutOfRange?
      ensures defined ==> Waiting(handled, buffer) == Receive(Waiting(old(handled), old(buffer)), temp)
    {
      buffer := buffer + temp;
      ghost var start := buffer;
      while true
        invariant Process(start).OutOfRange? <==> Process(buffer).OutOfRange?
        invariant !Process(start).OutOfRange? ==>
          old(handled) + Process(start).messages == handled + Process(buffer).messages
          && Process(start).buffer == Process(buffer).buffer
        decreases |buffer|
      {
        if |buffer| < 4 {
          break;
        }
        var msgLen := FromLe(buffer[..4]) % TWO_32;
        if |buffer| < (4 + msgLen) % TWO_32 {
          break;
        }
        if |buffer| < 4 + msgLen {
          return false;
        }
        var message := buffer[4..4 + msgLen];
        ghost var rest := Process(buffer[4 + msgLen..]);
        if !rest.OutOfRange? {
          assert handled + ([message] + rest.messages) == handled + [message] + rest.messages;
        }
        handled := handled + [message];
        buffer := buffer[4 + msgLen..];
      }
      assert handled + [] == handled;
      return true;
    }
  }
}
