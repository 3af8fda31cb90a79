/** The mixed byte stream of an RTSP connection: `$`-framed packets (RFC 2326, section 10.12) and
    text messages, cut into TCP chunks anywhere. */
module Framing {
  import opened Text
  import opened RtspProtocol
  import opened CodecLaws
  import opened ParserLaws
  import opened Buffers

  datatype Event = Frame(channel: Octet, payload: Bytes) | Message(msg: RtspMessage)

  /** What stands at the front of the receive buffer. `Fault` is the exception of `Parse`. */
  datatype Head = Incomplete | Item(event: Event, size: nat) | Fault

  function FrameLength(s: Bytes): (n: nat)
    requires |s| >= 4
    ensures n <= 65535
  {
    s[2] as int * 256 + s[3] as int
  }

  function NextItem(s: Bytes): Head {
    if s == [] then Incomplete
    else if s[0] == '$' then
      if |s| < 4 || |s| < 4 + FrameLength(s) then Incomplete
      else Item(Frame(s[1] as int, s[4..4 + FrameLength(s)]), 4 + FrameLength(s))
    else
      match Parse(s)
      case NeedMore => Incomplete
      case Throws => Fault
      case Parsed(msg, consumed) => Item(Message(msg), consumed)
  }

  /** Every turn of a drain loop takes at least four bytes, and never more than there are. */
  lemma ItemBounds(s: Bytes)
    requires NextItem(s).Item?
    ensures 4 <= NextItem(s).size <= |s|
  {
    if s[0] != '$' { ParsedBounds(s); }
  }

  datatype Drained = Drained(events: seq<Event>, rest: Bytes)

  /** A drain loop run to its end: what it handed on, and what it left in the buffer. */
  function Drain(s: Bytes): Drained
    decreases |s|
  {
    match NextItem(s)
    case Item(event, size) =>
      ItemBounds(s);
      var later := Drain(s[size..]);
      Drained([event] + later.events, later.rest)
    case _ => Drained([], s)
  }

  /** One look at the front of the buffer: a `$` frame when its four bytes and payload are there,
      else whatever the parser finds. */
  method Front(buf: ByteBuffer) returns (item: Head)
    requires buf.Valid()
    ensures item == NextItem(buf.Content())
  {
    hide Parse;
    var readable := buf.Readable();
    if readable == 0 { return Incomplete; }
    var first := buf.PeekAt(0);
    if first == '$' {
      if readable < 4 { return Incomplete; }
      var channel := buf.PeekAt(1);
      var high := buf.PeekAt(2);
      var low := buf.PeekAt(3);
      var len := high as int * 256 + low as int;
      if readable < 4 + len { return Incomplete; }
      var bytes := buf.Peek(4 + len);
      return Item(Frame(channel as int, bytes[4..]), 4 + len);
    }
    var r := ParseBuffer(buf);
    match r {
      case NeedMore => return Incomplete;
      case Throws => return Fault;
      case Parsed(msg, consumed) => return Item(Message(msg), consumed);
    }
  }

  // ---------- chunk independence ----------

  lemma ItemStable(s: Bytes, t: Bytes)
    requires !NextItem(s).Incomplete?
    ensures NextItem(s + t) == NextItem(s)
  {
    if s[0] == '$' {
      var n := FrameLength(s);
      assert (s + t)[4..4 + n] == s[4..4 + n];
    } else {
      ParseStable(s, t);
    }
  }

  /** An item is read from its own bytes alone. */
  lemma ItemFromItself(s: Bytes)
    requires NextItem(s).Item?
    ensures NextItem(s).size <= |s| && NextItem(s[..NextItem(s).size]) == NextItem(s)
  {
    ItemBounds(s);
    if s[0] == '$' {
      assert s[..NextItem(s).size][4..4 + FrameLength(s)] == s[4..4 + FrameLength(s)];
    } else {
      ParsedFromItself(s);
    }
  }

  /** A chunk arrives behind what is left, and the loop runs. */
  function Feed(d: Drained, chunk: Bytes): Drained {
    var more := Drain(d.rest + chunk);
    Drained(d.events + more.events, more.rest)
  }

  function FeedAll(d: Drained, chunks: seq<Bytes>): Drained
    decreases chunks
  {
    if chunks == [] then d else FeedAll(Feed(d, chunks[0]), chunks[1..])
  }

  function Flatten(chunks: seq<Bytes>): Bytes {
    if chunks == [] then [] else chunks[0] + Flatten(chunks[1..])
  }

  lemma {:induction false} FlattenMore(chunks: seq<Bytes>, chunk: Bytes)
    ensures Flatten(chunks + [chunk]) == Flatten(chunks) + chunk
    decreases chunks
  {
    if chunks == [] {
      assert chunks + [chunk] == [chunk] && [chunk][1..] == [];
    } else {
      FlattenMore(chunks[1..], chunk);
      assert (chunks + [chunk])[1..] == chunks[1..] + [chunk];
    }
  }

  /** One cut: draining the front first and the rest later is draining all at once. */
  lemma {:induction false} DrainSplit(s: Bytes, t: Bytes)
    ensures Drain(s + t) == Feed(Drain(s), t)
    decreases |s|
  {
    hide NextItem;
    if NextItem(s).Item? {
      var size := NextItem(s).size;
      ItemBounds(s);
      ItemStable(s, t);
      assert (s + t)[size..] == s[size..] + t;
      DrainSplit(s[size..], t);
    }
  }

  lemma {:induction false} FeedFrom(s: Bytes, chunks: seq<Bytes>)
    ensures FeedAll(Drain(s), chunks) == Drain(s + Flatten(chunks))
    decreases chunks
  {
    hide NextItem, Drain;
    if chunks == [] {
      assert s + Flatten(chunks) == s;
    } else {
      DrainSplit(s, chunks[0]);
      FeedFrom(s + chunks[0], chunks[1..]);
      assert s + chunks[0] + Flatten(chunks[1..]) == s + Flatten(chunks);
    }
  }

  /** However a stream is cut, the same events come out and the same bytes are left. */
  lemma ChunkIndependence(chunks: seq<Bytes>)
    ensures FeedAll(Drained([], []), chunks) == Drain(Flatten(chunks))
  {
    FeedFrom([], chunks);
    assert [] + Flatten(chunks) == Flatten(chunks);
  }

  /** The loop stops only at an incomplete, malformed or throwing head, and stopping is final:
      running it again on what is left does nothing. */
  lemma {:induction false} DrainStops(s: Bytes)
    ensures !NextItem(Drain(s).rest).Item?
    ensures Drain(Drain(s).rest) == Drained([], Drain(s).rest)
    decreases |s|
  {
    if NextItem(s).Item? {
      ItemBounds(s);
      DrainStops(s[NextItem(s).size..]);
    }
  }

  /** A head the parser can never answer blocks the loop for good: whatever arrives later, not one event
      comes out and everything stays in the buffer. A head that throws does the same; no other one does. */
  lemma BlocksForGood(s: Bytes)
    requires s != [] && s[0] != '$' && HeadComplete(s)
    ensures (forall t :: Drain(s + t) == Drained([], s + t)) <==> Blocked(s) || Parse(s).Throws?
  {
    hide Parse, Blocked, Drain, HeadComplete;
    BlockedForever(s);
    forall t ensures Blocked(s) || Parse(s).Throws? ==> Drain(s + t) == Drained([], s + t) {
      if Parse(s).Throws? { ParseStable(s, t); }
      if Blocked(s) || Parse(s).Throws? { NothingDrained(s + t); }
    }
    if !Blocked(s) && !Parse(s).Throws? {
      var t :| !Parse(s + t).NeedMore?;
      assert Parse(s + t).Parsed? by { if Parse(s + t).Throws? { LaterThrow(s, t); } }
      DrainOne(s + t);
      assert Drain(s + t).events != [];
    }
  }

  lemma NothingDrained(s: Bytes)
    requires !NextItem(s).Item?
    ensures Drain(s) == Drained([], s)
  {
    hide NextItem;
  }

  /** Whether a head throws shows at once. */
  lemma LaterThrow(s: Bytes, t: Bytes)
    requires HeadComplete(s) && Parse(s + t).Throws?
    ensures Parse(s).Throws?
  {
    hide HeadMessage;
    HeadDecides(s, t);
    HeadDecides(s, []);
    assert s + [] == s;
  }

  // ---------- encoding, and unique decodability ----------

  datatype Outgoing = OutFrame(channel: Octet, payload: Bytes) | OutMessage(msg: RtspMessage, order: seq<Bytes>)

  function ByteOf(n: Octet): Byte {
    n as char
  }

  /** The four bytes in front of an interleaved packet; the length is cut to 16 bits. */
  function FrameHeader(channel: Octet, len: nat): Bytes {
    ['$', ByteOf(channel), ByteOf(len / 256 % 256), ByteOf(len % 256)]
  }

  ghost predicate Sendable(o: Outgoing) {
    match o
    case OutFrame(_, payload) => |payload| <= 65535
    case OutMessage(msg, order) => WellFormed(msg) && Representable(msg) && Enumerates(order, msg.headers)
  }

  function Encode(o: Outgoing): Bytes {
    match o
    case OutFrame(channel, payload) => FrameHeader(channel, |payload|) + payload
    case OutMessage(msg, order) => Serialize(msg, order)
  }

  function EventOf(o: Outgoing): Event {
    match o
    case OutFrame(channel, payload) => Frame(channel, payload)
    case OutMessage(msg, _) => Message(Received(msg))
  }

  /** The 16-bit length never lies exactly for payloads of at most 65535 bytes. */
  lemma FrameFits(channel: Octet, payload: Bytes, rest: Bytes)
    ensures NextItem(Encode(OutFrame(channel, payload)) + rest) == Item(Frame(channel, payload), 4 + |payload|)
       <==> |payload| <= 65535
  {
    var s := Encode(OutFrame(channel, payload)) + rest;
    assert FrameLength(s) == |payload| % 65536;
    if |payload| <= 65535 { assert s[4..4 + |payload|] == payload; }
  }

  lemma EncodedItem(o: Outgoing, rest: Bytes)
    requires Sendable(o)
    ensures NextItem(Encode(o) + rest) == Item(EventOf(o), |Encode(o)|)
  {
    match o {
      case OutFrame(channel, payload) => FrameFits(channel, payload, rest);
      case OutMessage(msg, order) =>
        RoundTrip(msg, order, rest);
        NeverLikeAPacket(msg, order);
        assert (Encode(o) + rest)[0] == Encode(o)[0];
    }
  }

  ghost predicate AllSendable(os: seq<Outgoing>) {
    forall i :: 0 <= i < |os| ==> Sendable(os[i])
  }

  function EncodeAll(os: seq<Outgoing>): Bytes {
    if os == [] then [] else Encode(os[0]) + EncodeAll(os[1..])
  }

  function EventsOf(os: seq<Outgoing>): seq<Event> {
    seq(|os|, i requires 0 <= i < |os| => EventOf(os[i]))
  }

  /** One turn of the drain loop. */
  lemma DrainOne(s: Bytes)
    requires NextItem(s).Item?
    ensures NextItem(s).size <= |s|
    ensures var later := Drain(s[NextItem(s).size..]);
            Drain(s) == Drained([NextItem(s).event] + later.events, later.rest)
  {
    hide NextItem;
    ItemBounds(s);
  }

  /** Frames and messages sent back to back drain to exactly their list, whatever follows;
      what follows drains as if it stood alone. */
  lemma {:induction false} UniqueDecoding(os: seq<Outgoing>, tail: Bytes)
    requires AllSendable(os)
    ensures Drain(EncodeAll(os) + tail) == Drained(EventsOf(os) + Drain(tail).events, Drain(tail).rest)
    decreases os
  {
    hide NextItem, EventOf, Encode, Sendable, Drain;
    if os == [] {
      assert EncodeAll(os) + tail == tail;
      assert EventsOf(os) + Drain(tail).events == Drain(tail).events;
    } else {
      var e := Encode(os[0]);
      var rest := EncodeAll(os[1..]) + tail;
      assert EncodeAll(os) + tail == e + rest;
      EncodedItem(os[0], rest);
      assert (e + rest)[|e|..] == rest;
      DrainOne(e + rest);
      UniqueDecoding(os[1..], tail);
      assert EventsOf(os) == [EventOf(os[0])] + EventsOf(os[1..]);
    }
  }

  /** A proper prefix of one item drains to nothing and stays in the buffer. */
  lemma PartialItem(o: Outgoing, n: nat)
    requires Sendable(o) && n < |Encode(o)|
    ensures NextItem(Encode(o)[..n]).Incomplete?
  {
    hide Sendable, Encode, EventOf, NextItem;
    var p := Encode(o)[..n];
    if !NextItem(p).Incomplete? {
      ItemStable(p, Encode(o)[n..]);
      assert p + Encode(o)[n..] == Encode(o) + [];
      EncodedItem(o, []);
      ItemBounds(p);
      assert false;
    }
  }

  /** The first `n` bytes of a sent stream are whole items and a part of the next one. */
  lemma {:induction false} CutItems(os: seq<Outgoing>, n: nat) returns (k: nat, part: Bytes)
    requires n <= |EncodeAll(os)|
    ensures k <= |os| && EncodeAll(os)[..n] == EncodeAll(os[..k]) + part
    ensures if k == |os| then part == [] else |part| < |Encode(os[k])| && part == Encode(os[k])[..|part|]
    ensures n == |EncodeAll(os)| ==> k == |os|
    decreases os
  {
    hide Encode;
    if os == [] || n < |Encode(os[0])| {
      k, part := 0, EncodeAll(os)[..n];
    } else {
      var e := Encode(os[0]);
      k, part := CutItems(os[1..], n - |e|);
      k := k + 1;
      assert os[..k][1..] == os[1..][..k - 1] && os[..k][0] == os[0];
      assert EncodeAll(os)[..n] == e + EncodeAll(os[1..])[..n - |e|];
      assert EncodeAll(os[..k]) == e + EncodeAll(os[1..][..k - 1]);
    }
  }

  /** Whatever part of a sent stream has arrived, the reader has exactly the events of the items
      that arrived whole, and the rest of it waits in the buffer. */
  lemma PrefixDecoding(os: seq<Outgoing>, n: nat) returns (k: nat)
    requires AllSendable(os) && n <= |EncodeAll(os)|
    ensures k <= |os| && Drain(EncodeAll(os)[..n]).events == EventsOf(os[..k])
    ensures EncodeAll(os[..k]) + Drain(EncodeAll(os)[..n]).rest == EncodeAll(os)[..n]
    ensures n == |EncodeAll(os)| ==> k == |os|
  {
    hide NextItem, EventOf, Encode, Sendable;
    var part;
    k, part := CutItems(os, n);
    if k < |os| { PartialItem(os[k], |part|); } else { assert NextItem(part).Incomplete? by { EmptyIncomplete(); } }
    UniqueDecoding(os[..k], part);
    assert EventsOf(os[..k]) + [] == EventsOf(os[..k]);
  }

  lemma EmptyIncomplete()
    ensures NextItem([]).Incomplete?
  {
  }

  lemma {:induction false} EncodeAppend(a: seq<Outgoing>, b: seq<Outgoing>)
    ensures EncodeAll(a + b) == EncodeAll(a) + EncodeAll(b)
    decreases a
  {
    hide Encode;
    if a == [] {
      assert a + b == b;
    } else {
      EncodeAppend(a[1..], b);
      assert (a + b)[0] == a[0] && (a + b)[1..] == a[1..] + b;
      assert EncodeAll(a + b) == Encode(a[0]) + EncodeAll(a[1..] + b);
    }
  }

  /** An answer that slips in between the two sends of a packet moves the payload back: the reader
      takes as many bytes as the header says from the answer and the payload together. The packet
      survives exactly when those bytes happen to be the payload. */
  lemma SplitFrame(channel: Octet, payload: Bytes, answer: Bytes, rest: Bytes)
    requires |payload| <= 65535
    ensures var got := NextItem(FrameHeader(channel, |payload|) + answer + payload + rest);
            && got == Item(Frame(channel, (answer + payload)[..|payload|]), 4 + |payload|)
            && (got.event == Frame(channel, payload) <==> payload <= answer + payload)
  {
    var s := FrameHeader(channel, |payload|) + answer + payload + rest;
    assert FrameLength(s) == |payload|;
    assert s[4..4 + |payload|] == (answer + payload)[..|payload|];
  }

  /** The same behind any items sent before. */
  lemma SplitStream(os: seq<Outgoing>, channel: Octet, payload: Bytes, answer: Bytes)
    requires AllSendable(os) && |payload| <= 65535
    ensures var got := Drain(EncodeAll(os) + FrameHeader(channel, |payload|) + answer + payload).events;
            && |got| > |os| && got[..|os|] == EventsOf(os)
            && got[|os|] == Frame(channel, (answer + payload)[..|payload|])
  {
    hide NextItem, Drain, FrameHeader, EncodeAll, AllSendable;
    var header := FrameHeader(channel, |payload|);
    var tail := header + answer + payload;
    assert EncodeAll(os) + header + answer + payload == EncodeAll(os) + tail;
    UniqueDecoding(os, tail);
    assert tail + [] == tail;
    SplitFrame(channel, payload, answer, []);
    DrainOne(tail);
  }

  /** A packet of RTP version 2 never survives a response: its first byte is 128 or more, and that of a
      response is a letter. */
  lemma SplitPacketIsLost(channel: Octet, payload: Bytes, m: RtspMessage, order: seq<Bytes>, rest: Bytes)
    requires 0 < |payload| <= 65535 && payload[0] as int >= 128
    requires m.kind != MessageKind.Request && WellFormed(m)
    ensures NextItem(FrameHeader(channel, |payload|) + Serialize(m, order) + payload + rest)
         != Item(Frame(channel, payload), 4 + |payload|)
  {
    hide FrameHeader, Dec, IntText, FieldLines, LengthLine, NextItem;
    var answer := Serialize(m, order);
    ResponseFirst(m, order);
    SplitFrame(channel, payload, answer, rest);
    assert (answer + payload)[0] == 'R';
  }

  lemma ResponseFirst(m: RtspMessage, order: seq<Bytes>)
    requires m.kind != MessageKind.Request && WellFormed(m)
    ensures Serialize(m, order) != [] && Serialize(m, order)[0] == 'R'
  {
    hide Dec, IntText, FieldLines, LengthLine;
    assert m.version[0] == m.version[..5][0] == 'R';
    assert HeadLines(m, order)[0] == StartLine(m);
    assert Lines(HeadLines(m, order))[0] == StartLine(m)[0] == m.version[0];
  }
}
