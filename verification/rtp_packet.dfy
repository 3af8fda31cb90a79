/** RTP packets (RFC 3550, sections 5.1 and 5.3.1). */
module Rtp {
  import opened Text
  import opened RtspProtocol

  datatype RtpFields = RtpFields(
    version: nat, padding: bool, extension: bool, csrcCount: nat, marker: bool, payloadType: nat,
    sequence: nat, timestamp: nat, ssrc: nat, headerSize: nat, payload: Bytes)

  function U8(data: Bytes, i: nat): Octet
    requires i < |data|
  {
    data[i] as int
  }

  function U16(data: Bytes, i: nat): (n: nat)
    requires i + 2 <= |data|
    ensures n < 0x1_0000
  {
    U8(data, i) * 0x100 + U8(data, i + 1)
  }

  function U32(data: Bytes, i: nat): (n: nat)
    requires i + 4 <= |data|
    ensures n < TWO_32
  {
    U8(data, i) * 0x100_0000 + U8(data, i + 1) * 0x1_0000 + U8(data, i + 2) * 0x100 + U8(data, i + 3)
  }

  function HasExtension(data: Bytes): bool
    requires |data| >= 12
  {
    U8(data, 0) / 0x10 % 2 == 1
  }

  function HasPadding(data: Bytes): bool
    requires |data| >= 12
  {
    U8(data, 0) / 0x20 % 2 == 1
  }

  /** Where the payload starts, or nothing when the extension header itself is cut off. */
  function HeaderSize(data: Bytes): Option<nat>
    requires |data| >= 12
  {
    var fixed := 12 + U8(data, 0) % 16 * 4;
    if !HasExtension(data) then Some(fixed)
    else if fixed + 4 > |data| then None
    else Some(fixed + 4 + U16(data, fixed + 2) * 4)
  }

  /** The padding that is taken off: the count in the last byte, when it leaves some payload. */
  function Stripped(data: Bytes, headerSize: nat): nat
    requires 12 <= headerSize <= |data|
  {
    var pad := U8(data, |data| - 1);
    if HasPadding(data) && pad < |data| - headerSize then pad else 0
  }

  function ParseRtp(data: Bytes): Option<RtpFields> {
    if |data| < 12 || U8(data, 0) / 0x40 != 2 then None else
    match HeaderSize(data)
    case None => None
    case Some(size) =>
      if size > |data| then None else
      Some(RtpFields(2, HasPadding(data), HasExtension(data), U8(data, 0) % 16,
                     U8(data, 1) / 0x80 == 1, U8(data, 1) % 0x80,
                     U16(data, 2), U32(data, 4), U32(data, 8),
                     size, data[size..|data| - Stripped(data, size)]))
  }

  function BE16(n: nat): Bytes
    requires n < 0x1_0000
  {
    [(n / 0x100) as char, (n % 0x100) as char]
  }

  function BE32(n: nat): Bytes
    requires n < TWO_32
  {
    [(n / 0x100_0000) as char, (n / 0x1_0000 % 0x100) as char, (n / 0x100 % 0x100) as char, (n % 0x100) as char]
  }

  function BuildRtp(payloadType: Octet, marker: bool, sequence: nat, timestamp: nat, ssrc: nat, payload: Bytes): Bytes
    requires sequence < 0x1_0000 && timestamp < TWO_32 && ssrc < TWO_32
  {
    [0x80 as char, ((if marker then 0x80 else 0) + payloadType % 0x80) as char]
    + BE16(sequence) + BE32(timestamp) + BE32(ssrc) + payload
  }

  // ---------- laws ----------

  lemma Read16(data: Bytes, i: nat, n: nat)
    requires n < 0x1_0000 && i + 2 <= |data|
    ensures data[i..i + 2] == BE16(n) <==> U16(data, i) == n
  {
    assert data[i..i + 2] == [data[i], data[i + 1]];
    assert (U16(data, i) / 0x100) as char == data[i] && (U16(data, i) % 0x100) as char == data[i + 1];
  }

  lemma Digits256(b0: Octet, b1: Octet, b2: Octet, b3: Octet)
    ensures var n := b0 * 0x100_0000 + b1 * 0x1_0000 + b2 * 0x100 + b3;
            n / 0x100_0000 == b0 && n / 0x1_0000 % 0x100 == b1 && n / 0x100 % 0x100 == b2 && n % 0x100 == b3
  {
    var n := b0 * 0x100_0000 + b1 * 0x1_0000 + b2 * 0x100 + b3;
    assert n / 0x1_0000 == b0 * 0x100 + b1;
    assert n / 0x100 == b0 * 0x1_0000 + b1 * 0x100 + b2;
  }

  lemma Digits256Back(n: nat)
    requires n < TWO_32
    ensures n == n / 0x100_0000 * 0x100_0000 + n / 0x1_0000 % 0x100 * 0x1_0000 + n / 0x100 % 0x100 * 0x100 + n % 0x100
  {
    assert n / 0x100 / 0x100 == n / 0x1_0000;
    assert n / 0x1_0000 / 0x100 == n / 0x100_0000;
  }

  lemma Read32(data: Bytes, i: nat, n: nat)
    requires n < TWO_32 && i + 4 <= |data|
    ensures data[i..i + 4] == BE32(n) <==> U32(data, i) == n
  {
    assert data[i..i + 4] == [data[i], data[i + 1], data[i + 2], data[i + 3]];
    Digits256(U8(data, i), U8(data, i + 1), U8(data, i + 2), U8(data, i + 3));
    if data[i..i + 4] == BE32(n) {
      var b := BE32(n);
      assert data[i] == b[0] && data[i + 1] == b[1] && data[i + 2] == b[2] && data[i + 3] == b[3];
      Digits256Back(n);
    }
  }

  lemma BESizes(n: nat, t: nat, u: nat)
    requires n < 0x1_0000 && t < TWO_32 && u < TWO_32
    ensures |BE16(n)| == 2 && |BE32(t)| == 4 && |BE32(u)| == 4
  {
  }

  /** A built packet parses, with every field and the payload; the payload type loses its top bit. */
  lemma BuiltParses(payloadType: Octet, marker: bool, sequence: nat, timestamp: nat, ssrc: nat, payload: Bytes)
    requires sequence < 0x1_0000 && timestamp < TWO_32 && ssrc < TWO_32
    ensures ParseRtp(BuildRtp(payloadType, marker, sequence, timestamp, ssrc, payload))
         == Some(RtpFields(2, false, false, 0, marker, payloadType % 0x80, sequence, timestamp, ssrc, 12, payload))
  {
    hide BE16, BE32, U16, U32;
    var d := BuildRtp(payloadType, marker, sequence, timestamp, ssrc, payload);
    BESizes(sequence, timestamp, ssrc);
    assert d[2..4] == BE16(sequence) && d[4..8] == BE32(timestamp) && d[8..12] == BE32(ssrc) && d[12..] == payload;
    Read16(d, 2, sequence);
    Read32(d, 4, timestamp);
    Read32(d, 8, ssrc);
    assert d[12..|d|] == payload;
  }

  /** A packet without contributing sources, extension and padding is rebuilt byte for byte. */
  lemma ParsedRebuilds(data: Bytes)
    requires ParseRtp(data).Some?
    requires var p := ParseRtp(data).value; p.csrcCount == 0 && !p.extension && !p.padding
    ensures var p := ParseRtp(data).value;
            && p.sequence < 0x1_0000 && p.timestamp < TWO_32 && p.ssrc < TWO_32
            && BuildRtp(p.payloadType, p.marker, p.sequence, p.timestamp, p.ssrc, p.payload) == data
  {
    var p := ParseRtp(data).value;
    Read16(data, 2, p.sequence);
    Read32(data, 4, p.timestamp);
    Read32(data, 8, p.ssrc);
    assert data[0] as int == 0x80;
    assert data[1] as int == (if p.marker then 0x80 else 0) + p.payloadType;
    assert data == data[..2] + data[2..4] + data[4..8] + data[8..12] + data[12..];
    assert data[..2] == [data[0], data[1]];
  }

  /** Every packet that parses is its header, its payload and the padding taken off, end to end. */
  lemma Partition(data: Bytes)
    requires ParseRtp(data).Some?
    ensures var p := ParseRtp(data).value;
            var stripped := Stripped(data, p.headerSize);
            && 12 <= p.headerSize <= |data|
            && p.headerSize == 12 + 4 * p.csrcCount
                 + (if p.extension then 4 + 4 * U16(data, 12 + 4 * p.csrcCount + 2) else 0)
            && data == data[..p.headerSize] + p.payload + data[|data| - stripped..]
            && (stripped == 0 || (p.padding && stripped == U8(data, |data| - 1) && p.payload != []))
  {
  }

  // ---------- the layout of every packet ----------

  /** A packet as RFC 3550 lays it out: contributing sources, the extension's profile and words, and the
      padding that ends in its own length. */
  datatype Layout = Layout(
    padding: bool, extension: bool, csrcs: Bytes, marker: bool, payloadType: nat, sequence: nat, timestamp: nat,
    ssrc: nat, profile: Bytes, words: Bytes, payload: Bytes, tail: Bytes)

  /** A padding bit whose count leaves no payload, or is zero, takes nothing off. */
  predicate TailOk(l: Layout) {
    if !l.padding then l.tail == []
    else if l.tail != [] then l.payload != [] && U8(l.tail, |l.tail| - 1) == |l.tail|
    else l.payload == [] || var n := U8(l.payload, |l.payload| - 1); n == 0 || n >= |l.payload|
  }

  predicate LayoutOk(l: Layout) {
    && |l.csrcs| % 4 == 0 && |l.csrcs| <= 60 && l.payloadType < 0x80
    && l.sequence < 0x1_0000 && l.timestamp < TWO_32 && l.ssrc < TWO_32
    && (if l.extension then |l.profile| == 2 && |l.words| % 4 == 0 && |l.words| / 4 < 0x1_0000
        else l.profile == l.words == [])
    && TailOk(l)
  }

  function FirstTwo(l: Layout): Bytes
    requires LayoutOk(l)
  {
    [(0x80 + (if l.padding then 0x20 else 0) + (if l.extension then 0x10 else 0) + |l.csrcs| / 4) as char,
     ((if l.marker then 0x80 else 0) + l.payloadType) as char]
  }

  function Fixed(l: Layout): (b: Bytes)
    requires LayoutOk(l)
    ensures |b| == 12
  {
    FirstTwo(l) + BE16(l.sequence) + BE32(l.timestamp) + BE32(l.ssrc)
  }

  function Extension(l: Layout): Bytes
    requires LayoutOk(l)
  {
    if l.extension then l.profile + BE16(|l.words| / 4) + l.words else []
  }

  function LaidOut(l: Layout): Bytes
    requires LayoutOk(l)
  {
    Fixed(l) + l.csrcs + Extension(l) + l.payload + l.tail
  }

  lemma FixedRead(l: Layout, rest: Bytes)
    requires LayoutOk(l)
    ensures var d := Fixed(l) + rest;
            && |d| >= 12 && U8(d, 0) / 0x40 == 2 && HasPadding(d) == l.padding && HasExtension(d) == l.extension
            && U8(d, 0) % 16 == |l.csrcs| / 4 && (U8(d, 1) / 0x80 == 1) == l.marker && U8(d, 1) % 0x80 == l.payloadType
            && U16(d, 2) == l.sequence && U32(d, 4) == l.timestamp && U32(d, 8) == l.ssrc
  {
    hide BE16, BE32, U16, U32;
    var d := Fixed(l) + rest;
    BESizes(l.sequence, l.timestamp, l.ssrc);
    assert d[2..4] == BE16(l.sequence) && d[4..8] == BE32(l.timestamp) && d[8..12] == BE32(l.ssrc);
    assert d[0] == FirstTwo(l)[0] && d[1] == FirstTwo(l)[1];
    Read16(d, 2, l.sequence);
    Read32(d, 4, l.timestamp);
    Read32(d, 8, l.ssrc);
  }

  lemma Middle(a: Bytes, b: Bytes, c: Bytes)
    ensures (a + b + c)[|a|..|a| + |b|] == b
  {
  }

  lemma ExtensionAt(l: Layout)
    requires LayoutOk(l) && l.extension
    ensures var d, at := LaidOut(l), 14 + |l.csrcs|;
            at + 2 <= |d| && U16(d, at) == |l.words| / 4 && |Extension(l)| == 4 + |l.words|
  {
    hide BE16, U16, Fixed, HasExtension;
    var before, n, after := Fixed(l) + l.csrcs + l.profile, BE16(|l.words| / 4), l.words + l.payload + l.tail;
    BESizes(|l.words| / 4, 0, 0);
    assert LaidOut(l) == before + n + after;
    Middle(before, n, after);
    Read16(LaidOut(l), 14 + |l.csrcs|, |l.words| / 4);
  }

  lemma SizeRead(l: Layout, d: Bytes)
    requires LayoutOk(l) && d == LaidOut(l) && |d| >= 12
    requires U8(d, 0) % 16 == |l.csrcs| / 4 && HasExtension(d) == l.extension
    ensures HeaderSize(d) == Some(12 + |l.csrcs| + |Extension(l)|)
  {
    if l.extension { ExtensionAt(l); }
    hide BE16, U16, Fixed, HasExtension, LaidOut, U8;
  }

  lemma TailRead(front: Bytes, l: Layout)
    requires LayoutOk(l) && |front| >= 12 && HasPadding(front + l.payload + l.tail) == l.padding
    ensures var d := front + l.payload + l.tail;
            Stripped(d, |front|) == |l.tail| && d[|front|..|d| - |l.tail|] == l.payload
  {
    hide HasPadding, LaidOut, Fixed;
    var d := front + l.payload + l.tail;
    if l.tail != [] {
      assert U8(d, |d| - 1) == U8(l.tail, |l.tail| - 1);
    } else if l.payload != [] {
      assert U8(d, |d| - 1) == U8(l.payload, |l.payload| - 1);
    }
  }

  /** Every packet laid out so is read with every bit and field, its header of the right size, and its
      payload without the padding. */
  lemma LaidOutParses(l: Layout)
    requires LayoutOk(l)
    ensures ParseRtp(LaidOut(l)) == Some(RtpFields(
              2, l.padding, l.extension, |l.csrcs| / 4, l.marker, l.payloadType, l.sequence, l.timestamp, l.ssrc,
              12 + |l.csrcs| + |Extension(l)|, l.payload))
  {
    hide U8, U16, U32, HasPadding, HasExtension, HeaderSize, Stripped, LayoutOk, Fixed, Extension;
    var d := LaidOut(l);
    var rest := l.csrcs + Extension(l) + l.payload + l.tail;
    assert d == Fixed(l) + rest;
    FixedRead(l, rest);
    SizeRead(l, d);
    var front := Fixed(l) + l.csrcs + Extension(l);
    assert d == front + l.payload + l.tail;
    TailRead(front, l);
  }

  lemma LayoutRead(data: Bytes, p: RtpFields, l: Layout)
    requires ParseRtp(data) == Some(p)
    requires var at, end := 12 + 4 * p.csrcCount, |data| - Stripped(data, p.headerSize);
             && at <= p.headerSize
             && l == Layout(p.padding, p.extension, data[12..at], p.marker, p.payloadType, p.sequence, p.timestamp, p.ssrc,
                            if p.extension then data[at..at + 2] else [],
                            if p.extension then data[at + 4..p.headerSize] else [], p.payload, data[end..])
    ensures LayoutOk(l)
    ensures p.extension ==> |l.words| / 4 == U16(data, 12 + 4 * p.csrcCount + 2)
  {
    assert TailOk(l) by {
      if l.tail != [] {
        assert U8(l.tail, |l.tail| - 1) == U8(data, |data| - 1);
      } else if l.payload != [] {
        assert U8(l.payload, |l.payload| - 1) == U8(data, |data| - 1);
      }
    }
  }

  lemma FixedBack(data: Bytes, l: Layout)
    requires ParseRtp(data).Some? && LayoutOk(l)
    requires var p := ParseRtp(data).value;
             l.padding == p.padding && l.extension == p.extension && |l.csrcs| == 4 * p.csrcCount && l.marker == p.marker
             && l.payloadType == p.payloadType && l.sequence == p.sequence && l.timestamp == p.timestamp && l.ssrc == p.ssrc
    ensures Fixed(l) == data[..12]
  {
    hide BE16, BE32, U16, U32;
    Read16(data, 2, l.sequence);
    Read32(data, 4, l.timestamp);
    Read32(data, 8, l.ssrc);
    assert FirstTwo(l) == data[..2] by { assert data[..2] == [data[0], data[1]]; }
    assert data[..12] == data[..2] + data[2..4] + data[4..8] + data[8..12];
  }

  lemma ExtensionBack(data: Bytes, l: Layout, at: nat, size: nat)
    requires LayoutOk(l) && l.extension && at + 4 <= size <= |data|
    requires l.profile == data[at..at + 2] && l.words == data[at + 4..size] && U16(data, at + 2) == |l.words| / 4
    ensures Extension(l) == data[at..size]
  {
    hide BE16, U16;
    Read16(data, at + 2, |l.words| / 4);
    assert data[at..size] == data[at..at + 2] + data[at + 2..at + 4] + data[at + 4..size];
  }

  /** And every packet that is accepted is laid out so: nothing else is. */
  lemma ParsedIsLaidOut(data: Bytes) returns (l: Layout)
    requires ParseRtp(data).Some?
    ensures LayoutOk(l) && LaidOut(l) == data
  {
    Partition(data);
    var p := ParseRtp(data).value;
    var at, size := 12 + 4 * p.csrcCount, p.headerSize;
    var end := |data| - Stripped(data, size);
    hide U8, U16, U32, HasPadding, HasExtension, HeaderSize, Stripped, LayoutOk, BE16, BE32, Fixed, Extension;
    l := Layout(p.padding, p.extension, data[12..at], p.marker, p.payloadType, p.sequence, p.timestamp, p.ssrc,
                if p.extension then data[at..at + 2] else [], if p.extension then data[at + 4..size] else [],
                p.payload, data[end..]);
    LayoutRead(data, p, l);
    FixedBack(data, l);
    assert Extension(l) == data[at..size] by {
      if p.extension { ExtensionBack(data, l, at, size); } else { NoExtension(l); }
    }
    assert p.payload == data[size..end];
    Assembled(data, at, size, end);
  }

  lemma NoExtension(l: Layout)
    requires LayoutOk(l) && !l.extension
    ensures Extension(l) == []
  {
  }

  lemma Assembled(data: Bytes, at: nat, size: nat, end: nat)
    requires 12 <= at <= size <= end <= |data|
    ensures data[..12] + data[12..at] + data[at..size] + data[size..end] + data[end..] == data
  {
    assert data[..at] == data[..12] + data[12..at];
    assert data[..size] == data[..at] + data[at..size];
    assert data[..end] == data[..size] + data[size..end];
  }

  // ---------- the packet object ----------

  class RtpPacket {
    var rawData: Bytes
    var headerSize: nat
    var payload: Bytes
    var version: nat
    var padding: bool
    var extension: bool
    var csrcCount: nat
    var marker: bool
    var payloadType: nat
    var sequence: nat
    var timestamp: nat
    var ssrc: nat

    constructor ()
      ensures rawData == [] && payload == [] && headerSize == 0 && version == 2
    {
      rawData, headerSize, payload, version := [], 0, [], 2;
      padding, extension, csrcCount, marker, payloadType := false, false, 0, false, 0;
      sequence, timestamp, ssrc := 0, 0, 0;
    }

    function View(): RtpFields
      reads this
    {
      RtpFields(version, padding, extension, csrcCount, marker, payloadType,
                sequence, timestamp, ssrc, headerSize, payload)
    }

    /** The twelve bytes every packet has. */
    method ReadFixed(data: Bytes)
      requires |data| >= 12
      modifies this
      ensures View() == RtpFields(2, HasPadding(data), HasExtension(data), U8(data, 0) % 16,
                                  U8(data, 1) / 0x80 == 1, U8(data, 1) % 0x80,
                                  U16(data, 2), U32(data, 4), U32(data, 8), 12 + U8(data, 0) % 16 * 4, old(payload))
      ensures rawData == old(rawData)
    {
      hide U8, U16, U32, HasPadding, HasExtension;
      version := 2;
      padding := HasPadding(data);
      extension := HasExtension(data);
      csrcCount := U8(data, 0) % 16;
      marker := U8(data, 1) / 0x80 == 1;
      payloadType := U8(data, 1) % 0x80;
      sequence, timestamp, ssrc := U16(data, 2), U32(data, 4), U32(data, 8);
      headerSize := 12 + csrcCount * 4;
    }

    /** Sets the fields one by one; a packet refused half-way leaves the earlier ones set. */
    method Parse(data: Bytes) returns (ok: bool)
      modifies this
      ensures ok <==> ParseRtp(data).Some?
      ensures ok ==> View() == ParseRtp(data).value && rawData == data
      ensures |data| < 12 ==> View() == old(View()) && rawData == old(rawData)
    {
      hide U8, U16, U32, HasPadding, HasExtension;
      if |data| < 12 { return false; }
      rawData := data;
      version := U8(data, 0) / 0x40;
      if version != 2 { return false; }
      ReadFixed(data);
      if extension {
        if headerSize + 4 > |data| { return false; }
        var extLen := U16(data, headerSize + 2);
        headerSize := headerSize + 4 + extLen * 4;
      }
      if headerSize > |data| { return false; }
      var payloadSize := |data| - headerSize;
      if padding {
        var padLen := U8(data, |data| - 1);
        if padLen < payloadSize { payloadSize := payloadSize - padLen; }
      }
      payload := data[headerSize..headerSize + payloadSize];
      return true;
    }
  }

  /** Fills a fresh packet in place. */
  method Build(payloadType: Octet, marker: bool, sequence: nat, timestamp: nat, ssrc: nat, payload: Bytes)
    returns (pkt: array<Byte>)
    requires sequence < 0x1_0000 && timestamp < TWO_32 && ssrc < TWO_32
    ensures pkt[..] == BuildRtp(payloadType, marker, sequence, timestamp, ssrc, payload)
  {
    hide BE16, BE32;
    BESizes(sequence, timestamp, ssrc);
    pkt := new Byte[12 + |payload|](_ => 0 as char);
    pkt[0] := 0x80 as char;
    pkt[1] := ((if marker then 0x80 else 0) + payloadType % 0x80) as char;
    ghost var head := pkt[..2];
    Put(pkt, 2, BE16(sequence));
    assert pkt[..4] == head + BE16(sequence);
    Put(pkt, 4, BE32(timestamp));
    assert pkt[..8] == head + BE16(sequence) + BE32(timestamp);
    Put(pkt, 8, BE32(ssrc));
    assert pkt[..12] == head + BE16(sequence) + BE32(timestamp) + BE32(ssrc);
    Put(pkt, 12, payload);
    assert pkt[..] == pkt[..12] + payload;
  }

  /** Copies `bytes` into the packet at `at`. */
  method Put(pkt: array<Byte>, at: nat, bytes: Bytes)
    requires at + |bytes| <= pkt.Length
    modifies pkt
    ensures pkt[..at + |bytes|] == old(pkt[..at]) + bytes
  {
    forall i | 0 <= i < |bytes| { pkt[at + i] := bytes[i]; }
  }
}
