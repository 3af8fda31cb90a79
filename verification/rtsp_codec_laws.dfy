/** Laws of the RTSP wire form: printing and parsing undo each other, exactly on the messages whose
    parts respect the line syntax; the parser's answer is stable while bytes keep arriving. */
module CodecLaws {
  import opened Text
  import opened RtspProtocol

  // ---------- which messages the wire form can carry ----------

  /** A header that one line `key: value` can carry. */
  predicate FieldOk(key: Bytes, value: Bytes) {
    && Clean(key) && Lacks(key, ':')
    && Clean(value) && (value == [] || value[0] != ' ')
  }

  /** A message of unknown kind is printed as a response. */
  predicate StartOk(m: RtspMessage) {
    if m.kind == Request then Clean(m.url) && Lacks(m.url, ' ') && Clean(m.version)
    else StartsWith(m.version, RTSP_PREFIX) && Lacks(m.version, ' ') && Clean(m.version) && Clean(m.reason)
  }

  /** A Content-Length entry beside a body is overridden by the line printed last, so spaces in front of
      it do no harm. */
  predicate Stale(m: RtspMessage, key: Bytes) {
    key == CONTENT_LENGTH && m.body != []
  }

  /** The CSeq entry is not printed from the map, so nothing is asked of it. Without a body no
      Content-Length of its own is printed, so an entry left in the map must say zero. */
  predicate WellFormed(m: RtspMessage) {
    && StartOk(m)
    && (forall k :: k in m.headers && k != CSEQ ==> FieldOk(k, m.headers[k]) || (Stale(m, k) && Clean(m.headers[k])))
    && (m.body == [] ==> ContentLength(m.headers) == 0)
  }

  /** Numbers in the range in which `int`, `atoi` and `atoll` are defined. */
  predicate Representable(m: RtspMessage) {
    m.cseq < TWO_31 && -TWO_31 <= m.status < TWO_31 && |m.body| < TWO_63
  }

  /** The start line of `m` alone. */
  function StartOf(m: RtspMessage): RtspMessage {
    if m.kind == Request then BLANK.(kind := Request, verb := m.verb, url := m.url, version := m.version)
    else BLANK.(kind := Response, version := m.version, status := m.status, reason := m.reason)
  }

  /** The headers the reader sees: CSeq and, with a body, Content-Length are the printed ones. */
  function WireHeaders(m: RtspMessage): Headers {
    m.headers + map[CSEQ := Dec(m.cseq)] + (if m.body == [] then map[] else map[CONTENT_LENGTH := Dec(|m.body|)])
  }

  /** The message the reader gets; it does not depend on the order of the headers. */
  function Received(m: RtspMessage): RtspMessage {
    var hs := WireHeaders(m);
    StartOf(m).(
      headers := hs, body := m.body, cseq := m.cseq,
      sessionId := if SESSION in hs then UpToSemicolon(hs[SESSION]) else [],
      transport := if TRANSPORT in hs then hs[TRANSPORT] else [],
      sdp := if m.body != [] && CONTENT_TYPE in hs && Find(hs[CONTENT_TYPE], SDP, 0) >= 0 then m.body else [])
  }

  // ---------- clean text ----------

  lemma CleanConcat(a: Bytes, b: Bytes)
    requires Clean(a) && Clean(b)
    requires a == [] || b == [] || a[|a| - 1] != CR || b[0] != LF
    ensures Clean(a + b)
  {
    var s := a + b;
    forall k | 0 <= k < |s| - 1 ensures !(s[k] == CR && s[k + 1] == LF) {
      if k + 1 < |a| {
        assert s[k] == a[k] && s[k + 1] == a[k + 1];
      } else if k >= |a| {
        assert s[k] == b[k - |a|] && s[k + 1] == b[k + 1 - |a|];
      }
    }
  }

  lemma DigitsAreClean(i: int)
    ensures Clean(IntText(i)) && Lacks(IntText(i), ' ')
  {
  }

  lemma FieldLineClean(key: Bytes, value: Bytes)
    requires Clean(key) && Clean(value)
    ensures Clean(FieldLine(key, value)) && FieldLine(key, value) != []
  {
    CleanConcat(key, COLON_SPACE);
    CleanConcat(key + COLON_SPACE, value);
  }

  lemma SpacedClean(a: Bytes, b: Bytes, c: Bytes)
    requires Clean(a) && Clean(b) && Clean(c)
    ensures Clean(a + " " + b + " " + c)
  {
    CleanConcat(a, " ");
    CleanConcat(a + " ", b);
    CleanConcat(a + " " + b, " ");
    CleanConcat(a + " " + b + " ", c);
  }

  // ---------- the start line ----------

  lemma MethodRoundTrip(v: Method)
    ensures ParseMethod(MethodText(v)) == v
    ensures var t := MethodText(v); t != [] && Clean(t) && Lacks(t, ' ') && t[0] != '$'
    ensures |MethodText(v)| >= 4 && (MethodText(v)[0] != 'R' || MethodText(v)[1] != 'T')
  {
    match v {
      case NoMethod => case Options => case Describe => case Setup => case Play =>
      case Pause => case Teardown => case GetParameter => case Announce => case Record =>
    }
  }

  lemma OneSpace(a: Bytes, t: Bytes)
    requires Lacks(a, ' ')
    ensures var s := a + " " + t; Find(s, " ", 0) == |a| && s[..|a|] == a && s[|a| + 1..] == t
  {
    var s := a + " " + t;
    assert s[0..|a|] == a;
    FindChar(s, ' ', 0, |a|);
  }

  lemma SpaceTwice(s: Bytes, a: Bytes, t: Bytes, b: Bytes, c: Bytes)
    requires s == a + " " + t && t == b + " " + c && Lacks(a, ' ') && Lacks(b, ' ')
    ensures Find(s, " ", 0) == |a| && Find(s, " ", |a| + 1) == |a| + 1 + |b|
  {
    hide Find, Lacks;
    OneSpace(a, t);
    OneSpace(b, c);
    FindShift(s, " ", |a| + 1);
  }

  lemma TwoSpaces(s: Bytes, a: Bytes, b: Bytes, c: Bytes)
    requires s == a + " " + b + " " + c && Lacks(a, ' ') && Lacks(b, ' ')
    ensures Find(s, " ", 0) == |a| && Find(s, " ", |a| + 1) == |a| + 1 + |b|
  {
    hide Find, Lacks;
    assert s == a + " " + (b + " " + c);
    SpaceTwice(s, a, b + " " + c, b, c);
  }

  lemma ThreeWords(s: Bytes, a: Bytes, b: Bytes, c: Bytes)
    requires s == a + " " + b + " " + c
    ensures s[..|a|] == a && s[|a| + 1..|a| + 1 + |b|] == b && s[|a| + 1 + |b| + 1..] == c
  {
  }

  lemma RequestLineRoundTrip(m: RtspMessage)
    requires StartOk(m) && m.kind == Request
    ensures ParseStartLine(StartLine(m)) == Some(StartOf(m))
    ensures Clean(StartLine(m)) && StartLine(m) != [] && StartLine(m)[0] != '$'
  {
    hide Find, Lacks, Clean, MethodText, ParseMethod;
    var t := MethodText(m.verb);
    var line := StartLine(m);
    MethodRoundTrip(m.verb);
    SpacedClean(t, m.url, m.version);
    assert line[0] == t[0] && line[1] == t[1] && |line| >= 5;
    assert line[..5][0] == line[0] && line[..5][1] == line[1];
    assert !StartsWith(line, RTSP_PREFIX);
    TwoSpaces(line, t, m.url, m.version);
    ThreeWords(line, t, m.url, m.version);
  }

  lemma IntTextAtoi(i: int)
    requires -TWO_31 <= i < TWO_31
    ensures Atoi(IntText(i)) == i
  {
    hide Number, IntText;
    IntTextNumber(i, []);
    assert IntText(i) + [] == IntText(i);
  }

  lemma StatusLineRoundTrip(m: RtspMessage)
    requires StartOk(m) && m.kind != Request && Representable(m)
    ensures ParseStartLine(StartLine(m)) == Some(StartOf(m))
    ensures Clean(StartLine(m)) && StartLine(m) != [] && StartLine(m)[0] != '$'
  {
    hide Find, Lacks, Clean, IntText, Atoi;
    var line := StartLine(m);
    DigitsAreClean(m.status);
    IntTextAtoi(m.status);
    SpacedClean(m.version, IntText(m.status), m.reason);
    assert line[..5] == m.version[..5];
    assert line[0] == m.version[..5][0];
    TwoSpaces(line, m.version, IntText(m.status), m.reason);
    ThreeWords(line, m.version, IntText(m.status), m.reason);
  }

  lemma StartLineRoundTrip(m: RtspMessage)
    requires StartOk(m) && Representable(m)
    ensures ParseStartLine(StartLine(m)) == Some(StartOf(m))
    ensures Clean(StartLine(m)) && StartLine(m) != [] && StartLine(m)[0] != '$'
  {
    if m.kind == Request { RequestLineRoundTrip(m); } else { StatusLineRoundTrip(m); }
  }

  // ---------- the header lines ----------

  ghost predicate AllLinesOk(ls: seq<Bytes>) {
    forall i :: 0 <= i < |ls| ==> Clean(ls[i]) && ls[i] != []
  }

  function FoldLines(m: RtspMessage, ls: seq<Bytes>): RtspMessage
    decreases ls
  {
    if ls == [] then m else FoldLines(AddField(m, ls[0]), ls[1..])
  }

  lemma {:induction false} FoldAppend(m: RtspMessage, a: seq<Bytes>, b: seq<Bytes>)
    ensures FoldLines(m, a + b) == FoldLines(FoldLines(m, a), b)
    decreases a
  {
    if a == [] {
      assert a + b == b;
    } else {
      FoldAppend(AddField(m, a[0]), a[1..], b);
      assert (a + b)[1..] == a[1..] + b;
    }
  }

  lemma {:induction false} FieldsOfLines(m: RtspMessage, ls: seq<Bytes>)
    requires AllLinesOk(ls)
    ensures AddFields(m, Lines(ls) + CRLF) == FoldLines(m, ls)
    decreases ls
  {
    if ls != [] {
      var rest := Lines(ls[1..]) + CRLF;
      var text := Lines(ls) + CRLF;
      assert text == ls[0] + CRLF + rest;
      FindLineEnd(ls[0], rest);
      assert text[..|ls[0]|] == ls[0] && text[|ls[0]| + 2..] == rest;
      FieldsOfLines(AddField(m, ls[0]), ls[1..]);
    }
  }

  /** Inside a clean line, and at the break that ends it, the head does not end
      unless an empty line follows. */
  lemma NoHeadEndInLine(l: Bytes, t: Bytes, k: nat)
    requires Clean(l) && l != [] && k < |l| + 2
    requires k == |l| ==> !At(t, CRLF, 0)
    ensures !At(l + CRLF + t, HEADER_END, k)
  {
    var s := l + CRLF + t;
    AtHeaderEnd(s, k);
    AtCrlf(s, k);
    AtCrlf(s, k + 2);
    AtCrlf(t, 0);
  }

  lemma LineIsNoBreak(l: Bytes, t: Bytes)
    requires Clean(l) && l != []
    ensures !At(l + CRLF + t, CRLF, 0)
  {
    AtCrlf(l + CRLF + t, 0);
  }

  /** The head ends at the empty line, and nowhere before. */
  lemma {:induction false} HeadEndFound(ls: seq<Bytes>, rest: Bytes)
    requires ls != [] && AllLinesOk(ls)
    ensures Find(Lines(ls) + CRLF + rest, HEADER_END, 0) == |Lines(ls)| - 2
    decreases ls
  {
    hide Find, Clean;
    var l := ls[0];
    var t := Lines(ls[1..]) + CRLF + rest;
    var s := l + CRLF + t;
    assert Lines(ls) + CRLF + rest == s;
    if |ls| == 1 {
      assert t == CRLF + rest;
      AtHeaderEnd(s, |l|);
      AtCrlf(s, |l|);
      AtCrlf(s, |l| + 2);
      forall k: nat | k < |l| ensures !At(s, HEADER_END, k) { NoHeadEndInLine(l, t, k); }
      FindIs(s, HEADER_END, 0, |l|);
    } else {
      var u := Lines(ls[1..][1..]) + CRLF + rest;
      assert t == ls[1] + CRLF + u;
      LineIsNoBreak(ls[1], u);
      HeadEndFound(ls[1..], rest);
      assert s[|l| + 2..] == t;
      FindShift(s, HEADER_END, |l| + 2);
      forall k: nat | k < |l| + 2 ensures !At(s, HEADER_END, k) { NoHeadEndInLine(l, t, k); }
      FindSpec(s, HEADER_END, |l| + 2);
      FindIs(s, HEADER_END, 0, Find(s, HEADER_END, |l| + 2));
    }
  }

  lemma AddFieldLine(m: RtspMessage, key: Bytes, value: Bytes)
    requires Lacks(key, ':')
    ensures AddField(m, FieldLine(key, value)) == SetHeader(m, key, SkipSpaces(value))
  {
    var line := FieldLine(key, value);
    assert line[0..|key|] == key;
    FindChar(line, ':', 0, |key|);
    assert line[|key| + 1..] == " " + value;
    assert (" " + value)[1..] == value;
  }

  lemma NoSpaceToSkip(key: Bytes, value: Bytes)
    requires FieldOk(key, value)
    ensures SkipSpaces(value) == value
  {
  }

  /** The headers as the reader takes them, without spaces in front. */
  function Trimmed(headers: Headers): Headers { map k | k in headers :: SkipSpaces(headers[k]) }

  /** The entries of `headers` that are printed when the keys `order` are visited, as they are read. */
  function Printed(headers: Headers, order: seq<Bytes>): Headers {
    map k | k in headers && k in order && k != CSEQ :: SkipSpaces(headers[k])
  }

  function WithFields(m: RtspMessage, hs: Headers): RtspMessage {
    m.(headers := m.headers + hs,
       sessionId := if SESSION in hs then UpToSemicolon(hs[SESSION]) else m.sessionId,
       transport := if TRANSPORT in hs then hs[TRANSPORT] else m.transport)
  }

  /** Setting one header first and the others after is setting all of them. */
  lemma WithOneMore(m: RtspMessage, headers: Headers, order: seq<Bytes>)
    requires order != [] && order[0] in headers && order[0] != CSEQ
    ensures WithFields(SetHeader(m, order[0], SkipSpaces(headers[order[0]])), Printed(headers, order[1..]))
         == WithFields(m, Printed(headers, order))
  {
    hide UpToSemicolon, SkipSpaces;
    var k := order[0];
    var a := Printed(headers, order[1..]);
    var b := Printed(headers, order);
    assert forall x :: x in order <==> x == k || x in order[1..];
    assert m.headers[k := SkipSpaces(headers[k])] + a == m.headers + b;
  }

  lemma {:induction false} FoldFields(m: RtspMessage, headers: Headers, order: seq<Bytes>)
    requires forall k :: k in headers && k != CSEQ ==> Clean(k) && Lacks(k, ':') && Clean(headers[k])
    ensures FoldLines(m, FieldLines(headers, order)) == WithFields(m, Printed(headers, order))
    ensures AllLinesOk(FieldLines(headers, order))
    decreases order
  {
    if order == [] {
      assert m.headers + Printed(headers, order) == m.headers;
    } else if order[0] == CSEQ || order[0] !in headers {
      assert forall x :: x in order <==> x == order[0] || x in order[1..];
      assert Printed(headers, order) == Printed(headers, order[1..]);
      FoldFields(m, headers, order[1..]);
    } else {
      var k := order[0];
      AddFieldLine(m, k, headers[k]);
      FieldLineClean(k, headers[k]);
      FoldFields(SetHeader(m, k, SkipSpaces(headers[k])), headers, order[1..]);
      assert FieldLines(headers, order)[1..] == FieldLines(headers, order[1..]);
      WithOneMore(m, headers, order);
    }
  }

  // ---------- the round trip ----------

  lemma FieldsClean(m: RtspMessage)
    requires WellFormed(m)
    ensures forall k :: k in m.headers && k != CSEQ ==> Clean(k) && Lacks(k, ':') && Clean(m.headers[k])
  {
    assert Clean(CONTENT_LENGTH) && Lacks(CONTENT_LENGTH, ':');
  }

  /** Only a stale Content-Length is changed by being printed and read. */
  lemma TrimmedFields(m: RtspMessage)
    requires WellFormed(m)
    ensures forall k :: k in m.headers && k != CSEQ && !Stale(m, k) ==> Trimmed(m.headers)[k] == m.headers[k]
  {
    hide FieldOk, SkipSpaces, Clean;
    forall k | k in m.headers && k != CSEQ && !Stale(m, k) ensures SkipSpaces(m.headers[k]) == m.headers[k] {
      NoSpaceToSkip(k, m.headers[k]);
    }
  }

  lemma HeadLinesOk(m: RtspMessage, order: seq<Bytes>)
    requires WellFormed(m) && Representable(m)
    ensures AllLinesOk(HeadLines(m, order)) && HeadLines(m, order) != []
  {
    hide StartLine, StartOk, FieldLine, Dec, WithFields, Printed, ParseStartLine, StartOf;
    StartLineRoundTrip(m);
    DigitsAreClean(m.cseq);
    FieldLineClean(CSEQ, Dec(m.cseq));
    FieldsClean(m);
    FoldFields(BLANK, m.headers, order);
    DigitsAreClean(|m.body|);
    FieldLineClean(CONTENT_LENGTH, Dec(|m.body|));
  }

  lemma DecAtoll(n: nat)
    requires n < TWO_63
    ensures Atoll(Dec(n)) == n && Dec(n)[0] != ' '
    ensures n < TWO_31 ==> Atoi(Dec(n)) % TWO_32 == n
  {
    DecNumber(n, []);
    assert Dec(n) + [] == Dec(n);
  }

  /** All header lines together give the message without its body. */
  lemma HeadersReceived(m: RtspMessage, order: seq<Bytes>)
    requires WellFormed(m) && Representable(m) && Enumerates(order, m.headers)
    ensures FoldLines(StartOf(m), HeadLines(m, order)[1..]) == Received(m).(body := [], sdp := [])
  {
    var fields := FieldLines(m.headers, order);
    var tail := [FieldLine(CSEQ, Dec(m.cseq))] + (fields + LengthLine(m));
    assert HeadLines(m, order)[1..] == tail;
    assert tail[1..] == fields + LengthLine(m);
    DecAtoll(m.cseq);
    AddFieldLine(StartOf(m), CSEQ, Dec(m.cseq));
    FieldsClean(m);
    var m1 := SetHeader(StartOf(m), CSEQ, Dec(m.cseq));
    FoldAppend(m1, fields, LengthLine(m));
    FoldFields(m1, m.headers, order);
    LengthReceived(WithFields(m1, Printed(m.headers, order)), m);
    FieldsMerge(m, order);
    LengthMerge(m);
  }

  lemma LengthReceived(m2: RtspMessage, m: RtspMessage)
    requires |m.body| < TWO_63
    ensures FoldLines(m2, LengthLine(m)) == if m.body == [] then m2 else SetHeader(m2, CONTENT_LENGTH, Dec(|m.body|))
  {
    if m.body != [] {
      DecAtoll(|m.body|);
      AddFieldLine(m2, CONTENT_LENGTH, Dec(|m.body|));
      assert LengthLine(m)[1..] == [];
    }
  }

  /** The CSeq line, then every other entry: that is the map with its CSeq entry replaced. */
  lemma ShownHeaders(headers: Headers, order: seq<Bytes>, cseq: Bytes)
    requires Enumerates(order, headers)
    ensures map[CSEQ := cseq] + Printed(headers, order) == Trimmed(headers) + map[CSEQ := cseq]
    ensures forall k :: k != CSEQ && k in headers ==>
      k in Printed(headers, order) && Printed(headers, order)[k] == Trimmed(headers)[k]
  {
    hide SkipSpaces;
  }

  lemma NamesDiffer()
    ensures |CSEQ| == 4 && |SESSION| == 7 && |TRANSPORT| == 9 && |CONTENT_LENGTH| == 14 && |CONTENT_TYPE| == 12
  {
  }

  /** The message after the CSeq line and the header fields. */
  function BeforeLength(m: RtspMessage): RtspMessage {
    StartOf(m).(
      headers := Trimmed(m.headers) + map[CSEQ := Dec(m.cseq)], cseq := m.cseq,
      sessionId := if SESSION in m.headers then UpToSemicolon(Trimmed(m.headers)[SESSION]) else [],
      transport := if TRANSPORT in m.headers then Trimmed(m.headers)[TRANSPORT] else [])
  }

  lemma FieldsMerge(m: RtspMessage, order: seq<Bytes>)
    requires Enumerates(order, m.headers) && m.cseq < TWO_31
    ensures WithFields(SetHeader(StartOf(m), CSEQ, Dec(m.cseq)), Printed(m.headers, order)) == BeforeLength(m)
  {
    DecAtoll(m.cseq);
    NamesDiffer();
    var text := Dec(m.cseq);
    ShownHeaders(m.headers, order, text);
    assert SetHeader(StartOf(m), CSEQ, text) == StartOf(m).(headers := map[CSEQ := text], cseq := m.cseq);
  }

  /** With the Content-Length line set last, the headers read are those on the wire. */
  lemma HeadersMerge(m: RtspMessage)
    requires WellFormed(m)
    ensures var hs, before := WireHeaders(m), BeforeLength(m).headers;
            && hs == (if m.body == [] then before else before[CONTENT_LENGTH := Dec(|m.body|)])
            && (SESSION in m.headers <==> SESSION in hs) && (TRANSPORT in m.headers <==> TRANSPORT in hs)
            && (SESSION in hs ==> Trimmed(m.headers)[SESSION] == hs[SESSION])
            && (TRANSPORT in hs ==> Trimmed(m.headers)[TRANSPORT] == hs[TRANSPORT])
  {
    hide FieldOk, SkipSpaces, Clean, UpToSemicolon, StartOk, ContentLength;
    NamesDiffer();
    TrimmedFields(m);
  }

  lemma LengthMerge(m: RtspMessage)
    requires WellFormed(m)
    ensures (if m.body == [] then BeforeLength(m) else SetHeader(BeforeLength(m), CONTENT_LENGTH, Dec(|m.body|)))
         == Received(m).(body := [], sdp := [])
  {
    hide WellFormed, UpToSemicolon, WireHeaders, Find, Dec, Atoi;
    NamesDiffer();
    HeadersMerge(m);
  }

  lemma BodyReceived(m: RtspMessage, head: Bytes, rest: Bytes)
    requires WellFormed(m) && Representable(m)
    ensures ParseBody(head + m.body + rest, |head|, Received(m).(body := [], sdp := []))
         == Parsed(Received(m), |head| + |m.body|)
  {
    var s := head + m.body + rest;
    DecAtoll(|m.body|);
    assert s[|head|..|head| + |m.body|] == m.body;
    assert m.body == [] ==> ContentLength(WireHeaders(m)) == ContentLength(m.headers);
  }

  lemma HeadReceived(m: RtspMessage, order: seq<Bytes>)
    requires WellFormed(m) && Representable(m) && Enumerates(order, m.headers)
    ensures var head := Lines(HeadLines(m, order)) + CRLF;
            var e := Find(head, CRLF, 0);
            && e >= 0 && ParseStartLine(head[..e]) == Some(StartOf(m))
            && AddFields(StartOf(m), head[e + 2..]) == Received(m).(body := [], sdp := [])
            && head[0] != '$'
  {
    var ls := HeadLines(m, order);
    var head := Lines(ls) + CRLF;
    HeadLinesOk(m, order);
    StartLineRoundTrip(m);
    var tail := Lines(ls[1..]) + CRLF;
    assert head == ls[0] + CRLF + tail;
    FindLineEnd(ls[0], tail);
    assert head[..|ls[0]|] == ls[0] && head[|ls[0]| + 2..] == tail;
    FieldsOfLines(StartOf(m), ls[1..]);
    HeadersReceived(m, order);
    assert head[0] == ls[0][0];
  }

  /** A printed message is read back, whatever the order of its headers and whatever follows it. */
  lemma RoundTrip(m: RtspMessage, order: seq<Bytes>, rest: Bytes)
    requires WellFormed(m) && Representable(m) && Enumerates(order, m.headers)
    ensures Parse(Serialize(m, order) + rest) == Parsed(Received(m), |Serialize(m, order)|)
  {
    hide HeadLines, Find, ParseStartLine, AddFields, ParseBody, StartOf, Received, WellFormed, Representable, Enumerates;
    var ls := HeadLines(m, order);
    var head := Lines(ls) + CRLF;
    var s := Serialize(m, order) + rest;
    HeadLinesOk(m, order);
    assert s == head + (m.body + rest);
    assert s == head + m.body + rest;
    HeadEndFound(ls, m.body + rest);
    assert s[..|head|] == head;
    HeadReceived(m, order);
    BodyReceived(m, head, rest);
  }

  /** No printed message begins like a packet. */
  lemma NeverLikeAPacket(m: RtspMessage, order: seq<Bytes>)
    requires WellFormed(m) && Representable(m) && Enumerates(order, m.headers)
    ensures Serialize(m, order) != [] && Serialize(m, order)[0] != '$'
  {
    hide HeadLines, Find, ParseStartLine, AddFields, StartOf, Received, WellFormed, Representable, Enumerates;
    HeadReceived(m, order);
    HeadLinesOk(m, order);
    assert Serialize(m, order) == Lines(HeadLines(m, order)) + CRLF + m.body;
  }
}
