/** What the parser does on arbitrary input: stable answers, bounds, and the shape of every
    message it can produce; with it, the exact reach of the round trip. */
module ParserLaws {
  import opened Text
  import opened RtspProtocol
  import opened CodecLaws

  lemma BodyStable(s: Bytes, t: Bytes, headerLen: nat, m: RtspMessage)
    requires !ParseBody(s, headerLen, m).NeedMore?
    ensures ParseBody(s + t, headerLen, m) == ParseBody(s, headerLen, m)
  {
    var n := ContentLength(m.headers);
    if 0 <= n { assert (s + t)[headerLen..headerLen + n] == s[headerLen..headerLen + n]; }
  }

  /** Once the parser has answered, bytes that arrive later do not change the answer. */
  lemma ParseStable(s: Bytes, t: Bytes)
    requires !Parse(s).NeedMore?
    ensures Parse(s + t) == Parse(s)
  {
    hide Find, ParseStartLine, AddFields, ParseBody;
    var e := Find(s, HEADER_END, 0);
    FindStable(s, t, HEADER_END, 0);
    var header := s[..e + 4];
    assert (s + t)[..e + 4] == header;
    var lineEnd := Find(header, CRLF, 0);
    var m := AddFields(ParseStartLine(header[..lineEnd]).value, header[lineEnd + 2..]);
    BodyStable(s, t, |header|, m);
  }

  predicate HeadComplete(s: Bytes) { Find(s, HEADER_END, 0) >= 0 }

  function HeadSize(s: Bytes): nat
    requires HeadComplete(s)
  {
    Find(s, HEADER_END, 0) + 4
  }

  /** What a complete head says; nothing when its start line is malformed. */
  function HeadMessage(s: Bytes): Option<RtspMessage>
    requires HeadComplete(s)
  {
    var head := s[..HeadSize(s)];
    var lineEnd := Find(head, CRLF, 0);
    if lineEnd < 0 then None else
    match ParseStartLine(head[..lineEnd])
    case None => None
    case Some(m) => Some(AddFields(m, head[lineEnd + 2..]))
  }

  /** Once the head is there, it alone decides how the bytes behind it are taken. */
  lemma HeadDecides(s: Bytes, t: Bytes)
    requires HeadComplete(s)
    ensures Parse(s + t) == match HeadMessage(s)
                            case None => NeedMore
                            case Some(m) => ParseBody(s + t, HeadSize(s), m)
  {
    hide Find, ParseStartLine, AddFields, ParseBody;
    FindStable(s, t, HEADER_END, 0);
    assert (s + t)[..HeadSize(s)] == s[..HeadSize(s)];
  }

  /** No later byte can help: the start line is malformed, or Content-Length is further below zero than
      the head is long, so that the size asked for wraps to one no buffer reaches. */
  predicate Blocked(s: Bytes)
    requires HeadComplete(s)
  {
    HeadMessage(s).None? || ContentLength(HeadMessage(s).value.headers) < 0 - HeadSize(s)
  }

  /** A complete head is never answered, whatever arrives later, exactly when it is blocked. */
  lemma BlockedForever(s: Bytes)
    requires HeadComplete(s)
    ensures (forall t :: Parse(s + t).NeedMore?) <==> Blocked(s)
  {
    hide Parse, HeadMessage, HeadSize, HeadComplete;
    forall t ensures Blocked(s) ==> Parse(s + t).NeedMore? { HeadDecides(s, t); }
    if !Blocked(s) {
      var n := ContentLength(HeadMessage(s).value.headers);
      var t: Bytes := seq(if n < 0 then 0 else n, _ => '0');
      HeadDecides(s, t);
      assert |s + t| >= HeadSize(s) + n by { HeadFits(s); }
      assert !Parse(s + t).NeedMore?;
    }
  }

  lemma HeadFits(s: Bytes)
    requires HeadComplete(s)
    ensures HeadSize(s) <= |s|
  {
    hide Find;
  }

  /** The parser throws exactly when a complete, well-formed head asks for a negative Content-Length no
      further below zero than the head is long: the sum wraps around to a size the buffer has. */
  lemma ThrowsExactly(s: Bytes)
    ensures Parse(s).Throws? <==>
      HeadComplete(s) && HeadMessage(s).Some? && 0 - HeadSize(s) <= ContentLength(HeadMessage(s).value.headers) < 0
  {
    hide Find, ParseStartLine, AddFields, HeadMessage, HeadSize;
    if HeadComplete(s) {
      HeadDecides(s, []);
      assert s + [] == s;
    }
  }

  /** A parsed message took at least its empty line and at most what was there. */
  lemma ParsedBounds(s: Bytes)
    requires Parse(s).Parsed?
    ensures 4 <= Parse(s).consumed <= |s|
  {
  }

  /** A message parses from its own bytes alone. */
  lemma ParsedFromItself(s: Bytes)
    requires Parse(s).Parsed?
    ensures Parse(s[..Parse(s).consumed]) == Parse(s)
  {
    hide Find, ParseStartLine, AddFields;
    var n, e := Parse(s).consumed, Find(s, HEADER_END, 0);
    HeadFromItself(s, n);
    assert s[..n][..e + 4] == s[..e + 4];
    assert s[..n][e + 4..n] == s[e + 4..n];
  }

  /** The end of the head is found in any front part that holds it. */
  lemma HeadFromItself(s: Bytes, n: nat)
    requires 0 <= Find(s, HEADER_END, 0) <= n - 4 && n <= |s|
    ensures Find(s[..n], HEADER_END, 0) == Find(s, HEADER_END, 0)
  {
    hide Find;
    var e := Find(s, HEADER_END, 0);
    FindSpec(s, HEADER_END, 0);
    assert s[..n][e..e + 4] == s[e..e + 4];
    FindSpec(s[..n], HEADER_END, 0);
    assert At(s[..n], HEADER_END, e);
    FindStable(s[..n], s[n..], HEADER_END, 0);
    assert s[..n] + s[n..] == s;
  }

  ghost predicate FieldsOk(headers: Headers) {
    forall k :: k in headers ==> FieldOk(k, headers[k])
  }

  /** Everything but what header lines set. */
  predicate SameStart(a: RtspMessage, b: RtspMessage) {
    && a.kind == b.kind && a.verb == b.verb && a.url == b.url && a.version == b.version
    && a.status == b.status && a.reason == b.reason && a.body == b.body && a.sdp == b.sdp
  }

  lemma CleanPart(s: Bytes, lo: nat, hi: nat)
    requires Clean(s) && lo <= hi <= |s|
    ensures Clean(s[lo..hi])
  {
    forall k | 0 <= k < hi - lo - 1 ensures !(s[lo..hi][k] == CR && s[lo..hi][k + 1] == LF) {
      assert s[lo..hi][k] == s[lo + k] && s[lo..hi][k + 1] == s[lo + k + 1];
    }
  }

  lemma {:induction false} SkipSpacesSuffix(s: Bytes) returns (n: nat)
    ensures n <= |s| && SkipSpaces(s) == s[n..]
    ensures SkipSpaces(s) == [] || SkipSpaces(s)[0] != ' '
  {
    if s != [] && s[0] == ' ' {
      n := SkipSpacesSuffix(s[1..]);
      assert s[1..][n..] == s[1 + n..];
      n := n + 1;
    } else {
      n := 0;
    }
  }

  lemma ParsedStartOk(line: Bytes)
    requires Clean(line) && ParseStartLine(line).Some?
    ensures StartOk(ParseStartLine(line).value)
    ensures var m := ParseStartLine(line).value;
            m.headers == map[] && m.body == [] && m.cseq == 0 && -TWO_31 <= m.status < TWO_31
  {
    var sp1 := Find(line, " ", 0);
    var sp2 := Find(line, " ", sp1 + 1);
    LacksBefore(line, ' ', 0, sp1);
    LacksBefore(line, ' ', sp1 + 1, sp2);
    CleanPart(line, 0, sp1);
    CleanPart(line, sp1 + 1, sp2);
    CleanPart(line, sp2 + 1, |line|);
    assert line[0..sp1] == line[..sp1];
    assert line[sp2 + 1..|line|] == line[sp2 + 1..];
    if StartsWith(line, RTSP_PREFIX) {
      forall i | 0 <= i < 5 ensures line[i] != ' ' { assert line[i] == line[..5][i]; }
      assert line[..sp1][..5] == line[..5];
    }
  }

  lemma AddFieldOk(m: RtspMessage, line: Bytes)
    requires Clean(line) && FieldsOk(m.headers) && m.cseq < TWO_32
    ensures FieldsOk(AddField(m, line).headers) && AddField(m, line).cseq < TWO_32
    ensures SameStart(AddField(m, line), m)
  {
    var colon := Find(line, ":", 0);
    if colon >= 0 {
      LacksBefore(line, ':', 0, colon);
      CleanPart(line, 0, colon);
      assert line[0..colon] == line[..colon];
      var tail := line[colon + 1..];
      var n := SkipSpacesSuffix(tail);
      CleanPart(line, colon + 1 + n, |line|);
      assert line[colon + 1 + n..|line|] == tail[n..];
    }
  }

  lemma {:induction false} AddFieldsOk(m: RtspMessage, text: Bytes)
    requires FieldsOk(m.headers) && m.cseq < TWO_32
    ensures FieldsOk(AddFields(m, text).headers) && AddFields(m, text).cseq < TWO_32
    ensures SameStart(AddFields(m, text), m)
    decreases |text|
  {
    if |text| > 2 {
      var next := Find(text, CRLF, 0);
      if next > 0 {
        CleanBefore(text, next);
        AddFieldOk(m, text[..next]);
        AddFieldsOk(AddField(m, text[..next]), text[next + 2..]);
      }
    }
  }

  /** Whatever bytes come in, a message that parses is one the wire form can carry. */
  lemma ParsedIsWellFormed(s: Bytes)
    requires Parse(s).Parsed?
    ensures WellFormed(Parse(s).msg) && FieldsOk(Parse(s).msg.headers)
    ensures Parse(s).msg.cseq < TWO_32 && -TWO_31 <= Parse(s).msg.status < TWO_31
    ensures |Parse(s).msg.body| < TWO_63
  {
    var header := s[..Find(s, HEADER_END, 0) + 4];
    var lineEnd := Find(header, CRLF, 0);
    CleanBefore(header, lineEnd);
    ParsedStartOk(header[..lineEnd]);
    AddFieldsOk(ParseStartLine(header[..lineEnd]).value, header[lineEnd + 2..]);
  }

  lemma SessionPart(value: Bytes)
    requires FieldOk(SESSION, value)
    ensures FieldOk(SESSION, UpToSemicolon(value))
  {
    var semi := Find(value, ";", 0);
    if semi >= 0 {
      CleanPart(value, 0, semi);
      assert value[0..semi] == value[..semi];
    }
  }

  lemma AddFieldSession(m: RtspMessage, line: Bytes)
    requires Clean(line) && FieldOk(SESSION, m.sessionId)
    ensures FieldOk(SESSION, AddField(m, line).sessionId)
  {
    hide UpToSemicolon;
    var colon := Find(line, ":", 0);
    if colon >= 0 && line[..colon] == SESSION {
      var tail := line[colon + 1..];
      var n := SkipSpacesSuffix(tail);
      CleanPart(line, colon + 1 + n, |line|);
      assert line[colon + 1 + n..|line|] == tail[n..];
      SessionPart(SkipSpaces(tail));
    }
  }

  lemma {:induction false} AddFieldsSession(m: RtspMessage, text: Bytes)
    requires FieldOk(SESSION, m.sessionId)
    ensures FieldOk(SESSION, AddFields(m, text).sessionId)
    decreases |text|
  {
    hide FieldOk;
    if |text| > 2 {
      var next := Find(text, CRLF, 0);
      if next > 0 {
        CleanBefore(text, next);
        AddFieldSession(m, text[..next]);
        AddFieldsSession(AddField(m, text[..next]), text[next + 2..]);
      }
    }
  }

  /** A session id that was read can stand in a header of its own. */
  lemma ParsedSessionOk(s: Bytes)
    requires Parse(s).Parsed?
    ensures FieldOk(SESSION, Parse(s).msg.sessionId)
  {
    hide Find, AddFields, FieldOk;
    var header := s[..Find(s, HEADER_END, 0) + 4];
    var lineEnd := Find(header, CRLF, 0);
    var m := ParseStartLine(header[..lineEnd]).value;
    assert m.sessionId == [];
    NoSessionOk();
    AddFieldsSession(m, header[lineEnd + 2..]);
  }

  lemma NoSessionOk()
    ensures FieldOk(SESSION, [])
  {
    assert Clean(SESSION) && Lacks(SESSION, ':');
  }

  /** Printing and reading a message gives it back exactly when its parts respect the line syntax. */
  lemma RoundTripExactly(m: RtspMessage, order: seq<Bytes>, rest: Bytes)
    requires Representable(m) && Enumerates(order, m.headers)
    requires m.body != [] && CONTENT_LENGTH in m.headers ==> Clean(m.headers[CONTENT_LENGTH])
    ensures Parse(Serialize(m, order) + rest) == Parsed(Received(m), |Serialize(m, order)|) <==> WellFormed(m)
  {
    hide Serialize, Parse, Clean, Lacks, StartsWith, Find, Dec;
    if WellFormed(m) {
      RoundTrip(m, order, rest);
    } else if Parse(Serialize(m, order) + rest) == Parsed(Received(m), |Serialize(m, order)|) {
      ParsedIsWellFormed(Serialize(m, order) + rest);
      NamesDiffer();
      var hs := WireHeaders(m);
      forall k | k in m.headers && k != CSEQ && !Stale(m, k) ensures FieldOk(k, m.headers[k]) {
        assert k in hs && hs[k] == m.headers[k];
      }
      assert false;
    }
  }

  /** Relaying is loss-free: a message that was read, printed again and read again is the same,
      up to the printed form of its CSeq and Content-Length. */
  lemma ReprintRoundTrip(s: Bytes, order: seq<Bytes>, rest: Bytes)
    requires Parse(s).Parsed? && Parse(s).msg.cseq < TWO_31
    requires Enumerates(order, Parse(s).msg.headers)
    ensures var m := Parse(s).msg;
            Parse(Serialize(m, order) + rest) == Parsed(Received(m), |Serialize(m, order)|)
  {
    ParsedIsWellFormed(s);
    RoundTrip(Parse(s).msg, order, rest);
  }
}
