/** RTSP requests and responses: the message record, its wire form and the incremental parser
    (RFC 2326, sections 4, 6, 7, 12.14 and 12.17). */
module RtspProtocol {
  import opened Text
  import opened Buffers

  datatype Option<+T> = None | Some(value: T)

  datatype MessageKind = UnknownKind | Request | Response

  datatype Method =
    | NoMethod | Options | Describe | Setup | Play | Pause | Teardown | GetParameter | Announce | Record

  type Headers = map<Bytes, Bytes>

  datatype RtspMessage = RtspMessage(
    kind: MessageKind, verb: Method, url: Bytes, version: Bytes, status: int, reason: Bytes,
    headers: Headers, body: Bytes, cseq: nat, sessionId: Bytes, transport: Bytes, sdp: Bytes)

  const RTSP_1_0: Bytes := "RTSP/1.0"

  /** A default-constructed message. */
  const BLANK := RtspMessage(UnknownKind, NoMethod, [], RTSP_1_0, 0, [], map[], [], 0, [], [], [])

  // Header names the protocol code looks at by name.
  const CSEQ: Bytes := "CSeq"
  const SESSION: Bytes := "Session"
  const TRANSPORT: Bytes := "Transport"
  const CONTENT_LENGTH: Bytes := "Content-Length"
  const CONTENT_TYPE: Bytes := "Content-Type"
  const RTSP_PREFIX: Bytes := "RTSP/"
  const SDP: Bytes := "sdp"

  function ParseMethod(s: Bytes): Method {
    if s == "OPTIONS" then Options
    else if s == "DESCRIBE" then Describe
    else if s == "SETUP" then Setup
    else if s == "PLAY" then Play
    else if s == "PAUSE" then Pause
    else if s == "TEARDOWN" then Teardown
    else if s == "GET_PARAMETER" then GetParameter
    else if s == "ANNOUNCE" then Announce
    else if s == "RECORD" then Record
    else NoMethod
  }

  function MethodText(m: Method): Bytes {
    match m
    case Options => "OPTIONS"
    case Describe => "DESCRIBE"
    case Setup => "SETUP"
    case Play => "PLAY"
    case Pause => "PAUSE"
    case Teardown => "TEARDOWN"
    case GetParameter => "GET_PARAMETER"
    case Announce => "ANNOUNCE"
    case Record => "RECORD"
    case NoMethod => "UNKNOWN"
  }

  // ---------- parsing ----------

  /** `NeedMore` is the parser's `false`: the message is incomplete, or its first line is
      malformed. `Throws` is the exception a negative Content-Length raises while the body is copied. */
  datatype ParseResult = NeedMore | Parsed(msg: RtspMessage, consumed: nat) | Throws

  predicate StartsWith(s: Bytes, prefix: Bytes) {
    |prefix| <= |s| && s[..|prefix|] == prefix
  }

  function ParseStartLine(line: Bytes): Option<RtspMessage> {
    var sp1 := Find(line, " ", 0);
    if sp1 < 0 then None else
    var sp2 := Find(line, " ", sp1 + 1);
    if sp2 < 0 then None else
    if StartsWith(line, RTSP_PREFIX) then
      Some(BLANK.(kind := Response, version := line[..sp1],
                  status := Atoi(line[sp1 + 1..sp2]), reason := line[sp2 + 1..]))
    else
      Some(BLANK.(kind := Request, verb := ParseMethod(line[..sp1]),
                  url := line[sp1 + 1..sp2], version := line[sp2 + 1..]))
  }

  function SkipSpaces(s: Bytes): Bytes {
    if s != [] && s[0] == ' ' then SkipSpaces(s[1..]) else s
  }

  function UpToSemicolon(s: Bytes): Bytes {
    var semi := Find(s, ";", 0);
    if semi < 0 then s else s[..semi]
  }

  /** What one header adds to the message. A repeated header replaces the earlier one. */
  function SetHeader(m: RtspMessage, key: Bytes, value: Bytes): RtspMessage {
    m.(headers := m.headers[key := value],
       cseq := if key == CSEQ then Atoi(value) % TWO_32 else m.cseq,
       sessionId := if key == SESSION then UpToSemicolon(value) else m.sessionId,
       transport := if key == TRANSPORT then value else m.transport)
  }

  function AddField(m: RtspMessage, line: Bytes): RtspMessage {
    var colon := Find(line, ":", 0);
    if colon < 0 then m else SetHeader(m, line[..colon], SkipSpaces(line[colon + 1..]))
  }

  /** The header lines of `text`, which ends in the empty line. */
  function AddFields(m: RtspMessage, text: Bytes): RtspMessage
    decreases |text|
  {
    if |text| <= 2 then m else
    var next := Find(text, CRLF, 0);
    if next <= 0 then m else AddFields(AddField(m, text[..next]), text[next + 2..])
  }

  function ContentLength(headers: Headers): int {
    if CONTENT_LENGTH in headers then Atoll(headers[CONTENT_LENGTH]) else 0
  }

  function WithBody(m: RtspMessage, body: Bytes): RtspMessage {
    m.(body := body,
       sdp := if CONTENT_TYPE in m.headers && Find(m.headers[CONTENT_TYPE], SDP, 0) >= 0 then body else m.sdp)
  }

  /** The end of the parse, once the `headerLen` bytes of the head are read. A negative
      Content-Length becomes a `size_t` near 2^64: adding it to `headerLen` either stays beyond
      every buffer, or wraps around and then the copy of that many bytes throws. */
  function ParseBody(s: Bytes, headerLen: nat, m: RtspMessage): ParseResult {
    var n := ContentLength(m.headers);
    if n < 0 then (if headerLen + n >= 0 then Throws else NeedMore)
    else if headerLen + n > |s| then NeedMore
    else if n == 0 then Parsed(m, headerLen)
    else Parsed(WithBody(m, s[headerLen..headerLen + n]), headerLen + n)
  }

  function Parse(s: Bytes): ParseResult {
    var headerEnd := Find(s, HEADER_END, 0);
    if headerEnd < 0 then NeedMore else
    var header := s[..headerEnd + 4];
    var lineEnd := Find(header, CRLF, 0);
    if lineEnd < 0 then NeedMore else
    match ParseStartLine(header[..lineEnd])
    case None => NeedMore
    case Some(m) => ParseBody(s, |header|, AddFields(m, header[lineEnd + 2..]))
  }

  /** The parser as the drain loops call it. It reads the buffer and leaves it as it is. */
  method ParseBuffer(buf: ByteBuffer) returns (r: ParseResult)
    requires buf.Valid()
    ensures r == Parse(buf.Content())
  {
    hide Find, ParseStartLine, AddFields, ParseBody;
    var headerEnd := buf.FindPattern(HEADER_END);
    if headerEnd < 0 { return NeedMore; }
    var headerLen := headerEnd + 4;
    var header := buf.Peek(headerLen);
    var lineEnd := FindIn(header, CRLF, 0);
    if lineEnd < 0 { return NeedMore; }
    var start := ParseStartLine(header[..lineEnd]);
    if start.None? { return NeedMore; }
    var m := ParseFields(start.value, header, lineEnd + 2);
    r := TakeBody(buf, headerLen, m);
  }

  /** The header loop: one line per turn, `pos` moves behind it. */
  method ParseFields(start: RtspMessage, header: Bytes, from: nat) returns (m: RtspMessage)
    requires from <= |header|
    ensures m == AddFields(start, header[from..])
  {
    hide Find, AddField;
    m := start;
    var pos := from;
    while pos + 2 < |header|
      invariant 0 <= pos <= |header|
      invariant AddFields(m, header[pos..]) == AddFields(start, header[from..])
      decreases |header| - pos
    {
      var nextLine := FindIn(header, CRLF, pos);
      FindShift(header, CRLF, pos);
      if nextLine < 0 || nextLine == pos { break; }
      assert header[pos..nextLine] == header[pos..][..nextLine - pos];
      assert header[nextLine + 2..] == header[pos..][nextLine - pos + 2..];
      m := AddField(m, header[pos..nextLine]);
      pos := nextLine + 2;
    }
  }

  method TakeBody(buf: ByteBuffer, headerLen: nat, m: RtspMessage) returns (r: ParseResult)
    requires buf.Valid() && headerLen <= |buf.Content()|
    ensures r == ParseBody(buf.Content(), headerLen, m)
  {
    var contentLength := ContentLength(m.headers);
    var readable := buf.Readable();
    if contentLength < 0 { return if headerLen + contentLength >= 0 then Throws else NeedMore; }
    if headerLen + contentLength > readable { return NeedMore; }
    if contentLength == 0 { return Parsed(m, headerLen); }
    var all := buf.Peek(headerLen + contentLength);
    assert all[headerLen..] == buf.Content()[headerLen..headerLen + contentLength];
    r := Parsed(WithBody(m, all[headerLen..]), headerLen + contentLength);
  }

  /** `std::string::find`. */
  method FindIn(s: Bytes, pat: Bytes, from: nat) returns (r: int)
    ensures r == Find(s, pat, from)
  {
    r := from;
    while r + |pat| <= |s|
      invariant from <= r
      invariant forall k: nat :: from <= k < r ==> !At(s, pat, k)
    {
      if s[r..r + |pat|] == pat {
        FindIs(s, pat, from, r);
        return;
      }
      r := r + 1;
    }
    FindSpec(s, pat, from);
    r := -1;
  }

  // ---------- printing ----------

  /** Lines, each with its line break. */
  function Lines(ls: seq<Bytes>): Bytes {
    if ls == [] then [] else ls[0] + CRLF + Lines(ls[1..])
  }

  const COLON_SPACE: Bytes := ": "

  function FieldLine(key: Bytes, value: Bytes): Bytes {
    key + COLON_SPACE + value
  }

  function StartLine(m: RtspMessage): Bytes {
    if m.kind == Request then MethodText(m.verb) + " " + m.url + " " + m.version
    else m.version + " " + IntText(m.status) + " " + m.reason
  }

  /** The header fields in the order the hash map happens to yield them; CSeq has its own line. */
  function FieldLines(headers: Headers, order: seq<Bytes>): seq<Bytes> {
    if order == [] then []
    else if order[0] == CSEQ || order[0] !in headers then FieldLines(headers, order[1..])
    else [FieldLine(order[0], headers[order[0]])] + FieldLines(headers, order[1..])
  }

  /** `order` is one of the orders in which the entries of `headers` can be visited. */
  ghost predicate Enumerates(order: seq<Bytes>, headers: Headers) {
    && (forall k :: k in headers <==> k in order)
    && (forall i, j :: 0 <= i < j < |order| ==> order[i] != order[j])
  }

  /** The Content-Length line, written for a non-empty body only. */
  function LengthLine(m: RtspMessage): seq<Bytes> {
    if m.body == [] then [] else [FieldLine(CONTENT_LENGTH, Dec(|m.body|))]
  }

  function HeadLines(m: RtspMessage, order: seq<Bytes>): seq<Bytes> {
    [StartLine(m), FieldLine(CSEQ, Dec(m.cseq))] + FieldLines(m.headers, order) + LengthLine(m)
  }

  function Serialize(m: RtspMessage, order: seq<Bytes>): Bytes {
    Lines(HeadLines(m, order)) + CRLF + m.body
  }

  lemma {:induction false} LinesAppend(a: seq<Bytes>, b: seq<Bytes>)
    ensures Lines(a + b) == Lines(a) + Lines(b)
  {
    if a == [] {
      assert a + b == b;
    } else {
      LinesAppend(a[1..], b);
      assert (a + b)[1..] == a[1..] + b;
    }
  }

  lemma LinesOne(line: Bytes)
    ensures Lines([line]) == line + CRLF
  {
    assert Lines([line]) == line + CRLF + Lines([]);
  }

  /** The printer as the code runs it, appending piece by piece. */
  method SerializeText(m: RtspMessage, order: seq<Bytes>) returns (out: Bytes)
    requires Enumerates(order, m.headers)
    ensures out == Serialize(m, order)
  {
    if m.kind == Request {
      out := MethodText(m.verb) + " " + m.url + " " + m.version + CRLF;
    } else {
      out := m.version + " " + IntText(m.status) + " " + m.reason + CRLF;
    }
    out := out + (CSEQ + COLON_SPACE + Dec(m.cseq) + CRLF);
    ghost var head := [StartLine(m), FieldLine(CSEQ, Dec(m.cseq))];
    assert Lines(head) == StartLine(m) + CRLF + Lines(head[1..]);
    assert head[1..] == [FieldLine(CSEQ, Dec(m.cseq))];
    LinesOne(FieldLine(CSEQ, Dec(m.cseq)));
    assert out == Lines(head);
    var fields := WriteFields(m.headers, order);
    LinesAppend(head, FieldLines(m.headers, order));
    out := out + fields;
    assert out == Lines(head + FieldLines(m.headers, order));
    LinesAppend(head + FieldLines(m.headers, order), LengthLine(m));
    if m.body != [] {
      LinesOne(FieldLine(CONTENT_LENGTH, Dec(|m.body|)));
      out := out + (CONTENT_LENGTH + COLON_SPACE + Dec(|m.body|) + CRLF);
    }
    assert out == Lines(HeadLines(m, order));
    out := out + CRLF + m.body;
  }

  method WriteFields(headers: Headers, order: seq<Bytes>) returns (out: Bytes)
    requires forall k :: k in order ==> k in headers
    ensures out == Lines(FieldLines(headers, order))
  {
    out := [];
    var i := 0;
    while i < |order|
      invariant 0 <= i <= |order|
      invariant out + Lines(FieldLines(headers, order[i..])) == Lines(FieldLines(headers, order))
    {
      var key := order[i];
      assert order[i..][1..] == order[i + 1..];
      if key != CSEQ {
        out := out + (key + COLON_SPACE + headers[key] + CRLF);
      }
      i := i + 1;
    }
  }
}
