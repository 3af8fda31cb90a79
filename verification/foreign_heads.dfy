/** What the parser reads from heads it did not print itself: any number of spaces behind the colon,
    lines without a colon, repeated names, and the numbers other servers write. */
module ForeignHeads {
  import opened Text
  import opened RtspProtocol
  import opened CodecLaws

  /** A header line as anyone may write it. */
  datatype Line = Field(key: Bytes, pad: nat, value: Bytes) | NoField(text: Bytes)

  const COLON: Bytes := ":"
  const SPACE: Bytes := " "

  function Spaces(n: nat): Bytes { if n == 0 then [] else SPACE + Spaces(n - 1) }

  function LineText(l: Line): Bytes {
    match l
    case Field(key, pad, value) => key + COLON + Spaces(pad) + value
    case NoField(text) => text
  }

  predicate LineOk(l: Line) {
    match l
    case Field(key, _, value) => Clean(key) && Lacks(key, ':') && Clean(value) && (value == [] || value[0] != ' ')
    case NoField(text) => text != [] && Clean(text) && Lacks(text, ':')
  }

  predicate AllOk(ls: seq<Line>) { forall i :: 0 <= i < |ls| ==> LineOk(ls[i]) }

  function Texts(ls: seq<Line>): seq<Bytes> { seq(|ls|, i requires 0 <= i < |ls| => LineText(ls[i])) }

  /** The value of the last line with that name. */
  function Last(ls: seq<Line>, key: Bytes): Option<Bytes> {
    if ls == [] then None
    else
      var l := ls[|ls| - 1];
      if l.Field? && l.key == key then Some(l.value) else Last(ls[..|ls| - 1], key)
  }

  function LastOr(ls: seq<Line>, key: Bytes): Bytes {
    match Last(ls, key)
    case None => []
    case Some(v) => v
  }

  function LengthAsked(ls: seq<Line>): int {
    match Last(ls, CONTENT_LENGTH)
    case None => 0
    case Some(v) => Atoll(v)
  }

  /** `id` is `value` up to its first semicolon. */
  predicate UpToFirst(id: Bytes, value: Bytes) {
    id <= value && Lacks(id, ';') && (|id| < |value| ==> value[|id|] == ';')
  }

  ghost predicate Mentions(s: Bytes, pat: Bytes) { exists i: nat :: At(s, pat, i) }

  // ---------- one line ----------

  lemma {:induction false} SpacesSkipped(n: nat, value: Bytes)
    requires value == [] || value[0] != ' '
    ensures SkipSpaces(Spaces(n) + value) == value
  {
    if n == 0 {
      assert Spaces(0) + value == value;
    } else {
      SpacesSkipped(n - 1, value);
      assert (Spaces(n) + value)[1..] == Spaces(n - 1) + value;
    }
  }

  lemma {:induction false} SpacesClean(n: nat)
    ensures Clean(Spaces(n)) && Lacks(Spaces(n), LF)
  {
    if n > 0 {
      SpacesClean(n - 1);
      CleanConcat(SPACE, Spaces(n - 1));
    }
  }

  lemma LineTextOk(l: Line)
    requires LineOk(l)
    ensures Clean(LineText(l)) && LineText(l) != []
  {
    match l {
      case Field(key, pad, value) =>
        SpacesClean(pad);
        CleanConcat(key, COLON);
        CleanConcat(key + COLON, Spaces(pad));
        assert pad > 0 ==> Spaces(pad)[|Spaces(pad)| - 1] != CR by { SpacesEnd(pad); }
        CleanConcat(key + COLON + Spaces(pad), value);
      case NoField(text) =>
    }
  }

  lemma {:induction false} SpacesEnd(n: nat)
    ensures n > 0 ==> Spaces(n) != [] && Spaces(n)[|Spaces(n)| - 1] == ' '
  {
    if n > 1 { SpacesEnd(n - 1); }
  }

  lemma FieldRead(m: RtspMessage, key: Bytes, pad: nat, value: Bytes)
    requires LineOk(Field(key, pad, value))
    ensures AddField(m, LineText(Field(key, pad, value))) == SetHeader(m, key, value)
  {
    hide Find, Clean;
    var line := LineText(Field(key, pad, value));
    assert line[0..|key|] == key;
    FindChar(line, ':', 0, |key|);
    assert line[..|key|] == key && line[|key| + 1..] == Spaces(pad) + value;
    SpacesSkipped(pad, value);
  }

  lemma NoFieldRead(m: RtspMessage, text: Bytes)
    requires Lacks(text, ':')
    ensures AddField(m, text) == m
  {
    hide SetHeader;
    if Find(text, COLON, 0) >= 0 { LacksBefore(text, ':', 0, Find(text, COLON, 0)); }
  }

  // ---------- all lines ----------

  /** What the lines say about the message. */
  ghost predicate Says(m: RtspMessage, ls: seq<Line>) {
    && (forall k :: k in m.headers <==> Last(ls, k).Some?)
    && (forall k :: k in m.headers ==> Last(ls, k) == Some(m.headers[k]))
    && m.cseq == (match Last(ls, CSEQ) case None => 0 case Some(v) => Atoi(v) % TWO_32)
    && UpToFirst(m.sessionId, LastOr(ls, SESSION)) && m.transport == LastOr(ls, TRANSPORT)
  }

  lemma SemicolonFound(value: Bytes)
    ensures UpToFirst(UpToSemicolon(value), value)
  {
    var semi := Find(value, ";", 0);
    if semi >= 0 {
      LacksBefore(value, ';', 0, semi);
      assert value[0..semi] == value[..semi];
    } else {
      FindSpec(value, ";", 0);
      forall k | 0 <= k < |value| ensures value[k] != ';' { AtChar(value, ';', k); }
    }
  }

  lemma LastOfMore(ls: seq<Line>, l: Line, key: Bytes)
    ensures Last(ls + [l], key) == if l.Field? && l.key == key then Some(l.value) else Last(ls, key)
  {
    assert (ls + [l])[..|ls|] == ls;
  }

  lemma SetSays(m: RtspMessage, ls: seq<Line>, all: seq<Line>, key: Bytes, value: Bytes)
    requires Says(m, ls)
    requires forall k :: Last(all, k) == if k == key then Some(value) else Last(ls, k)
    ensures Says(SetHeader(m, key, value), all)
  {
    hide UpToSemicolon, Last, UpToFirst, Atoi;
    NamesDiffer();
    SemicolonFound(value);
  }

  lemma OneMoreLine(m: RtspMessage, ls: seq<Line>, l: Line)
    requires Says(m, ls) && LineOk(l)
    ensures Says(AddField(m, LineText(l)), ls + [l])
  {
    forall k ensures Last(ls + [l], k) == if l.Field? && l.key == k then Some(l.value) else Last(ls, k) {
      LastOfMore(ls, l, k);
    }
    hide AddField, Last;
    match l {
      case Field(key, pad, value) =>
        hide Says;
        FieldRead(m, key, pad, value);
        SetSays(m, ls, ls + [l], key, value);
      case NoField(text) =>
        NoFieldRead(m, text);
    }
  }

  lemma {:induction false} LinesSay(m: RtspMessage, ls: seq<Line>)
    requires AllOk(ls) && m.headers == map[] && m.cseq == 0 && m.sessionId == [] && m.transport == []
    ensures Says(FoldLines(m, Texts(ls)), ls)
    ensures AllLinesOk(Texts(ls))
    decreases ls
  {
    hide AddField, LineOk, LineText;
    if ls == [] {
    } else {
      var before, l := ls[..|ls| - 1], ls[|ls| - 1];
      LinesSay(m, before);
      LineTextOk(l);
      assert Texts(ls) == Texts(before) + [LineText(l)];
      FoldAppend(m, Texts(before), [LineText(l)]);
      FoldOne(FoldLines(m, Texts(before)), LineText(l));
      OneMoreLine(FoldLines(m, Texts(before)), before, l);
      assert before + [l] == ls;
    }
  }

  lemma FoldOne(m: RtspMessage, text: Bytes)
    ensures FoldLines(m, [text]) == AddField(m, text)
  {
    hide AddField;
    assert [text][1..] == [];
  }

  lemma {:induction false} OthersStay(m: RtspMessage, texts: seq<Bytes>)
    ensures var n := FoldLines(m, texts);
            && n.kind == m.kind && n.verb == m.verb && n.url == m.url && n.version == m.version
            && n.status == m.status && n.reason == m.reason && n.body == m.body && n.sdp == m.sdp
    decreases texts
  {
    hide Find, UpToSemicolon, SkipSpaces;
    if texts != [] { OthersStay(AddField(m, texts[0]), texts[1..]); }
  }

  // ---------- the start line ----------

  function StartText(a: Bytes, b: Bytes, c: Bytes): Bytes { a + SPACE + b + SPACE + c }

  /** Two words without spaces, and the rest of the line. */
  predicate StartWords(a: Bytes, b: Bytes, c: Bytes) {
    Lacks(a, ' ') && Lacks(b, ' ') && Clean(a) && Clean(b) && Clean(c)
  }

  /** A first word that begins with the protocol's name makes a status line, any other one a request. */
  predicate StartSays(m: RtspMessage, a: Bytes, b: Bytes, c: Bytes) {
    if RTSP_PREFIX <= a then m.kind == Response && m.version == a && m.status == Atoi(b) && m.reason == c
    else m.kind == MessageKind.Request && m.verb == ParseMethod(a) && m.url == b && m.version == c
  }

  lemma StartRead(a: Bytes, b: Bytes, c: Bytes)
    requires StartWords(a, b, c)
    ensures var r := ParseStartLine(StartText(a, b, c));
            && r.Some? && StartSays(r.value, a, b, c)
            && r.value.headers == map[] && r.value.cseq == 0 && r.value.sessionId == [] && r.value.transport == []
            && r.value.body == [] && r.value.sdp == []
    ensures Clean(StartText(a, b, c)) && StartText(a, b, c) != []
  {
    hide Find, Clean, ParseMethod, Atoi;
    var line := StartText(a, b, c);
    SpacedClean(a, b, c);
    TwoSpaces(line, a, b, c);
    ThreeWords(line, a, b, c);
    assert StartsWith(line, RTSP_PREFIX) <==> RTSP_PREFIX <= a by { PrefixInWord(line, a); }
  }

  lemma PrefixInWord(line: Bytes, a: Bytes)
    requires a + SPACE <= line && Lacks(a, ' ')
    ensures StartsWith(line, RTSP_PREFIX) <==> RTSP_PREFIX <= a
  {
    assert line[|a|] == ' ';
    if StartsWith(line, RTSP_PREFIX) {
      forall k | 0 <= k < 5 ensures line[k] == RTSP_PREFIX[k] && line[k] != ' ' { assert line[k] == line[..5][k]; }
      assert |a| >= 5;
      assert a[..5] == line[..5];
    }
    if RTSP_PREFIX <= a { assert line[..5] == a[..5]; }
  }

  /** A first line with fewer than two spaces is malformed, and only such a line is. */
  lemma MalformedExactly(line: Bytes)
    ensures ParseStartLine(line).None? <==> !exists i, j :: 0 <= i < j < |line| && line[i] == ' ' && line[j] == ' '
  {
    var sp1 := Find(line, SPACE, 0);
    FindSpec(line, SPACE, 0);
    forall k: nat | k < |line| && (sp1 < 0 || k < sp1) ensures line[k] != ' ' { AtChar(line, ' ', k); }
    if sp1 >= 0 {
      AtChar(line, ' ', sp1);
      FindSpec(line, SPACE, sp1 + 1);
      var sp2 := Find(line, SPACE, sp1 + 1);
      forall k: nat | sp1 < k < |line| && (sp2 < 0 || k < sp2) ensures line[k] != ' ' { AtChar(line, ' ', k); }
      if sp2 >= 0 { AtChar(line, ' ', sp2); }
    }
  }

  // ---------- the whole message ----------

  function HeadText(a: Bytes, b: Bytes, c: Bytes, ls: seq<Line>): Bytes {
    Lines([StartText(a, b, c)] + Texts(ls)) + CRLF
  }

  /** Whoever wrote it: a start line, header lines and the empty line, then a body as long as the last
      Content-Length says. The parser takes exactly that much and reads what it says: of each name the
      last line, CSeq and length as numbers, the session id without its parameters. */
  lemma ForeignParsed(a: Bytes, b: Bytes, c: Bytes, ls: seq<Line>, body: Bytes, rest: Bytes)
    requires StartWords(a, b, c) && AllOk(ls) && LengthAsked(ls) == |body|
    ensures var head := HeadText(a, b, c, ls);
            var r := Parse(head + body + rest);
            && r.Parsed? && r.consumed == |head| + |body|
            && StartSays(r.msg, a, b, c) && Says(r.msg, ls) && r.msg.body == body
            && r.msg.sdp == if body != [] && Mentions(LastOr(ls, CONTENT_TYPE), SDP) then body else []
  {
    hide StartSays, ParseStartLine, AddFields, Says, ParseBody;
    var m := ForeignHead(a, b, c, ls, body + rest);
    var head := HeadText(a, b, c, ls);
    assert head + body + rest == head + (body + rest);
    ForeignBody(m, ls, head, body, rest);
    SameSays(m, WithBody(m, body), a, b, c, ls);
  }

  /** With fewer bytes behind the head the parser waits. */
  lemma ForeignWaits(a: Bytes, b: Bytes, c: Bytes, ls: seq<Line>, behind: Bytes)
    requires StartWords(a, b, c) && AllOk(ls) && |behind| < LengthAsked(ls)
    ensures Parse(HeadText(a, b, c, ls) + behind).NeedMore?
  {
    hide StartSays, ParseStartLine, AddFields;
    var m := ForeignHead(a, b, c, ls, behind);
  }

  /** The head is found, and read as it says. */
  lemma ForeignHead(a: Bytes, b: Bytes, c: Bytes, ls: seq<Line>, behind: Bytes) returns (m: RtspMessage)
    requires StartWords(a, b, c) && AllOk(ls)
    ensures Says(m, ls) && StartSays(m, a, b, c) && m.body == [] && m.sdp == []
    ensures ContentLength(m.headers) == LengthAsked(ls)
    ensures var head := HeadText(a, b, c, ls); Parse(head + behind) == ParseBody(head + behind, |head|, m)
  {
    hide Find, ParseStartLine, AddFields, ParseBody, LineText, Clean, Atoi, Lacks, UpToFirst, ParseMethod;
    var start, tail := StartText(a, b, c), Lines(Texts(ls)) + CRLF;
    var lines, head := [start] + Texts(ls), HeadText(a, b, c, ls);
    StartRead(a, b, c);
    var m0 := ParseStartLine(start).value;
    LinesSay(m0, ls);
    OthersStay(m0, Texts(ls));
    m := FoldLines(m0, Texts(ls));
    HeadEndFound(lines, behind);
    assert lines[1..] == Texts(ls);
    assert head == start + CRLF + tail;
    FindLineEnd(start, tail);
    FieldsOfLines(m0, Texts(ls));
    assert (head + behind)[..|head|] == head;
    assert head[..|start|] == start && head[|start| + 2..] == tail;
  }

  lemma ForeignBody(m: RtspMessage, ls: seq<Line>, head: Bytes, body: Bytes, rest: Bytes)
    requires Says(m, ls) && m.body == [] && m.sdp == [] && ContentLength(m.headers) == |body|
    ensures ParseBody(head + (body + rest), |head|, m)
         == Parsed(if body == [] then m else WithBody(m, body), |head| + |body|)
    ensures body != [] ==>
      WithBody(m, body).sdp == if Mentions(LastOr(ls, CONTENT_TYPE), SDP) then body else []
  {
    hide Atoi, UpToFirst, Find;
    var s := head + (body + rest);
    assert s[|head|..|head| + |body|] == body;
    var ct := LastOr(ls, CONTENT_TYPE);
    FindSpec(ct, SDP, 0);
    if Mentions(ct, SDP) {
      var i: nat :| At(ct, SDP, i);
      assert Find(ct, SDP, 0) >= 0;
    }
    if CONTENT_TYPE !in m.headers { assert Last(ls, CONTENT_TYPE).None?; }
  }

  lemma SameSays(m: RtspMessage, n: RtspMessage, a: Bytes, b: Bytes, c: Bytes, ls: seq<Line>)
    requires Says(m, ls) && StartSays(m, a, b, c) && n == m.(body := n.body, sdp := n.sdp)
    ensures Says(n, ls) && StartSays(n, a, b, c)
  {
    hide UpToFirst, Atoi, Last;
  }

  // ---------- methods and numbers ----------

  /** Only a method's own name reads as it, letter by letter. */
  lemma MethodExactly(s: Bytes)
    ensures ParseMethod(s) != NoMethod ==> s == MethodText(ParseMethod(s))
    ensures s in {"OPTIONS", "DESCRIBE", "SETUP", "PLAY", "PAUSE", "TEARDOWN", "GET_PARAMETER", "ANNOUNCE", "RECORD"}
       <==> ParseMethod(s) != NoMethod
  {
  }

  predicate AllSpace(s: Bytes) { forall i :: 0 <= i < |s| ==> IsSpace(s[i]) }

  lemma {:induction false} WhiteSkipped(white: Bytes, s: Bytes)
    requires AllSpace(white)
    ensures Number(white + s) == Number(s)
    decreases white
  {
    if white == [] {
      assert white + s == s;
    } else {
      assert IsSpace(white[0]);
      WhiteSkipped(white[1..], s);
      assert (white + s)[1..] == white[1..] + s;
    }
  }

  /** White space, a sign or none, digits: the number; what follows the digits is not looked at. */
  lemma NumberRead(white: Bytes, n: nat, rest: Bytes)
    requires AllSpace(white) && (rest == [] || !IsDigit(rest[0]))
    ensures Number(white + Dec(n) + rest) == n
    ensures Number(white + "+" + Dec(n) + rest) == n
    ensures Number(white + "-" + Dec(n) + rest) == 0 - n
  {
    hide Dec, LeadingDigits, Number;
    var a := Dec(n) + rest;
    assert white + Dec(n) + rest == white + a;
    assert white + "+" + Dec(n) + rest == white + ("+" + a);
    assert white + "-" + Dec(n) + rest == white + (['-'] + a);
    WhiteSkipped(white, a);
    WhiteSkipped(white, "+" + a);
    WhiteSkipped(white, ['-'] + a);
    DecNumber(n, rest);
    assert a[0] == Dec(n)[0];
    NumberUnsigned(a);
    NumberPlus(a);
  }

  lemma NumberPlus(s: Bytes)
    ensures Number("+" + s) == LeadingDigits(s, 0)
  {
    assert ("+" + s)[1..] == s;
  }

  /** Text that begins with neither is zero. */
  lemma NotANumber(s: Bytes)
    requires s == [] || !(IsSpace(s[0]) || IsDigit(s[0]) || s[0] == '+' || s[0] == '-')
    ensures Number(s) == 0
  {
  }

  /** `atoll` keeps to its range by stopping at the ends; `atoi` is the one `int` that agrees with it
      in the low 32 bits. */
  lemma RangesKept(s: Bytes)
    ensures Atoll(s) ==
      if Number(s) >= TWO_63 then TWO_63 - 1 else if Number(s) < -TWO_63 then -TWO_63 else Number(s)
    ensures -TWO_31 <= Atoi(s) < TWO_31 && (Atoll(s) - Atoi(s)) % TWO_32 == 0
  {
  }

  /** For instance: no space behind the colon. */
  lemma CompactHeader(rest: Bytes)
    ensures var r := Parse("OPTIONS rtsp://h/a RTSP/1.0" + CRLF + "CSeq:7" + CRLF + CRLF + rest);
            r.Parsed? && r.msg.verb == Options && r.msg.cseq == 7
  {
    hide Parse, Number, Dec, Last, StartSays, UpToFirst;
    var ls := [Field(CSEQ, 0, "7")];
    var a: Bytes, b: Bytes, c: Bytes := "OPTIONS", "rtsp://h/a", RTSP_1_0;
    CompactText(a, b, c, ls, rest);
    assert Last(ls, CONTENT_LENGTH).None? && Last(ls, CSEQ) == Some("7") by { CompactLast(ls); }
    ForeignParsed(a, b, c, ls, [], rest);
    assert Atoi("7") % TWO_32 == 7 by { Seven(); }
    NotAStatus(Parse(HeadText(a, b, c, ls) + [] + rest).msg, a, b, c);
  }

  lemma CompactLast(ls: seq<Line>)
    requires ls == [Field(CSEQ, 0, "7")]
    ensures Last(ls, CONTENT_LENGTH).None? && Last(ls, CSEQ) == Some("7")
  {
    NamesDiffer();
    assert ls[..0] == [];
  }

  lemma Seven()
    ensures Atoi("7") == 7
  {
    NumberRead([], 7, []);
    assert Dec(7) == "7" && [] + Dec(7) + [] == "7";
  }

  lemma NotAStatus(m: RtspMessage, a: Bytes, b: Bytes, c: Bytes)
    requires StartSays(m, a, b, c) && a == "OPTIONS"
    ensures m.verb == Options
  {
    assert a[0] != RTSP_PREFIX[0];
  }

  lemma CompactText(a: Bytes, b: Bytes, c: Bytes, ls: seq<Line>, rest: Bytes)
    requires a == "OPTIONS" && b == "rtsp://h/a" && c == RTSP_1_0 && ls == [Field(CSEQ, 0, "7")]
    ensures HeadText(a, b, c, ls) + [] + rest == "OPTIONS rtsp://h/a RTSP/1.0" + CRLF + "CSeq:7" + CRLF + CRLF + rest
    ensures StartWords(a, b, c) && AllOk(ls)
  {
    var line: Bytes := "CSeq:7";
    assert LineText(ls[0]) == CSEQ + COLON + [] + "7" == line;
    assert Texts(ls) == [line];
    LinesAppend([StartText(a, b, c)], Texts(ls));
    LinesOne(StartText(a, b, c));
    LinesOne(line);
    assert StartText(a, b, c) == "OPTIONS rtsp://h/a RTSP/1.0";
    assert Clean(CSEQ) && Lacks(CSEQ, ':');
  }
}
