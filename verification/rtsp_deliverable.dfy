/** Every request and response the relay makes itself is one the wire form can carry. */
module Deliverable {
  import opened Text
  import opened RtspProtocol
  import opened RtspBuilders
  import opened CodecLaws
  import opened ParserLaws
  import opened Framing
  import Source
  import Session

  predicate IsHex(c: Byte) { '0' <= c <= '9' || 'a' <= c <= 'f' }

  /** A generated session id: eight hexadecimal digits. */
  predicate GoodId(id: Bytes) { |id| == 8 && forall i :: 0 <= i < 8 ==> IsHex(id[i]) }

  /** A URL that can stand in a request line. */
  predicate GoodUrl(url: Bytes) { Clean(url) && Lacks(url, ' ') }

  predicate Good(m: RtspMessage) { WellFormed(m) && Representable(m) }

  // ---------- headers ----------

  ghost predicate HeadersOk(hs: Headers) { forall k :: k in hs && k != CSEQ ==> FieldOk(k, hs[k]) }

  lemma HeadersJoin(a: Headers, b: Headers)
    requires HeadersOk(a) && HeadersOk(b)
    ensures HeadersOk(a + b)
  {
    hide FieldOk;
  }

  lemma OneHeader(key: Bytes, value: Bytes)
    requires FieldOk(key, value)
    ensures HeadersOk(map[key := value])
  {
    hide FieldOk;
  }

  lemma KeysOk()
    ensures forall k :: k in {SESSION, TRANSPORT, USER_AGENT, ACCEPT, RANGE, PUBLIC, CONTENT_TYPE, CONTENT_BASE, Session.RTP_INFO}
              ==> Clean(k) && Lacks(k, ':')
  {
    assert Clean(SESSION) && Lacks(SESSION, ':');
    assert Clean(TRANSPORT) && Lacks(TRANSPORT, ':');
    assert Clean(USER_AGENT) && Lacks(USER_AGENT, ':');
    assert Clean(ACCEPT) && Lacks(ACCEPT, ':');
    assert Clean(RANGE) && Lacks(RANGE, ':');
    assert Clean(PUBLIC) && Lacks(PUBLIC, ':');
    assert Clean(CONTENT_TYPE) && Lacks(CONTENT_TYPE, ':');
    assert Clean(CONTENT_BASE) && Lacks(CONTENT_BASE, ':');
    assert Clean(Session.RTP_INFO) && Lacks(Session.RTP_INFO, ':');
  }

  /** Text without line feeds has no line break. */
  lemma NoLfClean(s: Bytes)
    requires Lacks(s, LF)
    ensures Clean(s)
  {
  }

  lemma ConstantFields()
    ensures FieldOk(USER_AGENT, AGENT) && FieldOk(ACCEPT, APPLICATION_SDP) && FieldOk(CONTENT_TYPE, APPLICATION_SDP)
    ensures FieldOk(RANGE, FROM_START) && FieldOk(PUBLIC, PUBLIC_METHODS)
  {
    KeysOk();
    PublicOk();
  }

  lemma PublicOk()
    ensures Clean(PUBLIC_METHODS) && PUBLIC_METHODS[0] != ' '
  {
    var a: Bytes := "OPTIONS, DESCRIBE, SETUP, ";
    var b: Bytes := "PLAY, TEARDOWN, GET_PARAMETER";
    assert Lacks(a, LF) && Lacks(b, LF);
    NoLfClean(a);
    NoLfClean(b);
    CleanConcat(a, b);
    assert PUBLIC_METHODS[0] == a[0];
  }

  lemma IdOk(id: Bytes)
    requires GoodId(id)
    ensures FieldOk(SESSION, id) && FieldOk(SESSION, id + TIMEOUT_60)
    ensures UpToSemicolon(id) == id && UpToSemicolon(id + TIMEOUT_60) == id
  {
    KeysOk();
    assert Lacks(id, LF) && Lacks(id, ';');
    NoLfClean(id);
    CleanConcat(id, TIMEOUT_60);
    assert (id + TIMEOUT_60)[0] == id[0];
    assert (id + TIMEOUT_60)[0..|id|] == id && (id + TIMEOUT_60)[..|id|] == id;
    FindChar(id + TIMEOUT_60, ';', 0, |id|);
    if Find(id, ";", 0) >= 0 { LacksBefore(id, ';', 0, Find(id, ";", 0)); }
  }

  lemma TransportOk(prefix: Bytes, a: int, b: int)
    requires Clean(prefix) && prefix != [] && prefix[0] != ' '
    ensures FieldOk(TRANSPORT, prefix + IntText(a) + "-" + IntText(b))
  {
    KeysOk();
    DigitsAreClean(a);
    DigitsAreClean(b);
    assert IntText(a)[0] != LF && IntText(b)[0] != LF;
    CleanConcat(prefix, IntText(a));
    CleanConcat(prefix + IntText(a), "-");
    CleanConcat(prefix + IntText(a) + "-", IntText(b));
    assert (prefix + IntText(a) + "-" + IntText(b))[0] == prefix[0];
  }

  lemma PrefixesOk()
    ensures Clean(TCP_INTERLEAVED) && Clean(UDP_CLIENT) && Clean(UDP_SERVER)
    ensures TCP_INTERLEAVED[0] == UDP_CLIENT[0] == UDP_SERVER[0] == 'R'
  {
    assert Lacks(TCP_INTERLEAVED, LF) && Lacks(UDP_CLIENT, LF) && Lacks(UDP_SERVER, LF);
  }

  lemma InterleavedOk(a: Octet, b: Octet)
    ensures FieldOk(TRANSPORT, InterleavedText(a, b))
  {
    PrefixesOk();
    TransportOk(TCP_INTERLEAVED, a, b);
  }

  lemma UrlFields(url: Bytes)
    requires GoodUrl(url)
    ensures FieldOk(CONTENT_BASE, url + Session.SLASH) && FieldOk(Session.RTP_INFO, Session.RtpInfo(url))
  {
    KeysOk();
    CleanConcat(url, Session.SLASH);
    assert (url + Session.SLASH)[0] != ' ';
    CleanConcat("url=", url);
    CleanConcat("url=" + url, ";seq=0;rtptime=0");
    assert Session.RtpInfo(url)[0] == 'u';
  }

  // ---------- requests ----------

  lemma RequestGood(verb: Method, url: Bytes, cseq: nat, hs: Headers)
    requires GoodUrl(url) && cseq < TWO_31 && HeadersOk(hs)
    requires CONTENT_LENGTH !in hs
    ensures Good(RtspBuilders.Request(verb, url, cseq, hs))
  {
    hide FieldOk;
    ConstantFields();
    OneHeader(USER_AGENT, AGENT);
    HeadersJoin(hs, map[USER_AGENT := AGENT]);
    assert Clean(RTSP_1_0);
    assert |USER_AGENT| == 10 && |CONTENT_LENGTH| == 14;
  }

  /** Whatever session id the upstream gave, and before it gave one. */
  lemma SourceRequestsGood(url: Bytes, cseq: nat, id: Bytes)
    requires GoodUrl(url) && FieldOk(SESSION, id) && cseq < TWO_31
    ensures Good(OptionsRequest(url, cseq)) && Good(DescribeRequest(url, cseq))
    ensures Good(PlayRequest(url, cseq, id)) && Good(TeardownRequest(url, cseq, id))
  {
    hide FieldOk, Good, GoodUrl;
    ConstantFields();
    Sizes();
    RequestGood(Options, url, cseq, map[]);
    RequestGood(Describe, url, cseq, map[ACCEPT := APPLICATION_SDP]);
    RequestGood(Play, url, cseq, map[SESSION := id, RANGE := FROM_START]);
    RequestGood(Teardown, url, cseq, map[SESSION := id]);
  }

  lemma SourceSetupGood(url: Bytes, cseq: nat, id: Bytes)
    requires GoodUrl(url) && FieldOk(SESSION, id) && cseq < TWO_31
    ensures Good(Source.SourceSetup(url, cseq, id))
    ensures Source.SourceSetup(url, cseq, id).headers[TRANSPORT] == InterleavedText(0, 1)
  {
    hide FieldOk, Good, GoodUrl, InterleavedText, IntText;
    Sizes();
    InterleavedOk(0, 1);
    var hs := SessionHeader(id) + map[TRANSPORT := InterleavedText(0, 1)];
    RequestGood(Setup, url, cseq, hs);
    var m := Source.SourceSetup(url, cseq, id);
    assert m.headers == hs + map[USER_AGENT := AGENT];
    assert m == RtspBuilders.Request(Setup, url, cseq, hs);
  }

  // ---------- every request of every run ----------

  /** A message that came out of the parser. */
  ghost predicate FromParser(ev: Event) {
    ev.Message? ==> exists s :: Parse(s).Parsed? && Parse(s).msg == ev.msg
  }

  ghost predicate AllFromParser(steps: seq<Source.Step>) {
    forall i :: 0 <= i < |steps| && steps[i].Received? ==> FromParser(steps[i].ev)
  }

  ghost predicate SentGood(s: Source.SourceState) {
    && GoodUrl(s.shake.url) && FieldOk(SESSION, s.shake.sessionId)
    && s.shake.cseq <= 5 && (s.life.hasConn ==> s.shake.cseq <= 4)
    && forall i :: 0 <= i < |s.shake.sent| ==> Good(s.shake.sent[i])
  }

  lemma NextSentGood(h: Source.Shake)
    requires GoodUrl(h.url) && FieldOk(SESSION, h.sessionId) && h.cseq <= 4
    ensures Good(OptionsRequest(h.url, 1)) && Good(DescribeRequest(h.url, h.cseq + 1))
    ensures Good(Source.SourceSetup(h.url, h.cseq + 1, h.sessionId))
    ensures Good(PlayRequest(h.url, h.cseq + 1, h.sessionId)) && Good(TeardownRequest(h.url, h.cseq + 1, h.sessionId))
  {
    hide Good, GoodUrl, FieldOk, Source.SourceSetup;
    SourceRequestsGood(h.url, 1, h.sessionId);
    SourceRequestsGood(h.url, h.cseq + 1, h.sessionId);
    SourceSetupGood(h.url, h.cseq + 1, h.sessionId);
  }

  lemma AdvanceSendsGood(h: Source.Shake, resp: RtspMessage)
    requires GoodUrl(h.url) && FieldOk(SESSION, h.sessionId) && Source.ShakeInv(h)
    requires forall i :: 0 <= i < |h.sent| ==> Good(h.sent[i])
    ensures var g := Source.Advance(h, resp);
            && g.url == h.url && g.sessionId == h.sessionId
            && (forall i :: 0 <= i < |g.sent| ==> Good(g.sent[i]))
            && (g == h || (Source.Negotiating(h) && g.cseq <= 4))
  {
    hide Good, GoodUrl, FieldOk, OptionsRequest, DescribeRequest, Source.SourceSetup, PlayRequest, TeardownRequest, Channels,
         Source.IsRequest;
    if h.phase in {Source.AwaitOptions, Source.AwaitDescribe, Source.AwaitSetup} { NextSentGood(h); }
  }

  lemma StepSendsGood(s: Source.SourceState, step: Source.Step)
    requires SentGood(s) && Source.Inv(s) && Source.Enabled(s, step)
    requires step.Received? ==> FromParser(step.ev)
    ensures SentGood(Source.Next(s, step))
  {
    hide Good, GoodUrl, FieldOk, OptionsRequest, DescribeRequest, Source.SourceSetup, PlayRequest, TeardownRequest,
         Source.Advance, Source.IsRequest, Parse;
    match step {
      case Received(Message(m)) =>
        var text :| Parse(text).Parsed? && Parse(text).msg == m;
        ParsedSessionOk(text);
        AdvanceSendsGood(Source.TakeSession(s.shake, m.sessionId), m);
      case StopStep(_) => if s.life.hasConn { NextSentGood(s.shake); }
      case Connected => NextSentGood(s.shake.(cseq := 0));
      case _ =>
    }
  }

  /** In every run fed by the parser, whatever ids, replies, closes and retries come: each request the
      source ever sent is one the wire form can carry. */
  lemma {:induction false} RunSendsGood(s: Source.SourceState, steps: seq<Source.Step>)
    requires SentGood(s) && Source.Inv(s) && Source.Possible(s, steps) && AllFromParser(steps)
    ensures SentGood(Source.Run(s, steps))
    decreases steps
  {
    hide SentGood, Source.Inv, Source.Next, Source.Enabled, FromParser;
    if steps != [] {
      Source.StepKeepsInv(s, steps[0]);
      StepSendsGood(s, steps[0]);
      RunSendsGood(Source.Next(s, steps[0]), steps[1..]);
    }
  }

  lemma EveryRequestGood(url: Bytes, callback: bool, steps: seq<Source.Step>, i: nat)
    requires GoodUrl(url) && Source.Possible(Source.Initial(url, callback), steps) && AllFromParser(steps)
    ensures var sent := Source.Run(Source.Initial(url, callback), steps).shake.sent; i < |sent| ==> Good(sent[i])
  {
    hide Good, GoodUrl, FieldOk, AllFromParser;
    NoSessionOk();
    RunSendsGood(Source.Initial(url, callback), steps);
  }

  lemma Sizes()
    ensures |SESSION| == 7 && |TRANSPORT| == 9 && |USER_AGENT| == 10 && |ACCEPT| == 6 && |RANGE| == 5
    ensures |PUBLIC| == 6 && |CONTENT_TYPE| == 12 && |CONTENT_BASE| == 12 && |Session.RTP_INFO| == 8
    ensures |CONTENT_LENGTH| == 14 && |CSEQ| == 4 && CONTENT_TYPE[8] == 'T' && CONTENT_BASE[8] == 'B'
  {
  }

  // ---------- responses ----------

  lemma OkGood(cseq: nat, hs: Headers)
    requires cseq < TWO_31 && HeadersOk(hs) && CONTENT_LENGTH !in hs
    ensures Good(Ok(cseq, hs))
  {
    hide FieldOk;
    VersionOk();
  }

  lemma VersionOk()
    ensures StartsWith(RTSP_1_0, RTSP_PREFIX) && Lacks(RTSP_1_0, ' ') && Clean(RTSP_1_0)
  {
    assert RTSP_1_0[..5] == RTSP_PREFIX;
  }

  lemma ErrorGood(cseq: nat, status: int, reason: Bytes)
    requires cseq < TWO_31 && -TWO_31 <= status < TWO_31 && Clean(reason)
    ensures Good(ErrorResponse(cseq, status, reason))
  {
    VersionOk();
  }

  lemma HeaderGood(m: RtspMessage, key: Bytes, value: Bytes)
    requires Good(m) && FieldOk(key, value) && key != CONTENT_LENGTH
    ensures Good(WithHeader(m, key, value))
  {
    hide FieldOk;
  }

  lemma BodyGood(m: RtspMessage, body: Bytes)
    requires Good(m) && 0 < |body| < TWO_63
    ensures Good(m.(body := body, sdp := body))
  {
    hide FieldOk;
  }

  lemma SessionHeaderOk(id: Bytes)
    requires GoodId(id)
    ensures HeadersOk(SessionHeader(id)) && CONTENT_LENGTH !in SessionHeader(id)
  {
    hide FieldOk;
    IdOk(id);
    Sizes();
  }

  lemma SetupResponseGood(cseq: nat, id: Bytes, a: int, b: int)
    requires GoodId(id) && cseq < TWO_31
    ensures Good(SetupResponse(cseq, id, a, b))
  {
    hide FieldOk, Good, GoodId, IntText;
    IdOk(id);
    Sizes();
    PrefixesOk();
    TransportOk(UDP_SERVER, a, b);
    OkGood(cseq, map[SESSION := id + TIMEOUT_60, TRANSPORT := UDP_SERVER + IntText(a) + "-" + IntText(b)]);
  }

  lemma DescribeGood(cseq: nat, sdp: Bytes, id: Bytes, url: Bytes)
    requires GoodId(id) && GoodUrl(url) && cseq < TWO_31 && 0 < |sdp| < TWO_63
    ensures Good(WithHeader(DescribeResponse(cseq, sdp, id), CONTENT_BASE, url + Session.SLASH))
  {
    hide FieldOk, Good, GoodId, GoodUrl;
    SessionHeaderOk(id);
    Sizes();
    ConstantFields();
    EmptyBase();
    var hs := map[CONTENT_TYPE := APPLICATION_SDP, CONTENT_BASE := []];
    HeadersJoin(SessionHeader(id), hs);
    OkGood(cseq, SessionHeader(id) + hs);
    BodyGood(Ok(cseq, SessionHeader(id) + hs), sdp);
    UrlFields(url);
    HeaderGood(DescribeResponse(cseq, sdp, id), CONTENT_BASE, url + Session.SLASH);
  }

  lemma EmptyBase()
    ensures FieldOk(CONTENT_BASE, [])
  {
    KeysOk();
  }

  lemma ReasonsOk()
    ensures Clean("Stream Not Found") && Clean("Bad Transport") && Clean("Not Implemented")
    ensures Clean("UDP socket creation failed") && Clean("Unsupported Transport") && Clean("Transport header required")
  {
    var a: Bytes := "Stream Not Found";
    var b: Bytes := "Bad Transport";
    var c: Bytes := "Not Implemented";
    var d: Bytes := "UDP socket creation failed";
    var e: Bytes := "Unsupported Transport";
    var f: Bytes := "Transport header required";
    assert Lacks(a, LF) && Lacks(b, LF) && Lacks(c, LF);
    assert Lacks(d, LF) && Lacks(e, LF) && Lacks(f, LF);
  }

  /** Whatever a well-formed request asks, the response can be sent and read back. */
  lemma ReplyGood(t: Session.Terms, req: RtspMessage, env: Session.Env)
    requires GoodId(t.sessionId) && req.kind == MessageKind.Request && GoodUrl(req.url) && req.cseq < TWO_31
    requires forall p :: p in env.sdps ==> |env.sdps[p]| < TWO_63
    ensures Good(Session.Reply(t, req, env).response)
  {
    hide FieldOk, Good, GoodId, GoodUrl, Channels, InterleavedText, IntText, Find, Session.ExtractPath,
         Session.ClientPort, Clean;
    ReasonsOk();
    match req.verb {
      case Options => OptionsGood(req.cseq, t.sessionId);
      case Describe =>
        var sdp := Session.SdpOf(env, Session.ExtractPath(req.url));
        if sdp != [] { DescribeGood(req.cseq, sdp, t.sessionId, req.url); }
        else { ErrorGood(req.cseq, 404, "Stream Not Found"); }
      case Setup => SetupGood(t, req, env);
      case Play => PlayGood(req.cseq, t.sessionId, req.url);
      case Teardown =>
        SessionHeaderOk(t.sessionId);
        OkGood(req.cseq, SessionHeader(t.sessionId));
      case GetParameter =>
        SessionHeaderOk(t.sessionId);
        OkGood(req.cseq, SessionHeader(t.sessionId));
      case _ => ErrorGood(req.cseq, 461, "Not Implemented");
    }
  }

  lemma OptionsGood(cseq: nat, id: Bytes)
    requires GoodId(id) && cseq < TWO_31
    ensures Good(WithHeader(OptionsResponse(cseq), SESSION, id))
  {
    hide FieldOk, Good, GoodId;
    ConstantFields();
    IdOk(id);
    Sizes();
    OneHeader(PUBLIC, PUBLIC_METHODS);
    OkGood(cseq, map[PUBLIC := PUBLIC_METHODS]);
    HeaderGood(OptionsResponse(cseq), SESSION, id);
  }

  lemma PlayGood(cseq: nat, id: Bytes, url: Bytes)
    requires GoodId(id) && GoodUrl(url) && cseq < TWO_31
    ensures Good(WithHeader(PlayResponse(cseq, id), Session.RTP_INFO, Session.RtpInfo(url)))
  {
    hide FieldOk, Good, GoodId, GoodUrl;
    ConstantFields();
    IdOk(id);
    Sizes();
    UrlFields(url);
    OkGood(cseq, map[SESSION := id, RANGE := FROM_START]);
    HeaderGood(PlayResponse(cseq, id), Session.RTP_INFO, Session.RtpInfo(url));
  }

  lemma TcpSetupGood(t: Session.Terms, cseq: nat, transport: Bytes)
    requires GoodId(t.sessionId) && cseq < TWO_31
    ensures Good(Session.OnTcpSetup(t, cseq, transport).response)
  {
    hide FieldOk, Good, GoodId, Channels, InterleavedText, IntText, SetupResponse;
    var t1 := Session.OnTcpSetup(t, cseq, transport).terms;
    Sizes();
    SetupResponseGood(cseq, t.sessionId, 0, 0);
    InterleavedOk(t1.rtpChannel, t1.rtcpChannel);
    HeaderGood(SetupResponse(cseq, t.sessionId, 0, 0), TRANSPORT, InterleavedText(t1.rtpChannel, t1.rtcpChannel));
  }

  lemma SetupGood(t: Session.Terms, req: RtspMessage, env: Session.Env)
    requires GoodId(t.sessionId) && req.cseq < TWO_31
    ensures Good(Session.OnSetup(t, req, env).response)
  {
    hide FieldOk, Good, GoodId, Find, Session.ExtractPath, Session.ClientPort, Clean, Session.OnTcpSetup,
         ErrorResponse, SetupResponse;
    ReasonsOk();
    var t1 := t.(path := if t.path == [] then Session.ExtractPath(req.url) else t.path, phase := Session.Ready);
    ErrorGood(req.cseq, 461, "Transport header required");
    ErrorGood(req.cseq, 461, "Unsupported Transport");
    ErrorGood(req.cseq, 461, "Bad Transport");
    ErrorGood(req.cseq, 500, "UDP socket creation failed");
    if TRANSPORT in req.headers { TcpSetupGood(t1, req.cseq, req.headers[TRANSPORT]); }
    if env.udpPorts.Some? { SetupResponseGood(req.cseq, t.sessionId, env.udpPorts.value.0, env.udpPorts.value.1); }
  }
}
