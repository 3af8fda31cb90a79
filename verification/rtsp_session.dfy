/** The server side of one player connection: DESCRIBE, SETUP, PLAY, TEARDOWN, and the packets
    framed for the player while it plays. */
module Session {
  import opened Text
  import opened RtspProtocol
  import opened RtspBuilders
  import opened Framing
  import opened Buffers

  /** The states Idle, Describe, Setup, Playing and Teardown. */
  datatype Phase = Fresh | Described | Ready | Playing | Closed

  datatype Transport = Tcp | Udp

  /** What requests negotiate. */
  datatype Terms = Terms(
    phase: Phase, path: Bytes, sessionId: Bytes, cseq: nat, transport: Transport,
    rtpChannel: Octet, rtcpChannel: Octet)

  /** One call of `conn->send`: a printed response, or bytes as they are. */
  datatype Send = Text(msg: RtspMessage) | Raw(bytes: Bytes)

  datatype Output = Output(sends: seq<Send>, bytesSent: nat, pktsSent: nat)

  /** A call of the relay manager. */
  datatype Call = AddSink(path: Bytes) | RemoveSink(path: Bytes)

  datatype SessionState = SessionState(terms: Terms, output: Output, calls: seq<Call>)

  /** What the surroundings answer: the SDP of each stream, and the ports of a UDP socket pair. */
  datatype Env = Env(sdps: map<Bytes, Bytes>, udpPorts: Option<(nat, nat)>)

  function Initial(sessionId: Bytes): SessionState {
    SessionState(Terms(Fresh, [], sessionId, 0, Tcp, 0, 1), Output([], 0, 0), [])
  }

  const SLASH: Bytes := "/"
  const SCHEME_END: Bytes := "://"
  const RTP_INFO: Bytes := "RTP-Info"

  function ExtractPath(url: Bytes): Bytes {
    var pos := Find(url, SCHEME_END, 0);
    if pos < 0 then url else
    var slash := Find(url, SLASH, pos + 3);
    if slash < 0 then SLASH else url[slash..]
  }

  /** The stream path is what follows the authority: all of it, and the root when there is none. */
  lemma PathOfUrl(scheme: Bytes, authority: Bytes, path: Bytes)
    requires Lacks(scheme, ':') && Lacks(authority, '/') && (path == [] || path[0] == '/')
    ensures ExtractPath(scheme + SCHEME_END + authority + path) == if path == [] then SLASH else path
  {
    var url := scheme + SCHEME_END + authority + path;
    var n, m := |scheme|, |scheme| + 3 + |authority|;
    assert url[n..n + 3] == SCHEME_END;
    forall k: nat | k < n ensures !At(url, SCHEME_END, k) {
      assert url[k] == scheme[k];
      if k + 3 <= |url| { assert url[k..k + 3][0] == url[k]; }
    }
    FindIs(url, SCHEME_END, 0, n);
    assert url[n + 3..m] == authority;
    if path == [] {
      FindSpec(url, SLASH, n + 3);
      forall k: nat | n + 3 <= k ensures !At(url, SLASH, k) {
        if k < |url| { assert url[k] == authority[k - n - 3]; }
        AtChar(url, '/', k);
      }
    } else {
      FindChar(url, '/', n + 3, m);
    }
  }

  function SdpOf(env: Env, path: Bytes): Bytes {
    if path in env.sdps then env.sdps[path] else []
  }

  /** The RTP port behind `client_port=`, 0 when it cannot be read. */
  function ClientPort(transport: Bytes): nat {
    var pos := Find(transport, CLIENT_PORT, 0);
    if pos < 0 || Find(transport, "-", pos + 12) < 0 then 0 else Atoi(transport[pos + 12..]) % 65536
  }

  function RtpInfo(url: Bytes): Bytes { "url=" + url + ";seq=0;rtptime=0" }

  // ---------- the handlers: new terms and the one response ----------

  datatype Answer = Answer(terms: Terms, response: RtspMessage)

  function OnDescribe(t: Terms, req: RtspMessage, env: Env): Answer {
    var t1 := t.(path := ExtractPath(req.url), phase := Described);
    var sdp := SdpOf(env, t1.path);
    if sdp == [] then Answer(t1, ErrorResponse(req.cseq, 404, "Stream Not Found"))
    else Answer(t1, WithHeader(DescribeResponse(req.cseq, sdp, t.sessionId), CONTENT_BASE, req.url + SLASH))
  }

  function OnTcpSetup(t: Terms, cseq: nat, transport: Bytes): Answer {
    var t1 := match Channels(transport)
              case None => t.(transport := Tcp)
              case Some((rtp, rtcp)) => t.(transport := Tcp, rtpChannel := rtp, rtcpChannel := rtcp);
    Answer(t1, WithHeader(SetupResponse(cseq, t.sessionId, 0, 0), TRANSPORT,
                          InterleavedText(t1.rtpChannel, t1.rtcpChannel)))
  }

  function OnUdpSetup(t: Terms, cseq: nat, transport: Bytes, env: Env): Answer {
    var t1 := t.(transport := Udp);
    if ClientPort(transport) == 0 then Answer(t1, ErrorResponse(cseq, 461, "Bad Transport"))
    else match env.udpPorts
      case None => Answer(t1, ErrorResponse(cseq, 500, "UDP socket creation failed"))
      case Some((rtp, rtcp)) => Answer(t1, SetupResponse(cseq, t.sessionId, rtp, rtcp))
  }

  function OnSetup(t: Terms, req: RtspMessage, env: Env): Answer {
    var t1 := t.(path := if t.path == [] then ExtractPath(req.url) else t.path, phase := Ready);
    if TRANSPORT !in req.headers then Answer(t1, ErrorResponse(req.cseq, 461, "Transport header required"))
    else
      var tp := req.headers[TRANSPORT];
      if Find(tp, INTERLEAVED, 0) >= 0 then OnTcpSetup(t1, req.cseq, tp)
      else if Find(tp, CLIENT_PORT, 0) >= 0 then OnUdpSetup(t1, req.cseq, tp, env)
      else Answer(t1, ErrorResponse(req.cseq, 461, "Unsupported Transport"))
  }

  function Reply(t: Terms, req: RtspMessage, env: Env): Answer {
    match req.verb
    case Options => Answer(t, WithHeader(OptionsResponse(req.cseq), SESSION, t.sessionId))
    case Describe => OnDescribe(t, req, env)
    case Setup => OnSetup(t, req, env)
    case Play => Answer(t.(phase := Playing),
                        WithHeader(PlayResponse(req.cseq, t.sessionId), RTP_INFO, RtpInfo(req.url)))
    case Teardown => Answer(t, TeardownResponse(req.cseq, t.sessionId))
    case GetParameter => Answer(t, OkResponse(req.cseq, t.sessionId))
    case _ => Answer(t, ErrorResponse(req.cseq, 461, "Not Implemented"))
  }

  /** Leaving: the stream is told only by a session that was playing one. */
  function Close(s: SessionState): SessionState {
    if s.terms.phase == Closed then s else
    SessionState(s.terms.(phase := Closed), s.output,
                 if s.terms.phase == Playing && s.terms.path != [] then s.calls + [RemoveSink(s.terms.path)]
                 else s.calls)
  }

  function OnRequest(s: SessionState, req: RtspMessage, env: Env): SessionState {
    if req.kind != MessageKind.Request then s else
    var a := Reply(s.terms.(cseq := req.cseq), req, env);
    var calls := if req.verb == Play then s.calls + [AddSink(s.terms.path)] else s.calls;
    var s1 := SessionState(a.terms, s.output.(sends := s.output.sends + [Text(a.response)]), calls);
    if req.verb == Teardown then Close(s1) else s1
  }

  /** Packets from the player (receiver reports) are dropped. */
  function OnEvent(s: SessionState, ev: Event, env: Env): SessionState {
    match ev
    case Frame(_, _) => s
    case Message(msg) => OnRequest(s, msg, env)
  }

  function OnEvents(s: SessionState, evs: seq<Event>, env: Env): SessionState
    decreases evs
  {
    if evs == [] then s else OnEvents(OnEvent(s, evs[0], env), evs[1..], env)
  }

  predicate Streaming(t: Terms) { t.phase == Playing && t.transport == Tcp }

  /** One packet for a playing TCP session: four bytes of framing, then the packet, in two sends. */
  function OnRtpData(s: SessionState, data: Bytes, connected: bool): SessionState {
    if !Streaming(s.terms) || !connected then s else
    s.(output := Output(s.output.sends + [Raw(FrameHeader(s.terms.rtpChannel, |data|)), Raw(data)],
                        s.output.bytesSent + |data| + 4, s.output.pktsSent + 1))
  }

  // ---------- every request is answered once, in order, with its own number ----------

  function ResponseNumbers(sends: seq<Send>): seq<nat> {
    if sends == [] then []
    else (if sends[0].Text? then [sends[0].msg.cseq] else []) + ResponseNumbers(sends[1..])
  }

  function RequestNumbers(evs: seq<Event>): seq<nat> {
    if evs == [] then []
    else (if evs[0].Message? && evs[0].msg.kind == MessageKind.Request then [evs[0].msg.cseq] else [])
         + RequestNumbers(evs[1..])
  }

  lemma {:induction false} NumbersAppend(a: seq<Send>, b: seq<Send>)
    ensures ResponseNumbers(a + b) == ResponseNumbers(a) + ResponseNumbers(b)
  {
    if a == [] {
      assert a + b == b;
    } else {
      NumbersAppend(a[1..], b);
      assert (a + b)[1..] == a[1..] + b;
    }
  }

  lemma ReplyNumber(t: Terms, req: RtspMessage, env: Env)
    ensures Reply(t, req, env).response.cseq == req.cseq && Reply(t, req, env).response.kind == Response
  {
    hide Channels, ExtractPath, InterleavedText, IntText, Find, ClientPort, SessionHeader, SdpOf, RtpInfo;
  }

  lemma RequestSends(s: SessionState, req: RtspMessage, env: Env)
    ensures OnRequest(s, req, env).output.sends == s.output.sends +
      if req.kind == MessageKind.Request then [Text(Reply(s.terms.(cseq := req.cseq), req, env).response)] else []
  {
    hide Reply;
  }

  /** However many requests one read delivers: one response each, in their order, same CSeq. */
  lemma {:induction false} AnsweredInOrder(s: SessionState, evs: seq<Event>, env: Env)
    ensures ResponseNumbers(OnEvents(s, evs, env).output.sends)
         == ResponseNumbers(s.output.sends) + RequestNumbers(evs)
    decreases evs
  {
    hide Reply, OnRequest;
    if evs == [] {
      assert ResponseNumbers(s.output.sends) + [] == ResponseNumbers(s.output.sends);
    } else {
      var t := OnEvent(s, evs[0], env);
      var before, later := ResponseNumbers(s.output.sends), RequestNumbers(evs[1..]);
      AnsweredInOrder(t, evs[1..], env);
      if evs[0].Message? && evs[0].msg.kind == MessageKind.Request {
        var req := evs[0].msg;
        var resp := Reply(s.terms.(cseq := req.cseq), req, env).response;
        RequestSends(s, req, env);
        ReplyNumber(s.terms.(cseq := req.cseq), req, env);
        NumbersAppend(s.output.sends, [Text(resp)]);
        assert [Text(resp)][1..] == [];
        assert ResponseNumbers(t.output.sends) == before + [req.cseq];
        assert before + [req.cseq] + later == before + ([req.cseq] + later);
      } else {
        assert t.output.sends == s.output.sends by { if evs[0].Message? { RequestSends(s, evs[0].msg, env); } }
        assert RequestNumbers(evs) == later;
      }
    }
  }

  // ---------- the session object ----------

  class RtspSession {
    const sessionId: Bytes
    var phase: Phase
    var path: Bytes
    var cseq: nat
    var transport: Transport
    var rtpChannel: Octet
    var rtcpChannel: Octet
    var bytesSent: nat
    var pktsSent: nat
    var connected: bool
    var sends: seq<Send>
    var calls: seq<Call>

    constructor (sessionId: Bytes)
      ensures View() == Initial(sessionId) && connected
    {
      this.sessionId := sessionId;
      phase, path, cseq, transport, rtpChannel, rtcpChannel := Fresh, [], 0, Tcp, 0, 1;
      bytesSent, pktsSent, connected, sends, calls := 0, 0, true, [], [];
    }

    function TermsView(): Terms
      reads this
    {
      Terms(phase, path, sessionId, cseq, transport, rtpChannel, rtcpChannel)
    }

    function View(): SessionState
      reads this
    {
      SessionState(TermsView(), Output(sends, bytesSent, pktsSent), calls)
    }

    method SendResponse(resp: RtspMessage)
      modifies this`sends
      ensures sends == old(sends) + [Text(resp)]
    {
      sends := sends + [Text(resp)];
    }

    method CloseSession()
      modifies this`phase, this`calls
      ensures View() == Close(old(View()))
    {
      if phase == Closed { return; }
      var was := phase;
      phase := Closed;
      if was == Playing && path != [] { calls := calls + [RemoveSink(path)]; }
    }

    method HandleDescribe(req: RtspMessage, env: Env)
      modifies this`path, this`phase, this`sends
      ensures var a := OnDescribe(old(TermsView()), req, env);
              TermsView() == a.terms && sends == old(sends) + [Text(a.response)]
    {
      hide ExtractPath, DescribeResponse, SdpOf;
      path := ExtractPath(req.url);
      phase := Described;
      var sdp := SdpOf(env, path);
      if sdp == [] {
        SendResponse(ErrorResponse(req.cseq, 404, "Stream Not Found"));
        return;
      }
      var resp := DescribeResponse(req.cseq, sdp, sessionId);
      SendResponse(WithHeader(resp, CONTENT_BASE, req.url + SLASH));
    }

    method HandleSetup(req: RtspMessage, env: Env)
      modifies this`path, this`phase, this`transport, this`rtpChannel, this`rtcpChannel, this`sends
      ensures var a := OnSetup(old(TermsView()), req, env);
              TermsView() == a.terms && sends == old(sends) + [Text(a.response)]
    {
      hide ExtractPath, OnTcpSetup, OnUdpSetup, Find, ErrorResponse;
      if path == [] { path := ExtractPath(req.url); }
      phase := Ready;
      if TRANSPORT !in req.headers {
        SendResponse(ErrorResponse(req.cseq, 461, "Transport header required"));
        return;
      }
      var tp := req.headers[TRANSPORT];
      if Find(tp, INTERLEAVED, 0) >= 0 {
        HandleTcpSetup(req.cseq, tp);
      } else if Find(tp, CLIENT_PORT, 0) >= 0 {
        HandleUdpSetup(req.cseq, tp, env);
      } else {
        SendResponse(ErrorResponse(req.cseq, 461, "Unsupported Transport"));
      }
    }

    method HandleTcpSetup(requestCseq: nat, tp: Bytes)
      modifies this`transport, this`rtpChannel, this`rtcpChannel, this`sends
      ensures var a := OnTcpSetup(old(TermsView()), requestCseq, tp);
              TermsView() == a.terms && sends == old(sends) + [Text(a.response)]
    {
      hide Channels, SetupResponse, InterleavedText;
      transport := Tcp;
      match Channels(tp) {
        case Some((rtp, rtcp)) => rtpChannel, rtcpChannel := rtp, rtcp;
        case None =>
      }
      var resp := SetupResponse(requestCseq, sessionId, 0, 0);
      SendResponse(WithHeader(resp, TRANSPORT, InterleavedText(rtpChannel, rtcpChannel)));
    }

    method HandleUdpSetup(requestCseq: nat, tp: Bytes, env: Env)
      modifies this`transport, this`sends
      ensures var a := OnUdpSetup(old(TermsView()), requestCseq, tp, env);
              TermsView() == a.terms && sends == old(sends) + [Text(a.response)]
    {
      hide ClientPort, SetupResponse, ErrorResponse;
      transport := Udp;
      if ClientPort(tp) == 0 {
        SendResponse(ErrorResponse(requestCseq, 461, "Bad Transport"));
        return;
      }
      match env.udpPorts {
        case None => SendResponse(ErrorResponse(requestCseq, 500, "UDP socket creation failed"));
        case Some((rtp, rtcp)) => SendResponse(SetupResponse(requestCseq, sessionId, rtp, rtcp));
      }
    }

    method ProcessRequest(req: RtspMessage, env: Env)
      modifies this
      ensures View() == OnRequest(old(View()), req, env) && connected == old(connected)
    {
      hide OnDescribe, OnSetup, OptionsResponse, PlayResponse, TeardownResponse, OkResponse, ErrorResponse, RtpInfo, WithHeader;
      if req.kind != MessageKind.Request { return; }
      cseq := req.cseq;
      match req.verb {
        case Options => SendResponse(WithHeader(OptionsResponse(req.cseq), SESSION, sessionId));
        case Describe => HandleDescribe(req, env);
        case Setup => HandleSetup(req, env);
        case Play =>
          phase := Playing;
          calls := calls + [AddSink(path)];
          SendResponse(WithHeader(PlayResponse(req.cseq, sessionId), RTP_INFO, RtpInfo(req.url)));
        case Teardown =>
          SendResponse(TeardownResponse(req.cseq, sessionId));
          CloseSession();
        case GetParameter => SendResponse(OkResponse(req.cseq, sessionId));
        case _ => SendResponse(ErrorResponse(req.cseq, 461, "Not Implemented"));
      }
    }

    method PushRtpData(data: Bytes)
      modifies this`sends, this`bytesSent, this`pktsSent
      ensures View() == OnRtpData(old(View()), data, connected)
    {
      hide FrameHeader;
      if phase != Playing { return; }
      if transport == Udp { return; }
      if !connected { return; }
      sends := sends + [Raw(FrameHeader(rtpChannel, |data|))];
      sends := sends + [Raw(data)];
      bytesSent := bytesSent + |data| + 4;
      pktsSent := pktsSent + 1;
    }

    /** The drain loop of the server side. `env` is what the surroundings answer during this call;
        a change in between two requests is the same stream cut into two calls. */
    method HandleRtspMessage(buf: ByteBuffer, env: Env) returns (threw: bool)
      requires buf.Valid()
      modifies this, buf, buf.data
      ensures buf.Valid() && buf.data == old(buf.data)
      ensures buf.Content() == Drain(old(buf.Content())).rest
      ensures View() == OnEvents(old(View()), Drain(old(buf.Content())).events, env)
      ensures connected == old(connected)
      ensures threw <==> NextItem(buf.Content()).Fault?
    {
      hide OnEvent, Parse;
      threw := false;
      ghost var all := Drain(buf.Content());
      ghost var goal := OnEvents(View(), all.events, env);
      while true
        invariant buf.Valid() && buf.data == old(buf.data) && !threw && connected == old(connected)
        invariant Drain(buf.Content()).rest == all.rest
        invariant OnEvents(View(), Drain(buf.Content()).events, env) == goal
        decreases |buf.Content()|
      {
        ghost var content := buf.Content();
        var item := Front(buf);
        if item.Incomplete? { return; }
        if item.Fault? { return true; }
        DrainOne(content);
        ItemBounds(content);
        StepEvents(View(), item.event, Drain(content[item.size..]).events, env);
        buf.Skip(item.size);
        if item.event.Message? { ProcessRequest(item.event.msg, env); }
      }
    }
  }

  lemma StepEvents(s: SessionState, ev: Event, later: seq<Event>, env: Env)
    ensures OnEvents(s, [ev] + later, env) == OnEvents(OnEvent(s, ev, env), later, env)
    ensures OnEvent(s, ev, env) == if ev.Frame? then s else OnRequest(s, ev.msg, env)
  {
    hide OnRequest;
    assert ([ev] + later)[1..] == later;
  }
}
