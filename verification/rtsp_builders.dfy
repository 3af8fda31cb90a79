/** The requests and responses the relay itself makes, and the Transport header they negotiate. */
module RtspBuilders {
  import opened Text
  import opened RtspProtocol

  const USER_AGENT: Bytes := "User-Agent"
  const AGENT: Bytes := "RTSP-Relay/1.0"
  const APPLICATION_SDP: Bytes := "application/sdp"
  const CONTENT_BASE: Bytes := "Content-Base"
  const ACCEPT: Bytes := "Accept"
  const RANGE: Bytes := "Range"
  const FROM_START: Bytes := "npt=0.000-"
  const PUBLIC: Bytes := "Public"
  const PUBLIC_METHODS: Bytes := "OPTIONS, DESCRIBE, SETUP, " + "PLAY, TEARDOWN, GET_PARAMETER"
  const INTERLEAVED: Bytes := "interleaved="
  const CLIENT_PORT: Bytes := "client_port="
  const TCP_INTERLEAVED: Bytes := "RTP/AVP/TCP;unicast;" + INTERLEAVED
  const UDP_CLIENT: Bytes := "RTP/AVP;unicast;" + CLIENT_PORT
  const UDP_SERVER: Bytes := "RTP/AVP;unicast;" + "server_port="
  const TIMEOUT_60: Bytes := ";timeout=60"

  function Request(verb: Method, url: Bytes, cseq: nat, headers: Headers): RtspMessage {
    BLANK.(kind := MessageKind.Request, verb := verb, url := url, cseq := cseq,
           headers := headers + map[USER_AGENT := AGENT])
  }

  /** `headers["Session"] = id`, unless the id is empty. */
  function SessionHeader(sessionId: Bytes): Headers {
    if sessionId == [] then map[] else map[SESSION := sessionId]
  }

  function OptionsRequest(url: Bytes, cseq: nat): RtspMessage { Request(Options, url, cseq, map[]) }

  function DescribeRequest(url: Bytes, cseq: nat): RtspMessage {
    Request(Describe, url, cseq, map[ACCEPT := APPLICATION_SDP])
  }

  function SetupRequest(url: Bytes, cseq: nat, rtpPort: int, rtcpPort: int, sessionId: Bytes): RtspMessage {
    Request(Setup, url, cseq, SessionHeader(sessionId)
      + map[TRANSPORT := UDP_CLIENT + IntText(rtpPort) + "-" + IntText(rtcpPort)])
  }

  function PlayRequest(url: Bytes, cseq: nat, sessionId: Bytes): RtspMessage {
    Request(Play, url, cseq, map[SESSION := sessionId, RANGE := FROM_START])
  }

  function TeardownRequest(url: Bytes, cseq: nat, sessionId: Bytes): RtspMessage {
    Request(Teardown, url, cseq, map[SESSION := sessionId])
  }

  function Ok(cseq: nat, headers: Headers): RtspMessage {
    BLANK.(kind := Response, status := 200, reason := "OK", cseq := cseq, headers := headers)
  }

  function OkResponse(cseq: nat, sessionId: Bytes): RtspMessage { Ok(cseq, SessionHeader(sessionId)) }

  function OptionsResponse(cseq: nat): RtspMessage { Ok(cseq, map[PUBLIC := PUBLIC_METHODS]) }

  function DescribeResponse(cseq: nat, sdp: Bytes, sessionId: Bytes): RtspMessage {
    Ok(cseq, SessionHeader(sessionId) + map[CONTENT_TYPE := APPLICATION_SDP, CONTENT_BASE := []])
      .(body := sdp, sdp := sdp)
  }

  function SetupResponse(cseq: nat, sessionId: Bytes, rtpPort: int, rtcpPort: int): RtspMessage {
    Ok(cseq, map[SESSION := sessionId + TIMEOUT_60,
                 TRANSPORT := UDP_SERVER + IntText(rtpPort) + "-" + IntText(rtcpPort)])
  }

  function PlayResponse(cseq: nat, sessionId: Bytes): RtspMessage {
    Ok(cseq, map[SESSION := sessionId, RANGE := FROM_START])
  }

  function TeardownResponse(cseq: nat, sessionId: Bytes): RtspMessage { Ok(cseq, SessionHeader(sessionId)) }

  function ErrorResponse(cseq: nat, status: int, reason: Bytes): RtspMessage {
    BLANK.(kind := Response, status := status, reason := reason, cseq := cseq)
  }

  function WithHeader(m: RtspMessage, key: Bytes, value: Bytes): RtspMessage {
    m.(headers := m.headers[key := value])
  }

  // ---------- the channel pair in a Transport header ----------

  /** `static_cast<uint8_t>(atoi(...))`. */
  function OctetAt(s: Bytes): Octet { Atoi(s) % 256 }

  /** The pair behind `interleaved=`; nothing when there is no such parameter or no dash behind it. */
  function Channels(transport: Bytes): Option<(Octet, Octet)> {
    var pos := Find(transport, INTERLEAVED, 0);
    if pos < 0 then None else
    var dash := Find(transport, "-", pos + 12);
    if dash < 0 then None else
    Some((OctetAt(transport[pos + 12..]), OctetAt(transport[dash + 1..])))
  }

  function InterleavedText(rtp: Octet, rtcp: Octet): Bytes {
    TCP_INTERLEAVED + Dec(rtp) + "-" + Dec(rtcp)
  }

  lemma PrefixText()
    ensures |INTERLEAVED| == 12 && |TCP_INTERLEAVED| == 32 && TCP_INTERLEAVED[20..32] == INTERLEAVED
    ensures forall k :: 0 <= k < 20 && k != 14 ==> TCP_INTERLEAVED[k] != 'i'
    ensures TCP_INTERLEAVED[15] == 'c' && INTERLEAVED[0] == 'i' && INTERLEAVED[1] == 'n'
  {
  }

  lemma InterleavedFound(tail: Bytes)
    ensures Find(TCP_INTERLEAVED + tail, INTERLEAVED, 0) == 20
  {
    PrefixText();
    var s := TCP_INTERLEAVED + tail;
    assert s[20..32] == TCP_INTERLEAVED[20..32];
    forall k: nat | k < 20 ensures !At(s, INTERLEAVED, k) {
      assert s[k] == TCP_INTERLEAVED[k] && s[k + 1] == TCP_INTERLEAVED[k + 1];
      var piece := s[k..k + 12];
      assert piece[0] == s[k] && piece[1] == s[k + 1];
    }
    FindIs(s, INTERLEAVED, 0, 20);
  }

  lemma DecOctet(n: Octet, rest: Bytes)
    requires rest == [] || !IsDigit(rest[0])
    ensures OctetAt(Dec(n) + rest) == n
  {
    DecNumber(n, rest);
  }

  /** The channel pair that is offered or answered is the pair the other side reads. */
  lemma ChannelsRoundTrip(rtp: Octet, rtcp: Octet)
    ensures Channels(InterleavedText(rtp, rtcp)) == Some((rtp, rtcp))
  {
    hide Find, OctetAt, Dec;
    PrefixText();
    var a, b := Dec(rtp), Dec(rtcp);
    DecDigits(rtp);
    var tail := a + "-" + b;
    var s := TCP_INTERLEAVED + tail;
    assert InterleavedText(rtp, rtcp) == s;
    InterleavedFound(tail);
    assert s[32..32 + |a|] == a;
    FindChar(s, '-', 32, 32 + |a|);
    assert s[32..] == a + ("-" + b);
    DecOctet(rtp, "-" + b);
    assert s[32 + |a| + 1..] == b + [];
    DecOctet(rtcp, []);
  }

  lemma DecDigits(n: nat)
    ensures Lacks(Dec(n), '-') && Clean(Dec(n)) && Dec(n)[0] != ' '
  {
  }
}
