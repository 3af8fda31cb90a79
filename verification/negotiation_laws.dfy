/** What a session agrees to and answers, request by request, in terms of the texts on the wire. */
module NegotiationLaws {
  import opened Text
  import opened RtspProtocol
  import opened RtspBuilders
  import opened ForeignHeads
  import opened Framing
  import EndToEnd
  import Relay
  import Session
  import Source

  // ---------- numbers behind a parameter name ----------

  /** A pattern whose first character does not come again in it. */
  predicate StartsOnce(pat: Bytes) { pat != [] && forall k :: 0 < k < |pat| ==> pat[k] != pat[0] }

  lemma NamesStartOnce()
    ensures StartsOnce(INTERLEAVED) && StartsOnce(CLIENT_PORT) && |INTERLEAVED| == 12 && |CLIENT_PORT| == 12
  {
  }

  /** Behind a text that does not hold the name, the name is found where it stands. */
  lemma NameFound(prefix: Bytes, name: Bytes, behind: Bytes)
    requires StartsOnce(name) && !Mentions(prefix, name)
    ensures Find(prefix + name + behind, name, 0) == |prefix|
  {
    var s, n := prefix + name + behind, |prefix|;
    assert s[n..n + |name|] == name;
    forall k: nat | k < n ensures !At(s, name, k) {
      if k + |name| <= n {
        assert !At(prefix, name, k);
        assert s[k..k + |name|] == prefix[k..k + |name|];
      } else if k + |name| <= |s| {
        assert s[n] == name[0];
        assert s[k..k + |name|][n - k] == s[n];
      }
    }
    FindIs(s, name, 0, n);
  }

  lemma SmallNumber(n: nat, rest: Bytes)
    requires n < TWO_31 && (rest == [] || !IsDigit(rest[0]))
    ensures Atoi(Dec(n) + rest) == n
  {
    DecNumber(n, rest);
  }

  /** The text of a pair of numbers behind `name`. */
  function PairText(prefix: Bytes, name: Bytes, a: nat, b: nat, rest: Bytes): Bytes {
    prefix + name + Dec(a) + "-" + Dec(b) + rest
  }

  lemma PartsFound(front: Bytes, x: Bytes, y: Bytes)
    requires Lacks(x, '-')
    ensures var s, from := front + (x + "-" + y), |front|;
            && Find(s, "-", from) == from + |x| && s[from..] == x + ("-" + y) && s[from + |x| + 1..] == y
  {
    hide Find;
    var s, from := front + (x + "-" + y), |front|;
    assert s[from..from + |x|] == x;
    FindChar(s, '-', from, from + |x|);
  }

  /** Where the parts of such a text are found. */
  lemma PairFound(prefix: Bytes, name: Bytes, a: nat, b: nat, rest: Bytes)
    requires StartsOnce(name) && !Mentions(prefix, name)
    ensures var s, from := PairText(prefix, name, a, b, rest), |prefix| + |name|;
            && Find(s, name, 0) == |prefix| && Find(s, "-", from) == from + |Dec(a)|
            && s[from..] == Dec(a) + ("-" + (Dec(b) + rest)) && s[from + |Dec(a)| + 1..] == Dec(b) + rest
  {
    hide Find, Dec;
    var y := Dec(b) + rest;
    assert PairText(prefix, name, a, b, rest) == prefix + name + (Dec(a) + "-" + y);
    NameFound(prefix, name, Dec(a) + "-" + y);
    DecDigits(a);
    PartsFound(prefix + name, Dec(a), y);
  }

  /** The first pair of channel numbers in a Transport header is read, whatever stands around it; numbers
      beyond a byte are cut to one. */
  lemma ChannelsRead(prefix: Bytes, a: nat, b: nat, rest: Bytes)
    requires !Mentions(prefix, INTERLEAVED) && a < TWO_31 && b < TWO_31 && (rest == [] || !IsDigit(rest[0]))
    ensures Channels(PairText(prefix, INTERLEAVED, a, b, rest)) == Some((a % 256, b % 256))
  {
    hide Find, Dec, Atoi, PairText;
    NamesStartOnce();
    PairFound(prefix, INTERLEAVED, a, b, rest);
    SmallNumber(a, "-" + (Dec(b) + rest));
    SmallNumber(b, rest);
  }

  /** No pair is read exactly when no dash follows an `interleaved=`. */
  lemma ChannelsMissing(s: Bytes)
    ensures Channels(s).None? <==> !exists i: nat, j: nat :: At(s, INTERLEAVED, i) && i + 12 <= j && At(s, "-", j)
  {
    hide At, Atoi;
    NamesStartOnce();
    FindSpec(s, INTERLEAVED, 0);
    var pos := Find(s, INTERLEAVED, 0);
    if pos >= 0 { FindSpec(s, "-", pos + 12); }
  }

  lemma ClientPortRead(prefix: Bytes, a: nat, b: nat, rest: Bytes)
    requires !Mentions(prefix, CLIENT_PORT) && a < TWO_31
    ensures Session.ClientPort(PairText(prefix, CLIENT_PORT, a, b, rest)) == a % 65536
  {
    hide Find, Dec, Atoi, PairText;
    NamesStartOnce();
    PairFound(prefix, CLIENT_PORT, a, b, rest);
    SmallNumber(a, "-" + (Dec(b) + rest));
  }

  lemma NameIsThere(prefix: Bytes, name: Bytes, a: nat, b: nat, rest: Bytes)
    requires StartsOnce(name) && !Mentions(prefix, name)
    ensures Find(PairText(prefix, name, a, b, rest), name, 0) >= 0
  {
    hide Find, Dec, PairText;
    PairFound(prefix, name, a, b, rest);
  }

  // ---------- SETUP ----------

  predicate IsRequest(req: RtspMessage, verb: Method) { req.kind == MessageKind.Request && req.verb == verb }

  /** A 200 and its two headers. */
  predicate SetupAnswer(resp: RtspMessage, id: Bytes, transport: Bytes) {
    && resp.status == 200 && resp.reason == "OK" && resp.body == []
    && resp.headers == map["Session" := id + ";timeout=60", "Transport" := transport]
  }

  /** A session, in whatever state, that is asked for a pair of channels takes that pair and says so. */
  lemma ChannelsAskedFor(t: Session.Terms, req: RtspMessage, env: Session.Env, prefix: Bytes, a: Octet, b: Octet, rest: Bytes)
    requires req.verb == Setup && TRANSPORT in req.headers
    requires !Mentions(prefix, INTERLEAVED) && (rest == [] || !IsDigit(rest[0]))
    requires req.headers[TRANSPORT] == PairText(prefix, INTERLEAVED, a, b, rest)
    ensures var r := Session.Reply(t, req, env);
            && r.terms.transport == Session.Tcp && r.terms.rtpChannel == a && r.terms.rtcpChannel == b
            && r.terms.phase == Session.Ready
            && SetupAnswer(r.response, t.sessionId, "RTP/AVP/TCP;unicast;" + "interleaved=" + Dec(a) + "-" + Dec(b))
  {
    hide Find, Dec, Channels, PairText, Session.ExtractPath, Session.ClientPort;
    NamesStartOnce();
    ChannelsRead(prefix, a, b, rest);
    NameIsThere(prefix, INTERLEAVED, a, b, rest);
    TwoHeaders(t.sessionId, InterleavedText(a, b));
  }

  lemma TwoHeaders(id: Bytes, transport: Bytes)
    ensures map[SESSION := id + TIMEOUT_60, TRANSPORT := transport]
         == map["Session" := id + ";timeout=60", "Transport" := transport]
    ensures SESSION != TRANSPORT
  {
    assert |SESSION| == 7 && |TRANSPORT| == 9;
  }

  /** Asked for interleaving without a readable pair, it keeps the channels it has and answers those. */
  lemma ChannelsKept(t: Session.Terms, req: RtspMessage, env: Session.Env)
    requires req.verb == Setup && TRANSPORT in req.headers
    requires Mentions(req.headers[TRANSPORT], INTERLEAVED) && Channels(req.headers[TRANSPORT]).None?
    ensures var r := Session.Reply(t, req, env);
            && r.terms.transport == Session.Tcp && r.terms.phase == Session.Ready
            && r.terms.rtpChannel == t.rtpChannel && r.terms.rtcpChannel == t.rtcpChannel
            && SetupAnswer(r.response, t.sessionId,
                 "RTP/AVP/TCP;unicast;" + "interleaved=" + Dec(t.rtpChannel) + "-" + Dec(t.rtcpChannel))
  {
    hide Find, Dec, Channels, Session.ExtractPath, Session.ClientPort, At;
    FindSpec(req.headers[TRANSPORT], INTERLEAVED, 0);
    TwoHeaders(t.sessionId, InterleavedText(t.rtpChannel, t.rtcpChannel));
  }

  /** An error answer. */
  predicate Refused(resp: RtspMessage, status: int, reason: Bytes) {
    resp.status == status && resp.reason == reason && resp.headers == map[] && resp.body == []
  }

  /** SETUP for UDP: the ports the system gave, or why not. The channels stay as they are. */
  lemma UdpSetup(t: Session.Terms, req: RtspMessage, env: Session.Env, prefix: Bytes, a: nat, b: nat, rest: Bytes)
    requires req.verb == Setup && TRANSPORT in req.headers && a < TWO_31
    requires req.headers[TRANSPORT] == PairText(prefix, CLIENT_PORT, a, b, rest) && !Mentions(prefix, CLIENT_PORT)
    requires !Mentions(req.headers[TRANSPORT], INTERLEAVED)
    ensures var r := Session.Reply(t, req, env);
            && r.terms.transport == Session.Udp && r.terms.phase == Session.Ready
            && r.terms.rtpChannel == t.rtpChannel && r.terms.rtcpChannel == t.rtcpChannel
            && (a % 65536 == 0 ==> Refused(r.response, 461, "Bad Transport"))
            && (a % 65536 != 0 && env.udpPorts.None? ==> Refused(r.response, 500, "UDP socket creation failed"))
            && (a % 65536 != 0 && env.udpPorts.Some? ==>
                  SetupAnswer(r.response, t.sessionId, "RTP/AVP;unicast;" + "server_port="
                              + IntText(env.udpPorts.value.0) + "-" + IntText(env.udpPorts.value.1)))
  {
    hide Find, Dec, IntText, Channels, PairText, Session.ExtractPath, Session.ClientPort, At;
    NamesStartOnce();
    FindSpec(req.headers[TRANSPORT], INTERLEAVED, 0);
    ClientPortRead(prefix, a, b, rest);
    NameIsThere(prefix, CLIENT_PORT, a, b, rest);
    if env.udpPorts.Some? {
      var (rtp, rtcp) := env.udpPorts.value;
      TwoHeaders(t.sessionId, "RTP/AVP;unicast;" + "server_port=" + IntText(rtp) + "-" + IntText(rtcp));
    }
  }

  /** SETUP with no Transport header, or one that names neither way. */
  lemma NoTransport(t: Session.Terms, req: RtspMessage, env: Session.Env)
    requires req.verb == Setup
    requires TRANSPORT in req.headers ==>
      !Mentions(req.headers[TRANSPORT], INTERLEAVED) && !Mentions(req.headers[TRANSPORT], CLIENT_PORT)
    ensures var r := Session.Reply(t, req, env);
            && Refused(r.response, 461,
                       if TRANSPORT in req.headers then "Unsupported Transport" else "Transport header required")
            && r.terms.transport == t.transport && r.terms.phase == Session.Ready
            && r.terms.rtpChannel == t.rtpChannel && r.terms.rtcpChannel == t.rtcpChannel
  {
    hide Find, Dec, Channels, Session.ExtractPath, Session.ClientPort, At;
    if TRANSPORT in req.headers {
      FindSpec(req.headers[TRANSPORT], INTERLEAVED, 0);
      FindSpec(req.headers[TRANSPORT], CLIENT_PORT, 0);
    }
  }

  // ---------- the other answers ----------

  /** An empty session id is left out of an answer. */
  function WithId(id: Bytes): Headers { if id == [] then map[] else map["Session" := id] }

  /** What every answer says apart from SETUP's. */
  lemma Answers(t: Session.Terms, req: RtspMessage, env: Session.Env)
    ensures var m := Session.Reply(t, req, env).response;
            m.kind == Response && m.version == "RTSP/1.0" && m.cseq == req.cseq
    ensures req.verb == Options ==>
      var m := Session.Reply(t, req, env).response;
      m.status == 200 && m.reason == "OK" && m.body == []
      && m.headers == map["Public" := "OPTIONS, DESCRIBE, SETUP, " + "PLAY, TEARDOWN, GET_PARAMETER",
                          "Session" := t.sessionId]
    ensures req.verb == Play ==>
      var m := Session.Reply(t, req, env).response;
      m.status == 200 && m.reason == "OK" && m.body == []
      && m.headers == map["Session" := t.sessionId, "Range" := "npt=0.000-",
                          "RTP-Info" := "url=" + req.url + ";seq=0;rtptime=0"]
    ensures req.verb in {Teardown, GetParameter} ==>
      var m := Session.Reply(t, req, env).response;
      m.status == 200 && m.reason == "OK" && m.body == [] && m.headers == WithId(t.sessionId)
    ensures req.verb in {NoMethod, Pause, Announce, Record} ==>
      Refused(Session.Reply(t, req, env).response, 461, "Not Implemented")
  {
    hide Session.OnDescribe, Session.OnSetup;
    HeaderNames();
    if req.verb in {Describe, Setup} { ResponseShape(t, req, env); }
  }

  lemma ResponseShape(t: Session.Terms, req: RtspMessage, env: Session.Env)
    ensures var m := Session.OnDescribe(t, req, env).response;
            m.kind == Response && m.version == "RTSP/1.0" && m.cseq == req.cseq
    ensures var m := Session.OnSetup(t, req, env).response;
            m.kind == Response && m.version == "RTSP/1.0" && m.cseq == req.cseq
  {
    hide Find, Dec, IntText, Channels, Session.ExtractPath, Session.ClientPort;
  }

  lemma HeaderNames()
    ensures SESSION == "Session" && PUBLIC == "Public" && RANGE == "Range" && Session.RTP_INFO == "RTP-Info"
    ensures CONTENT_TYPE == "Content-Type" && CONTENT_BASE == "Content-Base" && RTSP_1_0 == "RTSP/1.0"
    ensures |SESSION| == 7 && |PUBLIC| == 6 && |RANGE| == 5 && |Session.RTP_INFO| == 8
    ensures |CONTENT_TYPE| == 12 && |CONTENT_BASE| == 12 && CONTENT_TYPE[8] == 'T' && CONTENT_BASE[8] == 'B'
  {
  }

  /** DESCRIBE takes the path from its URL, and answers with the SDP kept for that path or with 404. */
  lemma DescribeAnswers(t: Session.Terms, req: RtspMessage, env: Session.Env)
    requires req.verb == Describe
    ensures var r, path := Session.Reply(t, req, env), Session.ExtractPath(req.url);
            && r.terms == t.(path := path, phase := Session.Described)
            && if path in env.sdps && env.sdps[path] != [] then
                 && r.response.status == 200 && r.response.reason == "OK" && r.response.body == env.sdps[path]
                 && r.response.headers == WithId(t.sessionId)
                      + map["Content-Type" := "application/sdp", "Content-Base" := req.url + "/"]
               else Refused(r.response, 404, "Stream Not Found")
  {
    hide Session.ExtractPath;
    HeaderNames();
  }

  // ---------- the path ----------

  /** DESCRIBE decides the path, SETUP only where none is known, and nothing else does. */
  lemma PathOf(t: Session.Terms, req: RtspMessage, env: Session.Env)
    ensures var path := Session.Reply(t, req, env).terms.path;
            path == if req.verb == Describe || (req.verb == Setup && t.path == []) then Session.ExtractPath(req.url)
                    else t.path
  {
    hide Find, Dec, IntText, Channels, Session.ExtractPath, Session.ClientPort;
  }

  lemma PathWithoutScheme(url: Bytes)
    requires !Mentions(url, Session.SCHEME_END)
    ensures Session.ExtractPath(url) == url
  {
    hide At;
    FindSpec(url, Session.SCHEME_END, 0);
  }

  /** DESCRIBE for a stream, SETUP for a track of it, PLAY: the session becomes a sink of the stream. */
  lemma TrackSetupPlaysStream(
      s: Session.SessionState, describe: RtspMessage, setup: RtspMessage, play: RtspMessage, env: Session.Env,
      scheme: Bytes, authority: Bytes, path: Bytes)
    requires IsRequest(describe, Describe) && IsRequest(setup, Setup) && IsRequest(play, Play)
    requires Lacks(scheme, ':') && Lacks(authority, '/') && path != [] && path[0] == '/'
    requires describe.url == scheme + Session.SCHEME_END + authority + path
    ensures var s1 := Session.OnRequest(s, describe, env);
            var s2 := Session.OnRequest(s1, setup, env);
            var s3 := Session.OnRequest(s2, play, env);
            s3.terms.path == path && s3.terms.phase == Session.Playing && s3.calls == s.calls + [Session.AddSink(path)]
  {
    hide Session.Reply, Session.ExtractPath;
    Session.PathOfUrl(scheme, authority, path);
    PathOf(s.terms.(cseq := describe.cseq), describe, env);
    var s1 := Session.OnRequest(s, describe, env);
    PathOf(s1.terms.(cseq := setup.cseq), setup, env);
    var s2 := Session.OnRequest(s1, setup, env);
    PathOf(s2.terms.(cseq := play.cseq), play, env);
    PlayPhase(s2.terms.(cseq := play.cseq), play, env);
  }

  /** PLAY changes nothing but the phase; what neither negotiates nor plays changes nothing. */
  lemma PlayPhase(t: Session.Terms, req: RtspMessage, env: Session.Env)
    requires req.verb !in {Describe, Setup}
    ensures Session.Reply(t, req, env).terms == if req.verb == Play then t.(phase := Session.Playing) else t
  {
    hide OptionsResponse, PlayResponse, TeardownResponse, OkResponse, ErrorResponse, Session.RtpInfo, WithHeader,
         Session.OnDescribe, Session.OnSetup;
  }

  // ---------- the channel in a whole run ----------

  /** The player never negotiates its transport again. */
  predicate NoMoreSetup(steps: seq<EndToEnd.Step>) {
    forall i :: 0 <= i < |steps| && steps[i].Ask? ==> steps[i].req.verb != Setup
  }

  predicate OnChannel(f: EndToEnd.Flow, c: Octet) {
    f.me in f.world.sessions && f.world.sessions[f.me].terms.rtpChannel == c
  }

  lemma RequestKeepsChannel(s: Session.SessionState, req: RtspMessage, env: Session.Env)
    requires req.verb != Setup
    ensures Session.OnRequest(s, req, env).terms.rtpChannel == s.terms.rtpChannel
  {
    hide Session.ExtractPath, Session.RtpInfo, OptionsResponse, DescribeResponse, PlayResponse, TeardownResponse,
         OkResponse, ErrorResponse, WithHeader;
  }

  lemma TableKeepsChannel(f: EndToEnd.Flow, s: Relay.Step, c: Octet)
    requires Relay.Enabled(f.world, s) && OnChannel(f, c) && !(s.Ask? && s.id == f.me)
    ensures OnChannel(EndToEnd.Tabled(f, s), c)
  {
    hide Session.OnRequest, Relay.PushAll, Relay.Obey, EndToEnd.Pairs;
    if s.Push? && s.path in f.world.sinks {
      Relay.PushKeepsTerms(f.world.sessions, f.world.sinks[s.path], s.data, s.down);
    }
  }

  lemma StepKeepsChannel(f: EndToEnd.Flow, step: EndToEnd.Step, c: Octet)
    requires EndToEnd.Enabled(f, step) && OnChannel(f, c) && (step.Ask? ==> step.req.verb != Setup)
    ensures OnChannel(EndToEnd.Next(f, step), c)
  {
    hide Session.OnRequest, EndToEnd.Tabled, NextItem, Source.OnEvent, Source.Next, Session.Reply, Serialize, Relay.Obey;
    match step {
      case TakeItem(down) =>
        EndToEnd.ItemTaken(f, down);
        var Item(event, size) := NextItem(f.inbox);
        var g := f.(inbox := f.inbox[size..], source := Source.OnEvent(f.source, event));
        if event.Frame? { TableKeepsChannel(g, Relay.Push(f.path, event.payload, down), c); }
      case Table(s) => TableKeepsChannel(f, s, c);
      case Ask(req, env, _, _) => RequestKeepsChannel(f.world.sessions[f.me], req, env);
      case _ =>
    }
  }

  lemma OwedOnChannel(f: EndToEnd.Flow, step: EndToEnd.Step, c: Octet)
    requires OnChannel(f, c)
    ensures forall i :: 0 <= i < |EndToEnd.Owed(f, step)| ==>
      EndToEnd.Owed(f, step)[i].Frame? ==> EndToEnd.Owed(f, step)[i].channel == c
  {
    hide NextItem, EndToEnd.Answer;
  }

  /** As long as the player does not ask for another transport, every packet it is owed is on its channel. */
  lemma {:induction false} FramesOnChannel(f: EndToEnd.Flow, steps: seq<EndToEnd.Step>, c: Octet, i: nat)
    requires EndToEnd.Possible(f, steps) && OnChannel(f, c) && NoMoreSetup(steps)
    requires i < |EndToEnd.OwedIn(f, steps)| && EndToEnd.OwedIn(f, steps)[i].Frame?
    ensures EndToEnd.OwedIn(f, steps)[i].channel == c
    decreases steps
  {
    hide EndToEnd.Next, EndToEnd.Enabled, EndToEnd.Owed, OnChannel;
    var own := EndToEnd.Owed(f, steps[0]);
    if i < |own| {
      OwedOnChannel(f, steps[0], c);
      assert own[i].Frame?;
    } else {
      StepKeepsChannel(f, steps[0], c);
      FramesOnChannel(EndToEnd.Next(f, steps[0]), steps[1..], c, i - |own|);
    }
  }

  /** So whatever channel a player asked for in its SETUP is the one all its packets come on. */
  lemma PacketsOnChannelAskedFor(
      f: EndToEnd.Flow, setup: EndToEnd.Step, steps: seq<EndToEnd.Step>,
      prefix: Bytes, a: Octet, b: Octet, rest: Bytes, i: nat)
    requires setup.Ask? && setup.req.verb == Setup && TRANSPORT in setup.req.headers
    requires !Mentions(prefix, INTERLEAVED) && (rest == [] || !IsDigit(rest[0]))
    requires setup.req.headers[TRANSPORT] == PairText(prefix, INTERLEAVED, a, b, rest)
    requires EndToEnd.Enabled(f, setup) && EndToEnd.Possible(EndToEnd.Next(f, setup), steps) && NoMoreSetup(steps)
    requires var owed := EndToEnd.OwedIn(EndToEnd.Next(f, setup), steps); i < |owed| && owed[i].Frame?
    ensures EndToEnd.OwedIn(EndToEnd.Next(f, setup), steps)[i].channel == a
  {
    hide Session.Reply, Serialize, Dec, PairText, SetupAnswer, EndToEnd.OwedIn, EndToEnd.Possible, Relay.Obey;
    var s := f.world.sessions[f.me];
    ChannelsAskedFor(s.terms.(cseq := setup.req.cseq), setup.req, setup.env, prefix, a, b, rest);
    assert OnChannel(EndToEnd.Next(f, setup), a);
    FramesOnChannel(EndToEnd.Next(f, setup), steps, a, i);
  }
}
