/** Two relays in a chain: one source talking to one session over a byte stream each way, from
    connecting to playing, with packets, refusals, lost connections and retries. */
module Handshake {
  import opened Text
  import opened RtspProtocol
  import opened RtspBuilders
  import opened CodecLaws
  import opened Framing
  import opened Deliverable
  import Source
  import Session

  // ---------- a byte pipe and the items in it ----------

  /** One direction of a connection: bytes in the receiver's buffer, bytes under way, and the items
      those bytes encode. */
  datatype Pipe = Pipe(items: seq<Outgoing>, buffer: Bytes, wire: Bytes)

  const EMPTY := Pipe([], [], [])

  ghost predicate PipeOk(p: Pipe) {
    AllSendable(p.items) && p.buffer + p.wire == EncodeAll(p.items)
  }

  function Put(p: Pipe, items: seq<Outgoing>): Pipe {
    Pipe(p.items + items, p.buffer, p.wire + EncodeAll(items))
  }

  /** A chunk of `n` bytes arrives and the receiver drains. */
  function Arrived(p: Pipe, n: nat): Drained
    requires n <= |p.wire|
  {
    Drain(p.buffer + p.wire[..n])
  }

  function Taken(p: Pipe, n: nat): Pipe
    requires n <= |p.wire|
  {
    var d := Arrived(p, n);
    Pipe(if |d.events| <= |p.items| then p.items[|d.events|..] else [], d.rest, p.wire[n..])
  }

  lemma PutOk(p: Pipe, items: seq<Outgoing>)
    requires PipeOk(p) && AllSendable(items)
    ensures PipeOk(Put(p, items))
  {
    hide Sendable, Encode;
    EncodeAppend(p.items, items);
    assert p.buffer + (p.wire + EncodeAll(items)) == p.buffer + p.wire + EncodeAll(items);
  }

  /** However the bytes are cut, the receiver gets the items at the front, whole and in order, and
      the rest stays in the pipe. */
  lemma ArrivedItems(p: Pipe, n: nat)
    requires PipeOk(p) && n <= |p.wire|
    ensures |Arrived(p, n).events| <= |p.items|
    ensures Arrived(p, n).events == EventsOf(p.items[..|Arrived(p, n).events|])
    ensures PipeOk(Taken(p, n)) && Taken(p, n).items == p.items[|Arrived(p, n).events|..]
    ensures n == |p.wire| ==> Taken(p, n).items == []
  {
    hide Sendable, Encode, EventOf, NextItem, Drain;
    var m := |p.buffer| + n;
    var sent := EncodeAll(p.items);
    assert sent[..m] == p.buffer + p.wire[..n] && sent[m..] == p.wire[n..];
    var k := PrefixDecoding(p.items, m);
    EncodeAppend(p.items[..k], p.items[k..]);
    assert p.items[..k] + p.items[k..] == p.items;
    RestOfStream(sent, m, EncodeAll(p.items[..k]), Drain(sent[..m]).rest, EncodeAll(p.items[k..]));
  }

  lemma RestOfStream(all: Bytes, m: nat, front: Bytes, rest: Bytes, back: Bytes)
    requires m <= |all| && all == front + back && all[..m] == front + rest
    ensures rest + all[m..] == back
  {
    assert all == front + (rest + all[m..]);
    assert back == all[|front|..];
  }

  // ---------- the joint machine ----------

  /** An established connection; `served` is the SDP the server returned last. */
  datatype Link = Link(session: Session.SessionState, up: Pipe, down: Pipe, served: Bytes)

  datatype Joint = Joint(source: Source.SourceState, link: Option<Link>)

  /** The order in which each message's headers leave the hash map. */
  type Order = RtspMessage -> seq<Bytes>

  ghost predicate Orders(ord: Order) { forall m :: Enumerates(ord(m), m.headers) }

  datatype Step =
    | Connect(id: Bytes, ord: Order)
    | ChunkUp(n: nat, env: Session.Env, ord: Order)
    | ChunkDown(n: nat, ord: Order)
    | Packet(data: Bytes)
    | Lost
    | Alarm(alarm: Source.Alarm)

  ghost predicate Enabled(j: Joint, step: Step) {
    match step
    case Connect(id, ord) => j.source.life.hasClient && GoodId(id) && Orders(ord)
    case ChunkUp(n, env, ord) =>
      && j.link.Some? && n <= |j.link.value.up.wire| && Orders(ord)
      && forall p :: p in env.sdps ==> |env.sdps[p]| < TWO_63
    case ChunkDown(n, ord) => j.link.Some? && n <= |j.link.value.down.wire| && Orders(ord)
    case Packet(data) => j.link.Some? && |data| <= 65535
    case Lost => j.link.Some?
    case Alarm(alarm) => alarm in j.source.life.alarms
  }

  function Requests(ms: seq<RtspMessage>, ord: Order): seq<Outgoing> {
    seq(|ms|, i requires 0 <= i < |ms| => OutMessage(ms[i], ord(ms[i])))
  }

  function Responses(sends: seq<Session.Send>, ord: Order): seq<Outgoing> {
    if sends == [] then []
    else (if sends[0].Text? then [OutMessage(sends[0].msg, ord(sends[0].msg))] else []) + Responses(sends[1..], ord)
  }

  function NewSends(before: Session.SessionState, after: Session.SessionState): seq<Session.Send> {
    var n := |before.output.sends|;
    if n <= |after.output.sends| then after.output.sends[n..] else []
  }

  function NewRequests(before: Source.SourceState, after: Source.SourceState): seq<RtspMessage> {
    var n := |before.shake.sent|;
    if n <= |after.shake.sent| then after.shake.sent[n..] else []
  }

  /** The SDP of the first response that carries one, else what was served before. */
  function Served(items: seq<Outgoing>, before: Bytes): Bytes {
    if items == [] then before
    else if items[0].OutMessage? && items[0].msg.sdp != [] then items[0].msg.sdp
    else Served(items[1..], before)
  }

  function OnConnect(j: Joint, id: Bytes, ord: Order): Joint {
    var source := Source.OnConnect(j.source);
    Joint(source, Some(Link(Session.Initial(id), Put(EMPTY, Requests(NewRequests(j.source, source), ord)), EMPTY, [])))
  }

  function OnUp(k: Link, n: nat, env: Session.Env, ord: Order): Link
    requires n <= |k.up.wire|
  {
    var session := Session.OnEvents(k.session, Arrived(k.up, n).events, env);
    var items := Responses(NewSends(k.session, session), ord);
    Link(session, Taken(k.up, n), Put(k.down, items), Served(items, k.served))
  }

  function OnDown(j: Joint, n: nat, ord: Order): Joint
    requires j.link.Some? && n <= |j.link.value.down.wire|
  {
    var k := j.link.value;
    var source := Source.OnEvents(j.source, Arrived(k.down, n).events);
    Joint(source, Some(k.(down := Taken(k.down, n), up := Put(k.up, Requests(NewRequests(j.source, source), ord)))))
  }

  /** A packet of the stream: it reaches the pipe when the session plays over TCP. */
  function OnPacket(k: Link, data: Bytes): Link {
    var session := Session.OnRtpData(k.session, data, true);
    k.(session := session,
       down := if Session.Streaming(k.session.terms) then Put(k.down, [OutFrame(k.session.terms.rtpChannel, data)])
               else k.down)
  }

  ghost function Next(j: Joint, step: Step): Joint
    requires Enabled(j, step)
  {
    match step
    case Connect(id, ord) => OnConnect(j, id, ord)
    case ChunkUp(n, env, ord) => j.(link := Some(OnUp(j.link.value, n, env, ord)))
    case ChunkDown(n, ord) => OnDown(j, n, ord)
    case Packet(data) => j.(link := Some(OnPacket(j.link.value, data)))
    case Lost => Joint(Source.OnClose(j.source), None)
    case Alarm(alarm) => Joint(Source.OnAlarm(j.source, alarm), None)
  }

  // ---------- the joint invariant ----------

  predicate Only(items: seq<Outgoing>, m: RtspMessage) {
    |items| == 1 && items[0].OutMessage? && items[0].msg == m
  }

  function OptionsReply(id: Bytes): RtspMessage { WithHeader(OptionsResponse(1), SESSION, id) }

  function DescribeReply(url: Bytes, id: Bytes, sdp: Bytes): RtspMessage {
    WithHeader(DescribeResponse(2, sdp, id), CONTENT_BASE, url + Session.SLASH)
  }

  function Refusal(): RtspMessage { ErrorResponse(2, 404, "Stream Not Found") }

  function SetupReply(id: Bytes): RtspMessage {
    WithHeader(SetupResponse(3, id, 0, 0), TRANSPORT, InterleavedText(0, 1))
  }

  function PlayReply(url: Bytes, id: Bytes): RtspMessage {
    WithHeader(PlayResponse(4, id), Session.RTP_INFO, Session.RtpInfo(url))
  }

  /** Packets, and at most replies to PLAY. */
  ghost predicate PlayItems(items: seq<Outgoing>, url: Bytes, id: Bytes) {
    forall i :: 0 <= i < |items| ==> items[i].OutFrame? || items[i].msg == PlayReply(url, id)
  }

  /** The SETUP of this source has been accepted: both sides hold the pair 0-1, over TCP. */
  predicate Agreed(t: Session.Terms) {
    t.transport == Session.Tcp && t.rtpChannel == 0 && t.rtcpChannel == 1
  }

  /** Which one message is under way in each phase of the source, and what the session knows by then. */
  ghost predicate Stage(h: Source.Shake, k: Link) {
    var id, t, up, down := k.session.terms.sessionId, k.session.terms, k.up.items, k.down.items;
    match h.phase
    case AwaitOptions =>
      && t.phase == Session.Fresh
      && ((Only(up, OptionsRequest(h.url, 1)) && down == []) || (up == [] && Only(down, OptionsReply(id))))
    case AwaitDescribe =>
      && h.sessionId == id
      && ((Only(up, DescribeRequest(h.url, 2)) && down == [] && t.phase == Session.Fresh)
          || (up == [] && t.phase == Session.Described && k.served != [] && Only(down, DescribeReply(h.url, id, k.served)))
          || (up == [] && t.phase == Session.Described && (down == [] || Only(down, Refusal()))))
    case AwaitSetup =>
      && h.sessionId == id && h.sdp == k.served != []
      && ((Only(up, Source.SourceSetup(h.url, 3, id)) && down == [] && t.phase == Session.Described)
          || (up == [] && t.phase == Session.Ready && Agreed(t) && Only(down, SetupReply(id))))
    case Playing =>
      && h.sessionId == id && h.sdp == k.served != [] && Agreed(t) && h.rtpChannel == 0 && h.rtcpChannel == 1
      && ((Only(up, PlayRequest(h.url, 4, id)) && down == [] && t.phase == Session.Ready)
          || (up == [] && t.phase == Session.Playing && PlayItems(down, h.url, id)))
    case _ => false
  }

  /** Nothing is under way in either direction. */
  predicate Idle(k: Link) { k.up.items == [] && k.down.items == [] }

  ghost predicate LinkInv(h: Source.Shake, k: Link) {
    && GoodUrl(h.url) && GoodId(k.session.terms.sessionId)
    && PipeOk(k.up) && PipeOk(k.down) && Stage(h, k)
  }

  ghost predicate Inv(j: Joint) {
    && Source.Inv(j.source) && GoodUrl(j.source.shake.url)
    && (if j.link.Some? then LinkInv(j.source.shake, j.link.value) else !Source.Negotiating(j.source.shake))
  }

  // ---------- what arrives ----------

  lemma ReceivedStart(m: RtspMessage)
    ensures var r := Received(m); r.cseq == m.cseq
    ensures m.kind == MessageKind.Request ==>
      Received(m).kind == MessageKind.Request && Received(m).verb == m.verb && Received(m).url == m.url
    ensures m.kind == Response ==> Received(m).kind == Response && Received(m).status == m.status
  {
    hide WireHeaders, UpToSemicolon, Find;
  }

  lemma ReceivedHeader(m: RtspMessage, key: Bytes)
    requires key in m.headers && key != CSEQ && key != CONTENT_LENGTH
    ensures key in Received(m).headers && Received(m).headers[key] == m.headers[key]
    ensures key == SESSION ==> Received(m).sessionId == UpToSemicolon(m.headers[key])
  {
    hide UpToSemicolon, Find, Dec;
  }

  lemma ReceivedSdp(m: RtspMessage)
    requires m.body != [] && CONTENT_TYPE in m.headers && m.headers[CONTENT_TYPE] == APPLICATION_SDP
    ensures Received(m).sdp == m.body
  {
    hide UpToSemicolon, Find, Dec;
    Sizes();
    SdpFound();
  }

  lemma SdpFound()
    ensures Find(APPLICATION_SDP, SDP, 0) >= 0
  {
    assert APPLICATION_SDP[12..15] == SDP;
    assert At(APPLICATION_SDP, SDP, 12);
    FindSpec(APPLICATION_SDP, SDP, 0);
  }

  /** The replies of the handshake, as the source reads them. */
  lemma RepliesRead(url: Bytes, id: Bytes, sdp: Bytes)
    requires GoodId(id)
    ensures var r := Received(OptionsReply(id)); r.status == 200 && r.sessionId == id
    ensures var r := Received(DescribeReply(url, id, sdp));
            r.status == 200 && r.sessionId == id && (sdp != [] ==> r.sdp == sdp)
    ensures var r := Received(SetupReply(id));
            r.status == 200 && r.sessionId == id && TRANSPORT in r.headers && r.headers[TRANSPORT] == InterleavedText(0, 1)
    ensures var r := Received(PlayReply(url, id)); r.status == 200 && r.sessionId == id
    ensures Received(Refusal()).status == 404
  {
    hide Received, InterleavedText, IntText, UpToSemicolon, Session.RtpInfo;
    Sizes();
    IdOk(id);
    ReceivedStart(OptionsReply(id));
    ReceivedHeader(OptionsReply(id), SESSION);
    ReceivedStart(DescribeReply(url, id, sdp));
    ReceivedHeader(DescribeReply(url, id, sdp), SESSION);
    if sdp != [] { ReceivedSdp(DescribeReply(url, id, sdp)); }
    ReceivedStart(SetupReply(id));
    ReceivedHeader(SetupReply(id), SESSION);
    ReceivedHeader(SetupReply(id), TRANSPORT);
    ReceivedStart(PlayReply(url, id));
    ReceivedHeader(PlayReply(url, id), SESSION);
    ReceivedStart(Refusal());
  }

  lemma RepliesGood(url: Bytes, id: Bytes, sdp: Bytes)
    requires GoodUrl(url) && GoodId(id) && 0 < |sdp| < TWO_63
    ensures Good(OptionsReply(id)) && Good(DescribeReply(url, id, sdp)) && Good(Refusal())
    ensures Good(SetupReply(id)) && Good(PlayReply(url, id))
  {
    hide Good, GoodUrl, GoodId, InterleavedText;
    OptionsGood(1, id);
    DescribeGood(2, sdp, id, url);
    ReasonsOk();
    ErrorGood(2, 404, "Stream Not Found");
    Sizes();
    SetupResponseGood(3, id, 0, 0);
    InterleavedOk(0, 1);
    HeaderGood(SetupResponse(3, id, 0, 0), TRANSPORT, InterleavedText(0, 1));
    PlayGood(4, id, url);
  }

  // ---------- the session's side of a step ----------

  /** The session answers the one request `m` that arrived. */
  lemma OneRequest(k: Link, n: nat, env: Session.Env, ord: Order, m: RtspMessage)
    requires PipeOk(k.up) && n <= |k.up.wire| && Only(k.up.items, m) && |Arrived(k.up, n).events| == 1
    requires m.kind == MessageKind.Request && m.verb != Teardown
    ensures var a := Session.Reply(k.session.terms.(cseq := m.cseq), Received(m), env);
            var k' := OnUp(k, n, env, ord);
            && k'.session.terms == a.terms && k'.up.items == [] && PipeOk(k'.up)
            && k'.down == Put(k.down, [OutMessage(a.response, ord(a.response))])
            && k'.served == if a.response.sdp != [] then a.response.sdp else k.served
  {
    hide Received, Session.Reply, NextItem, Encode, Sendable;
    ArrivedItems(k.up, n);
    var r := Received(m);
    ReceivedStart(m);
    assert k.up.items[..1] == k.up.items;
    assert Arrived(k.up, n).events == [Message(r)];
    assert Session.OnEvents(k.session, [Message(r)], env) == Session.OnRequest(k.session, r, env) by {
      assert [Message(r)][1..] == [];
    }
    var resp := Session.Reply(k.session.terms.(cseq := m.cseq), r, env).response;
    Session.RequestSends(k.session, r, env);
    assert NewSends(k.session, Session.OnRequest(k.session, r, env)) == [Session.Text(resp)];
    OneResponse(resp, ord);
    assert Served([OutMessage(resp, ord(resp))], k.served) == if resp.sdp != [] then resp.sdp else k.served by {
      assert [OutMessage(resp, ord(resp))][1..] == [];
    }
  }

  lemma OneResponse(resp: RtspMessage, ord: Order)
    ensures Responses([Session.Text(resp)], ord) == [OutMessage(resp, ord(resp))]
  {
    assert [Session.Text(resp)][1..] == [];
  }

  lemma NothingUp(k: Link, n: nat, env: Session.Env, ord: Order)
    requires PipeOk(k.up) && n <= |k.up.wire| && Arrived(k.up, n).events == []
    ensures OnUp(k, n, env, ord) == k.(up := Taken(k.up, n))
    ensures PipeOk(Taken(k.up, n)) && Taken(k.up, n).items == k.up.items
  {
    hide NextItem, Encode, Sendable;
    ArrivedItems(k.up, n);
    assert NewSends(k.session, k.session) == [];
    assert Put(k.down, []) == k.down;
  }

  lemma PutOne(p: Pipe, m: RtspMessage, ord: Order)
    requires PipeOk(p) && Good(m) && Orders(ord)
    ensures PipeOk(Put(p, [OutMessage(m, ord(m))]))
    ensures p.items == [] ==> Only(Put(p, [OutMessage(m, ord(m))]).items, m)
  {
    hide WellFormed, Representable, Encode;
    assert Sendable(OutMessage(m, ord(m)));
    PutOk(p, [OutMessage(m, ord(m))]);
  }

  lemma SessionReplies(t: Session.Terms, m: RtspMessage, env: Session.Env)
    requires m.kind == MessageKind.Request
    ensures var a := Session.Reply(t.(cseq := m.cseq), Received(m), env); a.terms.sessionId == t.sessionId
    ensures m.verb == Options && m.cseq == 1 ==>
      Session.Reply(t.(cseq := 1), Received(m), env) == Session.Answer(t.(cseq := 1), OptionsReply(t.sessionId))
    ensures m.verb == Play && m.cseq == 4 ==>
      Session.Reply(t.(cseq := 4), Received(m), env)
        == Session.Answer(t.(cseq := 4, phase := Session.Playing), PlayReply(m.url, t.sessionId))
  {
    hide Received, OptionsResponse, PlayResponse, Session.OnDescribe, Session.OnSetup, WithHeader, Session.RtpInfo;
    ReceivedStart(m);
    KeepsId(t.(cseq := m.cseq), Received(m), env);
  }

  lemma KeepsId(t: Session.Terms, r: RtspMessage, env: Session.Env)
    ensures Session.OnDescribe(t, r, env).terms.sessionId == t.sessionId
    ensures Session.OnSetup(t, r, env).terms.sessionId == t.sessionId
  {
    hide Find, Channels, Session.ExtractPath, Session.ClientPort, InterleavedText, IntText, DescribeResponse, SetupResponse;
  }

  /** The answer to DESCRIBE: the stream's SDP when there is one, else the refusal. */
  function DescribeAnswer(url: Bytes, id: Bytes, env: Session.Env): RtspMessage {
    var sdp := Session.SdpOf(env, Session.ExtractPath(url));
    if sdp == [] then Refusal() else DescribeReply(url, id, sdp)
  }

  lemma DescribeReplies(t: Session.Terms, url: Bytes, env: Session.Env)
    ensures var a := Session.Reply(t.(cseq := 2), Received(DescribeRequest(url, 2)), env);
            a.terms.phase == Session.Described && a.response == DescribeAnswer(url, t.sessionId, env)
  {
    hide Received, Session.ExtractPath, DescribeResponse, WithHeader;
    ReceivedStart(DescribeRequest(url, 2));
  }

  lemma SetupReplies(t: Session.Terms, url: Bytes, id: Bytes, env: Session.Env)
    requires GoodUrl(url) && GoodId(id) && t.sessionId == id
    ensures var a := Session.Reply(t.(cseq := 3), Received(Source.SourceSetup(url, 3, id)), env);
            && a.terms.phase == Session.Ready && a.response == SetupReply(id) && a.terms.sessionId == id
            && a.terms.transport == Session.Tcp && a.terms.rtpChannel == 0 && a.terms.rtcpChannel == 1
  {
    hide Received, Find, Channels, Session.ExtractPath, InterleavedText, IntText, Source.SourceSetup, SetupResponse,
         WithHeader;
    var m := Source.SourceSetup(url, 3, id);
    IdOk(id);
    SourceSetupGood(url, 3, id);
    Source.RequestShapes(url, 3, id);
    Sizes();
    SetupHasTransport(url, id);
    ReceivedStart(m);
    ReceivedHeader(m, TRANSPORT);
    ChannelsRoundTrip(0, 1);
    ChannelsFound(InterleavedText(0, 1));
  }

  lemma SetupHasTransport(url: Bytes, id: Bytes)
    ensures TRANSPORT in Source.SourceSetup(url, 3, id).headers
  {
    hide InterleavedText, IntText;
  }

  lemma ChannelsFound(tp: Bytes)
    requires Channels(tp).Some?
    ensures Find(tp, INTERLEAVED, 0) >= 0
  {
    hide Find, OctetAt;
  }

  lemma UpStep(h: Source.Shake, k: Link, n: nat, env: Session.Env, ord: Order)
    requires LinkInv(h, k) && n <= |k.up.wire| && Orders(ord)
    requires forall p :: p in env.sdps ==> |env.sdps[p]| < TWO_63
    ensures LinkInv(h, OnUp(k, n, env, ord))
  {
    hide PipeOk, Received, Session.Reply, GoodUrl, GoodId, OnUp, Taken, Put, Arrived, OptionsReply, DescribeReply,
         SetupReply, PlayReply, Refusal, OptionsRequest, DescribeRequest, PlayRequest, Source.SourceSetup, Good;
    ArrivedItems(k.up, n);
    var id, t := k.session.terms.sessionId, k.session.terms;
    if Arrived(k.up, n).events == [] {
      NothingUp(k, n, env, ord);
    } else {
      Source.RequestShapes(h.url, h.cseq, id);
      match h.phase {
        case AwaitOptions => UpOptions(h, k, n, env, ord);
        case AwaitDescribe => UpDescribe(h, k, n, env, ord);
        case AwaitSetup => UpSetup(h, k, n, env, ord);
        case Playing => UpPlay(h, k, n, env, ord);
        case _ =>
      }
    }
  }

  lemma UpOptions(h: Source.Shake, k: Link, n: nat, env: Session.Env, ord: Order)
    requires LinkInv(h, k) && n <= |k.up.wire| && Orders(ord) && Arrived(k.up, n).events != []
    requires h.phase == Source.AwaitOptions
    ensures LinkInv(h, OnUp(k, n, env, ord))
  {
    hide PipeOk, Received, Session.Reply, GoodUrl, GoodId, OnUp, Taken, Arrived, OptionsReply, OptionsRequest, Good, Put;
    ArrivedItems(k.up, n);
    var m := OptionsRequest(h.url, 1);
    Source.RequestShapes(h.url, 1, []);
    OneRequest(k, n, env, ord, m);
    SessionReplies(k.session.terms, m, env);
    RepliesGood(h.url, k.session.terms.sessionId, "x");
    NoSdp(h.url, k.session.terms.sessionId);
    PutOne(k.down, OptionsReply(k.session.terms.sessionId), ord);
  }

  lemma NoSdp(url: Bytes, id: Bytes)
    ensures OptionsReply(id).sdp == [] && SetupReply(id).sdp == [] && PlayReply(url, id).sdp == [] && Refusal().sdp == []
    ensures forall sdp :: DescribeReply(url, id, sdp).sdp == sdp
  {
    hide InterleavedText, IntText, Session.RtpInfo;
  }

  lemma UpDescribe(h: Source.Shake, k: Link, n: nat, env: Session.Env, ord: Order)
    requires LinkInv(h, k) && n <= |k.up.wire| && Orders(ord) && Arrived(k.up, n).events != []
    requires h.phase == Source.AwaitDescribe
    requires forall p :: p in env.sdps ==> |env.sdps[p]| < TWO_63
    ensures LinkInv(h, OnUp(k, n, env, ord))
    ensures Only(OnUp(k, n, env, ord).down.items, DescribeAnswer(h.url, k.session.terms.sessionId, env))
    ensures var sdp := Session.SdpOf(env, Session.ExtractPath(h.url)); sdp != [] ==> OnUp(k, n, env, ord).served == sdp
  {
    hide PipeOk, Received, Session.Reply, GoodUrl, GoodId, OnUp, Taken, Arrived, DescribeReply, DescribeRequest, Refusal,
         Good, Put, Session.ExtractPath;
    ArrivedItems(k.up, n);
    var m := DescribeRequest(h.url, 2);
    var id := k.session.terms.sessionId;
    Source.RequestShapes(h.url, 2, []);
    OneRequest(k, n, env, ord, m);
    SessionReplies(k.session.terms, m, env);
    DescribeReplies(k.session.terms, h.url, env);
    NoSdp(h.url, id);
    var sdp := Session.SdpOf(env, Session.ExtractPath(h.url));
    RepliesGood(h.url, id, if sdp == [] then "x" else sdp);
    PutOne(k.down, DescribeAnswer(h.url, id, env), ord);
  }

  lemma UpSetup(h: Source.Shake, k: Link, n: nat, env: Session.Env, ord: Order)
    requires LinkInv(h, k) && n <= |k.up.wire| && Orders(ord) && Arrived(k.up, n).events != []
    requires h.phase == Source.AwaitSetup
    ensures LinkInv(h, OnUp(k, n, env, ord))
  {
    hide PipeOk, Received, Session.Reply, GoodUrl, GoodId, OnUp, Taken, Arrived, SetupReply, Source.SourceSetup, Good, Put;
    ArrivedItems(k.up, n);
    var id := k.session.terms.sessionId;
    var m := Source.SourceSetup(h.url, 3, id);
    Source.RequestShapes(h.url, 3, id);
    OneRequest(k, n, env, ord, m);
    SetupReplies(k.session.terms, h.url, id, env);
    RepliesGood(h.url, id, "x");
    NoSdp(h.url, id);
    PutOne(k.down, SetupReply(id), ord);
  }

  lemma UpPlay(h: Source.Shake, k: Link, n: nat, env: Session.Env, ord: Order)
    requires LinkInv(h, k) && n <= |k.up.wire| && Orders(ord) && Arrived(k.up, n).events != []
    requires h.phase == Source.Playing
    ensures LinkInv(h, OnUp(k, n, env, ord))
  {
    hide PipeOk, Received, Session.Reply, GoodUrl, GoodId, OnUp, Taken, Arrived, PlayReply, PlayRequest, Good, Put;
    ArrivedItems(k.up, n);
    var id := k.session.terms.sessionId;
    var m := PlayRequest(h.url, 4, id);
    Source.RequestShapes(h.url, 4, id);
    OneRequest(k, n, env, ord, m);
    SessionReplies(k.session.terms, m, env);
    RepliesGood(h.url, id, "x");
    NoSdp(h.url, id);
    PutOne(k.down, PlayReply(h.url, id), ord);
  }

  // ---------- the source's side of a step ----------

  lemma {:induction false} EventsKeepSourceInv(s: Source.SourceState, evs: seq<Event>)
    requires Source.Inv(s)
    ensures Source.Inv(Source.OnEvents(s, evs)) && Source.OnEvents(s, evs).shake.url == s.shake.url
    decreases evs
  {
    hide Source.Inv, Source.Advance;
    if evs != [] {
      Source.StepKeepsInv(s, Source.Received(evs[0]));
      UrlStays(s, evs[0]);
      EventsKeepSourceInv(Source.OnEvent(s, evs[0]), evs[1..]);
    }
  }

  lemma UrlStays(s: Source.SourceState, ev: Event)
    ensures Source.OnEvent(s, ev).shake.url == s.shake.url
  {
    hide Channels, OptionsRequest, DescribeRequest, Source.SourceSetup, PlayRequest;
  }

  /** Packets and replies to PLAY leave a playing source's negotiation as it is. */
  lemma {:induction false} PlayingStays(s: Source.SourceState, items: seq<Outgoing>, id: Bytes)
    requires s.shake.phase == Source.Playing && s.shake.sessionId == id && GoodId(id)
    requires PlayItems(items, s.shake.url, id)
    ensures Source.OnEvents(s, EventsOf(items)).shake == s.shake
    decreases items
  {
    hide Received, GoodId, PlayReply;
    if items != [] {
      var evs := EventsOf(items);
      RepliesRead(s.shake.url, id, []);
      assert evs[1..] == EventsOf(items[1..]);
      assert Source.OnEvent(s, evs[0]).shake == s.shake;
      PlayingStays(Source.OnEvent(s, evs[0]), items[1..], id);
    }
  }

  /** The source reads the one reply `m` that arrived. */
  lemma OneReply(j: Joint, n: nat, ord: Order, m: RtspMessage)
    requires j.link.Some? && n <= |j.link.value.down.wire|
    requires var k := j.link.value; PipeOk(k.down) && Only(k.down.items, m) && |Arrived(k.down, n).events| == 1
    ensures var j' := OnDown(j, n, ord);
            && j'.source == Source.OnResponse(j.source, Received(m))
            && j'.link.Some? && j'.link.value.down.items == [] && PipeOk(j'.link.value.down)
            && j'.link.value.up == Put(j.link.value.up, Requests(NewRequests(j.source, j'.source), ord))
            && j'.link.value.session == j.link.value.session && j'.link.value.served == j.link.value.served
  {
    hide Received, Source.OnResponse, NextItem, Encode, Sendable, NewRequests;
    var k := j.link.value;
    ArrivedItems(k.down, n);
    assert k.down.items[..1] == k.down.items;
    assert Arrived(k.down, n).events == [Message(Received(m))];
    assert [Message(Received(m))] == [Message(Received(m))] + [];
    Source.StepEvents(j.source, Message(Received(m)), []);
  }

  lemma NothingDown(j: Joint, n: nat, ord: Order)
    requires j.link.Some? && n <= |j.link.value.down.wire| && PipeOk(j.link.value.down)
    requires Source.OnEvents(j.source, Arrived(j.link.value.down, n).events).shake == j.source.shake
    ensures OnDown(j, n, ord).source.shake == j.source.shake
    ensures var k := j.link.value; OnDown(j, n, ord).link == Some(k.(down := Taken(k.down, n)))
    ensures var p := j.link.value.down;
            PipeOk(Taken(p, n)) && |Arrived(p, n).events| <= |p.items|
            && Taken(p, n).items == p.items[|Arrived(p, n).events|..]
  {
    hide NextItem, Encode, Sendable, Source.OnEvents;
    var k := j.link.value;
    ArrivedItems(k.down, n);
    var source := Source.OnEvents(j.source, Arrived(k.down, n).events);
    assert NewRequests(j.source, source) == [];
    assert Put(k.up, Requests([], ord)) == k.up;
  }

  /** The handshake moves on by one: the answer is read and the next request is under way. */
  lemma NextRequest(j: Joint, n: nat, ord: Order, m: RtspMessage, request: RtspMessage)
    requires j.link.Some? && n <= |j.link.value.down.wire| && Orders(ord) && Good(request)
    requires var k := j.link.value;
             PipeOk(k.down) && PipeOk(k.up) && k.up.items == [] && Only(k.down.items, m) && |Arrived(k.down, n).events| == 1
    requires Source.OnResponse(j.source, Received(m)).shake.sent == j.source.shake.sent + [request]
    ensures var j' := OnDown(j, n, ord);
            && j'.source == Source.OnResponse(j.source, Received(m)) && j'.link.Some?
            && var k' := j'.link.value;
               k'.down.items == [] && PipeOk(k'.down) && Only(k'.up.items, request) && PipeOk(k'.up)
               && k'.session == j.link.value.session && k'.served == j.link.value.served
  {
    hide Received, Source.OnResponse, PipeOk, Good, Put, OnDown, Arrived;
    OneReply(j, n, ord, m);
    var source := Source.OnResponse(j.source, Received(m));
    assert NewRequests(j.source, source) == [request];
    assert Requests([request], ord) == [OutMessage(request, ord(request))];
    PutOne(j.link.value.up, request, ord);
  }

  lemma DownStep(j: Joint, n: nat, ord: Order)
    requires Inv(j) && j.link.Some? && n <= |j.link.value.down.wire| && Orders(ord)
    ensures Inv(OnDown(j, n, ord))
  {
    hide PipeOk, Received, Source.Inv, GoodUrl, GoodId, Arrived, OnDown, Source.OnEvents, Stage;
    var k := j.link.value;
    ArrivedItems(k.down, n);
    EventsKeepSourceInv(j.source, Arrived(k.down, n).events);
    assert OnDown(j, n, ord).source == Source.OnEvents(j.source, Arrived(k.down, n).events) by { DownSource(j, n, ord); }
    DownLink(j, n, ord);
  }

  lemma DownSource(j: Joint, n: nat, ord: Order)
    requires j.link.Some? && n <= |j.link.value.down.wire|
    ensures OnDown(j, n, ord).source == Source.OnEvents(j.source, Arrived(j.link.value.down, n).events)
    ensures OnDown(j, n, ord).link.Some?
  {
    hide Source.OnEvents, Arrived, Taken, Put;
  }

  lemma DownLink(j: Joint, n: nat, ord: Order)
    requires Inv(j) && j.link.Some? && n <= |j.link.value.down.wire| && Orders(ord)
    ensures OnDown(j, n, ord).link.Some? && LinkInv(OnDown(j, n, ord).source.shake, OnDown(j, n, ord).link.value)
  {
    hide PipeOk, Received, GoodUrl, GoodId, Arrived, OnDown, Source.OnEvents, Taken, Source.Inv;
    var k := j.link.value;
    ArrivedItems(k.down, n);
    if Arrived(k.down, n).events == [] {
      assert Source.OnEvents(j.source, []).shake == j.source.shake by { NoEvents(j.source); }
      NothingDown(j, n, ord);
      assert k.down.items[0..] == k.down.items;
    } else {
      match j.source.shake.phase {
        case AwaitOptions => DownOptions(j, n, ord);
        case AwaitDescribe => DownDescribe(j, n, ord);
        case AwaitSetup => DownSetup(j, n, ord);
        case Playing => DownPlaying(j, n, ord);
        case _ =>
      }
    }
  }

  lemma NoEvents(s: Source.SourceState)
    ensures Source.OnEvents(s, []) == s
  {
  }

  lemma DownOptions(j: Joint, n: nat, ord: Order)
    requires Inv(j) && j.link.Some? && n <= |j.link.value.down.wire| && Orders(ord)
    requires Arrived(j.link.value.down, n).events != [] && j.source.shake.phase == Source.AwaitOptions
    ensures OnDown(j, n, ord).link.Some? && LinkInv(OnDown(j, n, ord).source.shake, OnDown(j, n, ord).link.value)
    ensures OnDown(j, n, ord).source.shake.phase == Source.AwaitDescribe
    ensures OnDown(j, n, ord).link.value.up.items != []
  {
    hide PipeOk, Received, GoodUrl, GoodId, Arrived, OnDown, OptionsReply, DescribeRequest, OptionsRequest, Good;
    var k, h := j.link.value, j.source.shake;
    var id := k.session.terms.sessionId;
    ArrivedItems(k.down, n);
    RepliesRead(h.url, id, []);
    IdOk(id);
    SourceRequestsGood(h.url, 2, id);
    assert id != [] by { IdNonempty(id); }
    NextRequest(j, n, ord, OptionsReply(id), DescribeRequest(h.url, 2));
  }

  lemma IdNonempty(id: Bytes)
    requires GoodId(id)
    ensures id != []
  {
  }

  lemma DownDescribe(j: Joint, n: nat, ord: Order)
    requires Inv(j) && j.link.Some? && n <= |j.link.value.down.wire| && Orders(ord)
    requires Arrived(j.link.value.down, n).events != [] && j.source.shake.phase == Source.AwaitDescribe
    ensures OnDown(j, n, ord).link.Some? && LinkInv(OnDown(j, n, ord).source.shake, OnDown(j, n, ord).link.value)
    ensures if Only(j.link.value.down.items, Refusal())
            then OnDown(j, n, ord).source.shake.phase == Source.AwaitDescribe && Idle(OnDown(j, n, ord).link.value)
            else OnDown(j, n, ord).source.shake.phase == Source.AwaitSetup
    ensures OnDown(j, n, ord).link.value.served == j.link.value.served
  {
    hide PipeOk, Received, GoodUrl, GoodId, Arrived, OnDown, DescribeReply, Source.SourceSetup, Refusal,
         DescribeRequest, Good;
    var k, h := j.link.value, j.source.shake;
    var id := k.session.terms.sessionId;
    ArrivedItems(k.down, n);
    RepliesRead(h.url, id, k.served);
    assert id != [] by { IdNonempty(id); }
    if Only(k.down.items, Refusal()) {
      OneReply(j, n, ord, Refusal());
      var source := Source.OnResponse(j.source, Received(Refusal()));
      assert source.shake == h;
      assert NewRequests(j.source, source) == [];
      assert Put(k.up, Requests([], ord)) == k.up;
    } else {
      IdOk(id);
      SourceSetupGood(h.url, 3, id);
      NextRequest(j, n, ord, DescribeReply(h.url, id, k.served), Source.SourceSetup(h.url, 3, id));
    }
  }

  lemma DownSetup(j: Joint, n: nat, ord: Order)
    requires Inv(j) && j.link.Some? && n <= |j.link.value.down.wire| && Orders(ord)
    requires Arrived(j.link.value.down, n).events != [] && j.source.shake.phase == Source.AwaitSetup
    ensures OnDown(j, n, ord).link.Some? && LinkInv(OnDown(j, n, ord).source.shake, OnDown(j, n, ord).link.value)
    ensures OnDown(j, n, ord).source.shake.phase == Source.Playing
  {
    hide PipeOk, Received, GoodUrl, GoodId, Arrived, OnDown, SetupReply, Source.SourceSetup, PlayRequest, Channels,
         InterleavedText, Good;
    var k, h := j.link.value, j.source.shake;
    var id := k.session.terms.sessionId;
    ArrivedItems(k.down, n);
    RepliesRead(h.url, id, []);
    ChannelsRoundTrip(0, 1);
    IdOk(id);
    SourceRequestsGood(h.url, 4, id);
    assert id != [] by { IdNonempty(id); }
    NextRequest(j, n, ord, SetupReply(id), PlayRequest(h.url, 4, id));
  }

  lemma DownPlaying(j: Joint, n: nat, ord: Order)
    requires Inv(j) && j.link.Some? && n <= |j.link.value.down.wire| && Orders(ord)
    requires Arrived(j.link.value.down, n).events != [] && j.source.shake.phase == Source.Playing
    ensures OnDown(j, n, ord).link.Some? && LinkInv(OnDown(j, n, ord).source.shake, OnDown(j, n, ord).link.value)
  {
    hide PipeOk, Received, GoodUrl, GoodId, Arrived, OnDown, PlayReply, PlayRequest, Source.OnEvents, Taken;
    var k, h := j.link.value, j.source.shake;
    ArrivedItems(k.down, n);
    PlayingStays(j.source, k.down.items[..|Arrived(k.down, n).events|], k.session.terms.sessionId);
    NothingDown(j, n, ord);
  }

  // ---------- the other steps, and every run ----------

  lemma ConnectStep(j: Joint, id: Bytes, ord: Order)
    requires Inv(j) && j.source.life.hasClient && GoodId(id) && Orders(ord)
    ensures Inv(OnConnect(j, id, ord))
  {
    hide GoodUrl, GoodId, OptionsRequest, Good, FieldOk, UpToSemicolon;
    var source := Source.OnConnect(j.source);
    Source.StepKeepsInv(j.source, Source.Connected);
    var request := OptionsRequest(j.source.shake.url, 1);
    assert NewRequests(j.source, source) == [request];
    assert Requests([request], ord) == [OutMessage(request, ord(request))];
    IdOk(id);
    SourceRequestsGood(j.source.shake.url, 1, id);
    assert PipeOk(EMPTY);
    PutOne(EMPTY, request, ord);
  }

  lemma PacketStep(h: Source.Shake, k: Link, data: Bytes)
    requires LinkInv(h, k) && |data| <= 65535
    ensures LinkInv(h, OnPacket(k, data))
  {
    hide GoodUrl, GoodId, FrameHeader, OptionsReply, DescribeReply, SetupReply, PlayReply, Refusal, OptionsRequest,
         DescribeRequest, Source.SourceSetup, PlayRequest;
    if Session.Streaming(k.session.terms) {
      PutOk(k.down, [OutFrame(k.session.terms.rtpChannel, data)]);
    }
  }

  lemma StepKeepsInv(j: Joint, step: Step)
    requires Inv(j) && Enabled(j, step)
    ensures Inv(Next(j, step))
  {
    hide LinkInv, GoodUrl, OnUp, OnDown, OnConnect, OnPacket;
    match step {
      case Connect(id, ord) => ConnectStep(j, id, ord);
      case ChunkUp(n, env, ord) => hide Source.Inv; UpStep(j.source.shake, j.link.value, n, env, ord);
      case ChunkDown(n, ord) => DownStep(j, n, ord);
      case Packet(data) => hide Source.Inv; PacketStep(j.source.shake, j.link.value, data);
      case Lost => Source.StepKeepsInv(j.source, Source.Closed);
      case Alarm(alarm) => Source.StepKeepsInv(j.source, Source.AlarmStep(alarm));
    }
  }

  ghost predicate Reachable(j: Joint, steps: seq<Step>)
    decreases steps
  {
    steps == [] || (Enabled(j, steps[0]) && Reachable(Next(j, steps[0]), steps[1..]))
  }

  ghost function Run(j: Joint, steps: seq<Step>): Joint
    requires Reachable(j, steps)
    decreases steps
  {
    if steps == [] then j else Run(Next(j, steps[0]), steps[1..])
  }

  lemma {:induction false} RunKeepsInv(j: Joint, steps: seq<Step>)
    requires Inv(j) && Reachable(j, steps)
    ensures Inv(Run(j, steps))
    decreases steps
  {
    hide Inv, Enabled, Next;
    if steps != [] {
      StepKeepsInv(j, steps[0]);
      RunKeepsInv(Next(j, steps[0]), steps[1..]);
    }
  }

  /** While a request is under way nothing else is: it is the one sent last, and no reply has begun. */
  lemma OneInFlight(h: Source.Shake, k: Link)
    requires LinkInv(h, k) && Source.ShakeInv(h)
    ensures |k.up.items| <= 1
    ensures k.up.items != [] ==>
      && k.down.items == [] && k.up.items[0].OutMessage? && h.sent != []
      && Source.IsRequest(k.up.items[0].msg, h.sent[|h.sent| - 1].verb, h.url, h.cseq)
  {
    hide GoodUrl, GoodId, PipeOk, OptionsReply, DescribeReply, SetupReply, PlayReply, Refusal, OptionsRequest,
         DescribeRequest, Source.SourceSetup, PlayRequest;
    Source.RequestShapes(h.url, h.cseq, k.session.terms.sessionId);
  }

  /** What a playing source and its session agree on. */
  ghost predicate Agreement(h: Source.Shake, k: Link) {
    var t := k.session.terms;
    && t.phase in {Session.Ready, Session.Playing} && t.transport == Session.Tcp
    && h.rtpChannel == t.rtpChannel && h.rtcpChannel == t.rtcpChannel
    && h.sessionId == t.sessionId && h.sdp == k.served && h.sdp != []
  }

  lemma PlayingAgrees(j: Joint)
    requires Inv(j) && j.source.shake.phase == Source.Playing
    ensures j.link.Some? && Agreement(j.source.shake, j.link.value)
  {
    hide GoodUrl, GoodId, PipeOk, PlayReply, PlayRequest;
  }

  /** In every run from the first start on, whatever the chunks, refusals, packets, losses and
      retries: the joint invariant holds, at most one request is under way, and once the source
      plays, the session has accepted its SETUP and both agree on channels, session id and SDP. */
  lemma ChainedHandshake(url: Bytes, steps: seq<Step>)
    requires GoodUrl(url)
    requires Reachable(Joint(Source.Start(Source.Initial(url, true)), None), steps)
    ensures var j := Run(Joint(Source.Start(Source.Initial(url, true)), None), steps);
            && Inv(j)
            && (j.link.Some? ==> |j.link.value.up.items| <= 1)
            && (j.source.shake.phase == Source.Playing ==> j.link.Some? && Agreement(j.source.shake, j.link.value))
  {
    hide LinkInv, Reachable, Run, Agreement, GoodUrl;
    var j0 := Joint(Source.Start(Source.Initial(url, true)), None);
    assert Inv(j0);
    RunKeepsInv(j0, steps);
    var j := Run(j0, steps);
    if j.link.Some? { OneInFlight(j.source.shake, j.link.value); }
    if j.source.shake.phase == Source.Playing { PlayingAgrees(j); }
  }

  function Following(p: Source.Phase): Source.Phase {
    match p
    case AwaitOptions => Source.AwaitDescribe
    case AwaitDescribe => Source.AwaitSetup
    case _ => Source.Playing
  }

  lemma AllTaken(p: Pipe)
    requires PipeOk(p)
    ensures |Arrived(p, |p.wire|).events| == |p.items| && Taken(p, |p.wire|).items == []
  {
    hide Arrived, PipeOk, Taken;
    ArrivedItems(p, |p.wire|);
  }

  /** Whether the DESCRIBE under way will be answered, or was answered, with an SDP: the server has one
      for the path when the request arrives, or the reply already under way is not the refusal. */
  predicate Accepted(h: Source.Shake, k: Link, env: Session.Env) {
    if k.up.items != [] then Session.SdpOf(env, Session.ExtractPath(h.url)) != []
    else k.down.items != [] && !Only(k.down.items, Refusal())
  }

  /** The handshake never hangs while bytes are delivered: whatever state it is in, once all bytes
      under way have arrived at the session and then at the source, it is one phase further. Only a
      DESCRIBE can fail to get there, and it does exactly when the server has no SDP for the path; then
      nothing is under way until the retry. */
  lemma ExchangeAdvances(j: Joint, env: Session.Env, ord: Order)
    requires Inv(j) && j.link.Some? && Orders(ord)
    requires j.source.shake.phase in {Source.AwaitOptions, Source.AwaitDescribe, Source.AwaitSetup}
    requires forall p :: p in env.sdps ==> |env.sdps[p]| < TWO_63
    ensures var h, k := j.source.shake, j.link.value;
            var k1 := OnUp(k, |k.up.wire|, env, ord);
            var j2 := OnDown(j.(link := Some(k1)), |k1.down.wire|, ord);
            && Inv(j2) && j2.link.Some?
            && if h.phase == Source.AwaitDescribe && !Accepted(h, k, env)
               then j2.source.shake.phase == Source.AwaitDescribe && Idle(j2.link.value)
               else j2.source.shake.phase == Following(h.phase)
    ensures var h, k := j.source.shake, j.link.value;
            var k1 := OnUp(k, |k.up.wire|, env, ord);
            var sdp := Session.SdpOf(env, Session.ExtractPath(h.url));
            h.phase == Source.AwaitDescribe && k.up.items != [] && sdp != [] ==>
              OnDown(j.(link := Some(k1)), |k1.down.wire|, ord).source.shake.sdp == sdp
  {
    hide PipeOk, GoodUrl, GoodId, OnUp, OnDown, Arrived, Taken, OptionsReply, DescribeReply, SetupReply, Refusal,
         OptionsRequest, DescribeRequest, Source.SourceSetup, Source.Inv, Source.OnEvents, Session.ExtractPath;
    var h, k := j.source.shake, j.link.value;
    UpStep(h, k, |k.up.wire|, env, ord);
    AllTaken(k.up);
    var k1 := OnUp(k, |k.up.wire|, env, ord);
    assert k1.up.items == [] by { UpItems(k, |k.up.wire|, env, ord); }
    if k.up.items == [] {
      NothingUp(k, |k.up.wire|, env, ord);
    } else if h.phase == Source.AwaitDescribe {
      UpDescribe(h, k, |k.up.wire|, env, ord);
    }
    var j1 := j.(link := Some(k1));
    var n := |k1.down.wire|;
    DownStep(j1, n, ord);
    AllTaken(k1.down);
    if k1.down.items == [] {
      NoEvents(j1.source);
      NothingDown(j1, n, ord);
      ArrivedItems(k1.down, n);
    } else {
      match h.phase {
        case AwaitOptions => DownOptions(j1, n, ord);
        case AwaitDescribe =>
          DownDescribe(j1, n, ord);
          RefusalDiffers(h.url, k.session.terms.sessionId, Session.SdpOf(env, Session.ExtractPath(h.url)));
        case AwaitSetup => DownSetup(j1, n, ord);
        case _ =>
      }
    }
  }

  lemma RefusalDiffers(url: Bytes, id: Bytes, sdp: Bytes)
    ensures Refusal() != DescribeReply(url, id, sdp)
  {
  }

  lemma UpItems(k: Link, n: nat, env: Session.Env, ord: Order)
    requires n <= |k.up.wire|
    ensures OnUp(k, n, env, ord).up == Taken(k.up, n)
  {
    hide Session.OnEvents, Arrived, Taken, Put;
  }

  /** The source does not match replies to requests: a 200 that belongs to another request moves it
      on just the same. Two of them, neither an answer to DESCRIBE, and it sets up a stream whose
      SDP is whatever the second one carried. This is why the theorem is about one connection;
      `ReplyMatching` says exactly when the source follows the right replies. */
  lemma RepliesAreNotMatched(s: Source.SourceState, first: RtspMessage, second: RtspMessage)
    requires s.shake.phase == Source.AwaitOptions && first.status == 200 && second.status == 200
    ensures var t := Source.OnEvents(s, [Message(first), Message(second)]);
            t.shake.phase == Source.AwaitSetup && t.shake.sdp == second.sdp
  {
    hide OptionsRequest, DescribeRequest, Source.SourceSetup, PlayRequest, Channels;
    assert [Message(first), Message(second)] == [Message(first)] + [Message(second)];
    Source.StepEvents(s, Message(first), [Message(second)]);
    assert [Message(second)] == [Message(second)] + [];
    Source.StepEvents(Source.OnResponse(s, first), Message(second), []);
  }

  // ---------- and it can get there ----------

  /** The keys in some order. */
  ghost function Listing(keys: set<Bytes>): seq<Bytes> {
    if keys == {} then [] else
      var k :| k in keys;
      [k] + Listing(keys - {k})
  }

  lemma {:induction false} ListingLists(keys: set<Bytes>)
    ensures forall k :: k in keys <==> k in Listing(keys)
    ensures forall i, j :: 0 <= i < j < |Listing(keys)| ==> Listing(keys)[i] != Listing(keys)[j]
  {
    if keys != {} {
      var all := Listing(keys);
      var k := all[0];
      assert all[1..] == Listing(keys - {k});
      ListingLists(keys - {k});
      assert all == [k] + all[1..];
    }
  }

  ghost function SomeOrder(): Order { (m: RtspMessage) => Listing(m.headers.Keys) }

  lemma SomeOrderOrders()
    ensures Orders(SomeOrder())
  {
    forall m: RtspMessage ensures Enumerates(SomeOrder()(m), m.headers) { ListingLists(m.headers.Keys); }
  }

  lemma Then(j: Joint, step: Step, steps: seq<Step>)
    requires Enabled(j, step) && Reachable(Next(j, step), steps)
    ensures Reachable(j, [step] + steps) && Run(j, [step] + steps) == Run(Next(j, step), steps)
  {
    hide Enabled, Next;
    assert ([step] + steps)[1..] == steps;
  }

  /** All bytes under way arrive at the session. */
  function Up(j: Joint, env: Session.Env, ord: Order): Step
    requires j.link.Some?
  {
    ChunkUp(|j.link.value.up.wire|, env, ord)
  }

  /** All bytes under way arrive at the source. */
  function Down(j: Joint, ord: Order): Step
    requires j.link.Some?
  {
    ChunkDown(|j.link.value.down.wire|, ord)
  }

  /** An exchange as two steps of the machine. */
  lemma Exchange(j: Joint, env: Session.Env, ord: Order) returns (k: Joint)
    requires Inv(j) && j.link.Some? && Orders(ord)
    requires j.source.shake.phase in {Source.AwaitOptions, Source.AwaitDescribe, Source.AwaitSetup}
    requires j.source.shake.phase == Source.AwaitDescribe ==> Accepted(j.source.shake, j.link.value, env)
    requires forall p :: p in env.sdps ==> |env.sdps[p]| < TWO_63
    ensures Enabled(j, Up(j, env, ord)) && Next(j, Up(j, env, ord)).link.Some?
    ensures var u := Next(j, Up(j, env, ord)); Enabled(u, Down(u, ord)) && k == Next(u, Down(u, ord))
    ensures Inv(k) && k.link.Some? && k.source.shake.phase == Following(j.source.shake.phase)
    ensures k.source.shake.url == j.source.shake.url
    ensures j.source.shake.phase == Source.AwaitDescribe && j.link.value.up.items != [] ==>
      k.source.shake.sdp == Session.SdpOf(env, Session.ExtractPath(j.source.shake.url))
  {
    hide Inv, OnUp, OnDown, Session.ExtractPath;
    ExchangeAdvances(j, env, ord);
    var u := Next(j, Up(j, env, ord));
    k := Next(u, Down(u, ord));
    assert k.source.shake.url == j.source.shake.url by { SameUrl(u, Down(u, ord)); }
  }

  lemma SameUrl(j: Joint, step: Step)
    requires Enabled(j, step) && step.ChunkDown? && j.link.Some?
    ensures Next(j, step).source.shake.url == j.source.shake.url
  {
    hide Arrived, Source.OnEvents;
    UrlStaysOn(j.source, Arrived(j.link.value.down, step.n).events);
  }

  lemma {:induction false} UrlStaysOn(s: Source.SourceState, evs: seq<Event>)
    ensures Source.OnEvents(s, evs).shake.url == s.shake.url
    decreases evs
  {
    hide Source.OnEvent;
    if evs != [] {
      UrlStays(s, evs[0]);
      UrlStaysOn(Source.OnEvent(s, evs[0]), evs[1..]);
    }
  }

  /** After OPTIONS the DESCRIBE is under way. */
  lemma OptionsAnswered(j: Joint, env: Session.Env, ord: Order, k: Joint)
    requires Inv(j) && j.link.Some? && j.source.shake.phase == Source.AwaitOptions && Orders(ord)
    requires forall p :: p in env.sdps ==> |env.sdps[p]| < TWO_63
    requires Enabled(j, Up(j, env, ord)) && Next(j, Up(j, env, ord)).link.Some?
    requires var u := Next(j, Up(j, env, ord)); Enabled(u, Down(u, ord)) && k == Next(u, Down(u, ord))
    ensures k.link.Some? && k.link.value.up.items != []
  {
    hide PipeOk, GoodUrl, GoodId, OnUp, OnDown, Arrived, Taken, OptionsReply, OptionsRequest, DescribeRequest, Source.Inv,
         Source.OnEvents;
    var h, l := j.source.shake, j.link.value;
    UpStep(h, l, |l.up.wire|, env, ord);
    AllTaken(l.up);
    var u := Next(j, Up(j, env, ord));
    assert u.link.value.up.items == [] by { UpItems(l, |l.up.wire|, env, ord); }
    AllTaken(u.link.value.down);
    DownOptions(u, |u.link.value.down.wire|, ord);
  }

  /** For every URL, session id and SDP there is a run from the first start to a source that plays, with
      that SDP, and a session that plays too. */
  lemma PlayingReachable(url: Bytes, id: Bytes, sdp: Bytes) returns (steps: seq<Step>)
    requires GoodUrl(url) && GoodId(id) && 0 < |sdp| < TWO_63
    ensures var j0 := Joint(Source.Start(Source.Initial(url, true)), None);
            && Reachable(j0, steps)
            && var j := Run(j0, steps);
               && j.source.shake.phase == Source.Playing && j.source.shake.sdp == sdp && j.link.Some?
               && Agreement(j.source.shake, j.link.value) && j.link.value.session.terms.phase == Session.Playing
  {
    hide Inv, Next, Reachable, Run, Agreement, Session.ExtractPath, GoodUrl, GoodId, Orders, SomeOrder, Accepted;
    var ord := SomeOrder();
    SomeOrderOrders();
    var env := Session.Env(map[Session.ExtractPath(url) := sdp], None);
    var j0 := Joint(Source.Start(Source.Initial(url, true)), None);
    var c := Connect(id, ord);
    Connects(url, id, ord);
    var j1 := Next(j0, c);
    var j2 := Exchange(j1, env, ord);
    OptionsAnswered(j1, env, ord, j2);
    assert Accepted(j2.source.shake, j2.link.value, env) by { WillAccept(j2, env, sdp); }
    var j3 := Exchange(j2, env, ord);
    var j4 := Exchange(j3, env, ord);
    SdpStays(j3, env, ord, j4);
    var j5 := Plays(j4, env, ord);
    steps := [];
    Nowhere(j5);
    Then(j4, Up(j4, env, ord), steps);
    steps := [Up(j4, env, ord)] + steps;
    steps := Both(j3, j4, env, ord, steps);
    steps := Both(j2, j3, env, ord, steps);
    steps := Both(j1, j2, env, ord, steps);
    Then(j0, c, steps);
    steps := [c] + steps;
    PlayingAgrees(j5);
  }

  lemma Nowhere(j: Joint)
    ensures Reachable(j, []) && Run(j, []) == j
  {
  }

  lemma WillAccept(j: Joint, env: Session.Env, sdp: Bytes)
    requires j.link.Some? && j.link.value.up.items != [] && sdp != []
    requires env.sdps == map[Session.ExtractPath(j.source.shake.url) := sdp]
    ensures Accepted(j.source.shake, j.link.value, env)
  {
    hide Session.ExtractPath;
  }

  lemma Both(j: Joint, k: Joint, env: Session.Env, ord: Order, steps: seq<Step>) returns (all: seq<Step>)
    requires j.link.Some? && Enabled(j, Up(j, env, ord)) && Next(j, Up(j, env, ord)).link.Some?
    requires var u := Next(j, Up(j, env, ord)); Enabled(u, Down(u, ord)) && k == Next(u, Down(u, ord))
    requires Reachable(k, steps)
    ensures Reachable(j, all) && Run(j, all) == Run(k, steps)
  {
    hide Enabled, Next, Reachable, Run;
    var u := Next(j, Up(j, env, ord));
    Then(u, Down(u, ord), steps);
    Then(j, Up(j, env, ord), [Down(u, ord)] + steps);
    all := [Up(j, env, ord)] + ([Down(u, ord)] + steps);
  }

  /** The start gives a client, so a connection can come up, and OPTIONS is under way. */
  lemma Connects(url: Bytes, id: Bytes, ord: Order)
    requires GoodUrl(url) && GoodId(id) && Orders(ord)
    ensures var j0 := Joint(Source.Start(Source.Initial(url, true)), None);
            && Enabled(j0, Connect(id, ord))
            && var j := Next(j0, Connect(id, ord));
               Inv(j) && j.link.Some? && j.source.shake.phase == Source.AwaitOptions && j.source.shake.url == url
  {
    hide GoodUrl, GoodId, LinkInv, OptionsRequest;
    var j0 := Joint(Source.Start(Source.Initial(url, true)), None);
    assert Inv(j0);
    ConnectStep(j0, id, ord);
  }

  lemma SdpStays(j: Joint, env: Session.Env, ord: Order, k: Joint)
    requires Inv(j) && j.link.Some? && j.source.shake.phase == Source.AwaitSetup && Orders(ord)
    requires Enabled(j, Up(j, env, ord)) && Next(j, Up(j, env, ord)).link.Some?
    requires var u := Next(j, Up(j, env, ord)); Enabled(u, Down(u, ord)) && k == Next(u, Down(u, ord))
    requires k.source.shake.phase == Source.Playing
    ensures k.source.shake.sdp == j.source.shake.sdp
  {
    hide Inv, Arrived, Source.OnEvents, OnUp;
    var u := Next(j, Up(j, env, ord));
    SdpFixed(u.source, Arrived(u.link.value.down, |u.link.value.down.wire|).events);
  }

  lemma {:induction false} SdpFixed(s: Source.SourceState, evs: seq<Event>)
    requires s.shake.phase in {Source.AwaitSetup, Source.Playing}
    ensures Source.OnEvents(s, evs).shake.sdp == s.shake.sdp
    decreases evs
  {
    hide Channels, OptionsRequest, DescribeRequest, Source.SourceSetup, PlayRequest;
    if evs != [] { SdpFixed(Source.OnEvent(s, evs[0]), evs[1..]); }
  }

  /** The PLAY arrives. */
  lemma Plays(j: Joint, env: Session.Env, ord: Order) returns (k: Joint)
    requires Inv(j) && j.link.Some? && j.source.shake.phase == Source.Playing && Orders(ord)
    requires forall p :: p in env.sdps ==> |env.sdps[p]| < TWO_63
    ensures Enabled(j, Up(j, env, ord)) && k == Next(j, Up(j, env, ord)) && Inv(k) && k.link.Some?
    ensures k.source == j.source && k.link.value.session.terms.phase == Session.Playing
  {
    hide PipeOk, GoodUrl, GoodId, OnUp, Arrived, Taken, PlayRequest, PlayReply, Source.Inv;
    var h, l := j.source.shake, j.link.value;
    UpStep(h, l, |l.up.wire|, env, ord);
    AllTaken(l.up);
    k := Next(j, Up(j, env, ord));
    assert k.link.value.up.items == [] by { UpItems(l, |l.up.wire|, env, ord); }
  }
}
