/** The upstream client: OPTIONS, DESCRIBE, SETUP, PLAY over one connection, packets in between,
    and reconnecting after a close or a 404. */
module Source {
  import opened Text
  import opened RtspProtocol
  import opened RtspBuilders
  import opened Framing
  import opened Buffers

  /** The states Idle, Connecting, Options, Describe, Setup, Playing and Error; while awaiting, the
      named request is the one sent last. */
  datatype Phase = Idle | Connecting | AwaitOptions | AwaitDescribe | AwaitSetup | Playing | Failed

  /** A timer armed on the loop: reconnect 3 s after a close, or retry 5 s after a 404. */
  datatype Alarm = Reconnect | Retry

  /** The negotiation: `sent` logs the requests handed to the connection. */
  datatype Shake = Shake(
    url: Bytes, phase: Phase, cseq: nat, sessionId: Bytes, sdp: Bytes, rtpChannel: Octet, rtcpChannel: Octet,
    sent: seq<RtspMessage>)

  /** The packets: `delivered` logs what went to the data callback, if one is set. */
  datatype Feed = Feed(callback: bool, bytesReceived: nat, pktsReceived: nat, delivered: seq<Bytes>)

  /** Starting and stopping: `alarms` armed on the loop, `clients` TCP clients created so far. */
  datatype Life = Life(stopping: bool, hasClient: bool, hasConn: bool, alarms: seq<Alarm>, clients: nat)

  datatype SourceState = SourceState(shake: Shake, feed: Feed, life: Life)

  function Initial(url: Bytes, callback: bool): SourceState {
    SourceState(Shake(url, Idle, 0, [], [], 0, 1, []), Feed(callback, 0, 0, []), Life(false, false, false, [], 0))
  }

  const NOT_FOUND := 404
  const SUCCESS := 200

  /** The SETUP the source sends: the UDP Transport of the builder is replaced. */
  function SourceSetup(url: Bytes, cseq: nat, sessionId: Bytes): RtspMessage {
    WithHeader(SetupRequest(url, cseq, 0, 0, sessionId), TRANSPORT, InterleavedText(0, 1))
  }

  /** Sends a request numbered one higher than the last. */
  function Send(h: Shake, request: RtspMessage): Shake {
    h.(cseq := h.cseq + 1, sent := h.sent + [request])
  }

  function SendOptions(h: Shake): Shake { Send(h, OptionsRequest(h.url, h.cseq + 1)) }
  function SendDescribe(h: Shake): Shake { Send(h, DescribeRequest(h.url, h.cseq + 1)) }
  function SendSetup(h: Shake): Shake { Send(h, SourceSetup(h.url, h.cseq + 1, h.sessionId)) }
  function SendPlay(h: Shake): Shake { Send(h, PlayRequest(h.url, h.cseq + 1, h.sessionId)) }
  function SendTeardown(h: Shake): Shake { Send(h, TeardownRequest(h.url, h.cseq + 1, h.sessionId)) }

  function OnFrame(f: Feed, data: Bytes): Feed {
    f.(bytesReceived := f.bytesReceived + |data|, pktsReceived := f.pktsReceived + 1,
       delivered := if f.callback then f.delivered + [data] else f.delivered)
  }

  /** The channel pair of a Transport header, when there is one to read. */
  function TakeChannels(h: Shake, headers: Headers): Shake {
    if TRANSPORT !in headers then h else
    match Channels(headers[TRANSPORT])
    case None => h
    case Some((rtp, rtcp)) => h.(rtpChannel := rtp, rtcpChannel := rtcp)
  }

  function TakeSession(h: Shake, id: Bytes): Shake {
    if id == [] then h else h.(sessionId := id)
  }

  /** A 200 answers the request the phase waits for; the next request follows at once. */
  function Advance(h: Shake, resp: RtspMessage): Shake {
    match h.phase
    case AwaitOptions => SendDescribe(h.(phase := AwaitDescribe))
    case AwaitDescribe => SendSetup(h.(phase := AwaitSetup, sdp := resp.sdp))
    case AwaitSetup => SendPlay(TakeChannels(h, resp.headers).(phase := Playing))
    case _ => h
  }

  function OnResponse(s: SourceState, resp: RtspMessage): SourceState {
    if resp.status == SUCCESS then s.(shake := Advance(TakeSession(s.shake, resp.sessionId), resp))
    else if resp.status == NOT_FOUND then s.(life := s.life.(alarms := s.life.alarms + [Retry]))
    else s
  }

  function OnEvent(s: SourceState, ev: Event): SourceState {
    match ev
    case Frame(_, payload) => s.(feed := OnFrame(s.feed, payload))
    case Message(msg) => OnResponse(s, msg)
  }

  function OnEvents(s: SourceState, evs: seq<Event>): SourceState
    decreases evs
  {
    if evs == [] then s else OnEvents(OnEvent(s, evs[0]), evs[1..])
  }

  /** A new TCP client, unless the source is stopping. */
  function Connect(l: Life): Life {
    if l.stopping then l else l.(hasClient := true, clients := l.clients + 1)
  }

  function Start(s: SourceState): SourceState {
    s.(shake := s.shake.(phase := Connecting), life := Connect(s.life.(stopping := false)))
  }

  /** `up` tells whether the connection object still counts as connected. */
  function Stop(s: SourceState, up: bool): SourceState {
    var h := s.shake.(phase := Idle);
    s.(shake := if s.life.hasConn && up then SendTeardown(h) else h,
       life := s.life.(stopping := true, hasClient := false, hasConn := false))
  }

  function OnConnect(s: SourceState): SourceState {
    s.(shake := SendOptions(s.shake.(phase := AwaitOptions, cseq := 0)), life := s.life.(hasConn := true))
  }

  function OnClose(s: SourceState): SourceState {
    if s.life.stopping then s.(life := s.life.(hasConn := false))
    else s.(shake := s.shake.(phase := Failed),
            life := s.life.(hasConn := false, alarms := s.life.alarms + [Reconnect]))
  }

  function OnAlarm(s: SourceState, alarm: Alarm): SourceState {
    if alarm == Retry && s.life.stopping then s
    else s.(shake := s.shake.(phase := Connecting), life := Connect(s.life))
  }

  // ---------- every run ----------

  datatype Step =
    | StartStep | StopStep(up: bool) | Connected | Received(ev: Event) | Closed | AlarmStep(alarm: Alarm)

  /** A connection is reported by a client, an alarm goes off once armed; bytes may come at any time,
      also from a connection that has been replaced. */
  predicate Enabled(s: SourceState, step: Step) {
    match step
    case Connected => s.life.hasClient
    case AlarmStep(alarm) => alarm in s.life.alarms
    case _ => true
  }

  function Next(s: SourceState, step: Step): SourceState {
    match step
    case StartStep => Start(s)
    case StopStep(up) => Stop(s, up)
    case Connected => OnConnect(s)
    case Received(ev) => OnEvent(s, ev)
    case Closed => OnClose(s)
    case AlarmStep(alarm) => OnAlarm(s, alarm)
  }

  predicate Possible(s: SourceState, steps: seq<Step>)
    decreases steps
  {
    steps == [] || (Enabled(s, steps[0]) && Possible(Next(s, steps[0]), steps[1..]))
  }

  function Run(s: SourceState, steps: seq<Step>): SourceState
    decreases steps
  {
    if steps == [] then s else Run(Next(s, steps[0]), steps[1..])
  }

  predicate IsRequest(m: RtspMessage, verb: Method, url: Bytes, n: nat) {
    m.kind == MessageKind.Request && m.verb == verb && m.url == url && m.cseq == n
  }

  /** The request sent last is the `verb` for this stream with number `n`. */
  predicate LastSent(h: Shake, verb: Method, n: nat) {
    h.cseq == n && h.sent != [] && IsRequest(h.sent[|h.sent| - 1], verb, h.url, n)
  }

  /** The phase fixes the request counter and the last request. */
  predicate ShakeInv(h: Shake) {
    && (h.phase == AwaitOptions ==> LastSent(h, Options, 1))
    && (h.phase == AwaitDescribe ==> LastSent(h, Describe, 2))
    && (h.phase == AwaitSetup ==> LastSent(h, Setup, 3))
    && (h.phase == Playing ==> LastSent(h, Play, 4))
  }

  predicate Negotiating(h: Shake) { h.phase in {AwaitOptions, AwaitDescribe, AwaitSetup, Playing} }

  /** A request is only ever sent over an existing connection; a stopping source has no client. */
  predicate Inv(s: SourceState) {
    && ShakeInv(s.shake)
    && (Negotiating(s.shake) ==> s.life.hasConn && !s.life.stopping)
    && (s.life.hasClient ==> !s.life.stopping)
  }

  lemma RequestShapes(url: Bytes, n: nat, id: Bytes)
    ensures IsRequest(OptionsRequest(url, n), Options, url, n)
    ensures IsRequest(DescribeRequest(url, n), Describe, url, n)
    ensures IsRequest(SourceSetup(url, n, id), Setup, url, n)
    ensures IsRequest(PlayRequest(url, n, id), Play, url, n)
    ensures IsRequest(TeardownRequest(url, n, id), Teardown, url, n)
  {
    hide InterleavedText, IntText;
  }

  lemma AdvanceKeepsInv(h: Shake, resp: RtspMessage)
    requires ShakeInv(h)
    ensures ShakeInv(Advance(h, resp)) && (Negotiating(Advance(h, resp)) <==> Negotiating(h))
  {
    hide OptionsRequest, DescribeRequest, SourceSetup, PlayRequest, TeardownRequest, IsRequest, Channels;
    RequestShapes(h.url, h.cseq + 1, h.sessionId);
  }

  lemma StepKeepsInv(s: SourceState, step: Step)
    requires Inv(s) && Enabled(s, step)
    ensures Inv(Next(s, step))
  {
    hide OptionsRequest, DescribeRequest, SourceSetup, PlayRequest, TeardownRequest, IsRequest, Advance;
    RequestShapes(s.shake.url, 1, s.shake.sessionId);
    if step.Received? && step.ev.Message? {
      AdvanceKeepsInv(TakeSession(s.shake, step.ev.msg.sessionId), step.ev.msg);
    }
  }

  /** Whatever responses, frames, closes, retries and reconnects come, in any order. */
  lemma {:induction false} RunKeepsInv(s: SourceState, steps: seq<Step>)
    requires Inv(s) && Possible(s, steps)
    ensures Inv(Run(s, steps))
    decreases steps
  {
    if steps != [] {
      hide Next, Inv;
      StepKeepsInv(s, steps[0]);
      RunKeepsInv(Next(s, steps[0]), steps[1..]);
    }
  }

  lemma PhaseFixesRequest(url: Bytes, callback: bool, steps: seq<Step>)
    requires Possible(Initial(url, callback), steps)
    ensures Inv(Run(Initial(url, callback), steps))
  {
    RunKeepsInv(Initial(url, callback), steps);
  }

  /** After a stop nothing but a start makes a new client, also while old alarms still go off. */
  lemma {:induction false} StoppedStaysQuiet(s: SourceState, steps: seq<Step>)
    requires s.life.stopping && Inv(s) && Possible(s, steps) && StartStep !in steps
    ensures Run(s, steps).life.stopping && Run(s, steps).life.clients == s.life.clients
    decreases steps
  {
    if steps != [] {
      hide Advance, SendOptions, SendTeardown, ShakeInv;
      StepKeepsInv(s, steps[0]);
      StoppedStaysQuiet(Next(s, steps[0]), steps[1..]);
    }
  }

  // ---------- frames ----------

  /** The payloads of the frames among `evs`. */
  function Payloads(evs: seq<Event>): seq<Bytes> {
    if evs == [] then []
    else (if evs[0].Frame? then [evs[0].payload] else []) + Payloads(evs[1..])
  }

  function TotalLength(ps: seq<Bytes>): nat {
    if ps == [] then 0 else |ps[0]| + TotalLength(ps[1..])
  }

  lemma FrameDelivered(f: Feed, p: Bytes, later: seq<Bytes>)
    requires f.callback
    ensures var g := OnFrame(f, p);
            g.callback && g.delivered + later == f.delivered + ([p] + later)
            && g.pktsReceived + |later| == f.pktsReceived + |[p] + later|
            && g.bytesReceived + TotalLength(later) == f.bytesReceived + TotalLength([p] + later)
  {
    assert ([p] + later)[1..] == later;
  }

  /** Every frame is handed on once, in order, and counted; responses in between change nothing. */
  lemma {:induction false} FramesDelivered(s: SourceState, evs: seq<Event>)
    requires s.feed.callback
    ensures var t := OnEvents(s, evs).feed;
            t == Feed(true, s.feed.bytesReceived + TotalLength(Payloads(evs)),
                      s.feed.pktsReceived + |Payloads(evs)|, s.feed.delivered + Payloads(evs))
    decreases evs
  {
    hide Advance;
    if evs == [] {
      assert s.feed.delivered + [] == s.feed.delivered;
    } else {
      var later := Payloads(evs[1..]);
      FramesDelivered(OnEvent(s, evs[0]), evs[1..]);
      if evs[0].Frame? {
        assert Payloads(evs) == [evs[0].payload] + later;
        FrameDelivered(s.feed, evs[0].payload, later);
      } else {
        assert Payloads(evs) == later;
      }
    }
  }

  lemma {:induction false} EventsAppend(s: SourceState, a: seq<Event>, b: seq<Event>)
    ensures OnEvents(s, a + b) == OnEvents(OnEvents(s, a), b)
    decreases a
  {
    hide OnEvent;
    if a == [] {
      assert a + b == b;
    } else {
      EventsAppend(OnEvent(s, a[0]), a[1..], b);
      assert (a + b)[1..] == a[1..] + b;
    }
  }

  // ---------- the source object ----------

  class RtspSource {
    const url: Bytes
    const callback: bool
    var phase: Phase
    var cseq: nat
    var sessionId: Bytes
    var sdp: Bytes
    var rtpChannel: Octet
    var rtcpChannel: Octet
    var stopping: bool
    var hasClient: bool
    var hasConn: bool
    var bytesReceived: nat
    var pktsReceived: nat
    var sent: seq<RtspMessage>
    var delivered: seq<Bytes>
    var alarms: seq<Alarm>
    var clients: nat

    constructor (url: Bytes, callback: bool)
      ensures View() == Initial(url, callback)
    {
      this.url, this.callback := url, callback;
      phase, cseq, sessionId, sdp, rtpChannel, rtcpChannel := Idle, 0, [], [], 0, 1;
      stopping, hasClient, hasConn, bytesReceived, pktsReceived := false, false, false, 0, 0;
      sent, delivered, alarms, clients := [], [], [], 0;
    }

    function View(): SourceState
      reads this
    {
      SourceState(ShakeView(), Feed(callback, bytesReceived, pktsReceived, delivered),
                  Life(stopping, hasClient, hasConn, alarms, clients))
    }

    function ShakeView(): Shake
      reads this
    {
      Shake(url, phase, cseq, sessionId, sdp, rtpChannel, rtcpChannel, sent)
    }

    method StartPulling()
      modifies this
      ensures View() == Start(old(View()))
    {
      stopping := false;
      phase := Connecting;
      ConnectToUpstream();
    }

    method StopPulling(up: bool)
      modifies this
      ensures View() == Stop(old(View()), up)
    {
      hide OptionsRequest, DescribeRequest, SourceSetup, PlayRequest, TeardownRequest, Channels;
      stopping := true;
      phase := Idle;
      if hasConn && up {
        cseq := cseq + 1;
        sent := sent + [TeardownRequest(url, cseq, sessionId)];
      }
      hasClient, hasConn := false, false;
    }

    method ConnectToUpstream()
      modifies this
      ensures View() == old(View()).(life := Connect(old(View()).life))
    {
      if stopping { return; }
      hasClient := true;
      clients := clients + 1;
    }

    method HandleConnect()
      modifies this
      ensures View() == OnConnect(old(View()))
    {
      hide OptionsRequest, DescribeRequest, SourceSetup, PlayRequest, TeardownRequest, Channels;
      hasConn := true;
      phase := AwaitOptions;
      cseq := 1;
      sent := sent + [OptionsRequest(url, cseq)];
    }

    method HandleClose()
      modifies this
      ensures View() == OnClose(old(View()))
    {
      hasConn := false;
      if !stopping {
        phase := Failed;
        alarms := alarms + [Reconnect];
      }
    }

    method HandleAlarm(alarm: Alarm)
      modifies this
      ensures View() == OnAlarm(old(View()), alarm)
    {
      if alarm == Retry && stopping { return; }
      phase := Connecting;
      ConnectToUpstream();
    }

    method HandleInterleavedData(data: Bytes)
      modifies this
      ensures View() == old(View()).(feed := OnFrame(old(View()).feed, data))
    {
      bytesReceived := bytesReceived + |data|;
      pktsReceived := pktsReceived + 1;
      if callback { delivered := delivered + [data]; }
    }

    method HandleResponse(resp: RtspMessage)
      modifies this
      ensures View() == OnResponse(old(View()), resp)
    {
      hide Advance;
      if resp.status != SUCCESS {
        if resp.status == NOT_FOUND { alarms := alarms + [Retry]; }
        return;
      }
      if resp.sessionId != [] { sessionId := resp.sessionId; }
      AdvanceHandshake(resp);
    }

    method AdvanceHandshake(resp: RtspMessage)
      modifies this`phase, this`cseq, this`sdp, this`rtpChannel, this`rtcpChannel, this`sent
      ensures ShakeView() == Advance(old(ShakeView()), resp)
    {
      hide OptionsRequest, DescribeRequest, SourceSetup, PlayRequest, TeardownRequest, Channels;
      match phase {
        case AwaitOptions =>
          phase := AwaitDescribe;
          cseq := cseq + 1;
          sent := sent + [DescribeRequest(url, cseq)];
        case AwaitDescribe =>
          sdp := resp.sdp;
          phase := AwaitSetup;
          cseq := cseq + 1;
          sent := sent + [SourceSetup(url, cseq, sessionId)];
        case AwaitSetup =>
          if TRANSPORT in resp.headers {
            match Channels(resp.headers[TRANSPORT]) {
              case Some((rtp, rtcp)) => rtpChannel, rtcpChannel := rtp, rtcp;
              case None =>
            }
          }
          phase := Playing;
          cseq := cseq + 1;
          sent := sent + [PlayRequest(url, cseq, sessionId)];
        case _ =>
      }
    }

    /** The drain loop. Everything complete in the buffer is handled, in order; the rest stays. */
    method HandleMessage(buf: ByteBuffer) returns (threw: bool)
      requires buf.Valid()
      modifies this, buf, buf.data
      ensures buf.Valid() && buf.data == old(buf.data)
      ensures buf.Content() == Drain(old(buf.Content())).rest
      ensures View() == OnEvents(old(View()), Drain(old(buf.Content())).events)
      ensures threw <==> NextItem(buf.Content()).Fault?
    {
      hide OnEvent, Parse;
      threw := false;
      ghost var all := Drain(buf.Content());
      ghost var goal := OnEvents(View(), all.events);
      while true
        invariant buf.Valid() && buf.data == old(buf.data) && !threw
        invariant Drain(buf.Content()).rest == all.rest
        invariant OnEvents(View(), Drain(buf.Content()).events) == goal
        decreases |buf.Content()|
      {
        ghost var content := buf.Content();
        var item := Front(buf);
        if item.Incomplete? { return; }
        if item.Fault? { return true; }
        DrainOne(content);
        ItemBounds(content);
        StepEvents(View(), item.event, Drain(content[item.size..]).events);
        match item.event {
          case Frame(_, payload) => HandleInterleavedData(payload);
          case Message(msg) => HandleResponse(msg);
        }
        buf.Skip(item.size);
      }
    }

    /** One read event: each chunk is appended and drained before the next one is read. Together they
        do what one call on all the bytes would have done. */
    method HandleRead(buf: ByteBuffer, chunks: seq<Bytes>) returns (threw: bool)
      requires buf.Valid() && !NextItem(buf.Content()).Item?
      modifies this, buf, buf.data
      ensures buf.Valid() && (buf.data == old(buf.data) || fresh(buf.data))
      ensures var all := Drain(old(buf.Content()) + Flatten(chunks));
              !threw ==> View() == OnEvents(old(View()), all.events) && buf.Content() == all.rest
    {
      hide OnEvents, NextItem, Drain, Flatten;
      threw := false;
      ghost var before := buf.Content();
      NothingRead(before, View());
      var i := 0;
      while i < |chunks|
        invariant 0 <= i <= |chunks| && buf.Valid() && !threw
        invariant buf.data == old(buf.data) || fresh(buf.data)
        invariant View() == OnEvents(old(View()), Drain(before + Flatten(chunks[..i])).events)
        invariant buf.Content() == Drain(before + Flatten(chunks[..i])).rest
      {
        OneMoreChunk(before, chunks, i);
        ghost var done := Drain(before + Flatten(chunks[..i]));
        ghost var more := Drain(done.rest + chunks[i]);
        EventsAppend(old(View()), done.events, more.events);
        buf.Append(chunks[i]);
        threw := HandleMessage(buf);
        if threw { return; }
        i := i + 1;
      }
      assert chunks[..i] == chunks;
    }
  }

  lemma NothingRead(before: Bytes, s: SourceState)
    requires !NextItem(before).Item?
    ensures Drain(before + Flatten([])) == Drained([], before) && OnEvents(s, []) == s
  {
    hide NextItem;
    assert before + [] == before;
  }

  lemma OneMoreChunk(before: Bytes, chunks: seq<Bytes>, i: nat)
    requires i < |chunks|
    ensures Drain(before + Flatten(chunks[..i + 1])) == Framing.Feed(Drain(before + Flatten(chunks[..i])), chunks[i])
  {
    hide Drain;
    assert chunks[..i + 1] == chunks[..i] + [chunks[i]];
    FlattenMore(chunks[..i], chunks[i]);
    assert before + (Flatten(chunks[..i]) + chunks[i]) == before + Flatten(chunks[..i]) + chunks[i];
    DrainSplit(before + Flatten(chunks[..i]), chunks[i]);
  }

  lemma StepEvents(s: SourceState, ev: Event, later: seq<Event>)
    ensures OnEvents(s, [ev] + later) == OnEvents(OnEvent(s, ev), later)
    ensures OnEvent(s, ev) == if ev.Frame? then s.(feed := OnFrame(s.feed, ev.payload)) else OnResponse(s, ev.msg)
  {
    hide OnResponse;
    assert ([ev] + later)[1..] == later;
  }
}
