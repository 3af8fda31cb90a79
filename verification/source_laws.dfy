/** What the source does at each step of any run: the clients it creates, the timers it arms, and every
    request it sends, with the texts on the wire. */
module SourceLaws {
  import opened Text
  import opened RtspProtocol
  import opened RtspBuilders
  import opened CodecLaws
  import opened Deliverable
  import opened ForeignHeads
  import opened Framing
  import opened Source

  // ---------- clients and timers ----------

  predicate IsReply(step: Step, status: int) {
    step.Received? && step.ev.Message? && step.ev.msg.status == status
  }

  /** One TCP client for every start, and for every timer that goes off while the source is not stopping. */
  function ClientsBy(s: SourceState, step: Step): nat {
    match step
    case StartStep => 1
    case AlarmStep(_) => if s.life.stopping then 0 else 1
    case _ => 0
  }

  /** A retry for every 404, a reconnect for every close while not stopping. */
  function AlarmsBy(s: SourceState, step: Step): seq<Alarm> {
    if IsReply(step, 404) then [Retry]
    else if step.Closed? && !s.life.stopping then [Reconnect]
    else []
  }

  function ClientsIn(s: SourceState, steps: seq<Step>): nat
    decreases steps
  {
    if steps == [] then 0 else ClientsBy(s, steps[0]) + ClientsIn(Next(s, steps[0]), steps[1..])
  }

  function AlarmsIn(s: SourceState, steps: seq<Step>): seq<Alarm>
    decreases steps
  {
    if steps == [] then [] else AlarmsBy(s, steps[0]) + AlarmsIn(Next(s, steps[0]), steps[1..])
  }

  /** Each step: how the source stands after it, apart from what it sends. */
  lemma LifeOfStep(s: SourceState, step: Step)
    ensures var t := Next(s, step);
            && t.life.clients == s.life.clients + ClientsBy(s, step)
            && t.life.alarms == s.life.alarms + AlarmsBy(s, step)
            && (ClientsBy(s, step) > 0 ==> t.life.hasClient && !t.life.stopping && t.shake.phase == Connecting)
            && (step.StartStep? ==> !t.life.stopping)
            && (step.StopStep? ==>
                  t.life.stopping && !t.life.hasClient && !t.life.hasConn && t.shake.phase == Idle)
            && (step.Connected? ==> t.life.hasConn && t.shake.phase == AwaitOptions)
            && (step.Closed? ==>
                  && !t.life.hasConn && t.life.hasClient == s.life.hasClient
                  && t.shake.phase == if s.life.stopping then s.shake.phase else Failed)
            && (step.AlarmStep? && s.life.stopping ==>
                  t == if step.alarm == Retry then s else s.(shake := s.shake.(phase := Connecting)))
            && (step.Received? ==> t.life == s.life.(alarms := t.life.alarms))
  {
    hide Advance, OptionsRequest, TeardownRequest, TakeSession;
    assert s.life.alarms + [] == s.life.alarms;
  }

  /** In every run: exactly one client for each start and each effective timer, exactly one timer for
      each refusal and each loss. */
  lemma {:induction false} LifeOfRun(s: SourceState, steps: seq<Step>)
    ensures Run(s, steps).life.clients == s.life.clients + ClientsIn(s, steps)
    ensures Run(s, steps).life.alarms == s.life.alarms + AlarmsIn(s, steps)
    decreases steps
  {
    hide Next, ClientsBy, AlarmsBy;
    if steps == [] {
      assert s.life.alarms + [] == s.life.alarms;
    } else {
      var t := Next(s, steps[0]);
      LifeOfStep(s, steps[0]);
      LifeOfRun(t, steps[1..]);
      assert s.life.alarms + (AlarmsBy(s, steps[0]) + AlarmsIn(t, steps[1..]))
          == s.life.alarms + AlarmsBy(s, steps[0]) + AlarmsIn(t, steps[1..]);
    }
  }

  /** A fresh source that is started has a client, so a connection can be reported. */
  lemma StartConnects(url: Bytes, callback: bool)
    ensures var s := Start(Initial(url, callback));
            && s.life.hasClient && s.life.clients == 1 && s.shake.phase == Connecting && Enabled(s, Connected)
            && s.shake.sent == [] && s.shake.rtpChannel == 0 && s.shake.rtcpChannel == 1
  {
  }

  // ---------- every request ----------

  /** A request the source should have sent: its method and number, and the session id held by then. */
  datatype Note = Note(verb: Method, number: nat, id: Bytes)

  /** A non-empty id of a 200 replaces the one held. */
  function IdAfter(id: Bytes, step: Step): Bytes {
    if IsReply(step, 200) && step.ev.msg.sessionId != [] then step.ev.msg.sessionId else id
  }

  function IdAfterAll(id: Bytes, steps: seq<Step>): Bytes
    decreases steps
  {
    if steps == [] then id else IdAfterAll(IdAfter(id, steps[0]), steps[1..])
  }

  /** OPTIONS on a new connection; then one request for each 200, as far as PLAY; TEARDOWN when a
      connected source is stopped. Nothing else is ever sent. */
  function NotesBy(s: SourceState, id: Bytes, step: Step): seq<Note> {
    match step
    case Connected => [Note(Options, 1, id)]
    case StopStep(up) => if up && s.life.hasConn then [Note(Teardown, s.shake.cseq + 1, id)] else []
    case Received(_) =>
      if !IsReply(step, 200) then []
      else if s.shake.phase == AwaitOptions then [Note(Describe, s.shake.cseq + 1, IdAfter(id, step))]
      else if s.shake.phase == AwaitDescribe then [Note(Setup, s.shake.cseq + 1, IdAfter(id, step))]
      else if s.shake.phase == AwaitSetup then [Note(Play, s.shake.cseq + 1, IdAfter(id, step))]
      else []
    case _ => []
  }

  function NotesIn(s: SourceState, id: Bytes, steps: seq<Step>): seq<Note>
    decreases steps
  {
    if steps == [] then []
    else NotesBy(s, id, steps[0]) + NotesIn(Next(s, steps[0]), IdAfter(id, steps[0]), steps[1..])
  }

  function Id(id: Bytes): Headers { if id == [] then map[] else map["Session" := id] }

  const SELF: Headers := map["User-Agent" := "RTSP-Relay/1.0"]

  /** `m` is that request, header by header. */
  predicate Written(m: RtspMessage, url: Bytes, note: Note) {
    && m.kind == MessageKind.Request && m.verb == note.verb && m.url == url && m.version == "RTSP/1.0"
    && m.cseq == note.number && m.body == []
    && match note.verb
       case Options => m.headers == SELF
       case Describe => m.headers == map["Accept" := "application/sdp"] + SELF
       case Setup => m.headers == Id(note.id)
         + map["Transport" := "RTP/AVP/TCP;unicast;" + "interleaved=0-1"] + SELF
       case Play => m.headers == map["Session" := note.id, "Range" := "npt=0.000-"] + SELF
       case Teardown => m.headers == map["Session" := note.id] + SELF
       case _ => false
  }

  lemma Names()
    ensures SESSION == "Session" && TRANSPORT == "Transport" && RANGE == "Range" && ACCEPT == "Accept"
    ensures USER_AGENT == "User-Agent" && AGENT == "RTSP-Relay/1.0" && APPLICATION_SDP == "application/sdp"
    ensures FROM_START == "npt=0.000-" && RTSP_1_0 == "RTSP/1.0"
    ensures |SESSION| == 7 && |TRANSPORT| == 9 && |RANGE| == 5 && |USER_AGENT| == 10 && |ACCEPT| == 6
  {
  }

  lemma OfferText()
    ensures InterleavedText(0, 1) == "RTP/AVP/TCP;unicast;" + "interleaved=0-1"
  {
    assert Dec(0) == "0" && Dec(1) == "1";
    assert TCP_INTERLEAVED + "0" + "-" + "1" == "RTP/AVP/TCP;unicast;" + "interleaved=0-1";
  }

  lemma SetupWritten(url: Bytes, n: nat, id: Bytes)
    ensures Written(SourceSetup(url, n, id), url, Note(Setup, n, id))
  {
    hide InterleavedText, IntText;
    Names();
    OfferText();
    var text := InterleavedText(0, 1);
    assert SourceSetup(url, n, id).headers == Id(id) + map[TRANSPORT := text] + map[USER_AGENT := AGENT];
  }

  lemma RequestsWritten(url: Bytes, n: nat, id: Bytes)
    ensures Written(OptionsRequest(url, n), url, Note(Options, n, id))
    ensures Written(DescribeRequest(url, n), url, Note(Describe, n, id))
    ensures Written(SourceSetup(url, n, id), url, Note(Setup, n, id))
    ensures Written(PlayRequest(url, n, id), url, Note(Play, n, id))
    ensures Written(TeardownRequest(url, n, id), url, Note(Teardown, n, id))
  {
    hide SourceSetup;
    Names();
    SetupWritten(url, n, id);
    assert map[] + SELF == SELF;
  }

  ghost predicate AllWritten(sent: seq<RtspMessage>, url: Bytes, notes: seq<Note>) {
    |sent| == |notes| && forall i :: 0 <= i < |sent| ==> Written(sent[i], url, notes[i])
  }

  /** One step sends exactly the requests noted for it, and takes the id it should. */
  lemma StepSends(s: SourceState, step: Step)
    ensures var t, notes := Next(s, step).shake, NotesBy(s, s.shake.sessionId, step);
            && t.url == s.shake.url && t.sessionId == IdAfter(s.shake.sessionId, step)
            && |notes| <= 1 && |t.sent| == |s.shake.sent| + |notes| && s.shake.sent <= t.sent
            && (notes != [] ==> Written(t.sent[|s.shake.sent|], s.shake.url, notes[0]))
  {
    hide OptionsRequest, DescribeRequest, SourceSetup, PlayRequest, TeardownRequest, Written, Channels;
    RequestsWritten(s.shake.url, 1, s.shake.sessionId);
    RequestsWritten(s.shake.url, s.shake.cseq + 1, IdAfter(s.shake.sessionId, step));
    RequestsWritten(s.shake.url, s.shake.cseq + 1, s.shake.sessionId);
  }

  /** In every run the source sends exactly the requests it should, in that order, each with all its
      headers: PLAY and TEARDOWN with the id held, SETUP with it unless it is empty. */
  lemma {:induction false} RunSends(s: SourceState, steps: seq<Step>)
    ensures var t := Run(s, steps).shake;
            && t.url == s.shake.url && t.sessionId == IdAfterAll(s.shake.sessionId, steps)
            && s.shake.sent <= t.sent
            && AllWritten(t.sent[|s.shake.sent|..], s.shake.url, NotesIn(s, s.shake.sessionId, steps))
    decreases steps
  {
    hide Next, NotesBy, Written, IdAfter;
    if steps != [] {
      var t := Next(s, steps[0]);
      StepSends(s, steps[0]);
      RunSends(t, steps[1..]);
      var n, end := |s.shake.sent|, Run(s, steps).shake.sent;
      var own := NotesBy(s, s.shake.sessionId, steps[0]);
      assert end[n..] == t.shake.sent[n..] + end[|t.shake.sent|..];
    }
  }

  /** And the upstream reads that id, up to its first semicolon. */
  lemma SessionArrives(m: RtspMessage, url: Bytes, note: Note, order: seq<Bytes>, rest: Bytes)
    requires Written(m, url, note) && note.verb in {Play, Teardown} && Good(m) && Enumerates(order, m.headers)
    ensures var r := Parse(Serialize(m, order) + rest);
            r.Parsed? && r.msg.verb == note.verb && r.msg.cseq == note.number && UpToFirst(r.msg.sessionId, note.id)
  {
    hide Serialize, Parse, UpToSemicolon, UpToFirst, Dec;
    Names();
    RoundTrip(m, order, rest);
    NamesDiffer();
    assert SESSION in m.headers && m.headers[SESSION] == note.id;
    SemicolonFound(note.id);
  }

  // ---------- packets without a callback ----------

  /** Packets are counted whether or not a callback is set, and handed on only when it is. */
  lemma {:induction false} FramesCounted(s: SourceState, evs: seq<Event>)
    ensures var f, g, ps := s.feed, OnEvents(s, evs).feed, Payloads(evs);
            && g.callback == f.callback && g.pktsReceived == f.pktsReceived + |ps|
            && g.bytesReceived == f.bytesReceived + TotalLength(ps)
            && g.delivered == if f.callback then f.delivered + ps else f.delivered
    decreases evs
  {
    hide Advance, TakeSession, OnFrame;
    if evs == [] {
      assert s.feed.delivered + [] == s.feed.delivered;
    } else {
      var later := Payloads(evs[1..]);
      FramesCounted(OnEvent(s, evs[0]), evs[1..]);
      if evs[0].Frame? {
        assert Payloads(evs) == [evs[0].payload] + later;
        FrameCounted(s.feed, evs[0].payload, later);
      } else {
        assert Payloads(evs) == later;
      }
    }
  }

  lemma FrameCounted(f: Feed, p: Bytes, later: seq<Bytes>)
    ensures var g := OnFrame(f, p);
            && g.callback == f.callback && g.pktsReceived == f.pktsReceived + 1 && g.bytesReceived == f.bytesReceived + |p|
            && (f.callback ==> g.delivered + later == f.delivered + ([p] + later))
            && (!f.callback ==> g.delivered == f.delivered)
            && TotalLength([p] + later) == |p| + TotalLength(later)
  {
    assert ([p] + later)[1..] == later;
    assert f.delivered + [p] + later == f.delivered + ([p] + later);
  }

  /** What an event does to the negotiation: a 200 takes a waiting source one phase on, nothing else
      takes it anywhere; packets and other replies leave all of it alone. */
  lemma PhaseOfEvent(s: SourceState, ev: Event)
    ensures var h, g := s.shake, OnEvent(s, ev).shake;
            if ev.Frame? || ev.msg.status != 200 then g == h
            else g.phase == match h.phase
                            case AwaitOptions => AwaitDescribe
                            case AwaitDescribe => AwaitSetup
                            case AwaitSetup => Playing
                            case p => p
  {
    hide Channels, OptionsRequest, DescribeRequest, SourceSetup, PlayRequest;
  }
}
