/** From the upstream's bytes to one player's bytes: receive buffer, source, table of sinks, session,
    posted sends and the player's connection, in every interleaving. */
module EndToEnd {
  import opened Text
  import opened RtspProtocol
  import opened RtspBuilders
  import opened CodecLaws
  import opened Framing
  import opened Deliverable
  import Connection
  import Relay
  import Session
  import Source

  /** The two sends of one packet, posted to the loop of the player's connection. */
  datatype Posted = Posted(header: Bytes, payload: Bytes)

  /** One stream `path` and one player `me` among all others. `inbox` is the receive buffer of the
      upstream connection; `half` is the payload of the packet whose header has been run; `items` lists
      what the player's connection was given, or began to be given, while connected. */
  datatype Flow = Flow(
    path: Bytes, me: nat, inbox: Bytes, source: Source.SourceState, world: Relay.World,
    posted: seq<Posted>, half: Option<Bytes>, conn: Connection.Conn, items: seq<Outgoing>)

  function Start(path: Bytes, me: nat, url: Bytes, maxSources: nat): Flow {
    Flow(path, me, [], Source.Initial(url, true), Relay.World(maxSources, map[], map[]), [], None, Connection.FRESH, [])
  }

  /** A chunk arrives; the drain loop takes one item; the source connects, closes, retries, …; someone
      joins, leaves or gets another stream's packet; the player asks; its loop runs the oldest posted
      send; its socket gets writable; its connection is lost. */
  datatype Step =
    | Chunk(bytes: Bytes)
    | TakeItem(down: set<nat>)
    | Upstream(event: Source.Step)
    | Table(change: Relay.Step)
    | Ask(req: RtspMessage, env: Session.Env, order: seq<Bytes>, w: Connection.Outcome)
    | RunTask(w: Connection.Outcome)
    | Writable(ws: seq<Connection.Outcome>)
    | Lose

  predicate Up(f: Flow) { f.conn.state == Connection.Connected }

  /** What the connection still lacks of the packet it was given last. */
  function Lacking(f: Flow): Bytes { if f.half.Some? then f.half.value else [] }

  /** The answer to a request of the player. */
  function Answer(f: Flow, req: RtspMessage, env: Session.Env): RtspMessage
    requires f.me in f.world.sessions
  {
    Session.Reply(f.world.sessions[f.me].terms.(cseq := req.cseq), req, env).response
  }

  /** The player asks for nothing that takes it elsewhere while it is a sink, and no request is handled
      after the header and before the payload of a packet; `AnswerBetween` says what happens then. */
  ghost predicate Enabled(f: Flow, step: Step) {
    match step
    case Chunk(_) => true
    case TakeItem(down) => NextItem(f.inbox).Item? && (f.me in down <==> !Up(f))
    case Upstream(s) => !s.Received? && Source.Enabled(f.source, s)
    case Table(s) =>
      && Relay.Enabled(f.world, s) && !(s.Ask? && s.id == f.me)
      && (s.Open? && s.id == f.me ==> GoodId(s.sessionId))
      && (s.Push? ==> s.path != f.path && |s.data| <= 65535 && (f.me in s.down <==> !Up(f)))
    case Ask(req, env, order, _) =>
      && Relay.Enabled(f.world, Relay.Ask(f.me, req, env))
      && req.kind == MessageKind.Request && GoodUrl(req.url) && req.cseq < TWO_31
      && (forall p :: p in env.sdps ==> |env.sdps[p]| < TWO_63)
      && Enumerates(order, Answer(f, req, env).headers)
      && (Up(f) ==> Lacking(f) == [])
    case RunTask(_) => f.posted != [] || f.half.Some?
    case Writable(_) => f.conn.open
    case Lose => true
  }

  /** The pairs of sends that a packet added to the session's log. */
  function Pairs(sends: seq<Session.Send>): seq<Posted> {
    if |sends| < 2 || !sends[0].Raw? || !sends[1].Raw? then []
    else [Posted(sends[0].bytes, sends[1].bytes)] + Pairs(sends[2..])
  }

  /** The sends of `me`. */
  function Sends(f: Flow, w: Relay.World): seq<Session.Send> {
    if f.me in w.sessions then w.sessions[f.me].output.sends else []
  }

  /** The table moves on; packets for `me` are posted to its loop. */
  function Tabled(f: Flow, s: Relay.Step): Flow
    requires Relay.Enabled(f.world, s)
  {
    var w := Relay.Next(f.world, s);
    var n := |Sends(f, f.world)|;
    f.(world := w, posted := if n <= |Sends(f, w)| then f.posted + Pairs(Sends(f, w)[n..]) else f.posted)
  }

  /** Something is handed to the connection as one item. */
  function Given(f: Flow, item: Outgoing, conn: Connection.Conn): Flow {
    f.(conn := conn, items := if Up(f) then f.items + [item] else f.items)
  }

  function FrameOf(p: Posted): Outgoing {
    OutFrame(if |p.header| < 2 then 0 else p.header[1] as int, p.payload)
  }

  ghost function Next(f: Flow, step: Step): Flow
    requires Enabled(f, step)
  {
    match step
    case Chunk(bytes) => f.(inbox := f.inbox + bytes)
    case TakeItem(down) =>
      ItemBounds(f.inbox);
      var Item(event, size) := NextItem(f.inbox);
      var g := f.(inbox := f.inbox[size..], source := Source.OnEvent(f.source, event));
      if event.Frame? then Tabled(g, Relay.Push(f.path, event.payload, down)) else g
    case Upstream(s) => f.(source := Source.Next(f.source, s), inbox := if s.Connected? then [] else f.inbox)
    case Table(s) => Tabled(f, s)
    case Ask(req, env, order, w) =>
      var resp := Answer(f, req, env);
      Given(f.(world := Relay.Next(f.world, Relay.Ask(f.me, req, env))), OutMessage(resp, order),
            Connection.SendInLoop(f.conn, Serialize(resp, order), w))
    case RunTask(w) =>
      match f.half {
        case Some(payload) => f.(half := None, conn := Connection.SendInLoop(f.conn, payload, w))
        case None =>
          var p := f.posted[0];
          Given(f.(posted := f.posted[1..], half := Some(p.payload)), FrameOf(p),
                Connection.SendInLoop(f.conn, p.header, w))
      }
    case Writable(ws) => f.(conn := Connection.HandleWrite(f.conn, ws))
    case Lose => f.(conn := Connection.Lost(f.conn))
  }

  ghost predicate Possible(f: Flow, steps: seq<Step>)
    decreases steps
  {
    steps == [] || (Enabled(f, steps[0]) && Possible(Next(f, steps[0]), steps[1..]))
  }

  ghost function Run(f: Flow, steps: seq<Step>): Flow
    requires Possible(f, steps)
    decreases steps
  {
    if steps == [] then f else Run(Next(f, steps[0]), steps[1..])
  }

  // ---------- what the player should get ----------

  /** The player is a connected TCP sink of stream `p` at this moment. */
  predicate Subscribed(f: Flow, p: Bytes) {
    && p in f.world.sinks && f.me in f.world.sinks[p] && Up(f)
    && f.me in f.world.sessions && f.world.sessions[f.me].terms.transport == Session.Tcp
  }

  /** A packet of stream `p`, for the player when it is a sink of it: on the player's own channel,
      whatever channel it came on. */
  function Packet(f: Flow, p: Bytes, data: Bytes): seq<Event> {
    if Subscribed(f, p) then [Frame(f.world.sessions[f.me].terms.rtpChannel, data)] else []
  }

  /** What one step owes the player. */
  function Owed(f: Flow, step: Step): seq<Event> {
    match step
    case TakeItem(_) =>
      (match NextItem(f.inbox)
       case Item(Frame(_, payload), _) => Packet(f, f.path, payload)
       case _ => [])
    case Table(Push(p, data, _)) => Packet(f, p, data)
    case Ask(req, env, _, _) =>
      if Up(f) && f.me in f.world.sessions then [Message(Received(Answer(f, req, env)))] else []
    case _ => []
  }

  ghost function OwedIn(f: Flow, steps: seq<Step>): seq<Event>
    requires Possible(f, steps)
    decreases steps
  {
    if steps == [] then [] else Owed(f, steps[0]) + OwedIn(Next(f, steps[0]), steps[1..])
  }

  /** The frames among `evs`, or the messages. */
  function Pick(evs: seq<Event>, frames: bool): seq<Event> {
    if evs == [] then [] else (if evs[0].Frame? == frames then [evs[0]] else []) + Pick(evs[1..], frames)
  }

  lemma PickFirst(a: seq<Event>, b: seq<Event>, frames: bool)
    requires a != []
    ensures Pick(a + b, frames) == (if a[0].Frame? == frames then [a[0]] else []) + Pick(a[1..] + b, frames)
  {
    assert (a + b)[0] == a[0] && (a + b)[1..] == a[1..] + b;
  }

  lemma PickNothing(frames: bool)
    ensures Pick([], frames) == []
  {
  }

  lemma {:induction false} PickAppend(a: seq<Event>, b: seq<Event>, frames: bool)
    ensures Pick(a + b, frames) == Pick(a, frames) + Pick(b, frames)
    decreases a
  {
    hide Pick;
    if a == [] {
      PickNothing(frames);
      assert a + b == b;
    } else {
      PickFirst(a, b, frames);
      PickFirst(a, [], frames);
      assert a + [] == a && a[1..] + [] == a[1..];
      PickAppend(a[1..], b, frames);
    }
  }

  function Waiting(posted: seq<Posted>): seq<Event> {
    seq(|posted|, i requires 0 <= i < |posted| => EventOf(FrameOf(posted[i])))
  }

  /** Given to the connection, at least in part, or still posted. */
  function Through(f: Flow, frames: bool): seq<Event> {
    Pick(EventsOf(f.items), frames) + Pick(Waiting(f.posted), frames)
  }

  // ---------- the invariant ----------

  predicate PostedOk(p: Posted) {
    |p.payload| <= 65535 && p.header == FrameHeader(FrameOf(p).channel, |p.payload|)
  }

  /** The item given last is a packet with this payload. */
  predicate HalfGiven(items: seq<Outgoing>, payload: Bytes) {
    items != [] && items[|items| - 1].OutFrame? && items[|items| - 1].payload == payload
  }

  ghost predicate Inv(f: Flow) {
    && Relay.Inv(f.world) && Connection.Inv(f.conn) && AllSendable(f.items)
    && f.conn.accepted <= EncodeAll(f.items)
    && (Up(f) ==> f.conn.accepted + Lacking(f) == EncodeAll(f.items))
    && (Up(f) && Lacking(f) != [] ==> HalfGiven(f.items, Lacking(f)))
    && (f.me in f.world.sessions ==> GoodId(f.world.sessions[f.me].terms.sessionId))
    && (forall p :: p in f.posted ==> PostedOk(p))
  }

  lemma StartInv(path: Bytes, me: nat, url: Bytes, maxSources: nat)
    ensures Inv(Start(path, me, url, maxSources))
    ensures forall b :: Through(Start(path, me, url, maxSources), b) == []
  {
  }

  // ---------- a packet on its way to the player ----------

  /** What one packet of stream `p` does to the player's session. */
  lemma PacketPushed(f: Flow, p: Bytes, data: Bytes, down: set<nat>)
    requires Relay.Inv(f.world) && f.me in f.world.sessions && (f.me in down <==> !Up(f))
    ensures var w := Relay.Next(f.world, Relay.Push(p, data, down));
            && f.me in w.sessions
            && w.sessions[f.me] == if Subscribed(f, p) then Session.OnRtpData(f.world.sessions[f.me], data, true)
                                   else f.world.sessions[f.me]
  {
    hide Relay.PlaysHere;
    if p in f.world.sinks {
      var sinks, s := f.world.sinks[p], f.world.sessions[f.me];
      Relay.FanOutCounts(f.world.sessions, sinks, data, down, f.me);
      Relay.ListedOnce(sinks, f.me);
      Relay.PushedNext(s, data, f.me !in down, 0);
    }
  }

  lemma PlaysWhenSubscribed(f: Flow, p: Bytes)
    requires Relay.Inv(f.world) && Subscribed(f, p)
    ensures Session.Streaming(f.world.sessions[f.me].terms)
  {
    assert Relay.PlaysHere(f.world, f.me, p);
  }

  /** A packet of stream `p` adds exactly what the player is owed to its posted packets. */
  lemma PacketPosted(f: Flow, p: Bytes, data: Bytes, down: set<nat>)
    requires Inv(f) && |data| <= 65535 && (f.me in down <==> !Up(f))
    ensures Waiting(Tabled(f, Relay.Push(p, data, down)).posted) == Waiting(f.posted) + Packet(f, p, data)
    ensures forall q :: q in Tabled(f, Relay.Push(p, data, down)).posted ==> PostedOk(q)
  {
    hide Session.OnRtpData, Relay.PushAll, AllSendable, EncodeAll, Subscribed, Session.Streaming;
    var g := Tabled(f, Relay.Push(p, data, down));
    if f.me in f.world.sessions {
      PacketPushed(f, p, data, down);
      if Subscribed(f, p) {
        PlaysWhenSubscribed(f, p);
        NewPair(f.world.sessions[f.me], data);
        var channel := f.world.sessions[f.me].terms.rtpChannel;
        assert g.posted == f.posted + [Posted(FrameHeader(channel, |data|), data)];
        HeaderKeepsChannel(channel, data);
      } else {
        assert g.posted == f.posted + Pairs([]) by { assert Sends(f, f.world)[|Sends(f, f.world)|..] == []; }
        assert Waiting(f.posted) + [] == Waiting(f.posted);
      }
    } else {
      NobodyThere(f, p, data, down);
      assert Waiting(f.posted) + [] == Waiting(f.posted);
    }
  }

  lemma NobodyThere(f: Flow, p: Bytes, data: Bytes, down: set<nat>)
    requires f.me !in f.world.sessions
    ensures Tabled(f, Relay.Push(p, data, down)).posted == f.posted
    ensures f.me !in Tabled(f, Relay.Push(p, data, down)).world.sessions
    ensures !Subscribed(f, p)
  {
    if p in f.world.sinks { Relay.PushKeepsTerms(f.world.sessions, f.world.sinks[p], data, down); }
    assert f.posted + Pairs([]) == f.posted;
  }

  lemma NewPair(s: Session.SessionState, data: Bytes)
    requires Session.Streaming(s.terms)
    ensures var sends := Session.OnRtpData(s, data, true).output.sends; var n := |s.output.sends|;
            n <= |sends| && Pairs(sends[n..]) == [Posted(FrameHeader(s.terms.rtpChannel, |data|), data)]
  {
    hide FrameHeader;
    var added := [Session.Raw(FrameHeader(s.terms.rtpChannel, |data|)), Session.Raw(data)];
    assert (s.output.sends + added)[|s.output.sends|..] == added;
    assert added[2..] == [];
    assert Pairs(added) == [Posted(added[0].bytes, added[1].bytes)] + Pairs([]);
  }

  lemma HeaderKeepsChannel(channel: Octet, data: Bytes)
    ensures FrameOf(Posted(FrameHeader(channel, |data|), data)) == OutFrame(channel, data)
  {
  }

  /** Every other change of the table leaves the player's sends alone. */
  lemma OthersPostNothing(f: Flow, s: Relay.Step)
    requires Inv(f) && Enabled(f, Table(s)) && !s.Push?
    ensures Tabled(f, s).posted == f.posted
    ensures f.me in Tabled(f, s).world.sessions ==> GoodId(Tabled(f, s).world.sessions[f.me].terms.sessionId)
  {
    hide Session.OnRequest, Relay.Obey, GoodId, EncodeAll, AllSendable;
    var w := Relay.Next(f.world, s);
    assert Sends(f, w) == Sends(f, f.world);
    assert Sends(f, w)[|Sends(f, w)|..] == [];
    assert f.posted + Pairs([]) == f.posted;
  }

  // ---------- handing items to the connection ----------

  lemma OneItem(item: Outgoing)
    ensures EncodeAll([item]) == Encode(item) && EventsOf([item]) == [EventOf(item)]
  {
    hide Encode, EventOf;
    assert [item][1..] == [];
    assert Encode(item) + [] == Encode(item);
  }

  lemma ItemsGrow(items: seq<Outgoing>, item: Outgoing)
    requires AllSendable(items) && Sendable(item)
    ensures AllSendable(items + [item]) && EncodeAll(items + [item]) == EncodeAll(items) + Encode(item)
    ensures EventsOf(items + [item]) == EventsOf(items) + [EventOf(item)]
  {
    hide Encode, EventOf, Sendable, EncodeAll;
    EncodeAppend(items, [item]);
    OneItem(item);
  }

  /** One send: while connected its bytes are accepted, and when the socket breaks nothing more is. */
  lemma SendAccepts(c: Connection.Conn, data: Bytes, w: Connection.Outcome)
    requires Connection.Inv(c)
    ensures var d := Connection.SendInLoop(c, data, w);
            && Connection.Inv(d)
            && d.accepted == (if c.state == Connection.Connected then c.accepted + data else c.accepted)
            && (d.state == Connection.Connected ==> c.state == Connection.Connected)
  {
    Connection.SendKeepsInv(c, data, w);
  }

  /** An item is given, or the first part of one with the rest in `half`. */
  lemma GivenOk(f: Flow, g: Flow, item: Outgoing, part: Bytes)
    requires Inv(f) && Sendable(item) && Connection.Inv(g.conn) && (Up(f) ==> Lacking(f) == [])
    requires g.items == if Up(f) then f.items + [item] else f.items
    requires !Up(f) ==> !Up(g) && g.conn.accepted == f.conn.accepted
    requires Up(f) ==> part <= Encode(item) && g.conn.accepted == f.conn.accepted + part
    requires Up(g) ==> Up(f) && part + Lacking(g) == Encode(item)
    requires Up(g) && Lacking(g) != [] ==> item.OutFrame? && item.payload == Lacking(g)
    requires Relay.Inv(g.world) && (forall p :: p in g.posted ==> PostedOk(p))
    requires g.me in g.world.sessions ==> GoodId(g.world.sessions[g.me].terms.sessionId)
    ensures Inv(g)
  {
    hide Encode, Sendable, Relay.Inv, Connection.Inv, EncodeAll, AllSendable, PostedOk, GoodId;
    if Up(f) {
      ItemsGrow(f.items, item);
      assert f.conn.accepted + [] == f.conn.accepted;
      assert f.conn.accepted + part <= EncodeAll(f.items) + Encode(item);
      assert f.conn.accepted + (part + Lacking(g)) == f.conn.accepted + part + Lacking(g);
    }
  }

  lemma PostedIsFrame(p: Posted)
    requires PostedOk(p)
    ensures Sendable(FrameOf(p)) && Encode(FrameOf(p)) == p.header + p.payload
    ensures FrameOf(p).OutFrame? && FrameOf(p).payload == p.payload
  {
    hide FrameHeader;
  }

  lemma HeaderOk(f: Flow, w: Connection.Outcome)
    requires Inv(f) && f.posted != [] && f.half.None?
    ensures Inv(Next(f, RunTask(w))) && Sendable(FrameOf(f.posted[0]))
  {
    hide Relay.Inv, Connection.Inv, Connection.SendInLoop, EncodeAll, AllSendable, FrameOf, Sendable, Encode,
         PostedOk, GoodId;
    var p := f.posted[0];
    PostedIsFrame(p);
    SendAccepts(f.conn, p.header, w);
    GivenOk(f, Next(f, RunTask(w)), FrameOf(p), p.header);
  }

  lemma PayloadOk(f: Flow, w: Connection.Outcome)
    requires Inv(f) && f.half.Some?
    ensures Inv(Next(f, RunTask(w)))
  {
    hide Relay.Inv, Connection.Inv, Connection.SendInLoop, EncodeAll, AllSendable, PostedOk, GoodId;
    SendAccepts(f.conn, f.half.value, w);
    var g := Next(f, RunTask(w));
    assert g.conn.accepted + [] == g.conn.accepted;
  }

  lemma RequestOk(f: Flow, req: RtspMessage, env: Session.Env, order: seq<Bytes>, w: Connection.Outcome)
    requires Inv(f) && Enabled(f, Ask(req, env, order, w))
    ensures Inv(Next(f, Ask(req, env, order, w))) && Sendable(OutMessage(Answer(f, req, env), order))
  {
    hide Relay.Inv, Connection.Inv, Connection.SendInLoop, Session.OnRequest, Session.Reply, EncodeAll, AllSendable,
         GoodId, GoodUrl, WellFormed, Representable, Serialize, Relay.Obey;
    var ask := Relay.Ask(f.me, req, env);
    var s := f.world.sessions[f.me];
    var resp := Answer(f, req, env);
    ReplyGood(s.terms.(cseq := req.cseq), req, env);
    Relay.StepKeepsInv(f.world, ask);
    SameSessionId(s, req, env);
    SendAccepts(f.conn, Serialize(resp, order), w);
    var text := Serialize(resp, order);
    assert text + [] == text;
    GivenOk(f, Next(f, Ask(req, env, order, w)), OutMessage(resp, order), text);
  }

  lemma SameSessionId(s: Session.SessionState, req: RtspMessage, env: Session.Env)
    ensures Session.OnRequest(s, req, env).terms.sessionId == s.terms.sessionId
  {
    hide Channels, Session.ExtractPath, InterleavedText, IntText, Find, Session.ClientPort, SessionHeader, Session.SdpOf,
         Session.RtpInfo, OptionsResponse, DescribeResponse, SetupResponse, PlayResponse, TeardownResponse, OkResponse,
         ErrorResponse, WithHeader;
  }

  // ---------- every step ----------

  /** The table moved on and posted only well-framed packets. */
  lemma TabledOk(f: Flow, s: Relay.Step)
    requires Inv(f) && Relay.Enabled(f.world, s)
    requires forall q :: q in Tabled(f, s).posted ==> PostedOk(q)
    requires f.me in Tabled(f, s).world.sessions ==> GoodId(Tabled(f, s).world.sessions[f.me].terms.sessionId)
    ensures Inv(Tabled(f, s))
  {
    hide Relay.Inv, Connection.Inv, Relay.Next, AllSendable, EncodeAll, GoodId, PostedOk;
    Relay.StepKeepsInv(f.world, s);
  }

  lemma PacketOk(f: Flow, p: Bytes, data: Bytes, down: set<nat>)
    requires Inv(f) && |data| <= 65535 && (f.me in down <==> !Up(f))
    ensures Inv(Tabled(f, Relay.Push(p, data, down)))
    ensures Waiting(Tabled(f, Relay.Push(p, data, down)).posted) == Waiting(f.posted) + Packet(f, p, data)
  {
    hide Relay.Inv, Connection.Inv, AllSendable, EncodeAll, GoodId, PostedOk, Relay.PushAll;
    PacketPosted(f, p, data, down);
    if p in f.world.sinks { Relay.PushKeepsTerms(f.world.sessions, f.world.sinks[p], data, down); }
    TabledOk(f, Relay.Push(p, data, down));
  }

  /** One turn of the drain loop, seen from the fan-out. */
  lemma ItemTaken(f: Flow, down: set<nat>)
    requires Enabled(f, TakeItem(down))
    ensures var Item(event, size) := NextItem(f.inbox);
            && 4 <= size <= |f.inbox| && (event.Frame? ==> |event.payload| <= 65535)
            && Next(f, TakeItem(down)) ==
                 var g := f.(inbox := f.inbox[size..], source := Source.OnEvent(f.source, event));
                 if event.Frame? then Tabled(g, Relay.Push(f.path, event.payload, down)) else g
  {
    hide Tabled, Source.OnEvent;
    ItemBounds(f.inbox);
  }

  lemma StepKeepsInv(f: Flow, step: Step)
    requires Inv(f) && Enabled(f, step)
    ensures Inv(Next(f, step)) && Next(f, step).path == f.path && Next(f, step).me == f.me
  {
    hide Relay.Inv, AllSendable, EncodeAll, GoodId, PostedOk, Tabled, NextItem, Source.OnEvent, Source.Next, Inv;
    match step {
      case TakeItem(down) =>
        ItemTaken(f, down);
        var Item(event, size) := NextItem(f.inbox);
        var g := f.(inbox := f.inbox[size..], source := Source.OnEvent(f.source, event));
        QuietOk(f, g);
        if event.Frame? { PacketOk(g, f.path, event.payload, down); }
        SameNames(g, event, f.path, down);
      case Table(s) =>
        SameTableNames(f, s);
        if s.Push? {
          PacketOk(f, s.path, s.data, s.down);
        } else {
          OthersPostNothing(f, s);
          PostedStays(f, Tabled(f, s));
          TabledOk(f, s);
        }
      case Ask(req, env, order, w) => RequestOk(f, req, env, order, w);
      case RunTask(w) => if f.half.Some? { PayloadOk(f, w); } else { HeaderOk(f, w); }
      case Writable(ws) => WritableOk(f, ws);
      case Lose => LoseOk(f);
      case _ => QuietOk(f, Next(f, step));
    }
  }

  lemma SameNames(g: Flow, event: Event, p: Bytes, down: set<nat>)
    ensures event.Frame? ==> var h := Tabled(g, Relay.Push(p, event.payload, down)); h.path == g.path && h.me == g.me
  {
    hide Relay.Next;
  }

  lemma SameTableNames(f: Flow, s: Relay.Step)
    requires Relay.Enabled(f.world, s)
    ensures Tabled(f, s).path == f.path && Tabled(f, s).me == f.me
  {
    hide Relay.Next;
  }

  lemma PostedStays(f: Flow, g: Flow)
    requires Inv(f) && g.posted == f.posted
    ensures forall p :: p in g.posted ==> PostedOk(p)
  {
  }

  /** Nothing but the receive buffer and the source changed. */
  lemma QuietOk(f: Flow, g: Flow)
    requires Inv(f) && g == f.(inbox := g.inbox, source := g.source)
    ensures Inv(g)
  {
    hide Relay.Inv, Connection.Inv, AllSendable, EncodeAll, GoodId, PostedOk;
  }

  lemma WritableOk(f: Flow, ws: seq<Connection.Outcome>)
    requires Inv(f) && f.conn.open
    ensures Inv(f.(conn := Connection.HandleWrite(f.conn, ws)))
    ensures Up(f.(conn := Connection.HandleWrite(f.conn, ws))) ==> Up(f)
  {
    hide Relay.Inv, AllSendable, EncodeAll, GoodId, PostedOk;
    Connection.StepKeepsInv(f.conn, Connection.WriteEvent(ws));
    Connection.FlushKeepsInv(f.conn, ws);
  }

  lemma LoseOk(f: Flow)
    requires Inv(f)
    ensures Inv(f.(conn := Connection.Lost(f.conn)))
  {
    hide Relay.Inv, AllSendable, EncodeAll, GoodId, PostedOk;
    Connection.StepKeepsInv(f.conn, Connection.Gone);
  }

  /** A connection that is not connected never is again, and is given nothing more. */
  lemma StaysDown(f: Flow, step: Step)
    requires Inv(f) && Enabled(f, step) && !Up(f)
    ensures !Up(Next(f, step)) && Next(f, step).items == f.items && Owed(f, step) == []
  {
    hide Relay.Next, Relay.Inv, AllSendable, EncodeAll, GoodId, PostedOk, Pairs, Source.OnEvent, Source.Next, Answer,
         Serialize, Session.Reply, NextItem;
    match step {
      case TakeItem(down) =>
        ItemTaken(f, down);
        assert Owed(f, step) == [] by { assert !Subscribed(f, f.path); }
      case Writable(ws) => WritableOk(f, ws);
      case _ =>
    }
  }

  lemma PickOne(e: Event, frames: bool)
    ensures Pick([e], frames) == if e.Frame? == frames then [e] else []
  {
    assert [e][1..] == [];
  }

  /** What goes through grows by one posted packet. */
  lemma ThroughPosted(f: Flow, g: Flow, more: seq<Event>, frames: bool)
    requires g.items == f.items && Waiting(g.posted) == Waiting(f.posted) + more
    ensures Through(g, frames) == Through(f, frames) + Pick(more, frames)
  {
    hide Pick, Waiting;
    PickAppend(Waiting(f.posted), more, frames);
    assert Pick(EventsOf(f.items), frames) + (Pick(Waiting(f.posted), frames) + Pick(more, frames))
        == Through(f, frames) + Pick(more, frames);
  }

  /** The oldest posted packet becomes the newest item: in all, nothing changes. */
  lemma ThroughTask(f: Flow, g: Flow, frames: bool)
    requires Inv(f) && f.posted != [] && Sendable(FrameOf(f.posted[0]))
    requires g.posted == f.posted[1..] && g.items == f.items + [FrameOf(f.posted[0])]
    ensures Through(g, frames) == Through(f, frames)
    ensures Pick(EventsOf(g.items), frames) <= Through(f, frames)
  {
    hide Pick, FrameOf, Sendable, Relay.Inv, Connection.Inv, EncodeAll;
    ItemsGrow(f.items, FrameOf(f.posted[0]));
    var given, e, rest := EventsOf(f.items), EventOf(FrameOf(f.posted[0])), Waiting(f.posted[1..]);
    assert Waiting(f.posted) == [e] + rest;
    hide Inv, Waiting, EventsOf, EventOf;
    PickMoves(given, e, rest, frames);
  }

  lemma PickMoves(a: seq<Event>, e: Event, b: seq<Event>, frames: bool)
    ensures Pick(a + [e], frames) + Pick(b, frames) == Pick(a, frames) + Pick([e] + b, frames)
    ensures Pick(a + [e], frames) <= Pick(a, frames) + Pick([e] + b, frames)
  {
    hide Pick;
    PickAppend(a, [e], frames);
    PickAppend([e], b, frames);
  }

  /** An answer is given at once, past the packets that wait; of each kind the order is kept. */
  lemma ThroughAnswer(f: Flow, g: Flow, item: Outgoing, frames: bool)
    requires Inv(f) && item.OutMessage? && Sendable(item) && g.posted == f.posted && g.items == f.items + [item]
    ensures Through(g, frames) == Through(f, frames) + Pick([EventOf(item)], frames)
    ensures Pick(EventsOf(g.items), frames) <= Through(f, frames) + Pick([EventOf(item)], frames)
  {
    hide Pick, Sendable, Waiting, Relay.Inv, Connection.Inv, EncodeAll;
    ItemsGrow(f.items, item);
    PickAppend(EventsOf(f.items), [EventOf(item)], frames);
    PickOne(EventOf(item), frames);
    if !frames { OnlyFramesWait(f.posted); }
  }

  lemma {:induction false} OnlyFramesWait(posted: seq<Posted>)
    ensures Pick(Waiting(posted), false) == []
    decreases posted
  {
    if posted != [] {
      OnlyFramesWait(posted[1..]);
      assert Waiting(posted)[1..] == Waiting(posted[1..]);
    }
  }

  /** While the connection holds, what has gone through or waits grows by exactly what is owed; and
      whatever the step, the connection was given nothing that was not owed, in that order. */
  lemma StepThrough(f: Flow, step: Step, frames: bool)
    requires Inv(f) && Enabled(f, step) && Up(f)
    ensures Up(Next(f, step)) ==> Through(Next(f, step), frames) == Through(f, frames) + Pick(Owed(f, step), frames)
    ensures Pick(EventsOf(Next(f, step).items), frames) <= Through(f, frames) + Pick(Owed(f, step), frames)
  {
    hide Relay.Inv, AllSendable, EncodeAll, Tabled, NextItem, Source.OnEvent, Source.Next, Pick, Inv, Waiting,
         Connection.SendInLoop, Connection.HandleWrite, FrameOf, Sendable, Serialize, Relay.Next, Packet;
    PickNothing(frames);
    var g := Next(f, step);
    match step {
      case TakeItem(down) => TakeThrough(f, down, frames);
      case Table(s) =>
        TableThrough(f, s, frames);
      case Ask(req, env, order, w) =>
        RequestOk(f, req, env, order, w);
        ThroughAnswer(f, g, OutMessage(Answer(f, req, env), order), frames);
      case RunTask(w) =>
        assert Through(f, frames) + [] == Through(f, frames);
        if f.half.None? {
          HeaderOk(f, w);
          ThroughTask(f, g, frames);
        }
      case _ =>
        assert Through(f, frames) + [] == Through(f, frames);
    }
  }

  lemma SameItems(f: Flow, s: Relay.Step)
    requires Relay.Enabled(f.world, s)
    ensures Tabled(f, s).items == f.items && Tabled(f, s).conn == f.conn
  {
    hide Relay.Next;
  }

  lemma ItemsAlready(f: Flow, more: seq<Event>, frames: bool)
    ensures Pick(EventsOf(f.items), frames) <= Through(f, frames) + more
  {
    hide Pick;
  }

  lemma TakeThrough(f: Flow, down: set<nat>, frames: bool)
    requires Inv(f) && Enabled(f, TakeItem(down)) && Up(f)
    ensures var g := Next(f, TakeItem(down));
            && Up(g) && Through(g, frames) == Through(f, frames) + Pick(Owed(f, TakeItem(down)), frames)
            && Pick(EventsOf(g.items), frames) <= Through(f, frames) + Pick(Owed(f, TakeItem(down)), frames)
  {
    hide NextItem, Pick, Inv, Source.OnEvent, Waiting, Tabled, Packet;
    ItemTaken(f, down);
    var Item(event, size) := NextItem(f.inbox);
    var g := f.(inbox := f.inbox[size..], source := Source.OnEvent(f.source, event));
    PickNothing(frames);
    match event {
      case Frame(_, payload) =>
        QuietOk(f, g);
        PacketOk(g, f.path, payload, down);
        SamePacket(f, g, f.path, payload);
        SameItems(g, Relay.Push(f.path, payload, down));
        ThroughPosted(g, Tabled(g, Relay.Push(f.path, payload, down)), Packet(f, f.path, payload), frames);
        ItemsAlready(f, Pick(Owed(f, TakeItem(down)), frames), frames);
      case Message(_) =>
        assert Through(f, frames) + [] == Through(f, frames);
    }
  }

  lemma SamePacket(f: Flow, g: Flow, p: Bytes, data: Bytes)
    requires g == f.(inbox := g.inbox, source := g.source)
    ensures Packet(g, p, data) == Packet(f, p, data)
  {
  }

  lemma TableThrough(f: Flow, s: Relay.Step, frames: bool)
    requires Inv(f) && Enabled(f, Table(s)) && Up(f)
    ensures var g := Next(f, Table(s));
            && Up(g) && Through(g, frames) == Through(f, frames) + Pick(Owed(f, Table(s)), frames)
            && Pick(EventsOf(g.items), frames) <= Through(f, frames) + Pick(Owed(f, Table(s)), frames)
  {
    hide Pick, Inv, Waiting, Tabled, Packet;
    SameItems(f, s);
    PickNothing(frames);
    if s.Push? {
      PacketOk(f, s.path, s.data, s.down);
      ThroughPosted(f, Tabled(f, s), Packet(f, s.path, s.data), frames);
      ItemsAlready(f, Pick(Owed(f, Table(s)), frames), frames);
    } else {
      OthersPostNothing(f, s);
      assert Through(f, frames) + [] == Through(f, frames);
    }
  }

  // ---------- every run ----------

  lemma {:induction false} RunKeepsInv(f: Flow, steps: seq<Step>)
    requires Inv(f) && Possible(f, steps)
    ensures Inv(Run(f, steps)) && Run(f, steps).path == f.path && Run(f, steps).me == f.me
    decreases steps
  {
    hide Inv, Next, Enabled;
    if steps != [] {
      StepKeepsInv(f, steps[0]);
      RunKeepsInv(Next(f, steps[0]), steps[1..]);
    }
  }

  lemma {:induction false} NothingAfterLoss(f: Flow, steps: seq<Step>)
    requires Inv(f) && Possible(f, steps) && !Up(f)
    ensures !Up(Run(f, steps)) && Run(f, steps).items == f.items && OwedIn(f, steps) == []
    decreases steps
  {
    hide Inv, Next, Enabled, Owed;
    if steps != [] {
      StepKeepsInv(f, steps[0]);
      StaysDown(f, steps[0]);
      NothingAfterLoss(Next(f, steps[0]), steps[1..]);
    }
  }

  /** Over a whole run: of each kind, frames or answers, what the connection was given so far is a
      front part of what is owed, and while it holds the rest is exactly what is still posted. */
  lemma {:induction false} RunThrough(f: Flow, steps: seq<Step>, frames: bool)
    requires Inv(f) && Possible(f, steps) && Up(f)
    ensures Up(Run(f, steps)) ==> Through(Run(f, steps), frames) == Through(f, frames) + Pick(OwedIn(f, steps), frames)
    ensures Pick(EventsOf(Run(f, steps).items), frames) <= Through(f, frames) + Pick(OwedIn(f, steps), frames)
    decreases steps
  {
    hide Inv, Next, Enabled, Owed, Through, Pick;
    PickNothing(frames);
    if steps == [] {
      assert Through(f, frames) + [] == Through(f, frames);
      ItemsAlready(f, [], frames);
    } else {
      var g := Next(f, steps[0]);
      var now, later := Pick(Owed(f, steps[0]), frames), Pick(OwedIn(g, steps[1..]), frames);
      StepKeepsInv(f, steps[0]);
      StepThrough(f, steps[0], frames);
      PickAppend(Owed(f, steps[0]), OwedIn(g, steps[1..]), frames);
      assert Through(f, frames) + (now + later) == Through(f, frames) + now + later;
      if Up(g) {
        RunThrough(g, steps[1..], frames);
      } else {
        NothingAfterLoss(g, steps[1..]);
      }
    }
  }

  /** A part of the items that arrived, seen through `Pick`. */
  lemma PickPrefix(items: seq<Outgoing>, k: nat, frames: bool)
    requires k <= |items|
    ensures Pick(EventsOf(items[..k]), frames) <= Pick(EventsOf(items), frames)
  {
    hide Pick;
    assert EventsOf(items) == EventsOf(items[..k]) + EventsOf(items[k..]);
    PickAppend(EventsOf(items[..k]), EventsOf(items[k..]), frames);
  }

  /** From an empty relay on, for every chunking of the upstream's bytes, every interleaving of joins,
      leaves, requests and packets, and every pattern of partial, blocked and failed writes: the bytes
      on the player's wire decode, by the same drain loop, to a front part of the packets owed to it,
      in order and on its own channel, and of its answers, in order. Once nothing is posted, half given
      or queued on a connection that holds, they decode to all of them and nothing is left over. */
  lemma Transparency(path: Bytes, me: nat, url: Bytes, maxSources: nat, steps: seq<Step>)
    requires Possible(Start(path, me, url, maxSources), steps)
    ensures var f := Start(path, me, url, maxSources);
            var g := Run(f, steps);
            var got := Drain(g.conn.wire);
            && Pick(got.events, true) <= Pick(OwedIn(f, steps), true)
            && Pick(got.events, false) <= Pick(OwedIn(f, steps), false)
            && (Up(g) && g.posted == [] && g.half.None? && g.conn.output == [] ==>
                  && Pick(got.events, true) == Pick(OwedIn(f, steps), true)
                  && Pick(got.events, false) == Pick(OwedIn(f, steps), false)
                  && got.rest == [])
  {
    hide Pick, EncodeAll, Drain, Relay.Inv, Run, Possible, Sendable;
    var f := Start(path, me, url, maxSources);
    StartInv(path, me, url, maxSources);
    var g := Run(f, steps);
    RunKeepsInv(f, steps);
    WireDecodes(g);
    RunThrough(f, steps, true);
    RunThrough(f, steps, false);
    PickNothing(true);
    PickNothing(false);
  }

  lemma WireDecodes(g: Flow)
    requires Inv(g)
    ensures Pick(Drain(g.conn.wire).events, true) <= Pick(EventsOf(g.items), true)
    ensures Pick(Drain(g.conn.wire).events, false) <= Pick(EventsOf(g.items), false)
    ensures Up(g) && g.half.None? && g.conn.output == [] ==> Drain(g.conn.wire) == Drained(EventsOf(g.items), [])
  {
    hide Pick, EncodeAll, Drain, Relay.Inv, AllSendable;
    var all := EncodeAll(g.items);
    var n := |g.conn.wire|;
    assert all[..n] == g.conn.wire;
    var k := PrefixDecoding(g.items, n);
    PickPrefix(g.items, k, true);
    PickPrefix(g.items, k, false);
    if Up(g) && g.half.None? && g.conn.output == [] {
      assert g.conn.accepted + [] == g.conn.accepted && g.conn.wire + [] == g.conn.wire;
      assert g.items[..k] == g.items;
      assert all + Drain(all[..n]).rest == all[..n];
    }
  }

  // ---------- an answer between header and payload ----------

  /** Why no request may be handled between the two sends of a packet. If one is, and header, answer and
      payload are accepted, the reader still gets every item before, and then a packet of the right length
      made of the answer and the payload: the right one exactly when the payload is a front part of both
      together. */
  lemma AnswerBetween(f: Flow, answer: Bytes, w: Connection.Outcome, v: Connection.Outcome)
    requires Inv(f) && Up(f) && Lacking(f) != []
    requires Connection.SendInLoop(Connection.SendInLoop(f.conn, answer, w), Lacking(f), v).state == Connection.Connected
    ensures var accepted := Connection.SendInLoop(Connection.SendInLoop(f.conn, answer, w), Lacking(f), v).accepted;
            var got, n := Drain(accepted).events, |f.items| - 1;
            && 0 <= n < |got| && got[..n] == EventsOf(f.items[..n])
            && f.items[n].OutFrame?
            && got[n] == Frame(f.items[n].channel, (answer + Lacking(f))[..|Lacking(f)|])
            && (got[n] == EventOf(f.items[n]) <==> Lacking(f) <= answer + Lacking(f))
  {
    hide NextItem, Drain, Inv, Connection.Inv, Connection.SendInLoop, FrameHeader, EncodeAll, AllSendable, EventOf;
    var payload, n := Lacking(f), |f.items| - 1;
    HeaderGiven(f);
    assert Connection.Inv(f.conn) by { InvOfConn(f); }
    SendAccepts(f.conn, answer, w);
    SendAccepts(Connection.SendInLoop(f.conn, answer, w), payload, v);
    SplitStream(f.items[..n], f.items[n].channel, payload, answer);
    assert EventOf(f.items[n]) == Frame(f.items[n].channel, payload) by { EventOfFrame(f.items[n]); }
    FrontOf(answer + payload, payload);
  }

  lemma FrontOf(s: Bytes, p: Bytes)
    requires |p| <= |s|
    ensures s[..|p|] == p <==> p <= s
  {
  }

  lemma EventOfFrame(o: Outgoing)
    ensures o.OutFrame? ==> EventOf(o) == Frame(o.channel, o.payload)
  {
  }

  lemma InvOfConn(f: Flow)
    requires Inv(f)
    ensures Connection.Inv(f.conn)
  {
    hide Connection.Inv, Relay.Inv, AllSendable, EncodeAll;
  }

  /** While half of a packet is lacking, the connection has accepted every item before and the header. */
  lemma HeaderGiven(f: Flow)
    requires Inv(f) && Up(f) && Lacking(f) != []
    ensures f.items != [] && AllSendable(f.items[..|f.items| - 1])
    ensures var o := f.items[|f.items| - 1];
            && o.OutFrame? && o.payload == Lacking(f) && |o.payload| <= 65535
            && f.conn.accepted == EncodeAll(f.items[..|f.items| - 1]) + FrameHeader(o.channel, |o.payload|)
  {
    hide Relay.Inv, Connection.Inv, FrameHeader, EncodeAll;
    var n := |f.items| - 1;
    var o := f.items[n];
    assert Sendable(o);
    assert f.items == f.items[..n] + [o];
    EncodeAppend(f.items[..n], [o]);
    OneItem(o);
    var before, header := EncodeAll(f.items[..n]), FrameHeader(o.channel, |o.payload|);
    assert f.conn.accepted + o.payload == before + header + o.payload;
    SameFront(f.conn.accepted, before + header, o.payload);
  }

  lemma SameFront(a: Bytes, b: Bytes, c: Bytes)
    requires a + c == b + c
    ensures a == b
  {
    assert |a| == |b|;
    assert a == (a + c)[..|a|] && b == (b + c)[..|b|];
  }
}
