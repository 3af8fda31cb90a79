/** A player that stays subscribed: from all bytes of the upstream to all frames of the player. */
module WholeStream {
  import opened Text
  import opened RtspProtocol
  import opened RtspBuilders
  import opened CodecLaws
  import opened Framing
  import opened EndToEnd
  import Connection
  import Relay
  import Session
  import Source

  /** The bytes the upstream sends during `steps`. */
  function BytesIn(steps: seq<Step>): Bytes {
    if steps == [] then [] else (if steps[0].Chunk? then steps[0].bytes else []) + BytesIn(steps[1..])
  }

  /** All over one connection: the source never gets a new one. */
  predicate SameConnection(steps: seq<Step>) {
    forall i :: 0 <= i < |steps| ==> !(steps[i].Upstream? && steps[i].event.Connected?)
  }

  /** The item a step takes out of the receive buffer. */
  function TakenBy(f: Flow, step: Step): seq<Event> {
    if step.TakeItem? && NextItem(f.inbox).Item? then [NextItem(f.inbox).event] else []
  }

  ghost function Taken(f: Flow, steps: seq<Step>): seq<Event>
    requires Possible(f, steps)
    decreases steps
  {
    if steps == [] then [] else TakenBy(f, steps[0]) + Taken(Next(f, steps[0]), steps[1..])
  }

  // ---------- nothing of the upstream is lost ----------

  lemma DrainedAppend(a: seq<Event>, b: seq<Event>, d: Drained)
    ensures Drained(a + (b + d.events), d.rest) == Drained(a + b + d.events, d.rest)
  {
  }

  /** Table and connection do not touch the receive buffer or the source. */
  lemma InboxKept(f: Flow, step: Step)
    requires Enabled(f, step) && !step.Chunk? && !step.TakeItem? && !step.Upstream?
    ensures Next(f, step).inbox == f.inbox && Next(f, step).source == f.source
  {
    hide Relay.Next, Answer, Pairs, Sends, FrameOf;
  }

  lemma InboxTaken(f: Flow, down: set<nat>)
    requires Enabled(f, TakeItem(down))
    ensures var Item(event, size) := NextItem(f.inbox);
            && 4 <= size <= |f.inbox| && Next(f, TakeItem(down)).inbox == f.inbox[size..]
            && Next(f, TakeItem(down)).source == Source.OnEvent(f.source, event)
  {
    hide NextItem, Relay.Next, Pairs, Sends, Source.OnEvent;
    ItemTaken(f, down);
  }

  lemma InboxFed(f: Flow, step: Step)
    requires Enabled(f, step)
    ensures step.Chunk? ==> Next(f, step).inbox == f.inbox + step.bytes && Next(f, step).source == f.source
    ensures step.Upstream? && !step.event.Connected? ==> Next(f, step).inbox == f.inbox
  {
    hide NextItem, Relay.Next, Pairs, Sends, Source.OnEvent, Tabled;
  }

  /** One step, with everything that is still to come behind it. */
  lemma StepConserves(f: Flow, step: Step, more: Bytes)
    requires Enabled(f, step) && !(step.Upstream? && step.event.Connected?)
    ensures var later := Drain(Next(f, step).inbox + more);
            Drain(f.inbox + ((if step.Chunk? then step.bytes else []) + more))
              == Drained(TakenBy(f, step) + later.events, later.rest)
  {
    hide NextItem, Drain, Next, Enabled;
    var own := if step.Chunk? then step.bytes else [];
    if step.TakeItem? {
      CanTake(f, step.down);
      InboxTaken(f, step.down);
      var size := NextItem(f.inbox).size;
      ItemStable(f.inbox, more);
      DrainOne(f.inbox + more);
      assert (f.inbox + more)[size..] == f.inbox[size..] + more;
      assert f.inbox + ([] + more) == f.inbox + more;
    } else {
      if step.Chunk? || step.Upstream? { InboxFed(f, step); } else { InboxKept(f, step); }
      assert f.inbox + (own + more) == Next(f, step).inbox + more;
      assert TakenBy(f, step) == [];
    }
  }

  lemma CanTake(f: Flow, down: set<nat>)
    requires Enabled(f, TakeItem(down))
    ensures NextItem(f.inbox).Item?
  {
  }

  /** However the bytes come in chunks and whatever happens in between: the items taken, with those
      still complete in the buffer, are the items of the whole byte stream, and nothing else is left. */
  lemma {:induction false} UpstreamConserved(f: Flow, steps: seq<Step>)
    requires Possible(f, steps) && SameConnection(steps)
    ensures var end := Drain(Run(f, steps).inbox);
            Drain(f.inbox + BytesIn(steps)) == Drained(Taken(f, steps) + end.events, end.rest)
    decreases steps
  {
    hide Next, Enabled, Drain, TakenBy;
    if steps == [] {
      assert f.inbox + BytesIn(steps) == f.inbox;
      assert [] + Drain(f.inbox).events == Drain(f.inbox).events;
    } else {
      var g := Next(f, steps[0]);
      UpstreamConserved(g, steps[1..]);
      StepConserves(f, steps[0], BytesIn(steps[1..]));
      DrainedAppend(TakenBy(f, steps[0]), Taken(g, steps[1..]), Drain(Run(f, steps).inbox));
    }
  }

  lemma ItemInFront(inbox: Bytes, later: Bytes)
    requires NextItem(inbox).Item?
    ensures var Item(event, size) := NextItem(inbox);
            size <= |inbox| && Drain(inbox[..size] + later) == Drained([event] + Drain(later).events, Drain(later).rest)
  {
    hide NextItem, Drain;
    var Item(event, size) := NextItem(inbox);
    ItemFromItself(inbox);
    var item := inbox[..size];
    ItemStable(item, later);
    DrainOne(item + later);
    assert (item + later)[size..] == later;
  }

  lemma TakenFirst(f: Flow, down: set<nat>, more: Bytes, taken: Bytes, left: Bytes) returns (all: Bytes)
    requires Enabled(f, TakeItem(down)) && Next(f, TakeItem(down)).inbox + more == taken + left
    requires Drain(taken).rest == []
    ensures f.inbox + more == all + left
    ensures Drain(all) == Drained(TakenBy(f, TakeItem(down)) + Drain(taken).events, [])
  {
    hide Next, Enabled, NextItem, Drain;
    CanTake(f, down);
    InboxTaken(f, down);
    ItemInFront(f.inbox, taken);
    var item, rest := f.inbox[..NextItem(f.inbox).size], Next(f, TakeItem(down)).inbox;
    all := item + taken;
    assert f.inbox == item + rest;
    assert item + (rest + more) == item + rest + more && item + (taken + left) == item + taken + left;
  }

  lemma NothingTaken(f: Flow, step: Step)
    requires Enabled(f, step) && !step.TakeItem? && !(step.Upstream? && step.event.Connected?)
    ensures Next(f, step).inbox == f.inbox + (if step.Chunk? then step.bytes else []) && TakenBy(f, step) == []
  {
    hide Next, Enabled;
    if step.Chunk? || step.Upstream? { InboxFed(f, step); } else { InboxKept(f, step); }
    assert f.inbox + [] == f.inbox;
  }

  /** The bytes of the items taken: they come first, they drain to exactly those items, and the
      receive buffer holds what came behind them. */
  lemma {:induction false} TakenBytes(f: Flow, steps: seq<Step>) returns (taken: Bytes)
    requires Possible(f, steps) && SameConnection(steps)
    ensures f.inbox + BytesIn(steps) == taken + Run(f, steps).inbox
    ensures Drain(taken) == Drained(Taken(f, steps), [])
    decreases steps
  {
    hide Next, Enabled, NextItem;
    if steps == [] {
      taken := [];
      assert f.inbox + [] == [] + f.inbox;
      assert NextItem([]).Incomplete? by { EmptyIncomplete(); }
    } else {
      hide Drain, TakenBy;
      var g := Next(f, steps[0]);
      var own := if steps[0].Chunk? then steps[0].bytes else [];
      taken := TakenBytes(g, steps[1..]);
      if steps[0].TakeItem? {
        assert [] + BytesIn(steps[1..]) == BytesIn(steps[1..]);
        taken := TakenFirst(f, steps[0].down, BytesIn(steps[1..]), taken, Run(f, steps).inbox);
      } else {
        NothingTaken(f, steps[0]);
        assert f.inbox + (own + BytesIn(steps[1..])) == g.inbox + BytesIn(steps[1..]);
        assert [] + Taken(g, steps[1..]) == Taken(g, steps[1..]);
      }
    }
  }

  // ---------- what the source counts ----------

  /** `f` after `ps` more packets. */
  predicate FedBy(f: Source.Feed, g: Source.Feed, ps: seq<Bytes>) {
    && g.callback == f.callback && g.pktsReceived == f.pktsReceived + |ps|
    && g.bytesReceived == f.bytesReceived + Source.TotalLength(ps)
  }

  lemma {:induction false} TotalAppend(a: seq<Bytes>, b: seq<Bytes>)
    ensures Source.TotalLength(a + b) == Source.TotalLength(a) + Source.TotalLength(b)
    decreases a
  {
    if a == [] {
      assert a + b == b;
    } else {
      TotalAppend(a[1..], b);
      assert (a + b)[1..] == a[1..] + b;
    }
  }

  lemma {:induction false} PayloadsAppend(a: seq<Event>, b: seq<Event>)
    ensures Source.Payloads(a + b) == Source.Payloads(a) + Source.Payloads(b)
    decreases a
  {
    if a == [] {
      assert a + b == b;
    } else {
      PayloadsAppend(a[1..], b);
      assert (a + b)[1..] == a[1..] + b && (a + b)[0] == a[0];
    }
  }

  lemma PayloadsOne(e: Event)
    ensures Source.Payloads([e]) == if e.Frame? then [e.payload] else []
  {
    assert [e][1..] == [];
  }

  lemma StepFeeds(f: Flow, step: Step)
    requires Enabled(f, step)
    ensures FedBy(f.source.feed, Next(f, step).source.feed, Source.Payloads(TakenBy(f, step)))
  {
    hide NextItem, Next, Enabled;
    if step.TakeItem? {
      InboxTaken(f, step.down);
      CanTake(f, step.down);
      OneFed(f.source, NextItem(f.inbox).event);
    } else if step.Upstream? {
      StaysFed(f, step.event);
    } else if step.Chunk? {
      InboxFed(f, step);
    } else {
      InboxKept(f, step);
    }
  }

  lemma LengthOne(p: Bytes)
    ensures Source.TotalLength([p]) == |p|
  {
    assert [p][1..] == [];
    assert Source.TotalLength([p]) == |p| + Source.TotalLength([]);
  }

  lemma OneFed(s: Source.SourceState, e: Event)
    ensures FedBy(s.feed, Source.OnEvent(s, e).feed, Source.Payloads([e]))
  {
    hide Source.Advance;
    PayloadsOne(e);
    if e.Frame? { LengthOne(e.payload); }
  }

  lemma StaysFed(f: Flow, s: Source.Step)
    requires Enabled(f, Upstream(s))
    ensures Next(f, Upstream(s)).source.feed == f.source.feed
  {
    hide Source.SendOptions, Source.SendTeardown, Tabled, NextItem;
  }

  // ---------- what the player gets while subscribed ----------

  ghost predicate StaysSubscribed(f: Flow, steps: seq<Step>)
    requires Possible(f, steps)
    decreases steps
  {
    steps != [] ==> Subscribed(f, f.path) && StaysSubscribed(Next(f, steps[0]), steps[1..])
  }

  /** The same payloads, all on channel `c`. */
  function Tagged(c: Octet, ps: seq<Bytes>): seq<Event> {
    seq(|ps|, i requires 0 <= i < |ps| => Frame(c, ps[i]))
  }

  /** The player's session after `ps` more packets: counted, four bytes of framing each, on the channel
      agreed at SETUP. */
  predicate Served(s: Session.SessionState, t: Session.SessionState, ps: seq<Bytes>) {
    && t.terms.rtpChannel == s.terms.rtpChannel
    && t.output.pktsSent == s.output.pktsSent + |ps|
    && t.output.bytesSent == s.output.bytesSent + Source.TotalLength(ps) + 4 * |ps|
  }

  lemma ServedTwice(s: Session.SessionState, t: Session.SessionState, u: Session.SessionState, a: seq<Bytes>, b: seq<Bytes>)
    requires Served(s, t, a) && Served(t, u, b)
    ensures Served(s, u, a + b)
  {
    TotalAppend(a, b);
  }

  lemma OnePacketServed(s: Session.SessionState, data: Bytes)
    requires Session.Streaming(s.terms)
    ensures Served(s, Session.OnRtpData(s, data, true), [data])
  {
    hide FrameHeader;
    LengthOne(data);
  }

  /** A request that does not renegotiate changes neither the channel nor the counters. */
  lemma RequestServed(s: Session.SessionState, req: RtspMessage, env: Session.Env)
    requires !Relay.Renegotiates(req)
    ensures Served(s, Session.OnRequest(s, req, env), [])
  {
    hide Channels, Session.ExtractPath, InterleavedText, IntText, Find, Session.ClientPort, SessionHeader, Session.SdpOf,
         Session.RtpInfo, OptionsResponse, DescribeResponse, SetupResponse, PlayResponse, TeardownResponse, OkResponse,
         ErrorResponse, WithHeader;
  }

  /** A subscribed player is a sink of no other stream. */
  lemma NoOtherStream(f: Flow, p: Bytes)
    requires Inv(f) && Subscribed(f, f.path) && p != f.path
    ensures !Subscribed(f, p)
    ensures f.world.sessions[f.me].terms.phase == Session.Playing
  {
    hide EncodeAll, AllSendable;
    assert Relay.PlaysHere(f.world, f.me, f.path);
    assert Subscribed(f, p) ==> Relay.PlaysHere(f.world, f.me, p);
  }

  ghost predicate StepServes(f: Flow, step: Step)
    requires Enabled(f, step) && f.me in f.world.sessions
  {
    var ps, g := Source.Payloads(TakenBy(f, step)), Next(f, step);
    && f.me in g.world.sessions
    && Served(f.world.sessions[f.me], g.world.sessions[f.me], ps)
    && Pick(Owed(f, step), true) == Tagged(f.world.sessions[f.me].terms.rtpChannel, ps)
  }

  lemma TakeServes(f: Flow, down: set<nat>)
    requires Inv(f) && Enabled(f, TakeItem(down)) && Subscribed(f, f.path)
    ensures StepServes(f, TakeItem(down))
  {
    hide NextItem, Source.OnEvent, Session.OnRtpData, EncodeAll, AllSendable, Relay.PlaysHere, Relay.Inv, Relay.PushAll;
    ItemTaken(f, down);
    var Item(event, size) := NextItem(f.inbox);
    var g := f.(inbox := f.inbox[size..], source := Source.OnEvent(f.source, event));
    PayloadsOne(event);
    match event {
      case Frame(_, payload) =>
        PacketPushed(g, f.path, payload, down);
        PlaysWhenSubscribed(f, f.path);
        OnePacketServed(f.world.sessions[f.me], payload);
        var e := Frame(f.world.sessions[f.me].terms.rtpChannel, payload);
        PickOne(e, true);
        assert Tagged(f.world.sessions[f.me].terms.rtpChannel, [payload]) == [e];
      case Message(_) =>
    }
  }

  lemma TableServes(f: Flow, s: Relay.Step)
    requires Inv(f) && Enabled(f, Table(s)) && Subscribed(f, f.path)
    ensures StepServes(f, Table(s))
  {
    hide EncodeAll, AllSendable, Relay.PlaysHere, Relay.Inv, Relay.PushAll, Session.OnRequest, Session.OnRtpData, Relay.Obey;
    if s.Push? {
      NoOtherStream(f, s.path);
      PacketPushed(f, s.path, s.data, s.down);
    }
  }

  lemma AskServes(f: Flow, step: Step)
    requires Inv(f) && Enabled(f, step) && step.Ask? && Subscribed(f, f.path)
    ensures StepServes(f, step)
  {
    hide EncodeAll, AllSendable, Relay.PlaysHere, Relay.Inv, Session.OnRequest, Relay.Obey, Session.Reply,
         Serialize, Received;
    NoOtherStream(f, f.path + [ '/' ]);
    RequestServed(f.world.sessions[f.me], step.req, step.env);
    PickOne(Message(Received(Answer(f, step.req, step.env))), true);
  }

  lemma SubscribedIsServed(f: Flow, step: Step)
    requires Inv(f) && Enabled(f, step) && Subscribed(f, f.path)
    ensures StepServes(f, step)
  {
    hide EncodeAll, AllSendable, Relay.Inv, Relay.Next, Connection.SendInLoop, Connection.HandleWrite, Source.Next,
         FrameOf, NextItem, Inv;
    match step {
      case TakeItem(down) => TakeServes(f, down);
      case Table(s) => TableServes(f, s);
      case Ask(_, _, _, _) => AskServes(f, step);
      case _ =>
    }
  }

  /** As long as the player stays subscribed, every packet the source counts is a packet the player's
      session counts, with four bytes of framing each, and is owed to the player on its channel. */
  lemma {:induction false} CountersAgree(f: Flow, steps: seq<Step>)
    requires Inv(f) && Possible(f, steps) && f.me in f.world.sessions && StaysSubscribed(f, steps)
    ensures var g, ps := Run(f, steps), Source.Payloads(Taken(f, steps));
            && f.me in g.world.sessions && FedBy(f.source.feed, g.source.feed, ps)
            && Served(f.world.sessions[f.me], g.world.sessions[f.me], ps)
            && Pick(OwedIn(f, steps), true) == Tagged(f.world.sessions[f.me].terms.rtpChannel, ps)
    decreases steps
  {
    hide Inv, Next, Enabled, Subscribed, Pick, TakenBy, Owed, Source.Payloads, Source.TotalLength;
    if steps == [] {
      Nothing();
    } else {
      var s0, h := steps[0], Next(f, steps[0]);
      var a, b := Source.Payloads(TakenBy(f, s0)), Source.Payloads(Taken(h, steps[1..]));
      StepKeepsInv(f, s0);
      StepFeeds(f, s0);
      SubscribedIsServed(f, s0);
      CountersAgree(h, steps[1..]);
      PayloadsAppend(TakenBy(f, s0), Taken(h, steps[1..]));
      TotalAppend(a, b);
      PickAppend(Owed(f, s0), OwedIn(h, steps[1..]), true);
      ServedTwice(f.world.sessions[f.me], h.world.sessions[f.me], Run(f, steps).world.sessions[f.me], a, b);
      var c := f.world.sessions[f.me].terms.rtpChannel;
      assert Tagged(c, a + b) == Tagged(c, a) + Tagged(c, b);
    }
  }

  lemma Nothing()
    ensures Source.Payloads([]) == [] && Source.TotalLength([]) == 0 && Pick([], true) == []
  {
  }

  /** A run `before` after which the player is subscribed to its stream, and a run `during` which it
      stays, over one upstream connection. */
  ghost predicate Watches(f0: Flow, before: seq<Step>, during: seq<Step>) {
    && Possible(f0, before) && Possible(Run(f0, before), during)
    && Subscribed(Run(f0, before), Run(f0, before).path)
    && StaysSubscribed(Run(f0, before), during) && SameConnection(during)
  }

  /** Everything complete has been taken, run and written, over a connection that holds. */
  predicate Settled(g: Flow) {
    !NextItem(g.inbox).Item? && Up(g) && g.posted == [] && g.half.None? && g.conn.output == []
  }

  /** All bytes of the upstream that were not handled when the player joined. */
  ghost function Upcoming(f: Flow, during: seq<Step>): Bytes { f.inbox + BytesIn(during) }

  /** From an empty relay on, to the moment the player has joined, and on for as long as it stays: once
      everything is settled, the player's wire decodes to what it was owed before and then to every
      frame in the upstream's bytes since, in order, each payload unchanged and on the player's channel. */
  lemma EveryFrameArrives(path: Bytes, me: nat, url: Bytes, maxSources: nat, before: seq<Step>, during: seq<Step>)
    requires Watches(Start(path, me, url, maxSources), before, during)
    ensures var f0 := Start(path, me, url, maxSources);
            var f := Run(f0, before);
            var g := Run(f, during);
            && f.me == me && me in f.world.sessions
            && (Settled(g) ==>
                  Pick(Drain(g.conn.wire).events, true)
                    == Pick(OwedIn(f0, before), true)
                     + Tagged(f.world.sessions[me].terms.rtpChannel, Source.Payloads(Drain(Upcoming(f, during)).events)))
  {
    hide Inv, Next, Enabled, Pick, Drain, NextItem, EncodeAll, Source.Payloads, StaysSubscribed, Possible, Run,
         OwedIn, Taken;
    var f0 := Start(path, me, url, maxSources);
    var f := Run(f0, before);
    var g := Run(f, during);
    StartInv(path, me, url, maxSources);
    RunKeepsInv(f0, before);
    RunKeepsInv(f, during);
    RunThrough(f0, before, true);
    RunThrough(f, during, true);
    UpstreamConserved(f, during);
    CountersAgree(f, during);
    WireDecodes(g);
    PickNothing(true);
    if !NextItem(g.inbox).Item? {
      NothingComplete(g.inbox);
      assert Taken(f, during) + [] == Taken(f, during);
    }
  }

  /** And at every moment in between: the frames on the player's wire are a front part of those it was
      owed before and then the frames in the upstream's bytes. */
  lemma FramesSoFar(path: Bytes, me: nat, url: Bytes, maxSources: nat, before: seq<Step>, during: seq<Step>)
    requires Watches(Start(path, me, url, maxSources), before, during)
    ensures var f0 := Start(path, me, url, maxSources);
            var f := Run(f0, before);
            && f.me == me && me in f.world.sessions
            && Pick(Drain(Run(f, during).conn.wire).events, true)
                 <= Pick(OwedIn(f0, before), true)
                  + Tagged(f.world.sessions[me].terms.rtpChannel, Source.Payloads(Drain(Upcoming(f, during)).events))
  {
    hide Inv, Next, Enabled, Pick, Drain, EncodeAll, Source.Payloads, StaysSubscribed, Possible, Run,
         OwedIn, Taken;
    var f0 := Start(path, me, url, maxSources);
    var f := Run(f0, before);
    var g := Run(f, during);
    StartInv(path, me, url, maxSources);
    RunKeepsInv(f0, before);
    RunKeepsInv(f, during);
    RunThrough(f0, before, true);
    RunThrough(f, during, true);
    UpstreamConserved(f, during);
    CountersAgree(f, during);
    WireDecodes(g);
    var c := f.world.sessions[me].terms.rtpChannel;
    PayloadsAppend(Taken(f, during), Drain(g.inbox).events);
    var a, b := Source.Payloads(Taken(f, during)), Source.Payloads(Drain(g.inbox).events);
    assert Tagged(c, a + b) == Tagged(c, a) + Tagged(c, b);
    assert Pick(EventsOf(g.items), true) <= Pick(OwedIn(f0, before), true) + Tagged(c, a);
  }

  lemma NothingComplete(s: Bytes)
    requires !NextItem(s).Item?
    ensures Drain(s) == Drained([], s)
  {
    hide NextItem;
  }

  // ---------- relays in a chain ----------

  lemma {:induction false} PickedPayloads(evs: seq<Event>)
    ensures Source.Payloads(Pick(evs, true)) == Source.Payloads(evs)
    decreases evs
  {
    if evs != [] {
      PickedPayloads(evs[1..]);
      var own := if evs[0].Frame? then [evs[0]] else [];
      PayloadsAppend(own, Pick(evs[1..], true));
      if evs[0].Frame? { PayloadsOne(evs[0]); }
    }
  }

  lemma {:induction false} TaggedPayloads(c: Octet, ps: seq<Bytes>)
    ensures Source.Payloads(Tagged(c, ps)) == ps
    decreases ps
  {
    if ps != [] {
      TaggedPayloads(c, ps[1..]);
      assert Tagged(c, ps)[1..] == Tagged(c, ps[1..]);
      assert Tagged(c, ps)[0] == Frame(c, ps[0]);
    }
  }

  /** Every payload the first relay owed its player: before it joined for good, and since. */
  ghost function Relayed(a0: Flow, before: seq<Step>, during: seq<Step>): seq<Bytes>
    requires Possible(a0, before)
  {
    Source.Payloads(Pick(OwedIn(a0, before), true)) + Source.Payloads(Drain(Upcoming(Run(a0, before), during)).events)
  }

  /** Two relays in a chain: the second one's upstream connection carries the first one's wire. Its
      player may join at any time: `taken` are the bytes its relay had handled by then, among them the
      replies the SDP came in (`TakenBytes` gives them). However the bytes in between are cut, once both
      have settled the last player decodes what it was owed before and then, on its own channel, exactly
      the payloads the first relay sent behind those bytes, the replies of the first relay left out. */
  lemma ChainedRelays(
      a0: Flow, beforeA: seq<Step>, duringA: seq<Step>, b0: Flow, beforeB: seq<Step>, duringB: seq<Step>, taken: Bytes)
    requires a0 == Start(a0.path, a0.me, a0.source.shake.url, a0.world.maxSources)
    requires b0 == Start(b0.path, b0.me, b0.source.shake.url, b0.world.maxSources)
    requires Watches(a0, beforeA, duringA) && Watches(b0, beforeB, duringB)
    requires Settled(Run(Run(a0, beforeA), duringA)) && Settled(Run(Run(b0, beforeB), duringB))
    requires taken + Upcoming(Run(b0, beforeB), duringB) == Run(Run(a0, beforeA), duringA).conn.wire
    requires Drain(taken).rest == []
    ensures var b := Run(b0, beforeB);
            var all, k := Relayed(a0, beforeA, duringA), |Source.Payloads(Drain(taken).events)|;
            && b0.me in b.world.sessions && k <= |all|
            && Pick(Drain(Run(b, duringB).conn.wire).events, true)
                 == Pick(OwedIn(b0, beforeB), true) + Tagged(b.world.sessions[b0.me].terms.rtpChannel, all[k..])
  {
    hide Pick, Drain, Source.Payloads, Settled, Upcoming, Run, OwedIn, Possible, StaysSubscribed, Subscribed;
    EveryFrameArrives(a0.path, a0.me, a0.source.shake.url, a0.world.maxSources, beforeA, duringA);
    EveryFrameArrives(b0.path, b0.me, b0.source.shake.url, b0.world.maxSources, beforeB, duringB);
    var a := Run(a0, beforeA);
    var rest := Upcoming(Run(b0, beforeB), duringB);
    var early, since := Pick(OwedIn(a0, beforeA), true), Source.Payloads(Drain(Upcoming(a, duringA)).events);
    var c := a.world.sessions[a0.me].terms.rtpChannel;
    PickedPayloads(Drain(taken + rest).events);
    PayloadsAppend(early, Tagged(c, since));
    TaggedPayloads(c, since);
    DrainSplit(taken, rest);
    assert [] + rest == rest;
    PayloadsAppend(Drain(taken).events, Drain(rest).events);
    var first, later := Source.Payloads(Drain(taken).events), Source.Payloads(Drain(rest).events);
    assert Relayed(a0, beforeA, duringA) == first + later;
    assert (first + later)[|first|..] == later;
  }
}
