/** Which player gets which stream: the table of streams, their sinks, and the fan-out of packets. */
module Relay {
  import opened Text
  import opened RtspProtocol
  import opened RtspBuilders
  import opened Framing
  import Session
  import Source

  // ---------- the table as a value ----------

  /** The sinks of each stream, in the order in which they joined. */
  type Sinks<T> = map<Bytes, seq<T>>

  function WithoutAll<T(==)>(s: seq<T>, x: T): seq<T> {
    if s == [] then [] else (if s[0] == x then [] else [s[0]]) + WithoutAll(s[1..], x)
  }

  function AddSink<T>(m: Sinks<T>, path: Bytes, sink: T): Sinks<T> {
    if path in m then m[path := m[path] + [sink]] else m
  }

  /** `std::remove` and `erase`: every occurrence goes. */
  function RemoveSink<T(==)>(m: Sinks<T>, path: Bytes, sink: T): Sinks<T> {
    if path in m then m[path := WithoutAll(m[path], sink)] else m
  }

  function AddStream<T>(m: Sinks<T>, maxSources: nat, path: Bytes): Sinks<T> {
    if path in m || |m| >= maxSources then m else m[path := []]
  }

  /** One entry per stream and place in its list of sinks. */
  function Memberships<T>(m: Sinks<T>): set<(Bytes, nat)> {
    set p, i | p in m && 0 <= i < |m[p]| :: (p, i)
  }

  lemma {:induction false} WithoutAllFilters<T>(s: seq<T>, x: T)
    ensures multiset(WithoutAll(s, x)) == multiset(s)[x := 0]
    decreases s
  {
    if s != [] {
      assert s == [s[0]] + s[1..];
      WithoutAllFilters(s[1..], x);
    }
  }

  lemma {:induction false} WithoutAllAbsent<T>(s: seq<T>, x: T)
    requires x !in s
    ensures WithoutAll(s, x) == s
    decreases s
  {
    if s != [] { WithoutAllAbsent(s[1..], x); }
  }

  /** A sink that joins and leaves leaves the table as it was. */
  lemma JoinLeave<T>(m: Sinks<T>, path: Bytes, sink: T)
    requires path in m ==> sink !in m[path]
    ensures RemoveSink(AddSink(m, path, sink), path, sink) == m
  {
    if path in m {
      WithoutAllAppend(m[path], sink);
      WithoutAllAbsent(m[path], sink);
    }
  }

  lemma {:induction false} WithoutAllAppend<T>(s: seq<T>, x: T)
    ensures WithoutAll(s + [x], x) == WithoutAll(s, x)
    decreases s
  {
    if s == [] {
      assert [x][1..] == [];
    } else {
      WithoutAllAppend(s[1..], x);
      assert (s + [x])[1..] == s[1..] + [x];
    }
  }

  // ---------- sessions and their streams, over every run ----------

  /** All streams, and all sessions ever opened. */
  datatype World = World(maxSources: nat, sinks: Sinks<nat>, sessions: map<nat, Session.SessionState>)

  datatype Step =
    | Add(path: Bytes) | Remove(path: Bytes) | Open(id: nat, sessionId: Bytes)
    | Ask(id: nat, req: RtspMessage, env: Session.Env) | Leave(id: nat)
    | Push(path: Bytes, data: Bytes, down: set<nat>)

  predicate IsSink(w: World, id: nat) { exists p :: p in w.sinks && id in w.sinks[p] }

  /** The requests that take a session to another place in the negotiation. */
  predicate Renegotiates(req: RtspMessage) {
    req.kind == MessageKind.Request && req.verb in {Describe, Setup, Play}
  }

  /** Clients ask for nothing that takes a session elsewhere while it is a sink. */
  predicate Enabled(w: World, step: Step) {
    match step
    case Add(path) => path != []
    case Open(id, _) => id !in w.sessions
    case Ask(id, req, _) => id in w.sessions && (Renegotiates(req) ==> !IsSink(w, id))
    case Leave(id) => id in w.sessions
    case _ => true
  }

  function Obey(sinks: Sinks<nat>, id: nat, calls: seq<Session.Call>): Sinks<nat>
    decreases calls
  {
    if calls == [] then sinks else
    match calls[0]
    case AddSink(path) => Obey(AddSink(sinks, path, id), id, calls[1..])
    case RemoveSink(path) => Obey(RemoveSink(sinks, path, id), id, calls[1..])
  }

  lemma ObeyOne(sinks: Sinks<nat>, id: nat, path: Bytes)
    ensures Obey(sinks, id, [Session.AddSink(path)]) == AddSink(sinks, path, id)
    ensures Obey(sinks, id, [Session.RemoveSink(path)]) == RemoveSink(sinks, path, id)
  {
    assert [Session.AddSink(path)][1..] == [];
    assert [Session.RemoveSink(path)][1..] == [];
  }

  /** A session changes and its new calls reach the table. */
  function Update(w: World, id: nat, after: Session.SessionState): World
    requires id in w.sessions
  {
    var n := |w.sessions[id].calls|;
    var calls := if n <= |after.calls| then after.calls[n..] else [];
    World(w.maxSources, Obey(w.sinks, id, calls), w.sessions[id := after])
  }

  /** Each sink in turn gets the packet; `down` are those whose connection no longer holds. */
  function PushAll(sessions: map<nat, Session.SessionState>, sinks: seq<nat>, data: Bytes, down: set<nat>)
    : map<nat, Session.SessionState>
    decreases sinks
  {
    if sinks == [] then sessions
    else if sinks[0] !in sessions then PushAll(sessions, sinks[1..], data, down)
    else
      var s := Session.OnRtpData(sessions[sinks[0]], data, sinks[0] !in down);
      PushAll(sessions[sinks[0] := s], sinks[1..], data, down)
  }

  function Next(w: World, step: Step): World
    requires Enabled(w, step)
  {
    match step
    case Add(path) => w.(sinks := AddStream(w.sinks, w.maxSources, path))
    case Remove(path) => w.(sinks := w.sinks - {path})
    case Open(id, sessionId) => w.(sessions := w.sessions[id := Session.Initial(sessionId)])
    case Ask(id, req, env) => Update(w, id, Session.OnRequest(w.sessions[id], req, env))
    case Leave(id) => Update(w, id, Session.Close(w.sessions[id]))
    case Push(path, data, down) =>
      if path in w.sinks then w.(sessions := PushAll(w.sessions, w.sinks[path], data, down)) else w
  }

  ghost predicate NoDuplicates(s: seq<nat>) { forall i, j :: 0 <= i < j < |s| ==> s[i] != s[j] }

  ghost predicate PlaysHere(w: World, id: nat, path: Bytes) {
    id in w.sessions && w.sessions[id].terms.phase == Session.Playing && w.sessions[id].terms.path == path
  }

  /** A sink is a session playing that very stream, listed once; so it is in no other stream, and a
      session that closed is in none. */
  ghost predicate Inv(w: World) {
    && |w.sinks| <= w.maxSources && [] !in w.sinks
    && forall p :: p in w.sinks ==> NoDuplicates(w.sinks[p]) && forall id :: id in w.sinks[p] ==> PlaysHere(w, id, p)
  }

  lemma {:induction false} WithoutKeepsDistinct(s: seq<nat>, x: nat)
    requires NoDuplicates(s)
    ensures NoDuplicates(WithoutAll(s, x)) && forall y :: y in WithoutAll(s, x) <==> y in s && y != x
    decreases s
  {
    if s != [] {
      WithoutKeepsDistinct(s[1..], x);
      assert forall y :: y in s <==> y == s[0] || y in s[1..];
      assert s[0] !in s[1..];
      assert s[0] !in WithoutAll(s[1..], x);
    }
  }

  /** What one request does to phase, path and calls. */
  lemma RequestEffect(s: Session.SessionState, req: RtspMessage, env: Session.Env)
    ensures var t := Session.OnRequest(s, req, env);
            if req.kind != MessageKind.Request then t == s
            else if req.verb == Play then
              t.terms.phase == Session.Playing && t.terms.path == s.terms.path
              && t.calls == s.calls + [Session.AddSink(s.terms.path)]
            else if req.verb == Teardown then
              t.terms.phase == Session.Closed && t.terms.path == s.terms.path && t.calls == Session.Close(s).calls
            else if req.verb in {Describe, Setup} then
              t.terms.phase in {Session.Described, Session.Ready} && t.calls == s.calls
            else t.terms.phase == s.terms.phase && t.terms.path == s.terms.path && t.calls == s.calls
  {
    hide Channels, Session.ExtractPath, InterleavedText, IntText, Find, Session.ClientPort, SessionHeader, Session.SdpOf,
         Session.RtpInfo, OptionsResponse, DescribeResponse, SetupResponse, PlayResponse, TeardownResponse, OkResponse,
         ErrorResponse, WithHeader;
  }

  lemma SinkPlays(w: World, id: nat)
    requires Inv(w) && IsSink(w, id)
    ensures id in w.sessions && w.sessions[id].terms.phase == Session.Playing
    ensures w.sessions[id].terms.path in w.sinks && id in w.sinks[w.sessions[id].terms.path]
  {
    var p :| p in w.sinks && id in w.sinks[p];
    assert PlaysHere(w, id, p);
  }

  lemma SameMembership(w: World, id: nat, after: Session.SessionState)
    requires Inv(w) && id in w.sessions && after.calls == w.sessions[id].calls
    requires IsSink(w, id) ==> after.terms.phase == Session.Playing && after.terms.path == w.sessions[id].terms.path
    ensures Inv(Update(w, id, after))
  {
    forall p, x | p in w.sinks && x in w.sinks[p] ensures PlaysHere(Update(w, id, after), x, p) {
      assert PlaysHere(w, x, p);
    }
  }

  lemma Joins(w: World, id: nat, after: Session.SessionState, path: Bytes)
    requires Inv(w) && id in w.sessions && !IsSink(w, id)
    requires after.calls == w.sessions[id].calls + [Session.AddSink(path)]
    requires after.terms.phase == Session.Playing && after.terms.path == path
    ensures Inv(Update(w, id, after))
  {
    assert after.calls[|w.sessions[id].calls|..] == [Session.AddSink(path)];
    ObeyOne(w.sinks, id, path);
    var w' := Update(w, id, after);
    forall p | p in w'.sinks ensures NoDuplicates(w'.sinks[p]) && forall x :: x in w'.sinks[p] ==> PlaysHere(w', x, p) {
      forall x | x in w.sinks[p] ensures x != id && PlaysHere(w', x, p) { assert PlaysHere(w, x, p); }
      AppendDistinct(w.sinks[p], id);
    }
  }

  lemma AppendDistinct(s: seq<nat>, x: nat)
    requires NoDuplicates(s) && x !in s
    ensures NoDuplicates(s + [x])
  {
  }

  lemma Quits(w: World, id: nat, after: Session.SessionState)
    requires Inv(w) && id in w.sessions && after.terms.phase == Session.Closed
    requires after.calls == Session.Close(w.sessions[id]).calls
    ensures Inv(Update(w, id, after))
    ensures var m := Update(w, id, after).sinks; forall p :: p in m ==> id !in m[p]
  {
    var s := w.sessions[id];
    var w' := Update(w, id, after);
    if s.terms.phase == Session.Playing && s.terms.path != [] {
      assert after.calls[|s.calls|..] == [Session.RemoveSink(s.terms.path)];
      ObeyOne(w.sinks, id, s.terms.path);
      if s.terms.path in w.sinks { WithoutKeepsDistinct(w.sinks[s.terms.path], id); }
    } else {
      assert after.calls[|s.calls|..] == [];
      assert w'.sinks == w.sinks;
    }
    forall p | p in w'.sinks
      ensures NoDuplicates(w'.sinks[p]) && id !in w'.sinks[p] && forall x :: x in w'.sinks[p] ==> PlaysHere(w', x, p)
    {
      assert id in w.sinks[p] ==> PlaysHere(w, id, p);
      forall x | x in w'.sinks[p] ensures x != id && PlaysHere(w', x, p) {
        assert x in w.sinks[p];
        assert PlaysHere(w, x, p);
      }
    }
  }

  lemma {:induction false} PushKeepsTerms(
      sessions: map<nat, Session.SessionState>, sinks: seq<nat>, data: Bytes, down: set<nat>)
    ensures var after := PushAll(sessions, sinks, data, down);
            after.Keys == sessions.Keys
            && forall id :: id in sessions ==> after[id].terms == sessions[id].terms && after[id].calls == sessions[id].calls
    decreases sinks
  {
    hide Session.OnRtpData;
    if sinks != [] {
      if sinks[0] in sessions {
        var s := Session.OnRtpData(sessions[sinks[0]], data, sinks[0] !in down);
        DataKeepsTerms(sessions[sinks[0]], data, sinks[0] !in down);
        PushKeepsTerms(sessions[sinks[0] := s], sinks[1..], data, down);
      } else {
        PushKeepsTerms(sessions, sinks[1..], data, down);
      }
    }
  }

  lemma DataKeepsTerms(s: Session.SessionState, data: Bytes, connected: bool)
    ensures Session.OnRtpData(s, data, connected).terms == s.terms && Session.OnRtpData(s, data, connected).calls == s.calls
  {
  }

  lemma AskKeepsInv(w: World, id: nat, req: RtspMessage, env: Session.Env)
    requires Inv(w) && Enabled(w, Ask(id, req, env))
    ensures Inv(Update(w, id, Session.OnRequest(w.sessions[id], req, env)))
  {
    hide Session.OnRequest, Update, Obey, PlaysHere, NoDuplicates, Inv;
    var s := w.sessions[id];
    var after := Session.OnRequest(s, req, env);
    RequestEffect(s, req, env);
    if req.kind == MessageKind.Request && req.verb == Play {
      Joins(w, id, after, s.terms.path);
    } else if req.kind == MessageKind.Request && req.verb == Teardown {
      Quits(w, id, after);
    } else {
      if IsSink(w, id) { SinkPlays(w, id); }
      SameMembership(w, id, after);
    }
  }

  lemma PushKeepsInv(w: World, path: Bytes, data: Bytes, down: set<nat>)
    requires Inv(w)
    ensures Inv(Next(w, Push(path, data, down)))
  {
    hide Session.OnRtpData, PushAll, PlaysHere, NoDuplicates;
    if path in w.sinks { PushKeepsTerms(w.sessions, w.sinks[path], data, down); }
    TermsDecide(w, Next(w, Push(path, data, down)));
  }

  lemma StepKeepsInv(w: World, step: Step)
    requires Inv(w) && Enabled(w, step)
    ensures Inv(Next(w, step)) && Next(w, step).maxSources == w.maxSources
  {
    hide Session.OnRequest, Session.OnRtpData, PushAll, Obey, PlaysHere, NoDuplicates;
    match step {
      case Ask(id, req, env) => AskKeepsInv(w, id, req, env);
      case Leave(id) => Quits(w, id, Session.Close(w.sessions[id]));
      case Push(path, data, down) => PushKeepsInv(w, path, data, down);
      case Add(path) =>
        assert |Next(w, step).sinks| <= w.maxSources;
        TermsDecide(w, Next(w, step));
      case Remove(path) =>
        FewerStreams(w.sinks, path);
        TermsDecide(w, Next(w, step));
      case Open(id, sessionId) => TermsDecide(w, Next(w, step));
    }
  }

  lemma FewerStreams(m: Sinks<nat>, path: Bytes)
    ensures |m - {path}| <= |m|
  {
    if path in m {
      var rest := m - {path};
      assert m == rest[path := m[path]];
    } else {
      assert m - {path} == m;
    }
  }

  /** Membership looks only at phase and path. */
  lemma TermsDecide(w: World, w': World)
    requires Inv(w) && w'.maxSources == w.maxSources && |w'.sinks| <= w'.maxSources && [] !in w'.sinks
    requires forall p :: p in w'.sinks ==> w'.sinks[p] == [] || (p in w.sinks && w'.sinks[p] == w.sinks[p])
    requires forall id :: id in w.sessions ==> id in w'.sessions && w'.sessions[id].terms == w.sessions[id].terms
    ensures Inv(w')
  {
    forall p, id | p in w'.sinks && id in w'.sinks[p] ensures PlaysHere(w', id, p) { assert PlaysHere(w, id, p); }
  }

  predicate Possible(w: World, steps: seq<Step>)
    decreases steps
  {
    steps == [] || (Enabled(w, steps[0]) && Possible(Next(w, steps[0]), steps[1..]))
  }

  function Run(w: World, steps: seq<Step>): World
    requires Possible(w, steps)
    decreases steps
  {
    if steps == [] then w else Run(Next(w, steps[0]), steps[1..])
  }

  lemma {:induction false} RunKeepsInv(w: World, steps: seq<Step>)
    requires Inv(w) && Possible(w, steps)
    ensures Inv(Run(w, steps)) && Run(w, steps).maxSources == w.maxSources
    decreases steps
  {
    hide Inv, Next, Enabled;
    if steps != [] {
      StepKeepsInv(w, steps[0]);
      RunKeepsInv(Next(w, steps[0]), steps[1..]);
    }
  }

  /** From an empty relay on, while no sink asks to go elsewhere: whoever is a sink plays exactly that
      stream, once; no session is in two streams; a closed one is in none; streams stay bounded. */
  lemma FanOutSafety(maxSources: nat, steps: seq<Step>, p: Bytes, q: Bytes, i: nat, j: nat)
    requires Possible(World(maxSources, map[], map[]), steps)
    ensures var w := Run(World(maxSources, map[], map[]), steps);
            && |w.sinks| <= maxSources
            && (p in w.sinks && q in w.sinks && i < |w.sinks[p]| && j < |w.sinks[q]| ==>
                 && PlaysHere(w, w.sinks[p][i], p)
                 && (w.sinks[p][i] == w.sinks[q][j] ==> p == q && i == j))
  {
    RunKeepsInv(World(maxSources, map[], map[]), steps);
    var w := Run(World(maxSources, map[], map[]), steps);
    if p in w.sinks && q in w.sinks && i < |w.sinks[p]| && j < |w.sinks[q]| {
      assert PlaysHere(w, w.sinks[p][i], p) && PlaysHere(w, w.sinks[q][j], q);
    }
  }

  /** Clients that keep DESCRIBE and SETUP before one PLAY, until TEARDOWN, ask for nothing else. */
  predicate InOrder(phase: Session.Phase, verb: Method) {
    phase == Session.Playing ==> verb !in {Describe, Setup, Play}
  }

  lemma OrderSuffices(w: World, id: nat, req: RtspMessage, env: Session.Env)
    requires Inv(w) && id in w.sessions && InOrder(w.sessions[id].terms.phase, req.verb)
    ensures Enabled(w, Ask(id, req, env))
  {
    if IsSink(w, id) { SinkPlays(w, id); }
  }

  // ---------- a packet for one session ----------

  /** A packet `n` times over: a session listed `n` times gets it `n` times. */
  function Pushed(s: Session.SessionState, data: Bytes, connected: bool, n: nat): Session.SessionState {
    if n == 0 then s else Session.OnRtpData(Pushed(s, data, connected, n - 1), data, connected)
  }

  lemma PushedNext(s: Session.SessionState, data: Bytes, connected: bool, n: nat)
    ensures Pushed(s, data, connected, 0) == s
    ensures Pushed(s, data, connected, n + 1) == Session.OnRtpData(Pushed(s, data, connected, n), data, connected)
  {
    hide Session.OnRtpData;
  }

  /** The fan-out gives each session the packet as often as it is listed. */
  lemma {:induction false} FanOutCounts(
      sessions: map<nat, Session.SessionState>, sinks: seq<nat>, data: Bytes, down: set<nat>, id: nat)
    requires id in sessions
    ensures var after := PushAll(sessions, sinks, data, down);
            id in after && after[id] == Pushed(sessions[id], data, id !in down, multiset(sinks)[id])
    decreases sinks
  {
    hide Session.OnRtpData, Pushed;
    if sinks == [] {
      PushedNext(sessions[id], data, id !in down, 0);
    } else {
      var x := sinks[0];
      assert sinks == [x] + sinks[1..];
      var later := if x in sessions then sessions[x := Session.OnRtpData(sessions[x], data, x !in down)] else sessions;
      FanOutCounts(later, sinks[1..], data, down, id);
      if x == id { PushedFirst(sessions[id], data, id !in down, multiset(sinks[1..])[id]); }
    }
  }

  lemma {:induction false} PushedFirst(s: Session.SessionState, data: Bytes, up: bool, n: nat)
    ensures Pushed(Session.OnRtpData(s, data, up), data, up, n) == Pushed(s, data, up, n + 1)
    decreases n
  {
    hide Session.OnRtpData;
    if n > 0 { PushedFirst(s, data, up, n - 1); }
  }

  lemma {:induction false} ListedOnce(s: seq<nat>, x: nat)
    requires NoDuplicates(s)
    ensures multiset(s)[x] == if x in s then 1 else 0
    decreases s
  {
    if s != [] {
      assert s == [s[0]] + s[1..];
      ListedOnce(s[1..], x);
      assert s[0] !in s[1..];
    }
  }

  // ---------- what goes wrong out of order ----------

  /** The server rejects none of these requests, so safety is up to the client, and exactly this much
      of it: a request keeps the memberships right unless it is a DESCRIBE, SETUP or PLAY of a session
      that is a sink at that moment. */
  lemma OrderIsNeeded(w: World, id: nat, req: RtspMessage, env: Session.Env)
    requires Inv(w) && id in w.sessions
    ensures Inv(Update(w, id, Session.OnRequest(w.sessions[id], req, env))) <==> !(Renegotiates(req) && IsSink(w, id))
  {
    hide Session.OnRequest, Obey, WithoutAll;
    if Renegotiates(req) && IsSink(w, id) {
      SinkPlays(w, id);
      var s := w.sessions[id];
      var after := Session.OnRequest(s, req, env);
      RequestEffect(s, req, env);
      var w' := Update(w, id, after);
      var p := s.terms.path;
      if req.verb == Play {
        assert after.calls[|s.calls|..] == [Session.AddSink(p)];
        ObeyOne(w.sinks, id, p);
        var i :| 0 <= i < |w.sinks[p]| && w.sinks[p][i] == id;
        assert w'.sinks[p][i] == w'.sinks[p][|w.sinks[p]|] == id;
      } else {
        assert after.calls[|s.calls|..] == [];
        assert w'.sinks == w.sinks by { ObeyNothing(w.sinks, id); }
        assert id in w'.sinks[p] && !PlaysHere(w', id, p);
      }
    } else {
      StepKeepsInv(w, Ask(id, req, env));
    }
  }

  lemma ObeyNothing(sinks: Sinks<nat>, id: nat)
    ensures Obey(sinks, id, []) == sinks
  {
  }

  /** A second PLAY lists the session once more, and every packet is framed for it twice. */
  lemma {:induction false} PlayTwiceDuplicates(
      w: World, id: nat, path: Bytes, req: RtspMessage, env: Session.Env, data: Bytes, down: set<nat>)
    requires Inv(w) && path in w.sinks && id in w.sinks[path] && id in w.sessions
    requires req.kind == MessageKind.Request && req.verb == Play
    ensures var w' := Update(w, id, Session.OnRequest(w.sessions[id], req, env));
            && path in w'.sinks && w'.sinks[path] == w.sinks[path] + [id]
            && var after := PushAll(w'.sessions, w'.sinks[path], data, down);
               && id in after && after[id] == Pushed(w'.sessions[id], data, id !in down, 2)
               && (id !in down && w.sessions[id].terms.transport == Session.Tcp ==>
                     after[id].output.pktsSent == w'.sessions[id].output.pktsSent + 2)
  {
    assert PlaysHere(w, id, path);
    var s := w.sessions[id];
    var t := Session.OnRequest(s, req, env);
    PlayEffect(s, req, env);
    assert t.calls[|s.calls|..] == [Session.AddSink(path)];
    ObeyOne(w.sinks, id, path);
    hide Session.OnRequest, PushAll;
    var w' := Update(w, id, t);
    ListedOnce(w.sinks[path], id);
    FanOutCounts(w'.sessions, w'.sinks[path], data, down, id);
    assert multiset(w'.sinks[path])[id] == 2;
    PushedTwice(t, data, id !in down);
  }

  lemma PlayEffect(s: Session.SessionState, req: RtspMessage, env: Session.Env)
    requires req.kind == MessageKind.Request && req.verb == Play
    ensures var t := Session.OnRequest(s, req, env);
            && t.terms == s.terms.(cseq := req.cseq, phase := Session.Playing)
            && t.calls == s.calls + [Session.AddSink(s.terms.path)]
  {
    hide PlayResponse, Session.RtpInfo, WithHeader;
  }

  lemma PushedTwice(s: Session.SessionState, data: Bytes, up: bool)
    requires s.terms.phase == Session.Playing
    ensures up && s.terms.transport == Session.Tcp ==> Pushed(s, data, up, 2).output.pktsSent == s.output.pktsSent + 2
  {
    hide FrameHeader;
    PushedNext(s, data, up, 0);
    PushedNext(s, data, up, 1);
  }

  /** A DESCRIBE while playing hides the session from its own close: it stays a sink after it, */
  lemma DescribeWhilePlayingLeaks(w: World, id: nat, path: Bytes, req: RtspMessage, env: Session.Env)
    requires Inv(w) && path in w.sinks && id in w.sinks[path] && id in w.sessions
    requires req.kind == MessageKind.Request && req.verb == Describe
    ensures var w1 := Update(w, id, Session.OnRequest(w.sessions[id], req, env));
            var w2 := Update(w1, id, Session.Close(w1.sessions[id]));
            Leaked(w2, id, path)
  {
    hide Session.ExtractPath, Session.SdpOf, DescribeResponse, ErrorResponse, WithHeader;
  }

  /** A closed session that is still a sink. */
  predicate Leaked(w: World, id: nat, path: Bytes) {
    && id in w.sessions && w.sessions[id].terms.phase == Session.Closed
    && path in w.sinks && id in w.sinks[path]
  }

  /** and then for good: until the stream is removed, no step of any run takes it out again. */
  lemma {:induction false} LeakStays(w: World, steps: seq<Step>, id: nat, path: Bytes)
    requires Leaked(w, id, path) && Possible(w, steps) && Remove(path) !in steps
    ensures Leaked(Run(w, steps), id, path)
    decreases steps
  {
    hide Leaked, Next, Enabled;
    if steps != [] {
      LeakStep(w, steps[0], id, path);
      LeakStays(Next(w, steps[0]), steps[1..], id, path);
    }
  }

  lemma LeakStep(w: World, step: Step, id: nat, path: Bytes)
    requires Leaked(w, id, path) && Enabled(w, step) && step != Remove(path)
    ensures Leaked(Next(w, step), id, path)
  {
    hide Session.OnRequest, Session.OnRtpData, PushAll, Obey;
    match step {
      case Ask(x, req, env) =>
        var after := Session.OnRequest(w.sessions[x], req, env);
        if x == id {
          ClosedStays(w.sessions[id], req, env);
          UpdateLeaves(w, id, after, id, path);
        } else {
          UpdateLeaves(w, x, after, id, path);
        }
      case Leave(x) => UpdateLeaves(w, x, Session.Close(w.sessions[x]), id, path);
      case Push(p, data, down) => if p in w.sinks { PushKeepsTerms(w.sessions, w.sinks[p], data, down); }
      case _ =>
    }
  }

  lemma ClosedStays(s: Session.SessionState, req: RtspMessage, env: Session.Env)
    requires s.terms.phase == Session.Closed && !Renegotiates(req)
    ensures Session.OnRequest(s, req, env).terms.phase == Session.Closed
    ensures Session.OnRequest(s, req, env).calls == s.calls
  {
    hide Channels, Session.ExtractPath, InterleavedText, IntText, Find, Session.ClientPort, SessionHeader, Session.SdpOf,
         Session.RtpInfo, OptionsResponse, DescribeResponse, SetupResponse, PlayResponse, TeardownResponse, OkResponse,
         ErrorResponse, WithHeader;
  }

  lemma UpdateLeaves(w: World, x: nat, after: Session.SessionState, id: nat, path: Bytes)
    requires Leaked(w, id, path) && x in w.sessions
    requires x == id ==> after.terms.phase == Session.Closed && after.calls == w.sessions[id].calls
    ensures Leaked(Update(w, x, after), id, path)
  {
    var n := |w.sessions[x].calls|;
    if x == id {
      assert after.calls[n..] == [];
    } else {
      ObeyLeaves(w.sinks, x, if n <= |after.calls| then after.calls[n..] else [], id, path);
    }
  }

  /** What others do to the table leaves a sink where it is. */
  lemma {:induction false} ObeyLeaves(sinks: Sinks<nat>, x: nat, calls: seq<Session.Call>, id: nat, path: Bytes)
    requires x != id && path in sinks && id in sinks[path]
    ensures path in Obey(sinks, x, calls) && id in Obey(sinks, x, calls)[path]
    decreases calls
  {
    if calls != [] {
      WithoutLeaves(sinks[path], x, id);
      hide WithoutAll;
      match calls[0] {
        case AddSink(p) => ObeyLeaves(AddSink(sinks, p, x), x, calls[1..], id, path);
        case RemoveSink(p) => ObeyLeaves(RemoveSink(sinks, p, x), x, calls[1..], id, path);
      }
    }
  }

  lemma {:induction false} WithoutLeaves(s: seq<nat>, x: nat, y: nat)
    requires y in s && y != x
    ensures y in WithoutAll(s, x)
    decreases s
  {
    if s[0] != y { WithoutLeaves(s[1..], x, y); }
  }

  // ---------- the manager object ----------

  datatype StreamRelay = StreamRelay(source: Source.RtspSource, upstream: Bytes, sinks: seq<Session.RtspSession>)

  /** How often `x` is listed among the first `i`. */
  ghost function Listed<T>(s: seq<T>, i: nat, x: T): nat
    requires i <= |s|
  {
    multiset(s[..i])[x]
  }

  lemma ListedNext<T>(s: seq<T>, i: nat, x: T)
    requires i < |s|
    ensures Listed(s, i + 1, x) == Listed(s, i, x) + if x == s[i] then 1 else 0
  {
    assert s[..i + 1] == s[..i] + [s[i]];
  }

  lemma ListedEnds<T>(s: seq<T>, x: T)
    ensures Listed(s, 0, x) == 0 && Listed(s, |s|, x) == multiset(s)[x]
  {
    assert s[..|s|] == s;
  }

  /** The fan-out loop. */
  method PushToAll(sinks: seq<Session.RtspSession>, data: Bytes)
    modifies set s | s in sinks
    ensures forall s :: s in sinks ==>
      s.connected == old(s.connected) && s.View() == Pushed(old(s.View()), data, s.connected, multiset(sinks)[s])
  {
    hide Session.OnRtpData, Pushed, Listed;
    forall s | s in sinks ensures s.View() == Pushed(s.View(), data, s.connected, Listed(sinks, 0, s)) {
      ListedEnds(sinks, s);
      PushedNext(s.View(), data, s.connected, 0);
    }
    var i := 0;
    while i < |sinks|
      invariant 0 <= i <= |sinks|
      invariant forall s :: s in sinks ==> s.connected == old(s.connected)
      invariant forall s :: s in sinks ==> s.View() == Pushed(old(s.View()), data, s.connected, Listed(sinks, i, s))
    {
      forall s | s in sinks ensures Listed(sinks, i + 1, s) == Listed(sinks, i, s) + if s == sinks[i] then 1 else 0 {
        ListedNext(sinks, i, s);
      }
      PushedNext(old(sinks[i].View()), data, sinks[i].connected, Listed(sinks, i, sinks[i]));
      sinks[i].PushRtpData(data);
      i := i + 1;
    }
    forall s | s in sinks ensures Listed(sinks, |sinks|, s) == multiset(sinks)[s] { ListedEnds(sinks, s); }
  }

  class RelayManager {
    var streams: map<Bytes, StreamRelay>
    const maxSources: nat

    constructor (maxSources: nat)
      ensures streams == map[] && this.maxSources == maxSources
    {
      this.streams, this.maxSources := map[], maxSources;
    }

    /** The table of sinks, as `AddSink` and the others speak of it. */
    ghost function Table(): Sinks<Session.RtspSession>
      reads this
    {
      map p | p in streams :: streams[p].sinks
    }

    method AddStreamTo(path: Bytes, upstream: Bytes) returns (ok: bool)
      modifies this
      ensures ok <==> path !in old(streams) && |old(streams)| < maxSources
      ensures Table() == AddStream(old(Table()), maxSources, path)
      ensures !ok ==> streams == old(streams)
      ensures ok ==> path in streams && streams == old(streams)[path := streams[path]]
      ensures ok ==> streams[path].upstream == upstream && fresh(streams[path].source)
      ensures ok ==> streams[path].source.View() == Source.Start(Source.Initial(upstream, true))
    {
      SameSize();
      if path in streams { return false; }
      if |streams| >= maxSources { return false; }
      var source := new Source.RtspSource(upstream, true);
      streams := streams[path := StreamRelay(source, upstream, [])];
      source.StartPulling();
      return true;
    }

    lemma SameSize()
      ensures |Table()| == |streams|
    {
      assert Table().Keys == streams.Keys;
      assert |Table()| == |Table().Keys| && |streams| == |streams.Keys|;
    }

    method RemoveStream(path: Bytes, up: bool) returns (ok: bool)
      modifies this, set p | p in streams :: streams[p].source
      ensures ok <==> path in old(streams)
      ensures streams == old(streams) - {path}
      ensures ok ==> var source := old(streams)[path].source; source.View() == Source.Stop(old(source.View()), up)
    {
      if path !in streams { return false; }
      streams[path].source.StopPulling(up);
      streams := streams - {path};
      return true;
    }

    method AddSinkTo(path: Bytes, sink: Session.RtspSession)
      modifies this
      ensures Table() == AddSink(old(Table()), path, sink)
      ensures streams.Keys == old(streams).Keys
      ensures forall p :: p in streams ==> streams[p].source == old(streams)[p].source
    {
      if path !in streams { return; }
      var relay := streams[path];
      streams := streams[path := relay.(sinks := relay.sinks + [sink])];
    }

    method RemoveSinkFrom(path: Bytes, sink: Session.RtspSession)
      modifies this
      ensures Table() == RemoveSink(old(Table()), path, sink)
      ensures streams.Keys == old(streams).Keys
      ensures forall p :: p in streams ==> streams[p].source == old(streams)[p].source
    {
      if path !in streams { return; }
      var relay := streams[path];
      streams := streams[path := relay.(sinks := Without(relay.sinks, sink))];
    }

    static function Without(s: seq<Session.RtspSession>, x: Session.RtspSession): seq<Session.RtspSession> {
      WithoutAll(s, x)
    }

    /** Every sink of the stream gets the packet, as often as it is listed. */
    method OnRtpData(path: Bytes, data: Bytes)
      modifies if path in streams then set s | s in streams[path].sinks else {}
      ensures path in streams ==> forall s :: s in streams[path].sinks ==>
        s.connected == old(s.connected)
        && s.View() == Pushed(old(s.View()), data, s.connected, multiset(streams[path].sinks)[s])
    {
      hide Session.OnRtpData, Pushed;
      if path !in streams { return; }
      PushToAll(streams[path].sinks, data);
    }

    /** Adds up the lists of sinks: the number of memberships, streams and sinks counted together. */
    method TotalSinks() returns (total: nat)
      ensures total == |Memberships(Table())|
    {
      total := 0;
      var todo := streams.Keys;
      ghost var done: Sinks<Session.RtspSession> := map[];
      while todo != {}
        invariant todo <= streams.Keys
        invariant done == map p | p in streams && p !in todo :: streams[p].sinks
        invariant total == |Memberships(done)|
        decreases |todo|
      {
        var p :| p in todo;
        OneMore(done, p, streams[p].sinks);
        done := done[p := streams[p].sinks];
        total := total + |streams[p].sinks|;
        todo := todo - {p};
      }
      assert done == Table();
    }
  }

  lemma {:induction false} RangeSize(p: Bytes, n: nat)
    ensures |set i | 0 <= i < n :: (p, i)| == n
  {
    if n > 0 {
      RangeSize(p, n - 1);
      assert (set i | 0 <= i < n :: (p, i)) == (set i | 0 <= i < n - 1 :: (p, i)) + {(p, n - 1)};
    }
  }

  lemma OneMore<T>(m: Sinks<T>, p: Bytes, sinks: seq<T>)
    requires p !in m
    ensures |Memberships(m[p := sinks])| == |Memberships(m)| + |sinks|
  {
    var mine := set i | 0 <= i < |sinks| :: (p, i);
    RangeSize(p, |sinks|);
    assert Memberships(m[p := sinks]) == Memberships(m) + mine;
    assert Memberships(m) !! mine;
  }
}
