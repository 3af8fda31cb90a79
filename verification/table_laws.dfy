/** What each step does to the table of streams: which streams there are, who joins, who leaves and who
    stays, in every run. */
module TableLaws {
  import opened Text
  import opened RtspProtocol
  import opened RtspBuilders
  import opened ForeignHeads
  import opened Framing
  import opened NegotiationLaws
  import opened Relay
  import Session

  predicate Asks(step: Step, verb: Method) {
    step.Ask? && step.req.kind == MessageKind.Request && step.req.verb == verb
  }

  /** PLAY puts the session into the list of its stream, once more. */
  function Joiner(w: World, step: Step, p: Bytes): seq<nat>
    requires Enabled(w, step)
  {
    if Asks(step, Play) && w.sessions[step.id].terms.path == p then [step.id] else []
  }

  /** A session leaves the stream it is playing, at its TEARDOWN or when its connection goes. */
  predicate Leaves(w: World, step: Step, p: Bytes)
    requires Enabled(w, step)
  {
    && (step.Leave? || Asks(step, Teardown))
    && var t := w.sessions[step.id].terms; t.phase == Session.Playing && t.path == p && p != []
  }

  predicate KnownAfter(w: World, step: Step, p: Bytes) {
    match step
    case Add(q) => p in w.sinks || (q == p && |w.sinks| < w.maxSources)
    case Remove(q) => p in w.sinks && q != p
    case _ => p in w.sinks
  }

  /** Every step, every stream: whether it is known afterwards, and its list of sinks. */
  lemma SinksOfStep(w: World, step: Step, p: Bytes)
    requires Enabled(w, step)
    ensures var m := Next(w, step).sinks;
            && (p in m <==> KnownAfter(w, step, p))
            && (p in m ==>
                  m[p] == if p !in w.sinks then []
                          else if Leaves(w, step, p) then WithoutAll(w.sinks[p], step.id)
                          else w.sinks[p] + Joiner(w, step, p))
  {
    hide Session.OnRequest, Session.Close, Session.OnRtpData, PushAll, Obey, WithoutAll;
    assert p in w.sinks ==> w.sinks[p] + [] == w.sinks[p];
    match step {
      case Ask(id, req, env) => AfterRequest(w, id, req, env, p);
      case Leave(id) => AfterClose(w, id, Session.Close(w.sessions[id]), p);
      case _ =>
    }
  }

  lemma AfterClose(w: World, id: nat, after: Session.SessionState, p: Bytes)
    requires id in w.sessions && after.calls == Session.Close(w.sessions[id]).calls
    ensures var m, t := Update(w, id, after).sinks, w.sessions[id].terms;
            && m.Keys == w.sinks.Keys
            && (p in m ==>
                  m[p] == if t.phase == Session.Playing && t.path == p && p != [] then WithoutAll(w.sinks[p], id)
                          else w.sinks[p])
  {
    hide WithoutAll, Obey;
    var s := w.sessions[id];
    if s.terms.phase == Session.Playing && s.terms.path != [] {
      assert after.calls[|s.calls|..] == [Session.RemoveSink(s.terms.path)];
      ObeyOne(w.sinks, id, s.terms.path);
    } else {
      assert after.calls[|s.calls|..] == [];
      ObeyNothing(w.sinks, id);
    }
  }

  lemma AfterRequest(w: World, id: nat, req: RtspMessage, env: Session.Env, p: Bytes)
    requires Enabled(w, Ask(id, req, env))
    ensures var step := Ask(id, req, env);
            var m := Next(w, step).sinks;
            && m.Keys == w.sinks.Keys
            && (p in m ==>
                  m[p] == if Leaves(w, step, p) then WithoutAll(w.sinks[p], id)
                          else w.sinks[p] + Joiner(w, step, p))
  {
    hide Session.OnRequest, Session.Close, Obey, WithoutAll;
    var s := w.sessions[id];
    var after := Session.OnRequest(s, req, env);
    RequestEffect(s, req, env);
    assert p in w.sinks ==> w.sinks[p] + [] == w.sinks[p];
    if req.kind == MessageKind.Request && req.verb == Teardown {
      AfterClose(w, id, after, p);
    } else if req.kind == MessageKind.Request && req.verb == Play {
      assert after.calls[|s.calls|..] == [Session.AddSink(s.terms.path)];
      ObeyOne(w.sinks, id, s.terms.path);
    } else {
      assert after.calls[|s.calls|..] == [];
      ObeyNothing(w.sinks, id);
    }
  }

  // ---------- over every run ----------

  /** Nothing that ends a session's subscription. */
  predicate Keeps(step: Step, id: nat, p: Bytes) {
    step != Remove(p) && step != Leave(id) && !(Asks(step, Teardown) && step.id == id)
  }

  /** A sink stays one, among whatever others do, until it leaves itself or the stream is removed. */
  lemma {:induction false} StaysSubscribed(w: World, steps: seq<Step>, id: nat, p: Bytes)
    requires Possible(w, steps) && p in w.sinks && id in w.sinks[p]
    requires forall i :: 0 <= i < |steps| ==> Keeps(steps[i], id, p)
    ensures var m := Run(w, steps).sinks; p in m && id in m[p]
    decreases steps
  {
    hide Next, Enabled, WithoutAll;
    if steps != [] {
      SinksOfStep(w, steps[0], p);
      if Leaves(w, steps[0], p) { WithoutLeaves(w.sinks[p], steps[0].id, id); }
      StaysSubscribed(Next(w, steps[0]), steps[1..], id, p);
    }
  }

  /** A stream that is removed is gone, with all its sinks, and its packets reach nobody, until it is
      added again. */
  lemma {:induction false} UnknownStaysSilent(w: World, steps: seq<Step>, p: Bytes)
    requires p !in w.sinks && Possible(w, steps) && Add(p) !in steps
    ensures var t := Run(w, steps);
            p !in t.sinks && forall data, down :: Next(t, Push(p, data, down)) == t
    decreases steps
  {
    if steps != [] {
      hide Next, Enabled;
      SinksOfStep(w, steps[0], p);
      UnknownStaysSilent(Next(w, steps[0]), steps[1..], p);
    }
  }

  lemma RemovedIsSilent(w: World, steps: seq<Step>, p: Bytes)
    requires Possible(Next(w, Remove(p)), steps) && Add(p) !in steps
    ensures var t := Run(Next(w, Remove(p)), steps);
            p !in t.sinks && forall data, down :: Next(t, Push(p, data, down)) == t
  {
    UnknownStaysSilent(Next(w, Remove(p)), steps, p);
  }

  /** A PLAY on a known stream subscribes: from then on every packet of the stream is pushed to the session,
      until it leaves or the stream is removed. */
  lemma PlaySubscribes(w: World, play: Step, steps: seq<Step>)
    requires Enabled(w, play) && Asks(play, Play) && w.sessions[play.id].terms.path in w.sinks
    requires Possible(Next(w, play), steps)
    requires var p := w.sessions[play.id].terms.path;
             forall i :: 0 <= i < |steps| ==> Keeps(steps[i], play.id, p)
    ensures var m, p := Run(Next(w, play), steps).sinks, w.sessions[play.id].terms.path; p in m && play.id in m[p]
  {
    hide Next;
    var p := w.sessions[play.id].terms.path;
    SinksOfStep(w, play, p);
    StaysSubscribed(Next(w, play), steps, play.id, p);
  }

  // ---------- a new player ----------

  /** It has negotiated nothing: TCP on channels 0 and 1, no stream, nothing sent. */
  lemma OpenedFresh(w: World, id: nat, sessionId: Bytes)
    requires Inv(w) && Enabled(w, Open(id, sessionId))
    ensures var v := Next(w, Open(id, sessionId));
            && v.sinks == w.sinks && v.sessions.Keys == w.sessions.Keys + {id} && !IsSink(v, id)
            && (forall x :: x in w.sessions ==> v.sessions[x] == w.sessions[x])
            && var s := v.sessions[id];
               && s.terms.phase == Session.Fresh && s.terms.path == [] && s.terms.sessionId == sessionId
               && s.terms.transport == Session.Tcp && s.terms.rtpChannel == 0 && s.terms.rtcpChannel == 1
               && s.output.sends == [] && s.output.bytesSent == s.output.pktsSent == 0 && s.calls == []
  {
    forall p | p in w.sinks ensures id !in w.sinks[p] { assert id in w.sinks[p] ==> PlaysHere(w, id, p); }
  }

  lemma AskedNoSink(w: World, id: nat, req: RtspMessage, env: Session.Env)
    requires Inv(w) && id in w.sessions && !IsSink(w, id) && (IsRequest(req, Describe) || IsRequest(req, Setup))
    ensures Enabled(w, Ask(id, req, env))
    ensures var v := Next(w, Ask(id, req, env));
            && v.sinks == w.sinks && v.sessions == w.sessions[id := Session.OnRequest(w.sessions[id], req, env)]
            && Inv(v) && !IsSink(v, id)
  {
    hide Session.OnRequest, Inv;
    var s := w.sessions[id];
    StepKeepsInv(w, Ask(id, req, env));
    RequestEffect(s, req, env);
    assert Session.OnRequest(s, req, env).calls[|s.calls|..] == [];
    ObeyNothing(w.sinks, id);
    assert forall p :: p in w.sinks ==> id !in w.sinks[p];
  }

  lemma Played(w: World, id: nat, play: RtspMessage, env: Session.Env)
    requires Inv(w) && id in w.sessions && !IsSink(w, id) && IsRequest(play, Play)
    requires w.sessions[id].terms.path in w.sinks
    ensures Enabled(w, Ask(id, play, env))
    ensures var v, p := Next(w, Ask(id, play, env)), w.sessions[id].terms.path;
            && p in v.sinks && v.sinks[p] == w.sinks[p] + [id]
            && v.sessions == w.sessions[id := Session.OnRequest(w.sessions[id], play, env)] && Inv(v)
  {
    hide Session.OnRequest, Inv;
    StepKeepsInv(w, Ask(id, play, env));
    SinksOfStep(w, Ask(id, play, env), w.sessions[id].terms.path);
  }

  lemma PushedOnce(w: World, id: nat, p: Bytes, data: Bytes, down: set<nat>)
    requires Inv(w) && id in w.sessions && p in w.sinks && id in w.sinks[p] && id !in down
    requires w.sessions[id].terms.transport == Session.Tcp
    ensures var s, t := w.sessions[id], Next(w, Push(p, data, down)).sessions;
            id in t && t[id].output.sends
              == s.output.sends + [Session.Raw(FrameHeader(s.terms.rtpChannel, |data|)), Session.Raw(data)]
  {
    hide PushAll, FrameHeader;
    assert PlaysHere(w, id, p);
    FanOutCounts(w.sessions, w.sinks[p], data, down, id);
    CountedOnce(w.sinks[p], id);
    PushedNext(w.sessions[id], data, true, 0);
  }

  lemma {:induction false} CountedOnce(s: seq<nat>, x: nat)
    requires NoDuplicates(s) && x in s
    ensures multiset(s)[x] == 1
    decreases s
  {
    assert s == [s[0]] + s[1..];
    if s[0] == x {
      assert x !in s[1..];
    } else {
      CountedOnce(s[1..], x);
    }
  }

  /** A new player that asks for a stream that is there and for a pair of channels, and then to play, gets
      the next packet of the stream: once, whole, and on its channel. */
  lemma NewPlayerServed(
      w: World, id: nat, sessionId: Bytes, describe: RtspMessage, setup: RtspMessage, play: RtspMessage,
      env: Session.Env, scheme: Bytes, authority: Bytes, path: Bytes,
      prefix: Bytes, a: Octet, b: Octet, rest: Bytes, data: Bytes, down: set<nat>)
    requires Inv(w) && id !in w.sessions && path in w.sinks && id !in down
    requires IsRequest(describe, Describe) && IsRequest(setup, Setup) && IsRequest(play, Play)
    requires Lacks(scheme, ':') && Lacks(authority, '/') && path != [] && path[0] == '/'
    requires describe.url == scheme + Session.SCHEME_END + authority + path
    requires TRANSPORT in setup.headers && setup.headers[TRANSPORT] == PairText(prefix, INTERLEAVED, a, b, rest)
    requires !Mentions(prefix, INTERLEAVED) && (rest == [] || !IsDigit(rest[0]))
    ensures var steps := [Open(id, sessionId), Ask(id, describe, env), Ask(id, setup, env), Ask(id, play, env)];
            && Possible(w, steps)
            && var v := Run(w, steps);
               && path in v.sinks && v.sinks[path] == w.sinks[path] + [id] && id in v.sessions
               && var t := Next(v, Push(path, data, down)).sessions;
                  id in t && t[id].output.sends == v.sessions[id].output.sends
                    + [Session.Raw(FrameHeader(a, |data|)), Session.Raw(data)]
  {
    hide Next, Inv, IsSink, Session.OnRequest, FrameHeader, PairText, Mentions, Enabled;
    var s0, s1, s2, s3 := Open(id, sessionId), Ask(id, describe, env), Ask(id, setup, env), Ask(id, play, env);
    assert Enabled(w, s0) by { MayOpen(w, id, sessionId); }
    StepKeepsInv(w, s0);
    OpenedFresh(w, id, sessionId);
    var w1 := Next(w, s0);
    AskedNoSink(w1, id, describe, env);
    var w2 := Next(w1, s1);
    AskedNoSink(w2, id, setup, env);
    var w3 := Next(w2, s2);
    AgreedTerms(w1.sessions[id], describe, setup, play, env, scheme, authority, path, prefix, a, b, rest);
    Played(w3, id, play, env);
    var v := Next(w3, s3);
    FourSteps(w, s0, s1, s2, s3);
    PushedOnce(v, id, path, data, down);
  }

  lemma MayOpen(w: World, id: nat, sessionId: Bytes)
    requires id !in w.sessions
    ensures Enabled(w, Open(id, sessionId))
  {
  }

  lemma FourSteps(w: World, s0: Step, s1: Step, s2: Step, s3: Step)
    requires Enabled(w, s0) && Enabled(Next(w, s0), s1) && Enabled(Next(Next(w, s0), s1), s2)
    requires Enabled(Next(Next(Next(w, s0), s1), s2), s3)
    ensures Possible(w, [s0, s1, s2, s3])
    ensures Run(w, [s0, s1, s2, s3]) == Next(Next(Next(Next(w, s0), s1), s2), s3)
  {
    hide Next, Enabled, Possible, Run;
    assert [s3] + [] == [s3] && [s2] + [s3] == [s2, s3] && [s1] + [s2, s3] == [s1, s2, s3];
    assert [s0] + [s1, s2, s3] == [s0, s1, s2, s3];
    var w3 := Next(Next(Next(w, s0), s1), s2);
    StepBefore(w3, s3, []);
    StepBefore(Next(Next(w, s0), s1), s2, [s3]);
    StepBefore(Next(w, s0), s1, [s2, s3]);
    StepBefore(w, s0, [s1, s2, s3]);
  }

  lemma StepBefore(w: World, step: Step, steps: seq<Step>)
    requires Enabled(w, step) && (steps == [] || Possible(Next(w, step), steps))
    ensures Possible(w, [step] + steps)
    ensures Run(w, [step] + steps) == if steps == [] then Next(w, step) else Run(Next(w, step), steps)
  {
    hide Next, Enabled;
    assert ([step] + steps)[1..] == steps;
  }

  lemma AgreedTerms(
      s: Session.SessionState, describe: RtspMessage, setup: RtspMessage, play: RtspMessage, env: Session.Env,
      scheme: Bytes, authority: Bytes, path: Bytes, prefix: Bytes, a: Octet, b: Octet, rest: Bytes)
    requires IsRequest(describe, Describe) && IsRequest(setup, Setup) && IsRequest(play, Play)
    requires Lacks(scheme, ':') && Lacks(authority, '/') && path != [] && path[0] == '/'
    requires describe.url == scheme + Session.SCHEME_END + authority + path
    requires TRANSPORT in setup.headers && setup.headers[TRANSPORT] == PairText(prefix, INTERLEAVED, a, b, rest)
    requires !Mentions(prefix, INTERLEAVED) && (rest == [] || !IsDigit(rest[0]))
    ensures var s2 := Session.OnRequest(Session.OnRequest(s, describe, env), setup, env);
            var t := Session.OnRequest(s2, play, env).terms;
            && s2.terms.path == path && t.transport == Session.Tcp && t.rtpChannel == a && t.rtcpChannel == b
  {
    hide Session.Reply, PairText, Mentions, Session.ExtractPath;
    Session.PathOfUrl(scheme, authority, path);
    PathOf(s.terms.(cseq := describe.cseq), describe, env);
    var s1 := Session.OnRequest(s, describe, env);
    var t1 := s1.terms.(cseq := setup.cseq);
    PathOf(t1, setup, env);
    ChannelsAskedFor(t1, setup, env, prefix, a, b, rest);
    var s2 := Session.OnRequest(s1, setup, env);
    PlayPhase(s2.terms.(cseq := play.cseq), play, env);
  }
}
