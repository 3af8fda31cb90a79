/** Which replies move the source on, against a client that matches replies to requests by number
    (RFC 2326, section 12.17). */
module ReplyMatching {
  import opened Text
  import opened RtspProtocol
  import opened RtspBuilders
  import opened Framing
  import Source

  // ---------- a client that matches numbers ----------

  predicate Awaits(h: Source.Shake) { h.phase in {Source.AwaitOptions, Source.AwaitDescribe, Source.AwaitSetup} }

  predicate IsOk(ev: Event) { ev.Message? && ev.msg.status == Source.SUCCESS }

  /** Like the source, but while it waits, a 200 with another number than the last request's is dropped. */
  function MatchEvent(s: Source.SourceState, ev: Event): Source.SourceState {
    if IsOk(ev) && Awaits(s.shake) && ev.msg.cseq != s.shake.cseq then s else Source.OnEvent(s, ev)
  }

  function MatchEvents(s: Source.SourceState, evs: seq<Event>): Source.SourceState
    decreases evs
  {
    if evs == [] then s else MatchEvents(MatchEvent(s, evs[0]), evs[1..])
  }

  /** The replies that say 200, in order. */
  function Oks(evs: seq<Event>): seq<RtspMessage> {
    if evs == [] then [] else (if IsOk(evs[0]) then [evs[0].msg] else []) + Oks(evs[1..])
  }

  /** After every event the source is where the matching client is. */
  ghost predicate FollowsMatching(s: Source.SourceState, evs: seq<Event>) {
    forall n :: 0 <= n <= |evs| ==> Source.OnEvents(s, evs[..n]) == MatchEvents(s, evs[..n])
  }

  // ---------- the source does not look at the number ----------

  lemma NumberIgnored(s: Source.SourceState, resp: RtspMessage, n: nat)
    ensures Source.OnResponse(s, resp.(cseq := n)) == Source.OnResponse(s, resp)
  {
    hide Channels, OptionsRequest, DescribeRequest, Source.SourceSetup, PlayRequest;
  }

  // ---------- when it follows the right replies all the same ----------

  /** How many replies of the handshake have been taken. */
  function Position(h: Source.Shake): nat {
    match h.phase
    case AwaitOptions => 0
    case AwaitDescribe => 1
    case AwaitSetup => 2
    case _ => 3
  }

  /** The phases of a connection, each with the number of its last request. */
  predicate Counted(h: Source.Shake) { Source.Negotiating(h) && h.cseq == Position(h) + 1 }

  /** The replies still to come for the handshake carry the numbers of its requests. */
  predicate Numbered(oks: seq<RtspMessage>, from: nat) {
    forall k :: 0 <= k < |oks| && from + k < 3 ==> oks[k].cseq == from + k + 1
  }

  lemma EventCounts(s: Source.SourceState, ev: Event)
    requires Counted(s.shake)
    ensures var t := Source.OnEvent(s, ev).shake;
            Counted(t) && Position(t) == if IsOk(ev) && Awaits(s.shake) then Position(s.shake) + 1 else Position(s.shake)
  {
    hide Channels, OptionsRequest, DescribeRequest, Source.SourceSetup, PlayRequest;
  }

  lemma FollowsOne(s: Source.SourceState, evs: seq<Event>)
    requires evs != []
    ensures FollowsMatching(s, evs) <==>
      MatchEvent(s, evs[0]) == Source.OnEvent(s, evs[0]) && FollowsMatching(Source.OnEvent(s, evs[0]), evs[1..])
  {
    hide MatchEvent, Source.OnEvent;
    var t, rest := Source.OnEvent(s, evs[0]), evs[1..];
    FirstEvent(s, evs, 1);
    if FollowsMatching(s, evs) {
      assert Source.OnEvents(s, evs[..1]) == MatchEvents(s, evs[..1]);
      forall n | 0 <= n <= |rest| ensures Source.OnEvents(t, rest[..n]) == MatchEvents(t, rest[..n]) {
        FirstEvent(s, evs, n + 1);
        assert Source.OnEvents(s, evs[..n + 1]) == MatchEvents(s, evs[..n + 1]);
      }
    }
    if MatchEvent(s, evs[0]) == t && FollowsMatching(t, rest) {
      forall n | 0 <= n <= |evs| ensures Source.OnEvents(s, evs[..n]) == MatchEvents(s, evs[..n]) {
        if n > 0 {
          FirstEvent(s, evs, n);
          assert Source.OnEvents(t, rest[..n - 1]) == MatchEvents(t, rest[..n - 1]);
        }
      }
    }
  }

  lemma FirstEvent(s: Source.SourceState, evs: seq<Event>, n: nat)
    requires 0 < n <= |evs|
    ensures Source.OnEvents(s, evs[..n]) == Source.OnEvents(Source.OnEvent(s, evs[0]), evs[1..][..n - 1])
    ensures MatchEvents(s, evs[..n]) == MatchEvents(MatchEvent(s, evs[0]), evs[1..][..n - 1])
    ensures n == 1 ==> Source.OnEvents(s, evs[..n]) == Source.OnEvent(s, evs[0])
    ensures n == 1 ==> MatchEvents(s, evs[..n]) == MatchEvent(s, evs[0])
  {
    hide MatchEvent, Source.OnEvent;
    assert evs[..n][0] == evs[0] && evs[..n][1..] == evs[1..][..n - 1];
  }

  /** From any point of the handshake on. */
  lemma {:induction false} FollowsFrom(s: Source.SourceState, evs: seq<Event>)
    requires Counted(s.shake)
    ensures FollowsMatching(s, evs) <==> Numbered(Oks(evs), Position(s.shake))
    decreases evs
  {
    hide Source.OnEvent, Position, Counted;
    if evs == [] {
      assert Source.OnEvents(s, evs[..0]) == MatchEvents(s, evs[..0]);
    } else {
      var p := Position(s.shake);
      EventCounts(s, evs[0]);
      FollowsOne(s, evs);
      FollowsFrom(Source.OnEvent(s, evs[0]), evs[1..]);
      if IsOk(evs[0]) {
        assert Oks(evs) == [evs[0].msg] + Oks(evs[1..]);
        NumberedOne(evs[0].msg, Oks(evs[1..]), p);
        Moves(s, evs[0]);
      } else {
        assert Oks(evs) == Oks(evs[1..]);
      }
    }
  }

  lemma NumberedOne(first: RtspMessage, later: seq<RtspMessage>, p: nat)
    ensures Numbered([first] + later, p) <==> (p < 3 ==> first.cseq == p + 1) && Numbered(later, p + 1)
    ensures p >= 3 ==> Numbered(later, p) && Numbered([first] + later, p)
  {
    var all := [first] + later;
    if Numbered(all, p) {
      assert p < 3 ==> all[0].cseq == p + 1;
      forall k | 0 <= k < |later| && p + 1 + k < 3 ensures later[k].cseq == p + 1 + k + 1 { assert all[k + 1] == later[k]; }
    }
  }

  /** A 200 moves a waiting source, whatever its number; the matching client only with the right one. */
  lemma Moves(s: Source.SourceState, ev: Event)
    requires Counted(s.shake) && IsOk(ev)
    ensures Awaits(s.shake) <==> Position(s.shake) < 3
    ensures MatchEvent(s, ev) == Source.OnEvent(s, ev) <==> (Awaits(s.shake) ==> ev.msg.cseq == Position(s.shake) + 1)
  {
    hide Source.OnEvent;
    EventCounts(s, ev);
  }

  /** From a new connection on, for every list of events: the source follows the replies a matching
      client would, step by step, exactly when the first, second and third 200 it reads carry CSeq 1, 2
      and 3. The sender can see to that; the source itself never checks. */
  lemma FollowsExactly(s: Source.SourceState, evs: seq<Event>)
    ensures FollowsMatching(Source.OnConnect(s), evs)
       <==> forall k :: 0 <= k < |Oks(evs)| && k < 3 ==> Oks(evs)[k].cseq == k + 1
  {
    hide Source.OnEvent, FollowsMatching, OptionsRequest;
    FollowsFrom(Source.OnConnect(s), evs);
    assert Numbered(Oks(evs), 0) <==> forall k :: 0 <= k < |Oks(evs)| && k < 3 ==> Oks(evs)[k].cseq == k + 1;
  }

  // ---------- what is kept of which reply ----------

  /** The negotiation after the replies `oks`. */
  function Negotiated(h: Source.Shake, oks: seq<RtspMessage>): Source.Shake
    decreases oks
  {
    if oks == [] then h else Negotiated(Source.Advance(Source.TakeSession(h, oks[0].sessionId), oks[0]), oks[1..])
  }

  /** Nothing else has a say in it: no packet, no refusal, no number. */
  lemma {:induction false} OnlyOksCount(s: Source.SourceState, evs: seq<Event>)
    ensures Source.OnEvents(s, evs).shake == Negotiated(s.shake, Oks(evs))
    decreases evs
  {
    hide Source.Advance, Source.TakeSession;
    if evs != [] {
      OnlyOksCount(Source.OnEvent(s, evs[0]), evs[1..]);
      if IsOk(evs[0]) {
        assert Oks(evs) == [evs[0].msg] + Oks(evs[1..]);
        assert Oks(evs)[0] == evs[0].msg && Oks(evs)[1..] == Oks(evs[1..]);
      } else {
        assert Oks(evs) == Oks(evs[1..]);
      }
    }
  }

  lemma {:induction false} SdpStays(h: Source.Shake, oks: seq<RtspMessage>)
    requires h.phase in {Source.AwaitSetup, Source.Playing}
    ensures Negotiated(h, oks).sdp == h.sdp
    ensures h.phase == Source.Playing ==>
      Negotiated(h, oks).rtpChannel == h.rtpChannel && Negotiated(h, oks).rtcpChannel == h.rtcpChannel
    decreases oks
  {
    hide Channels, OptionsRequest, DescribeRequest, Source.SourceSetup, PlayRequest;
    if oks != [] {
      SdpStays(Source.Advance(Source.TakeSession(h, oks[0].sessionId), oks[0]), oks[1..]);
    }
  }

  /** The SDP is that of the second 200 of the connection, the channels are those of the third when it
      names a pair and those held before when it does not, whatever requests they answer. */
  lemma KeptReplies(s: Source.SourceState, evs: seq<Event>)
    ensures var oks, t := Oks(evs), Source.OnEvents(Source.OnConnect(s), evs).shake;
            && (|oks| >= 2 ==> t.sdp == oks[1].sdp)
            && (|oks| >= 3 && TRANSPORT in oks[2].headers && Channels(oks[2].headers[TRANSPORT]).Some? ==>
                  (t.rtpChannel, t.rtcpChannel) == Channels(oks[2].headers[TRANSPORT]).value)
            && (|oks| >= 3 && (TRANSPORT !in oks[2].headers || Channels(oks[2].headers[TRANSPORT]).None?) ==>
                  (t.rtpChannel, t.rtcpChannel) == (s.shake.rtpChannel, s.shake.rtcpChannel))
  {
    hide Channels, OptionsRequest, DescribeRequest, Source.SourceSetup, PlayRequest, Source.OnEvents;
    var h, oks := Source.OnConnect(s).shake, Oks(evs);
    OnlyOksCount(Source.OnConnect(s), evs);
    if |oks| >= 2 {
      var h1 := Source.Advance(Source.TakeSession(h, oks[0].sessionId), oks[0]);
      var h2 := Source.Advance(Source.TakeSession(h1, oks[1].sessionId), oks[1]);
      assert oks[1..][0] == oks[1] && oks[1..][1..] == oks[2..];
      assert Negotiated(h, oks) == Negotiated(h1, oks[1..]) == Negotiated(h2, oks[2..]);
      SdpStays(h2, oks[2..]);
      if |oks| >= 3 {
        var h3 := Source.Advance(Source.TakeSession(h2, oks[2].sessionId), oks[2]);
        assert oks[2..][0] == oks[2];
        assert Negotiated(h2, oks[2..]) == Negotiated(h3, oks[2..][1..]);
        SdpStays(h3, oks[2..][1..]);
      }
    }
  }
}
