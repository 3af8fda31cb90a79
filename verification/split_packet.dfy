/** How an answer comes to stand between the two sends of a packet: a run of two threads. */
module SplitPacket {
  import opened Text
  import opened Framing
  import opened TaskQueue
  import Connection

  /** An empty queue and a fresh connection on the loop of thread `owner`. */
  function Quiet(owner: nat): Wired { Wired(owner, Queue.Queue([], [], [], []), Connection.FRESH, []) }

  /** Thread `source` sends header and payload one after the other, both through the queue. The loop
      swaps between the two posts, runs the header, answers a request at once, and then runs the payload. */
  function Interleaving(owner: nat, source: nat, header: Bytes, answer: Bytes, payload: Bytes): seq<Act> {
    [Send(Job(source, header), Connection.Blocked), SwapAct, TaskAct(Connection.Wrote(|header|)),
     Send(Job(owner, answer), Connection.Wrote(|answer|)),
     Send(Job(source, payload), Connection.Blocked), SwapAct, TaskAct(Connection.Wrote(|payload|))]
  }

  function SentBy(s: Wired, act: Act, t: nat): seq<Bytes> {
    if act.Send? && act.job.thread == t && s.conn.state == Connection.Connected then [act.job.data] else []
  }

  lemma OneAct(s: Wired, acts: seq<Act>, t: nat)
    requires acts != [] && CanAct(s, acts[0]) && CanActAll(After(s, acts[0]), acts[1..])
    ensures CanActAll(s, acts) && AfterAll(s, acts) == AfterAll(After(s, acts[0]), acts[1..])
    ensures Sent(s, acts, t) == SentBy(s, acts[0], t) + Sent(After(s, acts[0]), acts[1..], t)
  {
    hide CanAct, After;
  }

  /** What is written at once, on a connection with nothing queued. */
  function Written(out: Bytes): Connection.Conn { Connection.FRESH.(wire := out, accepted := out) }

  lemma WritesAll(out: Bytes, data: Bytes)
    ensures Connection.SendInLoop(Written(out), data, Connection.Wrote(|data|)) == Written(out + data)
  {
    assert data[..|data|] == data && data[|data|..] == [];
  }

  /** After the header: the rest of the run. */
  lemma FromAnswer(s: Wired, source: nat, out: Bytes, answer: Bytes, payload: Bytes)
    requires s.owner != source && s.queue.pending == [] == s.queue.batch && s.conn == Written(out)
    ensures var acts := [Send(Job(s.owner, answer), Connection.Wrote(|answer|)),
                         Send(Job(source, payload), Connection.Blocked), SwapAct, TaskAct(Connection.Wrote(|payload|))];
            && CanActAll(s, acts) && AfterAll(s, acts).conn == Written(out + answer + payload)
            && Sent(s, acts, source) == [payload] && Sent(s, acts, s.owner) == [answer]
  {
    hide Connection.SendInLoop;
    WritesAll(out, answer);
    var s1 := After(s, Send(Job(s.owner, answer), Connection.Wrote(|answer|)));
    FromPost(s1, source, out + answer, payload);
    var rest := [Send(Job(source, payload), Connection.Blocked), SwapAct, TaskAct(Connection.Wrote(|payload|))];
    var acts := [Send(Job(s.owner, answer), Connection.Wrote(|answer|))] + rest;
    assert acts[1..] == rest;
    OneAct(s, acts, source);
    OneAct(s, acts, s.owner);
  }

  /** One send of another thread, posted, swapped and run. */
  lemma FromPost(s: Wired, source: nat, out: Bytes, data: Bytes)
    requires s.owner != source && s.queue.pending == [] == s.queue.batch && s.conn == Written(out)
    ensures var acts := [Send(Job(source, data), Connection.Blocked), SwapAct, TaskAct(Connection.Wrote(|data|))];
            && CanActAll(s, acts) && AfterAll(s, acts).conn == Written(out + data)
            && AfterAll(s, acts).queue.pending == [] == AfterAll(s, acts).queue.batch && AfterAll(s, acts).owner == s.owner
            && Sent(s, acts, source) == [data] && Sent(s, acts, s.owner) == []
  {
    hide Connection.SendInLoop;
    WritesAll(out, data);
    var a, b, c := Send(Job(source, data), Connection.Blocked), SwapAct, TaskAct(Connection.Wrote(|data|));
    var s1 := After(s, a);
    assert s1.queue.pending == [Job(source, data)];
    var s2 := After(s1, b);
    var s3 := After(s2, c);
    assert [c][1..] == [] && [b, c][1..] == [c] && [a, b, c][1..] == [b, c];
    OneAct(s2, [c], source);
    OneAct(s1, [b, c], source);
    OneAct(s, [a, b, c], source);
    OneAct(s2, [c], s.owner);
    OneAct(s1, [b, c], s.owner);
    OneAct(s, [a, b, c], s.owner);
  }

  lemma {:induction false} Twice(s: Wired, a: seq<Act>, b: seq<Act>, t: nat)
    requires CanActAll(s, a) && CanActAll(AfterAll(s, a), b)
    ensures CanActAll(s, a + b) && AfterAll(s, a + b) == AfterAll(AfterAll(s, a), b)
    ensures Sent(s, a + b, t) == Sent(s, a, t) + Sent(AfterAll(s, a), b, t)
    decreases a
  {
    hide CanAct, After, SentBy;
    if a == [] {
      assert a + b == b;
      assert [] + Sent(s, b, t) == Sent(s, b, t);
    } else {
      Twice(After(s, a[0]), a[1..], b, t);
      assert (a + b)[0] == a[0] && (a + b)[1..] == a[1..] + b;
      TwiceStep(s, a, b, t);
    }
  }

  lemma TwiceStep(s: Wired, a: seq<Act>, b: seq<Act>, t: nat)
    requires a != [] && CanActAll(s, a) && (a + b)[1..] == a[1..] + b && (a + b)[0] == a[0]
    requires var n := After(s, a[0]);
             && CanActAll(n, a[1..] + b) && CanActAll(AfterAll(n, a[1..]), b)
             && AfterAll(n, a[1..] + b) == AfterAll(AfterAll(n, a[1..]), b)
             && Sent(n, a[1..] + b, t) == Sent(n, a[1..], t) + Sent(AfterAll(n, a[1..]), b, t)
    ensures CanActAll(AfterAll(s, a), b) && CanActAll(s, a + b) && AfterAll(s, a + b) == AfterAll(AfterAll(s, a), b)
    ensures Sent(s, a + b, t) == Sent(s, a, t) + Sent(AfterAll(s, a), b, t)
  {
    hide CanAct, After, SentBy, Sent;
    OneAct(s, a, t);
    OneAct(s, a + b, t);
  }

  /** The run is possible, each thread sends what it should in its own order, and the first packet the
      reader gets is not the one that was sent, unless the payload is a front part of the answer and
      itself. */
  lemma SplitIsReachable(owner: nat, source: nat, channel: Octet, payload: Bytes, answer: Bytes)
    requires owner != source && |payload| <= 65535
    ensures var header := FrameHeader(channel, |payload|);
            var acts := Interleaving(owner, source, header, answer, payload);
            && CanActAll(Quiet(owner), acts)
            && Sent(Quiet(owner), acts, source) == [header, payload] && Sent(Quiet(owner), acts, owner) == [answer]
            && var wire := AfterAll(Quiet(owner), acts).conn.wire;
               && wire == header + answer + payload && Drain(wire).events != []
               && (Drain(wire).events[0] == Frame(channel, payload) <==> payload <= answer + payload)
  {
    hide FrameHeader, NextItem, Drain, After, CanAct;
    var header := FrameHeader(channel, |payload|);
    var first := [Send(Job(source, header), Connection.Blocked), SwapAct, TaskAct(Connection.Wrote(|header|))];
    var later := [Send(Job(owner, answer), Connection.Wrote(|answer|)),
                 Send(Job(source, payload), Connection.Blocked), SwapAct, TaskAct(Connection.Wrote(|payload|))];
    FromPost(Quiet(owner), source, [], header);
    FromAnswer(AfterAll(Quiet(owner), first), source, [] + header, answer, payload);
    Twice(Quiet(owner), first, later, source);
    Twice(Quiet(owner), first, later, owner);
    assert first + later == Interleaving(owner, source, header, answer, payload);
    var wire := header + answer + payload;
    assert [] + header + answer + payload == wire;
    SplitFrame(channel, payload, answer, []);
    assert wire + [] == wire;
    DrainOne(wire);
  }
}
