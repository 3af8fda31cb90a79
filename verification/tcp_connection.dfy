/** The sending half of a connection over a socket that may take any part of a write, block or fail. */
module Connection {
  import opened Text
  import opened Buffers

  /** The connection states in use; a fresh connection is connected. */
  datatype LinkState = Disconnected | Connected | Disconnecting

  /** What the socket does with one write. */
  datatype Outcome = Wrote(n: nat) | Blocked | Failed

  /** `open` is whether there is a descriptor; `wire` is what the socket took, `accepted` what was
      given to the connection while connected, `shut` whether SHUT_WR went out on an open descriptor. */
  datatype Conn = Conn(
    state: LinkState, open: bool, output: Bytes, wire: Bytes, accepted: Bytes, shut: bool, posted: nat)

  const FRESH := Conn(Connected, true, [], [], [], false, 0)

  function Lost(c: Conn): Conn { c.(state := Disconnected, open := false) }

  /** One send, on the loop's own thread. With bytes still queued nothing is written past them. */
  function SendInLoop(c: Conn, data: Bytes, w: Outcome): Conn {
    if c.state != Connected then c else
    var c1 := c.(accepted := c.accepted + data);
    if c.output != [] then c1.(output := c.output + data) else
    match w
    case Wrote(n) => c1.(wire := c.wire + data[..Min(n, |data|)], output := data[Min(n, |data|)..])
    case Blocked => c1.(output := data)
    case Failed => Lost(c1)
  }

  function Shutdown(c: Conn): Conn { c.(state := Disconnecting, posted := c.posted + 1) }

  /** `::shutdown(fd_, SHUT_WR)`, which does nothing without a descriptor. */
  function ShutWrite(c: Conn): Conn { if c.open then c.(shut := true) else c }

  /** The task that `shutdown` posted. */
  function ShutdownTask(c: Conn): Conn
    requires c.posted > 0
  {
    var c1 := c.(posted := c.posted - 1);
    if c.output == [] then ShutWrite(c1) else c1
  }

  /** The write loop: `ws` are the outcomes in turn, the last one repeated as blocking. */
  function Flush(c: Conn, ws: seq<Outcome>): Conn
    decreases ws
  {
    if c.output == [] || ws == [] then c else
    match ws[0]
    case Wrote(n) =>
      if n == 0 then c
      else
        var k := Min(n, |c.output|);
        Flush(c.(wire := c.wire + c.output[..k], output := c.output[k..]), ws[1..])
    case Blocked => c
    case Failed => Lost(c)
  }

  /** A write event. Once the queue is empty, a connection that is disconnecting stops writing. */
  function HandleWrite(c: Conn, ws: seq<Outcome>): Conn {
    var c1 := Flush(c, ws);
    if c1.output == [] && c1.state == Disconnecting then ShutWrite(c1) else c1
  }

  // ---------- every run ----------

  datatype Step = Send(data: Bytes, w: Outcome) | ShutdownStep | TaskStep | WriteEvent(ws: seq<Outcome>) | Gone

  predicate Enabled(c: Conn, step: Step) {
    match step
    case TaskStep => c.posted > 0
    case WriteEvent(_) => c.open
    case _ => true
  }

  function Next(c: Conn, step: Step): Conn
    requires Enabled(c, step)
  {
    match step
    case Send(data, w) => SendInLoop(c, data, w)
    case ShutdownStep => Shutdown(c)
    case TaskStep => ShutdownTask(c)
    case WriteEvent(ws) => HandleWrite(c, ws)
    case Gone => Lost(c)
  }

  /** Nothing accepted is lost, repeated or reordered: while the descriptor is open it is on the wire
      or queued, and always the wire holds a front part of it. SHUT_WR means all of it went out. */
  predicate Inv(c: Conn) {
    && c.wire <= c.accepted
    && (c.open ==> c.wire + c.output == c.accepted)
    && (c.state == Connected ==> c.open && c.posted == 0)
    && (c.shut ==> c.state != Connected && c.output == [] && c.wire == c.accepted)
  }

  lemma {:induction false} FlushKeepsInv(c: Conn, ws: seq<Outcome>)
    requires Inv(c) && c.open
    ensures Inv(Flush(c, ws)) && Flush(c, ws).state in {c.state, Disconnected}
    ensures Flush(c, ws).accepted == c.accepted && Flush(c, ws).shut == c.shut
    ensures Flush(c, ws).output == [] ==> Flush(c, ws).wire == c.accepted
    decreases ws
  {
    if c.output != [] && ws != [] && ws[0].Wrote? && ws[0].n > 0 {
      var k := Min(ws[0].n, |c.output|);
      assert c.wire + c.output[..k] + c.output[k..] == c.accepted;
      FlushKeepsInv(c.(wire := c.wire + c.output[..k], output := c.output[k..]), ws[1..]);
    }
  }

  lemma SendKeepsInv(c: Conn, data: Bytes, w: Outcome)
    requires Inv(c)
    ensures Inv(SendInLoop(c, data, w))
  {
    if c.state == Connected {
      assert c.wire + (c.output + data) == c.accepted + data;
      if w.Wrote? {
        var k := Min(w.n, |data|);
        assert c.output == [] ==> c.wire + data[..k] + data[k..] == c.accepted + data;
      }
    }
  }

  lemma StepKeepsInv(c: Conn, step: Step)
    requires Inv(c) && Enabled(c, step)
    ensures Inv(Next(c, step))
  {
    match step {
      case Send(data, w) => SendKeepsInv(c, data, w);
      case WriteEvent(ws) => FlushKeepsInv(c, ws);
      case _ =>
    }
  }

  predicate Possible(c: Conn, steps: seq<Step>)
    decreases steps
  {
    steps == [] || (Enabled(c, steps[0]) && Possible(Next(c, steps[0]), steps[1..]))
  }

  function Run(c: Conn, steps: seq<Step>): Conn
    requires Possible(c, steps)
    decreases steps
  {
    if steps == [] then c else Run(Next(c, steps[0]), steps[1..])
  }

  /** What a step offers a connected connection. */
  function Offered(c: Conn, step: Step): Bytes {
    if step.Send? && c.state == Connected then step.data else []
  }

  /** The bytes of the sends that find the connection connected. */
  function AcceptedIn(c: Conn, steps: seq<Step>): Bytes
    requires Possible(c, steps)
    decreases steps
  {
    if steps == [] then []
    else Offered(c, steps[0]) + AcceptedIn(Next(c, steps[0]), steps[1..])
  }

  lemma StepAccepts(c: Conn, step: Step)
    requires Inv(c) && Enabled(c, step)
    ensures Next(c, step).accepted == c.accepted + Offered(c, step)
  {
    if step.WriteEvent? { FlushKeepsInv(c, step.ws); }
  }

  /** For every pattern of partial, blocked and failed writes, shutdowns and losses. */
  lemma {:induction false} OutputConserved(c: Conn, steps: seq<Step>)
    requires Inv(c) && Possible(c, steps)
    ensures Inv(Run(c, steps)) && Run(c, steps).accepted == c.accepted + AcceptedIn(c, steps)
    decreases steps
  {
    if steps == [] {
      assert c.accepted + [] == c.accepted;
    } else {
      hide Next, Inv, Offered, Enabled;
      var d := Next(c, steps[0]);
      StepKeepsInv(c, steps[0]);
      StepAccepts(c, steps[0]);
      OutputConserved(d, steps[1..]);
    }
  }

  /** SHUT_WR goes out exactly at a moment when the descriptor is open and nothing is queued, and
      then all that was ever accepted is on the wire, for good. */
  lemma {:induction false} ShutIsFinal(c: Conn, steps: seq<Step>)
    requires Inv(c) && Possible(c, steps) && c.shut
    ensures Run(c, steps).shut && Run(c, steps).wire == Run(c, steps).accepted == c.accepted
    decreases steps
  {
    if steps != [] {
      StepKeepsInv(c, steps[0]);
      if steps[0].WriteEvent? { FlushKeepsInv(c, steps[0].ws); }
      ShutIsFinal(Next(c, steps[0]), steps[1..]);
    }
  }

  // ---------- what each write does ----------

  /** A send on a connected connection. Behind queued bytes nothing is written; else the socket gets it
      once: what it takes is on the wire and the rest is queued, and a failure gives the connection up. */
  lemma SendDoes(c: Conn, data: Bytes, w: Outcome)
    requires Inv(c) && c.state == Connected
    ensures var d := SendInLoop(c, data, w);
            && d.accepted == c.accepted + data && d.shut == c.shut
            && (c.output != [] || w.Blocked? ==>
                  d.state == Connected && d.open && d.wire == c.wire && d.output == c.output + data)
            && (c.output == [] && w.Wrote? ==>
                  && d.state == Connected && d.open
                  && d.wire == c.wire + data[..Min(w.n, |data|)] && d.wire + d.output == c.wire + data)
            && (c.output == [] && w.Failed? ==>
                  d.state == Disconnected && !d.open && d.wire == c.wire && d.output == [])
  {
    assert [] + data == data;
  }

  /** A connection given up stays so: not a byte more is accepted or written, whatever comes. */
  lemma {:induction false} LostForGood(c: Conn, steps: seq<Step>)
    requires c.state != Connected && !c.open && Possible(c, steps)
    ensures var d := Run(c, steps);
            d.state != Connected && !d.open && d.wire == c.wire && d.accepted == c.accepted && d.shut == c.shut
    ensures AcceptedIn(c, steps) == []
    decreases steps
  {
    if steps != [] { LostForGood(Next(c, steps[0]), steps[1..]); }
  }

  /** The first write that fails is the last one: disconnected, no descriptor, and nothing of what is
      sent later is accepted. */
  lemma FailedSendIsFinal(c: Conn, data: Bytes, steps: seq<Step>)
    requires Inv(c) && c.state == Connected && c.output == []
    requires Possible(c, [Send(data, Failed)] + steps)
    ensures Next(c, Send(data, Failed)).state == Disconnected
    ensures var d := Run(c, [Send(data, Failed)] + steps);
            d.state != Connected && !d.open && d.wire == c.wire && d.accepted == c.accepted + data
    ensures AcceptedIn(c, [Send(data, Failed)] + steps) == data
  {
    var d := Next(c, Send(data, Failed));
    SendDoes(c, data, Failed);
    assert ([Send(data, Failed)] + steps)[1..] == steps;
    LostForGood(d, steps);
    assert data + [] == data;
  }

  /** A connection that goes is gone, whatever is queued. */
  lemma GoneIsFinal(c: Conn, steps: seq<Step>)
    requires Possible(c, [Gone] + steps)
    ensures Next(c, Gone).state == Disconnected
    ensures var d := Run(c, [Gone] + steps);
            d.state != Connected && !d.open && d.wire == c.wire && d.accepted == c.accepted && d.shut == c.shut
    ensures AcceptedIn(c, [Gone] + steps) == []
  {
    assert ([Gone] + steps)[1..] == steps;
    LostForGood(Next(c, Gone), steps);
  }

  /** How many bytes the outcomes take before one of them stops the loop. */
  function Room(ws: seq<Outcome>): nat {
    if ws == [] || !ws[0].Wrote? || ws[0].n == 0 then 0 else ws[0].n + Room(ws[1..])
  }

  /** Whether the outcome that stops the loop is a failure. */
  predicate EndsInFailure(ws: seq<Outcome>) {
    ws != [] && (ws[0].Failed? || (ws[0].Wrote? && ws[0].n > 0 && EndsInFailure(ws[1..])))
  }

  /** The write loop takes as much of the queue as the outcomes take, from its front, and gives the
      connection up exactly when a failure comes before the queue is empty. */
  lemma {:induction false} FlushExactly(c: Conn, ws: seq<Outcome>)
    ensures var d, k := Flush(c, ws), Min(Room(ws), |c.output|);
            && d.wire == c.wire + c.output[..k] && d.output == c.output[k..]
            && d.accepted == c.accepted && d.shut == c.shut && d.posted == c.posted
            && if EndsInFailure(ws) && Room(ws) < |c.output| then d.state == Disconnected && !d.open
               else d.state == c.state && d.open == c.open
    decreases ws
  {
    if c.output == [] || ws == [] || !ws[0].Wrote? || ws[0].n == 0 {
      assert c.wire + [] == c.wire;
    } else {
      var k := Min(ws[0].n, |c.output|);
      var c1 := c.(wire := c.wire + c.output[..k], output := c.output[k..]);
      FlushExactly(c1, ws[1..]);
      hide Flush, Room, EndsInFailure;
      TakenTwice(c.wire, c.output, k, Min(Room(ws[1..]), |c1.output|));
    }
  }

  lemma TakenTwice(wire: Bytes, output: Bytes, k: nat, j: nat)
    requires k <= |output| && j <= |output| - k
    ensures wire + output[..k] + output[k..][..j] == wire + output[..k + j] && output[k..][j..] == output[k + j..]
  {
  }

  /** A write event on a failing socket gives the connection up like a failing send does; one on a socket
      that takes all brings every accepted byte onto the wire. */
  lemma WriteEventDoes(c: Conn, ws: seq<Outcome>)
    requires Inv(c) && c.open
    ensures var d := HandleWrite(c, ws);
            && (EndsInFailure(ws) && Room(ws) < |c.output| ==> d.state == Disconnected && !d.open && !d.shut)
            && (!(EndsInFailure(ws) && Room(ws) < |c.output|) ==> d.state == c.state && d.open)
            && (Room(ws) >= |c.output| ==> d.output == [] && d.wire == c.accepted)
            && (Room(ws) >= |c.output| && c.state == Disconnecting ==> d.shut)
  {
    FlushExactly(c, ws);
  }

  /** A shutdown does stop writing: at once when nothing is queued, else at the write event that empties
      the queue, and not before. */
  lemma ShutdownCompletes(c: Conn, ws: seq<Outcome>)
    requires Inv(c) && c.state == Connected
    ensures var d := ShutdownTask(Shutdown(c));
            && d.state == Disconnecting && d.open && d.posted == c.posted && d.output == c.output
            && (d.shut <==> c.output == [])
            && (Room(ws) >= |c.output| ==> HandleWrite(d, ws).shut && HandleWrite(d, ws).wire == c.accepted)
            && (Room(ws) < |c.output| ==> !HandleWrite(d, ws).shut)
  {
    FlushExactly(ShutdownTask(Shutdown(c)), ws);
  }

  // ---------- the connection object ----------

  class TcpConnection {
    var state: LinkState
    var open: bool
    const output: ByteBuffer
    var shut: bool
    var posted: nat
    ghost var wire: Bytes
    ghost var accepted: Bytes

    ghost predicate Valid()
      reads this, output
    {
      output.Valid()
    }

    ghost function View(): Conn
      requires Valid()
      reads this, output, output.data
    {
      Conn(state, open, output.Content(), wire, accepted, shut, posted)
    }

    constructor ()
      ensures Valid() && View() == FRESH && fresh(output) && fresh(output.data)
    {
      state, open, shut, posted := Connected, true, false, 0;
      wire, accepted := [], [];
      output := new ByteBuffer(16384);
    }

    method HandleError()
      requires Valid()
      modifies this`state, this`open
      ensures Valid() && View() == Lost(old(View()))
    {
      state := Disconnected;
      open := false;
    }

    method SendData(data: Bytes, w: Outcome)
      requires Valid()
      modifies this, output, output.data
      ensures Valid() && (output.data == old(output.data) || fresh(output.data))
      ensures View() == SendInLoop(old(View()), data, w)
    {
      if state != Connected { return; }
      accepted := accepted + data;
      var remaining := data;
      var queued := output.Readable();
      if queued == 0 {
        match w {
          case Wrote(n) =>
            var k := Min(n, |data|);
            wire := wire + data[..k];
            remaining := data[k..];
            if remaining == [] { return; }
          case Blocked =>
          case Failed =>
            HandleError();
            return;
        }
      }
      if remaining != [] { output.Append(remaining); }
    }

    method ShutdownConnection()
      requires Valid()
      modifies this`state, this`posted
      ensures Valid() && View() == Shutdown(old(View()))
    {
      state := Disconnecting;
      posted := posted + 1;
    }

    method RunShutdownTask()
      requires Valid() && posted > 0
      modifies this`posted, this`shut
      ensures Valid() && View() == ShutdownTask(old(View()))
    {
      posted := posted - 1;
      var queued := output.Readable();
      if queued == 0 && open { shut := true; }
    }

    method WriteEvent(ws: seq<Outcome>)
      requires Valid()
      modifies this, output, output.data
      ensures Valid() && output.data == old(output.data)
      ensures View() == HandleWrite(old(View()), ws)
    {
      var i := 0;
      var queued := output.Readable();
      while queued > 0 && i < |ws|
        invariant 0 <= i <= |ws| && Valid() && output.data == old(output.data)
        invariant queued == |output.Content()|
        invariant Flush(View(), ws[i..]) == Flush(old(View()), ws)
        decreases |ws| - i
      {
        assert ws[i..][1..] == ws[i + 1..];
        match ws[i] {
          case Wrote(n) =>
            if n == 0 { break; }
            var piece := output.Peek(Min(n, queued));
            wire := wire + piece;
            output.Skip(|piece|);
          case Blocked => break;
          case Failed =>
            HandleError();
            break;
        }
        queued := output.Readable();
        i := i + 1;
      }
      assert View() == Flush(old(View()), ws);
      queued := output.Readable();
      if queued == 0 && state == Disconnecting && open { shut := true; }
    }
  }
}
