/** The queue of posted tasks of an event loop, and the sends that reach a connection through it. */
module TaskQueue {
  import opened Text
  import Connection

  /** `pending` is under the lock, `batch` is what the swap took and the loop still has to run.
      `posted` and `executed` are the history. */
  datatype Queue<T> = Queue(pending: seq<T>, batch: seq<T>, posted: seq<T>, executed: seq<T>)

  /** Any thread posts at any moment, running tasks too; the loop swaps once its batch is done. */
  datatype Step<T> = Post(task: T) | Swap | RunOne

  predicate Enabled<T>(q: Queue<T>, step: Step<T>) {
    match step
    case Post(_) => true
    case Swap => q.batch == []
    case RunOne => q.batch != []
  }

  function Next<T>(q: Queue<T>, step: Step<T>): Queue<T>
    requires Enabled(q, step)
  {
    match step
    case Post(task) => q.(pending := q.pending + [task], posted := q.posted + [task])
    case Swap => q.(batch := q.pending, pending := [])
    case RunOne => q.(batch := q.batch[1..], executed := q.executed + [q.batch[0]])
  }

  predicate Possible<T>(q: Queue<T>, steps: seq<Step<T>>)
    decreases steps
  {
    steps == [] || (Enabled(q, steps[0]) && Possible(Next(q, steps[0]), steps[1..]))
  }

  function Run<T>(q: Queue<T>, steps: seq<Step<T>>): Queue<T>
    requires Possible(q, steps)
    decreases steps
  {
    if steps == [] then q else Run(Next(q, steps[0]), steps[1..])
  }

  /** Every task is run, in the batch, or pending: once, and in the order of posting. */
  predicate Conserved<T(==)>(q: Queue<T>) { q.executed + q.batch + q.pending == q.posted }

  function Posts<T>(steps: seq<Step<T>>): seq<T> {
    if steps == [] then [] else (if steps[0].Post? then [steps[0].task] else []) + Posts(steps[1..])
  }

  lemma {:induction false} TasksConserved<T>(q: Queue<T>, steps: seq<Step<T>>)
    requires Conserved(q) && Possible(q, steps)
    ensures Conserved(Run(q, steps)) && Run(q, steps).posted == q.posted + Posts(steps)
    decreases steps
  {
    if steps == [] {
      assert q.posted + [] == q.posted;
    } else {
      var n := Next(q, steps[0]);
      match steps[0] {
        case Post(task) =>
          assert q.executed + q.batch + (q.pending + [task]) == q.posted + [task];
        case Swap =>
          assert q.executed + q.pending + [] == q.posted;
        case RunOne =>
          assert q.executed + [q.batch[0]] + q.batch[1..] == q.executed + q.batch;
      }
      TasksConserved(n, steps[1..]);
      assert q.posted + (n.posted[|q.posted|..] + Posts(steps[1..])) == n.posted + Posts(steps[1..]);
    }
  }

  lemma {:induction false} TakenStay<T>(q: Queue<T>, steps: seq<Step<T>>, tasks: seq<T>)
    requires Possible(q, steps) && tasks <= q.executed + q.batch
    ensures var r := Run(q, steps); tasks <= r.executed + r.batch
    decreases steps
  {
    if steps != [] {
      if steps[0].RunOne? { assert q.executed + [q.batch[0]] + q.batch[1..] == q.executed + q.batch; }
      TakenStay(Next(q, steps[0]), steps[1..], tasks);
    }
  }

  /** No task waits for more than one batch: whatever had been posted when the loop swapped has run, in
      the order of posting, whenever its batch is next empty. */
  lemma NextRoundRunsAll<T>(q: Queue<T>, steps: seq<Step<T>>)
    requires Conserved(q) && Enabled(q, Swap) && Possible(Next(q, Swap), steps)
    requires Run(Next(q, Swap), steps).batch == []
    ensures q.posted <= Run(Next(q, Swap), steps).executed
  {
    assert q.executed + [] + q.pending == q.posted;
    TakenStay(Next(q, Swap), steps, q.posted);
  }

  // ---------- sends from other threads ----------

  /** One send: which thread asked for it, and its bytes. */
  datatype Job = Job(thread: nat, data: Bytes)

  function Of(thread: nat, jobs: seq<Job>): seq<Bytes> {
    if jobs == [] then []
    else (if jobs[0].thread == thread then [jobs[0].data] else []) + Of(thread, jobs[1..])
  }

  lemma {:induction false} OfAppend(thread: nat, a: seq<Job>, b: seq<Job>)
    ensures Of(thread, a + b) == Of(thread, a) + Of(thread, b)
    decreases a
  {
    if a == [] {
      assert a + b == b;
    } else {
      OfAppend(thread, a[1..], b);
      assert (a + b)[0] == a[0] && (a + b)[1..] == a[1..] + b;
      var head := if a[0].thread == thread then [a[0].data] else [];
      assert Of(thread, a + b) == head + (Of(thread, a[1..]) + Of(thread, b));
    }
  }

  function Bytewise(jobs: seq<Job>): Bytes {
    if jobs == [] then [] else jobs[0].data + Bytewise(jobs[1..])
  }

  lemma {:induction false} BytewiseAppend(a: seq<Job>, b: seq<Job>)
    ensures Bytewise(a + b) == Bytewise(a) + Bytewise(b)
    decreases a
  {
    if a == [] {
      assert a + b == b;
    } else {
      BytewiseAppend(a[1..], b);
      assert (a + b)[1..] == a[1..] + b;
      assert Bytewise(a + b) == a[0].data + (Bytewise(a[1..]) + Bytewise(b));
    }
  }

  /** A connection with the queue of its loop; `reached` lists the sends that got to `sendInLoop`. */
  datatype Wired = Wired(owner: nat, queue: Queue<Job>, conn: Connection.Conn, reached: seq<Job>)

  /** A thread sends, the loop swaps or runs a task, or the socket gets ready or breaks. */
  datatype Act =
    | Send(job: Job, w: Connection.Outcome) | SwapAct | TaskAct(w: Connection.Outcome)
    | Ready(ws: seq<Connection.Outcome>) | Broken

  predicate CanAct(s: Wired, act: Act) {
    match act
    case SwapAct => s.queue.batch == []
    case TaskAct(_) => s.queue.batch != []
    case Ready(_) => s.conn.open
    case _ => true
  }

  function Arrive(s: Wired, job: Job, w: Connection.Outcome): Wired {
    s.(conn := Connection.SendInLoop(s.conn, job.data, w),
       reached := if s.conn.state == Connection.Connected then s.reached + [job] else s.reached)
  }

  /** `TcpConnection::send` and the loop around it. The loop's own thread sends at once, past
      whatever is still queued. */
  function After(s: Wired, act: Act): Wired
    requires CanAct(s, act)
  {
    match act
    case Send(job, w) =>
      if s.conn.state != Connection.Connected then s
      else if job.thread == s.owner then Arrive(s, job, w)
      else s.(queue := Next(s.queue, Post(job)))
    case SwapAct => s.(queue := Next(s.queue, Swap))
    case TaskAct(w) => Arrive(s, s.queue.batch[0], w).(queue := Next(s.queue, RunOne))
    case Ready(ws) => s.(conn := Connection.HandleWrite(s.conn, ws))
    case Broken => s.(conn := Connection.Lost(s.conn))
  }

  predicate CanActAll(s: Wired, acts: seq<Act>)
    decreases acts
  {
    acts == [] || (CanAct(s, acts[0]) && CanActAll(After(s, acts[0]), acts[1..]))
  }

  function AfterAll(s: Wired, acts: seq<Act>): Wired
    requires CanActAll(s, acts)
    decreases acts
  {
    if acts == [] then s else AfterAll(After(s, acts[0]), acts[1..])
  }

  /** What a thread sent on a connected connection. */
  function Sent(s: Wired, acts: seq<Act>, thread: nat): seq<Bytes>
    requires CanActAll(s, acts)
    decreases acts
  {
    if acts == [] then []
    else (if acts[0].Send? && acts[0].job.thread == thread && s.conn.state == Connection.Connected
          then [acts[0].job.data] else []) + Sent(After(s, acts[0]), acts[1..], thread)
  }

  /** What got through, and what still waits, of one thread. */
  function Progress(s: Wired, thread: nat): seq<Bytes> {
    Of(thread, s.reached) + Of(thread, s.queue.batch) + Of(thread, s.queue.pending)
  }

  /** Only other threads' sends wait; the bytes accepted are those of the sends that got through. */
  predicate WiredInv(s: Wired) {
    && Connection.Inv(s.conn) && s.conn.accepted == Bytewise(s.reached)
    && (forall j :: j in s.queue.batch ==> j.thread != s.owner)
    && (forall j :: j in s.queue.pending ==> j.thread != s.owner)
  }

  lemma {:induction false} NoneOf(thread: nat, jobs: seq<Job>)
    requires forall j :: j in jobs ==> j.thread != thread
    ensures Of(thread, jobs) == []
    decreases jobs
  {
    if jobs != [] { NoneOf(thread, jobs[1..]); }
  }

  lemma ArriveKeepsInv(s: Wired, job: Job, w: Connection.Outcome)
    requires WiredInv(s)
    ensures WiredInv(Arrive(s, job, w))
  {
    Connection.SendKeepsInv(s.conn, job.data, w);
    BytewiseAppend(s.reached, [job]);
    assert Bytewise([job]) == job.data by { assert [job][1..] == []; assert job.data + [] == job.data; }
  }

  lemma ActKeepsInv(s: Wired, act: Act)
    requires WiredInv(s) && CanAct(s, act)
    ensures WiredInv(After(s, act)) && After(s, act).owner == s.owner
  {
    match act {
      case Send(job, w) => ArriveKeepsInv(s, job, w);
      case TaskAct(w) => ArriveKeepsInv(s, s.queue.batch[0], w);
      case Ready(ws) => Connection.FlushKeepsInv(s.conn, ws);
      case _ =>
    }
    hide Bytewise, Connection.Inv, Connection.SendInLoop, Connection.HandleWrite;
  }

  lemma ProgressOfSend(s: Wired, job: Job, w: Connection.Outcome, thread: nat)
    requires WiredInv(s) && s.conn.state == Connection.Connected
    ensures Progress(After(s, Send(job, w)), thread)
         == Progress(s, thread) + if job.thread == thread then [job.data] else []
  {
    hide Connection.SendInLoop, WiredInv, Of;
    OneOf(thread, job);
    if job.thread == s.owner {
      OfAppend(thread, s.reached, [job]);
      if thread == s.owner { OwnerWaitsForNothing(s); }
    } else {
      OfAppend(thread, s.queue.pending, [job]);
    }
  }

  lemma ProgressOfTask(s: Wired, w: Connection.Outcome, thread: nat)
    requires s.conn.state == Connection.Connected && s.queue.batch != []
    ensures Progress(After(s, TaskAct(w)), thread) == Progress(s, thread)
  {
    hide Connection.SendInLoop, Of;
    var job := s.queue.batch[0];
    OfAppend(thread, s.reached, [job]);
    OfAppend(thread, [job], s.queue.batch[1..]);
    assert [job] + s.queue.batch[1..] == s.queue.batch;
  }

  /** While the connection holds, a send of `thread` is added behind its earlier ones and nothing of
      it is dropped, doubled or overtaken by another of its own. */
  lemma ActProgress(s: Wired, act: Act, thread: nat)
    requires WiredInv(s) && CanAct(s, act) && After(s, act).conn.state == Connection.Connected
    ensures Progress(After(s, act), thread) == Progress(s, thread) + Sent(s, [act], thread)
  {
    assert s.conn.state == Connection.Connected by {
      if s.conn.state != Connection.Connected { StaysDown(s, act); }
    }
    hide Connection.SendInLoop, Connection.HandleWrite, WiredInv, Of;
    assert [act][1..] == [];
    match act {
      case Send(job, w) => ProgressOfSend(s, job, w, thread);
      case TaskAct(w) => ProgressOfTask(s, w, thread);
      case SwapAct => NothingOf(thread);
      case _ =>
    }
  }

  lemma NothingOf(thread: nat)
    ensures Of(thread, []) == []
  {
  }

  lemma OneOf(thread: nat, job: Job)
    ensures Of(thread, [job]) == if job.thread == thread then [job.data] else []
  {
    assert [job][1..] == [];
  }

  lemma OwnerWaitsForNothing(s: Wired)
    requires WiredInv(s)
    ensures Of(s.owner, s.queue.batch) == [] && Of(s.owner, s.queue.pending) == []
  {
    NoneOf(s.owner, s.queue.batch);
    NoneOf(s.owner, s.queue.pending);
  }

  /** A connection that is lost never counts as connected again. */
  lemma StaysDown(s: Wired, act: Act)
    requires WiredInv(s) && CanAct(s, act) && s.conn.state != Connection.Connected
    ensures After(s, act).conn.state != Connection.Connected
  {
    if act.Ready? { Connection.FlushKeepsInv(s.conn, act.ws); }
  }

  lemma {:induction false} StaysDownAll(s: Wired, acts: seq<Act>)
    requires WiredInv(s) && CanActAll(s, acts) && s.conn.state != Connection.Connected
    ensures AfterAll(s, acts).conn.state != Connection.Connected
    decreases acts
  {
    hide After, CanAct, WiredInv;
    if acts != [] {
      ActKeepsInv(s, acts[0]);
      StaysDown(s, acts[0]);
      StaysDownAll(After(s, acts[0]), acts[1..]);
    }
  }

  /** While the connection stays connected, each thread's sends reach `sendInLoop` once and in the
      order sent, however threads, swaps and tasks interleave; the rest still waits in the queue. */
  lemma {:induction false} SendsReachLoop(s: Wired, acts: seq<Act>, thread: nat)
    requires WiredInv(s) && CanActAll(s, acts) && AfterAll(s, acts).conn.state == Connection.Connected
    ensures Progress(AfterAll(s, acts), thread) == Progress(s, thread) + Sent(s, acts, thread)
    ensures WiredInv(AfterAll(s, acts)) && AfterAll(s, acts).owner == s.owner
    decreases acts
  {
    hide After, CanAct, WiredInv, Progress;
    if acts == [] {
      assert Progress(s, thread) + [] == Progress(s, thread);
    } else {
      var t := After(s, acts[0]);
      ActKeepsInv(s, acts[0]);
      if t.conn.state != Connection.Connected { StaysDownAll(t, acts[1..]); }
      ActProgress(s, acts[0], thread);
      SentOne(s, acts, thread);
      SendsReachLoop(t, acts[1..], thread);
      assert Progress(s, thread) + Sent(s, [acts[0]], thread) + Sent(t, acts[1..], thread)
          == Progress(s, thread) + (Sent(s, [acts[0]], thread) + Sent(t, acts[1..], thread));
    }
  }

  lemma SentOne(s: Wired, acts: seq<Act>, thread: nat)
    requires acts != [] && CanActAll(s, acts)
    ensures CanActAll(s, [acts[0]])
    ensures Sent(s, acts, thread) == Sent(s, [acts[0]], thread) + Sent(After(s, acts[0]), acts[1..], thread)
  {
    hide After, CanAct;
    assert [acts[0]][1..] == [];
  }

  /** What the loop's own thread sends is never behind a queue: all of it got through. */
  lemma OwnSendsAreImmediate(s: Wired, acts: seq<Act>)
    requires WiredInv(s) && CanActAll(s, acts) && AfterAll(s, acts).conn.state == Connection.Connected
    ensures Of(s.owner, AfterAll(s, acts).reached) == Of(s.owner, s.reached) + Sent(s, acts, s.owner)
  {
    hide WiredInv, Of, After, CanAct;
    var t := AfterAll(s, acts);
    SendsReachLoop(s, acts, s.owner);
    OwnerWaitsForNothing(s);
    OwnerWaitsForNothing(t);
    assert Progress(s, s.owner) == Of(s.owner, s.reached);
    assert Progress(t, s.owner) == Of(s.owner, t.reached);
  }

  // ---------- after the connection broke ----------

  lemma {:induction false} NothingReaches(s: Wired, acts: seq<Act>, thread: nat)
    requires s.conn.state != Connection.Connected && !s.conn.open && CanActAll(s, acts)
    ensures var t := AfterAll(s, acts);
            && t.reached == s.reached && t.conn.accepted == s.conn.accepted && t.conn.wire == s.conn.wire
            && t.conn.state != Connection.Connected && !t.conn.open
    ensures Sent(s, acts, thread) == []
    decreases acts
  {
    if acts != [] { NothingReaches(After(s, acts[0]), acts[1..], thread); }
  }

  /** Once the connection breaks, no send of any thread gets through any more, those already posted
      included; the loop still runs their tasks. */
  lemma BrokenEndsSends(s: Wired, acts: seq<Act>, thread: nat)
    requires CanActAll(s, [Broken] + acts)
    ensures var t := AfterAll(s, [Broken] + acts);
            && t.reached == s.reached && t.conn.accepted == s.conn.accepted && t.conn.wire == s.conn.wire
            && t.conn.state != Connection.Connected && !t.conn.open
    ensures Sent(s, [Broken] + acts, thread) == []
  {
    assert ([Broken] + acts)[1..] == acts;
    NothingReaches(After(s, Broken), acts, thread);
  }
}
