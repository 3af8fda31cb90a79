/** The mutexes of the relay: in which order threads take them, and why none waits forever. */
module LockOrder {
  import opened Text

  /** The output buffer of a player's connection or of the source's, `streams_mutex_`, the
      `sinks_mutex` of one stream, and the `task_mutex_` of one loop. */
  datatype Lock =
    | SinkOutput(conn: nat) | StreamTable | SinkList(path: Bytes) | SourceOutput(conn: nat) | Tasks(loop: nat)

  function Rank(l: Lock): (r: nat)
    ensures r <= 4
  {
    match l
    case SinkOutput(_) => 0
    case StreamTable => 1
    case SinkList(_) => 2
    case SourceOutput(_) => 3
    case Tasks(_) => 4
  }

  datatype Op = Take(lock: Lock) | Drop(lock: Lock)

  // ---------- what each activity of a thread locks ----------

  /** How one `sendInLoop` ends: all written, the rest queued, or the socket broken. */
  datatype Result = Written | Queued | Broke

  /** A packet for one sink: its connection belongs to another loop, or to the loop of the source. */
  datatype Delivery = Foreign(loop: nat) | Own(conn: nat, loop: nat, header: Result, payload: Result)

  datatype Activity =
    | Post(loop: nat) | SwapTasks(loop: nat)
    | AddSink(path: Bytes, found: bool) | RemoveSink(path: Bytes, found: bool)
    | LookUp | Survey(paths: seq<Bytes>)
    | AddStream(loop: nat, posts: bool, conn: nat, first: Result)
    | RemoveStream(loop: nat, teardown: bool, conn: nat, last: Result)
    | FanOut(path: Bytes, found: bool, deliveries: seq<Delivery>)
    | Respond(conn: nat, loop: nat, result: Result, path: Bytes, playing: bool)
    | WriteSink(conn: nat, broke: bool, path: Bytes, playing: bool)
    | SendUpstream(conn: nat, loop: nat, result: Result) | WriteSource(conn: nat)

  function Briefly(l: Lock): seq<Op> { [Take(l), Drop(l)] }

  function InTable(path: Bytes, found: bool): seq<Op> {
    [Take(StreamTable)] + (if found then Briefly(SinkList(path)) else []) + [Drop(StreamTable)]
  }

  /** `close()` of a session: a playing one leaves its stream. */
  function Closing(path: Bytes, playing: bool): seq<Op> { if playing then InTable(path, true) else [] }

  /** `sendInLoop`: a look at the output buffer, then nothing more, an append and a posted task, or
      the error callback. */
  function SendOps(out: Lock, loop: nat, result: Result, onError: seq<Op>): seq<Op> {
    Briefly(out) + match result
                   case Written => []
                   case Queued => Briefly(out) + Briefly(Tasks(loop))
                   case Broke => onError
  }

  function DeliveryOps(path: Bytes, d: Delivery): seq<Op> {
    match d
    case Foreign(loop) => Briefly(Tasks(loop)) + Briefly(Tasks(loop))
    case Own(conn, loop, header, payload) =>
      SendOps(SinkOutput(conn), loop, header, InTable(path, true))
      + if header == Broke then [] else SendOps(SinkOutput(conn), loop, payload, InTable(path, true))
  }

  function DeliveriesOps(path: Bytes, ds: seq<Delivery>): seq<Op> {
    if ds == [] then [] else DeliveryOps(path, ds[0]) + DeliveriesOps(path, ds[1..])
  }

  function EachList(paths: seq<Bytes>): seq<Op> {
    if paths == [] then [] else Briefly(SinkList(paths[0])) + EachList(paths[1..])
  }

  function Trace(a: Activity): seq<Op> {
    match a
    case Post(loop) => Briefly(Tasks(loop))
    case SwapTasks(loop) => Briefly(Tasks(loop))
    case AddSink(path, found) => InTable(path, found)
    case RemoveSink(path, found) => InTable(path, found)
    case LookUp => Briefly(StreamTable)
    case Survey(paths) => [Take(StreamTable)] + EachList(paths) + [Drop(StreamTable)]
    case AddStream(loop, posts, conn, first) =>
      [Take(StreamTable)] + (if posts then Briefly(Tasks(loop)) else SendOps(SourceOutput(conn), loop, first, []))
      + [Drop(StreamTable)]
    case RemoveStream(loop, teardown, conn, last) =>
      [Take(StreamTable)] + (if teardown then SendOps(SourceOutput(conn), loop, last, []) else []) + [Drop(StreamTable)]
    case FanOut(path, found, deliveries) =>
      Briefly(StreamTable)
      + if found then [Take(SinkList(path))] + DeliveriesOps(path, deliveries) + [Drop(SinkList(path))] else []
    case Respond(conn, loop, result, path, playing) => SendOps(SinkOutput(conn), loop, result, Closing(path, playing))
    case WriteSink(conn, broke, path, playing) =>
      [Take(SinkOutput(conn))] + (if broke then Closing(path, playing) else []) + [Drop(SinkOutput(conn))]
      + Briefly(SinkOutput(conn))
    case SendUpstream(conn, loop, result) => SendOps(SourceOutput(conn), loop, result, [])
    case WriteSource(conn) => Briefly(SourceOutput(conn)) + Briefly(SourceOutput(conn))
  }

  function Program(acts: seq<Activity>): seq<Op> {
    if acts == [] then [] else Trace(acts[0]) + Program(acts[1..])
  }

  /** Players are served by loops of their own: no packet is for a connection of the source's loop. */
  predicate Apart(a: Activity) {
    a.FanOut? && a.found ==> forall d :: d in a.deliveries ==> d.Foreign?
  }

  // ---------- every activity takes its locks in rank order ----------

  /** `ops`, started while holding `held`, takes only locks above those held, drops in reverse order,
      and ends holding `end`. */
  predicate Ranked(held: seq<Lock>, ops: seq<Op>, end: seq<Lock>)
    decreases ops
  {
    if ops == [] then held == end else
    match ops[0]
    case Take(l) => (forall h :: h in held ==> Rank(h) < Rank(l)) && Ranked(held + [l], ops[1..], end)
    case Drop(l) => held != [] && held[|held| - 1] == l && Ranked(held[..|held| - 1], ops[1..], end)
  }

  lemma {:induction false} Chain(held: seq<Lock>, a: seq<Op>, mid: seq<Lock>, b: seq<Op>, end: seq<Lock>)
    requires Ranked(held, a, mid) && Ranked(mid, b, end)
    ensures Ranked(held, a + b, end)
    decreases a
  {
    if a == [] {
      assert a + b == b;
    } else {
      assert (a + b)[1..] == a[1..] + b;
      Chain(if a[0].Take? then held + [a[0].lock] else held[..|held| - 1], a[1..], mid, b, end);
    }
  }

  predicate Above(held: seq<Lock>, l: Lock) { forall h :: h in held ==> Rank(h) < Rank(l) }

  lemma Wrap(held: seq<Lock>, l: Lock, ops: seq<Op>)
    requires Above(held, l) && Ranked(held + [l], ops, held + [l])
    ensures Ranked(held, [Take(l)] + ops + [Drop(l)], held)
  {
    var h := held + [l];
    assert h[..|h| - 1] == held;
    assert [Drop(l)][1..] == [];
    Chain(h, ops, h, [Drop(l)], held);
    assert [Take(l)] + ops + [Drop(l)] == [Take(l)] + (ops + [Drop(l)]);
    assert ([Take(l)] + (ops + [Drop(l)]))[1..] == ops + [Drop(l)];
  }

  lemma BrieflyRanked(held: seq<Lock>, l: Lock)
    requires Above(held, l)
    ensures Ranked(held, Briefly(l), held)
  {
    Wrap(held, l, []);
    assert [Take(l)] + [] + [Drop(l)] == Briefly(l);
  }

  lemma InTableRanked(held: seq<Lock>, path: Bytes, found: bool)
    requires Above(held, StreamTable)
    ensures Ranked(held, InTable(path, found), held)
  {
    if found { BrieflyRanked(held + [StreamTable], SinkList(path)); }
    Wrap(held, StreamTable, if found then Briefly(SinkList(path)) else []);
  }

  lemma SendRanked(held: seq<Lock>, out: Lock, loop: nat, result: Result, onError: seq<Op>)
    requires Above(held, out) && Above(held, Tasks(loop)) && Ranked(held, onError, held)
    ensures Ranked(held, SendOps(out, loop, result, onError), held)
  {
    hide Ranked;
    BrieflyRanked(held, out);
    match result {
      case Written => assert Briefly(out) + [] == Briefly(out);
      case Queued =>
        BrieflyRanked(held, Tasks(loop));
        Chain(held, Briefly(out), held, Briefly(Tasks(loop)), held);
        Chain(held, Briefly(out), held, Briefly(out) + Briefly(Tasks(loop)), held);
      case Broke => Chain(held, Briefly(out), held, onError, held);
    }
  }

  lemma {:induction false} DeliveriesRanked(path: Bytes, ds: seq<Delivery>)
    requires forall d :: d in ds ==> d.Foreign?
    ensures Ranked([SinkList(path)], DeliveriesOps(path, ds), [SinkList(path)])
  {
    if ds != [] {
      var held := [SinkList(path)];
      assert ds[0] in ds;
      BrieflyRanked(held, Tasks(ds[0].loop));
      Chain(held, Briefly(Tasks(ds[0].loop)), held, Briefly(Tasks(ds[0].loop)), held);
      DeliveriesRanked(path, ds[1..]);
      Chain(held, DeliveryOps(path, ds[0]), held, DeliveriesOps(path, ds[1..]), held);
    }
  }

  lemma {:induction false} EachListRanked(paths: seq<Bytes>)
    ensures Ranked([StreamTable], EachList(paths), [StreamTable])
  {
    if paths != [] {
      BrieflyRanked([StreamTable], SinkList(paths[0]));
      EachListRanked(paths[1..]);
      Chain([StreamTable], Briefly(SinkList(paths[0])), [StreamTable], EachList(paths[1..]), [StreamTable]);
    }
  }

  lemma FanOutRanked(path: Bytes, found: bool, ds: seq<Delivery>)
    requires found ==> forall d :: d in ds ==> d.Foreign?
    ensures Ranked([], Trace(FanOut(path, found, ds)), [])
  {
    hide Ranked;
    BrieflyRanked([], StreamTable);
    if found {
      DeliveriesRanked(path, ds);
      assert [] + [SinkList(path)] == [SinkList(path)];
      Wrap([], SinkList(path), DeliveriesOps(path, ds));
      Chain([], Briefly(StreamTable), [], [Take(SinkList(path))] + DeliveriesOps(path, ds) + [Drop(SinkList(path))], []);
    }
    assert Briefly(StreamTable) + [] == Briefly(StreamTable);
  }

  lemma ClosingRanked(held: seq<Lock>, path: Bytes, playing: bool)
    requires Above(held, StreamTable)
    ensures Ranked(held, Closing(path, playing), held)
  {
    InTableRanked(held, path, true);
  }

  lemma WriteSinkRanked(conn: nat, broke: bool, path: Bytes, playing: bool)
    ensures Ranked([], Trace(WriteSink(conn, broke, path, playing)), [])
  {
    hide Ranked, Closing;
    var out := SinkOutput(conn);
    assert [] + [out] == [out];
    var inner := if broke then Closing(path, playing) else [];
    assert Ranked([out], inner, [out]) by {
      if broke { ClosingRanked([out], path, playing); } else { NothingRanked([out]); }
    }
    Wrap([], out, inner);
    BrieflyRanked([], out);
    Chain([], [Take(out)] + inner + [Drop(out)], [], Briefly(out), []);
  }

  lemma NothingRanked(held: seq<Lock>)
    ensures Ranked(held, [], held)
  {
  }

  lemma UnderTableRanked(ops: seq<Op>)
    requires Ranked([StreamTable], ops, [StreamTable])
    ensures Ranked([], [Take(StreamTable)] + ops + [Drop(StreamTable)], [])
  {
    assert [] + [StreamTable] == [StreamTable];
    Wrap([], StreamTable, ops);
  }

  lemma TraceRanked(a: Activity)
    requires Apart(a)
    ensures Ranked([], Trace(a), [])
  {
    hide Ranked, InTable, SendOps, Closing, EachList;
    NothingRanked([]);
    NothingRanked([StreamTable]);
    match a {
      case Post(loop) => BrieflyRanked([], Tasks(loop));
      case SwapTasks(loop) => BrieflyRanked([], Tasks(loop));
      case AddSink(path, found) => InTableRanked([], path, found);
      case RemoveSink(path, found) => InTableRanked([], path, found);
      case LookUp => BrieflyRanked([], StreamTable);
      case Survey(paths) =>
        EachListRanked(paths);
        UnderTableRanked(EachList(paths));
      case AddStream(loop, posts, conn, first) =>
        BrieflyRanked([StreamTable], Tasks(loop));
        SendRanked([StreamTable], SourceOutput(conn), loop, first, []);
        UnderTableRanked(if posts then Briefly(Tasks(loop)) else SendOps(SourceOutput(conn), loop, first, []));
      case RemoveStream(loop, teardown, conn, last) =>
        SendRanked([StreamTable], SourceOutput(conn), loop, last, []);
        UnderTableRanked(if teardown then SendOps(SourceOutput(conn), loop, last, []) else []);
      case FanOut(path, found, deliveries) => FanOutRanked(path, found, deliveries);
      case Respond(conn, loop, result, path, playing) =>
        ClosingRanked([], path, playing);
        SendRanked([], SinkOutput(conn), loop, result, Closing(path, playing));
      case WriteSink(conn, broke, path, playing) => WriteSinkRanked(conn, broke, path, playing);
      case SendUpstream(conn, loop, result) => SendRanked([], SourceOutput(conn), loop, result, []);
      case WriteSource(conn) =>
        BrieflyRanked([], SourceOutput(conn));
        Chain([], Briefly(SourceOutput(conn)), [], Briefly(SourceOutput(conn)), []);
    }
  }

  /** A part of a ranked trace, from what is held by then. */
  lemma {:induction false} RankedPart(held: seq<Lock>, a: seq<Op>, b: seq<Op>, end: seq<Lock>)
    requires Ranked(held, a + b, end)
    ensures Ranked(held, a, HeldAfter(held, a)) && Ranked(HeldAfter(held, a), b, end)
    decreases a
  {
    if a == [] {
      assert a + b == b;
    } else {
      assert (a + b)[1..] == a[1..] + b && (a + b)[0] == a[0];
      match a[0] {
        case Take(l) => RankedPart(held + [l], a[1..], b, end);
        case Drop(l) =>
          assert WithoutLast(held, l) == held[..|held| - 1];
          RankedPart(held[..|held| - 1], a[1..], b, end);
      }
    }
  }

  lemma OutputUnderList(path: Bytes, conn: nat, rest: seq<Op>, end: seq<Lock>)
    ensures !Ranked([SinkList(path)], [Take(SinkOutput(conn))] + rest, end)
  {
    assert SinkList(path) in [SinkList(path)] && Rank(SinkOutput(conn)) < Rank(SinkList(path));
  }

  /** Looking at an output buffer of the own loop under the list of sinks breaks the order. */
  lemma {:induction false} DeliveriesUnranked(path: Bytes, ds: seq<Delivery>, rest: seq<Op>, end: seq<Lock>)
    requires exists d :: d in ds && d.Own?
    ensures !Ranked([SinkList(path)], DeliveriesOps(path, ds) + rest, end)
    decreases ds
  {
    hide Ranked;
    var held, later := [SinkList(path)], DeliveriesOps(path, ds[1..]) + rest;
    assert DeliveriesOps(path, ds) + rest == DeliveryOps(path, ds[0]) + later;
    match ds[0] {
      case Own(conn, loop, header, payload) =>
        var ops := DeliveryOps(path, ds[0]) + later;
        assert ops[0] == Take(SinkOutput(conn));
        OutputUnderList(path, conn, ops[1..], end);
        assert ops == [Take(SinkOutput(conn))] + ops[1..];
      case Foreign(loop) =>
        DeliveriesUnranked(path, ds[1..], rest, end);
        ThroughBriefly(held, Tasks(loop));
        ThroughBoth(held, Briefly(Tasks(loop)), Briefly(Tasks(loop)));
        if Ranked(held, DeliveryOps(path, ds[0]) + later, end) { RankedPart(held, DeliveryOps(path, ds[0]), later, end); }
    }
  }

  lemma OwnUnranked(path: Bytes, ds: seq<Delivery>)
    requires exists d :: d in ds && d.Own?
    ensures !Ranked([], Trace(FanOut(path, true, ds)), [])
  {
    hide Ranked, DeliveriesOps, HeldAfter;
    var inside := DeliveriesOps(path, ds) + [Drop(SinkList(path))];
    var ops := Trace(FanOut(path, true, ds));
    assert ops == (Briefly(StreamTable) + [Take(SinkList(path))]) + inside;
    ThroughBriefly([], StreamTable);
    ThroughBoth([], Briefly(StreamTable), [Take(SinkList(path))]);
    TakenAlone(SinkList(path));
    DeliveriesUnranked(path, ds, [Drop(SinkList(path))], []);
    if Ranked([], ops, []) { RankedPart([], Briefly(StreamTable) + [Take(SinkList(path))], inside, []); }
  }

  lemma TakenAlone(l: Lock)
    ensures HeldAfter([], [Take(l)]) == [l]
  {
    assert [Take(l)][1..] == [] && [] + [l] == [l];
  }

  /** Every activity takes its locks in rank order and gives them back in reverse, exactly when it is
      not a fan-out to a connection of the source's own loop. */
  lemma TraceRankedExactly(a: Activity)
    ensures Ranked([], Trace(a), []) <==> Apart(a)
  {
    hide Ranked, Trace;
    if Apart(a) {
      TraceRanked(a);
    } else {
      OwnUnranked(a.path, a.deliveries);
    }
  }

  lemma {:induction false} ProgramRanked(acts: seq<Activity>)
    requires forall a :: a in acts ==> Apart(a)
    ensures Ranked([], Program(acts), [])
  {
    hide Trace, Apart;
    if acts != [] {
      TraceRanked(acts[0]);
      ProgramRanked(acts[1..]);
      Chain([], Trace(acts[0]), [], Program(acts[1..]), []);
    }
  }

  // ---------- all threads together ----------

  datatype Thread = Thread(held: seq<Lock>, todo: seq<Op>)

  /** A mutex is taken only when nobody holds it, not even the thread itself. */
  predicate CanStep(sys: seq<Thread>, i: nat) {
    && i < |sys| && sys[i].todo != []
    && match sys[i].todo[0]
       case Take(l) => forall j :: 0 <= j < |sys| ==> l !in sys[j].held
       case Drop(_) => true
  }

  function WithoutLast(held: seq<Lock>, l: Lock): seq<Lock> {
    if held == [] then [] else if held[|held| - 1] == l then held[..|held| - 1]
    else WithoutLast(held[..|held| - 1], l) + [held[|held| - 1]]
  }

  function Step(sys: seq<Thread>, i: nat): seq<Thread>
    requires CanStep(sys, i)
  {
    var t := sys[i];
    sys[i := Thread(match t.todo[0]
                    case Take(l) => t.held + [l]
                    case Drop(l) => WithoutLast(t.held, l), t.todo[1..])]
  }

  predicate Possible(sys: seq<Thread>, schedule: seq<nat>)
    decreases schedule
  {
    schedule == [] || (CanStep(sys, schedule[0]) && Possible(Step(sys, schedule[0]), schedule[1..]))
  }

  function Run(sys: seq<Thread>, schedule: seq<nat>): seq<Thread>
    requires Possible(sys, schedule)
    decreases schedule
  {
    if schedule == [] then sys else Run(Step(sys, schedule[0]), schedule[1..])
  }

  /** Every thread goes on in rank order, and no lock is held by two. */
  predicate Inv(sys: seq<Thread>) {
    && (forall i :: 0 <= i < |sys| ==> Ranked(sys[i].held, sys[i].todo, []))
    && forall i, j :: 0 <= i < j < |sys| ==> forall l :: l in sys[i].held ==> l !in sys[j].held
  }

  lemma StepKeepsInv(sys: seq<Thread>, i: nat)
    requires Inv(sys) && CanStep(sys, i)
    ensures Inv(Step(sys, i)) && |Step(sys, i)| == |sys|
  {
    var t, sys' := sys[i], Step(sys, i);
    assert forall l :: l in sys'[i].held ==> l in t.held || Take(l) == t.todo[0];
  }

  /** Whoever has not finished either can step, or waits for a lock whose holder waits for a lock of
      higher rank; ranks end, so somebody can step. */
  lemma SomebodySteps(sys: seq<Thread>, i: nat) returns (k: nat)
    requires Inv(sys) && i < |sys| && sys[i].todo != []
    ensures CanStep(sys, k)
    decreases if sys[i].todo[0].Take? then 4 - Rank(sys[i].todo[0].lock) else 5
  {
    if CanStep(sys, i) { return i; }
    var l := sys[i].todo[0].lock;
    var j :| 0 <= j < |sys| && l in sys[j].held;
    assert Ranked(sys[j].held, sys[j].todo, []);
    if sys[j].todo[0].Drop? { return j; }
    k := SomebodySteps(sys, j);
  }

  lemma {:induction false} RunKeepsInv(sys: seq<Thread>, schedule: seq<nat>)
    requires Inv(sys) && Possible(sys, schedule)
    ensures Inv(Run(sys, schedule)) && |Run(sys, schedule)| == |sys|
    decreases schedule
  {
    hide Inv, CanStep, Step;
    if schedule != [] {
      StepKeepsInv(sys, schedule[0]);
      RunKeepsInv(Step(sys, schedule[0]), schedule[1..]);
    }
  }

  function Started(programs: seq<seq<Activity>>): seq<Thread> {
    seq(|programs|, i requires 0 <= i < |programs| => Thread([], Program(programs[i])))
  }

  /** Any number of threads, any activities with players on loops of their own, any schedule: while a
      thread has work left, some thread can go on. */
  lemma NoDeadlock(programs: seq<seq<Activity>>, schedule: seq<nat>, i: nat) returns (k: nat)
    requires forall p, a :: p in programs && a in p ==> Apart(a)
    requires Possible(Started(programs), schedule)
    requires i < |programs|
    ensures i < |Run(Started(programs), schedule)|
    ensures Run(Started(programs), schedule)[i].todo != [] ==> CanStep(Run(Started(programs), schedule), k)
  {
    var sys := Started(programs);
    forall j | 0 <= j < |sys| ensures Ranked(sys[j].held, sys[j].todo, []) {
      assert programs[j] in programs;
      ProgramRanked(programs[j]);
    }
    RunKeepsInv(sys, schedule);
    k := 0;
    if Run(sys, schedule)[i].todo != [] { k := SomebodySteps(Run(sys, schedule), i); }
  }

  // ---------- a player on the source's own loop ----------

  /** A thread by itself gets through unless it takes a lock it holds. */
  predicate GetsThrough(held: seq<Lock>, ops: seq<Op>)
    decreases ops
  {
    if ops == [] then true else
    match ops[0]
    case Take(l) => l !in held && GetsThrough(held + [l], ops[1..])
    case Drop(l) => GetsThrough(WithoutLast(held, l), ops[1..])
  }

  function HeldAfter(held: seq<Lock>, ops: seq<Op>): seq<Lock>
    decreases ops
  {
    if ops == [] then held else
    match ops[0]
    case Take(l) => HeldAfter(held + [l], ops[1..])
    case Drop(l) => HeldAfter(WithoutLast(held, l), ops[1..])
  }

  lemma {:induction false} ThroughBoth(held: seq<Lock>, a: seq<Op>, b: seq<Op>)
    ensures GetsThrough(held, a + b) <==> GetsThrough(held, a) && GetsThrough(HeldAfter(held, a), b)
    ensures HeldAfter(held, a + b) == HeldAfter(HeldAfter(held, a), b)
    decreases a
  {
    if a == [] {
      assert a + b == b;
    } else {
      assert (a + b)[1..] == a[1..] + b;
      ThroughBoth(if a[0].Take? then held + [a[0].lock] else WithoutLast(held, a[0].lock), a[1..], b);
    }
  }

  lemma ThroughBriefly(held: seq<Lock>, l: Lock)
    ensures GetsThrough(held, Briefly(l)) <==> l !in held
    ensures HeldAfter(held, Briefly(l)) == held
  {
    var ops := Briefly(l);
    assert ops[1..] == [Drop(l)] && [Drop(l)][1..] == [];
    assert WithoutLast(held + [l], l) == held by { assert (held + [l])[..|held|] == held; }
    assert HeldAfter(held + [l], [Drop(l)]) == HeldAfter(held, []) == held;
    assert GetsThrough(held + [l], [Drop(l)]) == GetsThrough(held, []);
  }

  /** Whoever holds the list of sinks cannot leave that stream. */
  lemma LeavingBlocks(path: Bytes)
    ensures !GetsThrough([SinkList(path)], InTable(path, true))
  {
    var held := [SinkList(path)];
    ThroughBoth(held, [Take(StreamTable)], Briefly(SinkList(path)) + [Drop(StreamTable)]);
    ThroughBoth(HeldAfter(held, [Take(StreamTable)]), Briefly(SinkList(path)), [Drop(StreamTable)]);
    assert [Take(StreamTable)][1..] == [];
    ThroughBriefly(held + [StreamTable], SinkList(path));
    assert InTable(path, true) == [Take(StreamTable)] + (Briefly(SinkList(path)) + [Drop(StreamTable)]);
  }

  lemma SendThrough(path: Bytes, conn: nat, loop: nat, result: Result)
    ensures var held := [SinkList(path)];
            var ops := SendOps(SinkOutput(conn), loop, result, InTable(path, true));
            && (GetsThrough(held, ops) <==> result != Broke)
            && (result != Broke ==> HeldAfter(held, ops) == held)
  {
    hide GetsThrough, HeldAfter, InTable;
    var held, out := [SinkList(path)], SinkOutput(conn);
    ThroughBriefly(held, out);
    match result {
      case Written => assert Briefly(out) + [] == Briefly(out);
      case Queued =>
        ThroughBriefly(held, Tasks(loop));
        ThroughBoth(held, Briefly(out), Briefly(Tasks(loop)));
        ThroughBoth(held, Briefly(out), Briefly(out) + Briefly(Tasks(loop)));
      case Broke =>
        LeavingBlocks(path);
        ThroughBoth(held, Briefly(out), InTable(path, true));
    }
  }

  predicate Breaks(d: Delivery) {
    d.Own? && (d.header == Broke || d.payload == Broke)
  }

  lemma DeliveryThrough(path: Bytes, d: Delivery)
    ensures GetsThrough([SinkList(path)], DeliveryOps(path, d)) <==> !Breaks(d)
    ensures !Breaks(d) ==> HeldAfter([SinkList(path)], DeliveryOps(path, d)) == [SinkList(path)]
  {
    hide GetsThrough, HeldAfter, InTable, SendOps;
    var held := [SinkList(path)];
    match d {
      case Foreign(loop) =>
        ThroughBriefly(held, Tasks(loop));
        ThroughBoth(held, Briefly(Tasks(loop)), Briefly(Tasks(loop)));
      case Own(conn, loop, header, payload) =>
        SendThrough(path, conn, loop, header);
        SendThrough(path, conn, loop, payload);
        var first := SendOps(SinkOutput(conn), loop, header, InTable(path, true));
        if header == Broke {
          assert DeliveryOps(path, d) == first;
        } else {
          ThroughBoth(held, first, SendOps(SinkOutput(conn), loop, payload, InTable(path, true)));
        }
    }
  }

  lemma {:induction false} DeliveriesThrough(path: Bytes, ds: seq<Delivery>)
    ensures GetsThrough([SinkList(path)], DeliveriesOps(path, ds)) <==> forall d :: d in ds ==> !Breaks(d)
    ensures (forall d :: d in ds ==> !Breaks(d)) ==> HeldAfter([SinkList(path)], DeliveriesOps(path, ds)) == [SinkList(path)]
  {
    hide DeliveryOps, Breaks;
    if ds != [] {
      DeliveryThrough(path, ds[0]);
      DeliveriesThrough(path, ds[1..]);
      ThroughBoth([SinkList(path)], DeliveryOps(path, ds[0]), DeliveriesOps(path, ds[1..]));
      assert forall d :: d in ds <==> d == ds[0] || d in ds[1..];
    }
  }

  /** A fan-out that meets a broken connection of its own loop deadlocks with itself: the error
      callback leaves the stream while the list of sinks is locked. It gets through exactly when no
      connection of its own loop breaks, so with players on loops of their own it always does. */
  lemma FanOutAlone(path: Bytes, ds: seq<Delivery>)
    ensures GetsThrough([], Trace(FanOut(path, true, ds))) <==> forall d :: d in ds ==> !Breaks(d)
  {
    hide GetsThrough, HeldAfter, DeliveriesOps, Breaks;
    var list := SinkList(path);
    var inside := DeliveriesOps(path, ds) + [Drop(list)];
    ThroughBriefly([], StreamTable);
    assert [Take(list)] + DeliveriesOps(path, ds) + [Drop(list)] == [Take(list)] + inside;
    ThroughBoth([], Briefly(StreamTable), [Take(list)] + inside);
    TakesList(list, inside);
    DeliveriesThrough(path, ds);
    ThroughBoth([list], DeliveriesOps(path, ds), [Drop(list)]);
    LetsGo(list);
  }

  lemma TakesList(l: Lock, ops: seq<Op>)
    ensures GetsThrough([], [Take(l)] + ops) <==> GetsThrough([l], ops)
  {
    assert ([Take(l)] + ops)[1..] == ops && [] + [l] == [l];
  }

  lemma LetsGo(l: Lock)
    ensures GetsThrough([l], [Drop(l)])
  {
    assert [Drop(l)][1..] == [];
  }

  /** The same packets for the same connections, whatever their sends come to. */
  predicate SameSites(ds: seq<Delivery>, es: seq<Delivery>) {
    && |ds| == |es|
    && forall i :: 0 <= i < |ds| ==>
         if ds[i].Foreign? then es[i] == ds[i] else es[i].Own? && es[i].conn == ds[i].conn && es[i].loop == ds[i].loop
  }

  /** What can be arranged beforehand: a fan-out gets through for every outcome of its sends exactly when
      every player is served by a loop other than the source's. */
  lemma AlwaysGetsThrough(path: Bytes, ds: seq<Delivery>)
    ensures (forall es :: SameSites(ds, es) ==> GetsThrough([], Trace(FanOut(path, true, es))))
       <==> forall d :: d in ds ==> d.Foreign?
  {
    hide GetsThrough, Trace;
    if forall d :: d in ds ==> d.Foreign? {
      forall es | SameSites(ds, es) ensures GetsThrough([], Trace(FanOut(path, true, es))) {
        forall d | d in es ensures !Breaks(d) {
          var i :| 0 <= i < |es| && es[i] == d;
          assert ds[i] in ds;
        }
        FanOutAlone(path, es);
      }
    } else {
      var i :| 0 <= i < |ds| && ds[i].Own?;
      var es := ds[i := Own(ds[i].conn, ds[i].loop, Broke, Written)];
      assert SameSites(ds, es);
      assert es[i] in es && Breaks(es[i]);
      FanOutAlone(path, es);
    }
  }
}
