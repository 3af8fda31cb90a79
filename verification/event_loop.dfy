/** The event loop object: its posted tasks and its list of timers. */
module Loop {
  import TaskQueue
  import Timers

  datatype Entry = Entry(id: nat, timer: Timers.Timer)

  /** What a callback does to the loop's timers, `ms` after the clock was last read. */
  datatype Command = AddCommand(ms: nat, delay: int, repeat: bool) | CancelCommand(id: nat)

  function Select(ts: seq<Entry>, p: Entry -> bool): seq<Entry>
    decreases ts
  {
    if ts == [] then [] else (if p(ts[0]) then [ts[0]] else []) + Select(ts[1..], p)
  }

  ghost predicate Distinct(ts: seq<Entry>) { forall i, j :: 0 <= i < j < |ts| ==> ts[i].id != ts[j].id }

  /** The list `ts` holds the timers of `m`, each once, in some order. */
  ghost predicate Lists(ts: seq<Entry>, m: map<nat, Timers.Timer>) {
    && Distinct(ts)
    && (forall t :: t in ts ==> t.id in m && m[t.id] == t.timer)
    && forall id :: id in m ==> Entry(id, m[id]) in ts
  }

  lemma {:induction false} SelectIsFilter(ts: seq<Entry>, p: Entry -> bool)
    requires Distinct(ts)
    ensures Distinct(Select(ts, p)) && forall t :: t in Select(ts, p) <==> t in ts && p(t)
    decreases ts
  {
    if ts != [] {
      SelectIsFilter(ts[1..], p);
      var later := Select(ts[1..], p);
      assert forall t :: t in ts <==> t == ts[0] || t in ts[1..];
      forall t | t in later ensures t.id != ts[0].id { assert t in ts[1..]; }
    }
  }

  lemma ListsSelected(ts: seq<Entry>, m: map<nat, Timers.Timer>, p: Entry -> bool, part: map<nat, Timers.Timer>)
    requires Lists(ts, m)
    requires forall id :: id in part <==> id in m && p(Entry(id, m[id]))
    requires forall id :: id in part ==> part[id] == m[id]
    ensures Lists(Select(ts, p), part)
  {
    SelectIsFilter(ts, p);
  }

  lemma ListsAppended(ts: seq<Entry>, m: map<nat, Timers.Timer>, id: nat, t: Timers.Timer)
    requires Lists(ts, m) && id !in m
    ensures Lists(ts + [Entry(id, t)], m[id := t])
  {
    forall i, j | 0 <= i < j < |ts| + 1 ensures (ts + [Entry(id, t)])[i].id != (ts + [Entry(id, t)])[j].id {
      assert ts[i] in ts;
    }
  }

  lemma ListsTail(ts: seq<Entry>, m: map<nat, Timers.Timer>)
    requires Lists(ts, m) && ts != []
    ensures ts[0].id in m && m[ts[0].id] == ts[0].timer
    ensures Lists(ts[1..], m - {ts[0].id})
  {
    var rest := m - {ts[0].id};
    assert ts[0] in ts;
    forall t | t in ts[1..] ensures t.id in rest && rest[t.id] == t.timer { assert t in ts; }
    forall id | id in rest ensures Entry(id, rest[id]) in ts[1..] { assert Entry(id, m[id]) in ts; }
  }

  lemma {:induction false} OneMoreStep(s: Timers.State, steps: seq<Timers.Step>, step: Timers.Step)
    requires Timers.Possible(s, steps) && Timers.Enabled(Timers.Run(s, steps), step)
    ensures Timers.Possible(s, steps + [step])
    ensures Timers.Run(s, steps + [step]) == Timers.Next(Timers.Run(s, steps), step)
    decreases steps
  {
    hide Timers.Next, Timers.Enabled;
    if steps == [] {
      assert steps + [step] == [step] && [step][1..] == [];
    } else {
      OneMoreStep(Timers.Next(s, steps[0]), steps[1..], step);
      assert (steps + [step])[1..] == steps[1..] + [step];
    }
  }

  function Concat<T>(ss: seq<seq<T>>): seq<T> {
    if ss == [] then [] else Concat(ss[..|ss| - 1]) + ss[|ss| - 1]
  }

  class EventLoop<T> {
    var pendingTasks: seq<T>
    var executed: seq<T>
    ghost var posted: seq<T>
    var timers: seq<Entry>
    var nextTimerId: nat
    /** The timers with their history, in the terms of every run. */
    ghost var state: Timers.State

    constructor (ghost now: int)
      ensures Valid() && state == Timers.Initial(now)
      ensures Queue() == TaskQueue.Queue([], [], [], [])
    {
      pendingTasks, executed, posted := [], [], [];
      timers, nextTimerId := [], 1;
      state := Timers.Initial(now);
    }

    ghost function Queue(): TaskQueue.Queue<T>
      reads this
    {
      TaskQueue.Queue(pendingTasks, [], posted, executed)
    }

    /** Between the steps of a round or outside of one. */
    ghost predicate TimersValid()
      reads this
    {
      && Timers.Inv(state)
      && nextTimerId == state.wheel.nextId
      && Lists(timers, state.wheel.active)
    }

    ghost predicate Valid()
      reads this
    {
      TimersValid() && !Timers.InRound(state)
    }

    method RunInLoop(task: T)
      modifies this`pendingTasks, this`posted
      ensures Queue() == TaskQueue.Next(old(Queue()), TaskQueue.Post(task))
    {
      pendingTasks := pendingTasks + [task];
      posted := posted + [task];
    }

    /** Runs what was pending at the swap. `posts[i]` is what arrives while task `i` runs, from that
        task or from other threads; it waits for the next call. */
    method ProcessTasks(posts: seq<seq<T>>)
      requires TaskQueue.Conserved(Queue()) && |posts| == |pendingTasks|
      modifies this`pendingTasks, this`executed, this`posted
      ensures TaskQueue.Conserved(Queue())
      ensures executed == old(executed) + old(pendingTasks)
      ensures pendingTasks == Concat(posts) && posted == old(posted) + Concat(posts)
    {
      var tasks := pendingTasks;
      pendingTasks := [];
      var i := 0;
      while i < |tasks|
        invariant 0 <= i <= |tasks|
        invariant executed == old(executed) + tasks[..i]
        invariant pendingTasks == Concat(posts[..i]) && posted == old(posted) + pendingTasks
      {
        executed := executed + [tasks[i]];
        pendingTasks := pendingTasks + posts[i];
        posted := posted + posts[i];
        assert posts[..i + 1][..i] == posts[..i];
        i := i + 1;
      }
      assert posts[..i] == posts && tasks[..i] == tasks;
    }

    /** `now` is the clock, read `ms` after the last reading. */
    method AddTimer(now: int, ghost ms: nat, delay: int, repeat: bool) returns (id: nat)
      requires TimersValid() && now == state.wheel.now + ms
      modifies this`timers, this`nextTimerId, this`state
      ensures TimersValid()
      ensures id == old(nextTimerId) && id !in old(state.book)
      ensures state == Timers.AddTimer(Timers.Next(old(state), Timers.Tick(ms)), delay, repeat)
    {
      hide Timers.Inv, Lists;
      IdIsNew();
      id := nextTimerId;
      nextTimerId := nextTimerId + 1;
      var t := Timers.Timer(now + delay, if repeat then delay else 0);
      ListsAppended(timers, state.wheel.active, id, t);
      timers := timers + [Entry(id, t)];
      ghost var ticked := Timers.Next(state, Timers.Tick(ms));
      Timers.StepKeepsInv(state, Timers.Tick(ms));
      Timers.AddKeepsInv(ticked, delay, repeat);
      state := Timers.AddTimer(ticked, delay, repeat);
    }

    lemma IdIsNew()
      requires TimersValid()
      ensures nextTimerId !in state.book && nextTimerId !in state.wheel.active
    {
    }

    method CancelTimer(id: nat)
      requires TimersValid()
      modifies this`timers, this`state
      ensures TimersValid() && state == Timers.CancelTimer(old(state), id)
    {
      hide Timers.Inv, Lists;
      ghost var after := Timers.CancelTimer(state, id);
      ListsSelected(timers, state.wheel.active, (t: Entry) => t.id != id, after.wheel.active);
      timers := Select(timers, (t: Entry) => t.id != id);
      Timers.CancelKeepsInv(state, id);
      state := after;
    }

    /** Takes the expired timers out of the list. */
    method TakeExpired(now: int, ghost ms: nat) returns (expired: seq<Entry>)
      requires Valid() && now == state.wheel.now + ms
      modifies this`timers, this`state
      ensures TimersValid() && Lists(expired, state.wheel.due)
      ensures state == Timers.BeginRound(Timers.Next(old(state), Timers.Tick(ms)))
    {
      hide Timers.Inv, Lists;
      ghost var ticked := Timers.Next(state, Timers.Tick(ms));
      Timers.StepKeepsInv(state, Timers.Tick(ms));
      Timers.BeginKeepsInv(ticked);
      state := Timers.BeginRound(ticked);
      ListsSelected(timers, ticked.wheel.active, (t: Entry) => t.timer.expire <= now, state.wheel.due);
      ListsSelected(timers, ticked.wheel.active, (t: Entry) => t.timer.expire > now, state.wheel.active);
      expired := Select(timers, (t: Entry) => t.timer.expire <= now);
      timers := Select(timers, (t: Entry) => t.timer.expire > now);
    }

    /** The body of one callback, as far as it touches timers. `clock` is the last reading. */
    method RunCallback(clock: int, commands: seq<Command>) returns (after: int, ghost steps: seq<Timers.Step>)
      requires TimersValid() && clock == state.wheel.now
      modifies this`timers, this`nextTimerId, this`state
      ensures TimersValid() && after == state.wheel.now
      ensures Timers.Possible(old(state), steps) && state == Timers.Run(old(state), steps)
      ensures state.rounds == old(state.rounds) && state.wheel.due == old(state.wheel.due)
      ensures state.wheel.running == old(state.wheel.running)
    {
      hide Timers.Inv, Lists, Timers.Possible, Timers.Run;
      after, steps := clock, [];
      Timers.NoStep(state);
      var i := 0;
      while i < |commands|
        invariant 0 <= i <= |commands| && TimersValid() && after == state.wheel.now
        invariant Timers.Possible(old(state), steps) && state == Timers.Run(old(state), steps)
        invariant state.rounds == old(state.rounds) && state.wheel.due == old(state.wheel.due)
        invariant state.wheel.running == old(state.wheel.running)
      {
        match commands[i] {
          case AddCommand(ms, delay, repeat) =>
            OneMoreStep(old(state), steps, Timers.Tick(ms));
            steps := steps + [Timers.Tick(ms)];
            OneMoreStep(old(state), steps, Timers.Add(delay, repeat));
            steps := steps + [Timers.Add(delay, repeat)];
            var _ := AddTimer(after + ms, ms, delay, repeat);
            after := after + ms;
          case CancelCommand(id) =>
            OneMoreStep(old(state), steps, Timers.Cancel(id));
            steps := steps + [Timers.Cancel(id)];
            CancelTimer(id);
        }
        i := i + 1;
      }
    }

    /** A periodic timer whose callback is over goes back into the list. */
    method Requeue(t: Entry, now: int)
      requires TimersValid() && state.wheel.running == Timers.Callback(t.id, t.timer)
      requires state.rounds != [] && now == state.rounds[|state.rounds| - 1]
      modifies this`timers, this`state
      ensures TimersValid() && state == Timers.ReturnFrom(old(state))
    {
      hide Timers.Inv, Lists, Timers.ReturnFrom, Timers.Runs;
      assert Timers.Runs(state.wheel, t.id) by { RunsNow(t); }
      NotListed(t);
      Returned(state);
      if t.timer.interval > 0 {
        var again := t.timer.(expire := now + t.timer.interval);
        ListsAppended(timers, state.wheel.active, t.id, again);
        timers := timers + [Entry(t.id, again)];
      }
      Timers.ReturnKeepsInv(state);
      state := Timers.ReturnFrom(state);
    }

    lemma RunsNow(t: Entry)
      requires state.wheel.running == Timers.Callback(t.id, t.timer)
      ensures Timers.Runs(state.wheel, t.id)
    {
    }

    lemma NotListed(t: Entry)
      requires TimersValid() && Timers.Runs(state.wheel, t.id)
      ensures t.id !in state.wheel.active
    {
      assert Timers.Good(state, t.id);
    }

    /** One round, whatever its callbacks add and cancel: a run of the machine of `Timers` that begins
        a round, fires every expired timer, and ends outside of any round. */
    method ProcessTimers(now: int, ghost ms: nat, script: nat -> seq<Command>) returns (ghost steps: seq<Timers.Step>)
      requires Valid() && now == state.wheel.now + ms
      modifies this`timers, this`nextTimerId, this`state
      ensures Valid()
      ensures Timers.Possible(old(state), steps) && state == Timers.Run(old(state), steps)
      ensures state.rounds == old(state.rounds) + [now]
    {
      hide Timers.Inv, Lists, Timers.Possible, Timers.Run, Timers.FireTimer, Timers.ReturnFrom, Timers.BeginRound;
      steps := TwoSteps(state, ms);
      var expired := TakeExpired(now, ms);
      RoundBegun(Timers.Next(old(state), Timers.Tick(ms)));
      var clock := now;
      var i := 0;
      while i < |expired|
        invariant 0 <= i <= |expired| && TimersValid() && clock == state.wheel.now
        invariant Timers.Possible(old(state), steps) && state == Timers.Run(old(state), steps)
        invariant state.rounds == old(state.rounds) + [now]
        invariant state.wheel.running.Nobody? && Lists(expired[i..], state.wheel.due)
      {
        var t := expired[i];
        ListsTail(expired[i..], state.wheel.due);
        assert expired[i..][1..] == expired[i + 1..];
        OneMoreStep(old(state), steps, Timers.Fire(t.id));
        steps := steps + [Timers.Fire(t.id)];
        Timers.FireKeepsInv(state, t.id);
        Fired(state, t.id);
        state := Timers.FireTimer(state, t.id);
        ghost var more;
        ghost var before := state;
        clock, more := RunCallback(clock, script(t.id));
        Timers.Joined(old(state), steps, more);
        steps := steps + more;
        OneMoreStep(old(state), steps, Timers.Return);
        steps := steps + [Timers.Return];
        Returned(state);
        Requeue(t, now);
        i := i + 1;
      }
      NothingDue(expired[i..], state.wheel.due);
    }

    /** How long the loop may sleep: never past the nearest expiry, nor longer than a second. */
    method CalcTimeout(now: int) returns (ms: int)
      ensures timers == [] ==> ms == 100
      ensures timers != [] ==> 0 <= ms <= 1000
      ensures forall t :: t in timers ==> ms == 0 || now + ms <= t.timer.expire
      ensures timers != [] ==>
        ms == 1000 || exists t :: t in timers && (now + ms == t.timer.expire || (ms == 0 && t.timer.expire <= now))
    {
      if timers == [] { return 100; }
      var nearest := timers[0].timer.expire;
      var i := 0;
      ghost var best := timers[0];
      while i < |timers|
        invariant 0 <= i <= |timers|
        invariant forall k :: 0 <= k < i ==> nearest <= timers[k].timer.expire
        invariant best in timers && best.timer.expire == nearest
      {
        if timers[i].timer.expire < nearest {
          nearest := timers[i].timer.expire;
          best := timers[i];
        }
        i := i + 1;
      }
      var diff := nearest - now;
      if diff <= 0 { return 0; }
      return if diff > 1000 then 1000 else diff;
    }
  }

  lemma TwoSteps(s: Timers.State, ms: nat) returns (steps: seq<Timers.Step>)
    requires !Timers.InRound(s)
    ensures steps == [Timers.Tick(ms), Timers.Begin] && Timers.Possible(s, steps)
    ensures Timers.Run(s, steps) == Timers.BeginRound(Timers.Next(s, Timers.Tick(ms)))
  {
    hide Timers.BeginRound;
    steps := [Timers.Tick(ms), Timers.Begin];
    assert steps[1..] == [Timers.Begin] && [Timers.Begin][1..] == [];
  }

  lemma RoundBegun(s: Timers.State)
    ensures Timers.BeginRound(s).rounds == s.rounds + [s.wheel.now]
    ensures Timers.BeginRound(s).wheel.running == s.wheel.running && Timers.BeginRound(s).wheel.now == s.wheel.now
  {
  }

  lemma Fired(s: Timers.State, id: nat)
    requires id in s.wheel.due && s.rounds != []
    ensures Timers.FireTimer(s, id).rounds == s.rounds
    ensures Timers.FireTimer(s, id).wheel
         == s.wheel.(due := s.wheel.due - {id}, running := Timers.Callback(id, s.wheel.due[id]))
  {
  }

  lemma Returned(s: Timers.State)
    requires s.wheel.running.Callback? && s.rounds != []
    ensures Timers.ReturnFrom(s).rounds == s.rounds && Timers.ReturnFrom(s).wheel.due == s.wheel.due
    ensures Timers.ReturnFrom(s).wheel.running.Nobody? && Timers.ReturnFrom(s).wheel.now == s.wheel.now
    ensures Timers.ReturnFrom(s).wheel.nextId == s.wheel.nextId
    ensures var Callback(id, t) := s.wheel.running;
            Timers.ReturnFrom(s).wheel.active ==
              if t.interval <= 0 then s.wheel.active
              else s.wheel.active[id := t.(expire := s.rounds[|s.rounds| - 1] + t.interval)]
  {
  }

  lemma NothingDue(ts: seq<Entry>, m: map<nat, Timers.Timer>)
    requires Lists(ts, m) && ts == []
    ensures m == map[]
  {
  }
}
