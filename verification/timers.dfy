/** The timers of an event loop over every run: callbacks that add and cancel timers, a clock that
    only moves on, and rounds of `processTimers`. */
module Timers {
  datatype Timer = Timer(expire: int, interval: int)

  /** The callback being run, and whose it is. */
  datatype Running = Nobody | Callback(id: nat, timer: Timer)

  /** `active` is the loop's list of timers. During a round, `due` holds the expired ones that still
      have to run and `running` the one whose callback runs. */
  datatype Wheel = Wheel(
    now: int, nextId: nat, active: map<nat, Timer>, due: map<nat, Timer>, running: Running)

  /** A callback ran, at `at`, in the round of that number. */
  datatype Firing = Firing(at: int, round: nat)

  datatype Fate = Live | Cancelled | Finished

  /** The history of one timer: when and how it was added, how many rounds had begun by then, when it
      ran, and what became of it. */
  datatype Record = Record(start: int, delay: int, repeat: bool, born: nat, firings: seq<Firing>, fate: Fate)

  /** `book` is the history by timer, `rounds` the clock readings of the rounds begun so far. */
  datatype State = State(wheel: Wheel, book: map<nat, Record>, rounds: seq<int>)

  function Initial(now: int): State {
    State(Wheel(now, 1, map[], map[], Nobody), map[], [])
  }

  datatype Step = Tick(ms: nat) | Add(delay: int, repeat: bool) | Cancel(id: nat) | Begin | Fire(id: nat) | Return

  predicate InRound(s: State) { s.wheel.due != map[] || s.wheel.running.Callback? }

  /** Rounds do not overlap and callbacks run one at a time, in any order. */
  predicate Enabled(s: State, step: Step) {
    match step
    case Begin => !InRound(s)
    case Fire(id) => id in s.wheel.due && s.wheel.running.Nobody? && s.rounds != []
    case Return => s.wheel.running.Callback? && s.rounds != []
    case _ => true
  }

  function AddTimer(s: State, delay: int, repeat: bool): State {
    var t := Timer(s.wheel.now + delay, if repeat then delay else 0);
    s.(wheel := s.wheel.(nextId := s.wheel.nextId + 1, active := s.wheel.active[s.wheel.nextId := t]),
       book := s.book[s.wheel.nextId := Record(s.wheel.now, delay, repeat, |s.rounds|, [], Live)])
  }

  /** Only a timer that is in the list at the moment can be cancelled. */
  function CancelTimer(s: State, id: nat): State {
    if id !in s.wheel.active then s
    else s.(wheel := s.wheel.(active := s.wheel.active - {id}),
            book := if id in s.book then s.book[id := s.book[id].(fate := Cancelled)] else s.book)
  }

  function Expired(m: map<nat, Timer>, now: int): map<nat, Timer> { map id | id in m && m[id].expire <= now :: m[id] }
  function Waiting(m: map<nat, Timer>, now: int): map<nat, Timer> { map id | id in m && m[id].expire > now :: m[id] }

  function BeginRound(s: State): State {
    s.(wheel := s.wheel.(active := Waiting(s.wheel.active, s.wheel.now), due := Expired(s.wheel.active, s.wheel.now)),
       rounds := s.rounds + [s.wheel.now])
  }

  function FireTimer(s: State, id: nat): State
    requires id in s.wheel.due && s.rounds != []
  {
    s.(wheel := s.wheel.(due := s.wheel.due - {id}, running := Callback(id, s.wheel.due[id])),
       book := if id !in s.book then s.book
               else s.book[id := s.book[id].(firings := s.book[id].firings + [Firing(s.wheel.now, |s.rounds| - 1)])])
  }

  /** The callback is over: a periodic timer goes back into the list, from this round's clock on. */
  function ReturnFrom(s: State): State
    requires s.wheel.running.Callback? && s.rounds != []
  {
    var Callback(id, t) := s.wheel.running;
    var idle := s.wheel.(running := Nobody);
    if t.interval > 0 then
      s.(wheel := idle.(active := idle.active[id := t.(expire := s.rounds[|s.rounds| - 1] + t.interval)]))
    else
      s.(wheel := idle, book := if id in s.book then s.book[id := s.book[id].(fate := Finished)] else s.book)
  }

  function Next(s: State, step: Step): State
    requires Enabled(s, step)
  {
    match step
    case Tick(ms) => s.(wheel := s.wheel.(now := s.wheel.now + ms))
    case Add(delay, repeat) => AddTimer(s, delay, repeat)
    case Cancel(id) => CancelTimer(s, id)
    case Begin => BeginRound(s)
    case Fire(id) => FireTimer(s, id)
    case Return => ReturnFrom(s)
  }

  predicate Possible(s: State, steps: seq<Step>)
    decreases steps
  {
    steps == [] || (Enabled(s, steps[0]) && Possible(Next(s, steps[0]), steps[1..]))
  }

  function Run(s: State, steps: seq<Step>): State
    requires Possible(s, steps)
    decreases steps
  {
    if steps == [] then s else Run(Next(s, steps[0]), steps[1..])
  }

  // ---------- the invariant ----------

  predicate Periodic(r: Record) { r.repeat && r.delay > 0 }

  /** Round `j` is the first one, from round `since` on, at or past `e`. */
  ghost predicate FirstPast(rounds: seq<int>, e: int, since: nat, j: nat) {
    since <= j < |rounds| && e <= rounds[j] && NonePast(rounds, e, since, j)
  }

  ghost predicate NonePast(rounds: seq<int>, e: int, since: nat, j: nat) {
    j <= |rounds| && forall i :: since <= i < j ==> rounds[i] < e
  }

  /** When the firing number `k` (from 0) is due: a delay after the start, then a delay after the
      round of the firing before. */
  function DueAt(r: Record, rounds: seq<int>, k: nat): int {
    if k == 0 || k > |r.firings| || r.firings[k - 1].round >= |rounds| then r.start + r.delay
    else rounds[r.firings[k - 1].round] + r.delay
  }

  /** The first round that looks for it. */
  function LooksFrom(r: Record, k: nat): nat {
    if k == 0 || k > |r.firings| then r.born else r.firings[k - 1].round + 1
  }

  /** Firing `k` happened in the first round at or past its due time. */
  ghost predicate OnTime(r: Record, rounds: seq<int>, k: nat)
    requires k < |r.firings|
  {
    && FirstPast(rounds, DueAt(r, rounds, k), LooksFrom(r, k), r.firings[k].round)
    && rounds[r.firings[k].round] <= r.firings[k].at
  }

  ghost predicate Punctual(r: Record, rounds: seq<int>) {
    forall k :: 0 <= k < |r.firings| ==> OnTime(r, rounds, k)
  }

  /** What a timer's own fields owe to its history, after `fired` firings. */
  ghost predicate Scheduled(t: Timer, r: Record, rounds: seq<int>, fired: nat) {
    && r.fate == Live && t.interval == (if r.repeat then r.delay else 0)
    && t.expire == DueAt(r, rounds, fired)
  }

  predicate Runs(w: Wheel, id: nat) { w.running.Callback? && w.running.id == id }

  ghost predicate Good(s: State, id: nat)
    requires id in s.book
  {
    var r, w, n := s.book[id], s.wheel, |s.rounds|;
    var k := |r.firings|;
    && r.born <= n && Punctual(r, s.rounds)
    && (id in w.active ==>
          && id !in w.due && !Runs(w, id) && Scheduled(w.active[id], r, s.rounds, k)
          && NonePast(s.rounds, w.active[id].expire, LooksFrom(r, k), n))
    && (id in w.due ==>
          && !Runs(w, id) && Scheduled(w.due[id], r, s.rounds, k)
          && n > 0 && FirstPast(s.rounds, w.due[id].expire, LooksFrom(r, k), n - 1))
    && (Runs(w, id) ==> k > 0 && n > 0 && Scheduled(w.running.timer, r, s.rounds, k - 1) && r.firings[k - 1].round == n - 1)
    && (r.fate == Live <==> id in w.active || id in w.due || Runs(w, id))
    && (!Periodic(r) ==> k == if r.fate == Finished || Runs(w, id) then 1 else 0)
    && (r.fate == Finished ==> !Periodic(r))
  }

  /** Ids are handed out once, in order, from 1; the clock never falls behind a round. */
  ghost predicate Inv(s: State) {
    && s.wheel.nextId >= 1
    && (forall id :: id in s.book <==> 1 <= id < s.wheel.nextId)
    && s.wheel.active.Keys <= s.book.Keys && s.wheel.due.Keys <= s.book.Keys
    && (s.wheel.running.Callback? ==> s.wheel.running.id in s.book)
    && (forall j :: 0 <= j < |s.rounds| ==> s.rounds[j] <= s.wheel.now)
    && (InRound(s) ==> s.rounds != [])
    && (forall i, j :: 0 <= i <= j < |s.rounds| ==> s.rounds[i] <= s.rounds[j])
    && forall id :: id in s.book ==> Good(s, id)
  }

  /** A new round does not change when old firings were due, nor that they were on time. */
  lemma MoreRounds(r: Record, rounds: seq<int>, now: int)
    requires Punctual(r, rounds)
    ensures Punctual(r, rounds + [now]) && DueAt(r, rounds + [now], |r.firings|) == DueAt(r, rounds, |r.firings|)
    ensures r.born <= |rounds| ==> LooksFrom(r, |r.firings|) <= |rounds|
  {
    forall k | 0 <= k < |r.firings| ensures OnTime(r, rounds + [now], k) {
      assert OnTime(r, rounds, k);
      if k > 0 { assert OnTime(r, rounds, k - 1); }
    }
    if r.firings != [] { assert OnTime(r, rounds, |r.firings| - 1); }
  }

  lemma OneMoreFiring(r: Record, rounds: seq<int>, f: Firing)
    requires Punctual(r, rounds)
    requires FirstPast(rounds, DueAt(r, rounds, |r.firings|), LooksFrom(r, |r.firings|), f.round) && rounds[f.round] <= f.at
    ensures Punctual(r.(firings := r.firings + [f]), rounds)
    ensures DueAt(r.(firings := r.firings + [f]), rounds, |r.firings|) == DueAt(r, rounds, |r.firings|)
  {
    hide FirstPast;
    var r' := r.(firings := r.firings + [f]);
    forall k | 0 <= k < |r'.firings| ensures OnTime(r', rounds, k) {
      if k < |r.firings| { assert OnTime(r, rounds, k); }
    }
  }

  lemma OtherFate(r: Record, rounds: seq<int>, fate: Fate)
    requires Punctual(r, rounds)
    ensures Punctual(r.(fate := fate), rounds)
  {
    hide FirstPast;
    forall k | 0 <= k < |r.firings| ensures OnTime(r.(fate := fate), rounds, k) { assert OnTime(r, rounds, k); }
  }

  lemma NothingYet(r: Record, rounds: seq<int>)
    requires r.firings == []
    ensures Punctual(r, rounds)
  {
  }

  lemma AddKeepsInv(s: State, delay: int, repeat: bool)
    requires Inv(s)
    ensures Inv(AddTimer(s, delay, repeat))
  {
    hide Punctual, FirstPast;
    var s' := AddTimer(s, delay, repeat);
    var n := s.wheel.nextId;
    assert n !in s.book;
    assert Punctual(s'.book[n], s.rounds) by { NothingYet(s'.book[n], s.rounds); }
    forall id | id in s'.book ensures Good(s', id) { if id != n { assert Good(s, id); } }
  }

  lemma CancelKeepsInv(s: State, id: nat)
    requires Inv(s)
    ensures Inv(CancelTimer(s, id))
  {
    hide Punctual, FirstPast, NonePast;
    var s' := CancelTimer(s, id);
    forall x | x in s'.book ensures Good(s', x) {
      assert Good(s, x);
      OtherFate(s.book[x], s.rounds, Cancelled);
    }
  }

  lemma BeginKeepsInv(s: State)
    requires Inv(s) && !InRound(s)
    ensures Inv(BeginRound(s))
  {
    hide Punctual, DueAt, LooksFrom;
    var s' := BeginRound(s);
    forall id | id in s'.book ensures Good(s', id) {
      assert Good(s, id);
      MoreRounds(s.book[id], s.rounds, s.wheel.now);
    }
  }

  lemma FireKeepsInv(s: State, id: nat)
    requires Inv(s) && Enabled(s, Fire(id))
    ensures Inv(FireTimer(s, id))
  {
    hide Punctual, NonePast, DueAt, LooksFrom;
    var s' := FireTimer(s, id);
    forall x | x in s'.book ensures Good(s', x) {
      assert Good(s, x);
      if x == id {
        assert s.rounds[|s.rounds| - 1] <= s.wheel.now;
        OneMoreFiring(s.book[id], s.rounds, Firing(s.wheel.now, |s.rounds| - 1));
      }
    }
  }

  lemma ReturnKeepsOthers(s: State, x: nat)
    requires Inv(s) && Enabled(s, Return) && x in s.book && x != s.wheel.running.id
    ensures x in ReturnFrom(s).book && Good(ReturnFrom(s), x)
  {
    hide Punctual, FirstPast, NonePast, Scheduled, LooksFrom;
    assert Good(s, x);
  }

  lemma ReturnKeepsOwn(s: State)
    requires Inv(s) && Enabled(s, Return)
    ensures s.wheel.running.id in ReturnFrom(s).book && Good(ReturnFrom(s), s.wheel.running.id)
  {
    hide Punctual, FirstPast;
    var id := s.wheel.running.id;
    assert Good(s, id);
    OtherFate(s.book[id], s.rounds, Finished);
  }

  lemma ReturnKeepsInv(s: State)
    requires Inv(s) && Enabled(s, Return)
    ensures Inv(ReturnFrom(s))
  {
    hide Good;
    var s' := ReturnFrom(s);
    ReturnKeepsOwn(s);
    forall x | x in s'.book ensures Good(s', x) { if x != s.wheel.running.id { ReturnKeepsOthers(s, x); } }
  }

  lemma TickKeepsInv(s: State, ms: nat)
    requires Inv(s)
    ensures Inv(Next(s, Tick(ms)))
  {
    forall id | id in s.book ensures Good(Next(s, Tick(ms)), id) { assert Good(s, id); }
  }

  lemma StepKeepsInv(s: State, step: Step)
    requires Inv(s) && Enabled(s, step)
    ensures Inv(Next(s, step))
  {
    hide Inv, InRound, AddTimer, CancelTimer, BeginRound, FireTimer, ReturnFrom;
    match step {
      case Tick(ms) => TickKeepsInv(s, ms);
      case Add(delay, repeat) => AddKeepsInv(s, delay, repeat);
      case Cancel(id) => CancelKeepsInv(s, id);
      case Begin => BeginKeepsInv(s);
      case Fire(id) => FireKeepsInv(s, id);
      case Return => ReturnKeepsInv(s);
    }
  }

  lemma {:induction false} RunKeepsInv(s: State, steps: seq<Step>)
    requires Inv(s) && Possible(s, steps)
    ensures Inv(Run(s, steps))
    decreases steps
  {
    hide Inv, Next, Enabled;
    if steps != [] {
      StepKeepsInv(s, steps[0]);
      RunKeepsInv(Next(s, steps[0]), steps[1..]);
    }
  }

  // ---------- what callers rely on ----------

  /** In every run, every firing of every timer happens in the first round at or past its due time:
      one delay after the start, and for a periodic timer one delay after the round before. */
  lemma FiresOnTime(now: int, steps: seq<Step>, id: nat, k: nat)
    requires Possible(Initial(now), steps)
    ensures var s := Run(Initial(now), steps); id in s.book && k < |s.book[id].firings| ==> OnTime(s.book[id], s.rounds, k)
  {
    RunKeepsInv(Initial(now), steps);
    var s := Run(Initial(now), steps);
    if id in s.book && k < |s.book[id].firings| { assert Good(s, id); }
  }

  /** Hence no callback runs early: firing `k` (from 0) is never before its start plus `k + 1` delays. */
  lemma NeverEarly(now: int, steps: seq<Step>, id: nat, k: nat)
    requires Possible(Initial(now), steps)
    ensures var s := Run(Initial(now), steps);
            id in s.book && k < |s.book[id].firings| ==>
              s.book[id].start + (k + 1) * s.book[id].delay <= s.book[id].firings[k].at
  {
    RunKeepsInv(Initial(now), steps);
    var s := Run(Initial(now), steps);
    if id in s.book && k < |s.book[id].firings| {
      assert Good(s, id);
      RoundsKeepPace(s.book[id], s.rounds, k);
    }
  }

  lemma {:induction false} RoundsKeepPace(r: Record, rounds: seq<int>, k: nat)
    requires Punctual(r, rounds) && k < |r.firings|
    ensures r.firings[k].round < |rounds|
    ensures r.start + (k + 1) * r.delay <= rounds[r.firings[k].round] <= r.firings[k].at
  {
    assert OnTime(r, rounds, k);
    if k > 0 {
      RoundsKeepPace(r, rounds, k - 1);
      assert (k + 1) * r.delay == k * r.delay + r.delay;
    }
  }

  /** In every run a one-shot timer runs at most once, a cancelled one never, and between rounds an
      uncancelled one has run exactly when there was a round at or past its expiry. */
  lemma OneShot(now: int, steps: seq<Step>, id: nat)
    requires Possible(Initial(now), steps)
    ensures var s := Run(Initial(now), steps);
            id in s.book && !Periodic(s.book[id]) ==>
              var r := s.book[id];
              && |r.firings| <= 1
              && (r.fate == Cancelled ==> r.firings == [])
              && (!InRound(s) && r.fate != Cancelled ==>
                    (|r.firings| == 1 <==> exists j :: r.born <= j < |s.rounds| && r.start + r.delay <= s.rounds[j]))
  {
    RunKeepsInv(Initial(now), steps);
    var s := Run(Initial(now), steps);
    if id in s.book && !Periodic(s.book[id]) {
      assert Good(s, id);
      if s.book[id].firings != [] { assert OnTime(s.book[id], s.rounds, 0); }
    }
  }

  /** And a periodic timer that was not cancelled misses no round: since its last firing, or since it
      was added, no round was at or past the time its next firing is due. */
  lemma PeriodicMissesNothing(now: int, steps: seq<Step>, id: nat)
    requires Possible(Initial(now), steps)
    ensures var s := Run(Initial(now), steps);
            id in s.book && Periodic(s.book[id]) && s.book[id].fate != Cancelled && !InRound(s) ==>
              var r, k := s.book[id], |s.book[id].firings|;
              id in s.wheel.active && NonePast(s.rounds, DueAt(r, s.rounds, k), LooksFrom(r, k), |s.rounds|)
  {
    RunKeepsInv(Initial(now), steps);
    var s := Run(Initial(now), steps);
    if id in s.book { assert Good(s, id); }
  }

  /** Cancelling works on a timer in the list: it never runs again, whatever follows. */
  lemma {:induction false} CancelIsFinal(s: State, steps: seq<Step>, id: nat)
    requires Inv(s) && Possible(s, steps) && id in s.book && s.book[id].fate != Live
    ensures id in Run(s, steps).book && Run(s, steps).book[id] == s.book[id]
    decreases steps
  {
    hide FirstPast, NonePast, Punctual, Expired, Waiting;
    if steps != [] {
      assert Good(s, id);
      StepKeepsInv(s, steps[0]);
      CancelIsFinal(Next(s, steps[0]), steps[1..], id);
    }
  }

  lemma CancelStops(s: State, steps: seq<Step>, id: nat)
    requires Inv(s) && id in s.wheel.active && Possible(CancelTimer(s, id), steps)
    ensures id in s.book && id in Run(CancelTimer(s, id), steps).book
    ensures Run(CancelTimer(s, id), steps).book[id].firings == s.book[id].firings
  {
    CancelKeepsInv(s, id);
    CancelIsFinal(CancelTimer(s, id), steps, id);
  }

  /** Once a round has taken the timer out of the list, cancelling it changes nothing at all: not
      from an earlier callback of the same round, nor from its own. */
  lemma CancelTooLate(s: State, id: nat)
    requires Inv(s) && (id in s.wheel.due || Runs(s.wheel, id))
    ensures CancelTimer(s, id) == s
  {
    assert Good(s, id);
  }

  /** When cancelling works: the timer is in the list, or is over anyway, or is in its last callback. */
  predicate CancelWorks(s: State, id: nat)
    requires id in s.book
  {
    id in s.wheel.active || s.book[id].fate != Live || (Runs(s.wheel, id) && !Periodic(s.book[id]))
  }

  /** A timer known to the loop never runs again after being cancelled, in any run, exactly when
      `CancelWorks`. Taken out by a round and not yet run, or periodic and in its callback, it does. */
  lemma CancelExactly(s: State, id: nat)
    requires Inv(s) && id in s.book
    ensures (forall steps :: Possible(CancelTimer(s, id), steps) ==>
               && id in Run(CancelTimer(s, id), steps).book
               && Run(CancelTimer(s, id), steps).book[id].firings == s.book[id].firings)
       <==> CancelWorks(s, id)
  {
    hide Possible, Run, Inv, CancelTimer;
    if CancelWorks(s, id) {
      forall steps | Possible(CancelTimer(s, id), steps)
        ensures id in Run(CancelTimer(s, id), steps).book
        ensures Run(CancelTimer(s, id), steps).book[id].firings == s.book[id].firings
      {
        NeverAgain(s, steps, id);
      }
    } else {
      StillRuns(s, id);
      var steps := RunsAgain(s, id);
    }
  }

  lemma StillRuns(s: State, id: nat)
    requires Inv(s) && id in s.book && !CancelWorks(s, id)
    ensures id in s.wheel.due || (Runs(s.wheel, id) && Periodic(s.book[id]))
    ensures CancelTimer(s, id) == s
  {
    assert Good(s, id);
  }

  lemma NeverAgain(s: State, steps: seq<Step>, id: nat)
    requires Inv(s) && id in s.book && CancelWorks(s, id) && Possible(CancelTimer(s, id), steps)
    ensures id in Run(CancelTimer(s, id), steps).book
    ensures Run(CancelTimer(s, id), steps).book[id].firings == s.book[id].firings
  {
    hide Possible, Run, Punctual, NonePast, FirstPast;
    assert Good(s, id);
    if id in s.wheel.active {
      CancelStops(s, steps, id);
    } else if s.book[id].fate != Live {
      CancelIsFinal(s, steps, id);
    } else {
      RunKeepsInv(s, steps);
      IdsAreUnique(s, steps, id);
      assert Good(Run(s, steps), id);
    }
  }

  lemma Before(s: State, step: Step, steps: seq<Step>)
    requires Enabled(s, step) && Possible(Next(s, step), steps)
    ensures Possible(s, [step] + steps) && Run(s, [step] + steps) == Run(Next(s, step), steps)
  {
    hide Enabled, Next;
    assert ([step] + steps)[1..] == steps;
  }

  /** A timer in `due` is run as soon as no callback runs. */
  lemma DueRuns(s: State, id: nat) returns (steps: seq<Step>)
    requires Inv(s) && id in s.wheel.due && id in s.book
    ensures Possible(s, steps) && id in Run(s, steps).book
    ensures |Run(s, steps).book[id].firings| == |s.book[id].firings| + 1
  {
    hide Good;
    if s.wheel.running.Callback? {
      var t := Next(s, Return);
      assert t.book.Keys == s.book.Keys && t.book[id].firings == s.book[id].firings;
      Before(t, Fire(id), []);
      steps := [Fire(id)] + [];
      Before(s, Return, steps);
      steps := [Return] + steps;
    } else {
      Before(s, Fire(id), []);
      steps := [Fire(id)] + [];
    }
  }

  /** A round can be finished, and the timers in the list stay there. */
  lemma {:induction false} RoundEnds(s: State, id: nat) returns (steps: seq<Step>)
    requires Inv(s) && s.wheel.running.Nobody? && id in s.wheel.active && id in s.book
    ensures Possible(s, steps) && Inv(Run(s, steps)) && !InRound(Run(s, steps))
    ensures id in Run(s, steps).wheel.active && id in Run(s, steps).book
    ensures Run(s, steps).book[id].firings == s.book[id].firings
    decreases |s.wheel.due|
  {
    hide Possible, Run, Good, Next, Enabled;
    if s.wheel.due == map[] {
      steps := [];
      NoStep(s);
    } else {
      var x :| x in s.wheel.due;
      OneOfRound(s, x, id);
      var t := Next(s, Fire(x));
      steps := RoundEnds(Next(t, Return), id);
      Before(t, Return, steps);
      steps := [Return] + steps;
      Before(s, Fire(x), steps);
      steps := [Fire(x)] + steps;
    }
  }

  /** One timer of a round runs and returns; timer `id` in the list is not touched. */
  lemma OneOfRound(s: State, x: nat, id: nat)
    requires Inv(s) && s.wheel.running.Nobody? && x in s.wheel.due && id in s.wheel.active && id in s.book
    ensures Enabled(s, Fire(x)) && Enabled(Next(s, Fire(x)), Return)
    ensures var u := Next(Next(s, Fire(x)), Return);
            && Inv(u) && u.wheel.running.Nobody? && |u.wheel.due| < |s.wheel.due|
            && id in u.wheel.active && id in u.book && u.book[id].firings == s.book[id].firings
  {
    hide Inv, Good;
    NotBoth(s, x, id);
    StepKeepsInv(s, Fire(x));
    var t := FireTimer(s, x);
    StepKeepsInv(t, Return);
    Smaller(s.wheel.due, x);
    assert t.book[id] == s.book[id];
  }

  lemma NotBoth(s: State, x: nat, id: nat)
    requires Inv(s) && x in s.wheel.due && id in s.wheel.active && id in s.book
    ensures x != id && s.rounds != []
  {
    assert Good(s, id);
  }

  lemma NoStep(s: State)
    ensures Possible(s, []) && Run(s, []) == s
  {
  }

  lemma Smaller(m: map<nat, Timer>, x: nat)
    requires x in m
    ensures |m - {x}| < |m|
  {
    var rest := m - {x};
    assert m == rest[x := m[x]];
  }

  lemma ActiveRuns(s: State, id: nat) returns (steps: seq<Step>)
    requires Inv(s) && !InRound(s) && id in s.wheel.active && id in s.book
    ensures Possible(s, steps) && id in Run(s, steps).book
    ensures |Run(s, steps).book[id].firings| == |s.book[id].firings| + 1
  {
    hide Possible, Run, Good;
    var late := s.wheel.active[id].expire - s.wheel.now;
    var ms: nat := if late < 0 then 0 else late;
    StepKeepsInv(s, Tick(ms));
    var t := Next(s, Tick(ms));
    StepKeepsInv(t, Begin);
    var u := Next(t, Begin);
    assert id in u.wheel.due && u.book == s.book;
    steps := DueRuns(u, id);
    Before(t, Begin, steps);
    steps := [Begin] + steps;
    Before(s, Tick(ms), steps);
    steps := [Tick(ms)] + steps;
  }

  /** Otherwise there is a run in which it runs once more. */
  lemma RunsAgain(s: State, id: nat) returns (steps: seq<Step>)
    requires Inv(s) && id in s.book
    requires id in s.wheel.due || (Runs(s.wheel, id) && Periodic(s.book[id]))
    ensures Possible(s, steps) && id in Run(s, steps).book
    ensures |Run(s, steps).book[id].firings| == |s.book[id].firings| + 1
  {
    hide Possible, Run, Punctual, NonePast, FirstPast;
    if id in s.wheel.due {
      steps := DueRuns(s, id);
    } else {
      assert Good(s, id);
      hide Good;
      StepKeepsInv(s, Return);
      var t := Next(s, Return);
      assert id in t.wheel.active && t.book == s.book;
      var first := RoundEnds(t, id);
      var u := Run(t, first);
      var later := ActiveRuns(u, id);
      Joined(t, first, later);
      steps := first + later;
      Before(s, Return, steps);
      steps := [Return] + steps;
    }
  }

  lemma {:induction false} Joined(s: State, a: seq<Step>, b: seq<Step>)
    requires Possible(s, a) && Possible(Run(s, a), b)
    ensures Possible(s, a + b) && Run(s, a + b) == Run(Run(s, a), b)
    decreases a
  {
    hide Enabled, Next;
    if a == [] {
      assert a + b == b;
    } else {
      Joined(Next(s, a[0]), a[1..], b);
      assert (a + b)[1..] == a[1..] + b;
    }
  }

  /** A timer id names one timer for good: its start and delay never change. */
  lemma {:induction false} IdsAreUnique(s: State, steps: seq<Step>, id: nat)
    requires Inv(s) && Possible(s, steps) && id in s.book
    ensures id in Run(s, steps).book
    ensures var r := Run(s, steps).book[id];
            (r.start, r.delay, r.repeat) == (s.book[id].start, s.book[id].delay, s.book[id].repeat)
            && s.book[id].firings <= r.firings
    decreases steps
  {
    hide Good, Expired, Waiting;
    if steps != [] {
      StepKeepsInv(s, steps[0]);
      var t := Next(s, steps[0]);
      assert id in t.book && s.book[id].firings <= t.book[id].firings;
      IdsAreUnique(t, steps[1..], id);
    }
  }
}
