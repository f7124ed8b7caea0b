/**
 A thread asleep in `select`, the queue it serves and the socket pair that wakes it, under every
 interleaving with any number of producers.
 */
module Wakeups {
  import opened Wire
  import opened Sessions
  import opened Queues
  import opened RelayStates

  /** Where the thread is: in `select`, emptying the wake-up pipe, draining its queue, out of its loop. */
  datatype Place = Selecting | Emptying | Draining | Finished

  /**
   What its drain looks at: a relay's table; or, where a turn takes a bounded number of entries, the
   close flag and what is left of the bound (INBOUND_BATCH in the manager, CLIENT_BATCH in the client).
   */
  datatype Worker =
    | OfRelay(relay: RelayState)
    | OfBatch(bound: nat, closing: bool, budget: nat)

  /** `waking` are the producers between `put` and `wakeup`. */
  datatype Sleeper = Sleeper(
    queue: Trace, pipe: nat, capacity: nat, waking: set<nat>, place: Place, worker: Worker,
    taken: nat,                      // histories, since `select` last returned: how many entries have been taken,
    last: Option<(Queued, Worker)>)  // and the last of them, with what it was taken to
  {
    // --------------------------------------------------------- producers

    function Put(i: nat, q: Queued): Sleeper { this.(queue := queue + [q], waking := waking + {i}) }

    /** A full pipe drops the octet. */
    function Wake(i: nat): Sleeper { this.(pipe := Nudged(pipe, capacity), waking := waking - {i}) }

    // ---------------------------------------------------------- consumer

    /** `select` returns, with the pipe among the ready sockets or not; other callbacks leave `after`. */
    function Return(woken: bool, after: Worker): Sleeper
      requires after.OfRelay? <==> worker.OfRelay?
    {
      this.(place := if woken then Emptying else Draining,
            worker := if after.OfBatch? then after.(bound := worker.bound, budget := worker.bound) else after)
    }

    /** One `recv` of the wake-up callback; on an empty pipe it raises, which ends the callback. */
    function Sip(): Sleeper {
      if pipe > 0 then this.(pipe := Sipped(pipe)) else this.(place := Draining)
    }

    /** One iteration of the drain, or its end. */
    function Drain(): Sleeper {
      match worker
      case OfRelay(relay) =>
        if relay.atomicClose then this.(place := Finished)
        else if queue == [] then this.(place := Selecting)
        else
          var (r, _, v) := relay.TakeOutbound(queue[0]);
          var s := this.(queue := queue[1..], worker := OfRelay(r));
          (match v
           case Processed => s
           case UnknownKey => s.(place := Selecting)
           case InvalidType => s.(place := Finished))
      case OfBatch(bound, closing, budget) =>
        if closing then this.(place := Finished)
        else if budget == 0 || queue == [] then this.(place := Selecting)
        else this.(queue := queue[1..], worker := OfBatch(bound, closing, budget - 1))
    }

    // --------------------------------------------------------- histories

    /** `select` has returned just now. */
    function Afresh(): Sleeper { this.(taken := 0, last := None) }

    /** If the queue is shorter than in `s`, its oldest entry has been taken. */
    function Noted(s: Sleeper): Sleeper {
      if |queue| < |s.queue| && s.queue != [] then this.(taken := s.taken + 1, last := Some((s.queue[0], s.worker)))
      else this
    }

    // --------------------------------------------------------- invariant

    /**
     A relay has just taken an entry for an address that was not in its table; a bounded drain has
     just taken as many entries as it may.
     */
    predicate Excused() {
      match worker
      case OfRelay(_) => last.Some? && last.value.1.OfRelay? && last.value.0.key !in last.value.1.relay.table
      case OfBatch(bound, _, _) => taken == bound
    }

    /** Blocking now would miss nothing. */
    predicate Awake() {
      place == Selecting && queue != [] ==> pipe > 0 || waking != {} || Excused()
    }

    /** A bounded drain has taken what is off its budget, and a thread ends only when it is told to. */
    predicate Counted() {
      match worker
      case OfRelay(relay) => place == Finished ==> relay.atomicClose
      case OfBatch(bound, closing, budget) =>
        && taken <= bound && (place == Emptying || place == Draining ==> taken + budget == bound)
        && (place == Finished ==> closing)
    }

    /** An entry waits, and neither the pipe nor any producer will end the sleep. */
    predicate Stranded() {
      place == Selecting && queue != [] && pipe == 0 && waking == {}
    }
  }

  datatype Action =
    | Put(i: nat, q: Queued) | Wake(i: nat)
    | Return(woken: bool, after: Worker) | Sip | Drain

  predicate Enabled(s: Sleeper, a: Action) {
    match a
    case Put(i, _) => i !in s.waking
    case Wake(i) => i in s.waking
    case Return(woken, after) => s.place == Selecting && (woken ==> s.pipe > 0)
       && (after.OfRelay? <==> s.worker.OfRelay?)
    case Sip => s.place == Emptying
    case Drain => s.place == Draining
  }

  function Apply(s: Sleeper, a: Action): Sleeper
    requires Enabled(s, a)
  {
    match a
    case Put(i, q) => s.Put(i, q)
    case Wake(i) => s.Wake(i)
    case Return(woken, after) => s.Return(woken, after).Afresh()
    case Sip => s.Sip()
    case Drain => s.Drain().Noted(s)
  }

  predicate IsRun(s: Sleeper, actions: seq<Action>)
    decreases |actions|
  {
    actions == [] || (Enabled(s, actions[0]) && IsRun(Apply(s, actions[0]), actions[1..]))
  }

  function Run(s: Sleeper, actions: seq<Action>): Sleeper
    requires IsRun(s, actions)
    decreases |actions|
  {
    if actions == [] then s else Run(Apply(s, actions[0]), actions[1..])
  }

  function Asleep(capacity: nat, worker: Worker): Sleeper {
    Sleeper([], 0, capacity, {}, Selecting, worker, 0, None)
  }

  lemma StepKeeps(s: Sleeper, a: Action)
    requires s.capacity > 0 && s.Awake() && s.Counted() && Enabled(s, a)
    ensures Apply(s, a).Awake() && Apply(s, a).Counted() && Apply(s, a).capacity == s.capacity
    ensures Apply(s, a).worker.OfRelay? <==> s.worker.OfRelay?
  {
    hide RelayState.TakeOutbound;
    if a.Put? {
      assert a.i in Apply(s, a).waking;
    }
    if a.Drain? && s.worker.OfRelay? && s.queue != [] {
      Verdicts(s.worker.relay, s.queue[0]);
    }
  }

  /** What ends a relay's drain early. */
  lemma Verdicts(r: RelayState, q: Queued)
    ensures r.TakeOutbound(q).2 == UnknownKey <==> q.key !in r.table
    ensures r.TakeOutbound(q).2 == InvalidType ==> r.TakeOutbound(q).0.atomicClose
  {
  }

  lemma {:induction false} RunKeeps(s: Sleeper, actions: seq<Action>)
    requires s.capacity > 0 && s.Awake() && s.Counted() && IsRun(s, actions)
    ensures Run(s, actions).Awake() && Run(s, actions).Counted()
    ensures Run(s, actions).worker.OfRelay? <==> s.worker.OfRelay?
    decreases |actions|
  {
    hide Sleeper.Awake, Sleeper.Counted, Apply, Enabled;
    if actions == [] {
    } else {
      StepKeeps(s, actions[0]);
      RunKeeps(Apply(s, actions[0]), actions[1..]);
    }
  }

  /**
   No wake-up is lost: whatever the interleaving, a thread that is about to sleep on a queue with
   something in it will be woken, unless it is a relay and the last entry it took was for an address
   that was not in its table then, or it is bound to a number of entries in a turn and has taken exactly
   so many since `select` last returned.
   */
  lemma NoLostWakeup(capacity: nat, worker: Worker, actions: seq<Action>)
    requires capacity > 0 && IsRun(Asleep(capacity, worker), actions)
    ensures var s := Run(Asleep(capacity, worker), actions);
            && (s.place == Selecting && s.queue != [] ==> s.pipe > 0 || s.waking != {} || s.Excused())
            && (s.Stranded() && worker.OfRelay? ==>
                  s.last.Some? && s.last.value.1.OfRelay? && s.last.value.0.key !in s.last.value.1.relay.table)
            && (s.worker.OfBatch? ==> s.taken <= s.worker.bound && (s.Stranded() ==> s.taken == s.worker.bound))
            && (s.place == Finished ==> if s.worker.OfRelay? then s.worker.relay.atomicClose else s.worker.closing)
  {
    RunKeeps(Asleep(capacity, worker), actions);
  }

  /** Every entry that the relay takes in this run is for an address in its table. */
  predicate AllFound(s: Sleeper, actions: seq<Action>)
    requires IsRun(s, actions)
    decreases |actions|
  {
    || actions == []
    || (&& (actions[0].Drain? && s.worker.OfRelay? && !s.worker.relay.atomicClose && s.queue != [] ==>
              s.queue[0].key in s.worker.relay.table)
        && AllFound(Apply(s, actions[0]), actions[1..]))
  }

  /** What a relay has taken was found. */
  predicate Found(s: Sleeper) {
    s.worker.OfRelay? && (s.last.Some? ==> s.last.value.1.OfRelay? && s.last.value.0.key in s.last.value.1.relay.table)
  }

  lemma FoundStep(s: Sleeper, a: Action)
    requires Found(s) && Enabled(s, a)
    requires a.Drain? && !s.worker.relay.atomicClose && s.queue != [] ==> s.queue[0].key in s.worker.relay.table
    ensures Found(Apply(s, a))
  {
    hide RelayState.TakeOutbound;
  }

  lemma {:induction false} FoundThroughout(s: Sleeper, actions: seq<Action>)
    requires Found(s) && IsRun(s, actions) && AllFound(s, actions)
    ensures Found(Run(s, actions))
    decreases |actions|
  {
    hide Found, Apply, Enabled;
    if actions == [] {
    } else {
      RelayStays(s, actions[0]);
      FoundStep(s, actions[0]);
      FoundThroughout(Apply(s, actions[0]), actions[1..]);
    }
  }

  lemma RelayStays(s: Sleeper, a: Action)
    requires Found(s)
    ensures s.worker.OfRelay?
  {
  }

  /** So a relay whose entries all find their address is never left asleep on its queue. */
  lemma NeverStranded(capacity: nat, relay: RelayState, actions: seq<Action>)
    requires capacity > 0 && IsRun(Asleep(capacity, OfRelay(relay)), actions)
    requires AllFound(Asleep(capacity, OfRelay(relay)), actions)
    ensures !Run(Asleep(capacity, OfRelay(relay)), actions).Stranded()
  {
    hide IsRun, Run, AllFound;
    NoLostWakeup(capacity, OfRelay(relay), actions);
    FoundThroughout(Asleep(capacity, OfRelay(relay)), actions);
  }

  // ------------------------------------------------- the exempt cases happen

  lemma {:induction false} RunThen(s: Sleeper, first: seq<Action>, second: seq<Action>)
    requires IsRun(s, first) && IsRun(Run(s, first), second)
    ensures IsRun(s, first + second) && Run(s, first + second) == Run(Run(s, first), second)
    decreases |first|
  {
    hide Apply, Enabled;
    if first == [] {
      assert first + second == second;
    } else {
      assert (first + second)[1..] == first[1..] + second;
      RunThen(Apply(s, first[0]), first[1..], second);
    }
  }

  lemma RunOne(s: Sleeper, a: Action)
    requires Enabled(s, a)
    ensures IsRun(s, [a]) && Run(s, [a]) == Apply(s, a)
  {
    hide Apply, Enabled;
    assert [a][1..] == [];
  }

  /** A producer that puts each of the entries and wakes the thread each time. */
  function Feeding(entries: Trace): seq<Action> {
    if entries == [] then [] else Feeding(entries[..|entries| - 1]) + [Put(0, entries[|entries| - 1]), Wake(0)]
  }

  lemma {:induction false} Fed(s: Sleeper, entries: Trace)
    requires s.waking == {} && s.capacity == 1 && s.pipe == 0 && s.queue == []
    ensures IsRun(s, Feeding(entries))
    ensures Run(s, Feeding(entries)) == s.(queue := entries, pipe := if entries == [] then 0 else 1)
  {
    if entries == [] {
    } else {
      var init, q := entries[..|entries| - 1], entries[|entries| - 1];
      Fed(s, init);
      var t := Run(s, Feeding(init));
      var u := t.Put(0, q);
      RunOne(t, Put(0, q));
      RunOne(u, Wake(0));
      RunThen(t, [Put(0, q)], [Wake(0)]);
      assert [Put(0, q)] + [Wake(0)] == [Put(0, q), Wake(0)];
      RunThen(s, Feeding(init), [Put(0, q), Wake(0)]);
      assert init + [q] == entries && {} + {0} - {0} == t.waking;
    }
  }

  /** Woken by what it was fed, the thread comes to its drain with an empty pipe. */
  lemma Woken(s: Sleeper, after: Worker)
    requires s.place == Selecting && s.pipe == 1 && (after.OfRelay? <==> s.worker.OfRelay?)
    ensures IsRun(s, [Return(true, after), Sip, Sip])
    ensures Run(s, [Return(true, after), Sip, Sip]) == s.Return(true, after).Afresh().(pipe := 0, place := Draining)
  {
    var a, t := Return(true, after), s.Return(true, after).Afresh();
    RunOne(s, a);
    RunOne(t, Sip);
    RunOne(t.Sip(), Sip);
    RunThen(t, [Sip], [Sip]);
    RunThen(s, [a], [Sip, Sip]);
    assert [Sip] + [Sip] == [Sip, Sip] && [a] + [Sip, Sip] == [a, Sip, Sip];
  }

  function Drains(n: nat): seq<Action> { seq(n, _ => Drain) }

  /** The bounded drain, from any point of it. */
  lemma {:induction false} DrainedToBound(s: Sleeper)
    requires s.place == Draining && s.worker.OfBatch? && !s.worker.closing && s.worker.budget <= |s.queue|
    ensures var n := s.worker.budget;
            && IsRun(s, Drains(n + 1))
            && var t := Run(s, Drains(n + 1));
               t.queue == s.queue[n..] && t.place == Selecting && t.pipe == s.pipe && t.waking == s.waking
    decreases s.worker.budget
  {
    var n := s.worker.budget;
    RunOne(s, Drain);
    if n == 0 {
      assert Drains(1) == [Drain];
    } else {
      var t := s.Drain().Noted(s);
      DrainedToBound(t);
      assert t.queue[n - 1..] == s.queue[n..];
      RunThen(s, [Drain], Drains(n));
      assert [Drain] + Drains(n) == Drains(n + 1);
    }
  }

  /** Both exempt cases are real: one entry more than the bound is left behind, */
  lemma BoundStrands(bound: nat, entries: Trace)
    requires |entries| > bound
    ensures exists actions ::
              && IsRun(Asleep(1, OfBatch(bound, false, 0)), actions)
              && Run(Asleep(1, OfBatch(bound, false, 0)), actions).Stranded()
              && Run(Asleep(1, OfBatch(bound, false, 0)), actions).queue == entries[bound..]
  {
    hide Apply, Enabled, IsRun, Run;
    var worker := OfBatch(bound, false, 0);
    var s := Asleep(1, worker);
    Fed(s, entries);
    var fed := Run(s, Feeding(entries));
    Woken(fed, worker);
    RunThen(s, Feeding(entries), [Return(true, worker), Sip, Sip]);
    var sofar := Feeding(entries) + [Return(true, worker), Sip, Sip];
    DrainedToBound(Run(s, sofar));
    RunThen(s, sofar, Drains(bound + 1));
  }

  /** and an entry for an address the relay no longer has strands the one behind it. */
  lemma UnknownAddressStrands(relay: RelayState, stray: Queued, next: Queued)
    requires stray.key !in relay.table && !relay.atomicClose
    ensures exists actions ::
              && IsRun(Asleep(1, OfRelay(relay)), actions)
              && Run(Asleep(1, OfRelay(relay)), actions).Stranded()
              && Run(Asleep(1, OfRelay(relay)), actions).queue == [next]
  {
    hide Apply, IsRun, Run;
    var s := Asleep(1, OfRelay(relay));
    Fed(s, [stray, next]);
    Woken(Run(s, Feeding([stray, next])), OfRelay(relay));
    var wake := [Return(true, OfRelay(relay)), Sip, Sip];
    RunThen(s, Feeding([stray, next]), wake);
    var sofar := Feeding([stray, next]) + wake;
    var t := Run(s, sofar);
    RunOne(t, Drain);
    RunThen(s, sofar, [Drain]);
    assert t.queue[1..] == [next];
    assert Apply(t, Drain) == t.Drain().Noted(t) by { Applied(t); }
  }

  lemma Applied(s: Sleeper)
    requires s.place == Draining
    ensures Enabled(s, Drain) && Apply(s, Drain) == s.Drain().Noted(s)
  {
  }
}
