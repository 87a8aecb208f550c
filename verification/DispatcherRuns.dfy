/** The main results about the delivery dispatcher: order, attempts, scheduling, bounded work and what an
    exit means, for every run of the dispatcher and every behaviour of the platform, the clock and the queue. */
module DispatcherRuns {
  import opened DispatcherModel
  import opened DispatcherLaws

  /** Nothing is lost, duplicated or reordered: at any point of any run the deliveries accepted for a
      destination are the settled ones, then at most one outstanding, then the lane. */
  lemma FifoPerDestination(limit: nat, choices: seq<Choice>, d: Destination)
    requires Legal(INITIAL, limit, choices)
    ensures var s := Run(INITIAL, limit, choices);
            && |Outstanding(s, d)| <= 1
            && Only(s.accepted, d) == SettledFor(s.settled, d) + Originals(Outstanding(s, d) + Lane(s, d))
  {
    InitialInv(limit);
    RunInv(INITIAL, limit, choices);
    var s := Run(INITIAL, limit, choices);
    assert Tidy(Of(s, d), d) && Fifo(Of(s, d));
  }

  /** The platform calls for a destination are, in order, one burst of attempts 1, 2, 3, ... for each
      settled delivery and a last partial burst for the oldest one still held: attempts of one
      delivery are consecutive and no other delivery of that destination is sent between them. */
  lemma AttemptsPerDestination(limit: nat, choices: seq<Choice>, d: Destination)
    requires Legal(INITIAL, limit, choices)
    ensures var s := Run(INITIAL, limit, choices);
            var held := Held(s, d);
            && Only(s.sent, d) == BurstsFor(s.settled, d) + (if held == [] then [] else Burst(held[0], Tries(s, d)))
            && (held != [] ==> held[0].attempt == Clamp(Tries(s, d) + if InFlight(s, d) then 0 else 1))
            && (forall i :: 1 <= i < |held| ==> held[i].attempt == 1)
  {
    InitialInv(limit);
    RunInv(INITIAL, limit, choices);
    var s := Run(INITIAL, limit, choices);
    assert Fifo(Of(s, d));
  }

  // ---------------------------------------------------------------- scheduling

  lemma {:induction false} TimesMeaning(ready: seq<Destination>)
    ensures forall d :: d in ready <==> Times(ready, d) > 0
    ensures (forall d :: Times(ready, d) <= 1) ==> forall i, j :: 0 <= i < j < |ready| ==> ready[i] != ready[j]
  {
    if ready != [] {
      TimesMeaning(ready[1..]);
      var first, rest := ready[0], ready[1..];
      assert ready == [first] + rest;
      assert forall d :: Times(ready, d) == One(first == d) + Times(rest, d);
      if forall d :: Times(ready, d) <= 1 {
        assert Times(ready, first) == 1 + Times(rest, first);
        assert forall d :: Times(rest, d) <= Times(ready, d);
        forall i, j | 0 <= i < j < |ready| ensures ready[i] != ready[j] {
          assert ready[j] == rest[j - 1];
          if i > 0 { assert ready[i] == rest[i - 1]; }
        }
      }
    }
  }

  lemma {:induction false} OnlyMeaning(q: seq<Delivery>, d: Destination)
    ensures Only(q, d) != [] <==> exists i :: 0 <= i < |q| && q[i].destination == d
    ensures |Only(q, d)| <= 1 ==>
              forall i, j :: 0 <= i < j < |q| && q[i].destination == d ==> q[j].destination != d
  {
    if q != [] {
      var n := |q| - 1;
      OnlyMeaning(q[..n], d);
      if q[n].destination == d {
        assert Only(q, d) == Only(q[..n], d) + [q[n]];
      } else {
        assert Only(q, d) == Only(q[..n], d);
      }
      if exists i :: 0 <= i < n && q[i].destination == d {
        var i :| 0 <= i < n && q[i].destination == d;
        assert q[..n][i].destination == d;
      }
      if |Only(q, d)| <= 1 {
        forall i, j | 0 <= i < j < |q| && q[i].destination == d ensures q[j].destination != d {
          assert q[..n][i].destination == d;
          if j < n { assert q[..n][j] == q[j]; }
        }
      }
    }
  }

  /** The state in which the dispatcher waits: workers are not exceeded; a destination has at most one
      delivery in flight or delayed and is active exactly then; the ready queue lists each idle
      destination with work once and nothing else. */
  ghost predicate WellScheduled(s: State, limit: nat) {
    && |s.sends| <= limit
    && (forall i, j :: 0 <= i < j < |Busy(s)| ==> Busy(s)[i].destination != Busy(s)[j].destination)
    && (forall d :: d in s.active <==> exists i :: 0 <= i < |Busy(s)| && Busy(s)[i].destination == d)
    && (forall i, j :: 0 <= i < j < |s.ready| ==> s.ready[i] != s.ready[j])
    && (forall d :: d in s.ready <==> d !in s.active && Lane(s, d) != [])
    && (forall d :: d in s.lanes && s.lanes[d] == [] ==> d in s.active)
  }

  /** The deliveries in flight, then the delayed ones. */
  function Busy(s: State): seq<Delivery> {
    s.sends + Waiting(s.delayed)
  }

  lemma InvSchedules(s: State, limit: nat)
    requires Inv(s, limit)
    ensures WellScheduled(s, limit)
  {
    hide Only, Times, SettledFor, BurstsFor;
    TimesMeaning(s.ready);
    forall d ensures Times(s.ready, d) == One(d !in s.active && Lane(s, d) != []) {
      assert Tidy(Of(s, d), d);
    }
    forall d
      ensures d in s.active <==> exists i :: 0 <= i < |Busy(s)| && Busy(s)[i].destination == d
      ensures d in s.lanes && s.lanes[d] == [] ==> d in s.active
    {
      assert Tidy(Of(s, d), d);
      OnlyConcat(s.sends, Waiting(s.delayed), d);
      OnlyMeaning(Busy(s), d);
    }
    forall i, j | 0 <= i < j < |Busy(s)| ensures Busy(s)[i].destination != Busy(s)[j].destination {
      var d := Busy(s)[i].destination;
      assert Tidy(Of(s, d), d);
      OnlyConcat(s.sends, Waiting(s.delayed), d);
      OnlyMeaning(Busy(s), d);
    }
    forall d ensures d in s.ready <==> d !in s.active && Lane(s, d) != [] {
      assert Times(s.ready, d) == One(d !in s.active && Lane(s, d) != []);
    }
  }

  /** In every run, whenever the dispatcher waits it is well scheduled, no delay that is over is still
      waiting, and either all workers are busy or every destination with work is busy. */
  lemma Scheduling(limit: nat, choices: seq<Choice>, now: nat)
    requires Legal(INITIAL, limit, choices)
    ensures var s := Scheduled(Run(INITIAL, limit, choices), now, limit);
            && WellScheduled(s, limit)
            && (forall i :: 0 <= i < |s.delayed| ==> s.delayed[i].due > now)
            && (|s.sends| == limit || forall d :: Lane(s, d) != [] ==> d in s.active)
  {
    hide Inv;
    InitialInv(limit);
    RunInv(INITIAL, limit, choices);
    var s := Run(INITIAL, limit, choices);
    var woken := WakeDue(s, 0, now);
    WakeDueInv(s, 0, now, limit);
    LaunchAllInv(woken, limit);
    LaunchAllDelays(woken, limit);
    InvSchedules(Scheduled(s, now, limit), limit);
  }

  lemma {:induction false} LaunchAllDelays(s: State, limit: nat)
    ensures LaunchAll(s, limit).delayed == s.delayed
    decreases |s.ready|
  {
    if |s.sends| < limit && s.ready != [] {
      LaunchAllDelays(Launch(s), limit);
    }
  }

  /** When the dispatcher returns at the check that ends an iteration, every delivery it ever accepted has a
      terminal outcome, in order. */
  lemma ExitMeansSettled(limit: nat, choices: seq<Choice>, d: Destination)
    requires choices != [] && Legal(INITIAL, limit, choices)
    requires Exits(Run(INITIAL, limit, choices), choices[|choices| - 1].branch)
    requires !choices[|choices| - 1].branch.Shutdown?
    ensures var s := Run(INITIAL, limit, choices);
            Only(s.accepted, d) == SettledFor(s.settled, d) && Only(s.sent, d) == BurstsFor(s.settled, d)
  {
    hide SettledFor, BurstsFor;
    FifoPerDestination(limit, choices, d);
    AttemptsPerDestination(limit, choices, d);
    var s := Run(INITIAL, limit, choices);
    assert Waiting(s.delayed) == [];
    assert Outstanding(s, d) == [];
  }

  // ---------------------------------------------------------------- bounded work

  ghost function LaneTotal(lanes: map<Destination, seq<Delivery>>): nat {
    if lanes == map[] then 0
    else
      var d :| d in lanes;
      |lanes[d]| + LaneTotal(lanes - {d})
  }

  lemma {:induction false} LaneTotalSplit(lanes: map<Destination, seq<Delivery>>, d: Destination)
    requires d in lanes
    ensures LaneTotal(lanes) == |lanes[d]| + LaneTotal(lanes - {d})
    decreases |lanes|
  {
    var e :| e in lanes && LaneTotal(lanes) == |lanes[e]| + LaneTotal(lanes - {e});
    if e != d {
      LaneTotalSplit(lanes - {e}, d);
      LaneTotalSplit(lanes - {d}, e);
      assert lanes - {e} - {d} == lanes - {d} - {e};
    }
  }

  lemma LaneTotalUpdate(lanes: map<Destination, seq<Delivery>>, d: Destination, lane: seq<Delivery>)
    ensures LaneTotal(lanes[d := lane]) + (if d in lanes then |lanes[d]| else 0) == LaneTotal(lanes) + |lane|
  {
    LaneTotalSplit(lanes[d := lane], d);
    assert lanes[d := lane] - {d} == lanes - {d};
    if d in lanes {
      LaneTotalSplit(lanes, d);
    } else {
      assert lanes - {d} == lanes;
    }
  }

  /** Everything between acceptance and a terminal outcome. */
  ghost function Work(s: State): nat {
    LaneTotal(s.lanes) + |s.sends| + |s.delayed|
  }

  lemma {:induction false} WakeDueWork(s: State, index: nat, now: nat)
    ensures Work(WakeDue(s, index, now)) == Work(s)
    ensures WakeDue(s, index, now).accepted == s.accepted && WakeDue(s, index, now).settled == s.settled
    ensures WakeDue(s, index, now).incomingOpen == s.incomingOpen
    decreases |s.delayed| - index
  {
    hide LaneTotal;
    if index < |s.delayed| {
      if s.delayed[index].due <= now {
        var x := s.delayed[index].delivery;
        LaneTotalUpdate(s.lanes, x.destination, [x] + Lane(s, x.destination));
        WakeDueWork(Wake(s, index), index, now);
      } else {
        WakeDueWork(s, index + 1, now);
      }
    }
  }

  lemma {:induction false} LaunchAllWork(s: State, limit: nat)
    ensures Work(LaunchAll(s, limit)) == Work(s)
    ensures LaunchAll(s, limit).accepted == s.accepted && LaunchAll(s, limit).settled == s.settled
    ensures LaunchAll(s, limit).incomingOpen == s.incomingOpen
    decreases |s.ready|
  {
    hide LaneTotal;
    if |s.sends| < limit && s.ready != [] {
      var d := s.ready[0];
      if d in s.lanes && s.lanes[d] != [] {
        LaneTotalUpdate(s.lanes, d, s.lanes[d][1..]);
      }
      LaunchAllWork(Launch(s), limit);
    }
  }

  lemma TakeWork(s: State, b: Branch)
    requires Enabled(s, b)
    ensures Work(Take(s, b)) + |Take(s, b).settled| + |s.accepted| == Work(s) + |s.settled| + |Take(s, b).accepted|
    ensures |Take(s, b).accepted| == |s.accepted| + One(b.Received?)
    ensures |Take(s, b).settled| == |s.settled| + One(b.Completed? && !b.outcome.RetryAfter?)
  {
    hide LaneTotal;
    match b {
      case Completed(index, outcome, now) =>
        var d := s.sends[index].destination;
        if !outcome.RetryAfter? && Lane(s, d) == [] {
          if d in s.lanes {
            LaneTotalSplit(s.lanes, d);
          } else {
            assert s.lanes - {d} == s.lanes;
          }
        }
      case Received(x) => LaneTotalUpdate(s.lanes, x.destination, Lane(s, x.destination) + [x]);
      case _ =>
    }
  }

  lemma IterateWork(s: State, now: nat, limit: nat, b: Branch)
    requires Enabled(Scheduled(s, now, limit), b)
    ensures var t := Iterate(s, now, limit, b);
            && Work(t) + |t.settled| + |s.accepted| == Work(s) + |s.settled| + |t.accepted|
            && |t.accepted| == |s.accepted| + One(b.Received?)
            && |t.settled| == |s.settled| + One(b.Completed? && !b.outcome.RetryAfter?)
            && (b.Received? ==> t.accepted == s.accepted + [b.delivery])
            && (!b.Received? ==> t.accepted == s.accepted)
            && t.incomingOpen == (s.incomingOpen && !b.Closed?)
  {
    hide Work, LaneTotal, WakeDue, LaunchAll;
    WakeDueWork(s, 0, now);
    LaunchAllWork(WakeDue(s, 0, now), limit);
    TakeWork(Scheduled(s, now, limit), b);
  }

  /** The dispatcher behind its bounded queue. `free` is the semaphore, `holding` the producers that own
      a permit and have not queued their delivery yet, `buffer` the queue, `open` whether a sender is
      left; `queued` is the history of everything ever put into the queue. */
  datatype System = System(core: State, free: nat, holding: nat, buffer: seq<Delivery>, open: bool, queued: seq<Delivery>)

  datatype Action =
    | Acquire
    | Push(eventId: string, destination: Destination, event: Outbound)
    | CloseSenders
    | Pass(choice: Choice)

  function Start(permits: nat): System {
    System(INITIAL, permits, 0, [], true, [])
  }

  predicate Possible(y: System, limit: nat, a: Action) {
    match a
    case Acquire => y.open && y.free > 0
    case Push(_, _, _) => y.open && y.holding > 0
    case CloseSenders => y.open && y.holding == 0
    case Pass(c) =>
      && Enabled(Scheduled(y.core, c.now, limit), c.branch)
      && (c.branch.Received? ==> y.buffer != [] && c.branch.delivery == y.buffer[0])
      && (c.branch.Closed? ==> y.buffer == [] && !y.open)
  }

  function Do(y: System, limit: nat, a: Action): System
    requires Possible(y, limit, a)
  {
    match a
    case Acquire => y.(free := y.free - 1, holding := y.holding + 1)
    case Push(eventId, destination, event) =>
      var x := Delivery(eventId, destination, event, 1);
      y.(holding := y.holding - 1, buffer := y.buffer + [x], queued := y.queued + [x])
    case CloseSenders => y.(open := false)
    case Pass(c) =>
      var settles := c.branch.Completed? && !c.branch.outcome.RetryAfter?;
      y.(core := Iterate(y.core, c.now, limit, c.branch),
         free := y.free + One(settles),
         buffer := if c.branch.Received? then y.buffer[1..] else y.buffer)
  }

  predicate Feasible(y: System, limit: nat, actions: seq<Action>)
    decreases |actions|
  {
    actions == [] || (Possible(y, limit, actions[0]) && Feasible(Do(y, limit, actions[0]), limit, actions[1..]))
  }

  function After(y: System, limit: nat, actions: seq<Action>): System
    requires Feasible(y, limit, actions)
    decreases |actions|
  {
    if actions == [] then y else After(Do(y, limit, actions[0]), limit, actions[1..])
  }

  /** Every permit is free, with a producer, or with exactly one delivery on its way; and the queue
      between producers and dispatcher loses nothing. */
  ghost predicate Balanced(y: System, permits: nat) {
    && y.free + y.holding + |y.buffer| + Work(y.core) == permits
    && |y.core.accepted| == |y.core.settled| + Work(y.core)
    && y.queued == y.core.accepted + y.buffer
    && (!y.core.incomingOpen ==> y.buffer == [] && !y.open)
  }

  lemma DoBalanced(y: System, limit: nat, permits: nat, a: Action)
    requires Balanced(y, permits) && Possible(y, limit, a)
    ensures Balanced(Do(y, limit, a), permits)
  {
    hide Work, Iterate, Scheduled;
    match a {
      case Pass(c) => IterateWork(y.core, c.now, limit, c.branch);
      case _ =>
    }
  }

  lemma {:induction false} AfterBalanced(y: System, limit: nat, permits: nat, actions: seq<Action>)
    requires Balanced(y, permits) && Feasible(y, limit, actions)
    ensures Balanced(After(y, limit, actions), permits)
    decreases |actions|
  {
    hide Balanced;
    if actions != [] {
      DoBalanced(y, limit, permits, actions[0]);
      AfterBalanced(Do(y, limit, actions[0]), limit, permits, actions[1..]);
    }
  }

  /** In every run of producers and dispatcher together, buffered, queued, running and delayed work never
      exceeds the permits, a producer that owns a permit always finds room in the queue of that
      capacity, and what was queued is what was accepted followed by what is still buffered. */
  lemma BoundedWork(permits: nat, limit: nat, actions: seq<Action>)
    requires Feasible(Start(permits), limit, actions)
    ensures var y := After(Start(permits), limit, actions);
            && |y.buffer| + LaneTotal(y.core.lanes) + |y.core.sends| + |y.core.delayed| <= permits
            && (y.holding > 0 ==> |y.buffer| < permits)
            && |y.core.accepted| == |y.core.settled| + LaneTotal(y.core.lanes) + |y.core.sends| + |y.core.delayed|
            && y.queued == y.core.accepted + y.buffer
            && (!y.core.incomingOpen ==> y.queued == y.core.accepted)
  {
    AfterBalanced(Start(permits), limit, permits, actions);
  }
}
