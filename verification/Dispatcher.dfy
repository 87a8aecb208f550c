/** The delivery dispatcher of a Channel process: per-destination lanes, a ready queue, an active set,
    delayed retries and a bounded set of platform sends.

    `State` is the dispatcher's data between two awaits together with the history it has produced; the
    functions below are its atomic moves. `class Dispatcher` keeps the same data in mutable fields and
    is proved to compute exactly those moves; the lemmas in DispatcherLaws are about every run. */
module DispatcherModel {
  type Destination = string

  datatype Outbound = CompletedMessage(text: string) | StreamingUpdate(text: string) | Lifecycle(message: string)

  datatype Delivery = Delivery(eventId: string, destination: Destination, event: Outbound, attempt: nat)

  datatype Outcome = Delivered(receipt: string) | RetryAfter(delay: nat) | Dropped(reason: string)

  datatype Delayed = Delayed(due: nat, delivery: Delivery)

  /** A delivery with a terminal outcome, and how many times the platform was called for it. */
  datatype Settlement = Settlement(delivery: Delivery, sends: nat)

  /** `accepted`, `sent` and `settled` are history: what was received from the queue, every platform
      call in order, and every terminal outcome in order. `tries[d]` counts the calls made so far for
      the oldest unsettled delivery of `d`. */
  datatype State = State(
    lanes: map<Destination, seq<Delivery>>,
    ready: seq<Destination>,
    active: set<Destination>,
    delayed: seq<Delayed>,
    sends: seq<Delivery>,
    incomingOpen: bool,
    accepted: seq<Delivery>,
    sent: seq<Delivery>,
    settled: seq<Settlement>,
    tries: map<Destination, nat>)

  /** Which branch of the select fires, with what the environment contributes to it. */
  datatype Branch =
    | Shutdown
    | Watched
    | Completed(index: nat, outcome: Outcome, now: nat)
    | Received(delivery: Delivery)
    | Closed
    | Timer

  const ATTEMPT_MAX: nat := 0xFFFF_FFFF

  const INITIAL := State(map[], [], {}, [], [], true, [], [], [], map[])

  function SaturatingIncrement(attempt: nat): nat {
    if attempt >= ATTEMPT_MAX then ATTEMPT_MAX else attempt + 1
  }

  function Lane(s: State, d: Destination): seq<Delivery> {
    if d in s.lanes then s.lanes[d] else []
  }

  function Tries(s: State, d: Destination): nat {
    if d in s.tries then s.tries[d] else 0
  }

  /** `Vec::swap_remove`: the last element takes the place of the removed one. */
  function SwapRemove<T>(q: seq<T>, index: nat): seq<T>
    requires index < |q|
  {
    if index == |q| - 1 then q[..index] else q[..|q| - 1][index := q[|q| - 1]]
  }

  /** A delay that is over puts its delivery back at the front of its lane and readies the lane. */
  function Wake(s: State, index: nat): State
    requires index < |s.delayed|
  {
    var x := s.delayed[index].delivery;
    var d := x.destination;
    s.(delayed := SwapRemove(s.delayed, index),
       active := s.active - {d},
       ready := s.ready + [d],
       lanes := s.lanes[d := [x] + Lane(s, d)])
  }

  /** The scan over the delayed list at the top of the loop. */
  function WakeDue(s: State, index: nat, now: nat): State
    decreases |s.delayed| - index
  {
    if index >= |s.delayed| then s
    else if s.delayed[index].due <= now then WakeDue(Wake(s, index), index, now)
    else WakeDue(s, index + 1, now)
  }

  /** Takes one destination from the ready queue and, unless it is active or has nothing queued,
      starts the platform call for the delivery at the front of its lane. */
  function Launch(s: State): State
    requires s.ready != []
  {
    var d := s.ready[0];
    var popped := s.(ready := s.ready[1..]);
    if d in s.active || Lane(s, d) == [] then popped
    else
      var x := s.lanes[d][0];
      popped.(lanes := s.lanes[d := s.lanes[d][1..]],
              active := s.active + {d},
              sends := s.sends + [x],
              sent := s.sent + [x],
              tries := s.tries[d := Tries(s, d) + 1])
  }

  function LaunchAll(s: State, limit: nat): State
    decreases |s.ready|
  {
    if |s.sends| >= limit || s.ready == [] then s else LaunchAll(Launch(s), limit)
  }

  /** The answer of one platform call: a retry is delayed, anything else is terminal. */
  function Finish(s: State, index: nat, outcome: Outcome, now: nat): State
    requires index < |s.sends|
  {
    var x := s.sends[index];
    var d := x.destination;
    var rest := s.(sends := s.sends[..index] + s.sends[index + 1..]);
    if outcome.RetryAfter? then
      rest.(delayed := s.delayed + [Delayed(now + outcome.delay, x.(attempt := SaturatingIncrement(x.attempt)))])
    else
      var done := rest.(active := s.active - {d},
                        settled := s.settled + [Settlement(x, Tries(s, d))],
                        tries := s.tries[d := 0]);
      if Lane(s, d) != [] then done.(ready := s.ready + [d]) else done.(lanes := s.lanes - {d})
  }

  function Accept(s: State, x: Delivery): State {
    var d := x.destination;
    var lane := Lane(s, d) + [x];
    var queued := s.(lanes := s.lanes[d := lane], accepted := s.accepted + [x]);
    if d !in s.active && |lane| == 1 then queued.(ready := s.ready + [d]) else queued
  }

  /** The branches the select may take. A receive carries a first attempt: both producers build their
      deliveries with `attempt: 1`. */
  predicate Enabled(s: State, b: Branch) {
    match b
    case Completed(index, _, _) => index < |s.sends|
    case Received(x) => s.incomingOpen && x.attempt == 1
    case Closed => s.incomingOpen
    case Timer => s.delayed != []
    case _ => true
  }

  function Take(s: State, b: Branch): State
    requires Enabled(s, b)
  {
    match b
    case Completed(index, outcome, now) => Finish(s, index, outcome, now)
    case Received(x) => Accept(s, x)
    case Closed => s.(incomingOpen := false)
    case _ => s
  }

  /** The scheduling phases of one loop iteration, before its select. */
  function Scheduled(s: State, now: nat, limit: nat): State {
    LaunchAll(WakeDue(s, 0, now), limit)
  }

  function Iterate(s: State, now: nat, limit: nat, b: Branch): State
    requires Enabled(Scheduled(s, now, limit), b)
  {
    Take(Scheduled(s, now, limit), b)
  }

  /** The dispatcher returns on shutdown, or at the check that ends an iteration. The branch that
      notices the closed queue starts the next iteration without that check. */
  predicate Exits(s: State, b: Branch) {
    || b.Shutdown?
    || (!b.Closed? && !s.incomingOpen && s.sends == [] && s.delayed == [] && s.lanes == map[])
  }

  /** One choice of the environment per iteration. */
  datatype Choice = Choice(now: nat, branch: Branch)

  predicate Legal(s: State, limit: nat, choices: seq<Choice>)
    decreases |choices|
  {
    choices == [] ||
    (&& Enabled(Scheduled(s, choices[0].now, limit), choices[0].branch)
     && Legal(Iterate(s, choices[0].now, limit, choices[0].branch), limit, choices[1..]))
  }

  function Run(s: State, limit: nat, choices: seq<Choice>): State
    requires Legal(s, limit, choices)
    decreases |choices|
  {
    if choices == [] then s
    else Run(Iterate(s, choices[0].now, limit, choices[0].branch), limit, choices[1..])
  }

  /** The dispatcher itself. `history` fields are ghost: the dispatcher keeps none of them. */
  class Dispatcher {
    var lanes: map<Destination, seq<Delivery>>
    var ready: seq<Destination>
    var active: set<Destination>
    var delayed: seq<Delayed>
    var sends: seq<Delivery>
    var incomingOpen: bool
    const workerLimit: nat
    ghost var accepted: seq<Delivery>
    ghost var sent: seq<Delivery>
    ghost var settled: seq<Settlement>
    ghost var tries: map<Destination, nat>

    ghost function View(): State
      reads this
    {
      State(lanes, ready, active, delayed, sends, incomingOpen, accepted, sent, settled, tries)
    }

    constructor (limit: nat)
      ensures workerLimit == limit && View() == INITIAL
    {
      workerLimit := limit;
      lanes, ready, active, delayed, sends, incomingOpen := map[], [], {}, [], [], true;
      accepted, sent, settled, tries := [], [], [], map[];
    }

    method WakeDueDeliveries(now: nat)
      modifies this
      ensures View() == WakeDue(old(View()), 0, now)
    {
      var index := 0;
      while index < |delayed|
        invariant WakeDue(View(), index, now) == WakeDue(old(View()), 0, now)
        decreases |delayed| - index
      {
        if delayed[index].due <= now {
          var x := delayed[index].delivery;
          delayed := SwapRemove(delayed, index);
          active := active - {x.destination};
          ready := ready + [x.destination];
          lanes := lanes[x.destination := [x] + (if x.destination in lanes then lanes[x.destination] else [])];
        } else {
          index := index + 1;
        }
      }
    }

    /** Starts the call at the front of the ready queue, if its destination is idle and has work. */
    method LaunchNext()
      requires ready != []
      modifies this
      ensures View() == Launch(old(View()))
    {
      var key := ready[0];
      ready := ready[1..];
      if key in active { return; }
      if key !in lanes || lanes[key] == [] { return; }
      var delivery := lanes[key][0];
      tries := tries[key := Tries(View(), key) + 1];
      lanes := lanes[key := lanes[key][1..]];
      active := active + {key};
      sends := sends + [delivery];
      sent := sent + [delivery];
    }

    method LaunchReady()
      modifies this
      ensures View() == LaunchAll(old(View()), workerLimit)
    {
      while |sends| < workerLimit
        invariant LaunchAll(View(), workerLimit) == LaunchAll(old(View()), workerLimit)
        decreases |ready|
      {
        if ready == [] { break; }
        LaunchNext();
      }
    }

    method Settle(index: nat, outcome: Outcome, now: nat)
      requires index < |sends|
      modifies this
      ensures View() == Finish(old(View()), index, outcome, now)
    {
      var delivery := sends[index];
      var key := delivery.destination;
      sends := sends[..index] + sends[index + 1..];
      match outcome {
        case RetryAfter(delay) =>
          delayed := delayed + [Delayed(now + delay, delivery.(attempt := SaturatingIncrement(delivery.attempt)))];
        case _ =>
          settled := settled + [Settlement(delivery, Tries(View(), key))];
          tries := tries[key := 0];
          active := active - {key};
          if key in lanes && lanes[key] != [] {
            ready := ready + [key];
          } else {
            lanes := lanes - {key};
          }
      }
    }

    method Enqueue(delivery: Delivery)
      modifies this
      ensures View() == Accept(old(View()), delivery)
    {
      var key := delivery.destination;
      var lane := (if key in lanes then lanes[key] else []) + [delivery];
      lanes := lanes[key := lane];
      accepted := accepted + [delivery];
      if key !in active && |lane| == 1 { ready := ready + [key]; }
    }

    /** One pass of the loop; `exit` says whether the dispatcher returns at its end. */
    method Pass(choice: Choice) returns (exit: bool)
      requires Enabled(Scheduled(View(), choice.now, workerLimit), choice.branch)
      modifies this
      ensures View() == Iterate(old(View()), choice.now, workerLimit, choice.branch)
      ensures exit <==> Exits(View(), choice.branch)
    {
      WakeDueDeliveries(choice.now);
      LaunchReady();
      match choice.branch {
        case Shutdown => return true;
        case Completed(index, outcome, now) => Settle(index, outcome, now);
        case Received(delivery) => Enqueue(delivery);
        case Closed => incomingOpen := false; return false;
        case _ =>
      }
      exit := !incomingOpen && sends == [] && delayed == [] && lanes == map[];
    }

    /** The loop of the dispatcher, driven by the choices of its environment. */
    method RunLoop(choices: seq<Choice>) returns (taken: nat, exit: bool)
      requires View() == INITIAL && Legal(View(), workerLimit, choices)
      modifies this
      ensures taken <= |choices| && Legal(INITIAL, workerLimit, choices[..taken])
      ensures View() == Run(INITIAL, workerLimit, choices[..taken])
      ensures exit ==> taken > 0 && Exits(View(), choices[taken - 1].branch)
      ensures !exit ==> taken == |choices|
    {
      taken, exit := 0, false;
      while taken < |choices| && !exit
        invariant taken <= |choices| && Legal(INITIAL, workerLimit, choices[..taken])
        invariant View() == Run(INITIAL, workerLimit, choices[..taken])
        invariant Legal(View(), workerLimit, choices[taken..])
        invariant exit ==> taken > 0 && Exits(View(), choices[taken - 1].branch)
        decreases |choices| - taken, !exit
      {
        assert choices[taken..][0] == choices[taken] && choices[taken..][1..] == choices[taken + 1..];
        RunSnoc(INITIAL, workerLimit, choices[..taken], choices[taken]);
        assert choices[..taken + 1] == choices[..taken] + [choices[taken]];
        exit := Pass(choices[taken]);
        taken := taken + 1;
      }
      assert choices[..|choices|] == choices;
    }
  }

  lemma {:induction false} RunSnoc(s: State, limit: nat, choices: seq<Choice>, last: Choice)
    requires Legal(s, limit, choices)
    requires Enabled(Scheduled(Run(s, limit, choices), last.now, limit), last.branch)
    ensures Legal(s, limit, choices + [last])
    ensures Run(s, limit, choices + [last]) == Iterate(Run(s, limit, choices), last.now, limit, last.branch)
    decreases |choices|
  {
    if choices == [] {
      assert (choices + [last])[1..] == [];
    } else {
      RunSnoc(Iterate(s, choices[0].now, limit, choices[0].branch), limit, choices[1..], last);
      assert (choices + [last])[1..] == choices[1..] + [last];
    }
  }
}
