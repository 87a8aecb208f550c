/** What holds of the delivery dispatcher over every run: one FIFO per destination with consecutive
    attempts, work-conserving scheduling, and bounded work. */
module DispatcherLaws {
  import opened DispatcherModel

  // ---------------------------------------------------------------- views of one destination

  function Clamp(n: nat): nat {
    if n > ATTEMPT_MAX then ATTEMPT_MAX else n
  }

  function Only(q: seq<Delivery>, d: Destination): seq<Delivery> {
    if q == [] then []
    else
      var last := q[|q| - 1];
      Only(q[..|q| - 1], d) + (if last.destination == d then [last] else [])
  }

  function Waiting(delayed: seq<Delayed>): (q: seq<Delivery>)
    ensures |q| == |delayed| && forall i :: 0 <= i < |q| ==> q[i] == delayed[i].delivery
  {
    seq(|delayed|, i requires 0 <= i < |delayed| => delayed[i].delivery)
  }

  /** The delivery of `d` that is in flight or delayed. */
  function Outstanding(s: State, d: Destination): seq<Delivery> {
    Only(s.sends, d) + Only(Waiting(s.delayed), d)
  }

  /** Everything of `d` the dispatcher holds, oldest first. */
  function Held(s: State, d: Destination): seq<Delivery> {
    Outstanding(s, d) + Lane(s, d)
  }

  /** A delivery as it was accepted, before any retry renumbered it. */
  function Original(x: Delivery): Delivery {
    x.(attempt := 1)
  }

  function Originals(q: seq<Delivery>): (r: seq<Delivery>)
    ensures |r| == |q| && forall i :: 0 <= i < |q| ==> r[i] == Original(q[i])
  {
    seq(|q|, i requires 0 <= i < |q| => Original(q[i]))
  }

  function SettledFor(settled: seq<Settlement>, d: Destination): seq<Delivery> {
    if settled == [] then []
    else
      var last := settled[|settled| - 1].delivery;
      SettledFor(settled[..|settled| - 1], d) + (if last.destination == d then [Original(last)] else [])
  }

  /** `n` consecutive platform calls for one delivery: attempts 1, 2, 3, ... up to the saturation. */
  function Burst(x: Delivery, n: nat): (r: seq<Delivery>)
    ensures |r| == n && forall i :: 0 <= i < n ==> r[i] == x.(attempt := Clamp(i + 1))
  {
    seq(n, i requires 0 <= i < n => x.(attempt := Clamp(i + 1)))
  }

  function BurstsFor(settled: seq<Settlement>, d: Destination): seq<Delivery> {
    if settled == [] then []
    else
      var last := settled[|settled| - 1];
      BurstsFor(settled[..|settled| - 1], d)
      + (if last.delivery.destination == d then Burst(last.delivery, last.sends) else [])
  }

  predicate InFlight(s: State, d: Destination) {
    Only(s.sends, d) != []
  }

  function One(b: bool): nat {
    if b then 1 else 0
  }

  /** How often `d` stands in the ready queue. */
  function Times(ready: seq<Destination>, d: Destination): nat {
    if ready == [] then 0 else One(ready[0] == d) + Times(ready[1..], d)
  }

  /** Everything the dispatcher's state and history say about one destination. */
  datatype Server = Server(
    accepted: seq<Delivery>,
    sent: seq<Delivery>,
    settled: seq<Delivery>,
    bursts: seq<Delivery>,
    outstanding: seq<Delivery>,
    flying: bool,
    active: bool,
    laneKept: bool,
    lane: seq<Delivery>,
    readied: nat,
    tries: nat)

  function Of(s: State, d: Destination): Server {
    Server(Only(s.accepted, d), Only(s.sent, d), SettledFor(s.settled, d), BurstsFor(s.settled, d),
           Outstanding(s, d), InFlight(s, d), d in s.active, d in s.lanes, Lane(s, d),
           Times(s.ready, d), Tries(s, d))
  }

  // ---------------------------------------------------------------- invariants

  /** A destination is active exactly while one delivery of it is in flight or delayed; it is in the
      ready queue exactly once when it is idle with work and never otherwise; and an empty lane is
      kept only while it is active. */
  predicate Tidy(v: Server, d: Destination) {
    && |v.outstanding| == One(v.active)
    && v.readied == One(!v.active && v.lane != [])
    && (v.active ==> v.laneKept)
    && (v.laneKept && v.lane == [] ==> v.active)
    && (!v.laneKept ==> v.lane == [])
    && (v.flying ==> v.active)
    && (forall i :: 0 <= i < |v.lane| ==> v.lane[i].destination == d)
    && (forall i :: 0 <= i < |v.outstanding| ==> v.outstanding[i].destination == d)
  }

  /** The accepted deliveries are exactly the settled ones, then the one outstanding, then the lane;
      the platform calls are the bursts of the settled deliveries in that order, then the calls made
      so far for the oldest one still held. */
  predicate Fifo(v: Server) {
    var held := v.outstanding + v.lane;
    && v.accepted == v.settled + Originals(held)
    && v.sent == v.bursts + (if held == [] then [] else Burst(held[0], v.tries))
    && (held == [] ==> v.tries == 0)
    && (forall i :: 1 <= i < |held| ==> held[i].attempt == 1)
    && (held != [] ==> held[0].attempt == Clamp(if v.flying then v.tries else v.tries + 1))
    && (v.flying ==> v.tries >= 1)
  }

  ghost predicate Inv(s: State, limit: nat) {
    |s.sends| <= limit && forall d :: Tidy(Of(s, d), d) && Fifo(Of(s, d))
  }

  // ---------------------------------------------------------------- one destination's moves

  function Woken(v: Server, x: Delivery): Server {
    v.(outstanding := [], active := false, readied := v.readied + 1, laneKept := true, lane := [x] + v.lane)
  }

  function Launched(v: Server): Server
    requires v.lane != [] && v.readied > 0
  {
    v.(outstanding := v.outstanding + [v.lane[0]], flying := true, active := true, readied := v.readied - 1,
       lane := v.lane[1..], sent := v.sent + [v.lane[0]], tries := v.tries + 1)
  }

  function Retried(v: Server, x: Delivery): Server {
    v.(outstanding := [x.(attempt := SaturatingIncrement(x.attempt))], flying := false)
  }

  function Terminated(v: Server, x: Delivery): Server {
    v.(outstanding := [], flying := false, active := false, settled := v.settled + [Original(x)],
       bursts := v.bursts + Burst(x, v.tries), tries := 0,
       readied := v.readied + One(v.lane != []), laneKept := v.lane != [])
  }

  function Accepted(v: Server, x: Delivery): Server {
    v.(accepted := v.accepted + [x], laneKept := true, lane := v.lane + [x],
       readied := v.readied + One(!v.active && v.lane == []))
  }

  lemma WokenKeeps(v: Server, d: Destination)
    requires Tidy(v, d) && Fifo(v) && |v.outstanding| == 1 && !v.flying
    ensures var w := Woken(v, v.outstanding[0]); Tidy(w, d) && Fifo(w)
  {
    var w := Woken(v, v.outstanding[0]);
    assert w.outstanding + w.lane == v.outstanding + v.lane;
  }

  lemma LaunchedKeeps(v: Server, d: Destination)
    requires Tidy(v, d) && Fifo(v) && v.readied > 0
    ensures Tidy(Launched(v), d) && Fifo(Launched(v))
  {
    var w := Launched(v);
    var held := v.outstanding + v.lane;
    assert w.outstanding + w.lane == held;
    assert Burst(held[0], w.tries) == Burst(held[0], v.tries) + [held[0]];
  }

  lemma RetriedKeeps(v: Server, d: Destination)
    requires Tidy(v, d) && Fifo(v) && v.flying
    ensures |v.outstanding| == 1
    ensures var w := Retried(v, v.outstanding[0]); Tidy(w, d) && Fifo(w)
  {
    var w := Retried(v, v.outstanding[0]);
    var held, kept := v.outstanding + v.lane, w.outstanding + w.lane;
    assert Originals(kept) == Originals(held);
    assert Burst(kept[0], v.tries) == Burst(held[0], v.tries);
  }

  lemma TerminatedKeeps(v: Server, d: Destination)
    requires Tidy(v, d) && Fifo(v) && v.flying
    ensures |v.outstanding| == 1
    ensures var w := Terminated(v, v.outstanding[0]); Tidy(w, d) && Fifo(w)
  {
    var x := v.outstanding[0];
    var held := v.outstanding + v.lane;
    assert held == [x] + v.lane;
    assert forall i :: 0 <= i < |v.lane| ==> v.lane[i] == held[i + 1];
    TerminatedFifo(v, x);
  }

  lemma TerminatedFifo(v: Server, x: Delivery)
    requires Fifo(v) && v.outstanding == [x]
    requires forall i :: 0 <= i < |v.lane| ==> v.lane[i].attempt == 1
    ensures Fifo(Terminated(v, x))
  {
  }

  lemma OriginalsConcat(a: seq<Delivery>, b: seq<Delivery>)
    ensures Originals(a + b) == Originals(a) + Originals(b)
  {
  }

  lemma AcceptedKeeps(v: Server, x: Delivery)
    requires Tidy(v, x.destination) && Fifo(v) && x.attempt == 1
    ensures Tidy(Accepted(v, x), x.destination) && Fifo(Accepted(v, x))
  {
    AcceptedFifo(v, x);
  }

  lemma AcceptedFifo(v: Server, x: Delivery)
    requires Fifo(v) && x.attempt == 1
    ensures Fifo(Accepted(v, x))
  {
    var w := Accepted(v, x);
    var held := v.outstanding + v.lane;
    assert w.outstanding + w.lane == held + [x];
    OriginalsConcat(held, [x]);
    assert w.accepted == w.settled + Originals(held + [x]);
    if held == [] {
      assert Burst(x, 0) == [];
    }
  }

  // ---------------------------------------------------------------- the filter

  lemma {:induction false} OnlyConcat(a: seq<Delivery>, b: seq<Delivery>, d: Destination)
    ensures Only(a + b, d) == Only(a, d) + Only(b, d)
  {
    if b == [] {
      assert a + b == a;
    } else {
      OnlyConcat(a, b[..|b| - 1], d);
      assert (a + b)[..|a + b| - 1] == a + b[..|b| - 1];
    }
  }

  lemma OnlySingle(x: Delivery, d: Destination)
    ensures Only([x], d) == if x.destination == d then [x] else []
  {
  }

  lemma OnlyAppend(q: seq<Delivery>, x: Delivery, d: Destination)
    ensures Only(q + [x], d) == Only(q, d) + if x.destination == d then [x] else []
  {
  }

  /** Three pieces: what is left when the middle one is taken out. */
  lemma OnlyPieces(a: seq<Delivery>, x: Delivery, b: seq<Delivery>, d: Destination)
    requires |Only(a + ([x] + b), d)| <= 1
    ensures Only(a + b, d) == if x.destination == d then [] else Only(a + ([x] + b), d)
    ensures x.destination == d ==> Only(a + ([x] + b), d) == [x]
  {
    OnlyConcat(a, [x] + b, d);
    OnlyConcat([x], b, d);
    OnlyConcat(a, b, d);
    OnlySingle(x, d);
  }

  lemma OnlyRemove(q: seq<Delivery>, i: nat, d: Destination)
    requires i < |q|
    requires |Only(q, d)| <= 1
    ensures Only(q[..i] + q[i + 1..], d) == if q[i].destination == d then [] else Only(q, d)
    ensures q[i].destination == d ==> Only(q, d) == [q[i]]
  {
    hide Only;
    assert q == q[..i] + ([q[i]] + q[i + 1..]);
    OnlyPieces(q[..i], q[i], q[i + 1..], d);
  }

  /** With at most one match, moving an element does not change the filter. */
  lemma OnlyRotate(a: seq<Delivery>, x: Delivery, b: seq<Delivery>, d: Destination)
    requires |Only(a + (b + [x]), d)| <= 1
    ensures Only(a + ([x] + b), d) == Only(a + (b + [x]), d)
  {
    OnlyConcat(a, b + [x], d);
    OnlyConcat(b, [x], d);
    OnlyConcat(a, [x] + b, d);
    OnlyConcat([x], b, d);
    var p, q, r := Only(a, d), Only(b, d), Only([x], d);
    assert |p| + |q| + |r| <= 1;
    assert p + (r + q) == p + (q + r);
  }

  lemma SwapRemoveSplit(q: seq<Delivery>, i: nat)
    requires i < |q| - 1
    ensures var a, b, last := q[..i], q[i + 1..|q| - 1], q[|q| - 1];
            && q[..i] + q[i + 1..] == a + (b + [last])
            && SwapRemove(q, i) == a + ([last] + b)
  {
  }

  lemma OnlySwapRemove(q: seq<Delivery>, i: nat, d: Destination)
    requires i < |q|
    requires |Only(q, d)| <= 1
    ensures Only(SwapRemove(q, i), d) == if q[i].destination == d then [] else Only(q, d)
    ensures q[i].destination == d ==> Only(q, d) == [q[i]]
  {
    OnlyRemove(q, i, d);
    if i == |q| - 1 {
      assert q[..i] + q[i + 1..] == SwapRemove(q, i);
    } else {
      SwapRemoveSplit(q, i);
      OnlyRotate(q[..i], q[|q| - 1], q[i + 1..|q| - 1], d);
    }
  }

  // ---------------------------------------------------------------- the moves, seen by one destination

  lemma {:induction false} TimesPush(ready: seq<Destination>, key: Destination, d: Destination)
    ensures Times(ready + [key], d) == Times(ready, d) + One(key == d)
  {
    if ready == [] {
      assert ready + [key] == [key];
    } else {
      TimesPush(ready[1..], key, d);
      assert (ready + [key])[1..] == ready[1..] + [key];
    }
  }

  lemma WakeOutstanding(s: State, index: nat, d: Destination)
    requires index < |s.delayed| && |Outstanding(s, d)| <= 1
    ensures var x := s.delayed[index].delivery;
            var t := Wake(s, index);
            if x.destination == d then
              Outstanding(s, d) == [x] && Outstanding(t, d) == [] && !InFlight(s, d) && !InFlight(t, d)
            else
              Outstanding(t, d) == Outstanding(s, d) && InFlight(t, d) == InFlight(s, d)
  {
    hide Only;
    OnlySwapRemove(Waiting(s.delayed), index, d);
    assert Waiting(Wake(s, index).delayed) == SwapRemove(Waiting(s.delayed), index);
  }

  lemma WakeOf(s: State, index: nat, d: Destination)
    requires index < |s.delayed| && |Outstanding(s, d)| <= 1
    ensures var x := s.delayed[index].delivery;
            if x.destination == d then
              Outstanding(s, d) == [x] && !InFlight(s, d) && Of(Wake(s, index), d) == Woken(Of(s, d), x)
            else
              Of(Wake(s, index), d) == Of(s, d)
  {
    hide Only, SettledFor, BurstsFor, Times;
    var key := s.delayed[index].delivery.destination;
    TimesPush(s.ready, key, d);
    WakeOutstanding(s, index, d);
  }

  lemma LaunchOutstanding(s: State, d: Destination)
    requires s.ready != [] && s.ready[0] !in s.active && Lane(s, s.ready[0]) != []
    requires |Outstanding(s, s.ready[0])| == 0 && Lane(s, s.ready[0])[0].destination == s.ready[0]
    ensures var x := Lane(s, s.ready[0])[0];
            var t := Launch(s);
            if s.ready[0] == d then
              Outstanding(t, d) == Outstanding(s, d) + [x] && InFlight(t, d) && Only(t.sent, d) == Only(s.sent, d) + [x]
            else
              Outstanding(t, d) == Outstanding(s, d) && InFlight(t, d) == InFlight(s, d) && Only(t.sent, d) == Only(s.sent, d)
  {
    hide Only;
    var x := Lane(s, s.ready[0])[0];
    OnlyAppend(s.sends, x, d);
    OnlyAppend(s.sent, x, d);
  }

  lemma LaunchOf(s: State, d: Destination)
    requires s.ready != [] && Tidy(Of(s, s.ready[0]), s.ready[0])
    ensures s.ready[0] !in s.active && Lane(s, s.ready[0]) != []
    ensures if s.ready[0] == d then Of(s, d).readied > 0 && Of(Launch(s), d) == Launched(Of(s, d))
            else Of(Launch(s), d) == Of(s, d)
  {
    hide Only, SettledFor, BurstsFor;
    LaunchOutstanding(s, d);
  }

  lemma SettledAppend(settled: seq<Settlement>, x: Settlement, d: Destination)
    ensures SettledFor(settled + [x], d)
            == SettledFor(settled, d) + if x.delivery.destination == d then [Original(x.delivery)] else []
    ensures BurstsFor(settled + [x], d)
            == BurstsFor(settled, d) + if x.delivery.destination == d then Burst(x.delivery, x.sends) else []
  {
  }

  /** Taking the answered call out of the set of sends. */
  lemma FinishOutstanding(s: State, index: nat, outcome: Outcome, now: nat, d: Destination)
    requires index < |s.sends| && |Outstanding(s, d)| <= 1
    ensures var x := s.sends[index];
            var t := Finish(s, index, outcome, now);
            if x.destination == d then
              && Outstanding(s, d) == [x] && InFlight(s, d) && !InFlight(t, d)
              && Outstanding(t, d) == if outcome.RetryAfter? then [x.(attempt := SaturatingIncrement(x.attempt))] else []
            else
              Outstanding(t, d) == Outstanding(s, d) && InFlight(t, d) == InFlight(s, d)
  {
    hide Only;
    OnlyRemove(s.sends, index, d);
    var t := Finish(s, index, outcome, now);
    var q := Waiting(s.delayed);
    if outcome.RetryAfter? {
      var retry := t.delayed[|t.delayed| - 1].delivery;
      assert Waiting(t.delayed) == q + [retry];
      OnlyAppend(q, retry, d);
    }
  }

  lemma FinishOf(s: State, index: nat, outcome: Outcome, now: nat, d: Destination)
    requires index < |s.sends| && |Outstanding(s, d)| <= 1
    requires Tidy(Of(s, s.sends[index].destination), s.sends[index].destination)
    ensures var x := s.sends[index];
            var v, w := Of(s, d), Of(Finish(s, index, outcome, now), d);
            if x.destination == d then
              && v.outstanding == [x] && v.flying
              && w == if outcome.RetryAfter? then Retried(v, x) else Terminated(v, x)
            else w == v
  {
    hide Only, SettledFor, BurstsFor, Times;
    var x := s.sends[index];
    FinishOutstanding(s, index, outcome, now, d);
    FinishOutstanding(s, index, outcome, now, x.destination);
    TimesPush(s.ready, x.destination, d);
    SettledAppend(s.settled, Settlement(x, Tries(s, x.destination)), d);
  }

  lemma AcceptOf(s: State, x: Delivery, d: Destination)
    ensures Of(Accept(s, x), d) == if x.destination == d then Accepted(Of(s, d), x) else Of(s, d)
  {
    hide Only, SettledFor, BurstsFor, Times;
    TimesPush(s.ready, x.destination, d);
    OnlyAppend(s.accepted, x, d);
  }

  // ---------------------------------------------------------------- every run

  lemma WakeInv(s: State, index: nat, limit: nat)
    requires Inv(s, limit) && index < |s.delayed|
    ensures Inv(Wake(s, index), limit)
  {
    hide Only, SettledFor, BurstsFor, Times;
    forall d ensures Tidy(Of(Wake(s, index), d), d) && Fifo(Of(Wake(s, index), d)) {
      assert Tidy(Of(s, d), d) && Fifo(Of(s, d));
      WakeOf(s, index, d);
      if s.delayed[index].delivery.destination == d {
        WokenKeeps(Of(s, d), d);
      }
    }
  }

  lemma LaunchInv(s: State, limit: nat)
    requires Inv(s, limit) && s.ready != [] && |s.sends| < limit
    ensures Inv(Launch(s), limit)
  {
    hide Only, SettledFor, BurstsFor, Times;
    var key := s.ready[0];
    assert Tidy(Of(s, key), key);
    forall d ensures Tidy(Of(Launch(s), d), d) && Fifo(Of(Launch(s), d)) {
      assert Tidy(Of(s, d), d) && Fifo(Of(s, d));
      LaunchOf(s, d);
      if key == d {
        LaunchedKeeps(Of(s, d), d);
      }
    }
  }

  lemma FinishInv(s: State, index: nat, outcome: Outcome, now: nat, limit: nat)
    requires Inv(s, limit) && index < |s.sends|
    ensures Inv(Finish(s, index, outcome, now), limit)
  {
    hide Only, SettledFor, BurstsFor, Times;
    var t := Finish(s, index, outcome, now);
    var key := s.sends[index].destination;
    assert Tidy(Of(s, key), key);
    forall d ensures Tidy(Of(t, d), d) && Fifo(Of(t, d)) {
      assert Tidy(Of(s, d), d) && Fifo(Of(s, d));
      FinishOf(s, index, outcome, now, d);
      if key == d {
        RetriedKeeps(Of(s, d), d);
        TerminatedKeeps(Of(s, d), d);
      }
    }
  }

  lemma AcceptInv(s: State, x: Delivery, limit: nat)
    requires Inv(s, limit) && x.attempt == 1
    ensures Inv(Accept(s, x), limit)
  {
    hide Only, SettledFor, BurstsFor, Times;
    forall d ensures Tidy(Of(Accept(s, x), d), d) && Fifo(Of(Accept(s, x), d)) {
      assert Tidy(Of(s, d), d) && Fifo(Of(s, d));
      AcceptOf(s, x, d);
      if x.destination == d {
        AcceptedKeeps(Of(s, d), x);
      }
    }
  }

  lemma {:induction false} WakeDueInv(s: State, index: nat, now: nat, limit: nat)
    requires Inv(s, limit)
    ensures Inv(WakeDue(s, index, now), limit)
    ensures forall i :: index <= i < |WakeDue(s, index, now).delayed| ==> WakeDue(s, index, now).delayed[i].due > now
    ensures index <= |s.delayed| ==>
              && index <= |WakeDue(s, index, now).delayed|
              && WakeDue(s, index, now).delayed[..index] == s.delayed[..index]
    decreases |s.delayed| - index
  {
    hide Inv;
    if index >= |s.delayed| {
    } else if s.delayed[index].due <= now {
      WakeInv(s, index, limit);
      WakeDueInv(Wake(s, index), index, now, limit);
    } else {
      WakeDueInv(s, index + 1, now, limit);
      var t := WakeDue(s, index + 1, now);
      assert t.delayed[index] == t.delayed[..index + 1][index];
      assert t.delayed[..index] == t.delayed[..index + 1][..index];
      assert s.delayed[..index] == s.delayed[..index + 1][..index];
    }
  }

  lemma {:induction false} LaunchAllInv(s: State, limit: nat)
    requires Inv(s, limit)
    ensures Inv(LaunchAll(s, limit), limit)
    ensures |LaunchAll(s, limit).sends| >= limit || LaunchAll(s, limit).ready == []
    decreases |s.ready|
  {
    if |s.sends| < limit && s.ready != [] {
      LaunchInv(s, limit);
      LaunchAllInv(Launch(s), limit);
    }
  }

  lemma IterateInv(s: State, now: nat, limit: nat, b: Branch)
    requires Inv(s, limit)
    requires Enabled(Scheduled(s, now, limit), b)
    ensures Inv(Scheduled(s, now, limit), limit)
    ensures Inv(Iterate(s, now, limit, b), limit)
  {
    hide Only, SettledFor, BurstsFor, Times, LaunchAll, WakeDue;
    WakeDueInv(s, 0, now, limit);
    LaunchAllInv(WakeDue(s, 0, now), limit);
    var t := Scheduled(s, now, limit);
    match b {
      case Completed(index, outcome, when) => FinishInv(t, index, outcome, when, limit);
      case Received(x) => AcceptInv(t, x, limit);
      case Closed =>
        forall d ensures Of(t.(incomingOpen := false), d) == Of(t, d) {}
      case _ =>
    }
  }

  lemma InitialInv(limit: nat)
    ensures Inv(INITIAL, limit)
  {
  }

  lemma {:induction false} RunInv(s: State, limit: nat, choices: seq<Choice>)
    requires Inv(s, limit) && Legal(s, limit, choices)
    ensures Inv(Run(s, limit, choices), limit)
    decreases |choices|
  {
    hide Inv;
    if choices != [] {
      var c := choices[0];
      IterateInv(s, c.now, limit, c.branch);
      RunInv(Iterate(s, c.now, limit, c.branch), limit, choices[1..]);
    }
  }
}
