/** The relay's route table: one route per peer, replaced by generation, with bounded queues.

    A connection is known by the generation it was registered under. Receiving is three steps, because the
    connection may be replaced while it waits and again before it hands the frame on; a call that waits may
    also be dropped. */
module Relay {
  import opened Wrappers

  type Generation = nat

  datatype Key = Key(installation: string, authority: string, peer: string)

  datatype Frame = Frame(installation: string, source: string, destination: string, payload: string)

  /** A frame in a queue, with the route it was accepted from. */
  datatype Delivery = Delivery(frame: Frame, sender: Key)

  datatype Receiving = Resting | Waiting | Holding(delivery: Delivery)

  /** `queue` is the bounded channel; `accepted` and `received` are history. A dropped connection has lost
      its receiver. */
  datatype Connection = Connection(
    key: Key,
    queue: seq<Delivery>,
    receiving: Receiving,
    dropped: bool,
    accepted: seq<Delivery>,
    received: seq<Delivery>)

  datatype Router = Router(
    capacity: nat,
    next: nat,
    routes: map<Key, Generation>,
    connections: map<Generation, Connection>)

  datatype Refusal =
    | Unauthorized
    | InvalidSignature
    | InvalidFrame
    | SourceMismatch
    | ConnectionReplaced
    | DestinationOffline
    | DestinationBusy

  /** What one poll of a waiting call gives. */
  datatype Poll = Pending | Ready(frame: Option<Frame>)

  datatype Step =
    | Register(key: Key, enrolled: bool, signed: bool)
    | Send(connection: Generation, frame: Frame, wellFormed: bool)
    | BeginReceive(connection: Generation)
    | Pop(connection: Generation)
    | EndReceive(connection: Generation)
    | CancelReceive(connection: Generation)
    | Drop(connection: Generation)

  const U64: nat := 0x1_0000_0000_0000_0000

  function Fresh(capacity: nat): Router {
    Router(capacity, 0, map[], map[])
  }

  predicate Current(r: Router, g: Generation) {
    && g in r.connections
    && r.connections[g].key in r.routes && r.routes[r.connections[g].key] == g
  }

  function NewConnection(key: Key): Connection {
    Connection(key, [], Resting, false, [], [])
  }

  function AfterRegister(r: Router, key: Key): Router {
    var g := (r.next + 1) % U64;
    r.(next := g, routes := r.routes[key := g], connections := r.connections[g := NewConnection(key)])
  }

  /** Why a frame is refused, checked in the code's order. */
  function SendRefused(r: Router, g: Generation, frame: Frame, wellFormed: bool): Option<Refusal>
    requires g in r.connections
  {
    var from := r.connections[g].key;
    var to := Key(frame.installation, from.authority, frame.destination);
    if !wellFormed then Some(InvalidFrame)
    else if frame.installation != from.installation || frame.source != from.peer then Some(SourceMismatch)
    else if !Current(r, g) then Some(ConnectionReplaced)
    else if to !in r.routes || r.routes[to] !in r.connections then Some(DestinationOffline)
    else if r.connections[r.routes[to]].dropped then Some(DestinationOffline)
    else if |r.connections[r.routes[to]].queue| >= r.capacity then Some(DestinationBusy)
    else None
  }

  function Accepting(c: Connection, d: Delivery): Connection {
    c.(queue := c.queue + [d], accepted := c.accepted + [d])
  }

  function AfterSend(r: Router, g: Generation, frame: Frame): Router
    requires g in r.connections && SendRefused(r, g, frame, true) == None
  {
    var from := r.connections[g].key;
    var to := r.routes[Key(frame.installation, from.authority, frame.destination)];
    r.(connections := r.connections[to := Accepting(r.connections[to], Delivery(frame, from))])
  }

  /** Waiting ends with the oldest frame, or with nothing once the route's sender is gone. */
  function AfterPop(c: Connection): Connection {
    if c.queue == [] then c.(receiving := Resting) else c.(queue := c.queue[1..], receiving := Holding(c.queue[0]))
  }

  function AfterReceive(c: Connection, current: bool): Connection
    requires c.receiving.Holding?
  {
    if current then c.(receiving := Resting, received := c.received + [c.receiving.delivery])
    else c.(receiving := Resting)
  }

  predicate Enabled(r: Router, step: Step) {
    match step
    case Register(_, _, _) => true
    case Send(g, _, _) => g in r.connections && !r.connections[g].dropped
    case BeginReceive(g) => g in r.connections && !r.connections[g].dropped && r.connections[g].receiving == Resting
    case Pop(g) =>
      && g in r.connections && !r.connections[g].dropped && r.connections[g].receiving == Waiting
      && (r.connections[g].queue != [] || !Current(r, g))
    case EndReceive(g) => g in r.connections && !r.connections[g].dropped && r.connections[g].receiving.Holding?
    case CancelReceive(g) => g in r.connections && !r.connections[g].dropped && r.connections[g].receiving == Waiting
    case Drop(g) => g in r.connections && !r.connections[g].dropped
  }

  function Do(r: Router, step: Step): Router
    requires Enabled(r, step)
  {
    match step
    case Register(key, enrolled, signed) => if enrolled && signed then AfterRegister(r, key) else r
    case Send(g, frame, wellFormed) => if SendRefused(r, g, frame, wellFormed).Some? then r else AfterSend(r, g, frame)
    case BeginReceive(g) =>
      if Current(r, g) then r.(connections := r.connections[g := r.connections[g].(receiving := Waiting)]) else r
    case Pop(g) => r.(connections := r.connections[g := AfterPop(r.connections[g])])
    case EndReceive(g) => r.(connections := r.connections[g := AfterReceive(r.connections[g], Current(r, g))])
    case CancelReceive(g) => r.(connections := r.connections[g := r.connections[g].(receiving := Resting)])
    case Drop(g) =>
      var gone := r.(connections := r.connections[g := r.connections[g].(dropped := true, queue := [], receiving := Resting)]);
      if Current(r, g) then gone.(routes := r.routes - {r.connections[g].key}) else gone
  }

  predicate Legal(r: Router, steps: seq<Step>)
    decreases |steps|
  {
    steps == [] || (Enabled(r, steps[0]) && Legal(Do(r, steps[0]), steps[1..]))
  }

  function Run(r: Router, steps: seq<Step>): Router
    requires Legal(r, steps)
    decreases |steps|
  {
    if steps == [] then r else Run(Do(r, steps[0]), steps[1..])
  }

  // ---------------------------------------------------------------- what every step keeps

  function InHand(c: Connection): seq<Delivery> {
    if c.receiving.Holding? then [c.receiving.delivery] else []
  }

  /** The frames of one connection: its own peer's, from its own authority, at most `capacity` waiting;
      while it is current, what it accepted is what it received, holds and has queued. */
  predicate Sound(c: Connection, capacity: nat, current: bool) {
    && |c.queue| <= capacity
    && c.received <= c.accepted
    && (current ==> !c.dropped && c.accepted == c.received + InHand(c) + c.queue)
    && (forall d :: d in c.accepted ==>
          && d.frame.installation == c.key.installation && d.frame.destination == c.key.peer
          && d.sender == Key(c.key.installation, c.key.authority, d.frame.source))
  }

  predicate Inv(r: Router) {
    && (forall key :: key in r.routes ==> r.routes[key] in r.connections && r.connections[r.routes[key]].key == key)
    && (forall g :: g in r.connections ==> 1 <= g <= r.next)
    && (forall g :: g in r.connections ==> Sound(r.connections[g], r.capacity, Current(r, g)))
  }

  lemma UpdateKeeps(r: Router, g: Generation, c: Connection)
    requires Inv(r) && g in r.connections && c.key == r.connections[g].key && Sound(c, r.capacity, Current(r, g))
    ensures Inv(r.(connections := r.connections[g := c]))
    ensures forall h :: h in r.connections ==> (Current(r.(connections := r.connections[g := c]), h) <==> Current(r, h))
  {
    hide Sound;
  }

  lemma AcceptSound(c: Connection, d: Delivery, capacity: nat)
    requires Sound(c, capacity, true) && |c.queue| < capacity
    requires d.frame.installation == c.key.installation && d.frame.destination == c.key.peer
    requires d.sender == Key(c.key.installation, c.key.authority, d.frame.source)
    ensures Sound(Accepting(c, d), capacity, true)
  {
  }

  lemma PopSound(c: Connection, capacity: nat, current: bool)
    requires Sound(c, capacity, current) && c.receiving == Waiting
    ensures Sound(AfterPop(c), capacity, current)
  {
  }

  lemma ReceiveSound(c: Connection, capacity: nat, current: bool)
    requires Sound(c, capacity, current) && c.receiving.Holding?
    ensures Sound(AfterReceive(c, current), capacity, current)
  {
  }

  lemma RegisterKeeps(r: Router, key: Key)
    requires Inv(r) && r.next + 1 < U64
    ensures Inv(AfterRegister(r, key))
    ensures forall h :: h in r.connections && !Current(r, h) ==> !Current(AfterRegister(r, key), h)
  {
    hide Sound;
    var after := AfterRegister(r, key);
    var g := r.next + 1;
    assert Sound(NewConnection(key), r.capacity, true) by { NewSound(key, r.capacity); }
    forall h | h in after.connections ensures Sound(after.connections[h], r.capacity, Current(after, h)) {
      if h != g {
        assert Current(after, h) ==> Current(r, h);
        if Current(r, h) && !Current(after, h) { ReplacedSound(r.connections[h], r.capacity); }
      }
    }
  }

  lemma NewSound(key: Key, capacity: nat)
    ensures Sound(NewConnection(key), capacity, true)
  {
  }

  lemma ReplacedSound(c: Connection, capacity: nat)
    requires Sound(c, capacity, true)
    ensures Sound(c, capacity, false)
  {
  }

  lemma SendKeeps(r: Router, g: Generation, frame: Frame)
    requires Inv(r) && g in r.connections && SendRefused(r, g, frame, true) == None
    ensures Inv(AfterSend(r, g, frame))
    ensures forall h :: h in r.connections ==> (Current(AfterSend(r, g, frame), h) <==> Current(r, h))
  {
    hide Sound;
    var from := r.connections[g].key;
    var to := r.routes[Key(frame.installation, from.authority, frame.destination)];
    assert Current(r, to);
    AcceptSound(r.connections[to], Delivery(frame, from), r.capacity);
    UpdateKeeps(r, to, Accepting(r.connections[to], Delivery(frame, from)));
  }

  lemma DroppedSound(c: Connection, capacity: nat, current: bool)
    requires Sound(c, capacity, current)
    ensures Sound(c.(dropped := true, queue := [], receiving := Resting), capacity, false)
  {
  }

  lemma DropKeeps(r: Router, g: Generation)
    requires Inv(r) && Enabled(r, Drop(g))
    ensures Inv(Do(r, Drop(g)))
    ensures forall h :: h in r.connections && !Current(r, h) ==> !Current(Do(r, Drop(g)), h)
  {
    hide Sound;
    var after := Do(r, Drop(g));
    DroppedSound(r.connections[g], r.capacity, Current(r, g));
    forall h | h in after.connections ensures Sound(after.connections[h], r.capacity, Current(after, h)) {
      if h != g { assert Current(after, h) <==> Current(r, h); }
    }
  }

  lemma StepKeeps(r: Router, step: Step)
    requires Inv(r) && Enabled(r, step) && r.next + 1 < U64
    ensures Inv(Do(r, step)) && Do(r, step).next <= r.next + 1 && Do(r, step).capacity == r.capacity
    ensures forall h :: h in r.connections ==> h in Do(r, step).connections && Do(r, step).connections[h].key == r.connections[h].key
    ensures forall h :: h in r.connections && !Current(r, h) ==> !Current(Do(r, step), h)
  {
    hide Sound, Inv;
    match step
    case Register(key, enrolled, signed) =>
      if enrolled && signed {
        RegisterKeeps(r, key);
        FreshGeneration(r);
      }
    case Send(g, frame, wellFormed) =>
      if SendRefused(r, g, frame, wellFormed).None? { SendKeeps(r, g, frame); }
    case BeginReceive(g) =>
      if Current(r, g) {
        WaitingSound(r, g);
        UpdateKeeps(r, g, r.connections[g].(receiving := Waiting));
      }
    case Pop(g) =>
      SoundAt(r, g);
      PopSound(r.connections[g], r.capacity, Current(r, g));
      UpdateKeeps(r, g, AfterPop(r.connections[g]));
    case EndReceive(g) =>
      SoundAt(r, g);
      ReceiveSound(r.connections[g], r.capacity, Current(r, g));
      UpdateKeeps(r, g, AfterReceive(r.connections[g], Current(r, g)));
    case CancelReceive(g) =>
      RestingSound(r, g);
      UpdateKeeps(r, g, r.connections[g].(receiving := Resting));
    case Drop(g) => DropKeeps(r, g);
  }

  lemma SoundAt(r: Router, g: Generation)
    requires Inv(r) && g in r.connections
    ensures Sound(r.connections[g], r.capacity, Current(r, g))
  {
  }

  lemma WaitingSound(r: Router, g: Generation)
    requires Inv(r) && g in r.connections && r.connections[g].receiving == Resting
    ensures Sound(r.connections[g].(receiving := Waiting), r.capacity, Current(r, g))
  {
  }

  lemma RestingSound(r: Router, g: Generation)
    requires Inv(r) && g in r.connections && r.connections[g].receiving == Waiting
    ensures Sound(r.connections[g].(receiving := Resting), r.capacity, Current(r, g))
  {
  }

  lemma FreshGeneration(r: Router)
    requires Inv(r)
    ensures r.next + 1 !in r.connections
  {
  }

  lemma {:induction false} RunKeeps(r: Router, steps: seq<Step>)
    requires Inv(r) && Legal(r, steps) && r.next + |steps| < U64
    ensures Inv(Run(r, steps)) && Run(r, steps).capacity == r.capacity
    ensures forall h :: h in r.connections ==> h in Run(r, steps).connections
    ensures forall h :: h in r.connections && !Current(r, h) ==> !Current(Run(r, steps), h)
    decreases |steps|
  {
    hide Inv, Do, Enabled, Current;
    if steps != [] {
      StepKeeps(r, steps[0]);
      RunKeeps(Do(r, steps[0]), steps[1..]);
    }
  }

  // ---------------------------------------------------------------- over whole runs

  /** What a connection has received is a prefix of what its own generation accepted, all of it addressed
      to its peer within its installation and authority; at most `capacity` frames wait; and while it is
      current nothing that was accepted is missing. */
  lemma ReceivedIsPrefix(capacity: nat, steps: seq<Step>, g: Generation)
    requires Legal(Fresh(capacity), steps) && |steps| < U64
    requires g in Run(Fresh(capacity), steps).connections
    ensures var r := Run(Fresh(capacity), steps);
            var c := r.connections[g];
            && c.received <= c.accepted && |c.queue| <= capacity
            && (forall d :: d in c.received ==>
                  d.frame.installation == c.key.installation && d.frame.destination == c.key.peer
                  && d.sender.authority == c.key.authority && d.sender.installation == c.key.installation
                  && d.sender.peer == d.frame.source)
            && (Current(r, g) ==> c.accepted == c.received + InHand(c) + c.queue)
  {
    hide Legal, Run;
    RunKeeps(Fresh(capacity), steps);
    var c := Run(Fresh(capacity), steps).connections[g];
    assert forall d :: d in c.received ==> d in c.accepted;
  }

  /** Dropping a waiting call loses no frame: its queue and history stay, and on a current connection the next
      call waits exactly where the dropped one did. */
  lemma CancelLosesNothing(r: Router, g: Generation)
    requires Enabled(r, CancelReceive(g))
    ensures var after := Do(r, CancelReceive(g));
            && after.connections[g].queue == r.connections[g].queue && Frozen(r.connections[g], after.connections[g])
            && (Current(r, g) ==> Enabled(after, BeginReceive(g)) && Do(after, BeginReceive(g)) == r)
            && (forall h :: h in r.connections && h != g ==> after.connections[h] == r.connections[h])
  {
    var after := Do(r, CancelReceive(g));
    assert r.connections[g].(receiving := Resting).(receiving := Waiting) == r.connections[g];
    assert after.connections[g := r.connections[g]] == r.connections;
  }

  /** Everything about one connection that another party can see. */
  predicate Frozen(before: Connection, after: Connection) {
    after.accepted == before.accepted && after.received == before.received && after.key == before.key
  }

  lemma ReplacedStep(r: Router, step: Step, g: Generation)
    requires Inv(r) && Enabled(r, step) && r.next + 1 < U64 && g in r.connections && !Current(r, g)
    ensures g in Do(r, step).connections && Frozen(r.connections[g], Do(r, step).connections[g])
    ensures step.Send? && step.connection == g ==> Do(r, step) == r
    ensures step == Drop(g) ==> Do(r, step).routes == r.routes
  {
    hide Sound;
  }

  /** A connection that has been replaced stays replaced: for the rest of the run it accepts and receives
      nothing, whatever it or its successor does. */
  lemma {:induction false} ReplacedIsFrozen(r: Router, steps: seq<Step>, g: Generation)
    requires Inv(r) && Legal(r, steps) && r.next + |steps| < U64 && g in r.connections && !Current(r, g)
    ensures g in Run(r, steps).connections && !Current(Run(r, steps), g)
    ensures Frozen(r.connections[g], Run(r, steps).connections[g])
    decreases |steps|
  {
    hide Inv, Do, Enabled, Current;
    if steps != [] {
      ReplacedStep(r, steps[0], g);
      StepKeeps(r, steps[0]);
      ReplacedIsFrozen(Do(r, steps[0]), steps[1..], g);
    }
  }

  /** Registering a peer again replaces its connection at once and for good: from then on the older one
      accepts and receives nothing, and the newer one is its peer's only current connection. */
  lemma RegisteringReplaces(r: Router, key: Key, steps: seq<Step>, g: Generation)
    requires Inv(r) && r.next + 1 + |steps| < U64 && g in r.connections && r.connections[g].key == key
    requires Legal(AfterRegister(r, key), steps)
    ensures var after := Run(AfterRegister(r, key), steps);
            && g in after.connections && !Current(after, g) && Frozen(r.connections[g], after.connections[g])
    ensures Current(AfterRegister(r, key), r.next + 1) && r.next + 1 != g
  {
    hide Sound, Run, Legal, Frozen;
    RegisterKeeps(r, key);
    FreshGeneration(r);
    assert AfterRegister(r, key).connections[g] == r.connections[g];
    ReplacedIsFrozen(AfterRegister(r, key), steps, g);
  }

  /** The shared router state; each method is one critical section or one channel operation. */
  class RelayRouter {
    var next: nat
    var routes: map<Key, Generation>
    var connections: map<Generation, Connection>
    const capacity: nat

    constructor (capacity: nat)
      requires capacity > 0
      ensures View() == Fresh(capacity) && Inv(View())
    {
      this.capacity, next, routes, connections := capacity, 0, map[], map[];
    }

    /** A router that could queue nothing is refused. */
    static method New(capacity: nat) returns (router: Option<RelayRouter>)
      ensures router.None? <==> capacity == 0
      ensures router.Some? ==> fresh(router.value) && router.value.View() == Fresh(capacity) && Inv(router.value.View())
    {
      if capacity == 0 { return None; }
      var created := new RelayRouter(capacity);
      router := Some(created);
    }

    function View(): Router
      reads this
    {
      Router(capacity, next, routes, connections)
    }

    predicate IsCurrent(g: Generation)
      reads this
      requires g in connections
      ensures IsCurrent(g) == Current(View(), g)
    {
      connections[g].key in routes && routes[connections[g].key] == g
    }

    /** The enrollment check comes before the signature; only then is the route replaced. */
    method RegisterConnection(key: Key, enrolled: bool, signed: bool) returns (refusal: Option<Refusal>)
      modifies this
      ensures View() == Do(old(View()), Register(key, enrolled, signed))
      ensures refusal == if !enrolled then Some(Unauthorized) else if !signed then Some(InvalidSignature) else None
      ensures old(Inv(View())) && old(next) + 1 < U64 ==> Inv(View()) && (refusal == None ==> Current(View(), next))
    {
      if Inv(View()) && next + 1 < U64 { StepKeeps(View(), Register(key, enrolled, signed)); }
      if !enrolled { return Some(Unauthorized); }
      if !signed { return Some(InvalidSignature); }
      next := (next + 1) % U64;
      routes := routes[key := next];
      connections := connections[next := NewConnection(key)];
      refusal := None;
    }

    method SendFrame(g: Generation, frame: Frame, wellFormed: bool) returns (refusal: Option<Refusal>)
      requires g in connections && !connections[g].dropped
      modifies this
      ensures refusal == SendRefused(old(View()), g, frame, wellFormed)
      ensures View() == Do(old(View()), Send(g, frame, wellFormed))
    {
      var from := connections[g].key;
      if !wellFormed { return Some(InvalidFrame); }
      if frame.installation != from.installation || frame.source != from.peer { return Some(SourceMismatch); }
      var key := Key(frame.installation, from.authority, frame.destination);
      if !IsCurrent(g) { return Some(ConnectionReplaced); }
      if key !in routes || routes[key] !in connections { return Some(DestinationOffline); }
      var to := routes[key];
      if connections[to].dropped { return Some(DestinationOffline); }
      if |connections[to].queue| >= capacity { return Some(DestinationBusy); }
      connections := connections[to := Accepting(connections[to], Delivery(frame, from))];
      refusal := None;
    }

    /** One poll of `receive`: it starts the call or goes on with it, and answers or is left waiting. */
    method PollReceive(g: Generation) returns (poll: Poll)
      requires g in connections && !connections[g].dropped && !connections[g].receiving.Holding?
      modifies this
      ensures var was := old(connections[g]);
              var begun := if was.receiving == Resting then Do(old(View()), BeginReceive(g)) else old(View());
              && (was.receiving == Resting && !old(IsCurrent(g)) ==> poll == Ready(None) && View() == old(View()))
              && (was.receiving == Waiting || old(IsCurrent(g)) ==>
                    && (poll == Pending <==> was.queue == [] && old(IsCurrent(g)))
                    && (poll == Pending ==> View() == begun)
                    && (poll != Pending ==> Enabled(begun, Pop(g)))
                    && (was.queue == [] && poll != Pending ==> poll == Ready(None) && View() == Do(begun, Pop(g)))
                    && (was.queue != [] ==>
                          && Enabled(Do(begun, Pop(g)), EndReceive(g)) && View() == Do(Do(begun, Pop(g)), EndReceive(g))
                          && poll == Ready(if old(IsCurrent(g)) then Some(was.queue[0].frame) else None)))
    {
      if connections[g].receiving == Resting {
        if !IsCurrent(g) { return Ready(None); }
        connections := connections[g := connections[g].(receiving := Waiting)];
      }
      if connections[g].queue == [] && IsCurrent(g) { return Pending; }
      connections := connections[g := AfterPop(connections[g])];
      if connections[g].receiving == Resting { return Ready(None); }
      var delivery := connections[g].receiving.delivery;
      if IsCurrent(g) {
        connections := connections[g := connections[g].(received := connections[g].received + [delivery])];
        poll := Ready(Some(delivery.frame));
      } else {
        poll := Ready(None);
      }
      connections := connections[g := connections[g].(receiving := Resting)];
    }

    /** Dropping a call of `receive` that is left waiting. */
    method DropReceive(g: Generation)
      requires g in connections && Enabled(View(), CancelReceive(g))
      modifies this
      ensures View() == Do(old(View()), CancelReceive(g))
    {
      connections := connections[g := connections[g].(receiving := Resting)];
    }

    method DropConnection(g: Generation)
      requires g in connections && !connections[g].dropped
      modifies this
      ensures View() == Do(old(View()), Drop(g))
      ensures !old(IsCurrent(g)) ==> routes == old(routes)
    {
      if IsCurrent(g) { routes := routes - {connections[g].key}; }
      connections := connections[g := connections[g].(dropped := true, queue := [], receiving := Resting)];
    }
  }
}
