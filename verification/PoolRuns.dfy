/** The main results about the running pool: what holds after any interleaving of requests, cancellations,
    drops, evictions, idle timeouts, failed starts and worker threads. */
module PoolRuns {
  import opened Wrappers
  import opened PoolTable
  import opened PoolDecisions
  import opened PoolModel
  import opened PoolLaws
  import opened PoolSteps
  import opened PoolDecides

  lemma StepKeeps(p: Pool, step: Step)
    requires Inv(p) && Enabled(p, step) && p.table.nextGeneration + 1 < U64
    ensures Inv(Do(p, step))
    ensures Do(p, step).table.nextGeneration <= p.table.nextGeneration + 1
  {
    hide Inv, TryWorker, CanDecide;
    match step
    case Arrive(r, fp, key) => ArriveKeeps(p, r, fp, key);
    case Caller(r, ask) => CallerKeeps(p, r, ask);
    case Acquire(r) => AcquireKeeps(p, r);
    case Read(g, slot) => ReadKeeps(p, g, slot);
    case Decide(order, starts) => DecideKeeps(p, order, starts); DecideNext(p, order, starts);
    case BeginSend(r) => BeginKeeps(p, r);
    case Push(r) => PushKeeps(p, r);
    case Thread(g, work) => ThreadKeeps(p, g, work);
    case NotifyAll(g) => NotifyKeeps(p, g);
    case Remove(g) => RemoveKeeps(p, g);
  }

  lemma DecideNext(p: Pool, order: seq<Fingerprint>, starts: bool)
    requires CanDecide(p, order, starts) && p.table.nextGeneration + 1 < U64
    ensures AfterDecide(p, order, starts).table.nextGeneration <= p.table.nextGeneration + 1
  {
    hide TryWorker;
    var q := p.requests[p.lock.value.0];
    NextAfter(p.table, p.limits, q.fingerprint, q.key, p.lock.value.1.(order := order), starts);
  }

  lemma {:induction false} RunKeeps(p: Pool, steps: seq<Step>)
    requires Inv(p) && Legal(p, steps) && p.table.nextGeneration + |steps| < U64
    ensures Inv(Run(p, steps))
    decreases |steps|
  {
    hide Inv, Do, Enabled;
    if steps != [] {
      StepKeeps(p, steps[0]);
      RunKeeps(Do(p, steps[0]), steps[1..]);
    }
  }

  /** A run from the empty pool, short enough for its generation counter not to wrap. */
  ghost predicate Reaches(perFingerprint: nat, total: nat, steps: seq<Step>) {
    Legal(InitialPool(WithLimits(perFingerprint, total)), steps) && 1 + |steps| < U64
  }

  ghost function Reached(perFingerprint: nat, total: nat, steps: seq<Step>): Pool
    requires Reaches(perFingerprint, total, steps)
  {
    Run(InitialPool(WithLimits(perFingerprint, total)), steps)
  }

  lemma ReachedInv(perFingerprint: nat, total: nat, steps: seq<Step>)
    requires Reaches(perFingerprint, total, steps)
    ensures Inv(Reached(perFingerprint, total, steps))
    ensures Reached(perFingerprint, total, steps).limits == WithLimits(perFingerprint, total)
  {
    hide Do, Enabled;
    var p := InitialPool(WithLimits(perFingerprint, total));
    assert Inv(p);
    RunKeeps(p, steps);
    LimitsStay(p, steps);
  }

  lemma {:induction false} LimitsStay(p: Pool, steps: seq<Step>)
    requires Legal(p, steps)
    ensures Run(p, steps).limits == p.limits
    decreases |steps|
  {
    hide Do, Enabled;
    if steps != [] {
      LimitsStayOnce(p, steps[0]);
      LimitsStay(Do(p, steps[0]), steps[1..]);
    }
  }

  lemma LimitsStayOnce(p: Pool, step: Step)
    requires Enabled(p, step)
    ensures Do(p, step).limits == p.limits
  {
    hide TryWorker, Covers, HasHandle;
  }

  // ---------------------------------------------------------------- the table

  /** The limits hold on the table, generations are unique and bindings stay inside their group. */
  lemma WithinLimits(perFingerprint: nat, total: nat, steps: seq<Step>)
    requires Reaches(perFingerprint, total, steps)
    ensures Bounded(Reached(perFingerprint, total, steps).table, WithLimits(perFingerprint, total))
  {
    hide Legal, Run, Bounded;
    ReachedInv(perFingerprint, total, steps);
  }

  /** A job runs only in a process launched with its own request's fingerprint. */
  lemma RunsInOwnProcess(perFingerprint: nat, total: nat, steps: seq<Step>, g: Generation, r: RequestId)
    requires Reaches(perFingerprint, total, steps)
    requires g in Reached(perFingerprint, total, steps).workers && OnWorker(Reached(perFingerprint, total, steps).workers[g], r)
    ensures var p := Reached(perFingerprint, total, steps);
            && r in p.requests && p.workers[g].fingerprint == p.requests[r].fingerprint
  {
    hide Legal, Run, Bounded, Locked, Listed, SeenHolds, NoneStranded, Sound, Life;
    ReachedInv(perFingerprint, total, steps);
    var p := Reached(perFingerprint, total, steps);
    CoreKnown(p.workers, p.requests, g);
    if Execute(r) in p.workers[g].queue { assert KnownCommand(Execute(r), p.requests); }
    CoreAt(p.workers, p.requests, g, r);
  }

  // ---------------------------------------------------------------- the jobs

  /** Where the command of a job may stand on a worker. */
  predicate QueuedAt(w: Worker, i: nat, r: RequestId) {
    i < |w.queue| && w.queue[i] == Execute(r)
  }

  /** At any moment a job is with its caller, or on exactly one worker and there in exactly one spot, or
      settled. */
  lemma JobInOnePlace(perFingerprint: nat, total: nat, steps: seq<Step>, r: RequestId)
    requires Reaches(perFingerprint, total, steps) && r in Reached(perFingerprint, total, steps).requests
    ensures var p := Reached(perFingerprint, total, steps);
            && (p.requests[r].place == Held <==> AtCaller(p.requests[r].stage))
            && (forall g :: g in p.workers ==> (OnWorker(p.workers[g], r) <==> p.requests[r].place == On(g)))
            && (p.requests[r].place.On? ==> p.requests[r].place.worker in p.workers)
            && (forall g, i, j :: g in p.workers && QueuedAt(p.workers[g], i, r) && QueuedAt(p.workers[g], j, r) ==> i == j)
            && (forall g, i :: g in p.workers && QueuedAt(p.workers[g], i, r) ==> PhaseJob(p.workers[g].phase) != Some(r))
  {
    hide Legal, Run, Bounded, Locked, Listed, SeenHolds, NoneStranded;
    ReachedInv(perFingerprint, total, steps);
    var p := Reached(perFingerprint, total, steps);
    assert Life(p.requests[r]) && KnownWorker(p.requests[r], p.workers);
    forall g | g in p.workers ensures OnWorker(p.workers[g], r) <==> p.requests[r].place == On(g) {
      CoreAt(p.workers, p.requests, g, r);
    }
    forall g, i, j | g in p.workers && QueuedAt(p.workers[g], i, r) && QueuedAt(p.workers[g], j, r) ensures i == j {
      CoreSound(p.workers, p.requests, g);
      OnlyOnce(p.workers[g].queue, i, j);
    }
    forall g, i | g in p.workers && QueuedAt(p.workers[g], i, r) ensures PhaseJob(p.workers[g].phase) != Some(r) {
      CoreSound(p.workers, p.requests, g);
    }
  }

  lemma OnlyOnce(q: seq<Command>, i: nat, j: nat)
    requires Orderly(q) && i < |q| && j < |q| && q[i] == q[j]
    ensures i == j
  {
  }

  /** A worker that has a job is still in its loop; nothing is queued behind a Shutdown; and outside the
      acceptance lock its load is the number of jobs queued or being served. */
  lemma AcceptedWorkIsServed(perFingerprint: nat, total: nat, steps: seq<Step>, g: Generation)
    requires Reaches(perFingerprint, total, steps) && g in Reached(perFingerprint, total, steps).workers
    ensures var w := Reached(perFingerprint, total, steps).workers[g];
            && (forall r :: OnWorker(w, r) ==> !Exiting(w.phase))
            && (forall i :: 0 <= i < |w.queue| - 1 ==> w.queue[i] != Shutdown)
            && (w.sender == None ==>
                  w.pending == (if EndsInShutdown(w.queue) then |w.queue| - 1 else |w.queue|) + Counted(w.phase))
            && (!w.accepting && !Exiting(w.phase) ==> Shutdown in w.queue)
  {
    hide Legal, Run, Bounded, Locked, Listed, SeenHolds, NoneStranded;
    ReachedInv(perFingerprint, total, steps);
    var p := Reached(perFingerprint, total, steps);
    CoreSound(p.workers, p.requests, g);
  }

  /** The two error paths of the channel cannot be taken: a push always finds its receiver and a thread
      never finds all senders gone. */
  lemma ChannelsNeverBreak(perFingerprint: nat, total: nat, steps: seq<Step>)
    requires Reaches(perFingerprint, total, steps)
    ensures var p := Reached(perFingerprint, total, steps);
            && (forall r :: Enabled(p, Push(r)) ==> p.workers[p.requests[r].stage.worker].phase != Gone)
            && (forall g :: !Enabled(p, Thread(g, Disconnect)))
  {
    hide Legal, Run, Bounded, Locked, Listed, SeenHolds, NoneStranded, HasHandle, Sound, Life, Pair;
    ReachedInv(perFingerprint, total, steps);
    var p := Reached(perFingerprint, total, steps);
    forall r | Enabled(p, Push(r)) ensures p.workers[p.requests[r].stage.worker].phase != Gone {
      var g := p.requests[r].stage.worker;
      CoreAt(p.workers, p.requests, g, r);
      PushPair(p.workers[g], g, r, p.requests[r]);
    }
    forall g ensures !Enabled(p, Thread(g, Disconnect)) { NeverDisconnected(p, g); }
  }

  /** A worker outside the table takes no new work, now or later: it is exiting with nothing queued, or has
      exactly one Shutdown queued, behind all its jobs, and no caller is about to push. */
  lemma UnlistedIsStopping(perFingerprint: nat, total: nat, steps: seq<Step>, g: Generation)
    requires Reaches(perFingerprint, total, steps) && g in Reached(perFingerprint, total, steps).workers
    requires var p := Reached(perFingerprint, total, steps); !Member(p.table.groups, p.workers[g].fingerprint, g)
    ensures var w := Reached(perFingerprint, total, steps).workers[g];
            && !w.accepting && w.sender == None
            && (Exiting(w.phase) ==> w.queue == [])
            && (!Exiting(w.phase) ==>
                  && w.queue != [] && w.queue[|w.queue| - 1] == Shutdown
                  && forall i :: 0 <= i < |w.queue| - 1 ==> w.queue[i].Execute?)
  {
    hide Legal, Run, Bounded, Core, Locked, SeenHolds, NoneStranded, Sound, Reached;
    ReachedInv(perFingerprint, total, steps);
    var p := Reached(perFingerprint, total, steps);
    CoreSound(p.workers, p.requests, g);
    RefusingIsStopping(p.workers[g]);
  }

  lemma RefusingIsStopping(w: Worker)
    requires Sound(w) && !w.accepting
    ensures w.sender == None && (Exiting(w.phase) ==> w.queue == [])
    ensures !Exiting(w.phase) ==> EndsInShutdown(w.queue) && forall i :: 0 <= i < |w.queue| - 1 ==> w.queue[i].Execute?
  {
  }

  function Takers(workers: map<Generation, Worker>): set<Generation> {
    set g | g in workers && workers[g].accepting
  }

  /** So the processes that take new work never exceed the global limit, whatever lives outside the table. */
  lemma AcceptingWithinLimit(perFingerprint: nat, total: nat, steps: seq<Step>)
    requires Reaches(perFingerprint, total, steps)
    ensures var p := Reached(perFingerprint, total, steps);
            |Takers(p.workers)| <= WithLimits(perFingerprint, total).total
  {
    hide Legal, Run, Total, Locked, SeenHolds, NoneStranded, Core, Reaches, Reached;
    ReachedInv(perFingerprint, total, steps);
    var p := Reached(perFingerprint, total, steps);
    assert Total(p.table.groups) <= p.limits.total;
    MembersCounted(p.table.groups, Takers(p.workers));
  }

  lemma {:induction false} MembersCounted(groups: map<Fingerprint, Group>, some: set<Generation>)
    requires forall g :: g in some ==> exists fp :: Member(groups, fp, g)
    ensures |some| <= Total(groups)
    decreases |groups|
  {
    hide Total, Member;
    if some != {} {
      var first :| first in some;
      var fp :| Member(groups, fp, first);
      IsGroup(groups, fp, first);
      TotalSplit(groups, fp);
      var here := Here(groups[fp].workers, some);
      DistinctCounted(groups[fp].workers, here);
      MembersElsewhere(groups, fp, some, here);
      MembersCounted(groups - {fp}, some - here);
      assert |some| == |here| + |some - here|;
    }
  }

  lemma IsGroup(groups: map<Fingerprint, Group>, fp: Fingerprint, g: Generation)
    requires Member(groups, fp, g)
    ensures fp in groups
  {
  }

  function Here(workers: seq<Generation>, some: set<Generation>): set<Generation> {
    set g | g in some && g in workers
  }

  lemma MembersElsewhere(groups: map<Fingerprint, Group>, fp: Fingerprint, some: set<Generation>, here: set<Generation>)
    requires forall g :: g in some ==> exists f :: Member(groups, f, g)
    requires fp in groups && forall g :: g in some && g in groups[fp].workers ==> g in here
    ensures forall g :: g in some - here ==> exists f :: Member(groups - {fp}, f, g)
  {
    forall g | g in some - here ensures exists f :: Member(groups - {fp}, f, g) {
      var f :| Member(groups, f, g);
      assert Member(groups - {fp}, f, g);
    }
  }

  lemma {:induction false} DistinctCounted(workers: seq<Generation>, some: set<Generation>)
    requires forall g :: g in some ==> g in workers
    ensures |some| <= |workers|
  {
    if workers != [] {
      DistinctCounted(workers[1..], some - {workers[0]});
    } else {
      assert some == {};
    }
  }

  // ---------------------------------------------------------------- the race for a queued job

  /** `turn_end` never runs twice; it ran once when the caller has its answer or was cancelled, whichever
      side won the race; only a dropped caller or a failed start may leave it out. */
  lemma TurnEndsOnce(perFingerprint: nat, total: nat, steps: seq<Step>, r: RequestId)
    requires Reaches(perFingerprint, total, steps) && r in Reached(perFingerprint, total, steps).requests
    ensures var q := Reached(perFingerprint, total, steps).requests[r];
            && q.ends <= 1
            && (q.stage == Left && !q.dropped ==> q.ends == 1)
            && (q.stage == Failed ==> q.ends == 0)
            && (q.ends == 1 ==> q.stage == Left || q.job == InProgress)
  {
    hide Legal, Run, Bounded, Locked, Listed, SeenHolds, NoneStranded, Pair, Sound;
    ReachedInv(perFingerprint, total, steps);
    var p := Reached(perFingerprint, total, steps);
    assert Life(p.requests[r]);
    if p.requests[r].stage == Awaiting && p.requests[r].ends == 1 {
      assert p.requests[r].job == InProgress;
    }
  }

  function Rank(place: Place): nat {
    match place
    case Held => 0
    case On(_) => 1
    case Settled => 2
  }

  /** The winner of the race is final, a job never moves back, and neither it nor its `turn_end` is undone. */
  predicate Advances(before: Request, after: Request) {
    && (before.job != Queued ==> after.job == before.job)
    && Rank(before.place) <= Rank(after.place)
    && (before.place.On? && after.place.On? ==> after.place == before.place)
    && before.ends <= after.ends
    && (before.dropped ==> after.dropped)
    && after.fingerprint == before.fingerprint && after.key == before.key
  }

  lemma AskAdvances(q: Request, ask: Ask)
    requires Life(q) && CanAsk(q, ask)
    ensures Advances(q, AfterAsk(q, ask))
  {
  }

  lemma WorkAdvances(q: Request, g: Generation, work: Work)
    requires q.place == On(g)
    ensures Advances(q, JobAfterWork(q, work))
  {
  }

  lemma StepAdvances(p: Pool, step: Step, r: RequestId)
    requires Inv(p) && Enabled(p, step) && r in p.requests
    ensures r in Do(p, step).requests && Advances(p.requests[r], Do(p, step).requests[r])
  {
    hide Bounded, Locked, Listed, SeenHolds, NoneStranded, Sound, TryWorker, Covers, HasHandle, Core, Pair, AfterAsk,
      JobAfterWork, AfterWork, CanAsk, CanWork;
    CoreLife(p.workers, p.requests, r);
    if step.Thread? && PhaseJob(p.workers[step.worker].phase) == Some(r) {
      CoreAt(p.workers, p.requests, step.worker, r);
      ServedPlace(p.workers[step.worker], step.worker, r, p.requests[r]);
      WorkAdvances(p.requests[r], step.worker, step.work);
    } else if step.Decide? && r == p.lock.value.0 {
      DecideAdvances(p, step.order, step.starts, r);
    } else if step.Caller? && step.request == r {
      AskAdvances(p.requests[r], step.ask);
    }
  }

  lemma CoreLife(workers: map<Generation, Worker>, requests: map<RequestId, Request>, r: RequestId)
    requires Core(workers, requests) && r in requests
    ensures Life(requests[r])
  {
  }

  lemma DecideAdvances(p: Pool, order: seq<Fingerprint>, starts: bool, r: RequestId)
    requires CanDecide(p, order, starts) && r == p.lock.value.0
    ensures r in AfterDecide(p, order, starts).requests
    ensures Advances(p.requests[r], AfterDecide(p, order, starts).requests[r])
  {
    hide TryWorker, Covers;
  }

  lemma {:induction false} NothingUndone(p: Pool, steps: seq<Step>, r: RequestId)
    requires Inv(p) && Legal(p, steps) && p.table.nextGeneration + |steps| < U64 && r in p.requests
    ensures r in Run(p, steps).requests && Advances(p.requests[r], Run(p, steps).requests[r])
    decreases |steps|
  {
    hide Inv, Do, Enabled;
    if steps != [] {
      StepKeeps(p, steps[0]);
      StepAdvances(p, steps[0], r);
      NothingUndone(Do(p, steps[0]), steps[1..], r);
    }
  }

  // ---------------------------------------------------------------- waiting requests

  /** A request parked without a signal always has a worker that will signal it. */
  lemma NoStrandedWaiter(perFingerprint: nat, total: nat, steps: seq<Step>, r: RequestId)
    requires Reaches(perFingerprint, total, steps) && r in Reached(perFingerprint, total, steps).requests
    requires Stuck(Reached(perFingerprint, total, steps).requests[r])
    ensures SomeDue(Reached(perFingerprint, total, steps).workers)
  {
    hide Legal, Run, Bounded, Core, Locked, Listed, SeenHolds, Due;
    ReachedInv(perFingerprint, total, steps);
  }

  function ReceiveDistance(queue: seq<Command>): nat {
    if queue == [] then 6 else if queue[0].Execute? then 5 else 4
  }

  /** How many more moves of its own lie at most between a worker and its next notification. */
  function Distance(w: Worker): nat {
    match w.phase
    case Receiving => ReceiveDistance(w.queue)
    case Notified(_) => 1 + ReceiveDistance(w.queue)
    case Popped(_) => 4
    case Running(_) => 3
    case Finished(_) => 2
    case Decremented(_) => 1
    case Stopping => 3
    case Leaving => 2
    case Closing => 1
    case Gone => 0
  }

  predicate Own(step: Step, g: Generation) {
    (step.Thread? || step.Remove?) && step.worker == g
  }

  function OwnSteps(steps: seq<Step>, g: Generation): nat {
    if steps == [] then 0 else (if Own(steps[0], g) then 1 else 0) + OwnSteps(steps[1..], g)
  }

  /** What a due worker does next: it can move or notify at once, unless it waits for the table's mutex
      or for a caller that is about to push a job to it. */
  lemma DueCanMove(p: Pool, g: Generation)
    requires Inv(p) && g in p.workers && Due(p.workers[g])
    ensures || (exists work :: Enabled(p, Thread(g, work)))
            || Enabled(p, Remove(g)) || Enabled(p, NotifyAll(g))
            || (p.workers[g].phase == Leaving && p.lock.Some?)
            || (p.workers[g].sender.Some? && Enabled(p, Push(p.workers[g].sender.value)))
  {
    hide Bounded, Locked, Listed, SeenHolds, NoneStranded, Core, HasHandle, TryWorker, CanDecide;
    var w := p.workers[g];
    CoreSound(p.workers, p.requests, g);
    CoreKnown(p.workers, p.requests, g);
    match w.phase
    case Receiving =>
      if w.queue != [] {
        assert Enabled(p, Thread(g, Take));
      } else {
        CoreAt(p.workers, p.requests, g, w.sender.value);
      }
    case Popped(_) => assert Enabled(p, Thread(g, Start));
    case Running(_) => assert Enabled(p, Thread(g, Finish));
    case Finished(_) => assert Enabled(p, Thread(g, Decrement));
    case Notified(_) => assert Enabled(p, Thread(g, Reply));
    case Stopping =>
      assert w.sender == None;
      assert Enabled(p, Thread(g, Close));
    case _ =>
  }

  lemma WorkNears(w: Worker, work: Work, job: JobState)
    requires Sound(w) && Due(w) && CanWork(w, work) && work != Disconnect
    ensures Distance(AfterWork(w, work, job)) < Distance(w)
  {
  }

  /** Every move of a due worker brings its notification nearer; no move of another takes it further. */
  lemma StepNears(p: Pool, step: Step, g: Generation)
    requires Inv(p) && Enabled(p, step) && g in p.workers && Due(p.workers[g]) && step != NotifyAll(g)
    ensures g in Do(p, step).workers && Due(Do(p, step).workers[g])
    ensures Distance(Do(p, step).workers[g]) <= Distance(p.workers[g]) - (if Own(step, g) then 1 else 0)
  {
    hide Bounded, Locked, SeenHolds, NoneStranded, Core, HasHandle, TryWorker, Covers, Sound, Life, Pair;
    CoreSound(p.workers, p.requests, g);
    var w := p.workers[g];
    if step.Thread? && step.worker == g {
      hide Due;
      NeverDisconnected(p, g);
      var job := if PhaseJob(w.phase).Some? then p.requests[PhaseJob(w.phase).value].job else Queued;
      WorkNears(w, step.work, job);
      WorkDue(w, step.work, job);
    } else if step.Decide? {
      DecideNears(p, step.order, step.starts, g);
    } else if step.Push? && p.requests[step.request].stage.worker == g {
      CoreAt(p.workers, p.requests, g, step.request);
      PushPair(w, g, step.request, p.requests[step.request]);
    }
  }

  lemma DecideNears(p: Pool, order: seq<Fingerprint>, starts: bool, g: Generation)
    requires Inv(p) && CanDecide(p, order, starts) && g in p.workers && Due(p.workers[g])
    ensures g in AfterDecide(p, order, starts).workers && Due(AfterDecide(p, order, starts).workers[g])
    ensures Distance(AfterDecide(p, order, starts).workers[g]) <= Distance(p.workers[g])
  {
    hide Bounded, Locked, SeenHolds, NoneStranded, Core, TryWorker, Covers;
    var (r, seen) := p.lock.value;
    var q := p.requests[r];
    var (decision, _) := Decided(p, order, starts);
    if decision.Started? {
      ReturnedBelongs(p.table, p.limits, q.fingerprint, q.key, seen.(order := order), starts, decision.worker);
    } else if decision.Evicted? && decision.worker == g {
      var w := p.workers[g];
      assert w.accepting ==> (w.queue + [Shutdown])[..|w.queue|] == w.queue;
    }
  }

  /** However the steps interleave, a due worker takes at most six more of its own before it notifies
      every waiter. */
  lemma {:induction false} SignalIsNear(p: Pool, steps: seq<Step>, g: Generation)
    requires Inv(p) && Legal(p, steps) && p.table.nextGeneration + |steps| < U64
    requires g in p.workers && Due(p.workers[g]) && NotifyAll(g) !in steps
    ensures OwnSteps(steps, g) <= Distance(p.workers[g]) - 1 <= 6
    decreases |steps|
  {
    hide Inv, Do, Enabled, Due;
    if steps != [] {
      StepKeeps(p, steps[0]);
      StepNears(p, steps[0], g);
      assert forall step :: step in steps[1..] ==> step in steps;
      SignalIsNear(Do(p, steps[0]), steps[1..], g);
    } else {
      assert Distance(p.workers[g]) >= 1 by { DueIsAway(p.workers[g], p, g); }
    }
  }

  lemma DueIsAway(w: Worker, p: Pool, g: Generation)
    requires Inv(p) && g in p.workers && w == p.workers[g] && Due(w)
    ensures Distance(w) >= 1
  {
    hide Bounded, Locked, SeenHolds, NoneStranded, Core, Listed;
    CoreSound(p.workers, p.requests, g);
  }

  /** The notification reaches everyone: after it no request is left parked without a signal. */
  lemma NotificationWakesAll(p: Pool, g: Generation, r: RequestId)
    requires Enabled(p, NotifyAll(g)) && r in p.requests && p.requests[r].stage == Parked
    ensures var after := Do(p, NotifyAll(g));
            !Stuck(after.requests[r]) && Enabled(after, Caller(r, Wake))
  {
  }
}
