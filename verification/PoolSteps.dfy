/** Every step of the pool keeps every law. */
module PoolSteps {
  import opened Wrappers
  import opened PoolTable
  import opened PoolDecisions
  import opened PoolModel
  import opened PoolLaws

  /** Being due, being alive and having refused are never undone. */
  predicate Onward(from: Worker, to: Worker) {
    && (Due(from) ==> Due(to))
    && (Alive(from) ==> Alive(to))
    && (!from.accepting ==> !to.accepting)
  }

  predicate Steady(from: map<Generation, Worker>, to: map<Generation, Worker>) {
    forall g :: g in from ==> g in to && Onward(from[g], to[g])
  }

  lemma SteadyOne(workers: map<Generation, Worker>, g: Generation, w: Worker)
    requires g in workers ==> Onward(workers[g], w)
    ensures Steady(workers, workers[g := w])
  {
  }

  lemma BelievedSteady(seen: Seen, from: map<Generation, Worker>, to: map<Generation, Worker>)
    requires Steady(from, to)
    ensures Believed(seen, from) ==> Believed(seen, to)
    ensures RefusedForGood(seen, from) ==> RefusedForGood(seen, to)
  {
  }

  lemma NoneStrandedSteady(from: map<Generation, Worker>, to: map<Generation, Worker>,
                           requests: map<RequestId, Request>, after: map<RequestId, Request>)
    requires NoneStranded(from, requests) && Steady(from, to)
    requires forall r :: r in after && Stuck(after[r]) ==> r in requests && Stuck(requests[r])
    ensures NoneStranded(to, after)
  {
  }

  // ---------------------------------------------------------------- the caller's moves

  lemma ArriveKeeps(p: Pool, r: RequestId, fp: Fingerprint, key: SessionKey)
    requires Inv(p) && Enabled(p, Arrive(r, fp, key))
    ensures Inv(Do(p, Arrive(r, fp, key)))
  {
    hide Bounded, Sound, Pair, Life, Due, Alive, Listed, Believed, RefusedForGood;
    var q := Request(fp, key, Idle, false, Queued, Held, 0, false);
    assert Life(q) by { NewLife(fp, key); }
    forall g | g in p.workers ensures Pair(p.workers[g], g, r, q) { StrangerPair(p, g, r, q); }
    UpdateRequest(p.workers, p.requests, r, q);
    NoneStrandedSteady(p.workers, p.workers, p.requests, p.requests[r := q]);
  }

  lemma NewLife(fp: Fingerprint, key: SessionKey)
    ensures Life(Request(fp, key, Idle, false, Queued, Held, 0, false))
  {
  }

  /** No worker knows a request that has not arrived. */
  lemma StrangerPair(p: Pool, g: Generation, r: RequestId, q: Request)
    requires Core(p.workers, p.requests) && g in p.workers && r !in p.requests
    requires q.place == Held && q.stage == Idle
    ensures Pair(p.workers[g], g, r, q)
  {
    hide Sound, Life;
    forall c | c in p.workers[g].queue ensures c != Execute(r) { assert KnownCommand(c, p.requests); }
    assert KnownJob(PhaseJob(p.workers[g].phase), p.requests) && KnownJob(p.workers[g].sender, p.requests);
  }

  /** A caller's own move neither enters nor leaves `try_worker`, never parks, and takes no worker. */
  lemma AskStages(q: Request, ask: Ask)
    requires CanAsk(q, ask)
    ensures var after := AfterAsk(q, ask);
            && q.stage != Trying && after.stage != Trying && !Stuck(after)
            && !after.stage.Selected? && !after.stage.Sending? && (after.place.On? ==> after.place == q.place)
  {
  }

  lemma CallerKeeps(p: Pool, r: RequestId, ask: Ask)
    requires Inv(p) && Enabled(p, Caller(r, ask))
    ensures Inv(Do(p, Caller(r, ask)))
  {
    hide Bounded, Core, Sound, Due, Alive, Listed, Believed, RefusedForGood, Pair, Life, AfterAsk, CanAsk, Stuck;
    var q := AfterAsk(p.requests[r], ask);
    AskStages(p.requests[r], ask);
    CoreRequest(p.workers, p.requests, r);
    AskLife(p.requests[r], ask);
    forall g | g in p.workers ensures Pair(p.workers[g], g, r, q) {
      CoreAt(p.workers, p.requests, g, r);
      AskPair(p.workers[g], g, r, p.requests[r], ask);
    }
    UpdateRequest(p.workers, p.requests, r, q);
    NoneStrandedSteady(p.workers, p.workers, p.requests, p.requests[r := q]);
  }

  lemma CoreRequest(workers: map<Generation, Worker>, requests: map<RequestId, Request>, r: RequestId)
    requires Core(workers, requests) && r in requests
    ensures Life(requests[r]) && KnownWorker(requests[r], workers)
  {
  }

  /** A caller's stage between the places where it holds its job concerns no worker. */
  lemma HeldPair(w: Worker, g: Generation, r: RequestId, q: Request, stage: Stage)
    requires Pair(w, g, r, q) && Life(q) && AtCaller(q.stage) && !q.stage.Sending?
    requires stage == Trying || stage == Parked || stage == Idle
             || (stage.Selected? && (stage.worker == g ==> w.fingerprint == q.fingerprint))
    ensures Pair(w, g, r, q.(stage := stage)) && Life(q.(stage := stage))
  {
  }

  lemma AcquireKeeps(p: Pool, r: RequestId)
    requires Inv(p) && Enabled(p, Acquire(r))
    ensures Inv(Do(p, Acquire(r)))
  {
    hide Bounded, Sound, Due, Alive, Listed, Pair, Life;
    var q := p.requests[r].(stage := Trying);
    assert Life(p.requests[r]);
    assert Life(q) by { TryingLife(p.requests[r]); }
    forall g | g in p.workers ensures Pair(p.workers[g], g, r, q) { HeldPair(p.workers[g], g, r, p.requests[r], Trying); }
    UpdateRequest(p.workers, p.requests, r, q);
    NoneStrandedSteady(p.workers, p.workers, p.requests, p.requests[r := q]);
  }

  lemma TryingLife(q: Request)
    requires Life(q) && q.stage == Registered
    ensures Life(q.(stage := Trying))
  {
  }

  lemma ReadKeeps(p: Pool, g: Generation, slot: Slot)
    requires Inv(p) && Enabled(p, Read(g, slot))
    ensures Inv(Do(p, Read(g, slot)))
  {
    hide Bounded, Core, Listed, NoneStranded;
    CoreAt(p.workers, p.requests, g, p.lock.value.0);
    assert p.workers[g].accepting ==> Alive(p.workers[g]);
  }

  // ---------------------------------------------------------------- the send

  lemma CoreAt(workers: map<Generation, Worker>, requests: map<RequestId, Request>, g: Generation, r: RequestId)
    requires Core(workers, requests) && g in workers && r in requests
    ensures Sound(workers[g]) && Life(requests[r]) && Pair(workers[g], g, r, requests[r])
    ensures KnownWorker(requests[r], workers)
  {
  }

  lemma CoreKnown(workers: map<Generation, Worker>, requests: map<RequestId, Request>, g: Generation)
    requires Core(workers, requests) && g in workers
    ensures forall c :: c in workers[g].queue ==> KnownCommand(c, requests)
    ensures KnownJob(PhaseJob(workers[g].phase), requests) && KnownJob(workers[g].sender, requests)
  {
  }

  lemma BeginKeeps(p: Pool, r: RequestId)
    requires Inv(p) && Enabled(p, BeginSend(r))
    ensures Inv(Do(p, BeginSend(r)))
  {
    hide Bounded, Core, Sound, Pair, Life, Due, Alive, Listed, Locked, SeenHolds, NoneStranded, Steady;
    var g := p.requests[r].stage.worker;
    var w, q := p.workers[g], p.requests[r];
    CoreAt(p.workers, p.requests, g, r);
    CoreKnown(p.workers, p.requests, g);
    if !w.accepting {
      forall h | h in p.workers ensures Pair(p.workers[h], h, r, q.(stage := Idle)) {
        CoreAt(p.workers, p.requests, h, r);
        HeldPair(p.workers[h], h, r, q, Idle);
      }
      HeldPair(w, g, r, q, Idle);
      UpdateRequest(p.workers, p.requests, r, q.(stage := Idle));
      SteadyOne(p.workers, g, w);
      SentKeeps(p, g, w, r, q.(stage := Idle));
      assert p.workers[g := w] == p.workers;
    } else {
      var v, s := Begun(w, r), q.(stage := Sending(g));
      BeginPair(w, g, r, q);
      forall h | h in p.workers && h != g ensures Pair(p.workers[h], h, r, s) {
        CoreAt(p.workers, p.requests, h, r);
        BeginPairOther(p.workers[h], g, h, r, q);
      }
      forall t | t in p.requests && t != r ensures Pair(v, g, t, p.requests[t]) {
        CoreAt(p.workers, p.requests, g, t);
        SenderPairOther(w, g, t, p.requests[t], r);
      }
      UpdateBoth(p.workers, p.requests, g, v, r, s);
      SteadyOne(p.workers, g, v);
      SentKeeps(p, g, v, r, s);
    }
  }

  /** What a send step leaves of the lock and the waiters. */
  lemma SentKeeps(p: Pool, g: Generation, w: Worker, r: RequestId, q: Request)
    requires Inv(p) && g in p.workers && r in p.requests
    requires Steady(p.workers, p.workers[g := w])
    requires w.accepting == p.workers[g].accepting && w.fingerprint == p.workers[g].fingerprint
    requires p.requests[r].stage != Trying && q.stage != Trying && q.stage != Parked && q.signalled == p.requests[r].signalled
    ensures Locked(p.lock, p.requests[r := q]) && Listed(p.table, p.workers[g := w])
    ensures SeenHolds(p.lock, p.workers[g := w], p.requests[r := q])
    ensures NoneStranded(p.workers[g := w], p.requests[r := q])
  {
    hide Bounded, Core, Believed, RefusedForGood, Due, Alive, Steady;
    if p.lock.Some? {
      BelievedSteady(p.lock.value.1, p.workers, p.workers[g := w]);
    }
    NoneStrandedSteady(p.workers, p.workers[g := w], p.requests, p.requests[r := q]);
  }

  lemma BeginPair(w: Worker, g: Generation, r: RequestId, q: Request)
    requires Pair(w, g, r, q) && Life(q) && Sound(w) && q.stage == Selected(g) && w.sender == None && w.accepting
    ensures var v := Begun(w, r);
            && Sound(v) && Life(q.(stage := Sending(g))) && Pair(v, g, r, q.(stage := Sending(g)))
            && Onward(w, v)
  {
  }

  lemma BeginPairOther(w: Worker, g: Generation, h: Generation, r: RequestId, q: Request)
    requires Pair(w, h, r, q) && q.stage == Selected(g) && g != h
    ensures Pair(w, h, r, q.(stage := Sending(g)))
  {
  }

  lemma SenderPairOther(w: Worker, g: Generation, t: RequestId, q: Request, r: RequestId)
    requires Pair(w, g, t, q) && w.sender == None && t != r
    ensures Pair(Begun(w, r), g, t, q)
  {
  }

  lemma PushPair(w: Worker, g: Generation, r: RequestId, q: Request)
    requires Pair(w, g, r, q) && Life(q) && Sound(w) && q.stage == Sending(g)
    ensures w.phase != Gone && w.accepting && w.sender == Some(r)
    ensures var v := Pushed(w, r);
            && Sound(v) && Life(q.(stage := Awaiting, place := On(g))) && Pair(v, g, r, q.(stage := Awaiting, place := On(g)))
            && Onward(w, v)
  {
  }

  lemma PushPairOther(w: Worker, g: Generation, h: Generation, r: RequestId, q: Request)
    requires Pair(w, h, r, q) && Life(q) && q.stage == Sending(g) && g != h
    ensures Pair(w, h, r, q.(stage := Awaiting, place := On(g)))
  {
  }

  lemma PushedPairOther(w: Worker, g: Generation, t: RequestId, q: Request, r: RequestId)
    requires Pair(w, g, t, q) && w.sender == Some(r) && t != r
    ensures Pair(Pushed(w, r), g, t, q)
  {
  }

  lemma PushKeeps(p: Pool, r: RequestId)
    requires Inv(p) && Enabled(p, Push(r))
    ensures Inv(Do(p, Push(r)))
  {
    hide Bounded, Core, Sound, Pair, Life, Due, Alive, Listed, Locked, SeenHolds, NoneStranded, Steady, Onward;
    var g := p.requests[r].stage.worker;
    var w, q := p.workers[g], p.requests[r];
    CoreAt(p.workers, p.requests, g, r);
    CoreKnown(p.workers, p.requests, g);
    PushPair(w, g, r, q);
    var v, s := Pushed(w, r), q.(stage := Awaiting, place := On(g));
    forall h | h in p.workers && h != g ensures Pair(p.workers[h], h, r, s) {
      CoreAt(p.workers, p.requests, h, r);
      PushPairOther(p.workers[h], g, h, r, q);
    }
    forall t | t in p.requests && t != r ensures Pair(v, g, t, p.requests[t]) {
      CoreAt(p.workers, p.requests, g, t);
      PushedPairOther(w, g, t, p.requests[t], r);
    }
    UpdateBoth(p.workers, p.requests, g, v, r, s);
    SteadyOne(p.workers, g, v);
    SentKeeps(p, g, v, r, s);
  }

  // ---------------------------------------------------------------- the worker's moves

  /** The thread never finds its channel disconnected: while it accepts, the table holds a sender, and
      when it has been told to stop, its queue holds the Shutdown. */
  lemma NeverDisconnected(p: Pool, g: Generation)
    requires Inv(p)
    ensures !Enabled(p, Thread(g, Disconnect))
  {
    hide Bounded, Locked, SeenHolds, NoneStranded, Life, Pair;
    if g in p.workers && CanWork(p.workers[g], Disconnect) {
      assert Sound(p.workers[g]);
      assert Member(p.table.groups, p.workers[g].fingerprint, g);
    }
  }

  lemma ThreadKeeps(p: Pool, g: Generation, work: Work)
    requires Inv(p) && Enabled(p, Thread(g, work))
    ensures Inv(Do(p, Thread(g, work)))
  {
    hide Bounded, Core, Sound, Pair, Life, Listed, Locked, SeenHolds, NoneStranded, Steady, Onward, HasHandle;
    NeverDisconnected(p, g);
    var w := p.workers[g];
    CoreKnown(p.workers, p.requests, g);
    match PhaseJob(w.phase)
    case None => FreeThreadKeeps(p, g, work);
    case Some(r) => ServingThreadKeeps(p, g, work, r);
  }

  lemma FreeThreadKeeps(p: Pool, g: Generation, work: Work)
    requires Inv(p) && Enabled(p, Thread(g, work)) && work != Disconnect && PhaseJob(p.workers[g].phase) == None
    ensures Inv(Do(p, Thread(g, work)))
  {
    hide Bounded, Core, Sound, Pair, Life, Listed, Locked, SeenHolds, NoneStranded, Steady, Due, Alive, HasHandle;
    var w := p.workers[g];
    var v := AfterWork(w, work, Queued);
    WorkKnown(p, g, work, Queued);
    WorkDue(w, work, Queued);
    forall t | t in p.requests ensures Pair(v, g, t, p.requests[t]) {
      CoreAt(p.workers, p.requests, g, t);
      WorkPairOther(w, g, t, p.requests[t], work, Queued);
    }
    UpdateWorker(p.workers, p.requests, g, v);
    SteadyOne(p.workers, g, v);
    WorkerKeeps(p, g, v);
  }

  lemma ServingThreadKeeps(p: Pool, g: Generation, work: Work, r: RequestId)
    requires Inv(p) && Enabled(p, Thread(g, work)) && work != Disconnect
    requires PhaseJob(p.workers[g].phase) == Some(r) && r in p.requests
    ensures Inv(Do(p, Thread(g, work)))
  {
    hide Bounded, Core, Sound, Pair, Life, Listed, Locked, SeenHolds, NoneStranded, Steady, Due, Alive, HasHandle;
    var w, q := p.workers[g], p.requests[r];
    var v, s := AfterWork(w, work, q.job), JobAfterWork(q, work);
    CoreAt(p.workers, p.requests, g, r);
    WorkKnown(p, g, work, q.job);
    WorkDue(w, work, q.job);
    WorkPair(w, g, r, q, work);
    ServedPlace(w, g, r, q);
    forall t | t in p.requests && t != r ensures Pair(v, g, t, p.requests[t]) {
      CoreAt(p.workers, p.requests, g, t);
      WorkPairOther(w, g, t, p.requests[t], work, q.job);
    }
    forall h | h in p.workers && h != g ensures Pair(p.workers[h], h, r, s) {
      CoreAt(p.workers, p.requests, h, r);
      JobPairOther(p.workers[h], g, h, r, q, work);
    }
    UpdateBoth(p.workers, p.requests, g, v, r, s);
    SteadyOne(p.workers, g, v);
    WorkerKeeps(p, g, v);
    JobKeeps(p, g, v, r, s);
  }

  lemma ServedPlace(w: Worker, g: Generation, r: RequestId, q: Request)
    requires Pair(w, g, r, q) && Life(q) && PhaseJob(w.phase) == Some(r)
    ensures q.place == On(g) && !AtCaller(q.stage)
  {
  }

  lemma WorkKnown(p: Pool, g: Generation, work: Work, job: JobState)
    requires Core(p.workers, p.requests) && g in p.workers && CanWork(p.workers[g], work) && work != Disconnect
    ensures var v := AfterWork(p.workers[g], work, job);
            && Sound(p.workers[g]) && Sound(v)
            && (forall c :: c in v.queue ==> KnownCommand(c, p.requests))
            && KnownJob(PhaseJob(v.phase), p.requests) && KnownJob(v.sender, p.requests)
  {
    hide Sound, Pair, Life;
    var w := p.workers[g];
    CoreKnown(p.workers, p.requests, g);
    WorkSound(w, work, job);
    if work == Take { assert KnownCommand(w.queue[0], p.requests); }
  }

  /** What a move of one worker leaves of the table, the lock and the waiters. */
  lemma WorkerKeeps(p: Pool, g: Generation, w: Worker)
    requires Inv(p) && g in p.workers && Steady(p.workers, p.workers[g := w])
    requires w.fingerprint == p.workers[g].fingerprint && (!p.workers[g].accepting ==> !w.accepting)
    ensures Listed(p.table, p.workers[g := w])
    ensures SeenHolds(p.lock, p.workers[g := w], p.requests)
    ensures NoneStranded(p.workers[g := w], p.requests)
  {
    hide Bounded, Core, Believed, RefusedForGood, Due, Alive, Steady;
    if p.lock.Some? { BelievedSteady(p.lock.value.1, p.workers, p.workers[g := w]); }
    NoneStrandedSteady(p.workers, p.workers[g := w], p.requests, p.requests);
  }

  lemma JobKeeps(p: Pool, g: Generation, w: Worker, r: RequestId, q: Request)
    requires Inv(p) && g in p.workers && r in p.requests && !AtCaller(p.requests[r].stage)
    requires q.stage == p.requests[r].stage && q.signalled == p.requests[r].signalled
    requires SeenHolds(p.lock, p.workers[g := w], p.requests) && NoneStranded(p.workers[g := w], p.requests)
    ensures Locked(p.lock, p.requests[r := q])
    ensures SeenHolds(p.lock, p.workers[g := w], p.requests[r := q])
    ensures NoneStranded(p.workers[g := w], p.requests[r := q])
  {
    hide Bounded, Core, Believed, RefusedForGood, SomeDue, Listed;
  }

  // ---------------------------------------------------------------- notifications and the end of a thread

  lemma SignalPair(w: Worker, g: Generation, r: RequestId, q: Request)
    requires Pair(w, g, r, q) && Life(q)
    ensures Pair(w, g, r, q.(signalled := true)) && Life(q.(signalled := true))
  {
  }

  lemma NotifyPair(w: Worker, g: Generation, r: RequestId, q: Request)
    requires Pair(w, g, r, q) && (w.phase.Decremented? || w.phase == Closing)
    ensures Pair(AfterNotify(w), g, r, q)
  {
  }

  lemma NotifySound(w: Worker)
    requires Sound(w) && (w.phase.Decremented? || w.phase == Closing)
    ensures Sound(AfterNotify(w))
  {
  }

  lemma SignalCore(workers: map<Generation, Worker>, requests: map<RequestId, Request>)
    requires Core(workers, requests)
    ensures Core(workers, AllSignalled(requests))
  {
    hide Sound, Pair, Life;
    forall r | r in requests ensures Life(requests[r].(signalled := true)) { SignalLife(requests[r]); }
    forall g, r | g in workers && r in requests ensures Pair(workers[g], g, r, requests[r].(signalled := true)) {
      SignalPair(workers[g], g, r, requests[r]);
    }
  }

  lemma SignalLife(q: Request)
    requires Life(q)
    ensures Life(q.(signalled := true))
  {
  }

  lemma NotifyKeeps(p: Pool, g: Generation)
    requires Inv(p) && Enabled(p, NotifyAll(g))
    ensures Inv(Do(p, NotifyAll(g)))
  {
    hide Bounded, Core, Sound, Pair, Life, Due, Alive, Believed;
    var w := p.workers[g];
    var v := AfterNotify(w);
    var all := AllSignalled(p.requests);
    SignalCore(p.workers, p.requests);
    CoreSound(p.workers, p.requests, g);
    NotifySound(w);
    CoreKnown(p.workers, all, g);
    forall r | r in all ensures Pair(v, g, r, all[r]) {
      CoreAt(p.workers, all, g, r);
      NotifyPair(w, g, r, all[r]);
    }
    UpdateWorker(p.workers, all, g, v);
  }

  lemma CoreSound(workers: map<Generation, Worker>, requests: map<RequestId, Request>, g: Generation)
    requires Core(workers, requests) && g in workers
    ensures Sound(workers[g])
  {
  }

  lemma RemovePair(w: Worker, g: Generation, r: RequestId, q: Request)
    requires Pair(w, g, r, q) && w.phase == Leaving
    ensures Pair(w.(phase := Closing), g, r, q)
  {
  }

  lemma RemoveSound(w: Worker)
    requires Sound(w) && w.phase == Leaving
    ensures Sound(w.(phase := Closing)) && !w.accepting && Onward(w, w.(phase := Closing))
  {
  }

  lemma RemoveKeeps(p: Pool, g: Generation)
    requires Inv(p) && Enabled(p, Remove(g))
    ensures Inv(Do(p, Remove(g)))
  {
    hide Bounded, Core, Sound, Pair, Life, Due, Alive, Without, Steady, NoneStranded, Onward;
    var w := p.workers[g];
    var v := w.(phase := Closing);
    CoreSound(p.workers, p.requests, g);
    CoreKnown(p.workers, p.requests, g);
    RemoveSound(w);
    forall r | r in p.requests ensures Pair(v, g, r, p.requests[r]) {
      CoreAt(p.workers, p.requests, g, r);
      RemovePair(w, g, r, p.requests[r]);
    }
    UpdateWorker(p.workers, p.requests, g, v);
    SteadyOne(p.workers, g, v);
    NoneStrandedSteady(p.workers, p.workers[g := v], p.requests, p.requests);
    ExitKeeps(p.table, p.limits, w.fingerprint, g);
    var groups := Without(p.table.groups, w.fingerprint, g);
    forall f, h ensures Member(groups, f, h) <==> Member(p.table.groups, f, h) && !(f == w.fingerprint && h == g) {
      WithoutMembers(p.table.groups, w.fingerprint, g, f, h);
    }
  }
}
