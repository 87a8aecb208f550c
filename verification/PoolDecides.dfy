/** The decision step of the pool keeps every law; with it, every run does. */
module PoolDecides {
  import opened Wrappers
  import opened PoolTable
  import opened PoolDecisions
  import opened PoolModel
  import opened PoolLaws
  import opened PoolSteps

  lemma StopPair(w: Worker, g: Generation, r: RequestId, q: Request)
    requires Pair(w, g, r, q)
    ensures Pair(StopAccepting(w), g, r, q)
  {
  }

  /** A fresh worker is unknown to every request. */
  lemma FreshPair(workers: map<Generation, Worker>, g: Generation, fp: Fingerprint, r: RequestId, q: Request)
    requires KnownWorker(q, workers) && g !in workers
    ensures Pair(NewWorker(fp), g, r, q) && Sound(NewWorker(fp))
  {
  }

  lemma FailedPair(w: Worker, g: Generation, r: RequestId, q: Request)
    requires Pair(w, g, r, q) && Life(q) && q.stage == Trying
    ensures Pair(w, g, r, q.(stage := Failed, place := Settled)) && Life(q.(stage := Failed, place := Settled))
  {
  }

  /** The request moves on: to a worker of its own fingerprint or back to waiting. */
  lemma MoveCore(workers: map<Generation, Worker>, requests: map<RequestId, Request>, r: RequestId, stage: Stage)
    requires Core(workers, requests) && r in requests && requests[r].stage == Trying
    requires stage == Parked
             || (stage.Selected? && stage.worker in workers && workers[stage.worker].fingerprint == requests[r].fingerprint)
    ensures Core(workers, requests[r := requests[r].(stage := stage)])
  {
    hide Sound, Pair, Life;
    var q := requests[r].(stage := stage);
    assert Life(q) by { MovedLife(requests[r], stage); }
    forall g | g in workers ensures Pair(workers[g], g, r, q) { HeldPair(workers[g], g, r, requests[r], stage); }
    UpdateRequest(workers, requests, r, q);
  }

  lemma MovedLife(q: Request, stage: Stage)
    requires Life(q) && q.stage == Trying && (stage == Parked || stage.Selected?)
    ensures Life(q.(stage := stage))
  {
  }

  lemma FailCore(workers: map<Generation, Worker>, requests: map<RequestId, Request>, r: RequestId)
    requires Core(workers, requests) && r in requests && requests[r].stage == Trying
    ensures Core(workers, requests[r := requests[r].(stage := Failed, place := Settled)])
  {
    hide Sound, Pair, Life;
    var q := requests[r].(stage := Failed, place := Settled);
    assert Life(q) by { FailedLife(requests[r]); }
    forall g | g in workers ensures Pair(workers[g], g, r, q) { FailedPair(workers[g], g, r, requests[r]); }
    UpdateRequest(workers, requests, r, q);
  }

  lemma FailedLife(q: Request)
    requires Life(q) && q.stage == Trying
    ensures Life(q.(stage := Failed, place := Settled))
  {
  }

  lemma SpawnCore(workers: map<Generation, Worker>, requests: map<RequestId, Request>, g: Generation, fp: Fingerprint)
    requires Core(workers, requests) && g !in workers
    ensures Core(workers[g := NewWorker(fp)], requests)
  {
    hide Sound, Pair, Life;
    forall r | r in requests ensures Pair(NewWorker(fp), g, r, requests[r]) {
      FreshPair(workers, g, fp, r, requests[r]);
    }
    assert Sound(NewWorker(fp)) by { NewSound(fp); }
    UpdateWorker(workers, requests, g, NewWorker(fp));
  }

  lemma NewSound(fp: Fingerprint)
    ensures Sound(NewWorker(fp))
  {
  }

  lemma StopCore(workers: map<Generation, Worker>, requests: map<RequestId, Request>, g: Generation)
    requires Core(workers, requests) && g in workers && workers[g].sender == None
    ensures Core(workers[g := StopAccepting(workers[g])], requests)
  {
    hide Sound, Pair, Life;
    CoreSound(workers, requests, g);
    CoreKnown(workers, requests, g);
    StopSound(workers[g]);
    forall r | r in requests ensures Pair(StopAccepting(workers[g]), g, r, requests[r]) {
      CoreAt(workers, requests, g, r);
      StopPair(workers[g], g, r, requests[r]);
    }
    UpdateWorker(workers, requests, g, StopAccepting(workers[g]));
  }

  ghost predicate Deciding(p: Pool, order: seq<Fingerprint>, starts: bool) {
    Inv(p) && CanDecide(p, order, starts)
  }

  lemma DecideCore(p: Pool, order: seq<Fingerprint>, starts: bool)
    requires Deciding(p, order, starts)
    ensures Core(AfterDecide(p, order, starts).workers, AfterDecide(p, order, starts).requests)
  {
    hide Bounded, Core, Sound, Pair, Life, SeenHolds, NoneStranded, TryWorker, Covers;
    var (r, seen) := p.lock.value;
    var q := p.requests[r];
    var (decision, table) := Decided(p, order, starts);
    match decision
    case Found(g) =>
      ReturnedBelongs(p.table, p.limits, q.fingerprint, q.key, seen.(order := order), starts, g);
      MoveCore(p.workers, p.requests, r, Selected(g));
    case Started(g) =>
      ReturnedBelongs(p.table, p.limits, q.fingerprint, q.key, seen.(order := order), starts, g);
      SpawnCore(p.workers, p.requests, g, q.fingerprint);
      MoveCore(p.workers[g := NewWorker(q.fingerprint)], p.requests, r, Selected(g));
    case StartFailed =>
      FailCore(p.workers, p.requests, r);
    case Evicted(_, g) =>
      if g in p.workers { StopCore(p.workers, p.requests, g); }
      MoveCore(AfterDecide(p, order, starts).workers, p.requests, r, Parked);
    case Full =>
      MoveCore(p.workers, p.requests, r, Parked);
  }

  lemma AtLeastOne(t: Table, limits: Limits)
    requires Bounded(t, limits)
    ensures t.nextGeneration >= 1 && limits.total >= 1
  {
  }

  lemma NextAfter(t: Table, limits: Limits, fp: Fingerprint, key: SessionKey, seen: Seen, starts: bool)
    requires t.nextGeneration + 1 < U64
    ensures var (decision, after) := TryWorker(t, limits, fp, key, seen, starts);
            && t.nextGeneration <= after.nextGeneration <= t.nextGeneration + 1
            && (decision.Started? ==> after.nextGeneration == t.nextGeneration + 1)
  {
    hide Total, Prune, LeastLoaded, FindIdle, Without, Bound, Bind, Unbind;
  }

  /** The table's members after a decision. */
  lemma DecideMembers(p: Pool, order: seq<Fingerprint>, starts: bool, f: Fingerprint, g: Generation)
    requires Deciding(p, order, starts)
    ensures var q := p.requests[p.lock.value.0];
            var (decision, table) := Decided(p, order, starts);
            Member(table.groups, f, g) <==>
              || (Member(p.table.groups, f, g) && Accepts(p.lock.value.1.accepting, g) && decision != Evicted(f, g))
              || (decision == Started(g) && f == q.fingerprint)
  {
    hide TryWorker, Inv, Covers;
    var q := p.requests[p.lock.value.0];
    MembersAfter(p.table, p.limits, q.fingerprint, q.key, p.lock.value.1.(order := order), starts, f, g);
  }

  /** The workers after a decision: a started one is new, an evicted one refuses, the others are as they were. */
  lemma DecideWorkers(p: Pool, order: seq<Fingerprint>, starts: bool)
    requires Deciding(p, order, starts) && p.table.nextGeneration + 1 < U64
    ensures var q := p.requests[p.lock.value.0];
            var (decision, table) := Decided(p, order, starts);
            var after := AfterDecide(p, order, starts);
            && after.table == table && p.table.nextGeneration <= table.nextGeneration
            && (decision.Started? ==>
                  && decision.worker == p.table.nextGeneration >= 1 && table.nextGeneration == p.table.nextGeneration + 1
                  && after.workers == p.workers[decision.worker := NewWorker(q.fingerprint)])
            && (!decision.Started? ==> after.workers.Keys == p.workers.Keys)
            && (!decision.Started? ==> forall g :: g in p.workers ==>
                  && after.workers[g].fingerprint == p.workers[g].fingerprint
                  && (after.workers[g].accepting ==> p.workers[g].accepting && !(decision.Evicted? && decision.worker == g)))
  {
    hide Bounded, Core, Locked, Listed, SeenHolds, NoneStranded, TryWorker, Covers;
    var (r, seen) := p.lock.value;
    var q := p.requests[r];
    var (decision, _) := Decided(p, order, starts);
    AtLeastOne(p.table, p.limits);
    NextAfter(p.table, p.limits, q.fingerprint, q.key, seen.(order := order), starts);
    if decision.Started? {
      ReturnedBelongs(p.table, p.limits, q.fingerprint, q.key, seen.(order := order), starts, decision.worker);
    }
  }

  lemma DecideListed(p: Pool, order: seq<Fingerprint>, starts: bool)
    requires Deciding(p, order, starts) && p.table.nextGeneration + 1 < U64
    ensures Listed(AfterDecide(p, order, starts).table, AfterDecide(p, order, starts).workers)
  {
    hide Bounded, Core, NoneStranded, Believed, AfterDecide, Decided, Member;
    var (r, seen) := p.lock.value;
    var (decision, table) := Decided(p, order, starts);
    var after := AfterDecide(p, order, starts);
    DecideWorkers(p, order, starts);
    forall f, g | Member(table.groups, f, g) ensures g in after.workers && after.workers[g].fingerprint == f {
      DecideMembers(p, order, starts, f, g);
    }
    forall g | g in after.workers && after.workers[g].accepting
      ensures Member(table.groups, after.workers[g].fingerprint, g)
    {
      DecideMembers(p, order, starts, after.workers[g].fingerprint, g);
      if !decision.Started? || g != decision.worker {
        assert Member(p.table.groups, p.workers[g].fingerprint, g);
        assert g in seen.accepting;
      }
    }
  }

  lemma DecideWaits(p: Pool, order: seq<Fingerprint>, starts: bool)
    requires Deciding(p, order, starts)
    ensures NoneStranded(AfterDecide(p, order, starts).workers, AfterDecide(p, order, starts).requests)
  {
    hide Bounded, Core, TryWorker, Due, Alive;
    var (r, seen) := p.lock.value;
    var q := p.requests[r];
    var (decision, table) := Decided(p, order, starts);
    var after := AfterDecide(p, order, starts);
    AtLeastOne(p.table, p.limits);
    WaitingMeans(p.table, p.limits, q.fingerprint, q.key, seen.(order := order), starts);
    if decision.Evicted? {
      var g := decision.worker;
      assert g in p.workers;
      StopOnward(p.workers[g]);
      SteadyOne(p.workers, g, after.workers[g]);
      NoneStrandedSteady(p.workers, after.workers, p.requests, p.requests);
      if !q.signalled {
        assert Alive(p.workers[g]);
        assert Due(after.workers[g]);
      }
    } else if decision.Full? && !q.signalled {
      var f, g :| Member(p.table.groups, f, g) && Accepts(seen.accepting, g);
      assert Load(seen.idle, g) > 0;
      assert Due(p.workers[g]);
    } else if decision.Started? {
      assert decision.worker !in p.workers by {
        ReturnedBelongs(p.table, p.limits, q.fingerprint, q.key, seen.(order := order), starts, decision.worker);
      }
      SteadyOne(p.workers, decision.worker, NewWorker(q.fingerprint));
      NoneStrandedSteady(p.workers, after.workers, p.requests, after.requests);
    }
  }

  lemma StopOnward(w: Worker)
    ensures Onward(w, StopAccepting(w))
    ensures Alive(w) ==> Due(StopAccepting(w))
  {
  }

  lemma DecideKeeps(p: Pool, order: seq<Fingerprint>, starts: bool)
    requires Inv(p) && Enabled(p, Decide(order, starts)) && p.table.nextGeneration + 1 < U64
    ensures Inv(Do(p, Decide(order, starts)))
  {
    hide Bounded, Core, Listed, NoneStranded, TryWorker, Covers;
    var (r, seen) := p.lock.value;
    var q := p.requests[r];
    DecideCore(p, order, starts);
    DecideListed(p, order, starts);
    DecideWaits(p, order, starts);
    TryWorkerKeeps(p.table, p.limits, q.fingerprint, q.key, seen.(order := order), starts);
  }
}
