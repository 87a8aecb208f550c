/** Which limits let a request evict a worker of its own fingerprint, over every run of the pool.

    For limits that allow it the run is built here: the table is filled with one worker for each of `total`
    fingerprints; a request for the first one reads all acceptance flags, then the loads while a job is on its
    way to that worker, and scans for an idle worker when that job is done. */
module PoolEviction {
  import opened Wrappers
  import opened PoolTable
  import opened PoolDecisions
  import opened PoolModel
  import opened PoolRuns

  const BOUND: SessionKey := "bound"
  const LATER: SessionKey := "later"

  function Fp(i: nat): Fingerprint {
    Fingerprint([], [], "", i)
  }

  function Filled(k: nat): map<Fingerprint, Group> {
    if k == 0 then map[] else Filled(k - 1)[Fp(k - 1) := Group([k], map[BOUND := k])]
  }

  function Launched(k: nat): map<Generation, Worker> {
    if k == 0 then map[] else Launched(k - 1)[k := NewWorker(Fp(k - 1))]
  }

  function Chosen(i: nat): Request {
    Request(Fp(i), BOUND, Selected(i + 1), false, Queued, Held, 0, false)
  }

  function Served(k: nat): map<RequestId, Request> {
    if k == 0 then map[] else Served(k - 1)[k - 1 := Chosen(k - 1)]
  }

  /** The pool after `k` requests for as many fingerprints, each of which started its own worker. */
  function Full(limits: Limits, k: nat): Pool {
    Pool(limits, Table(Filled(k), (k + 1) % U64), None, Launched(k), Served(k))
  }

  function Order(k: nat): seq<Fingerprint> {
    seq(k, i requires 0 <= i => Fp(i))
  }

  lemma {:induction false} FilledMeans(k: nat)
    ensures forall fp :: fp in Filled(k) ==> exists i: nat :: i < k && fp == Fp(i)
    ensures forall i: nat :: Fp(i) in Filled(k) <==> i < k
    ensures forall i: nat :: i < k ==> Filled(k)[Fp(i)] == Group([i + 1], map[BOUND := i + 1])
  {
    if k > 0 { FilledMeans(k - 1); }
  }

  lemma FilledNext(k: nat)
    ensures Filled(k + 1) == Filled(k)[Fp(k) := Group([k + 1], map[BOUND := k + 1])]
  {
  }

  lemma {:induction false} FilledTotal(k: nat)
    ensures Total(Filled(k)) == k
  {
    hide Total;
    if k > 0 {
      FilledTotal(k - 1);
      FilledMeans(k - 1);
      TotalSplit(Filled(k), Fp(k - 1));
      assert Filled(k) - {Fp(k - 1)} == Filled(k - 1);
    } else {
      NoneTotal();
    }
  }

  lemma NoneTotal()
    ensures Total(map[]) == 0
  {
  }

  lemma {:induction false} LaunchedMeans(k: nat)
    ensures forall g :: g in Launched(k) <==> 1 <= g <= k
    ensures forall g :: 1 <= g <= k ==> Launched(k)[g] == NewWorker(Fp(g - 1))
    ensures forall r: nat :: r in Served(k) <==> r < k
    ensures forall r: nat :: r < k ==> Served(k)[r] == Chosen(r)
  {
    if k > 0 { LaunchedMeans(k - 1); }
  }

  // ---------------------------------------------------------------- runs

  ghost predicate Leads(p: Pool, q: Pool) {
    exists steps :: Legal(p, steps) && Run(p, steps) == q
  }

  lemma {:induction false} RunConcat(p: Pool, first: seq<Step>, second: seq<Step>)
    requires Legal(p, first) && Legal(Run(p, first), second)
    ensures Legal(p, first + second) && Run(p, first + second) == Run(Run(p, first), second)
    decreases |first|
  {
    hide Do, Enabled;
    if first == [] {
      assert first + second == second;
    } else {
      assert (first + second)[0] == first[0] && (first + second)[1..] == first[1..] + second;
      RunConcat(Do(p, first[0]), first[1..], second);
    }
  }

  lemma Stay(p: Pool)
    ensures Leads(p, p)
  {
    assert Legal(p, []) && Run(p, []) == p;
  }

  /** One more step at the end of a run. */
  lemma Then(p: Pool, q: Pool, step: Step)
    requires Leads(p, q) && Enabled(q, step)
    ensures Leads(p, Do(q, step))
  {
    hide Do, Enabled;
    var steps :| Legal(p, steps) && Run(p, steps) == q;
    assert [step][1..] == [];
    assert Legal(Do(q, step), []) && Run(Do(q, step), []) == Do(q, step);
    assert Legal(q, [step]) && Run(q, [step]) == Do(q, step);
    RunConcat(p, steps, [step]);
  }

  /** What the mutex holder knows after reading one slot of the workers up to `n`. */
  function Looked(seen: Seen, workers: map<Generation, Worker>, slot: Slot, n: nat): Seen
    requires forall g :: 1 <= g <= n ==> g in workers
  {
    if n == 0 then seen else Recorded(Looked(seen, workers, slot, n - 1), workers[n], n, slot)
  }

  /** Nobody holds the lock that a read of this slot takes. */
  predicate Readable(workers: map<Generation, Worker>, slot: Slot, n: nat) {
    forall g :: 1 <= g <= n ==> g in workers && (slot == Accepting ==> workers[g].sender == None)
  }

  lemma {:induction false} Look(start: Pool, p: Pool, slot: Slot, n: nat)
    requires Leads(start, p) && p.lock.Some? && Readable(p.workers, slot, n)
    ensures Leads(start, p.(lock := Some((p.lock.value.0, Looked(p.lock.value.1, p.workers, slot, n)))))
  {
    hide Leads;
    if n == 0 {
      assert p.(lock := Some((p.lock.value.0, p.lock.value.1))) == p;
    } else {
      Look(start, p, slot, n - 1);
      Then(start, p.(lock := Some((p.lock.value.0, Looked(p.lock.value.1, p.workers, slot, n - 1)))), Read(n, slot));
    }
  }

  /** The slot holds what the worker's own fields say. */
  predicate Noted(seen: Seen, w: Worker, g: Generation, slot: Slot) {
    match slot
    case Accepting => g in seen.accepting && seen.accepting[g] == w.accepting
    case Least => g in seen.load && seen.load[g] == w.pending
    case Confirm => g in seen.confirm && seen.confirm[g] == w.pending
    case IdleScan => g in seen.idle && seen.idle[g] == w.pending
    case Again => g in seen.again && seen.again[g] == w.pending
  }

  predicate AllAccept(workers: map<Generation, Worker>, n: nat) {
    forall g :: 1 <= g <= n ==> g in workers && workers[g].accepting
  }

  predicate NotedAll(seen: Seen, workers: map<Generation, Worker>, slot: Slot, n: nat) {
    forall g :: 1 <= g <= n ==> g in workers && Noted(seen, workers[g], g, slot)
  }

  /** Nothing but this slot has been written. */
  predicate OnlySlot(before: Seen, after: Seen, slot: Slot) {
    && (slot != Accepting ==> after.accepting == before.accepting)
    && (slot != Least ==> after.load == before.load)
    && (slot != Confirm ==> after.confirm == before.confirm)
    && (slot != IdleScan ==> after.idle == before.idle)
    && (slot != Again ==> after.again == before.again)
  }

  lemma {:induction false} LookedMeans(seen: Seen, workers: map<Generation, Worker>, slot: Slot, n: nat)
    requires forall g :: 1 <= g <= n ==> g in workers
    ensures NotedAll(Looked(seen, workers, slot, n), workers, slot, n)
    ensures OnlySlot(seen, Looked(seen, workers, slot, n), slot)
  {
    if n > 0 { LookedMeans(seen, workers, slot, n - 1); }
  }

  /** Every slot of every worker has been read, and every worker was accepting. */
  predicate Read?(seen: Seen, n: nat) {
    && (forall g :: 1 <= g <= n ==> Accepts(seen.accepting, g))
    && (forall g :: 1 <= g <= n ==> g in seen.load && g in seen.confirm && g in seen.idle && g in seen.again)
  }

  lemma PruneFilled(seen: Seen, k: nat)
    requires forall g :: 1 <= g <= k ==> Accepts(seen.accepting, g)
    ensures Prune(Filled(k), seen.accepting) == Filled(k)
  {
    hide LiveGroup, Filled;
    FilledMeans(k);
    forall fp | fp in Filled(k) ensures LiveGroup(Filled(k)[fp], seen.accepting) == Filled(k)[fp] && Filled(k)[fp].workers != [] {
      var i: nat :| i < k && fp == Fp(i);
      OneLive(i + 1, seen.accepting);
    }
  }

  lemma OneLive(g: Generation, accepting: map<Generation, bool>)
    requires Accepts(accepting, g)
    ensures LiveGroup(Group([g], map[BOUND := g]), accepting) == Group([g], map[BOUND := g])
  {
    assert [g][..0] == [];
    assert Live([g], accepting) == [g];
  }

  lemma CoversFilled(seen: Seen, k: nat)
    requires Read?(seen, k)
    ensures Covers(Filled(k), seen, Order(k))
  {
    hide Filled;
    FilledMeans(k);
    forall fp | fp in Filled(k) ensures fp in Order(k) {
      var i: nat :| i < k && fp == Fp(i);
      assert Order(k)[i] == fp;
    }
    forall fp: Fingerprint, g: Generation | Member(Filled(k), fp, g)
      ensures g in seen.accepting && g in seen.load && g in seen.confirm && g in seen.idle && g in seen.again
    {
      var i: nat :| i < k && fp == Fp(i);
      assert g in [i + 1];
      assert Accepts(seen.accepting, g);
    }
  }

  /** A request for a fingerprint that the table does not have, below the global limit. */
  lemma NewFingerprintStarts(limits: Limits, k: nat, seen: Seen)
    requires k < limits.total && k + 1 < U64 && Read?(seen, k)
    ensures TryWorker(Full(limits, k).table, limits, Fp(k), BOUND, seen, true) == (Started(k + 1), Full(limits, k + 1).table)
  {
    hide Total, Prune, Filled;
    FilledMeans(k);
    FilledTotal(k);
    PruneFilled(seen, k);
    FilledNext(k);
    assert [] + [k + 1] == [k + 1];
  }

  lemma FullGrows(limits: Limits, k: nat)
    requires k < limits.total && k + 1 < U64 && Leads(InitialPool(limits), Full(limits, k))
    ensures Leads(InitialPool(limits), Full(limits, k + 1))
  {
    hide Leads, TryWorker, Filled, Launched, Served, Covers;
    var start, p := InitialPool(limits), Full(limits, k);
    LaunchedMeans(k);
    var q := Request(Fp(k), BOUND, Idle, false, Queued, Held, 0, false);
    var arrived := p.(requests := p.requests[k := q]);
    Then(start, p, Arrive(k, Fp(k), BOUND));
    Then(start, arrived, Caller(k, Register));
    var registered := p.(requests := p.requests[k := q.(stage := Registered)]);
    assert Do(arrived, Caller(k, Register)) == registered;
    Then(start, registered, Acquire(k));
    var trying := p.(lock := Some((k, UNSEEN)), requests := p.requests[k := q.(stage := Trying)]);
    assert Do(registered, Acquire(k)) == trying;
    var seen := LookAll(start, trying, k);
    var ready := trying.(lock := Some((k, seen)));
    CoversFilled(seen, k);
    NewFingerprintStarts(limits, k, seen.(order := Order(k)));
    assert Decided(ready, Order(k), true) == (Started(k + 1), Full(limits, k + 1).table);
    Then(start, ready, Decide(Order(k), true));
    NextFull(limits, k, ready, q);
  }

  lemma NextFull(limits: Limits, k: nat, ready: Pool, q: Request)
    requires ready.lock.Some? && ready.lock.value.0 == k && k + 1 < U64
    requires q == Request(Fp(k), BOUND, Idle, false, Queued, Held, 0, false)
    requires ready == Full(limits, k).(lock := ready.lock, requests := Served(k)[k := q.(stage := Trying)])
    requires CanDecide(ready, Order(k), true) && Decided(ready, Order(k), true) == (Started(k + 1), Full(limits, k + 1).table)
    ensures AfterDecide(ready, Order(k), true) == Full(limits, k + 1)
  {
    hide TryWorker, Decided, Filled, Covers, CanDecide;
    assert CanDecide(ready, Order(k), true);
    assert Served(k)[k := q.(stage := Trying)][k := Chosen(k)] == Served(k + 1);
  }

  /** Reading all five slots of the first `n` workers while they do nothing. */
  lemma LookAll(start: Pool, p: Pool, n: nat) returns (seen: Seen)
    requires Leads(start, p) && p.lock.Some? && AllAccept(p.workers, n) && Readable(p.workers, Accepting, n)
    ensures Leads(start, p.(lock := Some((p.lock.value.0, seen)))) && Read?(seen, n)
  {
    hide Leads, Noted, NotedAll, OnlySlot, Read?;
    var a := LookOne(start, p, Accepting, n);
    var b := LookOne(start, p.(lock := Some((p.lock.value.0, a))), Least, n);
    var c := LookOne(start, p.(lock := Some((p.lock.value.0, b))), Confirm, n);
    var d := LookOne(start, p.(lock := Some((p.lock.value.0, c))), IdleScan, n);
    seen := LookOne(start, p.(lock := Some((p.lock.value.0, d))), Again, n);
    AllRead(p.workers, p.workers, p.workers, a, b, c, d, seen, n);
  }

  /** One slot after the other has been read: first the flags, then two loads, then the two others, while the
      workers may have moved on in between. */
  lemma AllRead(first: map<Generation, Worker>, before: map<Generation, Worker>, after: map<Generation, Worker>,
                a: Seen, b: Seen, c: Seen, d: Seen, e: Seen, n: nat)
    requires AllAccept(first, n)
    requires NotedAll(a, first, Accepting, n) && NotedAll(b, before, Least, n) && NotedAll(c, before, Confirm, n)
    requires NotedAll(d, after, IdleScan, n) && NotedAll(e, after, Again, n)
    requires OnlySlot(a, b, Least) && OnlySlot(b, c, Confirm) && OnlySlot(c, d, IdleScan) && OnlySlot(d, e, Again)
    ensures Read?(e, n)
    ensures n >= 1 ==> e.confirm[1] == before[1].pending && e.idle[1] == after[1].pending
  {
    forall g | 1 <= g <= n
      ensures Accepts(e.accepting, g) && g in e.load && g in e.confirm && g in e.idle && g in e.again
      ensures e.confirm[g] == before[g].pending && e.idle[g] == after[g].pending
    {
      assert Noted(a, first[g], g, Accepting) && Noted(b, before[g], g, Least) && Noted(c, before[g], g, Confirm);
      assert Noted(d, after[g], g, IdleScan) && Noted(e, after[g], g, Again);
    }
  }

  lemma LookOne(start: Pool, p: Pool, slot: Slot, n: nat) returns (seen: Seen)
    requires Leads(start, p) && p.lock.Some? && Readable(p.workers, slot, n)
    ensures Leads(start, p.(lock := Some((p.lock.value.0, seen))))
    ensures NotedAll(seen, p.workers, slot, n) && OnlySlot(p.lock.value.1, seen, slot)
  {
    hide Leads, Looked;
    Look(start, p, slot, n);
    LookedMeans(p.lock.value.1, p.workers, slot, n);
    seen := Looked(p.lock.value.1, p.workers, slot, n);
  }

  lemma {:induction false} FullReached(limits: Limits, k: nat)
    requires k <= limits.total && k < U64
    ensures Leads(InitialPool(limits), Full(limits, k))
  {
    hide Leads;
    if k == 0 {
      Stay(InitialPool(limits));
    } else {
      FullReached(limits, k - 1);
      FullGrows(limits, k - 1);
    }
  }

  // ---------------------------------------------------------------- the request that evicts its own

  /** The full pool while request `total` holds the mutex on behalf of the first fingerprint; worker 1 and
      request 0 are as given. */
  function Crowded(limits: Limits, seen: Seen, first: Worker, job: Request): Pool {
    var n := limits.total;
    Full(limits, n).(
      lock := Some((n, seen)),
      workers := Launched(n)[1 := first],
      requests := Served(n)[n := Request(Fp(0), LATER, Trying, false, Queued, Held, 0, false)][0 := job])
  }

  const SENDING := Chosen(0).(stage := Sending(1))
  const SENT := Chosen(0).(stage := Awaiting, place := On(1))
  const RUN := SENT.(job := InProgress)
  const ENDED := RUN.(ends := 1)
  const POPPED := Worker(Fp(0), true, 1, [], Popped(0), None)
  const DONE := Worker(Fp(0), true, 0, [], Decremented(0), None)

  /** The acceptance flags have been read; then the first request begins to send its job. */
  lemma CrowdedReached(limits: Limits) returns (seen: Seen)
    requires 1 <= limits.total < U64
    ensures Leads(InitialPool(limits), Crowded(limits, seen, Begun(NewWorker(Fp(0)), 0), SENDING))
    ensures NotedAll(seen, Launched(limits.total), Accepting, limits.total)
  {
    hide Leads, Filled, Launched, Served;
    var start, n := InitialPool(limits), limits.total;
    FullReached(limits, n);
    LaunchedMeans(n);
    var p := Full(limits, n);
    var q := Request(Fp(0), LATER, Idle, false, Queued, Held, 0, false);
    Then(start, p, Arrive(n, Fp(0), LATER));
    var arrived := p.(requests := p.requests[n := q]);
    Then(start, arrived, Caller(n, Register));
    var registered := p.(requests := p.requests[n := q.(stage := Registered)]);
    assert Do(arrived, Caller(n, Register)) == registered;
    Then(start, registered, Acquire(n));
    var trying := p.(lock := Some((n, UNSEEN)), requests := p.requests[n := q.(stage := Trying)]);
    assert Do(registered, Acquire(n)) == trying;
    seen := LookOne(start, trying, Accepting, n);
    Then(start, trying.(lock := Some((n, seen))), BeginSend(0));
  }

  /** The job is pushed and taken, then served up to the lowering of the load. */
  lemma TakenMeanwhile(limits: Limits, seen: Seen)
    requires 1 <= limits.total
    requires Leads(InitialPool(limits), Crowded(limits, seen, Begun(NewWorker(Fp(0)), 0), SENDING))
    ensures Leads(InitialPool(limits), Crowded(limits, seen, POPPED, SENT))
  {
    hide Leads, Filled, Launched, Served;
    var start, w := InitialPool(limits), Begun(NewWorker(Fp(0)), 0);
    var pushed := Pushed(w, 0);
    Then(start, Crowded(limits, seen, w, SENDING), Push(0));
    Moved(limits, seen, w, SENDING, pushed, SENT);
    assert pushed.queue == [Execute(0)] && pushed.queue[1..] == [];
    Then(start, Crowded(limits, seen, pushed, SENT), Thread(1, Take));
    Moved(limits, seen, pushed, SENT, POPPED, SENT);
  }

  lemma ServedMeanwhile(limits: Limits, seen: Seen)
    requires 1 <= limits.total
    requires Leads(InitialPool(limits), Crowded(limits, seen, POPPED, SENT))
    ensures Leads(InitialPool(limits), Crowded(limits, seen, DONE, ENDED))
  {
    hide Leads, Filled, Launched, Served;
    var start := InitialPool(limits);
    Then(start, Crowded(limits, seen, POPPED, SENT), Thread(1, Start));
    var running := POPPED.(phase := Running(0));
    Moved(limits, seen, POPPED, SENT, running, RUN);
    Then(start, Crowded(limits, seen, running, RUN), Thread(1, Finish));
    var finished := running.(phase := Finished(0));
    Moved(limits, seen, running, RUN, finished, ENDED);
    Then(start, Crowded(limits, seen, finished, ENDED), Thread(1, Decrement));
    Moved(limits, seen, finished, ENDED, DONE, ENDED);
  }

  lemma Moved(limits: Limits, seen: Seen, from: Worker, before: Request, to: Worker, after: Request)
    ensures var p := Crowded(limits, seen, from, before);
            p.(workers := p.workers[1 := to], requests := p.requests[0 := after]) == Crowded(limits, seen, to, after)
    ensures var p := Crowded(limits, seen, from, before);
            before == after ==> p.(workers := p.workers[1 := to]) == Crowded(limits, seen, to, after)
  {
  }

  /** What the reads have found: worker 1 busy at the first two looks and idle at the later ones. */
  lemma EvictsTheFirst(limits: Limits, seen: Seen, job: Request)
    requires 1 <= limits.total < U64 && limits.perFingerprint >= 2
    requires Read?(seen, limits.total) && seen.confirm[1] == 1 && seen.idle[1] == 0
    ensures var p := Crowded(limits, seen, DONE, job);
            CanDecide(p, Order(limits.total), true) && Decided(p, Order(limits.total), true).0 == Evicted(Fp(0), 1)
  {
    hide Total, Prune, Filled, Launched, Served;
    var n := limits.total;
    FilledMeans(n);
    FilledTotal(n);
    PruneFilled(seen, n);
    CoversFilled(seen, n);
    LaunchedMeans(n);
    var groups := Filled(n);
    assert Unbind(groups, Fp(0), LATER) == groups by {
      assert map[BOUND := 1] - {LATER} == map[BOUND := 1];
    }
    assert Order(n)[0] == Fp(0);
  }

  /** The limits leave some run a request that evicts a worker of its own fingerprint. */
  ghost predicate SomeRunEvictsItsOwn(limits: Limits) {
    exists p, order, starts :: Leads(InitialPool(limits), p) && DecidesForItsOwn(p, order, starts)
  }

  ghost predicate DecidesForItsOwn(p: Pool, order: seq<Fingerprint>, starts: bool) {
    && CanDecide(p, order, starts) && p.lock.Some? && p.lock.value.0 in p.requests
    && EvictsOwn(Decided(p, order, starts).0, p.requests[p.lock.value.0].fingerprint)
  }

  lemma SomeRun(limits: Limits)
    requires 1 <= limits.total < U64 && limits.perFingerprint >= 2
    ensures SomeRunEvictsItsOwn(limits)
  {
    hide Leads, Filled, Launched, Served, TryWorker, CanDecide, Decided, NotedAll, OnlySlot, Read?;
    var start, n := InitialPool(limits), limits.total;
    var w := Begun(NewWorker(Fp(0)), 0);
    CrowdedAccepts(limits, w);
    CrowdedAccepts(limits, DONE);
    var a := CrowdedReached(limits);
    var workers, later := Launched(n)[1 := w], Launched(n)[1 := DONE];
    var b := LookOne(start, Crowded(limits, a, w, SENDING), Least, n);
    var c := LookOne(start, Crowded(limits, b, w, SENDING), Confirm, n);
    TakenMeanwhile(limits, c);
    ServedMeanwhile(limits, c);
    var d := LookOne(start, Crowded(limits, c, DONE, ENDED), IdleScan, n);
    var e := LookOne(start, Crowded(limits, d, DONE, ENDED), Again, n);
    AllRead(Launched(n), workers, later, a, b, c, d, e, n);
    EvictsTheFirst(limits, e, ENDED);
    EvictsInRun(limits, e);
  }

  lemma CrowdedAccepts(limits: Limits, w: Worker)
    requires w.accepting
    ensures AllAccept(Launched(limits.total), limits.total) && AllAccept(Launched(limits.total)[1 := w], limits.total)
    ensures var workers := Launched(limits.total)[1 := w];
            && Readable(workers, Least, limits.total) && Readable(workers, Confirm, limits.total)
            && Readable(workers, IdleScan, limits.total) && Readable(workers, Again, limits.total)
  {
    LaunchedMeans(limits.total);
  }

  lemma EvictsInRun(limits: Limits, seen: Seen)
    requires var p := Crowded(limits, seen, DONE, ENDED);
             && Leads(InitialPool(limits), p) && CanDecide(p, Order(limits.total), true)
             && Decided(p, Order(limits.total), true).0 == Evicted(Fp(0), 1)
    ensures limits.total >= 1 ==> SomeRunEvictsItsOwn(limits)
  {
    hide Leads, Filled, Launched, Served, TryWorker, CanDecide, Decided;
    var p := Crowded(limits, seen, DONE, ENDED);
    assert limits.total >= 1 ==> p.requests[limits.total].fingerprint == Fp(0);
    assert limits.total >= 1 ==> DecidesForItsOwn(p, Order(limits.total), true);
    assert limits.total >= 1 ==> EvictsOwn(Decided(p, Order(limits.total), true).0, p.requests[p.lock.value.0].fingerprint);
  }

  /** Over all runs: a request can evict a worker of its own fingerprint exactly if a fingerprint may have
      more than one. So it can with the default limits and with every `with_max_processes(n)`, n >= 2. */
  lemma OwnEvictionExactly(perFingerprint: nat, total: nat)
    requires total < U64
    ensures SomeRunEvictsItsOwn(WithLimits(perFingerprint, total)) <==> perFingerprint >= 2
  {
    hide Leads, TryWorker, CanDecide;
    var limits := WithLimits(perFingerprint, total);
    if perFingerprint >= 2 {
      SomeRun(limits);
    } else if SomeRunEvictsItsOwn(limits) {
      var p, order, starts :| Leads(InitialPool(limits), p) && DecidesForItsOwn(p, order, starts);
      NeverItsOwn(limits, p, order, starts);
    }
  }

  lemma NeverItsOwn(limits: Limits, p: Pool, order: seq<Fingerprint>, starts: bool)
    requires Leads(InitialPool(limits), p) && limits.perFingerprint <= 1
    ensures !DecidesForItsOwn(p, order, starts)
  {
    hide Do, Enabled, TryWorker, Covers;
    var steps :| Legal(InitialPool(limits), steps) && Run(InitialPool(limits), steps) == p;
    LimitsStay(InitialPool(limits), steps);
    if DecidesForItsOwn(p, order, starts) {
      var q := p.requests[p.lock.value.0];
      NoRoomNoOwnEviction(p.table, p.limits, q.fingerprint, q.key, p.lock.value.1.(order := order), starts);
    }
  }
}
