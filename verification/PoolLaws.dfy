/** What every step of the running pool keeps. */
module PoolLaws {
  import opened Wrappers
  import opened PoolTable
  import opened PoolDecisions
  import opened PoolModel

  predicate Exiting(phase: Phase) {
    phase == Stopping || phase == Leaving || phase == Closing || phase == Gone
  }

  /** Nothing stands behind a Shutdown and no job stands twice. */
  predicate Orderly(q: seq<Command>) {
    && (forall i :: 0 <= i < |q| - 1 ==> q[i].Execute?)
    && (forall i, j :: 0 <= i < j < |q| ==> q[i] != q[j])
  }

  predicate EndsInShutdown(q: seq<Command>) {
    q != [] && q[|q| - 1] == Shutdown
  }

  function QueuedJobs(q: seq<Command>): nat {
    if EndsInShutdown(q) then |q| - 1 else |q|
  }

  /** 1 while the worker still counts the job it took. */
  function Counted(phase: Phase): nat {
    if phase.Popped? || phase.Running? || phase.Finished? then 1 else 0
  }

  /** `pending` counts what is queued, taken or about to be pushed; a worker that stopped accepting has a
      Shutdown waiting for it at the end of its queue, or has left its loop with nothing queued. */
  predicate Sound(w: Worker) {
    && Orderly(w.queue)
    && w.pending == QueuedJobs(w.queue) + Counted(w.phase) + (if w.sender.Some? then 1 else 0)
    && (PhaseJob(w.phase).Some? ==> Execute(PhaseJob(w.phase).value) !in w.queue)
    && (w.accepting ==> !Exiting(w.phase) && !EndsInShutdown(w.queue))
    && (!w.accepting ==> w.sender == None)
    && (!w.accepting && Exiting(w.phase) ==> w.queue == [])
    && (!w.accepting && !Exiting(w.phase) ==> EndsInShutdown(w.queue))
  }

  predicate AtCaller(stage: Stage) {
    stage == Idle || stage == Registered || stage == Trying || stage == Parked || stage.Selected? || stage.Sending?
  }

  /** How the caller's position, the job's state, its place and the `turn_end` count belong together. */
  predicate Life(q: Request) {
    && q.ends <= 1
    && (AtCaller(q.stage) ==> q.place == Held && q.job == Queued && q.ends == 0 && !q.dropped)
    && (q.stage == Awaiting ==> q.place != Held && !q.dropped && q.job != Cancelled && (q.place == Settled ==> q.ends == 1 && q.job == InProgress))
    && (q.stage == Left ==> q.place != Held && (!q.dropped ==> q.ends == 1))
    && (q.stage == Failed ==> q.place == Settled && q.ends == 0 && !q.dropped)
    && (q.place.On? && q.job == Queued ==> q.stage == Awaiting && q.ends == 0)
    && (q.dropped && q.ends == 1 ==> q.job == InProgress)
  }

  predicate OnWorker(w: Worker, r: RequestId) {
    Execute(r) in w.queue || PhaseJob(w.phase) == Some(r)
  }

  predicate Past(phase: Phase, r: RequestId) {
    phase == Finished(r) || phase == Decremented(r) || phase == Notified(r)
  }

  /** Worker `g` has the job exactly when the job's place says so, its state fits how far the worker got,
      the sender is the request that is sending, and the launch fingerprints agree. */
  predicate Pair(w: Worker, g: Generation, r: RequestId, q: Request) {
    && (OnWorker(w, r) <==> q.place == On(g))
    && (w.sender == Some(r) <==> q.stage == Sending(g))
    && (w.phase == Running(r) ==> q.job == InProgress && q.ends == 0)
    && (Past(w.phase, r) ==> (q.job == InProgress && q.ends == 1) || q.job == Cancelled)
    && (w.phase == Popped(r) || Execute(r) in w.queue ==> q.job != InProgress)
    && (q.stage == Selected(g) || q.stage == Sending(g) || q.place == On(g) ==> w.fingerprint == q.fingerprint)
  }

  predicate Core(workers: map<Generation, Worker>, requests: map<RequestId, Request>) {
    && (forall g :: g in workers ==> Sound(workers[g]))
    && (forall r :: r in requests ==> Life(requests[r]))
    && (forall g, r :: g in workers && r in requests ==> Pair(workers[g], g, r, requests[r]))
    && (forall g :: g in workers ==> forall c :: c in workers[g].queue ==> KnownCommand(c, requests))
    && (forall g :: g in workers ==> KnownJob(PhaseJob(workers[g].phase), requests) && KnownJob(workers[g].sender, requests))
    && (forall r :: r in requests ==> KnownWorker(requests[r], workers))
  }

  predicate KnownCommand(c: Command, requests: map<RequestId, Request>) {
    c.Execute? ==> c.job in requests
  }

  predicate KnownJob(job: Option<RequestId>, requests: map<RequestId, Request>) {
    job.Some? ==> job.value in requests
  }

  predicate KnownWorker(q: Request, workers: map<Generation, Worker>) {
    && (q.stage.Selected? || q.stage.Sending? ==> q.stage.worker in workers)
    && (q.place.On? ==> q.place.worker in workers)
  }

  /** The mutex holder is the one request inside `try_worker`. */
  predicate Locked(lock: Option<(RequestId, Seen)>, requests: map<RequestId, Request>) {
    && (lock.Some? ==> lock.value.0 in requests)
    && (forall r :: r in requests ==> (requests[r].stage == Trying <==> lock.Some? && lock.value.0 == r))
  }

  /** The table lists only known workers, under their fingerprint, and every one that still accepts. */
  ghost predicate Listed(table: Table, workers: map<Generation, Worker>) {
    && (forall fp, g :: Member(table.groups, fp, g) ==> g in workers && workers[g].fingerprint == fp)
    && (forall g :: g in workers && workers[g].accepting ==> Member(table.groups, workers[g].fingerprint, g))
    && (forall g :: g in workers ==> 1 <= g < table.nextGeneration)
  }

  /** A worker that holds work or has to stop: its thread will notify the waiters. */
  predicate Due(w: Worker) {
    || w.pending > 0
    || w.phase.Decremented?
    || (w.phase != Gone && (Exiting(w.phase) || !w.accepting))
  }

  predicate Alive(w: Worker) {
    w.phase != Gone
  }

  /** What the mutex holder has read is still good for it, unless it has been signalled since. */
  predicate Believed(seen: Seen, workers: map<Generation, Worker>) {
    && (forall g :: g in seen.accepting && seen.accepting[g] ==> g in workers && Alive(workers[g]))
    && (forall g :: g in seen.idle && seen.idle[g] > 0 ==> g in workers && Due(workers[g]))
  }

  /** A worker seen to refuse refuses for good. */
  predicate RefusedForGood(seen: Seen, workers: map<Generation, Worker>) {
    forall g :: g in seen.accepting && !seen.accepting[g] ==> g in workers && !workers[g].accepting
  }

  predicate SeenHolds(lock: Option<(RequestId, Seen)>, workers: map<Generation, Worker>, requests: map<RequestId, Request>) {
    lock.Some? ==>
      && RefusedForGood(lock.value.1, workers)
      && (lock.value.0 in requests && !requests[lock.value.0].signalled ==> Believed(lock.value.1, workers))
  }

  predicate SomeDue(workers: map<Generation, Worker>) {
    exists g :: g in workers && Due(workers[g])
  }

  predicate Stuck(q: Request) {
    q.stage == Parked && !q.signalled
  }

  /** No request is parked without a signal unless some worker will still signal it. */
  predicate NoneStranded(workers: map<Generation, Worker>, requests: map<RequestId, Request>) {
    (exists r :: r in requests && Stuck(requests[r])) ==> SomeDue(workers)
  }

  ghost predicate Inv(p: Pool) {
    && Bounded(p.table, p.limits)
    && Core(p.workers, p.requests)
    && Locked(p.lock, p.requests)
    && Listed(p.table, p.workers)
    && SeenHolds(p.lock, p.workers, p.requests)
    && NoneStranded(p.workers, p.requests)
  }

  // ---------------------------------------------------------------- updates of the two maps

  lemma UpdateRequest(workers: map<Generation, Worker>, requests: map<RequestId, Request>, r: RequestId, q: Request)
    requires Core(workers, requests) && Life(q) && KnownWorker(q, workers)
    requires forall g :: g in workers ==> Pair(workers[g], g, r, q)
    ensures Core(workers, requests[r := q])
  {
    hide Life, Pair, Sound, KnownWorker;
  }

  lemma UpdateWorker(workers: map<Generation, Worker>, requests: map<RequestId, Request>, g: Generation, w: Worker)
    requires Core(workers, requests) && Sound(w)
    requires forall r :: r in requests ==> Pair(w, g, r, requests[r])
    requires forall c :: c in w.queue ==> KnownCommand(c, requests)
    requires KnownJob(PhaseJob(w.phase), requests) && KnownJob(w.sender, requests)
    ensures Core(workers[g := w], requests)
  {
    hide Life, Pair, Sound, KnownCommand, KnownJob;
  }

  /** Both at once: a worker and the request it deals with. */
  lemma UpdateBoth(workers: map<Generation, Worker>, requests: map<RequestId, Request>,
                   g: Generation, w: Worker, r: RequestId, q: Request)
    requires Core(workers, requests) && Sound(w) && Life(q) && r in requests && g in workers
    requires Pair(w, g, r, q)
    requires forall s :: s in requests && s != r ==> Pair(w, g, s, requests[s])
    requires forall h :: h in workers && h != g ==> Pair(workers[h], h, r, q)
    requires forall c :: c in w.queue ==> KnownCommand(c, requests)
    requires KnownJob(PhaseJob(w.phase), requests) && KnownJob(w.sender, requests) && KnownWorker(q, workers)
    ensures Core(workers[g := w], requests[r := q])
  {
    hide Life, Pair, Sound;
  }

  // ---------------------------------------------------------------- one record at a time

  lemma WorkSound(w: Worker, work: Work, job: JobState)
    requires Sound(w) && CanWork(w, work) && work != Disconnect
    ensures Sound(AfterWork(w, work, job))
  {
    if work == Take {
      var rest := w.queue[1..];
      assert forall i :: 0 <= i < |rest| ==> rest[i] == w.queue[i + 1];
      assert w.queue[0] !in rest;
      assert rest != [] ==> rest[|rest| - 1] == w.queue[|w.queue| - 1];
    }
  }

  lemma StopSound(w: Worker)
    requires Sound(w) && w.sender == None
    ensures Sound(StopAccepting(w))
  {
  }

  lemma AskLife(q: Request, ask: Ask)
    requires Life(q) && CanAsk(q, ask)
    ensures Life(AfterAsk(q, ask))
  {
  }

  lemma AskPair(w: Worker, g: Generation, r: RequestId, q: Request, ask: Ask)
    requires Pair(w, g, r, q) && Life(q) && CanAsk(q, ask)
    ensures Pair(w, g, r, AfterAsk(q, ask))
  {
  }

  /** The worker's move seen by the job it serves. */
  lemma WorkPair(w: Worker, g: Generation, r: RequestId, q: Request, work: Work)
    requires Pair(w, g, r, q) && Sound(w) && Life(q) && CanWork(w, work) && PhaseJob(w.phase) == Some(r)
    ensures Pair(AfterWork(w, work, q.job), g, r, JobAfterWork(q, work)) && Life(JobAfterWork(q, work))
  {
  }

  /** The worker's move seen by any other request. */
  lemma WorkPairOther(w: Worker, g: Generation, r: RequestId, q: Request, work: Work, job: JobState)
    requires Pair(w, g, r, q) && Sound(w) && CanWork(w, work) && PhaseJob(w.phase) != Some(r)
    ensures Pair(AfterWork(w, work, job), g, r, q)
  {
    if work == Take {
      assert w.queue == [w.queue[0]] + w.queue[1..];
    }
  }

  /** The job's move seen by any other worker. */
  lemma JobPairOther(w: Worker, g: Generation, h: Generation, r: RequestId, q: Request, work: Work)
    requires Pair(w, h, r, q) && q.place == On(g) && g != h
    ensures Pair(w, h, r, JobAfterWork(q, work))
  {
  }

  lemma WorkDue(w: Worker, work: Work, job: JobState)
    requires Sound(w) && CanWork(w, work)
    ensures Due(w) ==> Due(AfterWork(w, work, job))
    ensures Alive(w) ==> Alive(AfterWork(w, work, job))
    ensures !w.accepting ==> !AfterWork(w, work, job).accepting
    ensures AfterWork(w, work, job).fingerprint == w.fingerprint
  {
  }
}
