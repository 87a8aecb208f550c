/** The running pool: requests, worker threads and the table, as interleaved atomic steps.

    A step is one lock acquisition, one atomic load or update, one channel operation or one notification.
    Lowering a worker's load and notifying the waiters are two steps. */
module PoolModel {
  import opened Wrappers
  import opened PoolTable

  type RequestId = nat

  datatype Command = Execute(job: RequestId) | Shutdown

  /** Where a worker's thread stands; `job` is the request it is serving. The last four lead from
      leaving the loop to the end of the thread. */
  datatype Phase =
    | Receiving
    | Popped(job: RequestId)
    | Running(job: RequestId)
    | Finished(job: RequestId)
    | Decremented(job: RequestId)
    | Notified(job: RequestId)
    | Stopping
    | Leaving
    | Closing
    | Gone

  /** `sender` holds the acceptance lock between raising the load and pushing its job. */
  datatype Worker = Worker(
    fingerprint: Fingerprint,
    accepting: bool,
    pending: nat,
    queue: seq<Command>,
    phase: Phase,
    sender: Option<RequestId>)

  datatype Stage =
    | Idle
    | Registered
    | Trying
    | Parked
    | Selected(worker: Generation)
    | Sending(worker: Generation)
    | Awaiting
    | Left
    | Failed

  datatype JobState = Queued | InProgress | Cancelled

  datatype Place = Held | On(worker: Generation) | Settled

  /** `signalled`: a notification came since the request last registered. `place` is where its job is,
      `ends` how often `turn_end` ran for it, `dropped` that its caller stopped awaiting it. */
  datatype Request = Request(
    fingerprint: Fingerprint,
    key: SessionKey,
    stage: Stage,
    signalled: bool,
    job: JobState,
    place: Place,
    ends: nat,
    dropped: bool)

  /** `lock` is the table's mutex: its holder and what it has read so far. */
  datatype Pool = Pool(
    limits: Limits,
    table: Table,
    lock: Option<(RequestId, Seen)>,
    workers: map<Generation, Worker>,
    requests: map<RequestId, Request>)

  /** Moves of a caller that concern only its own request. */
  datatype Ask = Register | Wake | Withdraw | Cancel | Drop | Receive

  /** Moves of a worker's thread that concern only itself and the job it serves. */
  datatype Work = Take | Timeout | Disconnect | Start | Finish | Decrement | Reply | Close

  datatype Slot = Accepting | Least | Confirm | IdleScan | Again

  datatype Step =
    | Arrive(request: RequestId, fingerprint: Fingerprint, key: SessionKey)
    | Caller(request: RequestId, ask: Ask)
    | Acquire(request: RequestId)
    | Read(worker: Generation, slot: Slot)
    | Decide(order: seq<Fingerprint>, starts: bool)
    | BeginSend(request: RequestId)
    | Push(request: RequestId)
    | Thread(worker: Generation, work: Work)
    | NotifyAll(worker: Generation)
    | Remove(worker: Generation)

  const UNSEEN := Seen(map[], map[], map[], map[], map[], [])

  function InitialPool(limits: Limits): Pool {
    Pool(limits, INITIAL, None, map[], map[])
  }

  // ---------------------------------------------------------------- the caller

  predicate CanAsk(q: Request, ask: Ask) {
    match ask
    case Register => q.stage == Idle
    case Wake => q.stage == Parked && q.signalled
    case Withdraw => q.stage == Idle || q.stage == Parked
    case Cancel => q.stage == Awaiting && q.job == Queued
    case Drop => q.stage == Idle || q.stage == Parked || q.stage == Awaiting
    case Receive => q.stage == Awaiting && q.place == Settled
  }

  /** A caller cancelled while waiting or before its job starts runs `turn_end` itself. */
  function AfterAsk(q: Request, ask: Ask): Request {
    match ask
    case Register => q.(stage := Registered, signalled := false)
    case Wake => q.(stage := Idle)
    case Withdraw => q.(stage := Left, place := Settled, ends := q.ends + 1)
    case Cancel => q.(stage := Left, job := Cancelled, ends := q.ends + 1)
    case Drop =>
      q.(stage := Left, dropped := true,
         job := if q.job == Queued then Cancelled else q.job,
         place := if q.place == Held then Settled else q.place)
    case Receive => q.(stage := Left)
  }

  // ---------------------------------------------------------------- the worker

  predicate CanWork(w: Worker, work: Work) {
    match work
    case Take => w.phase == Receiving && w.queue != []
    case Timeout => w.phase == Receiving && w.queue == [] && w.sender == None
    case Disconnect => w.phase == Receiving && w.queue == []
    case Start => w.phase.Popped?
    case Finish => w.phase.Running?
    case Decrement => w.phase.Finished?
    case Reply => w.phase.Notified?
    case Close => w.phase == Stopping && w.sender == None
  }

  function Lowered(pending: nat): nat {
    if pending == 0 then U64 - 1 else pending - 1
  }

  /** `job` is the state of the job the worker holds, if it holds one. */
  function AfterWork(w: Worker, work: Work, job: JobState): Worker
    requires CanWork(w, work)
  {
    match work
    case Take =>
      w.(queue := w.queue[1..], phase := if w.queue[0].Execute? then Popped(w.queue[0].job) else Stopping)
    case Timeout => w.(accepting := false, phase := Stopping)
    case Disconnect => w.(phase := Stopping)
    case Start => w.(phase := if job == Queued then Running(w.phase.job) else Finished(w.phase.job))
    case Finish => w.(phase := Finished(w.phase.job))
    case Decrement => w.(pending := Lowered(w.pending), phase := Decremented(w.phase.job))
    case Reply => w.(phase := Receiving)
    case Close => w.(accepting := false, phase := Leaving)
  }

  /** The job's side of the same moves. */
  function JobAfterWork(q: Request, work: Work): Request {
    match work
    case Start => if q.job == Queued then q.(job := InProgress) else q
    case Finish => q.(ends := q.ends + 1)
    case Reply => q.(place := Settled)
    case _ => q
  }

  function PhaseJob(phase: Phase): Option<RequestId> {
    match phase
    case Popped(r) => Some(r)
    case Running(r) => Some(r)
    case Finished(r) => Some(r)
    case Decremented(r) => Some(r)
    case Notified(r) => Some(r)
    case _ => None
  }

  function StopAccepting(w: Worker): Worker {
    if w.accepting then w.(accepting := false, queue := w.queue + [Shutdown]) else w
  }

  function NewWorker(fp: Fingerprint): Worker {
    Worker(fp, true, 0, [], Receiving, None)
  }

  // ---------------------------------------------------------------- the pool

  function Recorded(seen: Seen, w: Worker, g: Generation, slot: Slot): Seen {
    match slot
    case Accepting => seen.(accepting := seen.accepting[g := w.accepting])
    case Least => seen.(load := seen.load[g := w.pending])
    case Confirm => seen.(confirm := seen.confirm[g := w.pending])
    case IdleScan => seen.(idle := seen.idle[g := w.pending])
    case Again => seen.(again := seen.again[g := w.pending])
  }

  /** Every read a decision may use has been made. */
  ghost predicate Covers(groups: map<Fingerprint, Group>, seen: Seen, order: seq<Fingerprint>) {
    && (forall fp :: fp in groups ==> fp in order)
    && (forall fp, g :: Member(groups, fp, g) ==>
          g in seen.accepting && g in seen.load && g in seen.confirm && g in seen.idle && g in seen.again)
  }

  ghost function Decided(p: Pool, order: seq<Fingerprint>, starts: bool): (Decision, Table)
    requires p.lock.Some? && p.lock.value.0 in p.requests
  {
    var q := p.requests[p.lock.value.0];
    TryWorker(p.table, p.limits, q.fingerprint, q.key, p.lock.value.1.(order := order), starts)
  }

  ghost predicate HasHandle(p: Pool, g: Generation) {
    || (exists fp :: Member(p.table.groups, fp, g))
    || (exists r :: r in p.requests && p.requests[r].stage in {Selected(g), Sending(g)})
  }

  ghost predicate CanDecide(p: Pool, order: seq<Fingerprint>, starts: bool) {
    && p.lock.Some? && p.lock.value.0 in p.requests
    && Covers(p.table.groups, p.lock.value.1, order)
    && var decision := Decided(p, order, starts).0;
       (decision.Evicted? && decision.worker in p.workers ==> p.workers[decision.worker].sender == None)
  }

  ghost predicate Enabled(p: Pool, step: Step) {
    match step
    case Arrive(r, _, key) => r !in p.requests && key != ""
    case Caller(r, ask) => r in p.requests && CanAsk(p.requests[r], ask)
    case Acquire(r) => r in p.requests && p.requests[r].stage == Registered && p.lock == None
    case Read(g, slot) => g in p.workers && p.lock.Some? && (slot == Accepting ==> p.workers[g].sender == None)
    case Decide(order, starts) => CanDecide(p, order, starts)
    case BeginSend(r) =>
      && r in p.requests && p.requests[r].stage.Selected?
      && p.requests[r].stage.worker in p.workers && p.workers[p.requests[r].stage.worker].sender == None
    case Push(r) => r in p.requests && p.requests[r].stage.Sending? && p.requests[r].stage.worker in p.workers
    case Thread(g, work) =>
      && g in p.workers && CanWork(p.workers[g], work)
      && (PhaseJob(p.workers[g].phase).Some? ==> PhaseJob(p.workers[g].phase).value in p.requests)
      && (work == Disconnect ==> !HasHandle(p, g))
    case NotifyAll(g) => g in p.workers && (p.workers[g].phase.Decremented? || p.workers[g].phase == Closing)
    case Remove(g) => g in p.workers && p.workers[g].phase == Leaving && p.lock == None
  }

  ghost function AfterDecide(p: Pool, order: seq<Fingerprint>, starts: bool): Pool
    requires CanDecide(p, order, starts)
  {
    var r := p.lock.value.0;
    var q := p.requests[r];
    var (decision, table) := Decided(p, order, starts);
    var free := p.(table := table, lock := None);
    match decision
    case Found(g) => free.(requests := p.requests[r := q.(stage := Selected(g))])
    case Started(g) =>
      free.(requests := p.requests[r := q.(stage := Selected(g))], workers := p.workers[g := NewWorker(q.fingerprint)])
    case StartFailed => free.(requests := p.requests[r := q.(stage := Failed, place := Settled)])
    case Evicted(_, g) =>
      free.(requests := p.requests[r := q.(stage := Parked)],
            workers := if g in p.workers then p.workers[g := StopAccepting(p.workers[g])] else p.workers)
    case Full => free.(requests := p.requests[r := q.(stage := Parked)])
  }

  /** The load is raised before the job is pushed, both under the acceptance lock. */
  function Begun(w: Worker, r: RequestId): Worker {
    w.(pending := w.pending + 1, sender := Some(r))
  }

  function Pushed(w: Worker, r: RequestId): Worker {
    w.(queue := w.queue + [Execute(r)], sender := None)
  }

  function AfterBegin(p: Pool, r: RequestId, g: Generation): Pool
    requires r in p.requests && g in p.workers
  {
    var w := p.workers[g];
    if !w.accepting then p.(requests := p.requests[r := p.requests[r].(stage := Idle)])
    else p.(requests := p.requests[r := p.requests[r].(stage := Sending(g))],
            workers := p.workers[g := Begun(w, r)])
  }

  /** The push fails only when the thread, and with it the receiver, is gone. */
  function AfterPush(p: Pool, r: RequestId, g: Generation): Pool
    requires r in p.requests && g in p.workers
  {
    var w := p.workers[g];
    if w.phase == Gone then
      p.(requests := p.requests[r := p.requests[r].(stage := Idle)],
         workers := p.workers[g := w.(pending := Lowered(w.pending), sender := None)])
    else
      p.(requests := p.requests[r := p.requests[r].(stage := Awaiting, place := On(g))],
         workers := p.workers[g := Pushed(w, r)])
  }

  function AfterThread(p: Pool, g: Generation, work: Work): Pool
    requires g in p.workers && CanWork(p.workers[g], work)
    requires PhaseJob(p.workers[g].phase).Some? ==> PhaseJob(p.workers[g].phase).value in p.requests
  {
    match PhaseJob(p.workers[g].phase)
    case None => p.(workers := p.workers[g := AfterWork(p.workers[g], work, Queued)])
    case Some(r) =>
      p.(workers := p.workers[g := AfterWork(p.workers[g], work, p.requests[r].job)],
         requests := p.requests[r := JobAfterWork(p.requests[r], work)])
  }

  function AllSignalled(requests: map<RequestId, Request>): map<RequestId, Request> {
    map r | r in requests :: requests[r].(signalled := true)
  }

  function AfterNotify(w: Worker): Worker {
    w.(phase := if w.phase.Decremented? then Notified(w.phase.job) else Gone)
  }

  ghost function Do(p: Pool, step: Step): Pool
    requires Enabled(p, step)
  {
    match step
    case Arrive(r, fp, key) =>
      p.(requests := p.requests[r := Request(fp, key, Idle, false, Queued, Held, 0, false)])
    case Caller(r, ask) => p.(requests := p.requests[r := AfterAsk(p.requests[r], ask)])
    case Acquire(r) =>
      p.(lock := Some((r, UNSEEN)), requests := p.requests[r := p.requests[r].(stage := Trying)])
    case Read(g, slot) =>
      p.(lock := Some((p.lock.value.0, Recorded(p.lock.value.1, p.workers[g], g, slot))))
    case Decide(order, starts) => AfterDecide(p, order, starts)
    case BeginSend(r) => AfterBegin(p, r, p.requests[r].stage.worker)
    case Push(r) => AfterPush(p, r, p.requests[r].stage.worker)
    case Thread(g, work) => AfterThread(p, g, work)
    case NotifyAll(g) =>
      p.(workers := p.workers[g := AfterNotify(p.workers[g])], requests := AllSignalled(p.requests))
    case Remove(g) =>
      p.(workers := p.workers[g := p.workers[g].(phase := Closing)],
         table := Exit(p.table, p.workers[g].fingerprint, g))
  }

  ghost predicate Legal(p: Pool, steps: seq<Step>)
    decreases |steps|
  {
    steps == [] || (Enabled(p, steps[0]) && Legal(Do(p, steps[0]), steps[1..]))
  }

  ghost function Run(p: Pool, steps: seq<Step>): Pool
    requires Legal(p, steps)
    decreases |steps|
  {
    if steps == [] then p else Run(Do(p, steps[0]), steps[1..])
  }
}
