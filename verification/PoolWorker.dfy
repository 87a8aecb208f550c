/** A pooled worker's own code, proved to make exactly the moves of the model. */
module PoolWorker {
  import opened Wrappers
  import opened PoolTable
  import opened PoolModel
  import opened PoolLaws

  /** One full turn of the worker's loop over the command at the head of its queue. */
  function Served(w: Worker, job: JobState): Worker
    requires w.phase == Receiving && w.queue != [] && w.sender == None
  {
    var taken := AfterWork(w, Take, job);
    if taken.phase == Stopping then AfterWork(taken, Close, job)
    else
      var started := AfterWork(taken, Start, job);
      var finished := if started.phase.Running? then AfterWork(started, Finish, job) else started;
      AfterWork(AfterNotify(AfterWork(finished, Decrement, job)), Reply, job)
  }

  /** Serving keeps the worker sound: it either answers exactly the first job and lowers the load by one,
      or obeys the Shutdown with nothing left behind. */
  lemma ServedMeans(w: Worker, job: JobState)
    requires Sound(w) && w.phase == Receiving && w.queue != [] && w.sender == None
    ensures Sound(Served(w, job))
    ensures var after := Served(w, job);
            if w.queue[0].Execute?
            then after.phase == Receiving && after.queue == w.queue[1..] && after.pending == w.pending - 1
            else after.phase == Leaving && after.queue == [] && !after.accepting && w.pending == 0
  {
    hide Sound;
    WorkSound(w, Take, job);
    assert Sound(w) ==> w.pending >= QueuedJobs(w.queue) by { PendingCounts(w); }
    var taken := AfterWork(w, Take, job);
    if taken.phase == Stopping {
      WorkSound(taken, Close, job);
      ShutdownIsLast(w);
    } else {
      WorkSound(taken, Start, job);
      var started := AfterWork(taken, Start, job);
      if started.phase.Running? { WorkSound(started, Finish, job); }
      var finished := if started.phase.Running? then AfterWork(started, Finish, job) else started;
      WorkSound(finished, Decrement, job);
      var lowered := AfterWork(finished, Decrement, job);
      assert Sound(AfterNotify(lowered)) by { NotifiedSound(lowered); }
      WorkSound(AfterNotify(lowered), Reply, job);
    }
  }

  lemma PendingCounts(w: Worker)
    requires Sound(w)
    ensures w.pending >= QueuedJobs(w.queue)
  {
  }

  lemma ShutdownIsLast(w: Worker)
    requires Sound(w) && w.queue != [] && w.queue[0] == Shutdown && w.phase == Receiving && w.sender == None
    ensures w.queue == [Shutdown] && w.pending == 0
  {
  }

  lemma NotifiedSound(w: Worker)
    requires Sound(w) && w.phase.Decremented?
    ensures Sound(AfterNotify(w))
  {
  }

  class PersistentWorker {
    const fingerprint: Fingerprint
    var accepting: bool
    var pending: nat
    var queue: seq<Command>
    var phase: Phase
    var sender: Option<RequestId>

    function View(): Worker
      reads this
    {
      Worker(fingerprint, accepting, pending, queue, phase, sender)
    }

    constructor (fp: Fingerprint)
      ensures View() == NewWorker(fp) && Sound(View())
    {
      fingerprint, accepting, pending, queue, phase, sender := fp, true, 0, [], Receiving, None;
    }

    /** The job is queued, or handed back untouched. */
    method Send(job: RequestId) returns (sent: bool)
      requires sender == None
      modifies this
      ensures sent == old(accepting)
      ensures View() == if sent then Pushed(Begun(old(View()), job), job) else old(View())
      ensures old(Sound(View())) && !old(OnWorker(View(), job)) ==> Sound(View())
    {
      if !accepting { return false; }
      assert Sound(View()) ==> (queue + [Execute(job)])[..|queue|] == queue;
      pending := pending + 1;
      sender := Some(job);
      queue := queue + [Execute(job)];
      sender := None;
      sent := true;
    }

    method StopAccepting()
      requires sender == None
      modifies this
      ensures View() == PoolModel.StopAccepting(old(View()))
      ensures old(Sound(View())) ==> Sound(View()) && (Exiting(phase) || EndsInShutdown(queue))
    {
      ghost var was := View();
      if Sound(was) { StopSound(was); }
      var before := accepting;
      accepting := false;
      if before { queue := queue + [Shutdown]; }
    }

    /** The idle transition: an accepted job is still served, otherwise nobody can send any more. */
    method IdleTimeout(job: JobState)
      requires Sound(View()) && phase == Receiving && sender == None
      modifies this
      ensures Sound(View())
      ensures View() == if old(queue) != [] then Served(old(View()), job)
                        else AfterWork(AfterWork(old(View()), Timeout, job), Close, job)
    {
      if queue != [] {
        ServeNext(job);
      } else {
        WorkSound(View(), Timeout, job);
        accepting := false;
        phase := Stopping;
        WorkSound(View(), Close, job);
        phase := Leaving;
      }
    }

    /** One turn of the loop. `job` is the state another thread may have left the job in. */
    method ServeNext(job: JobState)
      requires Sound(View()) && phase == Receiving && queue != [] && sender == None
      modifies this
      ensures Sound(View()) && View() == Served(old(View()), job)
    {
      ServedMeans(View(), job);
      var command := queue[0];
      queue := queue[1..];
      if command == Shutdown {
        phase := Stopping;
        accepting := false;
        phase := Leaving;
      } else {
        phase := Popped(command.job);
        if job == Queued {
          phase := Running(command.job);
        }
        phase := Finished(command.job);
        pending := Lowered(pending);
        phase := Decremented(command.job);
        phase := Notified(command.job);
        phase := Receiving;
      }
    }
  }
}
