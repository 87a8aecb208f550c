/** The lifecycle hooks behind the pool's steps: a worker that finishes a job has run the hooks of its turn,
    and a caller that is cancelled before its job starts runs the closing ones itself. */
module PoolHooks {
  import opened Wrappers
  import opened PoolTable
  import opened PoolModel
  import opened PoolRuns
  import TurnHooks

  /** The hooks that one step runs for request `r`, whose turn goes through `passes` if it is executed. */
  ghost function StepHooks(p: Pool, step: Step, r: RequestId, turn: TurnHooks.Turn, passes: seq<TurnHooks.Pass>)
    : seq<TurnHooks.Hook>
    requires Enabled(p, step) && TurnHooks.Completes(turn, passes)
  {
    match step
    case Caller(s, ask) =>
      if s == r && (ask == Withdraw || ask == Cancel) then TurnHooks.EndHooks(turn, TurnHooks.Failure(TurnHooks.CANCELLED)) else []
    case Thread(g, work) =>
      if work == Finish && PhaseJob(p.workers[g].phase) == Some(r) then TurnHooks.Hooks(turn, passes) else []
    case _ => []
  }

  ghost function RunHooks(p: Pool, steps: seq<Step>, r: RequestId, turn: TurnHooks.Turn, passes: seq<TurnHooks.Pass>)
    : seq<TurnHooks.Hook>
    requires Legal(p, steps) && TurnHooks.Completes(turn, passes)
    decreases |steps|
  {
    if steps == [] then []
    else StepHooks(p, steps[0], r, turn, passes) + RunHooks(Do(p, steps[0]), steps[1..], r, turn, passes)
  }

  function EndsOf(p: Pool, r: RequestId): nat {
    if r in p.requests then p.requests[r].ends else 0
  }

  /** A turn that carries hook metadata and is executed or cancelled runs `turn_end` once. */
  lemma OneEnd(turn: TurnHooks.Turn, passes: seq<TurnHooks.Pass>)
    requires TurnHooks.Completes(turn, passes) && turn.metadata.Some?
    ensures TurnHooks.Ends(TurnHooks.Hooks(turn, passes)) == 1
    ensures TurnHooks.Ends(TurnHooks.EndHooks(turn, TurnHooks.Failure(TurnHooks.CANCELLED))) == 1
  {
    TurnHooks.HooksOnce(turn, passes);
    var end := TurnHooks.EndHooks(turn, TurnHooks.Failure(TurnHooks.CANCELLED));
    assert end == [TurnHooks.TurnEnd(TurnHooks.Cancelled)];
    assert end[1..] == [];
  }

  /** The count kept by the pool goes up exactly when a step runs hooks, and then by one `turn_end`. */
  lemma StepEnds(p: Pool, step: Step, r: RequestId, turn: TurnHooks.Turn, passes: seq<TurnHooks.Pass>)
    requires Enabled(p, step) && TurnHooks.Completes(turn, passes) && turn.metadata.Some?
    ensures EndsOf(Do(p, step), r) == EndsOf(p, r) + TurnHooks.Ends(StepHooks(p, step, r, turn, passes))
    ensures TurnHooks.Ends(StepHooks(p, step, r, turn, passes)) == 0 ==> StepHooks(p, step, r, turn, passes) == []
  {
    hide TurnHooks.Hooks, TurnHooks.EndHooks, TurnHooks.Completes, TryWorker, Covers, HasHandle;
    OneEnd(turn, passes);
  }

  /** A piece of the run that counts no `turn_end` runs no hook; one that counts one runs the hooks of the
      executed turn or of its cancellation, and no others. */
  lemma {:induction false} RunEnds(p: Pool, steps: seq<Step>, r: RequestId, turn: TurnHooks.Turn, passes: seq<TurnHooks.Pass>)
    requires Legal(p, steps) && TurnHooks.Completes(turn, passes) && turn.metadata.Some?
    ensures var hooks := RunHooks(p, steps, r, turn, passes);
            && EndsOf(Run(p, steps), r) == EndsOf(p, r) + TurnHooks.Ends(hooks)
            && (TurnHooks.Ends(hooks) == 0 ==> hooks == [])
            && (TurnHooks.Ends(hooks) == 1 ==>
                  || hooks == TurnHooks.Hooks(turn, passes)
                  || hooks == TurnHooks.EndHooks(turn, TurnHooks.Failure(TurnHooks.CANCELLED)))
    decreases |steps|
  {
    hide TurnHooks.Hooks, TurnHooks.EndHooks, TurnHooks.Completes, TurnHooks.Ends, Do, Enabled;
    NoHooksNoEnds();
    if steps != [] {
      var first := StepHooks(p, steps[0], r, turn, passes);
      var rest := RunHooks(Do(p, steps[0]), steps[1..], r, turn, passes);
      StepEnds(p, steps[0], r, turn, passes);
      RunEnds(Do(p, steps[0]), steps[1..], r, turn, passes);
      TurnHooks.CountAppend(first, rest);
      assert first + [] == first && [] + rest == rest;
    }
  }

  lemma NoHooksNoEnds()
    ensures TurnHooks.Ends([]) == 0
  {
  }

  /** Over any run of the pool, with cancellations racing the workers: the hooks of a request are none, or all
      of its executed turn, or the closing ones of its cancellation. So `turn_end` runs at most once and last, and
      exactly once for a caller that left with an answer or a cancellation. */
  lemma TurnEndHooksOnce(perFingerprint: nat, total: nat, steps: seq<Step>, r: RequestId,
                         turn: TurnHooks.Turn, passes: seq<TurnHooks.Pass>)
    requires Reaches(perFingerprint, total, steps) && r in Reached(perFingerprint, total, steps).requests
    requires TurnHooks.Completes(turn, passes) && turn.metadata.Some?
    ensures var q := Reached(perFingerprint, total, steps).requests[r];
            var hooks := RunHooks(InitialPool(WithLimits(perFingerprint, total)), steps, r, turn, passes);
            && TurnHooks.Ends(hooks) == q.ends <= 1
            && (q.ends == 0 ==> hooks == [])
            && (hooks != [] ==> hooks[|hooks| - 1].TurnEnd?)
            && (hooks == [] || hooks == TurnHooks.Hooks(turn, passes)
                || hooks == TurnHooks.EndHooks(turn, TurnHooks.Failure(TurnHooks.CANCELLED)))
            && (q.stage == Left && !q.dropped ==> TurnHooks.Ends(hooks) == 1)
            && (q.stage == Failed ==> hooks == [])
  {
    hide TurnHooks.Hooks, TurnHooks.Completes, TurnHooks.Ends, Legal, Run, RunHooks;
    TurnEndsOnce(perFingerprint, total, steps, r);
    RunEnds(InitialPool(WithLimits(perFingerprint, total)), steps, r, turn, passes);
    TurnHooks.HooksOnce(turn, passes);
  }
}
