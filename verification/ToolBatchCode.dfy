/** The loop's own code for one step's tool calls, proved to be a run of the model. */
module ToolBatchCode {
  import opened Wrappers
  import opened Messages
  import opened ProviderStream
  import opened ToolBatch
  import opened ToolBatchRuns

  class BatchRunner {
    var trace: seq<BatchEvent>
    var progress: seq<Progress>
    var messages: seq<Message>

    constructor (calls: seq<Call>, history: seq<Message>)
      ensures trace == [Registered(calls)] && progress == [] && messages == history
    {
      trace, progress, messages := [Registered(calls)], [], history;
    }

    /** The loop over the calls and, after a terminal error, the second pass that holds everything back. */
    method PrepareCalls(calls: seq<Call>, scripts: seq<Script>) returns (p: Preparation)
      requires |scripts| == |calls|
      ensures p == Prepare(calls, scripts)
    {
      var items: seq<Prepared> := [];
      var terminal: Option<Error> := None;
      var cancelled := false;
      for i := 0 to |calls|
        invariant Preparation(items, terminal, cancelled) == PrepareEach(calls[..i], scripts[..i])
      {
        assert calls[..i + 1][..i] == calls[..i] && scripts[..i + 1][..i] == scripts[..i];
        var call, s := calls[i], scripts[i];
        if cancelled || s.cancelled {
          if terminal.None? { terminal := Some(Cancelled); }
          cancelled := true;
          items := items + [Immediate(call, Failed(CANCELLED_TEXT))];
        } else if terminal.Some? {
          items := items + [Immediate(call, Failed(STOPPED_TEXT))];
        } else if s.invalid.Some? {
          items := items + [Immediate(call, Failed(s.invalid.value))];
        } else {
          match s.before {
            case Allow => items := items + [Execute(call)];
            case Block(reason) => items := items + [Immediate(call, Failed(reason))];
            case HookUncertain(reason) =>
              terminal := Some(HookError(reason));
              items := items + [Immediate(call, Uncertain("before_tool outcome is uncertain: " + reason))];
            case HookCancelled =>
              terminal := Some(Cancelled);
              cancelled := true;
              items := items + [Immediate(call, Failed("before_tool was cancelled"))];
            case HookFailed(reason) => items := items + [Immediate(call, Failed("before_tool failed: " + reason))];
          }
        }
      }
      assert calls[..|calls|] == calls && scripts[..|calls|] == scripts;
      if terminal.Some? {
        var held: seq<Prepared> := [];
        for i := 0 to |items|
          invariant held == HeldAll(items[..i], cancelled)
        {
          assert items[..i + 1][..i] == items[..i];
          held := held + [if items[i].Execute? then Immediate(items[i].call, Failed(if cancelled then CANCELLED_TEXT else STOPPED_TEXT)) else items[i]];
        }
        assert items[..|items|] == items;
        items := held;
      }
      p := Preparation(items, terminal, cancelled);
    }

    ghost function View(from: nat): Batch
      reads this
      requires from <= |trace|
    {
      Batch(progress, trace[from..])
    }

    /** The next atomic part of one call. */
    method Advance(items: seq<Prepared>, scripts: seq<Script>, i: nat, ghost from: nat)
      requires |items| == |scripts| == |progress| && i < |items| && from <= |trace|
      modifies `trace, `progress
      ensures from <= |trace| && trace[..from] == old(trace[..from])
      ensures View(from) == Move(items, scripts, old(View(from)), i)
    {
      var item, s := items[i], scripts[i];
      if progress[i] == Waiting {
        if item.Immediate? {
          progress := progress[i := Over];
        } else {
          trace := trace + [Started(item.call.id)];
          progress := progress[i := if s.startFails then Over else InFlight];
        }
      } else {
        if EffectResult(s.effect).Some? {
          trace := trace + [Completed(item.call.id, EffectResult(s.effect).value)];
        }
        progress := progress[i := Over];
      }
    }

    /** One call after another; the first one that breaks ends the batch. */
    method RunSequential(items: seq<Prepared>, scripts: seq<Script>, terminal: Option<Error>)
      returns (answered: seq<Answered>, error: Option<Error>)
      requires |items| == |scripts| && DistinctIds(items)
      modifies `trace, `progress
      ensures old(trace) <= trace && |progress| == |items|
      ensures Orderly(items, scripts, View(|old(trace)|), Sequential)
      ensures Exhausted(items, scripts, View(|old(trace)|), Sequential)
      ensures View(|old(trace)|) == BatchOf(items, scripts, [], Sequential)
      ensures (answered, error) == BatchOutcome(items, scripts, terminal, Sequential)
    {
      hide Move, OutcomeOf, Orderly, RunOut;
      ghost var from := |trace|;
      ghost var was := trace;
      progress := seq(|items|, _ => Waiting);
      assert View(from) == Unstarted(|items|);
      StartOrderly(items, scripts, Sequential);
      answered := [];
      for i := 0 to |items|
        invariant from <= |trace| && trace[..from] == was && |progress| == |items|
        invariant Orderly(items, scripts, View(from), Sequential)
        invariant RunOut(items, scripts, View(from)) == RunOut(items, scripts, Unstarted(|items|))
        invariant forall k :: 0 <= k < |items| ==> progress[k] == if k < i then Over else Waiting
        invariant forall k :: 0 <= k < i ==> OutcomeOf(items[k], scripts[k]).Finished?
        invariant answered == AnsweredUpTo(items, scripts, i)
      {
        YieldedMeans(progress);
        RunOne(items, scripts, i, from);
        match OutcomeOf(items[i], scripts[i]) {
          case Finished(r) => answered := answered + [Answered(i, items[i].call, r)];
          case Broken(e) =>
            StoppedHere(items, scripts, i);
            ErrorHere(items, scripts, i);
            YieldedMeans(progress);
            StillExhausted(items, scripts, View(from), i);
            AllRunOut(items, scripts, View(from));
            return answered, Some(e);
        }
      }
      StoppedHere(items, scripts, |items|);
      AllRunOut(items, scripts, View(from));
      error := terminal;
    }

    /** Both moves of a call, or the one it has. */
    method RunOne(items: seq<Prepared>, scripts: seq<Script>, i: nat, ghost from: nat)
      requires |items| == |scripts| == |progress| && i < |items| && from <= |trace| && DistinctIds(items)
      requires Orderly(items, scripts, View(from), Sequential)
      requires progress[i] == Waiting && CanMove(items, scripts, View(from), i, Sequential)
      modifies `trace, `progress
      ensures from <= |trace| && trace[..from] == old(trace[..from]) && |progress| == |items|
      ensures Orderly(items, scripts, View(from), Sequential)
      ensures RunOut(items, scripts, View(from)) == RunOut(items, scripts, old(View(from)))
      ensures progress == old(progress)[i := Over]
    {
      hide Orderly, DistinctIds, OutcomeOf, Yielded, RunOut;
      MoveKeeps(items, scripts, View(from), i, Sequential);
      RunOutStep(items, scripts, View(from), i);
      Advance(items, scripts, i, from);
      if progress[i] != Over {
        RunOutStep(items, scripts, View(from), i);
        MoveKeeps(items, scripts, View(from), i, Sequential);
        Advance(items, scripts, i, from);
      }
    }

    /** Up to eight calls at a time, in the order of moves that the runtime chose. */
    method RunParallel(items: seq<Prepared>, scripts: seq<Script>, terminal: Option<Error>, schedule: seq<nat>)
      returns (answered: seq<Answered>, error: Option<Error>)
      requires |items| == |scripts| && DistinctIds(items)
      requires Scheduled(items, scripts, Unstarted(|items|), schedule, Parallel)
      requires Exhausted(items, scripts, RunSchedule(items, scripts, Unstarted(|items|), schedule, Parallel), Parallel)
      modifies `trace, `progress
      ensures old(trace) <= trace && |progress| == |items|
      ensures View(|old(trace)|) == RunSchedule(items, scripts, Unstarted(|items|), schedule, Parallel)
      ensures Orderly(items, scripts, View(|old(trace)|), Parallel)
      ensures Exhausted(items, scripts, View(|old(trace)|), Parallel)
      ensures (answered, error) == BatchOutcome(items, scripts, terminal, Parallel)
    {
      hide Move, OutcomeOf, Orderly, CanMove, DistinctIds;
      ghost var from := |trace|;
      ghost var was := trace;
      progress := seq(|items|, _ => Waiting);
      assert View(from) == Unstarted(|items|);
      StartOrderly(items, scripts, Parallel);
      ScheduleKeeps(items, scripts, Unstarted(|items|), schedule, Parallel);
      for n := 0 to |schedule|
        invariant from <= |trace| && trace[..from] == was && |progress| == |items|
        invariant Scheduled(items, scripts, View(from), schedule[n..], Parallel)
        invariant RunSchedule(items, scripts, View(from), schedule[n..], Parallel)
                  == RunSchedule(items, scripts, Unstarted(|items|), schedule, Parallel)
      {
        assert schedule[n..][0] == schedule[n] && schedule[n..][1..] == schedule[n + 1..];
        InRange(items, scripts, View(from), schedule[n], Parallel);
        Advance(items, scripts, schedule[n], from);
      }
      answered, error := Collect(items, scripts, terminal);
    }

    /** The outcomes in the order of the calls; the first error ends the turn, later ones are dropped. */
    method Collect(items: seq<Prepared>, scripts: seq<Script>, terminal: Option<Error>)
      returns (answered: seq<Answered>, error: Option<Error>)
      requires |items| == |scripts|
      ensures (answered, error) == BatchOutcome(items, scripts, terminal, Parallel)
    {
      hide OutcomeOf;
      answered := [];
      error := terminal;
      for i := 0 to |items|
        invariant answered == AnsweredUpTo(items, scripts, i)
        invariant error == if terminal.Some? then terminal else FirstError(items, scripts, i)
      {
        match OutcomeOf(items[i], scripts[i]) {
          case Finished(r) => answered := answered + [Answered(i, items[i].call, r)];
          case Broken(e) => if error.None? { error := Some(e); }
        }
      }
    }

    /** The hooks after the tools and the durable record of every result. */
    method RecordResults(answered: seq<Answered>, scripts: seq<Script>, terminal: Option<Error>)
      returns (error: Option<Error>, stopped: bool)
      requires forall a :: a in answered ==> a.index < |scripts|
      modifies `trace, `messages
      ensures var r := RecordAll(answered, scripts, terminal);
              trace == old(trace) + r.events && messages == old(messages) + r.messages
              && error == r.terminal && stopped == r.stopped
    {
      hide AfterResult, AfterError, ResultMessage;
      error := terminal;
      ghost var r := Recording([], [], terminal, false);
      for i := 0 to |answered|
        invariant forall a :: a in answered[..i] ==> a.index < |scripts|
        invariant r == RecordAll(answered[..i], scripts, terminal) && !r.stopped && error == r.terminal
        invariant trace == old(trace) + r.events && messages == old(messages) + r.messages
      {
        assert answered[..i + 1][..i] == answered[..i] && answered[i] in answered;
        var a, s := answered[i], scripts[answered[i].index];
        r := RecordOne(r, a, s);
        trace := trace + [Recorded(a.call.id, AfterResult(a, s))];
        if s.recordFails {
          StoppedStays(answered, scripts, terminal, i + 1);
          return error, true;
        }
        if AfterError(s).Some? {
          if error.None? { error := AfterError(s); }
        } else {
          messages := messages + [ResultMessage(a.call, AfterResult(a, s))];
        }
      }
      assert answered[..|answered|] == answered;
      stopped := false;
    }
  }

  lemma InRange(items: seq<Prepared>, scripts: seq<Script>, b: Batch, i: nat, mode: Mode)
    requires |items| == |scripts| == |b.progress| && CanMove(items, scripts, b, i, mode)
    ensures i < |items|
  {
  }

  lemma AllRunOut(items: seq<Prepared>, scripts: seq<Script>, b: Batch)
    requires |items| == |scripts| == |b.progress| && Exhausted(items, scripts, b, Sequential)
    requires RunOut(items, scripts, b) == RunOut(items, scripts, Unstarted(|items|))
    ensures b == BatchOf(items, scripts, [], Sequential)
  {
    hide Exhausted, ScheduleOf, RunSchedule, Scheduled;
    RunOutEnd(items, scripts, b);
  }

  lemma {:induction false} StoppedStays(answered: seq<Answered>, scripts: seq<Script>, terminal: Option<Error>, i: nat)
    requires i <= |answered| && forall a :: a in answered ==> a.index < |scripts|
    requires forall a :: a in answered[..i] ==> a.index < |scripts|
    requires RecordAll(answered[..i], scripts, terminal).stopped
    ensures RecordAll(answered, scripts, terminal) == RecordAll(answered[..i], scripts, terminal)
    decreases |answered| - i
  {
    if i == |answered| {
      assert answered[..i] == answered;
    } else {
      assert answered[..i + 1][..i] == answered[..i] && answered[i] in answered;
      StoppedStays(answered, scripts, terminal, i + 1);
    }
  }

  lemma {:induction false} StoppedHere(items: seq<Prepared>, scripts: seq<Script>, i: nat)
    requires |items| == |scripts| && i <= |items|
    requires forall k :: 0 <= k < i ==> OutcomeOf(items[k], scripts[k]).Finished?
    requires i < |items| ==> OutcomeOf(items[i], scripts[i]).Broken?
    ensures StopAt(items, scripts) == i
  {
    hide OutcomeOf;
    if i > 0 { StoppedHere(items[1..], scripts[1..], i - 1); }
  }

  lemma ErrorHere(items: seq<Prepared>, scripts: seq<Script>, i: nat)
    requires |items| == |scripts| && i < |items|
    requires forall k :: 0 <= k < i ==> OutcomeOf(items[k], scripts[k]).Finished?
    requires OutcomeOf(items[i], scripts[i]).Broken?
    ensures FirstError(items, scripts, i + 1) == Some(OutcomeOf(items[i], scripts[i]).error)
  {
    ErrorMeans(items, scripts, i);
  }

  /** Behind a broken call nothing may start any more. */
  lemma StillExhausted(items: seq<Prepared>, scripts: seq<Script>, b: Batch, i: nat)
    requires |items| == |scripts| == |b.progress| && i < |items| && OutcomeOf(items[i], scripts[i]).Broken?
    requires forall k :: 0 <= k < |items| ==> b.progress[k] == if k <= i then Over else Waiting
    ensures Exhausted(items, scripts, b, Sequential)
  {
  }
}
