/** The turn loop's own code, proved to compute `Turn`. */
module AgentTurnCode {
  import opened Wrappers
  import opened Messages
  import opened ContextBudget
  import opened ProviderStream
  import opened ProviderStreamCode
  import opened ToolBatch
  import opened ToolBatchRuns
  import opened ToolBatchCode
  import opened AgentTurn

  class AgentLoop {
    var step: nat
    var request: Request
    var journal: seq<Entry>
    var registered: seq<CallId>
    var trace: seq<BatchEvent>
    var answer: string
    const size: MessageSize
    const fixedSize: FixedSize
    const mode: Mode

    constructor (size: MessageSize, fixedSize: FixedSize, mode: Mode, request: Request, capability: Option<(string, string)>)
      ensures View() == TurnState(0, FirstRequest(request, capability), [], [], [], "")
      ensures this.size == size && this.fixedSize == fixedSize && this.mode == mode
    {
      this.size, this.fixedSize, this.mode := size, fixedSize, mode;
      step, journal, registered, trace, answer := 0, [], [], [], "";
      this.request := FirstRequest(request, capability);
    }

    function View(): TurnState
      reads this
    {
      TurnState(step, request, journal, registered, trace, answer)
    }

    method InjectMessages(injection: Injection) returns (ok: bool)
      modifies `request
      ensures ok == AgentTurn.Inject(old(request.messages), injection).Some?
      ensures ok ==> request == old(request).(messages := AgentTurn.Inject(old(request.messages), injection).value)
    {
      if injection.Unavailable? { return false; }
      for i := 0 to |injection.messages|
        invariant request == old(request).(messages := old(request.messages) + injection.messages[..i])
        invariant injection.failsAt.Some? && injection.failsAt.value < |injection.messages| ==> i <= injection.failsAt.value
      {
        if injection.failsAt == Some(i) { return false; }
        assert injection.messages[..i + 1] == injection.messages[..i] + [injection.messages[i]];
        request := request.(messages := request.messages + [injection.messages[i]]);
      }
      assert injection.messages[..|injection.messages|] == injection.messages;
      ok := true;
    }

    /** Everything in front of the model call. */
    method PrepareRequest(script: StepScript) returns (ok: bool)
      modifies `request
      ensures ok == RequestOf(size, fixedSize, old(View()), script).Some?
      ensures ok ==> request == RequestOf(size, fixedSize, old(View()), script).value
    {
      hide Trim, BudgetBytes;
      if script.cancelled || script.catalog.None? { return false; }
      if step > 0 { request := request.(fixed := request.fixed.(tools := script.catalog.value)); }
      ok := InjectMessages(script.steering);
      if !ok { return; }
      var hooked := Hooked(request, script);
      if hooked.None? { return false; }
      request := hooked.value;
      var budgeted := new ModelRequest(request.fixed, request.messages);
      var trimmed := budgeted.ApplyContextBudget(size, fixedSize);
      if !trimmed.Dropped? { return false; }
      request := request.(messages := budgeted.messages);
      ok := script.catalogHolds;
    }

    /** The id checks of one response against those accepted earlier in the turn. */
    method ValidateToolCallIds(calls: seq<Call>) returns (ok: bool)
      ensures ok == ValidIds(calls, registered)
    {
      for k := 0 to |calls|
        invariant ValidIds(calls[..k], registered)
      {
        var before := calls[..k];
        if calls[k].id == "" || |calls[k].id| > MAX_TOOL_CALL_ID_BYTES || calls[k].id in registered
           || exists j :: 0 <= j < k && calls[j].id == calls[k].id
        {
          assert calls[..k + 1][k] == calls[k];
          assert forall j :: 0 <= j < k ==> calls[j] == before[j];
          return false;
        }
        assert calls[..k + 1] == before + [calls[k]];
      }
      assert calls[..|calls|] == calls;
      ok := true;
    }

    /** The response's blocks become history, all but reasoning. */
    method AppendBlocks(blocks: seq<Block>)
      modifies `request
      ensures request == old(request).(messages := old(request.messages) + BlockMessages(blocks))
    {
      assert old(request.messages) + [] == old(request.messages);
      for i := 0 to |blocks|
        invariant request == old(request).(messages := request.messages)
        invariant request.messages + BlockMessages(blocks[i..]) == old(request.messages) + BlockMessages(blocks)
      {
        assert blocks[i..][0] == blocks[i] && blocks[i..][1..] == blocks[i + 1..];
        assert request.messages + (BlockMessage(blocks[i]) + BlockMessages(blocks[i + 1..]))
            == request.messages + BlockMessage(blocks[i]) + BlockMessages(blocks[i + 1..]);
        request := request.(messages := request.messages + BlockMessage(blocks[i]));
      }
      assert request.messages + [] == request.messages;
    }

    /** The tool batch of a step under the moves that the runtime chooses: its events, what came back, the
        recorded messages and whether the turn may go on. */
    method RunBatch(calls: seq<Call>, scripts: seq<Script>, moves: seq<nat>) returns (outputs: seq<Output>, ok: bool)
      requires |scripts| == |calls| && Distinct(calls)
      modifies `request, `trace
      ensures trace == old(trace) + StepTrace(calls, scripts, moves, mode)
      ensures var r := RecordingOf(calls, scripts, mode);
              && request == old(request).(messages := old(request.messages) + r.messages)
              && ok == (!r.stopped && r.terminal == None)
              && outputs == Presented(calls, scripts, mode)
    {
      hide Prepare, RecordAll, OutcomeOf, AfterResult, Scheduled, RunSchedule, ScheduleOf, Exhausted, Orderly, DistinctIds;
      var runner := new BatchRunner(calls, request.messages);
      var p := runner.PrepareCalls(calls, scripts);
      ItemsDistinct(calls, scripts);
      var answered, terminal;
      if mode == Sequential {
        StartOrderly(p.items, scripts, Sequential);
        SequentialIgnores(p.items, scripts, Unstarted(|p.items|), moves);
        answered, terminal := runner.RunSequential(p.items, scripts, p.terminal);
      } else {
        StartOrderly(p.items, scripts, Parallel);
        ScheduleRunsOut(p.items, scripts, Unstarted(|p.items|), moves, Parallel);
        var schedule := ScheduleOf(p.items, scripts, Unstarted(|p.items|), moves, Parallel);
        answered, terminal := runner.RunParallel(p.items, scripts, p.terminal, schedule);
      }
      assert runner.trace == [Registered(calls)] + BatchOf(p.items, scripts, moves, mode).trace;
      AnsweredInRange(p.items, scripts, mode, p.terminal);
      ghost var history := runner.messages;
      var error, stopped := runner.RecordResults(answered, scripts, terminal);
      request := request.(messages := runner.messages);
      trace := trace + runner.trace;
      ok := !stopped && error == None;
      outputs := seq(|answered|, k requires 0 <= k < |answered| =>
        if answered[k].index < |scripts| then AfterResult(answered[k], scripts[answered[k].index]) else answered[k].result);
    }

    /** What a received response leads to. */
    method HandleResponse(response: Response, calls: seq<Call>, script: StepScript) returns (end: StepEnd)
      modifies this
      ensures end == AfterResponse(old(View()), response, calls, script, mode) && View() == end.state
    {
      hide RecordingOf, StepTrace, Presented, BlockMessages, TextOf, ValidIds;
      if |calls| > MAX_TOOL_CALLS_PER_STEP { return Errs(View()); }
      var valid := ValidateToolCallIds(calls);
      var text := TextOf(response.blocks);
      if !valid || (text == "" && calls == []) { return Errs(View()); }
      assert Distinct(calls) by { ValidAreDistinct(calls, registered); }
      request := request.(continuation := None);
      AppendBlocks(response.blocks);
      answer := text;
      if script.responseEventFails { return Errs(View()); }
      registered := registered + IdsOf(calls);
      step := step + 1;
      var outputs, ok := RunBatch(calls, ScriptsFor(script, |calls|), script.moves);
      if !ok { return Errs(View()); }
      end := FinishStep(calls, outputs, script);
    }

    method FinishStep(calls: seq<Call>, outputs: seq<Output>, script: StepScript) returns (end: StepEnd)
      modifies this
      ensures end == AfterBatch(old(View()), calls, outputs, script) && View() == end.state
    {
      if AnyUncertain(outputs) || script.decision.DecisionFails? { return Errs(View()); }
      if AnyTerminates(outputs) || script.decision == Stop { return Replies(View()); }
      if script.update == None { return Errs(View()); }
      request := request.(fixed := script.update.value.(tools := request.fixed.tools));
      if calls != [] { return Goes(View()); }
      ghost var before := request;
      if Inject(request.messages, script.followUps).None? { return Errs(View()); }
      if script.followUps.messages == [] { return Replies(View()); }
      var ok := InjectMessages(script.followUps);
      end := Goes(View());
    }

    method ExecuteStep(script: StepScript) returns (end: StepEnd)
      modifies this
      ensures end == AgentTurn.Step(size, fixedSize, old(View()), script, mode)
      ensures end.Goes? ==> View() == end.state
    {
      hide RequestOf, StreamResponse, AfterResponse;
      ghost var was := View();
      var before := View();
      var ok := PrepareRequest(script);
      if !ok { return Errs(before); }
      var reader := new ResponseReader();
      var reply := reader.StreamResponse(size, fixedSize, request, script.first, script.second);
      journal := journal + reader.journal;
      if reply.Err? { return Errs(View()); }
      end := HandleResponse(reply.value.0, reply.value.1, script);
    }

    /** The loop over the steps. */
    method ExecuteTurn(scripts: seq<StepScript>) returns (end: StepEnd)
      modifies this
      ensures end == Turn(size, fixedSize, old(View()), scripts, mode)
    {
      hide Step;
      for i := 0 to |scripts|
        invariant Turn(size, fixedSize, old(View()), scripts, mode) == Turn(size, fixedSize, View(), scripts[i..], mode)
      {
        assert scripts[i..][0] == scripts[i] && scripts[i..][1..] == scripts[i + 1..];
        end := ExecuteStep(scripts[i]);
        if !end.Goes? { return; }
      }
      end := Errs(View());
    }
  }

  lemma ValidAreDistinct(calls: seq<Call>, accepted: seq<CallId>)
    requires ValidIds(calls, accepted)
    ensures Distinct(calls)
  {
  }
}
