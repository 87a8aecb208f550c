/** The events of all tool calls of a turn, batch after batch, under every schedule of every batch. */
module AgentTurnTrace {
  import opened Wrappers
  import opened Messages
  import opened ContextBudget
  import opened ProviderStream
  import opened ToolBatch
  import opened ToolBatchRuns
  import opened AgentTurn

  function Rank(e: BatchEvent): nat {
    match e
    case Registered(_) => 0
    case Started(_) => 1
    case Completed(_, _) => 2
    case Recorded(_, _) => 3
  }

  /** The events of one call: registered, started, completed, recorded, each at most once and in this order;
      none is completed without a start, and if `kept` none is completed without a record. */
  predicate Lifecycle(events: seq<BatchEvent>, id: CallId, kept: bool) {
    && events != [] && events[0].Registered?
    && (forall i :: 0 <= i < |events| ==> Concerns(events[i], id))
    && (forall i, j :: 0 <= i < j < |events| ==> Rank(events[i]) < Rank(events[j]))
    && (forall i :: 0 < i < |events| && events[i].Completed? ==> events[i - 1].Started?)
    && (kept ==> forall i :: 0 < i < |events| && events[i].Completed? ==> i + 1 < |events| && events[i + 1].Recorded?)
  }

  // ---------------------------------------------------------------- one batch

  lemma NotStopped(calls: seq<Call>, scripts: seq<Script>, mode: Mode)
    requires |scripts| == |calls| && forall j :: 0 <= j < |scripts| ==> !scripts[j].recordFails
    ensures !RecordingOf(calls, scripts, mode).stopped
  {
    hide Prepare, RecordAll, Records;
    var p := Prepare(calls, scripts);
    var (answered, terminal) := BatchOutcome(p.items, scripts, p.terminal, mode);
    AnsweredInRange(p.items, scripts, mode, p.terminal);
    RecordAllMeans(answered, scripts, terminal);
  }

  predicate CallbacksOk(scripts: seq<Script>) {
    forall j :: 0 <= j < |scripts| ==> !scripts[j].recordFails && !scripts[j].completeFails
  }

  lemma BatchLifecycle(calls: seq<Call>, scripts: seq<Script>, moves: seq<nat>, mode: Mode, k: nat, kept: bool)
    requires |scripts| == |calls| && Distinct(calls) && k < |calls| && (kept ==> CallbacksOk(scripts))
    ensures Lifecycle(Of(StepTrace(calls, scripts, moves, mode), calls[k].id), calls[k].id, kept)
  {
    hide Of, Prepare, RecordingOf, BatchOf, Trace, Own, RecordOf, Orderly, Exhausted;
    var items := Prepare(calls, scripts).items;
    var b := BatchOf(items, scripts, moves, mode);
    var r := RecordingOf(calls, scripts, mode);
    PrepareMeans(calls, scripts);
    BatchRan(calls, scripts, moves, mode);
    BatchGrammar(calls, scripts, b, mode, k);
    ExhaustedMeans(items, scripts, b, mode, k);
    var own, recorded := Own(items[k], scripts[k], b.progress[k]), Of(r.events, calls[k].id);
    RegisteredConcerns(calls, k);
    RecordShape(items, scripts, Reach(items, scripts, mode), k);
    if kept && |own| == 2 {
      NotStopped(calls, scripts, mode);
      CompletedIsRecorded(calls, scripts, b, mode, k);
    }
    OwnShape(items[k], scripts[k], b.progress[k]);
    AssembleLifecycle(calls, calls[k].id, own, recorded, kept);
  }

  lemma RecordShape(items: seq<Prepared>, scripts: seq<Script>, n: nat, k: nat)
    requires n <= |items| == |scripts|
    ensures k < |items| ==> RecordShaped(RecordOf(items, scripts, n, k), items[k].call.id)
  {
  }

  predicate RecordShaped(events: seq<BatchEvent>, id: CallId) {
    |events| <= 1 && (events != [] ==> events[0].Recorded? && events[0].id == id)
  }

  predicate OwnShaped(events: seq<BatchEvent>, id: CallId) {
    && |events| <= 2 && (events != [] ==> events[0] == Started(id))
    && (|events| == 2 ==> events[1].Completed? && events[1].id == id)
  }

  lemma OwnShape(item: Prepared, s: Script, progress: Progress)
    ensures OwnShaped(Own(item, s, progress), item.call.id)
  {
  }

  lemma AssembleLifecycle(calls: seq<Call>, id: CallId, own: seq<BatchEvent>, recorded: seq<BatchEvent>, kept: bool)
    requires Concerns(Registered(calls), id) && OwnShaped(own, id) && RecordShaped(recorded, id)
    requires kept && |own| == 2 ==> recorded != []
    ensures Lifecycle([Registered(calls)] + own + recorded, id, kept)
  {
    assert forall i :: 0 <= i < |own| ==> Concerns(own[i], id) && Rank(own[i]) == i + 1;
    assert forall i :: 0 <= i < |recorded| ==> Concerns(recorded[i], id) && Rank(recorded[i]) == 3;
    hide Concerns;
    var events := [Registered(calls)] + own + recorded;
    assert forall i :: 0 < i <= |own| ==> events[i] == own[i - 1];
    assert forall i :: |own| < i < |events| ==> events[i] == recorded[i - |own| - 1];
  }

  // ---------------------------------------------------------------- calls of other batches

  lemma {:induction false} ScheduleElse(items: seq<Prepared>, scripts: seq<Script>, b: Batch, schedule: seq<nat>, mode: Mode, id: CallId)
    requires |items| == |scripts| == |b.progress| && Scheduled(items, scripts, b, schedule, mode)
    requires forall k :: 0 <= k < |items| ==> items[k].call.id != id
    ensures Of(RunSchedule(items, scripts, b, schedule, mode).trace, id) == Of(b.trace, id)
    decreases |schedule|
  {
    hide Move, Of, CanMove;
    if schedule != [] {
      CanMoveInRange(items, scripts, b, schedule[0], mode);
      MoveElse(items, scripts, b, schedule[0], id);
      ScheduleElse(items, scripts, Move(items, scripts, b, schedule[0]), schedule[1..], mode, id);
    }
  }

  lemma MoveElse(items: seq<Prepared>, scripts: seq<Script>, b: Batch, i: nat, id: CallId)
    requires |items| == |scripts| == |b.progress| && i < |items| && items[i].call.id != id
    ensures Of(Move(items, scripts, b, i).trace, id) == Of(b.trace, id)
  {
    hide Of;
    var (_, events) := MoveOf(items[i], scripts[i], b.progress[i]);
    OfAppend(b.trace, events, id);
    OfNone(id);
    if events != [] { OfOne(events[0], id); }
  }

  lemma {:induction false} RecordsElse(answered: seq<Answered>, scripts: seq<Script>, id: CallId)
    requires forall a :: a in answered ==> a.index < |scripts| && a.call.id != id
    ensures Of(Records(answered, scripts), id) == []
  {
    hide Of, AfterResult;
    if answered == [] {
      OfNone(id);
    } else {
      var front, last := answered[..|answered| - 1], answered[|answered| - 1];
      assert last in answered && forall a :: a in front ==> a in answered;
      RecordsElse(front, scripts, id);
      var record := Recorded(last.call.id, AfterResult(last, scripts[last.index]));
      OfAppend(Records(front, scripts), [record], id);
      OfOne(record, id);
    }
  }

  lemma RecordingElse(calls: seq<Call>, scripts: seq<Script>, mode: Mode, id: CallId)
    requires |scripts| == |calls| && forall k :: 0 <= k < |calls| ==> calls[k].id != id
    ensures Of(RecordingOf(calls, scripts, mode).events, id) == []
  {
    hide Of, Prepare, RecordAll, Records;
    PrepareMeans(calls, scripts);
    var p := Prepare(calls, scripts);
    var (answered, terminal) := BatchOutcome(p.items, scripts, p.terminal, mode);
    AnsweredInRange(p.items, scripts, mode, p.terminal);
    AnsweredMeans(p.items, scripts, Reach(p.items, scripts, mode));
    RecordAllMeans(answered, scripts, terminal);
    RecordsElse(answered, scripts, id);
    OfPrefix(RecordAll(answered, scripts, terminal).events, Records(answered, scripts), id);
  }

  /** A batch leaves no event of a call that is not its own. */
  lemma AbsentFromStep(calls: seq<Call>, scripts: seq<Script>, moves: seq<nat>, mode: Mode, id: CallId)
    requires |scripts| == |calls| && forall k :: 0 <= k < |calls| ==> calls[k].id != id
    ensures Of(StepTrace(calls, scripts, moves, mode), id) == []
  {
    hide Of, Prepare, RecordingOf, Scheduled, RunSchedule, ScheduleOf;
    PrepareMeans(calls, scripts);
    var items := Prepare(calls, scripts).items;
    var start := Unstarted(|items|);
    ScheduleElse(items, scripts, start, ScheduleOf(items, scripts, start, moves, mode), mode, id);
    OfNone(id);
    RecordingElse(calls, scripts, mode, id);
    var b, r := BatchOf(items, scripts, moves, mode), RecordingOf(calls, scripts, mode);
    OfAppend([Registered(calls)] + b.trace, r.events, id);
    OfAppend([Registered(calls)], b.trace, id);
    OfOne(Registered(calls), id);
  }

  // ---------------------------------------------------------------- the turn

  /** Every accepted call has its events in order, and no other id has any. */
  ghost predicate Traced(s: TurnState, kept: bool) {
    forall id :: TracedCall(s, id, kept)
  }

  predicate TracedCall(s: TurnState, id: CallId, kept: bool) {
    if id in s.registered then Lifecycle(Of(s.trace, id), id, kept) else Of(s.trace, id) == []
  }

  /** The callbacks that journal a completed call and a record do not fail. */
  ghost predicate CallbacksHold(script: StepScript) {
    forall k: nat :: !script.tool(k).recordFails && !script.tool(k).completeFails
  }

  /** A batch adds its own calls, which are new, and leaves the others as they are. */
  lemma BatchTraced(s: TurnState, t: TurnState, calls: seq<Call>, scripts: seq<Script>, moves: seq<nat>, mode: Mode, kept: bool)
    requires Traced(s, kept) && ValidIds(calls, s.registered) && |scripts| == |calls| && (kept ==> CallbacksOk(scripts))
    requires t.registered == s.registered + IdsOf(calls) && t.trace == s.trace + StepTrace(calls, scripts, moves, mode)
    ensures Traced(t, kept)
  {
    hide Of, StepTrace, Lifecycle, CallbacksOk;
    forall id ensures TracedCall(t, id, kept) {
      assert TracedCall(s, id, kept);
      var step := StepTrace(calls, scripts, moves, mode);
      OfAppend(s.trace, step, id);
      assert [] + Of(step, id) == Of(step, id) && Of(s.trace, id) + [] == Of(s.trace, id);
      if id in IdsOf(calls) {
        var k :| 0 <= k < |calls| && calls[k].id == id;
        BatchLifecycle(calls, scripts, moves, mode, k, kept);
      } else {
        assert forall k :: 0 <= k < |calls| ==> IdsOf(calls)[k] == calls[k].id;
        AbsentFromStep(calls, scripts, moves, mode, id);
      }
    }
  }

  /** A response leaves history and ids alone or adds exactly one batch to both. */
  lemma ResponseTrace(s: TurnState, response: Response, calls: seq<Call>, script: StepScript, mode: Mode)
    ensures var t := AfterResponse(s, response, calls, script, mode).state;
            || (t.trace == s.trace && t.registered == s.registered)
            || (&& ValidIds(calls, s.registered)
                && t.registered == s.registered + IdsOf(calls)
                && t.trace == s.trace + StepTrace(calls, ScriptsFor(script, |calls|), script.moves, mode))
  {
    hide RecordingOf, StepTrace, Presented, BlockMessages, ValidIds, TextOf, AnyUncertain, AnyTerminates, IdsOf;
  }

  lemma StepTraced(size: MessageSize, fixedSize: FixedSize, s: TurnState, script: StepScript, mode: Mode, kept: bool)
    requires Traced(s, kept) && (kept ==> CallbacksHold(script))
    ensures Traced(AgentTurn.Step(size, fixedSize, s, script, mode).state, kept)
  {
    hide StreamResponse, RequestOf, AfterResponse, TracedCall, StepTrace, ValidIds, IdsOf;
    match RequestOf(size, fixedSize, s, script)
    case None =>
    case Some(request) =>
      var reply := StreamResponse(size, fixedSize, request, script.first, script.second);
      var t := s.(request := request, journal := s.journal + reply.journal);
      SameTraced(s, t, kept);
      match reply.result
      case Err(_) =>
      case Ok((response, calls)) =>
        var after := AfterResponse(t, response, calls, script, mode).state;
        ResponseTrace(t, response, calls, script, mode);
        if after.trace == t.trace && after.registered == t.registered {
          SameTraced(t, after, kept);
        } else {
          BatchTraced(t, after, calls, ScriptsFor(script, |calls|), script.moves, mode, kept);
        }
  }

  lemma SameTraced(s: TurnState, t: TurnState, kept: bool)
    requires Traced(s, kept) && t.trace == s.trace && t.registered == s.registered
    ensures Traced(t, kept)
  {
    hide Lifecycle, Of;
    forall id ensures TracedCall(t, id, kept) { assert TracedCall(s, id, kept); }
  }

  lemma {:induction false} TurnTraced(size: MessageSize, fixedSize: FixedSize, s: TurnState, scripts: seq<StepScript>, mode: Mode, kept: bool)
    requires Traced(s, kept) && (kept ==> forall script :: script in scripts ==> CallbacksHold(script))
    ensures Traced(Turn(size, fixedSize, s, scripts, mode).state, kept)
    decreases |scripts|
  {
    hide AgentTurn.Step, Traced, CallbacksHold;
    if scripts != [] {
      assert scripts[0] in scripts && forall script :: script in scripts[1..] ==> script in scripts;
      StepTraced(size, fixedSize, s, scripts[0], mode, kept);
      match AgentTurn.Step(size, fixedSize, s, scripts[0], mode)
      case Goes(t) => TurnTraced(size, fixedSize, t, scripts[1..], mode, kept);
      case _ =>
    }
  }

  /** Over a whole turn, whatever its hooks, tools and schedules do: the events of each accepted call are
      registered, started, completed, recorded, each at most once and in this order; an effect that completed is
      always recorded if the callbacks that journal it hold; and no other id has any event. */
  lemma TurnTrace(size: MessageSize, fixedSize: FixedSize, request: Request, scripts: seq<StepScript>, mode: Mode, id: CallId)
    ensures var end := Turn(size, fixedSize, TurnState(0, request, [], [], [], ""), scripts, mode).state;
            && (id in end.registered ==> Lifecycle(Of(end.trace, id), id, false))
            && (id in end.registered && (forall script :: script in scripts ==> CallbacksHold(script)) ==>
                  Lifecycle(Of(end.trace, id), id, true))
            && (id !in end.registered ==> Of(end.trace, id) == [])
  {
    hide Turn, Lifecycle, CallbacksHold;
    var start := TurnState(0, request, [], [], [], "");
    var end := Turn(size, fixedSize, start, scripts, mode).state;
    TurnTraced(size, fixedSize, start, scripts, mode, false);
    assert TracedCall(end, id, false);
    if forall script :: script in scripts ==> CallbacksHold(script) {
      TurnTraced(size, fixedSize, start, scripts, mode, true);
      assert TracedCall(end, id, true);
    }
  }
}
