/** The main results about one step's tool calls, for every schedule and every way the hooks, tools and
    callbacks may answer. */
module ToolBatchRuns {
  import opened Wrappers
  import opened Messages
  import opened ProviderStream
  import opened ToolBatch

  // ---------------------------------------------------------------- preparation

  lemma {:induction false} HeldAllMeans(items: seq<Prepared>, cancelled: bool)
    ensures forall k :: 0 <= k < |items| ==> HeldAll(items, cancelled)[k] == Held(items[k], cancelled)
  {
    if items != [] { HeldAllMeans(items[..|items| - 1], cancelled); }
  }

  lemma {:induction false} PrepareEachMeans(calls: seq<Call>, scripts: seq<Script>)
    requires |scripts| == |calls|
    ensures forall k :: 0 <= k < |calls| ==> PrepareEach(calls, scripts).items[k].call == calls[k]
  {
    hide PrepareOne;
    if calls != [] {
      var n := |calls| - 1;
      PrepareEachMeans(calls[..n], scripts[..n]);
      PrepareOneMeans(PrepareEach(calls[..n], scripts[..n]), calls[n], scripts[n]);
      var before := PrepareEach(calls[..n], scripts[..n]).items;
      assert forall k :: 0 <= k < n ==> PrepareEach(calls, scripts).items[..n][k] == before[k];
    }
  }

  /** Preparation keeps the calls and their order; after a terminal error nothing of the batch may start. */
  lemma PrepareMeans(calls: seq<Call>, scripts: seq<Script>)
    requires |scripts| == |calls|
    ensures var p := Prepare(calls, scripts);
            && |p.items| == |calls|
            && (forall k :: 0 <= k < |calls| ==> p.items[k].call == calls[k])
            && (p.terminal.Some? ==> forall k :: 0 <= k < |calls| ==> p.items[k].Immediate?)
  {
    PrepareEachMeans(calls, scripts);
    HeldAllMeans(PrepareEach(calls, scripts).items, PrepareEach(calls, scripts).cancelled);
  }

  /** A call that may start was valid and allowed, and nothing before or after it in the batch was
      cancelled or stopped. */
  lemma {:induction false} MayStartMeans(calls: seq<Call>, scripts: seq<Script>, k: nat)
    requires |scripts| == |calls| && k < |calls| && Prepare(calls, scripts).items[k].Execute?
    ensures scripts[k].invalid == None && scripts[k].before == Allow
    ensures forall j :: 0 <= j < |calls| ==> !scripts[j].cancelled
  {
    hide PrepareOne;
    HeldAllMeans(PrepareEach(calls, scripts).items, PrepareEach(calls, scripts).cancelled);
    PrepareEachMeans(calls, scripts);
    MayStartEach(calls, scripts, k);
    forall j | 0 <= j < |calls| ensures !scripts[j].cancelled {
      if scripts[j].cancelled { CancelledIsTerminal(calls, scripts, j); }
    }
  }

  /** One call adds one item; it may start only if it is valid and allowed. */
  lemma PrepareOneMeans(p: Preparation, call: Call, s: Script)
    ensures var q := PrepareOne(p, call, s);
            && |q.items| == |p.items| + 1 && q.items[..|p.items|] == p.items && q.items[|p.items|].call == call
            && (q.items[|p.items|].Execute? ==> s.invalid == None && s.before == Allow)
            && (p.terminal.Some? || s.cancelled ==> q.terminal.Some?)
  {
  }

  lemma {:induction false} MayStartEach(calls: seq<Call>, scripts: seq<Script>, k: nat)
    requires |scripts| == |calls| && k < |calls| && PrepareEach(calls, scripts).items[k].Execute?
    ensures scripts[k].invalid == None && scripts[k].before == Allow
  {
    hide PrepareOne;
    var n := |calls| - 1;
    PrepareOneMeans(PrepareEach(calls[..n], scripts[..n]), calls[n], scripts[n]);
    if k < n {
      assert PrepareEach(calls[..n], scripts[..n]).items[k] == PrepareEach(calls, scripts).items[..n][k];
      MayStartEach(calls[..n], scripts[..n], k);
    }
  }

  lemma {:induction false} CancelledIsTerminal(calls: seq<Call>, scripts: seq<Script>, j: nat)
    requires |scripts| == |calls| && j < |calls| && scripts[j].cancelled
    ensures PrepareEach(calls, scripts).terminal.Some?
  {
    hide PrepareOne;
    var n := |calls| - 1;
    PrepareOneMeans(PrepareEach(calls[..n], scripts[..n]), calls[n], scripts[n]);
    if j < n { CancelledIsTerminal(calls[..n], scripts[..n], j); }
  }

  // ---------------------------------------------------------------- traces

  predicate Concerns(e: BatchEvent, id: CallId) {
    match e
    case Registered(calls) => exists call :: call in calls && call.id == id
    case Started(i) => i == id
    case Completed(i, _) => i == id
    case Recorded(i, _) => i == id
  }

  function Of(trace: seq<BatchEvent>, id: CallId): seq<BatchEvent> {
    if trace == [] then []
    else
      var rest := Of(trace[..|trace| - 1], id);
      if Concerns(trace[|trace| - 1], id) then rest + [trace[|trace| - 1]] else rest
  }

  lemma {:induction false} OfAppend(a: seq<BatchEvent>, b: seq<BatchEvent>, id: CallId)
    ensures Of(a + b, id) == Of(a, id) + Of(b, id)
    decreases |b|
  {
    if b == [] {
      assert a + b == a;
    } else {
      var front, last := b[..|b| - 1], b[|b| - 1];
      assert (a + b)[..|a + b| - 1] == a + front && (a + b)[|a + b| - 1] == last;
      OfAppend(a, front, id);
      assert Of(a, id) + (Of(front, id) + [last]) == Of(a, id) + Of(front, id) + [last];
    }
  }

  lemma OfOne(e: BatchEvent, id: CallId)
    ensures Of([e], id) == if Concerns(e, id) then [e] else []
  {
  }

  /** The events execution leaves of one call, by how far the call got. */
  function Own(item: Prepared, s: Script, progress: Progress): seq<BatchEvent> {
    if item.Immediate? || progress == Waiting then []
    else if progress == InFlight || s.startFails || EffectResult(s.effect).None? then [Started(item.call.id)]
    else [Started(item.call.id), Completed(item.call.id, EffectResult(s.effect).value)]
  }

  predicate DistinctIds(items: seq<Prepared>) {
    forall i, j :: 0 <= i < j < |items| ==> items[i].call.id != items[j].call.id
  }

  /** The trace holds for every call exactly its own events, and the window is respected. */
  predicate Orderly(items: seq<Prepared>, scripts: seq<Script>, b: Batch, mode: Mode) {
    && |items| == |scripts| == |b.progress|
    && (forall k :: 0 <= k < |items| ==> Of(b.trace, items[k].call.id) == Own(items[k], scripts[k], b.progress[k]))
    && (forall k :: 0 <= k < |items| && b.progress[k] == InFlight ==> items[k].Execute? && !scripts[k].startFails)
    && (forall k :: 0 <= k < |items| && b.progress[k] == InFlight ==> k < Yielded(b.progress) + MAX_CONCURRENT_TOOLS)
    && (mode == Sequential ==> InSequence(items, scripts, b.progress))
  }

  /** One after another: everything before a call that has moved is over and came back. */
  predicate InSequence(items: seq<Prepared>, scripts: seq<Script>, progress: seq<Progress>)
    requires |items| == |scripts| == |progress|
  {
    forall j, k :: 0 <= j < k < |items| && progress[k] != Waiting ==>
      progress[j] == Over && OutcomeOf(items[j], scripts[j]).Finished?
  }

  lemma {:induction false} YieldedMeans(progress: seq<Progress>)
    ensures Yielded(progress) <= |progress|
    ensures forall k :: 0 <= k < Yielded(progress) ==> progress[k] == Over
    ensures Yielded(progress) < |progress| ==> progress[Yielded(progress)] != Over
  {
    if progress != [] && progress[0] == Over { YieldedMeans(progress[1..]); }
  }

  lemma {:induction false} YieldedGrows(progress: seq<Progress>, i: nat, p: Progress)
    requires i < |progress| && progress[i] != Over
    ensures Yielded(progress[i := p]) >= Yielded(progress)
  {
    if progress[0] == Over {
      assert progress[i := p][1..] == progress[1..][i - 1 := p];
      YieldedGrows(progress[1..], i - 1, p);
    }
  }

  function MoveOf(item: Prepared, s: Script, progress: Progress): (Progress, seq<BatchEvent>) {
    if progress == Waiting then StartMove(item, s) else EndMove(item, s)
  }

  /** A move adds the call's own next event, and nothing to any other call. */
  lemma MoveEvents(item: Prepared, s: Script, progress: Progress, id: CallId)
    requires progress != Over && (progress == InFlight ==> item.Execute? && !s.startFails)
    ensures var (after, events) := MoveOf(item, s, progress);
            if id == item.call.id then Own(item, s, progress) + Of(events, id) == Own(item, s, after) else Of(events, id) == []
  {
  }

  lemma OfNone(id: CallId)
    ensures Of([], id) == []
  {
  }

  lemma MoveOwn(items: seq<Prepared>, scripts: seq<Script>, b: Batch, i: nat, mode: Mode, k: nat)
    requires Orderly(items, scripts, b, mode) && DistinctIds(items) && CanMove(items, scripts, b, i, mode) && k < |items|
    ensures var after := Move(items, scripts, b, i);
            Of(after.trace, items[k].call.id) == Own(items[k], scripts[k], after.progress[k])
  {
    hide Of, Own, StartMove, EndMove, Yielded, InSequence;
    var id := items[k].call.id;
    var (p, events) := MoveOf(items[i], scripts[i], b.progress[i]);
    OfAppend(b.trace, events, id);
    MoveEvents(items[i], scripts[i], b.progress[i], id);
    assert id == items[i].call.id ==> k == i;
    assert Own(items[k], scripts[k], b.progress[k]) + [] == Own(items[k], scripts[k], b.progress[k]);
  }

  lemma MoveStays(items: seq<Prepared>, scripts: seq<Script>, b: Batch, i: nat, mode: Mode)
    requires Orderly(items, scripts, b, mode) && CanMove(items, scripts, b, i, mode)
    ensures var progress := Move(items, scripts, b, i).progress;
            && (forall k :: 0 <= k < |items| && progress[k] == InFlight ==>
                  items[k].Execute? && !scripts[k].startFails && k < Yielded(progress) + MAX_CONCURRENT_TOOLS)
            && (mode == Sequential ==> InSequence(items, scripts, progress))
  {
    hide Of, Own, OutcomeOf, EffectResult;
    YieldedGrows(b.progress, i, Move(items, scripts, b, i).progress[i]);
    YieldedMeans(b.progress);
  }

  lemma MoveKeeps(items: seq<Prepared>, scripts: seq<Script>, b: Batch, i: nat, mode: Mode)
    requires Orderly(items, scripts, b, mode) && DistinctIds(items) && CanMove(items, scripts, b, i, mode)
    ensures Orderly(items, scripts, Move(items, scripts, b, i), mode)
  {
    hide Of, Own, InSequence, Move, Yielded;
    var after := Move(items, scripts, b, i);
    MoveStays(items, scripts, b, i, mode);
    forall k | 0 <= k < |items| ensures Of(after.trace, items[k].call.id) == Own(items[k], scripts[k], after.progress[k]) {
      MoveOwn(items, scripts, b, i, mode, k);
    }
  }

  lemma {:induction false} ScheduleKeeps(items: seq<Prepared>, scripts: seq<Script>, b: Batch, schedule: seq<nat>, mode: Mode)
    requires |items| == |scripts| == |b.progress|
    requires Orderly(items, scripts, b, mode) && DistinctIds(items) && Scheduled(items, scripts, b, schedule, mode)
    ensures Orderly(items, scripts, RunSchedule(items, scripts, b, schedule, mode), mode)
    decreases |schedule|
  {
    hide Move, Of, Orderly, DistinctIds;
    if schedule != [] {
      assert CanMove(items, scripts, b, schedule[0], mode);
      MoveKeeps(items, scripts, b, schedule[0], mode);
      ScheduleKeeps(items, scripts, Move(items, scripts, b, schedule[0]), schedule[1..], mode);
    }
  }

  lemma StartOrderly(items: seq<Prepared>, scripts: seq<Script>, mode: Mode)
    requires |items| == |scripts|
    ensures Orderly(items, scripts, Unstarted(|items|), mode)
  {
  }

  /** Never more than eight calls of a batch are in flight: they lie within one window. */
  lemma AtMostEightInFlight(items: seq<Prepared>, scripts: seq<Script>, schedule: seq<nat>, mode: Mode, k: nat)
    requires |items| == |scripts| && DistinctIds(items) && Scheduled(items, scripts, Unstarted(|items|), schedule, mode)
    requires k < |items| && RunSchedule(items, scripts, Unstarted(|items|), schedule, mode).progress[k] == InFlight
    ensures var done := Yielded(RunSchedule(items, scripts, Unstarted(|items|), schedule, mode).progress);
            done <= k < done + MAX_CONCURRENT_TOOLS
  {
    hide Scheduled, RunSchedule;
    StartOrderly(items, scripts, mode);
    ScheduleKeeps(items, scripts, Unstarted(|items|), schedule, mode);
    YieldedMeans(RunSchedule(items, scripts, Unstarted(|items|), schedule, mode).progress);
  }

  /** The schedule runs the batch out. */
  lemma {:induction false} ScheduleRunsOut(items: seq<Prepared>, scripts: seq<Script>, b: Batch, moves: seq<nat>, mode: Mode)
    requires |items| == |scripts| == |b.progress| && Orderly(items, scripts, b, mode) && DistinctIds(items)
    ensures Exhausted(items, scripts, RunSchedule(items, scripts, b, ScheduleOf(items, scripts, b, moves, mode), mode), mode)
    decreases Left(b.progress)
  {
    hide Orderly, Move, CanMove, DistinctIds;
    var i := if moves != [] && CanMove(items, scripts, b, moves[0], mode) then moves[0] else Yielded(b.progress);
    if CanMove(items, scripts, b, i, mode) {
      CanMoveInRange(items, scripts, b, i, mode);
      var after := Move(items, scripts, b, i);
      MoveLeft(items, scripts, b, i, mode);
      MoveKeeps(items, scripts, b, i, mode);
      var rest := if moves == [] then [] else moves[1..];
      ScheduleRunsOut(items, scripts, after, rest, mode);
      var schedule := ScheduleOf(items, scripts, b, moves, mode);
      assert schedule == [i] + ScheduleOf(items, scripts, after, rest, mode);
      assert schedule[0] == i && schedule[1..] == ScheduleOf(items, scripts, after, rest, mode);
    } else {
      FirstMovesLast(items, scripts, b, mode);
    }
  }

  lemma CanMoveInRange(items: seq<Prepared>, scripts: seq<Script>, b: Batch, i: nat, mode: Mode)
    requires |items| == |scripts| == |b.progress| && CanMove(items, scripts, b, i, mode)
    ensures i < |items|
  {
  }

  lemma MoveLeft(items: seq<Prepared>, scripts: seq<Script>, b: Batch, i: nat, mode: Mode)
    requires |items| == |scripts| == |b.progress| && CanMove(items, scripts, b, i, mode)
    ensures Left(Move(items, scripts, b, i).progress) < Left(b.progress)
  {
    LeftFalls(b.progress, i, Move(items, scripts, b, i).progress[i]);
  }

  /** If the first call that is not over cannot move, none can. */
  lemma FirstMovesLast(items: seq<Prepared>, scripts: seq<Script>, b: Batch, mode: Mode)
    requires |items| == |scripts| == |b.progress| && Orderly(items, scripts, b, mode)
    requires !CanMove(items, scripts, b, Yielded(b.progress), mode)
    ensures Exhausted(items, scripts, b, mode)
  {
    hide Of, Own, OutcomeOf;
    YieldedMeans(b.progress);
  }

  // ---------------------------------------------------------------- one after another

  /** The batch run out from here, when nothing is left to choose. */
  function RunOut(items: seq<Prepared>, scripts: seq<Script>, b: Batch): Batch
    requires |items| == |scripts| == |b.progress|
  {
    RunSchedule(items, scripts, b, ScheduleOf(items, scripts, b, [], Sequential), Sequential)
  }

  lemma OnlyFirstMoves(items: seq<Prepared>, scripts: seq<Script>, b: Batch, i: nat)
    requires |items| == |scripts| == |b.progress| && Orderly(items, scripts, b, Sequential) && CanMove(items, scripts, b, i, Sequential)
    ensures i == Yielded(b.progress)
  {
    hide Of, Own, OutcomeOf;
    YieldedMeans(b.progress);
  }

  lemma RunOutStep(items: seq<Prepared>, scripts: seq<Script>, b: Batch, i: nat)
    requires |items| == |scripts| == |b.progress| && Orderly(items, scripts, b, Sequential) && CanMove(items, scripts, b, i, Sequential)
    ensures i < |items| && RunOut(items, scripts, Move(items, scripts, b, i)) == RunOut(items, scripts, b)
  {
    hide Orderly, Move, CanMove;
    OnlyFirstMoves(items, scripts, b, i);
    CanMoveInRange(items, scripts, b, i, Sequential);
    MoveLeft(items, scripts, b, i, Sequential);
    var rest := ScheduleOf(items, scripts, Move(items, scripts, b, i), [], Sequential);
    var schedule := ScheduleOf(items, scripts, b, [], Sequential);
    assert schedule == [i] + rest;
    assert schedule[0] == i && schedule[1..] == rest;
  }

  lemma RunOutEnd(items: seq<Prepared>, scripts: seq<Script>, b: Batch)
    requires |items| == |scripts| == |b.progress| && Exhausted(items, scripts, b, Sequential)
    ensures RunOut(items, scripts, b) == b
  {
    hide CanMove, Move;
    NothingMoves(items, scripts, b, Sequential);
  }

  /** One call after another the runtime has no choice. */
  lemma {:induction false} SequentialIgnores(items: seq<Prepared>, scripts: seq<Script>, b: Batch, moves: seq<nat>)
    requires |items| == |scripts| == |b.progress| && Orderly(items, scripts, b, Sequential) && DistinctIds(items)
    ensures ScheduleOf(items, scripts, b, moves, Sequential) == ScheduleOf(items, scripts, b, [], Sequential)
    decreases Left(b.progress)
  {
    hide Orderly, Move, CanMove, DistinctIds;
    var i := Yielded(b.progress);
    if moves != [] && CanMove(items, scripts, b, moves[0], Sequential) { OnlyFirstMoves(items, scripts, b, moves[0]); }
    if CanMove(items, scripts, b, i, Sequential) {
      CanMoveInRange(items, scripts, b, i, Sequential);
      MoveLeft(items, scripts, b, i, Sequential);
      MoveKeeps(items, scripts, b, i, Sequential);
      SequentialIgnores(items, scripts, Move(items, scripts, b, i), if moves == [] then [] else moves[1..]);
    }
  }

  // ---------------------------------------------------------------- every schedule

  /** Every schedule that runs the batch out is followed as it is. */
  lemma {:induction false} ScheduleFollows(items: seq<Prepared>, scripts: seq<Script>, b: Batch, schedule: seq<nat>, mode: Mode)
    requires |items| == |scripts| == |b.progress| && Scheduled(items, scripts, b, schedule, mode)
    requires Exhausted(items, scripts, RunSchedule(items, scripts, b, schedule, mode), mode)
    ensures ScheduleOf(items, scripts, b, schedule, mode) == schedule
    decreases |schedule|
  {
    hide Move, CanMove;
    if schedule != [] {
      CanMoveInRange(items, scripts, b, schedule[0], mode);
      ScheduleFollows(items, scripts, Move(items, scripts, b, schedule[0]), schedule[1..], mode);
    } else {
      NothingMoves(items, scripts, b, mode);
    }
  }

  lemma NothingMoves(items: seq<Prepared>, scripts: seq<Script>, b: Batch, mode: Mode)
    requires |items| == |scripts| == |b.progress| && Exhausted(items, scripts, b, mode)
    ensures !CanMove(items, scripts, b, Yielded(b.progress), mode)
  {
    YieldedMeans(b.progress);
  }

  /** A batch run out under the runtime's choices is such a run. */
  lemma BatchRan(calls: seq<Call>, scripts: seq<Script>, moves: seq<nat>, mode: Mode)
    requires |scripts| == |calls| && Distinct(calls)
    ensures Ran(calls, scripts, BatchOf(Prepare(calls, scripts).items, scripts, moves, mode), mode)
  {
    hide Prepare, Orderly, Exhausted, Scheduled, RunSchedule, ScheduleOf;
    var items := Prepare(calls, scripts).items;
    ItemsDistinct(calls, scripts);
    StartOrderly(items, scripts, mode);
    ScheduleRunsOut(items, scripts, Unstarted(|items|), moves, mode);
    ScheduleRan(calls, scripts, ScheduleOf(items, scripts, Unstarted(|items|), moves, mode), mode);
  }

  lemma {:induction false} StopAtMeans(items: seq<Prepared>, scripts: seq<Script>)
    requires |items| == |scripts|
    ensures var n := StopAt(items, scripts);
            && (forall k :: 0 <= k < n ==> OutcomeOf(items[k], scripts[k]).Finished?)
            && (n < |items| ==> OutcomeOf(items[n], scripts[n]).Broken?)
  {
    if items != [] && OutcomeOf(items[0], scripts[0]).Finished? { StopAtMeans(items[1..], scripts[1..]); }
  }

  /** How far a call has got when nothing can move any more. */
  lemma ExhaustedMeans(items: seq<Prepared>, scripts: seq<Script>, b: Batch, mode: Mode, k: nat)
    requires Orderly(items, scripts, b, mode) && Exhausted(items, scripts, b, mode) && k < |items|
    ensures b.progress[k] == if mode == Parallel || k <= StopAt(items, scripts) then Over else Waiting
  {
    hide Of;
    YieldedMeans(b.progress);
    StopAtMeans(items, scripts);
    var y := Yielded(b.progress);
    if y < |items| {
      assert !CanMove(items, scripts, b, y, mode);
    }
  }

  // ---------------------------------------------------------------- recording

  /** The record of every call that came back, in order. */
  function Records(answered: seq<Answered>, scripts: seq<Script>): seq<BatchEvent>
    requires forall a :: a in answered ==> a.index < |scripts|
    ensures |Records(answered, scripts)| == |answered|
  {
    if answered == [] then []
    else
      var last := answered[|answered| - 1];
      assert last in answered;
      Records(answered[..|answered| - 1], scripts) + [Recorded(last.call.id, AfterResult(last, scripts[last.index]))]
  }

  function ResultMessages(answered: seq<Answered>, scripts: seq<Script>): seq<Message>
    requires forall a :: a in answered ==> a.index < |scripts|
  {
    if answered == [] then []
    else
      var last := answered[|answered| - 1];
      assert last in answered;
      ResultMessages(answered[..|answered| - 1], scripts) + [ResultMessage(last.call, AfterResult(last, scripts[last.index]))]
  }

  /** Records follow the order of the calls and stop only at a record callback that fails; a turn that
      goes on has recorded every call that came back and given its result to the model. */
  lemma {:induction false} RecordAllMeans(answered: seq<Answered>, scripts: seq<Script>, terminal: Option<Error>)
    requires forall a :: a in answered ==> a.index < |scripts|
    ensures var r := RecordAll(answered, scripts, terminal);
            && r.events <= Records(answered, scripts)
            && (!r.stopped ==> r.events == Records(answered, scripts))
            && ((forall a :: a in answered ==> !scripts[a.index].recordFails) ==> !r.stopped)
            && (terminal.Some? ==> r.terminal == terminal)
            && (!r.stopped && r.terminal.None? ==> r.messages == ResultMessages(answered, scripts))
  {
    if answered != [] {
      var front, last := answered[..|answered| - 1], answered[|answered| - 1];
      assert last in answered && forall a :: a in front ==> a in answered;
      RecordAllMeans(front, scripts, terminal);
      var before := RecordAll(front, scripts, terminal);
      hide RecordAll, Records, ResultMessages, AfterResult, AfterError;
      RecordSteps(answered, scripts, terminal);
      var record := Recorded(last.call.id, AfterResult(last, scripts[last.index]));
      assert before.events <= Records(front, scripts) ==> before.events <= Records(front, scripts) + [record];
    }
  }

  lemma RecordSteps(answered: seq<Answered>, scripts: seq<Script>, terminal: Option<Error>)
    requires answered != [] && forall a :: a in answered ==> a.index < |scripts|
    ensures var front, last := answered[..|answered| - 1], answered[|answered| - 1];
            && last in answered && (forall a :: a in front ==> a in answered)
            && RecordAll(answered, scripts, terminal) == RecordOne(RecordAll(front, scripts, terminal), last, scripts[last.index])
            && Records(answered, scripts) == Records(front, scripts) + [Recorded(last.call.id, AfterResult(last, scripts[last.index]))]
            && ResultMessages(answered, scripts) == ResultMessages(front, scripts) + [ResultMessage(last.call, AfterResult(last, scripts[last.index]))]
  {
  }

  // ---------------------------------------------------------------- the whole batch

  /** Everything durable that one step leaves, for a schedule that runs the batch out. */
  function Trace(calls: seq<Call>, scripts: seq<Script>, b: Batch, r: Recording): seq<BatchEvent> {
    [Registered(calls)] + b.trace + r.events
  }

  predicate Distinct(calls: seq<Call>) {
    forall i, j :: 0 <= i < j < |calls| ==> calls[i].id != calls[j].id
  }

  lemma {:induction false} AnsweredMeans(items: seq<Prepared>, scripts: seq<Script>, n: nat)
    requires n <= |items| == |scripts|
    ensures forall a :: a in AnsweredUpTo(items, scripts, n) ==>
              a.index < n && a.call == items[a.index].call && OutcomeOf(items[a.index], scripts[a.index]) == Finished(a.result)
  {
    hide OutcomeOf;
    if n > 0 { AnsweredMeans(items, scripts, n - 1); }
  }

  /** The record of one call, if it came back among the first `n`. */
  function RecordOf(items: seq<Prepared>, scripts: seq<Script>, n: nat, k: nat): seq<BatchEvent>
    requires n <= |items| == |scripts|
  {
    if k < n && OutcomeOf(items[k], scripts[k]).Finished? then
      [Recorded(items[k].call.id, AfterResult(Answered(k, items[k].call, OutcomeOf(items[k], scripts[k]).result), scripts[k]))]
    else []
  }

  lemma {:induction false} RecordsOfCall(items: seq<Prepared>, scripts: seq<Script>, n: nat, k: nat)
    requires n <= |items| == |scripts| && DistinctIds(items) && k < |items|
    requires forall a :: a in AnsweredUpTo(items, scripts, n) ==> a.index < |scripts|
    ensures Of(Records(AnsweredUpTo(items, scripts, n), scripts), items[k].call.id) == RecordOf(items, scripts, n, k)
  {
    hide AfterResult, OutcomeOf, Of, Records;
    var id := items[k].call.id;
    if n == 0 {
      RecordsNone(scripts);
      OfNone(id);
    } else {
      AnsweredMeans(items, scripts, n - 1);
      var before, all := AnsweredUpTo(items, scripts, n - 1), AnsweredUpTo(items, scripts, n);
      RecordsOfCall(items, scripts, n - 1, k);
      assert id == items[n - 1].call.id ==> k == n - 1;
      match OutcomeOf(items[n - 1], scripts[n - 1])
      case Finished(r) =>
        var last := Answered(n - 1, items[n - 1].call, r);
        assert all == before + [last] && all[..|all| - 1] == before && all[|all| - 1] == last;
        var record := Recorded(items[n - 1].call.id, AfterResult(last, scripts[n - 1]));
        RecordSteps(all, scripts, None);
        OfAppend(Records(before, scripts), [record], id);
        OfOne(record, id);
      case Broken(_) => assert all == before;
    }
  }

  lemma RecordsNone(scripts: seq<Script>)
    ensures Records([], scripts) == []
  {
  }

  /** How many calls the execution gets to. */
  function Reach(items: seq<Prepared>, scripts: seq<Script>, mode: Mode): nat
    requires |items| == |scripts|
  {
    if mode == Sequential then StopAt(items, scripts) else |items|
  }

  /** A batch that ran out under some schedule, and its recording. */
  predicate Ran(calls: seq<Call>, scripts: seq<Script>, b: Batch, mode: Mode)
    requires |scripts| == |calls|
  {
    var items := Prepare(calls, scripts).items;
    && |b.progress| == |calls|
    && Orderly(items, scripts, b, mode) && Exhausted(items, scripts, b, mode)
  }

  /** Every schedule that runs the batch out is such a run. */
  lemma ScheduleRan(calls: seq<Call>, scripts: seq<Script>, schedule: seq<nat>, mode: Mode)
    requires |scripts| == |calls| && Distinct(calls)
    requires var items := Prepare(calls, scripts).items;
             && Scheduled(items, scripts, Unstarted(|items|), schedule, mode)
             && Exhausted(items, scripts, RunSchedule(items, scripts, Unstarted(|items|), schedule, mode), mode)
    ensures var items := Prepare(calls, scripts).items;
            Ran(calls, scripts, RunSchedule(items, scripts, Unstarted(|items|), schedule, mode), mode)
  {
    hide Prepare, Scheduled, RunSchedule, Orderly, Exhausted, DistinctIds;
    var items := Prepare(calls, scripts).items;
    ItemsDistinct(calls, scripts);
    StartOrderly(items, scripts, mode);
    ScheduleKeeps(items, scripts, Unstarted(|items|), schedule, mode);
  }

  function RecordingOf(calls: seq<Call>, scripts: seq<Script>, mode: Mode): Recording
    requires |scripts| == |calls|
  {
    var p := Prepare(calls, scripts);
    var (answered, terminal) := BatchOutcome(p.items, scripts, p.terminal, mode);
    AnsweredInRange(p.items, scripts, mode, p.terminal);
    RecordAll(answered, scripts, terminal)
  }

  lemma AnsweredInRange(items: seq<Prepared>, scripts: seq<Script>, mode: Mode, terminal: Option<Error>)
    requires |items| == |scripts|
    ensures forall a :: a in BatchOutcome(items, scripts, terminal, mode).0 ==> a.index < |scripts|
  {
    IndexBounded(items, scripts, Reach(items, scripts, mode));
  }

  lemma {:induction false} IndexBounded(items: seq<Prepared>, scripts: seq<Script>, n: nat)
    requires n <= |items| == |scripts|
    ensures forall a :: a in AnsweredUpTo(items, scripts, n) ==> a.index < n
  {
    if n > 0 { IndexBounded(items, scripts, n - 1); }
  }

  lemma {:induction false} OfPrefix(a: seq<BatchEvent>, b: seq<BatchEvent>, id: CallId)
    requires a <= b
    ensures Of(a, id) <= Of(b, id)
  {
    assert b == a + b[|a|..];
    OfAppend(a, b[|a|..], id);
  }

  lemma ItemsDistinct(calls: seq<Call>, scripts: seq<Script>)
    requires |scripts| == |calls| && Distinct(calls)
    ensures DistinctIds(Prepare(calls, scripts).items)
  {
    PrepareMeans(calls, scripts);
  }

  /** How far call `k` gets. */
  function FinalProgress(items: seq<Prepared>, scripts: seq<Script>, mode: Mode, k: nat): Progress
    requires |items| == |scripts|
  {
    if mode == Parallel || k <= StopAt(items, scripts) then Over else Waiting
  }

  lemma RecordingMeans(calls: seq<Call>, scripts: seq<Script>, mode: Mode, k: nat)
    requires |scripts| == |calls| && Distinct(calls) && k < |calls|
    ensures var items := Prepare(calls, scripts).items;
            var r := RecordingOf(calls, scripts, mode);
            var record := RecordOf(items, scripts, Reach(items, scripts, mode), k);
            && Of(r.events, calls[k].id) <= record
            && (!r.stopped ==> Of(r.events, calls[k].id) == record)
  {
    hide Of, Prepare, RecordAll, Records, RecordOf;
    var p := Prepare(calls, scripts);
    PrepareMeans(calls, scripts);
    ItemsDistinct(calls, scripts);
    var (answered, terminal) := BatchOutcome(p.items, scripts, p.terminal, mode);
    AnsweredInRange(p.items, scripts, mode, p.terminal);
    RecordAllMeans(answered, scripts, terminal);
    RecordsOfCall(p.items, scripts, Reach(p.items, scripts, mode), k);
    OfPrefix(RecordAll(answered, scripts, terminal).events, Records(answered, scripts), calls[k].id);
  }

  /** The whole trace of one call, whatever the schedule: registered, then started and completed as far as
      it got, then its record; each at most once and in this order. */
  lemma BatchGrammar(calls: seq<Call>, scripts: seq<Script>, b: Batch, mode: Mode, k: nat)
    requires |scripts| == |calls| && Distinct(calls) && Ran(calls, scripts, b, mode) && k < |calls|
    ensures var items := Prepare(calls, scripts).items;
            var r := RecordingOf(calls, scripts, mode);
            var recorded := Of(r.events, calls[k].id);
            && Of(Trace(calls, scripts, b, r), calls[k].id)
               == [Registered(calls)] + Own(items[k], scripts[k], FinalProgress(items, scripts, mode, k)) + recorded
            && recorded <= RecordOf(items, scripts, Reach(items, scripts, mode), k)
            && (!r.stopped ==> recorded == RecordOf(items, scripts, Reach(items, scripts, mode), k))
  {
    hide Of, Prepare, RecordingOf, RecordOf, Own, Concerns;
    var items := Prepare(calls, scripts).items;
    var r := RecordingOf(calls, scripts, mode);
    var id := calls[k].id;
    PrepareMeans(calls, scripts);
    RecordingMeans(calls, scripts, mode, k);
    ExhaustedMeans(items, scripts, b, mode, k);
    OfAppend([Registered(calls)] + b.trace, r.events, id);
    OfAppend([Registered(calls)], b.trace, id);
    OfOne(Registered(calls), id);
    RegisteredConcerns(calls, k);
  }

  lemma RegisteredConcerns(calls: seq<Call>, k: nat)
    requires k < |calls|
    ensures Concerns(Registered(calls), calls[k].id)
  {
  }

  /** An effect that was observed is never lost: unless a callback for the call itself fails, a completed
      call is recorded, exactly once, although a later call may break the batch. */
  lemma CompletedIsRecorded(calls: seq<Call>, scripts: seq<Script>, b: Batch, mode: Mode, k: nat)
    requires |scripts| == |calls| && Distinct(calls) && Ran(calls, scripts, b, mode) && k < |calls|
    requires !scripts[k].completeFails && !RecordingOf(calls, scripts, mode).stopped
    requires |Own(Prepare(calls, scripts).items[k], scripts[k], b.progress[k])| == 2
    ensures var r := RecordingOf(calls, scripts, mode);
            var output := EffectResult(scripts[k].effect).value;
            Of(r.events, calls[k].id)
            == [Recorded(calls[k].id, AfterResult(Answered(k, calls[k], output), scripts[k]))]
  {
    hide Of, Prepare, RecordingOf;
    PrepareMeans(calls, scripts);
    var items := Prepare(calls, scripts).items;
    ExhaustedMeans(items, scripts, b, mode, k);
    StopAtMeans(items, scripts);
    RecordingMeans(calls, scripts, mode, k);
  }

  /** A terminal error in preparation: no call starts, and every call is recorded exactly once. */
  lemma TerminalStartsNothing(calls: seq<Call>, scripts: seq<Script>, b: Batch, mode: Mode, k: nat)
    requires |scripts| == |calls| && Distinct(calls) && Ran(calls, scripts, b, mode) && k < |calls|
    requires Prepare(calls, scripts).terminal.Some? && forall j :: 0 <= j < |calls| ==> !scripts[j].recordFails
    ensures var r := RecordingOf(calls, scripts, mode);
            && !r.stopped && r.terminal.Some?
            && |Of(Trace(calls, scripts, b, r), calls[k].id)| == 2
            && Of(Trace(calls, scripts, b, r), calls[k].id)[1].Recorded?
  {
    hide Of, Prepare, RecordAll, Trace;
    PrepareMeans(calls, scripts);
    var p := Prepare(calls, scripts);
    AllImmediate(p.items, scripts);
    AnsweredInRange(p.items, scripts, mode, p.terminal);
    var (answered, terminal) := BatchOutcome(p.items, scripts, p.terminal, mode);
    RecordAllMeans(answered, scripts, terminal);
    BatchGrammar(calls, scripts, b, mode, k);
  }

  lemma {:induction false} AllImmediate(items: seq<Prepared>, scripts: seq<Script>)
    requires |items| == |scripts| && forall k :: 0 <= k < |items| ==> items[k].Immediate?
    ensures StopAt(items, scripts) == |items|
  {
    if items != [] { AllImmediate(items[1..], scripts[1..]); }
  }

  // ---------------------------------------------------------------- what the next step is given

  lemma {:induction false} ErrorMeans(items: seq<Prepared>, scripts: seq<Script>, n: nat)
    requires n <= |items| == |scripts|
    ensures FirstError(items, scripts, n) == None <==> forall k :: 0 <= k < n ==> OutcomeOf(items[k], scripts[k]).Finished?
    ensures FirstError(items, scripts, n) == None ==>
              && |AnsweredUpTo(items, scripts, n)| == n
              && forall k :: 0 <= k < n ==> AnsweredUpTo(items, scripts, n)[k].index == k && AnsweredUpTo(items, scripts, n)[k].call == items[k].call
  {
    hide OutcomeOf;
    if n > 0 { ErrorMeans(items, scripts, n - 1); }
  }

  lemma {:induction false} ResultMessagesMean(answered: seq<Answered>, scripts: seq<Script>)
    requires forall a :: a in answered ==> a.index < |scripts|
    ensures |ResultMessages(answered, scripts)| == |answered|
    ensures forall k :: 0 <= k < |answered| ==>
              ResultMessages(answered, scripts)[k] == ResultMessage(answered[k].call, AfterResult(answered[k], scripts[answered[k].index]))
  {
    hide AfterResult, ResultMessage;
    if answered != [] {
      var front := answered[..|answered| - 1];
      assert forall a :: a in front ==> a in answered;
      ResultMessagesMean(front, scripts);
      assert forall k :: 0 <= k < |front| ==> front[k] in answered && answered[k] == front[k];
    }
  }

  /** A step that goes on has given the model one result for each of its calls, in their order. */
  lemma GoingOnMeansAnswered(calls: seq<Call>, scripts: seq<Script>, mode: Mode)
    requires |scripts| == |calls|
    requires !RecordingOf(calls, scripts, mode).stopped && RecordingOf(calls, scripts, mode).terminal == None
    ensures var messages := RecordingOf(calls, scripts, mode).messages;
            && |messages| == |calls|
            && forall k :: 0 <= k < |calls| ==>
                 messages[k].role == Tool && messages[k].content.ToolResult? && messages[k].content.callId == calls[k].id
  {
    hide Prepare, RecordAll, AfterResult, Records, ResultMessages, OutcomeOf, AnsweredUpTo, StopAt;
    PrepareMeans(calls, scripts);
    var p := Prepare(calls, scripts);
    var (answered, terminal) := BatchOutcome(p.items, scripts, p.terminal, mode);
    AnsweredInRange(p.items, scripts, mode, p.terminal);
    RecordAllMeans(answered, scripts, terminal);
    StopAtMeans(p.items, scripts);
    ErrorMeans(p.items, scripts, |p.items|);
    ResultMessagesMean(answered, scripts);
  }
}
