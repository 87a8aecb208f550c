/** One step's tool calls: preparation, execution one after another or up to eight at a time, and the
    durable trace of what happened to each call.

    What validation, hooks, tools, callbacks and the cancellation token answer is an input, one `Script`
    for each call; which running call moves next is the schedule. */
module ToolBatch {
  import opened Wrappers
  import opened Messages
  import opened ProviderStream

  datatype Output = Output(value: string, isError: bool, uncertain: bool, terminate: bool)

  datatype Error = Cancelled | HookError(reason: string) | EffectError(reason: string) | EventFailed

  datatype Hook = Allow | Block(reason: string) | HookUncertain(reason: string) | HookCancelled | HookFailed(reason: string)

  datatype Effect = Returned(result: Output) | EffectUncertain(reason: string) | EffectFailed(reason: string) | CancelledDuring

  datatype After = Kept(result: Output) | AfterUncertain(reason: string) | AfterFailed(reason: string)

  /** `cancelled` is the token when this call is prepared; `invalid` is the catalog's objection. */
  datatype Script = Script(
    cancelled: bool,
    invalid: Option<string>,
    before: Hook,
    startFails: bool,
    effect: Effect,
    completeFails: bool,
    after: After,
    recordFails: bool)

  datatype Prepared = Immediate(call: Call, result: Output) | Execute(call: Call)

  datatype BatchEvent =
    | Registered(calls: seq<Call>)
    | Started(id: CallId)
    | Completed(id: CallId, result: Output)
    | Recorded(id: CallId, result: Output)

  datatype Mode = Sequential | Parallel

  const MAX_CONCURRENT_TOOLS: nat := 8
  const MAX_TOOL_CALLS_PER_STEP: nat := 64
  const MAX_TOOL_CALL_ID_BYTES: nat := 256

  const CANCELLED_TEXT := "tool call did not start because the Turn was cancelled"
  const STOPPED_TEXT := "tool call did not start because preparation stopped"

  function Failed(reason: string): Output {
    Output(reason, true, false, false)
  }

  function Uncertain(reason: string): Output {
    Output(reason, true, true, false)
  }

  // ---------------------------------------------------------------- preparation

  datatype Preparation = Preparation(items: seq<Prepared>, terminal: Option<Error>, cancelled: bool)

  function PrepareOne(p: Preparation, call: Call, s: Script): Preparation {
    if p.cancelled || s.cancelled then
      Preparation(p.items + [Immediate(call, Failed(CANCELLED_TEXT))],
                  if p.terminal.None? then Some(Cancelled) else p.terminal, true)
    else if p.terminal.Some? then p.(items := p.items + [Immediate(call, Failed(STOPPED_TEXT))])
    else if s.invalid.Some? then p.(items := p.items + [Immediate(call, Failed(s.invalid.value))])
    else
      match s.before
      case Allow => p.(items := p.items + [Execute(call)])
      case Block(reason) => p.(items := p.items + [Immediate(call, Failed(reason))])
      case HookUncertain(reason) =>
        Preparation(p.items + [Immediate(call, Uncertain("before_tool outcome is uncertain: " + reason))],
                    Some(HookError(reason)), false)
      case HookCancelled => Preparation(p.items + [Immediate(call, Failed("before_tool was cancelled"))], Some(Cancelled), true)
      case HookFailed(reason) => p.(items := p.items + [Immediate(call, Failed("before_tool failed: " + reason))])
  }

  function PrepareEach(calls: seq<Call>, scripts: seq<Script>): (p: Preparation)
    requires |scripts| == |calls|
    ensures |p.items| == |calls|
  {
    if calls == [] then Preparation([], None, false)
    else
      var n := |calls| - 1;
      PrepareOne(PrepareEach(calls[..n], scripts[..n]), calls[n], scripts[n])
  }

  function Held(item: Prepared, cancelled: bool): Prepared {
    if item.Execute? then Immediate(item.call, Failed(if cancelled then CANCELLED_TEXT else STOPPED_TEXT)) else item
  }

  function HeldAll(items: seq<Prepared>, cancelled: bool): (held: seq<Prepared>)
    ensures |held| == |items|
  {
    if items == [] then [] else HeldAll(items[..|items| - 1], cancelled) + [Held(items[|items| - 1], cancelled)]
  }

  /** A terminal error during preparation keeps every call of the batch from starting. */
  function Prepare(calls: seq<Call>, scripts: seq<Script>): (p: Preparation)
    requires |scripts| == |calls|
    ensures |p.items| == |calls|
  {
    var p := PrepareEach(calls, scripts);
    if p.terminal.Some? then p.(items := HeldAll(p.items, p.cancelled)) else p
  }

  // ---------------------------------------------------------------- execution

  datatype Outcome = Finished(result: Output) | Broken(error: Error)

  function EffectResult(effect: Effect): Option<Output> {
    match effect
    case Returned(r) => Some(r)
    case EffectUncertain(reason) => Some(Uncertain(reason))
    case EffectFailed(reason) => Some(Failed(reason))
    case CancelledDuring => None
  }

  function OutcomeOf(item: Prepared, s: Script): Outcome {
    if item.Immediate? then Finished(item.result)
    else if s.startFails then Broken(EventFailed)
    else if s.effect.CancelledDuring? then Broken(Cancelled)
    else if s.completeFails then Broken(EventFailed)
    else Finished(EffectResult(s.effect).value)
  }

  datatype Progress = Waiting | InFlight | Over

  datatype Batch = Batch(progress: seq<Progress>, trace: seq<BatchEvent>)

  /** The outputs already handed on: `buffered` yields them in the order of the calls. */
  function Yielded(progress: seq<Progress>): nat {
    if progress == [] || progress[0] != Over then 0 else 1 + Yielded(progress[1..])
  }

  /** A call starts when fewer than `window` calls lie between it and the outputs handed on; one call
      after another also means not after a broken one. */
  predicate CanMove(items: seq<Prepared>, scripts: seq<Script>, b: Batch, i: nat, mode: Mode)
    requires |items| == |scripts| == |b.progress|
  {
    && i < |items| && b.progress[i] != Over
    && (b.progress[i] == Waiting ==>
          if mode == Sequential
          then i == Yielded(b.progress) && forall j :: 0 <= j < i ==> OutcomeOf(items[j], scripts[j]).Finished?
          else i < Yielded(b.progress) + MAX_CONCURRENT_TOOLS)
  }

  function StartMove(item: Prepared, s: Script): (Progress, seq<BatchEvent>) {
    if item.Immediate? then (Over, [])
    else (if s.startFails then Over else InFlight, [Started(item.call.id)])
  }

  function EndMove(item: Prepared, s: Script): (Progress, seq<BatchEvent>) {
    (Over, if EffectResult(s.effect).Some? then [Completed(item.call.id, EffectResult(s.effect).value)] else [])
  }

  function Move(items: seq<Prepared>, scripts: seq<Script>, b: Batch, i: nat): (r: Batch)
    requires |items| == |scripts| == |b.progress| && i < |items|
    ensures |r.progress| == |items|
  {
    var (progress, events) :=
      if b.progress[i] == Waiting then StartMove(items[i], scripts[i]) else EndMove(items[i], scripts[i]);
    Batch(b.progress[i := progress], b.trace + events)
  }

  predicate Scheduled(items: seq<Prepared>, scripts: seq<Script>, b: Batch, schedule: seq<nat>, mode: Mode)
    requires |items| == |scripts| == |b.progress|
    decreases |schedule|
  {
    schedule == []
    || (CanMove(items, scripts, b, schedule[0], mode)
        && Scheduled(items, scripts, Move(items, scripts, b, schedule[0]), schedule[1..], mode))
  }

  function RunSchedule(items: seq<Prepared>, scripts: seq<Script>, b: Batch, schedule: seq<nat>, mode: Mode): (r: Batch)
    requires |items| == |scripts| == |b.progress| && Scheduled(items, scripts, b, schedule, mode)
    ensures |r.progress| == |items|
    decreases |schedule|
  {
    if schedule == [] then b
    else RunSchedule(items, scripts, Move(items, scripts, b, schedule[0]), schedule[1..], mode)
  }

  function Unstarted(n: nat): Batch {
    Batch(seq(n, _ => Waiting), [])
  }

  function Weight(progress: Progress): nat {
    match progress
    case Waiting => 2
    case InFlight => 1
    case Over => 0
  }

  /** The moves that are left at most. */
  function Left(progress: seq<Progress>): nat {
    if progress == [] then 0 else Weight(progress[0]) + Left(progress[1..])
  }

  lemma {:induction false} LeftFalls(progress: seq<Progress>, i: nat, p: Progress)
    requires i < |progress| && Weight(p) < Weight(progress[i])
    ensures Left(progress[i := p]) < Left(progress)
  {
    if i == 0 {
      assert progress[i := p][1..] == progress[1..];
    } else {
      assert progress[i := p][1..] == progress[1..][i - 1 := p];
      LeftFalls(progress[1..], i - 1, p);
    }
  }

  /** A schedule that runs the batch out: it follows `moves` as long as those can be made, and otherwise
      moves the first call that is not over. Every such schedule follows itself. */
  function ScheduleOf(items: seq<Prepared>, scripts: seq<Script>, b: Batch, moves: seq<nat>, mode: Mode): (schedule: seq<nat>)
    requires |items| == |scripts| == |b.progress|
    ensures Scheduled(items, scripts, b, schedule, mode)
    decreases Left(b.progress)
  {
    var i := if moves != [] && CanMove(items, scripts, b, moves[0], mode) then moves[0] else Yielded(b.progress);
    if !CanMove(items, scripts, b, i, mode) then []
    else
      var after := Move(items, scripts, b, i);
      LeftFalls(b.progress, i, after.progress[i]);
      [i] + ScheduleOf(items, scripts, after, if moves == [] then [] else moves[1..], mode)
  }

  /** The whole batch under the moves that the runtime chose. */
  function BatchOf(items: seq<Prepared>, scripts: seq<Script>, moves: seq<nat>, mode: Mode): (b: Batch)
    requires |items| == |scripts|
    ensures |b.progress| == |items|
  {
    RunSchedule(items, scripts, Unstarted(|items|), ScheduleOf(items, scripts, Unstarted(|items|), moves, mode), mode)
  }

  /** Where one-after-another execution stops: the first broken call, or the end. */
  function StopAt(items: seq<Prepared>, scripts: seq<Script>): nat
    requires |items| == |scripts|
    ensures StopAt(items, scripts) <= |items|
  {
    if items == [] || OutcomeOf(items[0], scripts[0]).Broken? then 0 else 1 + StopAt(items[1..], scripts[1..])
  }

  /** No call may still move. */
  predicate Exhausted(items: seq<Prepared>, scripts: seq<Script>, b: Batch, mode: Mode)
    requires |items| == |scripts| == |b.progress|
  {
    forall i :: 0 <= i < |items| ==> !CanMove(items, scripts, b, i, mode)
  }

  // ---------------------------------------------------------------- recording

  /** A call that came back, with its place in the batch. */
  datatype Answered = Answered(index: nat, call: Call, result: Output)

  function AnsweredUpTo(items: seq<Prepared>, scripts: seq<Script>, n: nat): seq<Answered>
    requires n <= |items| == |scripts|
  {
    if n == 0 then []
    else
      AnsweredUpTo(items, scripts, n - 1)
      + match OutcomeOf(items[n - 1], scripts[n - 1])
        case Finished(r) => [Answered(n - 1, items[n - 1].call, r)]
        case Broken(_) => []
  }

  function FirstError(items: seq<Prepared>, scripts: seq<Script>, n: nat): Option<Error>
    requires n <= |items| == |scripts|
  {
    if n == 0 then None
    else if FirstError(items, scripts, n - 1).Some? then FirstError(items, scripts, n - 1)
    else
      match OutcomeOf(items[n - 1], scripts[n - 1])
      case Finished(_) => None
      case Broken(e) => Some(e)
  }

  /** What execution hands to recording: the calls that came back, in order, and the terminal error. */
  function BatchOutcome(items: seq<Prepared>, scripts: seq<Script>, terminal: Option<Error>, mode: Mode): (seq<Answered>, Option<Error>)
    requires |items| == |scripts|
  {
    if mode == Sequential then
      var n := StopAt(items, scripts);
      (AnsweredUpTo(items, scripts, n), if n < |items| then FirstError(items, scripts, n + 1) else terminal)
    else
      (AnsweredUpTo(items, scripts, |items|),
       if terminal.Some? then terminal else FirstError(items, scripts, |items|))
  }

  /** `stopped`: a record callback failed and ended the turn at once. */
  datatype Recording = Recording(events: seq<BatchEvent>, messages: seq<Message>, terminal: Option<Error>, stopped: bool)

  function ResultMessage(call: Call, r: Output): Message {
    Message(Tool, Content.ToolResult(call.id, call.name, r.value, r.isError, r.uncertain))
  }

  function AfterResult(a: Answered, s: Script): Output {
    match s.after
    case Kept(r) => r
    case AfterUncertain(reason) => Uncertain("after_tool outcome is uncertain: " + reason)
    case AfterFailed(reason) => Failed("after_tool failed: " + reason)
  }

  function AfterError(s: Script): Option<Error> {
    match s.after
    case Kept(_) => None
    case AfterUncertain(reason) => Some(HookError(reason))
    case AfterFailed(reason) => Some(HookError(reason))
  }

  function RecordOne(r: Recording, a: Answered, s: Script): Recording {
    if r.stopped then r
    else
      var result := AfterResult(a, s);
      var recorded := r.(events := r.events + [Recorded(a.call.id, result)]);
      if s.recordFails then recorded.(stopped := true)
      else if AfterError(s).Some? then
        recorded.(terminal := if r.terminal.Some? then r.terminal else AfterError(s))
      else recorded.(messages := r.messages + [ResultMessage(a.call, result)])
  }

  function RecordAll(answered: seq<Answered>, scripts: seq<Script>, terminal: Option<Error>): Recording
    requires forall a :: a in answered ==> a.index < |scripts|
  {
    if answered == [] then Recording([], [], terminal, false)
    else
      var last := answered[|answered| - 1];
      assert last in answered;
      RecordOne(RecordAll(answered[..|answered| - 1], scripts, terminal), last, scripts[last.index])
  }
}
