/** One ACP turn on a worker: the lifecycle hooks it runs and the Codex restart recovery.

    What processes, adapters and hook scripts do is an input: each `Pass` holds the answers met by one
    run of the turn body, in the order in which the code asks for them. */
module TurnHooks {
  import opened Wrappers

  datatype Error = Error(text: string, cancelled: bool)

  datatype Result = Done | Failure(error: Error)

  datatype Transition = New | Resume(session: string) | Replace(reason: string)

  datatype Channel = CodexDeveloper | OtherChannel

  datatype Metadata = Metadata(invokeTurnStart: bool)

  datatype Turn = Turn(metadata: Option<Metadata>, transition: Transition, channel: Channel)

  datatype Resumed = Accepted | NotFound | Refused(error: Error)

  /** `emit` is the event sink's answer to the `turn_start` observation, `before` an error ahead of the
      continuation, `rest` one after it; `afterStep` and `turnEnd` are the sink's answers at the end. */
  datatype Pass = Pass(
    cancelled: bool,
    inspect: Option<Error>,
    start: Option<Error>,
    emit: Option<Error>,
    before: Option<Error>,
    resumed: Resumed,
    rest: Option<Error>,
    afterStep: Option<Error>,
    turnEnd: Option<Error>)

  datatype Status = Succeeded | Cancelled | Failed

  datatype Hook = TurnStart | AfterStep | TurnEnd(status: Status)

  const MARKER := "mews: restart Codex adapter for ACP recovery"
  const CANCELLED := Error("ACP harness Turn cancelled", true)
  const START_FAILED := "ACP turn_start hook failed"
  const FAILED := "ACP Harness failed"

  predicate OccursAt(text: string, part: string, i: nat) {
    i + |part| <= |text| && text[i..i + |part|] == part
  }

  predicate Contains(text: string, part: string) {
    exists i: nat :: i <= |text| && OccursAt(text, part, i)
  }

  function Answer(error: Option<Error>): Result {
    match error
    case None => Done
    case Some(e) => Failure(e)
  }

  predicate InvokesStart(turn: Turn) {
    turn.metadata.Some? && turn.metadata.value.invokeTurnStart
  }

  /** The `turn_start` hook and its observation; an error of the sink hides the hook's own. */
  function Start(turn: Turn, pass: Pass): Result {
    if !InvokesStart(turn) then Done
    else if pass.emit.Some? then Failure(pass.emit.value)
    else if pass.start.Some? then Failure(Error(START_FAILED, pass.start.value.cancelled))
    else Done
  }

  /** The ACP session: a lost session is replaced in place, except that Codex must be restarted for it. */
  function Attempt(turn: Turn, pass: Pass): Result {
    if pass.before.Some? then Failure(pass.before.value)
    else if !turn.transition.Resume? then Answer(pass.rest)
    else
      match pass.resumed
      case Accepted => Answer(pass.rest)
      case Refused(e) => Failure(e)
      case NotFound =>
        if turn.channel == CodexDeveloper then Failure(Error(MARKER, false)) else Answer(pass.rest)
  }

  predicate Reached(turn: Turn, pass: Pass) {
    !pass.cancelled && pass.inspect == None
  }

  function Body(turn: Turn, pass: Pass): Result {
    if pass.cancelled then Failure(CANCELLED)
    else if pass.inspect.Some? then Failure(pass.inspect.value)
    else if Start(turn, pass) != Done then Start(turn, pass)
    else Attempt(turn, pass)
  }

  function StartHooks(turn: Turn, pass: Pass): seq<Hook> {
    if Reached(turn, pass) && InvokesStart(turn) then [TurnStart] else []
  }

  predicate Restarts(result: Result) {
    result.Failure? && Contains(result.error.text, MARKER)
  }

  function Replacement(turn: Turn): Turn {
    Turn(if turn.metadata.Some? then Some(Metadata(false)) else None, Replace("resource not found"), turn.channel)
  }

  function StatusOf(result: Result): Status {
    match result
    case Done => Succeeded
    case Failure(e) => if e.cancelled then Cancelled else Failed
  }

  function EndHooks(turn: Turn, result: Result): seq<Hook> {
    if turn.metadata == None then []
    else (if result == Done then [AfterStep] else []) + [TurnEnd(StatusOf(result))]
  }

  /** The sink's errors at the end win over the turn's own result. */
  function Final(turn: Turn, pass: Pass, result: Result): Result {
    if turn.metadata.Some? && result == Done && pass.afterStep.Some? then Failure(pass.afterStep.value)
    else if turn.metadata.Some? && pass.turnEnd.Some? then Failure(pass.turnEnd.value)
    else if result.Failure? then Failure(Error(FAILED, result.error.cancelled))
    else Done
  }

  /** `passes` is exactly what a turn that comes to its end goes through. */
  predicate Completes(turn: Turn, passes: seq<Pass>)
    decreases |passes|
  {
    passes != [] &&
    if Restarts(Body(turn, passes[0])) then Completes(Replacement(turn), passes[1..]) else |passes| == 1
  }

  function Hooks(turn: Turn, passes: seq<Pass>): seq<Hook>
    requires Completes(turn, passes)
    decreases |passes|
  {
    var result := Body(turn, passes[0]);
    StartHooks(turn, passes[0])
    + if Restarts(result) then Hooks(Replacement(turn), passes[1..]) else EndHooks(turn, result)
  }

  function Outcome(turn: Turn, passes: seq<Pass>): Result
    requires Completes(turn, passes)
    decreases |passes|
  {
    var result := Body(turn, passes[0]);
    if Restarts(result) then Outcome(Replacement(turn), passes[1..]) else Final(turn, passes[0], result)
  }

  function Starts(hooks: seq<Hook>): nat {
    if hooks == [] then 0 else (if hooks[0] == TurnStart then 1 else 0) + Starts(hooks[1..])
  }

  function Ends(hooks: seq<Hook>): nat {
    if hooks == [] then 0 else (if hooks[0].TurnEnd? then 1 else 0) + Ends(hooks[1..])
  }

  /** The turn the last pass of a completed run works on. */
  function Last(turn: Turn, passes: seq<Pass>): Turn
    requires passes != []
    decreases |passes|
  {
    if |passes| == 1 then turn else Last(Replacement(turn), passes[1..])
  }

  lemma CountAppend(a: seq<Hook>, b: seq<Hook>)
    ensures Starts(a + b) == Starts(a) + Starts(b) && Ends(a + b) == Ends(a) + Ends(b)
  {
    if a == [] {
      assert a + b == b;
    } else {
      CountAppend(a[1..], b);
      assert (a + b)[1..] == a[1..] + b;
    }
  }

  lemma CountSmall(turn: Turn, pass: Pass, result: Result)
    ensures Starts(StartHooks(turn, pass)) == |StartHooks(turn, pass)| && Ends(StartHooks(turn, pass)) == 0
    ensures Starts(EndHooks(turn, result)) == 0 && Ends(EndHooks(turn, result)) == (if turn.metadata.Some? then 1 else 0)
  {
    var end := [TurnEnd(StatusOf(result))];
    assert Starts(end) == 0 && Ends(end) == 1;
    assert ([AfterStep] + end)[1..] == end && [] + end == end;
  }

  /** Through any number of restarts: with metadata, `turn_end` runs exactly once, as the last hook, with
      the status of the last pass; `turn_start` runs at most once, and only if it was asked for. */
  lemma {:induction false} HooksOnce(turn: Turn, passes: seq<Pass>)
    requires Completes(turn, passes)
    ensures var hooks := Hooks(turn, passes);
            && (turn.metadata.Some? ==>
                  && hooks != [] && Ends(hooks) == 1
                  && hooks[|hooks| - 1] == TurnEnd(StatusOf(Body(Last(turn, passes), passes[|passes| - 1]))))
            && (turn.metadata == None ==> hooks == [])
            && Starts(hooks) <= (if InvokesStart(turn) then 1 else 0)
            && (Starts(hooks) == 1 ==> hooks[0] == TurnStart)
    decreases |passes|
  {
    hide Body, Restarts, Reached, Starts, Ends, StatusOf;
    var result := Body(turn, passes[0]);
    var first := StartHooks(turn, passes[0]);
    CountSmall(turn, passes[0], result);
    if Restarts(result) {
      var rest := passes[1..];
      assert |passes| > 1 && rest[|rest| - 1] == passes[|passes| - 1];
      HooksOnce(Replacement(turn), rest);
      CountAppend(first, Hooks(Replacement(turn), passes[1..]));
    } else {
      CountAppend(first, EndHooks(turn, result));
    }
  }

  /** The status handed to `turn_end` is `succeeded` only if the session itself succeeded. */
  lemma SucceededMeans(turn: Turn, passes: seq<Pass>)
    requires Completes(turn, passes) && TurnEnd(Succeeded) in Hooks(turn, passes)
    ensures var last := passes[|passes| - 1];
            && Attempt(Last(turn, passes), last) == Done && !last.cancelled && last.inspect == None
    decreases |passes|
  {
    if Restarts(Body(turn, passes[0])) {
      assert TurnEnd(Succeeded) !in StartHooks(turn, passes[0]);
      SucceededMeans(Replacement(turn), passes[1..]);
    }
  }

  /** No error met from outside carries the text by which the code asks itself for a restart. */
  predicate Clean(error: Option<Error>) {
    error.Some? ==> !Contains(error.value.text, MARKER)
  }

  predicate CleanPass(pass: Pass) {
    && Clean(pass.inspect) && Clean(pass.start) && Clean(pass.emit) && Clean(pass.before) && Clean(pass.rest)
    && (pass.resumed.Refused? ==> Clean(Some(pass.resumed.error)))
  }

  /** The code itself asks for a restart exactly when a resumed Codex session turns out to be lost. */
  predicate LostCodexSession(turn: Turn, pass: Pass) {
    && Reached(turn, pass) && Start(turn, pass) == Done && pass.before == None
    && turn.transition.Resume? && turn.channel == CodexDeveloper && pass.resumed == NotFound
  }

  lemma TextsAreClean()
    ensures !Contains(CANCELLED.text, MARKER) && !Contains(START_FAILED, MARKER)
    ensures Contains(MARKER, MARKER)
  {
    assert OccursAt(MARKER, MARKER, 0);
    assert |CANCELLED.text| < |MARKER|;
    assert |START_FAILED| < |MARKER|;
  }

  lemma RestartMeans(turn: Turn, pass: Pass)
    requires CleanPass(pass)
    ensures Restarts(Body(turn, pass)) <==> LostCodexSession(turn, pass)
  {
    hide Contains;
    TextsAreClean();
  }

  /** The first error from outside that ends a pass; a failed `turn_start` hook is reported in other words. */
  function ForeignError(turn: Turn, pass: Pass): Option<Error> {
    if pass.cancelled then None
    else if pass.inspect.Some? then pass.inspect
    else if InvokesStart(turn) && pass.emit.Some? then pass.emit
    else if InvokesStart(turn) && pass.start.Some? then None
    else if pass.before.Some? then pass.before
    else if turn.transition.Resume? && pass.resumed.Refused? then Some(pass.resumed.error)
    else if turn.transition.Resume? && pass.resumed.NotFound? && turn.channel == CodexDeveloper then None
    else pass.rest
  }

  predicate ForeignMarker(turn: Turn, pass: Pass) {
    ForeignError(turn, pass).Some? && Contains(ForeignError(turn, pass).value.text, MARKER)
  }

  /** A pass restarts exactly when a Codex session is lost or a foreign error carries the marker. */
  lemma RestartsExactly(turn: Turn, pass: Pass)
    ensures Restarts(Body(turn, pass)) <==> LostCodexSession(turn, pass) || ForeignMarker(turn, pass)
  {
    hide Contains;
    TextsAreClean();
  }

  /** The recovery recurses at most once if and only if the replacement meets no foreign error that carries
      the marker. */
  lemma RecursesOnceExactly(turn: Turn, passes: seq<Pass>)
    requires Completes(turn, passes)
    ensures |passes| <= 2 <==> |passes| == 1 || !ForeignMarker(Replacement(turn), passes[1])
  {
    hide Body, Restarts, ForeignMarker;
    if |passes| > 1 {
      var again, rest := Replacement(turn), passes[1..];
      RestartsExactly(again, passes[1]);
      assert Completes(again, rest) && rest[0] == passes[1];
      assert Restarts(Body(again, rest[0])) ==> Completes(Replacement(again), rest[1..]) && rest[1..] != [];
    }
  }

  /** With clean errors the recovery recurses at most once, because a replacement never resumes. */
  lemma AtMostOneRestart(turn: Turn, passes: seq<Pass>)
    requires Completes(turn, passes) && forall pass :: pass in passes ==> CleanPass(pass)
    ensures |passes| == if LostCodexSession(turn, passes[0]) then 2 else 1
  {
    hide Body, Restarts, CleanPass;
    RestartMeans(turn, passes[0]);
    if |passes| > 1 { RestartMeans(Replacement(turn), passes[1]); }
  }

  /** An adapter whose own error message carries that text makes every pass restart, replaced or not: the
      recursion then has no bound. */
  lemma {:induction false} ForeignMarkerRestarts(turn: Turn, pass: Pass)
    requires !pass.cancelled && pass.inspect == None && Start(turn, pass) == Done
    requires pass.before == Some(Error("ACP session/new failed (1): " + MARKER, false))
    ensures Restarts(Body(turn, pass)) && Restarts(Body(Replacement(turn), pass))
  {
    var text := pass.before.value.text;
    var at := |text| - |MARKER|;
    assert OccursAt(text, MARKER, at);
  }

  lemma {:induction false} NeverCompletes(turn: Turn, pass: Pass, n: nat)
    requires Start(turn, pass) == Done && !pass.cancelled && pass.inspect == None
    requires pass.before == Some(Error("ACP session/new failed (1): " + MARKER, false))
    ensures !Completes(turn, seq(n, _ => pass))
    decreases n
  {
    ForeignMarkerRestarts(turn, pass);
    if n > 0 {
      assert seq(n, _ => pass)[1..] == seq(n - 1, _ => pass);
      NeverCompletes(Replacement(turn), pass, n - 1);
    }
  }

  /** The code itself; `hooks` records every hook that it runs. */
  class TurnRunner {
    var hooks: seq<Hook>

    constructor ()
      ensures hooks == []
    {
      hooks := [];
    }

    method InvokeTurnStart(turn: Turn, pass: Pass) returns (r: Result)
      modifies this
      ensures r == Start(turn, pass) && hooks == old(hooks) + if InvokesStart(turn) then [TurnStart] else []
    {
      if turn.metadata == None || !turn.metadata.value.invokeTurnStart { return Done; }
      hooks := hooks + [TurnStart];
      if pass.emit.Some? { return Failure(pass.emit.value); }
      if pass.start.Some? { return Failure(Error(START_FAILED, pass.start.value.cancelled)); }
      r := Done;
    }

    method FinalizeTurnHooks(turn: Turn, pass: Pass, result: Result) returns (r: Result)
      modifies this
      ensures hooks == old(hooks) + EndHooks(turn, result)
      ensures r == if turn.metadata == None then Done
                   else if result == Done && pass.afterStep.Some? then Failure(pass.afterStep.value)
                   else Answer(pass.turnEnd)
    {
      if turn.metadata == None { return Done; }
      var afterStep := Done;
      if result == Done {
        hooks := hooks + [AfterStep];
        afterStep := Answer(pass.afterStep);
      }
      hooks := hooks + [TurnEnd(StatusOf(result))];
      r := if afterStep.Failure? then afterStep else Answer(pass.turnEnd);
    }

    method RunBody(turn: Turn, pass: Pass) returns (r: Result)
      modifies this
      ensures r == Body(turn, pass) && hooks == old(hooks) + StartHooks(turn, pass)
    {
      hide Attempt;
      if pass.cancelled { return Failure(CANCELLED); }
      if pass.inspect.Some? { return Failure(pass.inspect.value); }
      r := InvokeTurnStart(turn, pass);
      if r == Done { r := Attempt(turn, pass); }
    }

    /** The whole execution over the passes that happen; None if every one of them restarts, so that it is still
        under way and has ended nothing. */
    method Execute(turn: Turn, passes: seq<Pass>) returns (r: Option<Result>)
      modifies this
      ensures r.Some? <==> exists n: nat :: CompletesAfter(turn, passes, n)
      ensures forall n: nat :: CompletesAfter(turn, passes, n) ==>
                r == Some(Outcome(turn, passes[..n])) && hooks == old(hooks) + Hooks(turn, passes[..n])
      ensures r.None? ==> hooks == old(hooks) + if passes == [] then [] else StartHooks(turn, passes[0])
      decreases |passes|
    {
      hide Contains, Body, StartHooks, EndHooks, Final, Hooks, Outcome, Completes;
      if passes == [] {
        NoPassCompletes(turn);
        return None;
      }
      var pass := passes[0];
      ghost var before := hooks;
      var result := RunBody(turn, pass);
      if result.Failure? && Contains(result.error.text, MARKER) {
        r := Execute(Replacement(turn), passes[1..]);
        ReplacementStartsNothing(turn);
        forall n: nat ensures CompletesAfter(turn, passes, n) <==> n > 0 && CompletesAfter(Replacement(turn), passes[1..], n - 1) {
          RestartCompletes(turn, passes, n);
        }
        forall n: nat | CompletesAfter(turn, passes, n)
          ensures r == Some(Outcome(turn, passes[..n])) && hooks == before + Hooks(turn, passes[..n])
        {
          RestartCompletes(turn, passes, n);
        }
        if r.Some? {
          ghost var n: nat :| CompletesAfter(Replacement(turn), passes[1..], n);
          RestartCompletes(turn, passes, n + 1);
        }
        return;
      }
      OnePassCompletes(turn, passes);
      var finalized := FinalizeTurnHooks(turn, pass, result);
      FinalIs(turn, pass, result, finalized);
      if finalized.Failure? { return Some(finalized); }
      r := Some(if result.Failure? then Failure(Error(FAILED, result.error.cancelled)) else Done);
    }
  }

  /** The first `n` passes are exactly what the turn goes through. */
  predicate CompletesAfter(turn: Turn, passes: seq<Pass>, n: nat) {
    n <= |passes| && Completes(turn, passes[..n])
  }

  lemma NoPassCompletes(turn: Turn)
    ensures forall n: nat :: !CompletesAfter(turn, [], n)
  {
  }

  lemma ReplacementStartsNothing(turn: Turn)
    ensures forall pass :: StartHooks(Replacement(turn), pass) == []
  {
  }

  lemma RestartCompletes(turn: Turn, passes: seq<Pass>, n: nat)
    requires passes != [] && Restarts(Body(turn, passes[0]))
    ensures CompletesAfter(turn, passes, n) <==> n > 0 && CompletesAfter(Replacement(turn), passes[1..], n - 1)
    ensures CompletesAfter(turn, passes, n) ==>
              && Outcome(turn, passes[..n]) == Outcome(Replacement(turn), passes[1..][..n - 1])
              && Hooks(turn, passes[..n]) == StartHooks(turn, passes[0]) + Hooks(Replacement(turn), passes[1..][..n - 1])
  {
    hide Body, Restarts, StartHooks, EndHooks, Final;
    if 0 < n <= |passes| { assert passes[..n][1..] == passes[1..][..n - 1]; }
  }

  lemma OnePassCompletes(turn: Turn, passes: seq<Pass>)
    requires passes != [] && !Restarts(Body(turn, passes[0]))
    ensures CompletesAfter(turn, passes, 1) && forall n: nat :: CompletesAfter(turn, passes, n) ==> n == 1
    ensures Outcome(turn, passes[..1]) == Final(turn, passes[0], Body(turn, passes[0]))
    ensures Hooks(turn, passes[..1]) == StartHooks(turn, passes[0]) + EndHooks(turn, Body(turn, passes[0]))
  {
    hide Body, Restarts, StartHooks, EndHooks, Final;
    assert Completes(turn, passes[..1]);
  }

  /** The code's order of errors at the end of the last pass. */
  lemma FinalIs(turn: Turn, pass: Pass, result: Result, finalized: Result)
    requires finalized == if turn.metadata == None then Done
                          else if result == Done && pass.afterStep.Some? then Failure(pass.afterStep.value)
                          else Answer(pass.turnEnd)
    ensures Final(turn, pass, result)
            == if finalized.Failure? then finalized
               else if result.Failure? then Failure(Error(FAILED, result.error.cancelled)) else Done
  {
  }
}
