/** A whole turn of the agent: model calls and tool batches in alternation, over a history that hooks,
    steering and trimming may change between any two calls. */
module AgentTurn {
  import opened Wrappers
  import opened Messages
  import opened ContextBudget
  import opened ProviderStream
  import opened ProviderStreamRuns
  import opened ToolBatch
  import opened ToolBatchRuns

  /** Messages that arrive from outside; `failsAt` is the injection whose event cannot be recorded. */
  datatype Injection = Unavailable | Injection(messages: seq<Message>, failsAt: Option<nat>)

  datatype Decision = Continue | Stop | DecisionFails

  /** What the environment answers in one step; hooks are functions of the request they are given, `moves` is
      the order in which the runtime lets the calls of the tool batch proceed.
      `catalogHolds`: the tools left visible are the catalog's own and their schemas compile. */
  datatype StepScript = StepScript(
    cancelled: bool,
    catalog: Option<seq<string>>,
    steering: Injection,
    transform: Request -> Option<Request>,
    beforeModel: Request -> Option<Request>,
    catalogHolds: bool,
    first: Dispatch,
    second: Dispatch,
    responseEventFails: bool,
    tool: nat -> Script,
    moves: seq<nat>,
    decision: Decision,
    update: Option<Fixed>,
    followUps: Injection)

  /** `journal`, `registered` and `trace` are history: every provider operation, every call id accepted and
      every event of a tool call. */
  datatype TurnState = TurnState(step: nat, request: Request, journal: seq<Entry>, registered: seq<CallId>,
                                 trace: seq<BatchEvent>, answer: string)

  datatype StepEnd = Goes(state: TurnState) | Replies(state: TurnState) | Errs(state: TurnState)

  /** A cursor that the provider cannot continue is exchanged for the full history before the first step;
      `capability` is the provider and API whose cursors the provider accepts. */
  function FirstRequest(request: Request, capability: Option<(string, string)>): Request {
    if request.continuation.Some?
       && capability != Some((request.continuation.value.provider, request.continuation.value.api))
    then Request(request.fixed, request.continuation.value.fallback, None)
    else request
  }

  function Inject(messages: seq<Message>, injection: Injection): Option<seq<Message>> {
    if injection.Unavailable? || (injection.failsAt.Some? && injection.failsAt.value < |injection.messages|) then None
    else Some(messages + injection.messages)
  }

  function Hooked(request: Request, script: StepScript): Option<Request> {
    match script.transform(request)
    case None => None
    case Some(r) => script.beforeModel(r)
  }

  /** Steering, the two hooks and the budget: the request that the model will see. */
  function RequestOf(size: MessageSize, fixedSize: FixedSize, s: TurnState, script: StepScript): Option<Request> {
    if script.cancelled || script.catalog.None? then None
    else
      var fixed := if s.step == 0 then s.request.fixed else s.request.fixed.(tools := script.catalog.value);
      match Inject(s.request.messages, script.steering)
      case None => None
      case Some(messages) =>
        match Hooked(Request(fixed, messages, s.request.continuation), script)
        case None => None
        case Some(hooked) =>
          var (kept, r) := Trim(size, fixedSize(hooked.fixed), BudgetBytes(hooked.fixed.model), hooked.messages);
          if r.Dropped? && script.catalogHolds then Some(hooked.(messages := kept)) else None
  }

  predicate ValidIds(calls: seq<Call>, accepted: seq<CallId>) {
    && (forall k :: 0 <= k < |calls| ==> 1 <= |calls[k].id| <= MAX_TOOL_CALL_ID_BYTES && calls[k].id !in accepted)
    && Distinct(calls)
  }

  function IdsOf(calls: seq<Call>): seq<CallId> {
    seq(|calls|, k requires 0 <= k < |calls| => calls[k].id)
  }

  function TextOf(blocks: seq<Block>): string {
    if blocks == [] then "" else (if blocks[0].TextBlock? then blocks[0].text else "") + TextOf(blocks[1..])
  }

  function BlockMessage(b: Block): seq<Message> {
    match b
    case TextBlock(t) => [Message(Assistant, Text(t))]
    case CallBlock(id, tool, args, g) => [Message(Assistant, Content.ToolCall(id, tool, args, g))]
    case StateBlock(p, m, d) => [Message(Assistant, ProviderState(p, m, d))]
    case ReasoningBlock(_, _) => []
  }

  function BlockMessages(blocks: seq<Block>): seq<Message> {
    if blocks == [] then [] else BlockMessage(blocks[0]) + BlockMessages(blocks[1..])
  }

  function ScriptsFor(script: StepScript, n: nat): seq<Script> {
    seq(n, k requires 0 <= k < n => script.tool(k))
  }

  /** The result the model is given for call `k` of a batch in which every call came back. */
  function Presented(calls: seq<Call>, scripts: seq<Script>, mode: Mode): seq<Output>
    requires |scripts| == |calls|
  {
    var p := Prepare(calls, scripts);
    var answered := BatchOutcome(p.items, scripts, p.terminal, mode).0;
    seq(|answered|, k requires 0 <= k < |answered| =>
      if answered[k].index < |scripts| then AfterResult(answered[k], scripts[answered[k].index]) else answered[k].result)
  }

  predicate AnyUncertain(outputs: seq<Output>) {
    exists k :: 0 <= k < |outputs| && outputs[k].uncertain
  }

  predicate AnyTerminates(outputs: seq<Output>) {
    exists k :: 0 <= k < |outputs| && outputs[k].terminate
  }

  /** What follows the tool batch of a step. */
  function AfterBatch(s: TurnState, calls: seq<Call>, outputs: seq<Output>, script: StepScript): StepEnd {
    if AnyUncertain(outputs) || script.decision.DecisionFails? then Errs(s)
    else if AnyTerminates(outputs) || script.decision == Stop then Replies(s)
    else if script.update == None then Errs(s)
    else
      var updated := s.(request := s.request.(fixed := script.update.value.(tools := s.request.fixed.tools)));
      if calls != [] then Goes(updated)
      else
        match Inject(updated.request.messages, script.followUps)
        case None => Errs(updated)
        case Some(messages) =>
          if script.followUps.messages == [] then Replies(updated)
          else Goes(updated.(request := updated.request.(messages := messages)))
  }

  /** Every event of the step's tool calls, in the order in which they happened. */
  function StepTrace(calls: seq<Call>, scripts: seq<Script>, moves: seq<nat>, mode: Mode): seq<BatchEvent>
    requires |scripts| == |calls|
  {
    Trace(calls, scripts, BatchOf(Prepare(calls, scripts).items, scripts, moves, mode), RecordingOf(calls, scripts, mode))
  }

  /** What follows a response that was received whole. */
  function AfterResponse(s: TurnState, response: Response, calls: seq<Call>, script: StepScript, mode: Mode): StepEnd {
    var text := TextOf(response.blocks);
    if |calls| > MAX_TOOL_CALLS_PER_STEP || !ValidIds(calls, s.registered) || (text == "" && calls == []) then Errs(s)
    else
      var grown := Request(s.request.fixed, s.request.messages + BlockMessages(response.blocks), None);
      if script.responseEventFails then Errs(s.(request := grown, answer := text))
      else
        var scripts := ScriptsFor(script, |calls|);
        var r := RecordingOf(calls, scripts, mode);
        var t := TurnState(s.step + 1, grown.(messages := grown.messages + r.messages), s.journal, s.registered + IdsOf(calls),
                           s.trace + StepTrace(calls, scripts, script.moves, mode), text);
        if r.stopped || r.terminal.Some? then Errs(t)
        else AfterBatch(t, calls, Presented(calls, scripts, mode), script)
  }

  function Step(size: MessageSize, fixedSize: FixedSize, s: TurnState, script: StepScript, mode: Mode): StepEnd {
    match RequestOf(size, fixedSize, s, script)
    case None => Errs(s)
    case Some(request) =>
      var reply := StreamResponse(size, fixedSize, request, script.first, script.second);
      var t := s.(request := request, journal := s.journal + reply.journal);
      match reply.result
      case Err(_) => Errs(t)
      case Ok((response, calls)) => AfterResponse(t, response, calls, script, mode)
  }

  /** The steps of a turn, at most one for each script; running out of them is the step limit. */
  function Turn(size: MessageSize, fixedSize: FixedSize, s: TurnState, scripts: seq<StepScript>, mode: Mode): StepEnd
    decreases |scripts|
  {
    if scripts == [] then Errs(s)
    else
      match Step(size, fixedSize, s, scripts[0], mode)
      case Goes(t) => Turn(size, fixedSize, t, scripts[1..], mode)
      case end => end
  }

  // ---------------------------------------------------------------- pairing

  predicate Good(request: Request) {
    Paired(request.messages) && (request.continuation.Some? ==> Paired(request.continuation.value.fallback))
  }

  predicate InjectionIsPaired(injection: Injection) {
    injection.Injection? ==> Paired(injection.messages)
  }

  /** Hooks that keep a paired request paired, and injections that are paired themselves. */
  ghost predicate Preserves(script: StepScript) {
    && InjectionIsPaired(script.steering) && InjectionIsPaired(script.followUps)
    && (forall r :: Good(r) && script.transform(r).Some? ==> Good(script.transform(r).value))
    && (forall r :: Good(r) && script.beforeModel(r).Some? ==> Good(script.beforeModel(r).value))
  }

  lemma RequestIsGood(size: MessageSize, fixedSize: FixedSize, s: TurnState, script: StepScript)
    requires Good(s.request) && Preserves(script) && RequestOf(size, fixedSize, s, script).Some?
    ensures Good(RequestOf(size, fixedSize, s, script).value)
  {
    hide Paired, BudgetBytes;
    var fixed := if s.step == 0 then s.request.fixed else s.request.fixed.(tools := script.catalog.value);
    var messages := Inject(s.request.messages, script.steering).value;
    JoinKeepsPairs(s.request.messages, script.steering.messages);
    var r := script.transform(Request(fixed, messages, s.request.continuation)).value;
    var hooked := script.beforeModel(r).value;
    assert Good(r) && Good(hooked);
    var (kept, trimmed) := Trim(size, fixedSize(hooked.fixed), BudgetBytes(hooked.fixed.model), hooked.messages);
    BudgetedKeepsPairs(size, fixedSize(hooked.fixed), BudgetBytes(hooked.fixed.model), hooked.messages, kept, trimmed);
  }

  function IdSet(calls: seq<Call>): set<CallId> {
    set k | 0 <= k < |calls| :: calls[k].id
  }

  lemma {:induction false} ScanBlocks(open: set<CallId>, blocks: seq<Block>)
    requires Distinct(CallsOf(blocks)) && IdSet(CallsOf(blocks)) !! open
    ensures Scan(Some(open), BlockMessages(blocks)) == Some(open + IdSet(CallsOf(blocks)))
    decreases |blocks|
  {
    if blocks == [] {
      assert open + IdSet([]) == open;
    } else {
      var calls := CallsOf(blocks);
      var rest := CallsOf(blocks[1..]);
      var now := if blocks[0].CallBlock? then open + {blocks[0].callId} else open;
      if blocks[0].CallBlock? {
        assert calls[1..] == rest;
        assert calls[0].id == blocks[0].callId;
        assert forall k :: 0 <= k < |rest| ==> rest[k] == calls[k + 1];
        assert IdSet(calls) == {blocks[0].callId} + IdSet(rest);
      } else {
        assert calls == rest;
      }
      ScanOne(open, blocks[0]);
      ScanBlocks(now, blocks[1..]);
      ScanAppend(Some(open), BlockMessage(blocks[0]), BlockMessages(blocks[1..]));
      assert now + IdSet(rest) == open + IdSet(calls);
    }
  }

  lemma ScanOne(open: set<CallId>, b: Block)
    requires b.CallBlock? ==> b.callId !in open
    ensures Scan(Some(open), BlockMessage(b)) == Some(if b.CallBlock? then open + {b.callId} else open)
  {
  }

  lemma {:induction false} ScanResults(calls: seq<Call>, messages: seq<Message>)
    requires Distinct(calls) && |messages| == |calls|
    requires forall k :: 0 <= k < |calls| ==>
               messages[k].role == Tool && messages[k].content.ToolResult? && messages[k].content.callId == calls[k].id
    ensures Scan(Some(IdSet(calls)), messages) == Some({})
    decreases |calls|
  {
    if calls == [] {
      assert IdSet(calls) == {};
    } else {
      var rest := calls[1..];
      assert IdSet(calls) == {calls[0].id} + IdSet(rest) by {
        assert forall k :: 0 <= k < |rest| ==> rest[k] == calls[k + 1];
        assert calls[0].id in IdSet(calls);
      }
      assert calls[0].id !in IdSet(rest);
      assert messages == [messages[0]] + messages[1..];
      ScanAppend(Some(IdSet(calls)), [messages[0]], messages[1..]);
      assert [messages[0]][..0] == [];
      assert Scan(Some(IdSet(calls)), [messages[0]]) == Some(IdSet(calls) - {calls[0].id});
      assert IdSet(calls) - {calls[0].id} == IdSet(rest);
      ScanResults(rest, messages[1..]);
    }
  }

  /** A response and one result for each of its calls close every call they open. */
  lemma ExchangeIsPaired(messages: seq<Message>, blocks: seq<Block>, results: seq<Message>)
    requires Paired(messages) && Distinct(CallsOf(blocks)) && |results| == |CallsOf(blocks)|
    requires forall k :: 0 <= k < |results| ==>
               results[k].role == Tool && results[k].content.ToolResult? && results[k].content.callId == CallsOf(blocks)[k].id
    ensures Paired(messages + BlockMessages(blocks) + results)
  {
    hide Scan;
    ScanAppend(Some({}), messages + BlockMessages(blocks), results);
    ScanAppend(Some({}), messages, BlockMessages(blocks));
    ScanBlocks({}, blocks);
    assert {} + IdSet(CallsOf(blocks)) == IdSet(CallsOf(blocks));
    ScanResults(CallsOf(blocks), results);
  }

  /** Joining neighbouring texts loses no call. */
  lemma {:induction false} MergedCalls(blocks: seq<Block>)
    ensures CallsOf(Merged(blocks)) == CallsOf(blocks)
  {
    if blocks != [] {
      MergedCalls(blocks[1..]);
      var rest := Merged(blocks[1..]);
      var joined := JoinFront(blocks[0], rest);
      if blocks[0].TextBlock? && rest != [] && rest[0].TextBlock? {
        assert joined[1..] == rest[1..];
      } else {
        assert joined[1..] == rest;
      }
    }
  }

  /** The calls handed to the batch are the calls in the response. */
  lemma CallsAgree(size: MessageSize, fixedSize: FixedSize, request: Request, first: Dispatch, second: Dispatch)
    requires StreamResponse(size, fixedSize, request, first, second).result.Ok?
    ensures var (response, calls) := StreamResponse(size, fixedSize, request, first, second).result.value;
            CallsOf(response.blocks) == calls
  {
    hide StreamResponse, Merged, CallsOf, BlocksOf, EventsOf, Replays, Closing;
    SuccessMeans(size, fixedSize, request, first, second);
    MergedCalls(BlocksOf(EventsOf(Last(request, first, second).answer.items)));
  }

  lemma AfterResponseIsGood(s: TurnState, response: Response, calls: seq<Call>, script: StepScript, mode: Mode)
    requires Good(s.request) && Preserves(script) && CallsOf(response.blocks) == calls
    requires AfterResponse(s, response, calls, script, mode).Goes?
    ensures Good(AfterResponse(s, response, calls, script, mode).state.request)
  {
    hide Paired, RecordingOf, StepTrace, CallsOf, BlockMessages, Presented, AnyUncertain, AnyTerminates, Distinct;
    var scripts := ScriptsFor(script, |calls|);
    var r := RecordingOf(calls, scripts, mode);
    GoingOnMeansAnswered(calls, scripts, mode);
    ExchangeIsPaired(s.request.messages, response.blocks, r.messages);
    if calls == [] {
      JoinKeepsPairs(s.request.messages + BlockMessages(response.blocks) + r.messages, script.followUps.messages);
    }
  }

  ghost predicate AllPaired(requests: seq<Request>) {
    forall r :: r in requests ==> Paired(r.messages)
  }

  /** A step that goes on hands a paired request to the next one. */
  lemma StepGood(size: MessageSize, fixedSize: FixedSize, s: TurnState, script: StepScript, mode: Mode)
    requires Good(s.request) && Preserves(script) && Step(size, fixedSize, s, script, mode).Goes?
    ensures Good(Step(size, fixedSize, s, script, mode).state.request)
  {
    hide Paired, StreamResponse, RequestOf, AfterResponse, CallsOf, Preserves;
    var request := RequestOf(size, fixedSize, s, script).value;
    RequestIsGood(size, fixedSize, s, script);
    var reply := StreamResponse(size, fixedSize, request, script.first, script.second);
    var (response, calls) := reply.result.value;
    CallsAgree(size, fixedSize, request, script.first, script.second);
    AfterResponseIsGood(s.(request := request, journal := s.journal + reply.journal), response, calls, script, mode);
  }

  lemma StepSends(size: MessageSize, fixedSize: FixedSize, s: TurnState, script: StepScript, mode: Mode)
    requires Good(s.request) && Preserves(script) && AllPaired(SentRequests(s.journal))
    ensures AllPaired(SentRequests(Step(size, fixedSize, s, script, mode).state.journal))
  {
    hide Paired, StreamResponse, RequestOf, AfterResponse, CallsOf, SentRequests, Preserves;
    match RequestOf(size, fixedSize, s, script)
    case None =>
    case Some(request) =>
      RequestIsGood(size, fixedSize, s, script);
      var reply := StreamResponse(size, fixedSize, request, script.first, script.second);
      SentArePaired(size, fixedSize, request, script.first, script.second);
      SentAppend(s.journal, reply.journal);
      var t := s.(request := request, journal := s.journal + reply.journal);
      match reply.result
      case Err(_) =>
      case Ok((response, calls)) => JournalStays(t, response, calls, script, mode);
  }

  lemma JournalStays(s: TurnState, response: Response, calls: seq<Call>, script: StepScript, mode: Mode)
    ensures AfterResponse(s, response, calls, script, mode).state.journal == s.journal
  {
    hide RecordingOf, StepTrace, Presented, BlockMessages, ValidIds, TextOf, AnyUncertain, AnyTerminates;
  }

  /** Both requests of one model call are paired: the request and its full replay. */
  lemma SentArePaired(size: MessageSize, fixedSize: FixedSize, request: Request, first: Dispatch, second: Dispatch)
    requires Good(request)
    ensures AllPaired(SentRequests(StreamResponse(size, fixedSize, request, first, second).journal))
  {
    hide Paired, StreamResponse, Replays, SentRequests, BudgetBytes;
    AtMostOneReplay(size, fixedSize, request, first, second);
    var messages := if request.continuation.Some? then request.continuation.value.fallback else request.messages;
    var (kept, r) := Trim(size, fixedSize(request.fixed), BudgetBytes(request.fixed.model), messages);
    BudgetedKeepsPairs(size, fixedSize(request.fixed), BudgetBytes(request.fixed.model), messages, kept, r);
  }

  lemma {:induction false} TurnSends(size: MessageSize, fixedSize: FixedSize, s: TurnState, scripts: seq<StepScript>, mode: Mode)
    requires Good(s.request) && AllPaired(SentRequests(s.journal))
    requires forall script :: script in scripts ==> Preserves(script)
    ensures AllPaired(SentRequests(Turn(size, fixedSize, s, scripts, mode).state.journal))
    decreases |scripts|
  {
    hide Step, AllPaired, SentRequests, Good, Preserves;
    if scripts != [] {
      assert scripts[0] in scripts && forall script :: script in scripts[1..] ==> script in scripts;
      StepSends(size, fixedSize, s, scripts[0], mode);
      match Step(size, fixedSize, s, scripts[0], mode)
      case Goes(t) => StepGood(size, fixedSize, s, scripts[0], mode); TurnSends(size, fixedSize, t, scripts[1..], mode);
      case _ =>
    }
  }

  /** Every request that a turn sends pairs its tool calls with their results, if the history it starts
      from does and the hooks and injections keep it so. */
  lemma EveryRequestIsPaired(size: MessageSize, fixedSize: FixedSize, request: Request, capability: Option<(string, string)>,
                             scripts: seq<StepScript>, mode: Mode)
    requires Good(request) && forall script :: script in scripts ==> Preserves(script)
    ensures var end := Turn(size, fixedSize, TurnState(0, FirstRequest(request, capability), [], [], [], ""), scripts, mode);
            AllPaired(SentRequests(end.state.journal))
  {
    hide Paired, Turn, Preserves;
    TurnSends(size, fixedSize, TurnState(0, FirstRequest(request, capability), [], [], [], ""), scripts, mode);
  }

  // ---------------------------------------------------------------- call ids

  /** The ids accepted during a turn are pairwise different, not empty and of bounded length. */
  predicate IdsOk(ids: seq<CallId>) {
    && (forall i, j :: 0 <= i < j < |ids| ==> ids[i] != ids[j])
    && (forall i :: 0 <= i < |ids| ==> 1 <= |ids[i]| <= MAX_TOOL_CALL_ID_BYTES)
  }

  lemma StepIds(size: MessageSize, fixedSize: FixedSize, s: TurnState, script: StepScript, mode: Mode)
    requires IdsOk(s.registered)
    ensures IdsOk(Step(size, fixedSize, s, script, mode).state.registered)
    ensures s.registered <= Step(size, fixedSize, s, script, mode).state.registered
    ensures |Step(size, fixedSize, s, script, mode).state.registered| <= |s.registered| + MAX_TOOL_CALLS_PER_STEP
  {
    hide StreamResponse, RequestOf, RecordingOf, StepTrace, Presented, BlockMessages, TextOf, AnyUncertain, AnyTerminates, IdsOk, ValidIds, IdsOf;
    match RequestOf(size, fixedSize, s, script)
    case None =>
    case Some(request) =>
      var reply := StreamResponse(size, fixedSize, request, script.first, script.second);
      match reply.result
      case Err(_) =>
      case Ok((_, calls)) =>
        if ValidIds(calls, s.registered) { JoinIds(s.registered, calls); }
  }

  lemma JoinIds(ids: seq<CallId>, calls: seq<Call>)
    requires IdsOk(ids) && ValidIds(calls, ids)
    ensures IdsOk(ids + IdsOf(calls)) && |IdsOf(calls)| == |calls|
  {
  }

  /** Over a whole turn no call id is accepted twice, and no step accepts more than 64 calls. */
  lemma {:induction false} TurnIds(size: MessageSize, fixedSize: FixedSize, s: TurnState, scripts: seq<StepScript>, mode: Mode)
    requires IdsOk(s.registered)
    ensures var after := Turn(size, fixedSize, s, scripts, mode).state.registered;
            IdsOk(after) && s.registered <= after && |after| <= |s.registered| + MAX_TOOL_CALLS_PER_STEP * |scripts|
    decreases |scripts|
  {
    hide Step, IdsOk;
    if scripts != [] {
      StepIds(size, fixedSize, s, scripts[0], mode);
      match Step(size, fixedSize, s, scripts[0], mode)
      case Goes(t) => TurnIds(size, fixedSize, t, scripts[1..], mode);
      case _ =>
    }
  }

  // ---------------------------------------------------------------- the budget

  /** The request fits the input budget of its own model. */
  predicate WithinBudget(size: MessageSize, fixedSize: FixedSize, r: Request) {
    fixedSize(r.fixed) + JsonBytes(size, r.messages) <= BudgetBytes(r.fixed.model)
  }

  ghost predicate AllWithinBudget(size: MessageSize, fixedSize: FixedSize, requests: seq<Request>) {
    forall r :: r in requests ==> WithinBudget(size, fixedSize, r)
  }

  lemma TrimmedFits(size: MessageSize, fixedSize: FixedSize, r: Request, messages: seq<Message>)
    requires var (kept, t) := Trim(size, fixedSize(r.fixed), BudgetBytes(r.fixed.model), messages);
             t.Dropped? && r.messages == kept
    ensures WithinBudget(size, fixedSize, r)
  {
    hide JsonBytes;
    var (kept, t) := Trim(size, fixedSize(r.fixed), BudgetBytes(r.fixed.model), messages);
    assert BudgetBytes(r.fixed.model) < USIZE_MAX;
    BudgetedFits(size, fixedSize(r.fixed), BudgetBytes(r.fixed.model), messages, kept, t.count);
  }

  lemma RequestFits(size: MessageSize, fixedSize: FixedSize, s: TurnState, script: StepScript)
    requires RequestOf(size, fixedSize, s, script).Some?
    ensures WithinBudget(size, fixedSize, RequestOf(size, fixedSize, s, script).value)
  {
    hide WithinBudget, BudgetBytes;
    var fixed := if s.step == 0 then s.request.fixed else s.request.fixed.(tools := script.catalog.value);
    var messages := Inject(s.request.messages, script.steering).value;
    var hooked := Hooked(Request(fixed, messages, s.request.continuation), script).value;
    TrimmedFits(size, fixedSize, RequestOf(size, fixedSize, s, script).value, hooked.messages);
  }

  /** Both requests of one model call fit. */
  lemma SentFit(size: MessageSize, fixedSize: FixedSize, request: Request, first: Dispatch, second: Dispatch)
    requires WithinBudget(size, fixedSize, request)
    ensures AllWithinBudget(size, fixedSize, SentRequests(StreamResponse(size, fixedSize, request, first, second).journal))
    ensures |SentRequests(StreamResponse(size, fixedSize, request, first, second).journal)| <= 2
  {
    hide WithinBudget, StreamResponse, SentRequests, BudgetBytes, Replays;
    AtMostOneReplay(size, fixedSize, request, first, second);
    var full := FullReplay(size, fixedSize, request);
    if full.Ok? {
      TrimmedFits(size, fixedSize, full.value, if request.continuation.Some? then request.continuation.value.fallback else request.messages);
    }
  }

  lemma StepBudget(size: MessageSize, fixedSize: FixedSize, s: TurnState, script: StepScript, mode: Mode)
    requires AllWithinBudget(size, fixedSize, SentRequests(s.journal))
    ensures AllWithinBudget(size, fixedSize, SentRequests(Step(size, fixedSize, s, script, mode).state.journal))
    ensures |SentRequests(Step(size, fixedSize, s, script, mode).state.journal)| <= |SentRequests(s.journal)| + 2
  {
    hide WithinBudget, StreamResponse, AfterResponse, SentRequests, RequestOf;
    match RequestOf(size, fixedSize, s, script)
    case None =>
    case Some(request) =>
      RequestFits(size, fixedSize, s, script);
      var reply := StreamResponse(size, fixedSize, request, script.first, script.second);
      SentFit(size, fixedSize, request, script.first, script.second);
      SentAppend(s.journal, reply.journal);
      var t := s.(request := request, journal := s.journal + reply.journal);
      match reply.result
      case Err(_) =>
      case Ok((response, calls)) => JournalStays(t, response, calls, script, mode);
  }

  /** Every request of a turn fits its model's budget, and a turn sends at most two for each step. */
  lemma {:induction false} TurnBudget(size: MessageSize, fixedSize: FixedSize, s: TurnState, scripts: seq<StepScript>, mode: Mode)
    requires AllWithinBudget(size, fixedSize, SentRequests(s.journal))
    ensures var sent := SentRequests(Turn(size, fixedSize, s, scripts, mode).state.journal);
            AllWithinBudget(size, fixedSize, sent) && |sent| <= |SentRequests(s.journal)| + 2 * |scripts|
    decreases |scripts|
  {
    hide Step, AllWithinBudget, SentRequests;
    if scripts != [] {
      StepBudget(size, fixedSize, s, scripts[0], mode);
      match Step(size, fixedSize, s, scripts[0], mode)
      case Goes(t) => TurnBudget(size, fixedSize, t, scripts[1..], mode);
      case _ =>
    }
  }

  /** A step goes on only after every call of its response has been answered to the model. */
  lemma GoingOnMeansClosed(size: MessageSize, fixedSize: FixedSize, s: TurnState, script: StepScript, mode: Mode, id: CallId)
    requires Good(s.request) && Preserves(script) && Step(size, fixedSize, s, script, mode).Goes?
    ensures var messages := Step(size, fixedSize, s, script, mode).state.request.messages;
            forall i :: CallAt(messages, i, id) ==> exists j :: Answers(messages, i, j, id)
  {
    hide Step, Preserves;
    StepGood(size, fixedSize, s, script, mode);
    PairedMeans(Step(size, fixedSize, s, script, mode).state.request.messages, id);
  }
}
