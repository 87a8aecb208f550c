/** One model call: assembling the streamed response, the single safe replay of a rejected cursor, and
    the journal of provider operations.

    What the provider, the runtime's callbacks and the cancellation token answer is an input. */
module ProviderStream {
  import opened Wrappers
  import opened Messages
  import opened ContextBudget

  datatype Block =
    | TextBlock(text: string)
    | ReasoningBlock(text: string, signature: Option<string>)
    | CallBlock(callId: CallId, tool: string, arguments: string, signature: Option<string>)
    | StateBlock(provider: string, model: string, data: string)

  datatype Metadata = Metadata(provider: string, model: string, api: string, responseId: Option<string>)

  datatype Completion = Completion(usage: Option<string>, stopReason: Option<string>)

  datatype Response = Response(metadata: Metadata, blocks: seq<Block>, completion: Completion)

  datatype Call = Call(id: CallId, name: string, arguments: string, signature: Option<string>)

  datatype Event =
    | Start
    | ResponseMetadata(metadata: Metadata)
    | TextDelta(text: string)
    | Reasoning(text: string, signature: Option<string>)
    | CallEvent(id: CallId, name: string, arguments: string, signature: Option<string>)
    | StateEvent(provider: string, model: string, data: string)
    | ResponseCompleted(completion: Completion)
    | Done

  datatype ProviderError =
    | InvalidRequest(message: string)
    | Authentication(message: string)
    | UnsupportedProvider(name: string)
    | RateLimited(retryAfter: Option<nat>)
    | Http(message: string)
    | InvalidResponse(message: string)
    | ProviderCancelled
    | CursorRejected(message: string)

  datatype CallOutcome = Succeeded | FailedCall | UncertainCall

  datatype Failure = TurnCancelled | Provider(error: ProviderError) | Incomplete | CallbackFailed | BudgetExceeded

  datatype Cursor = Cursor(responseId: string, provider: string, api: string, fallback: seq<Message>)

  datatype Request = Request(fixed: Fixed, messages: seq<Message>, continuation: Option<Cursor>)

  type OperationId = nat

  /** Every callback that opens or closes an operation, and every request handed to the provider. */
  datatype Entry =
    | Opened(journaled: Option<OperationId>, request: Request)
    | Sent(request: Request)
    | Closed(id: OperationId, outcome: CallOutcome)

  /** One item of the stream; the flags say whether the signals it causes fail. */
  datatype Item =
    | Arrives(event: Event, startedFails: bool, deltaFails: bool)
    | Fails(error: ProviderError)
    | CancelledHere

  datatype Begin = BeginFailed | Begun(id: Option<OperationId>)

  datatype Answer = CancelledFirst | Refused(error: ProviderError) | Streaming(items: seq<Item>)

  datatype Dispatch = Dispatch(cancelledBefore: bool, begin: Begin, answer: Answer, closeFails: bool)

  datatype Result<T> = Ok(value: T) | Err(failure: Failure)

  datatype Assembly = Assembly(response: Response, calls: seq<Call>, started: bool, observed: bool, completed: bool)

  /** How one stream ends. */
  datatype End =
    | Complete(assembly: Assembly)
    | Stopped(failure: Failure, outcome: CallOutcome)
    | SignalFailed
    | Rejected(error: ProviderError, assembly: Assembly)

  function ErrorOutcome(error: ProviderError): CallOutcome {
    if error.Http? || error.InvalidResponse? || error.ProviderCancelled? then UncertainCall else FailedCall
  }

  function Push(blocks: seq<Block>, b: Block): seq<Block> {
    if b.TextBlock? && blocks != [] && blocks[|blocks| - 1].TextBlock? then
      blocks[..|blocks| - 1] + [TextBlock(blocks[|blocks| - 1].text + b.text)]
    else blocks + [b]
  }

  function WithBlock(s: Assembly, b: Block): Assembly {
    s.(response := s.response.(blocks := Push(s.response.blocks, b)), observed := true)
  }

  function Absorb(s: Assembly, event: Event): Assembly {
    match event
    case Start => s.(started := true)
    case ResponseMetadata(m) => s.(response := s.response.(metadata := m), observed := true)
    case TextDelta(t) => WithBlock(s, TextBlock(t)).(started := true)
    case Reasoning(t, g) => WithBlock(s, ReasoningBlock(t, g))
    case CallEvent(id, name, args, g) =>
      WithBlock(s, CallBlock(id, name, args, g)).(started := true, calls := s.calls + [Call(id, name, args, g)])
    case StateEvent(p, m, d) => WithBlock(s, StateBlock(p, m, d))
    case ResponseCompleted(c) => s.(response := s.response.(completion := c), observed := true, completed := true)
    case Done => s
  }

  predicate SignalsFail(s: Assembly, item: Item)
    requires item.Arrives?
  {
    || (!s.started && (item.event.Start? || item.event.TextDelta? || item.event.CallEvent?) && item.startedFails)
    || (item.event.TextDelta? && item.deltaFails)
  }

  function EndOfStream(s: Assembly): End {
    if s.completed then Complete(s) else Stopped(Incomplete, UncertainCall)
  }

  /** Reading a stream to its end; `cursor` says whether a rejected cursor may still be replayed. */
  function Consume(items: seq<Item>, s: Assembly, cursor: bool): End
    decreases |items|
  {
    if items == [] then EndOfStream(s)
    else
      match items[0]
      case CancelledHere => Stopped(TurnCancelled, UncertainCall)
      case Fails(e) =>
        if e.CursorRejected? && cursor && !s.observed then Rejected(e, s) else Stopped(Provider(e), ErrorOutcome(e))
      case Arrives(event, _, _) =>
        if event == Done then EndOfStream(s)
        else if SignalsFail(s, items[0]) then SignalFailed
        else Consume(items[1..], Absorb(s, event), cursor)
  }

  function Close(id: Option<OperationId>, outcome: CallOutcome): seq<Entry> {
    if id.Some? then [Closed(id.value, outcome)] else []
  }

  /** The close callback's own failure hides the reason for closing. */
  function ClosedWith(d: Dispatch, id: Option<OperationId>, failure: Failure): Failure {
    if id.Some? && d.closeFails then CallbackFailed else failure
  }

  datatype Opening = NotStarted(failure: Failure) | StartRefused(error: ProviderError) | Running(id: Option<OperationId>, items: seq<Item>)

  /** `start_provider_stream`: its result and what it adds to the journal. */
  function StartStream(request: Request, d: Dispatch): (Opening, seq<Entry>) {
    if d.cancelledBefore then (NotStarted(TurnCancelled), [])
    else if d.begin.BeginFailed? then (NotStarted(CallbackFailed), [])
    else
      var id := d.begin.id;
      var open := [Opened(id, request), Sent(request)];
      match d.answer
      case CancelledFirst => (NotStarted(ClosedWith(d, id, TurnCancelled)), open + Close(id, UncertainCall))
      case Refused(e) =>
        (if id.Some? && d.closeFails then NotStarted(CallbackFailed) else StartRefused(e), open + Close(id, ErrorOutcome(e)))
      case Streaming(items) => (Running(id, items), open)
  }

  function DefaultMetadata(model: string): Metadata {
    match ContextBudget.Provider(model)
    case None => Metadata("unknown", model, "unknown", None)
    case Some(p) => Metadata(p, model[|p| + 1..], "unknown", None)
  }

  function Empty(model: string): Assembly {
    Assembly(Response(DefaultMetadata(model), [], Completion(None, None)), [], false, false, false)
  }

  /** The request sent again in full, trimmed, without its cursor. */
  function FullReplay(size: MessageSize, fixedSize: FixedSize, request: Request): Result<Request> {
    var messages := if request.continuation.Some? then request.continuation.value.fallback else request.messages;
    var (kept, r) := Trim(size, fixedSize(request.fixed), BudgetBytes(request.fixed.model), messages);
    if r.Dropped? then Ok(Request(request.fixed, kept, None)) else Err(BudgetExceeded)
  }

  datatype Reply = Reply(result: Result<(Response, seq<Call>)>, journal: seq<Entry>)

  /** How a started stream is read and closed when no replay follows. */
  function Settle(d: Dispatch, id: Option<OperationId>, end: End): Reply {
    match end
    case Complete(s) =>
      Reply(if id.Some? && d.closeFails then Err(CallbackFailed) else Ok((s.response, s.calls)), Close(id, Succeeded))
    case Stopped(f, outcome) => Reply(Err(ClosedWith(d, id, f)), Close(id, outcome))
    case SignalFailed => Reply(Err(CallbackFailed), [])
    case Rejected(e, _) => Reply(Err(ClosedWith(d, id, Provider(e))), Close(id, FailedCall))
  }

  /** The second dispatch: the full replay, read without any further chance. */
  function Replay(size: MessageSize, fixedSize: FixedSize, request: Request, d: Dispatch, s: Assembly): Reply {
    match FullReplay(size, fixedSize, request)
    case Err(f) => Reply(Err(f), [])
    case Ok(full) =>
      var (opening, entries) := StartStream(full, d);
      match opening
      case NotStarted(f) => Reply(Err(f), entries)
      case StartRefused(e) => Reply(Err(Provider(e)), entries)
      case Running(id, items) =>
        var reply := Settle(d, id, Consume(items, s, false));
        Reply(reply.result, entries + reply.journal)
  }

  function Prefixed(entries: seq<Entry>, reply: Reply): Reply {
    Reply(reply.result, entries + reply.journal)
  }

  /** Everything that follows once a stream is being read. */
  function Continue(size: MessageSize, fixedSize: FixedSize, request: Request, d: Dispatch, id: Option<OperationId>,
                    items: seq<Item>, s: Assembly, cursor: bool, second: Dispatch): Reply
  {
    var end := Consume(items, s, cursor);
    if end.Rejected? && !(id.Some? && d.closeFails) then
      Prefixed(Close(id, FailedCall), Replay(size, fixedSize, request, second, end.assembly))
    else Settle(d, id, end)
  }

  function StreamResponse(size: MessageSize, fixedSize: FixedSize, request: Request, first: Dispatch, second: Dispatch): Reply {
    var (opening, entries) := StartStream(request, first);
    var empty := Empty(request.fixed.model);
    match opening
    case NotStarted(f) => Reply(Err(f), entries)
    case StartRefused(e) =>
      if request.continuation.Some? && e.CursorRejected? then
        Prefixed(entries, Replay(size, fixedSize, request, second, empty))
      else Reply(Err(Provider(e)), entries)
    case Running(id, items) =>
      Prefixed(entries, Continue(size, fixedSize, request, first, id, items, empty, request.continuation.Some?, second))
  }

  // ---------------------------------------------------------------- the response

  /** The block that an event stands for, if any. */
  function BlockOf(event: Event): Option<Block> {
    match event
    case TextDelta(t) => Some(TextBlock(t))
    case Reasoning(t, g) => Some(ReasoningBlock(t, g))
    case CallEvent(id, name, args, g) => Some(CallBlock(id, name, args, g))
    case StateEvent(p, m, d) => Some(StateBlock(p, m, d))
    case _ => None
  }

  function BlocksOf(events: seq<Event>): seq<Block> {
    if events == [] then []
    else (if BlockOf(events[0]).Some? then [BlockOf(events[0]).value] else []) + BlocksOf(events[1..])
  }

  function JoinFront(b: Block, rest: seq<Block>): seq<Block> {
    if b.TextBlock? && rest != [] && rest[0].TextBlock? then [TextBlock(b.text + rest[0].text)] + rest[1..]
    else [b] + rest
  }

  /** Neighbouring texts joined, from the right. */
  function Merged(blocks: seq<Block>): seq<Block> {
    if blocks == [] then [] else JoinFront(blocks[0], Merged(blocks[1..]))
  }

  function CallsOf(blocks: seq<Block>): seq<Call> {
    if blocks == [] then []
    else
      (if blocks[0].CallBlock? then [Call(blocks[0].callId, blocks[0].tool, blocks[0].arguments, blocks[0].signature)] else [])
      + CallsOf(blocks[1..])
  }

  function LastMetadata(events: seq<Event>, default: Metadata): Metadata {
    if events == [] then default
    else if events[|events| - 1].ResponseMetadata? then events[|events| - 1].metadata
    else LastMetadata(events[..|events| - 1], default)
  }

  function LastCompletion(events: seq<Event>): Option<Completion> {
    if events == [] then None
    else if events[|events| - 1].ResponseCompleted? then Some(events[|events| - 1].completion)
    else LastCompletion(events[..|events| - 1])
  }

  /** The events of a stream up to the first `Done`. */
  function EventsOf(items: seq<Item>): seq<Event> {
    if items == [] || !items[0].Arrives? || items[0].event == Done then [] else [items[0].event] + EventsOf(items[1..])
  }

  /** What a stream means, independently of the order in which it is read. */
  function Assemble(events: seq<Event>, default: Metadata): Response {
    Response(LastMetadata(events, default), Merged(BlocksOf(events)),
             if LastCompletion(events).Some? then LastCompletion(events).value else Completion(None, None))
  }

  lemma {:induction false} BlocksOfSnoc(events: seq<Event>, event: Event)
    ensures BlocksOf(events + [event]) == BlocksOf(events) + if BlockOf(event).Some? then [BlockOf(event).value] else []
  {
    if events == [] {
      assert [event][1..] == [] && [] + [event] == [event];
    } else {
      BlocksOfSnoc(events[1..], event);
      assert (events + [event])[1..] == events[1..] + [event];
    }
  }

  lemma PushTail(front: seq<Block>, last: Block, b: Block)
    ensures Push(front + [last], b) == front + Push([last], b)
  {
  }

  lemma JoinTail(a: Block, front: seq<Block>, tail: seq<Block>)
    requires front != []
    ensures JoinFront(a, front + tail) == JoinFront(a, front) + tail
  {
  }

  lemma JoinPush(a: Block, rest: seq<Block>, b: Block)
    ensures Push(JoinFront(a, rest), b) == JoinFront(a, Push(rest, b))
  {
    if |rest| > 1 {
      hide JoinFront, Push;
      var front, last := rest[..|rest| - 1], rest[|rest| - 1];
      assert rest == front + [last];
      JoinTail(a, front, [last]);
      PushTail(JoinFront(a, front), last, b);
      PushTail(front, last, b);
      JoinTail(a, front, Push([last], b));
    } else if |rest| == 1 && a.TextBlock? && rest[0].TextBlock? && b.TextBlock? {
      assert (a.text + rest[0].text) + b.text == a.text + (rest[0].text + b.text);
    }
  }

  lemma {:induction false} MergedSnoc(blocks: seq<Block>, b: Block)
    ensures Merged(blocks + [b]) == Push(Merged(blocks), b)
  {
    if blocks == [] {
      assert [b][1..] == [] && [] + [b] == [b];
    } else {
      hide JoinFront, Push;
      MergedSnoc(blocks[1..], b);
      assert (blocks + [b])[1..] == blocks[1..] + [b];
      JoinPush(blocks[0], Merged(blocks[1..]), b);
    }
  }

  lemma {:induction false} CallsOfSnoc(blocks: seq<Block>, b: Block)
    ensures CallsOf(blocks + [b]) == CallsOf(blocks) + CallsOf([b])
  {
    if blocks == [] {
      assert [] + [b] == [b];
    } else {
      CallsOfSnoc(blocks[1..], b);
      assert (blocks + [b])[1..] == blocks[1..] + [b];
    }
  }

  /** What has been assembled so far is the meaning of the events read so far. */
  predicate Means(s: Assembly, events: seq<Event>, default: Metadata) {
    && s.response == Assemble(events, default)
    && s.calls == CallsOf(BlocksOf(events))
    && (s.completed <==> LastCompletion(events).Some?)
    && (!s.observed ==> forall event :: event in events ==> event == Start)
  }

  lemma AbsorbMeans(s: Assembly, events: seq<Event>, default: Metadata, event: Event)
    requires Means(s, events, default) && event != Done
    ensures Means(Absorb(s, event), events + [event], default)
  {
    hide Merged, BlocksOf, CallsOf, Push;
    var after := events + [event];
    assert after[..|after| - 1] == events;
    BlocksOfSnoc(events, event);
    if BlockOf(event).Some? {
      MergedSnoc(BlocksOf(events), BlockOf(event).value);
      CallsOfSnoc(BlocksOf(events), BlockOf(event).value);
      SingleCall(BlockOf(event).value);
    } else {
      assert BlocksOf(events) + [] == BlocksOf(events);
    }
  }

  lemma SingleCall(b: Block)
    ensures CallsOf([b]) == if b.CallBlock? then [Call(b.callId, b.tool, b.arguments, b.signature)] else []
  {
  }

  lemma {:induction false} ConsumeMeans(items: seq<Item>, s: Assembly, cursor: bool, events: seq<Event>, default: Metadata)
    requires Means(s, events, default)
    ensures var end := Consume(items, s, cursor);
            && (end.Complete? ==> Means(end.assembly, events + EventsOf(items), default) && end.assembly.completed)
            && (end.Rejected? ==>
                  && cursor && end.error.CursorRejected? && !end.assembly.observed
                  && Means(end.assembly, events + EventsOf(items), default))
    decreases |items|
  {
    hide Means, Absorb;
    assert events + [] == events;
    if items != [] && items[0].Arrives? && items[0].event != Done && !SignalsFail(s, items[0]) {
      AbsorbMeans(s, events, default, items[0].event);
      ConsumeMeans(items[1..], Absorb(s, items[0].event), cursor, events + [items[0].event], default);
      assert events + [items[0].event] + EventsOf(items[1..]) == events + EventsOf(items);
    }
  }

  /** A stream rejected before any evidence of execution leaves nothing behind. */
  lemma RejectedIsEmpty(s: Assembly, events: seq<Event>, default: Metadata)
    requires Means(s, events, default) && !s.observed
    ensures s.response == Response(default, [], Completion(None, None)) && s.calls == [] && !s.completed
    ensures Means(s, [], default)
  {
    OnlyStarts(events, default);
  }

  lemma {:induction false} OnlyStarts(events: seq<Event>, default: Metadata)
    requires forall event :: event in events ==> event == Start
    ensures BlocksOf(events) == [] && LastMetadata(events, default) == default && LastCompletion(events) == None
  {
    if events != [] {
      var front, last := events[..|events| - 1], events[|events| - 1];
      assert events == front + [last] && last in events;
      assert forall event :: event in front ==> event in events;
      OnlyStarts(front, default);
      BlocksOfSnoc(front, last);
    }
  }
}
