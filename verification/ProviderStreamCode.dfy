/** The loop's own code for one model call, proved to compute `StreamResponse`. */
module ProviderStreamCode {
  import opened Wrappers
  import opened Messages
  import opened ContextBudget
  import opened ProviderStream

  class ResponseReader {
    var journal: seq<Entry>
    var provider: Metadata
    var blocks: seq<Block>
    var completion: Completion
    var calls: seq<Call>
    var started: bool
    var observed: bool
    var completed: bool

    constructor ()
      ensures journal == []
    {
      journal := [];
      provider, blocks, completion := Metadata("", "", "", None), [], Completion(None, None);
      calls, started, observed, completed := [], false, false, false;
    }

    function View(): Assembly
      reads this
    {
      Assembly(Response(provider, blocks, completion), calls, started, observed, completed)
    }

    /** Closes the operation if it was journaled; the callback may fail. */
    method FinishProviderCall(d: Dispatch, id: Option<OperationId>, outcome: CallOutcome) returns (failed: bool)
      modifies `journal
      ensures journal == old(journal) + Close(id, outcome)
      ensures failed == (id.Some? && d.closeFails)
    {
      if id.Some? {
        journal := journal + [Closed(id.value, outcome)];
        return d.closeFails;
      }
      failed := false;
    }

    method StartProviderStream(request: Request, d: Dispatch) returns (opening: Opening)
      modifies `journal
      ensures opening == StartStream(request, d).0 && journal == old(journal) + StartStream(request, d).1
    {
      if d.cancelledBefore { return NotStarted(TurnCancelled); }
      if d.begin.BeginFailed? { return NotStarted(CallbackFailed); }
      var id := d.begin.id;
      journal := journal + [Opened(id, request)];
      journal := journal + [Sent(request)];
      match d.answer {
        case CancelledFirst =>
          var failed := FinishProviderCall(d, id, UncertainCall);
          opening := NotStarted(if failed then CallbackFailed else TurnCancelled);
        case Refused(e) =>
          var failed := FinishProviderCall(d, id, ErrorOutcome(e));
          opening := if failed then NotStarted(CallbackFailed) else StartRefused(e);
        case Streaming(items) => opening := Running(id, items);
      }
    }

    method PushBlock(b: Block)
      modifies `blocks, `observed
      ensures View() == WithBlock(old(View()), b)
    {
      observed := true;
      if b.TextBlock? && blocks != [] && blocks[|blocks| - 1].TextBlock? {
        blocks := blocks[|blocks| - 1 := TextBlock(blocks[|blocks| - 1].text + b.text)];
      } else {
        blocks := blocks + [b];
      }
    }

    /** One event; false when a signal it causes fails. */
    method Handle(item: Item) returns (ok: bool)
      requires item.Arrives? && item.event != Done
      modifies this
      ensures journal == old(journal)
      ensures ok == !SignalsFail(old(View()), item)
      ensures ok ==> View() == Absorb(old(View()), item.event)
    {
      match item.event {
        case Start =>
          if !started {
            if item.startedFails { return false; }
            started := true;
          }
        case ResponseMetadata(m) =>
          observed := true;
          provider := m;
        case TextDelta(t) =>
          observed := true;
          if !started {
            if item.startedFails { return false; }
            started := true;
          }
          PushBlock(TextBlock(t));
          if item.deltaFails { return false; }
        case Reasoning(t, g) => PushBlock(ReasoningBlock(t, g));
        case CallEvent(id, name, args, g) =>
          observed := true;
          if !started {
            if item.startedFails { return false; }
            started := true;
          }
          calls := calls + [Call(id, name, args, g)];
          PushBlock(CallBlock(id, name, args, g));
        case StateEvent(p, m, data) => PushBlock(StateBlock(p, m, data));
        case ResponseCompleted(c) =>
          observed := true;
          completed := true;
          completion := c;
      }
      ok := true;
    }

    /** Reads a started stream to its end, or to the rejection that allows the one replay. */
    method Read(items: seq<Item>, cursor: bool) returns (end: End)
      modifies this
      ensures journal == old(journal) && end == Consume(items, old(View()), cursor)
      ensures end.Rejected? ==> View() == end.assembly
    {
      hide Absorb, SignalsFail;
      for i := 0 to |items|
        invariant journal == old(journal)
        invariant Consume(items, old(View()), cursor) == Consume(items[i..], View(), cursor)
      {
        assert items[i..][0] == items[i] && items[i..][1..] == items[i + 1..];
        if items[i].CancelledHere? { return Stopped(TurnCancelled, UncertainCall); }
        if items[i].Fails? {
          var e := items[i].error;
          if e.CursorRejected? && cursor && !observed { return Rejected(e, View()); }
          return Stopped(Provider(e), ErrorOutcome(e));
        }
        if items[i].event == Done {
          return if completed then Complete(View()) else Stopped(Incomplete, UncertainCall);
        }
        var ok := Handle(items[i]);
        if !ok { return SignalFailed; }
      }
      end := if completed then Complete(View()) else Stopped(Incomplete, UncertainCall);
    }

    method Finish(d: Dispatch, id: Option<OperationId>, end: End) returns (r: Result<(Response, seq<Call>)>)
      modifies `journal
      ensures r == Settle(d, id, end).result && journal == old(journal) + Settle(d, id, end).journal
    {
      match end {
        case Complete(s) =>
          var failed := FinishProviderCall(d, id, Succeeded);
          r := if failed then Err(CallbackFailed) else Ok((s.response, s.calls));
        case Stopped(f, outcome) =>
          var failed := FinishProviderCall(d, id, outcome);
          r := Err(if failed then CallbackFailed else f);
        case SignalFailed => r := Err(CallbackFailed);
        case Rejected(e, _) =>
          var failed := FinishProviderCall(d, id, FailedCall);
          r := Err(if failed then CallbackFailed else Provider(e));
      }
    }

    method FullRequest(size: MessageSize, fixedSize: FixedSize, request: Request) returns (full: Result<Request>)
      ensures full == FullReplay(size, fixedSize, request)
    {
      var messages := if request.continuation.Some? then request.continuation.value.fallback else request.messages;
      var budgeted := new ModelRequest(request.fixed, messages);
      var trimmed := budgeted.ApplyContextBudget(size, fixedSize);
      full := if trimmed.Dropped? then Ok(Request(request.fixed, budgeted.messages, None)) else Err(BudgetExceeded);
    }

    /** The second dispatch, with the history sent in full. */
    method ReplayInFull(size: MessageSize, fixedSize: FixedSize, request: Request, d: Dispatch)
      returns (r: Result<(Response, seq<Call>)>)
      modifies this
      ensures r == Replay(size, fixedSize, request, d, old(View())).result
      ensures journal == old(journal) + Replay(size, fixedSize, request, d, old(View())).journal
    {
      hide Consume, StartStream, Settle, FullReplay;
      var full := FullRequest(size, fixedSize, request);
      if full.Err? { return Err(full.failure); }
      var opening := StartProviderStream(full.value, d);
      match opening {
        case NotStarted(f) => r := Err(f);
        case StartRefused(e) => r := Err(Provider(e));
        case Running(id, items) =>
          var end := Read(items, false);
          r := Finish(d, id, end);
      }
    }

    method StreamResponse(size: MessageSize, fixedSize: FixedSize, request: Request, first: Dispatch, second: Dispatch)
      returns (r: Result<(Response, seq<Call>)>)
      requires journal == []
      modifies this
      ensures Reply(r, journal) == ProviderStream.StreamResponse(size, fixedSize, request, first, second)
    {
      hide Consume, StartStream, Settle, Replay, DefaultMetadata;
      provider, blocks, completion := DefaultMetadata(request.fixed.model), [], Completion(None, None);
      calls, started, observed, completed := [], false, false, false;
      var opening := StartProviderStream(request, first);
      match opening {
        case NotStarted(f) => r := Err(f);
        case StartRefused(e) =>
          if request.continuation.Some? && e.CursorRejected? {
            r := ReplayInFull(size, fixedSize, request, second);
          } else {
            r := Err(Provider(e));
          }
        case Running(id, items) =>
          var end := Read(items, request.continuation.Some?);
          if end.Rejected? && !(id.Some? && first.closeFails) {
            var failed := FinishProviderCall(first, id, FailedCall);
            r := ReplayInFull(size, fixedSize, request, second);
          } else {
            r := Finish(first, id, end);
          }
      }
    }
  }
}
