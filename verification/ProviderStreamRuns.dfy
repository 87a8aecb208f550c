/** The main results about one model call: its dispatches, its journal and the response it returns. */
module ProviderStreamRuns {
  import opened Wrappers
  import opened Messages
  import opened ContextBudget
  import opened ProviderStream

  function SentRequests(journal: seq<Entry>): seq<Request> {
    if journal == [] then []
    else (if journal[0].Sent? then [journal[0].request] else []) + SentRequests(journal[1..])
  }

  function Count(journal: seq<Entry>, which: Entry -> bool): nat {
    if journal == [] then 0 else (if which(journal[0]) then 1 else 0) + Count(journal[1..], which)
  }

  function Opens(journal: seq<Entry>, id: OperationId): nat {
    Count(journal, (e: Entry) => e.Opened? && e.journaled == Some(id))
  }

  function Closes(journal: seq<Entry>, id: OperationId): nat {
    Count(journal, (e: Entry) => e.Closed? && e.id == id)
  }

  lemma {:induction false} CountAppend(a: seq<Entry>, b: seq<Entry>, which: Entry -> bool)
    ensures Count(a + b, which) == Count(a, which) + Count(b, which)
  {
    if a == [] {
      assert a + b == b;
    } else {
      CountAppend(a[1..], b, which);
      assert (a + b)[1..] == a[1..] + b;
    }
  }

  lemma {:induction false} SentAppend(a: seq<Entry>, b: seq<Entry>)
    ensures SentRequests(a + b) == SentRequests(a) + SentRequests(b)
  {
    if a == [] {
      assert a + b == b;
    } else {
      SentAppend(a[1..], b);
      assert (a + b)[0] == a[0] && (a + b)[1..] == a[1..] + b;
      var head := if a[0].Sent? then [a[0].request] else [];
      assert head + (SentRequests(a[1..]) + SentRequests(b)) == head + SentRequests(a[1..]) + SentRequests(b);
    }
  }

  /** The journal of one dispatch: opened, sent and at most one closing entry. */
  function Attempt(request: Request, id: Option<OperationId>, closing: Option<CallOutcome>): seq<Entry> {
    [Opened(id, request), Sent(request)] + if closing.Some? then Close(id, closing.value) else []
  }

  lemma CountThree(request: Request, id: Option<OperationId>, closing: Option<CallOutcome>, which: Entry -> bool)
    ensures Count(Attempt(request, id, closing), which)
            == (if which(Opened(id, request)) then 1 else 0) + (if which(Sent(request)) then 1 else 0)
               + if id.Some? && closing.Some? && which(Closed(id.value, closing.value)) then 1 else 0
  {
    var tail := if closing.Some? then Close(id, closing.value) else [];
    assert Count(tail, which) == if id.Some? && closing.Some? && which(Closed(id.value, closing.value)) then 1 else 0 by {
      assert tail != [] ==> tail[1..] == [];
    }
    assert ([Sent(request)] + tail)[1..] == tail;
    assert Attempt(request, id, closing)[1..] == [Sent(request)] + tail;
  }

  lemma SentOnce(request: Request, id: Option<OperationId>, closing: Option<CallOutcome>)
    ensures SentRequests(Attempt(request, id, closing)) == [request]
  {
    var tail := if closing.Some? then Close(id, closing.value) else [];
    assert SentRequests(tail) == [];
    assert ([Sent(request)] + tail)[1..] == tail;
    assert Attempt(request, id, closing)[1..] == [Sent(request)] + tail;
  }

  /** The outcome that a stream's end is closed with; a failed signal closes nothing. */
  function ClosingOf(end: End): Option<CallOutcome> {
    match end
    case Complete(_) => Some(Succeeded)
    case Stopped(_, outcome) => Some(outcome)
    case SignalFailed => None
    case Rejected(_, _) => Some(FailedCall)
  }

  /** How the operation of a dispatch is closed, if the dispatch gets as far as opening one. */
  function Closing(d: Dispatch, s: Assembly, cursor: bool): Option<CallOutcome> {
    match d.answer
    case CancelledFirst => Some(UncertainCall)
    case Refused(e) => Some(ErrorOutcome(e))
    case Streaming(items) => ClosingOf(Consume(items, s, cursor))
  }

  function JournalOf(request: Request, d: Dispatch, s: Assembly, cursor: bool): seq<Entry> {
    if d.cancelledBefore || d.begin.BeginFailed? then [] else Attempt(request, d.begin.id, Closing(d, s, cursor))
  }

  /** The first dispatch lost its cursor and nothing stood in the way of replaying it. */
  predicate Replays(request: Request, first: Dispatch) {
    && !first.cancelledBefore && first.begin.Begun? && request.continuation.Some?
    && !(first.begin.id.Some? && first.closeFails)
    && match first.answer
       case CancelledFirst => false
       case Refused(e) => e.CursorRejected?
       case Streaming(items) => Consume(items, Empty(request.fixed.model), true).Rejected?
  }

  lemma ReplayJournal(size: MessageSize, fixedSize: FixedSize, request: Request, d: Dispatch, s: Assembly)
    ensures var full := FullReplay(size, fixedSize, request);
            Replay(size, fixedSize, request, d, s).journal == if full.Ok? then JournalOf(full.value, d, s, false) else []
  {
    hide Consume, FullReplay;
    var full := FullReplay(size, fixedSize, request);
    if full.Ok? && d.begin.Begun? {
      var open := [Opened(d.begin.id, full.value), Sent(full.value)];
      assert open + [] == open;
    }
  }

  /** The journal is that of the first dispatch and, after a lost cursor, that of the replay. */
  lemma JournalIs(size: MessageSize, fixedSize: FixedSize, request: Request, first: Dispatch, second: Dispatch)
    ensures var empty := Empty(request.fixed.model);
            var full := FullReplay(size, fixedSize, request);
            StreamResponse(size, fixedSize, request, first, second).journal
            == JournalOf(request, first, empty, request.continuation.Some?)
               + if Replays(request, first) && full.Ok? then JournalOf(full.value, second, AfterFirst(request, first), false) else []
  {
    hide Consume, FullReplay, Means, Replay, Empty;
    var empty := Empty(request.fixed.model);
    var cursor := request.continuation.Some?;
    assert JournalOf(request, first, empty, cursor) + [] == JournalOf(request, first, empty, cursor);
    ReplayJournal(size, fixedSize, request, second, AfterFirst(request, first));
    if first.answer.Streaming? {
      EmptyMeans(request.fixed.model);
      ConsumeMeans(first.answer.items, empty, cursor, [], DefaultMetadata(request.fixed.model));
    }
  }

  /** What the replay starts from: nothing but whether the start was already signalled. */
  function AfterFirst(request: Request, first: Dispatch): Assembly {
    var empty := Empty(request.fixed.model);
    match first.answer
    case Streaming(items) =>
      var end := Consume(items, empty, request.continuation.Some?);
      if end.Rejected? then end.assembly else empty
    case _ => empty
  }

  lemma EmptyMeans(model: string)
    ensures Means(Empty(model), [], DefaultMetadata(model))
  {
  }

  // ---------------------------------------------------------------- dispatches

  /** A stream that shows nothing but starts before its cursor is rejected at `k`. */
  predicate RejectedUnseen(items: seq<Item>, k: nat) {
    && k < |items| && items[k].Fails? && items[k].error.CursorRejected?
    && forall j :: 0 <= j < k ==> items[j].Arrives? && items[j].event == Start
  }

  /** The signal that the response has started does not fail. */
  predicate StartHolds(items: seq<Item>, s: Assembly) {
    items != [] && items[0].Arrives? && !s.started ==> !items[0].startedFails
  }

  /** The replay is taken exactly when the cursor is rejected before any evidence of execution. */
  lemma {:induction false} RejectedMeans(items: seq<Item>, s: Assembly)
    requires !s.observed
    ensures Consume(items, s, true).Rejected? <==> StartHolds(items, s) && exists k: nat :: RejectedUnseen(items, k)
    decreases |items|
  {
    if items != [] && items[0].Arrives? && items[0].event == Start {
      if !SignalsFail(s, items[0]) {
        RejectedMeans(items[1..], Absorb(s, Start));
        forall k: nat | RejectedUnseen(items, k) ensures RejectedUnseen(items[1..], k - 1) {}
        forall k: nat | RejectedUnseen(items[1..], k) ensures RejectedUnseen(items, k + 1) {}
      }
    } else if items != [] && items[0].Arrives? && items[0].event != Done {
      ObservedNeverRejected(items[1..], Absorb(s, items[0].event));
      assert forall k: nat :: RejectedUnseen(items, k) ==> items[0].event == Start || k == 0;
    } else if items != [] && items[0].Fails? && items[0].error.CursorRejected? {
      assert RejectedUnseen(items, 0);
    }
  }

  lemma {:induction false} ObservedNeverRejected(items: seq<Item>, s: Assembly)
    requires s.observed
    ensures !Consume(items, s, true).Rejected?
    decreases |items|
  {
    if items != [] && items[0].Arrives? && items[0].event != Done { ObservedNeverRejected(items[1..], Absorb(s, items[0].event)); }
  }

  lemma SentByJournal(request: Request, d: Dispatch, s: Assembly, cursor: bool)
    ensures SentRequests(JournalOf(request, d, s, cursor)) == if d.cancelledBefore || d.begin.BeginFailed? then [] else [request]
  {
    hide Attempt, Closing;
    if !d.cancelledBefore && d.begin.Begun? { SentOnce(request, d.begin.id, Closing(d, s, cursor)); }
  }

  /** At most two requests leave: the one asked for, and then only its full replay without a cursor, after
      the first dispatch lost its cursor unseen. */
  lemma AtMostOneReplay(size: MessageSize, fixedSize: FixedSize, request: Request, first: Dispatch, second: Dispatch)
    ensures var sent := SentRequests(StreamResponse(size, fixedSize, request, first, second).journal);
            && |sent| <= 2
            && (|sent| >= 1 ==> sent[0] == request)
            && (|sent| == 2 ==>
                  && Replays(request, first) && request.continuation.Some?
                  && FullReplay(size, fixedSize, request) == Ok(sent[1])
                  && sent[1].continuation == None && sent[1].fixed == request.fixed)
  {
    hide StreamResponse, Consume, Replays, JournalOf, AfterFirst;
    var empty := Empty(request.fixed.model);
    var full := FullReplay(size, fixedSize, request);
    JournalIs(size, fixedSize, request, first, second);
    var a := JournalOf(request, first, empty, request.continuation.Some?);
    SentByJournal(request, first, empty, request.continuation.Some?);
    assert a + [] == a;
    if Replays(request, first) && full.Ok? {
      ReplaysHasCursor(request, first);
      SentAppend(a, JournalOf(full.value, second, AfterFirst(request, first), false));
      SentByJournal(full.value, second, AfterFirst(request, first), false);
    }
  }

  lemma ReplaysHasCursor(request: Request, first: Dispatch)
    requires Replays(request, first)
    ensures request.continuation.Some? && !first.cancelledBefore && first.begin.Begun?
  {
  }

  // ---------------------------------------------------------------- the journal

  /** No signal of the stream fails. */
  predicate SignalsHold(d: Dispatch) {
    d.answer.Streaming? ==>
      forall item :: item in d.answer.items && item.Arrives? ==> !item.startedFails && !item.deltaFails
  }

  lemma {:induction false} NoSignalFailed(items: seq<Item>, s: Assembly, cursor: bool)
    requires forall item :: item in items && item.Arrives? ==> !item.startedFails && !item.deltaFails
    ensures Consume(items, s, cursor) != SignalFailed
    decreases |items|
  {
    if items != [] && items[0].Arrives? {
      assert items[0] in items;
      assert forall item :: item in items[1..] ==> item in items;
      NoSignalFailed(items[1..], Absorb(s, items[0].event), cursor);
    }
  }

  /** Operations of the two dispatches are told apart by their identifiers. */
  predicate DifferentIds(first: Dispatch, second: Dispatch) {
    first.begin.Begun? && second.begin.Begun? && first.begin.id.Some? ==> first.begin.id != second.begin.id
  }

  /** The events that show that the response has started. */
  predicate Begins(event: Event) {
    event.Start? || event.TextDelta? || event.CallEvent?
  }

  /** Item `k` arrives and one of its signals fails: that of a text, or, for the first item that shows that
      the response has started, the signal of that start. */
  predicate SignalBroken(items: seq<Item>, started: bool, k: nat) {
    && k < |items|
    && (forall j :: 0 <= j <= k ==> items[j].Arrives? && items[j].event != Done)
    && (|| (items[k].event.TextDelta? && items[k].deltaFails)
        || (items[k].startedFails && Begins(items[k].event) && !started && forall j :: 0 <= j < k ==> !Begins(items[j].event)))
  }

  /** Some signal of the dispatch's stream fails before the stream ends otherwise. */
  ghost predicate SignalBreaks(d: Dispatch, started: bool) {
    d.answer.Streaming? && exists k: nat :: SignalBroken(d.answer.items, started, k)
  }

  /** Reading ends at a failed signal exactly when the stream holds one that is reached. */
  lemma {:induction false} SignalFailedMeans(items: seq<Item>, s: Assembly, cursor: bool)
    ensures Consume(items, s, cursor) == SignalFailed <==> exists k: nat :: SignalBroken(items, s.started, k)
    decreases |items|
  {
    if items != [] && items[0].Arrives? && items[0].event != Done {
      var next := Absorb(s, items[0].event);
      if SignalsFail(s, items[0]) {
        assert SignalBroken(items, s.started, 0);
      } else {
        SignalFailedMeans(items[1..], next, cursor);
        forall k: nat | SignalBroken(items, s.started, k) ensures SignalBroken(items[1..], next.started, k - 1) {}
        forall k: nat | SignalBroken(items[1..], next.started, k) ensures SignalBroken(items, s.started, k + 1) {
          BrokenLater(items, s, k);
        }
      }
    }
  }

  lemma BrokenLater(items: seq<Item>, s: Assembly, k: nat)
    requires items != [] && items[0].Arrives? && items[0].event != Done
    requires SignalBroken(items[1..], Absorb(s, items[0].event).started, k)
    ensures SignalBroken(items, s.started, k + 1)
  {
    assert forall j :: 0 < j < |items| ==> items[j] == items[1..][j - 1];
  }

  /** The first stream had shown its start before its cursor was rejected. */
  predicate StartSeen(first: Dispatch) {
    first.answer.Streaming? && first.answer.items != [] && first.answer.items[0].Arrives?
  }

  lemma StartSeenMeans(request: Request, first: Dispatch)
    requires Replays(request, first)
    ensures AfterFirst(request, first).started <==> StartSeen(first)
  {
    if first.answer.Streaming? { RejectedStarted(first.answer.items, Empty(request.fixed.model)); }
  }

  lemma {:induction false} RejectedStarted(items: seq<Item>, s: Assembly)
    requires !s.observed && Consume(items, s, true).Rejected?
    ensures Consume(items, s, true).assembly.started <==> s.started || (items != [] && items[0].Arrives?)
    decreases |items|
  {
    if items != [] && items[0].Arrives? {
      if items[0].event == Start {
        RejectedStarted(items[1..], Absorb(s, Start));
      } else {
        ObservedNeverRejected(items[1..], Absorb(s, items[0].event));
      }
    }
  }

  lemma JournalOfCounts(request: Request, d: Dispatch, s: Assembly, cursor: bool, op: OperationId)
    ensures var j := JournalOf(request, d, s, cursor);
            && Opens(j, op) == (if !d.cancelledBefore && d.begin == Begun(Some(op)) then 1 else 0)
            && Closes(j, op) <= Opens(j, op)
            && (SignalsHold(d) ==> Closes(j, op) == Opens(j, op))
            && (Closes(j, op) == Opens(j, op) <==> !(Opens(j, op) == 1 && SignalBreaks(d, s.started)))
  {
    hide Attempt, Consume, SignalBroken;
    if d.answer.Streaming? { SignalFailedMeans(d.answer.items, s, cursor); }
    if !d.cancelledBefore && d.begin.Begun? {
      CountThree(request, d.begin.id, Closing(d, s, cursor), (e: Entry) => e.Opened? && e.journaled == Some(op));
      CountThree(request, d.begin.id, Closing(d, s, cursor), (e: Entry) => e.Closed? && e.id == op);
      if d.answer.Streaming? && SignalsHold(d) { NoSignalFailed(d.answer.items, s, cursor); }
    }
  }

  /** Every operation is opened and closed at most once; it stays open exactly when its stream holds a failing
      signal that is reached. */
  lemma ClosedExactlyOnce(size: MessageSize, fixedSize: FixedSize, request: Request, first: Dispatch, second: Dispatch, op: OperationId)
    requires DifferentIds(first, second)
    ensures var journal := StreamResponse(size, fixedSize, request, first, second).journal;
            && Closes(journal, op) <= Opens(journal, op) <= 1
            && (SignalsHold(first) && SignalsHold(second) ==> Closes(journal, op) == Opens(journal, op))
            && (Closes(journal, op) < Opens(journal, op) <==>
                  Opens(journal, op) == 1
                  && if first.begin == Begun(Some(op)) then SignalBreaks(first, false) else SignalBreaks(second, StartSeen(first)))
  {
    hide StreamResponse, Consume, Replays, JournalOf, FullReplay, AfterFirst, SignalsHold, SignalBreaks;
    var empty := Empty(request.fixed.model);
    var full := FullReplay(size, fixedSize, request);
    JournalIs(size, fixedSize, request, first, second);
    var a := JournalOf(request, first, empty, request.continuation.Some?);
    JournalOfCounts(request, first, empty, request.continuation.Some?, op);
    assert a + [] == a;
    if Replays(request, first) && full.Ok? {
      StartSeenMeans(request, first);
      var b := JournalOf(full.value, second, AfterFirst(request, first), false);
      JournalOfCounts(full.value, second, AfterFirst(request, first), false, op);
      CountAppend(a, b, (e: Entry) => e.Opened? && e.journaled == Some(op));
      CountAppend(a, b, (e: Entry) => e.Closed? && e.id == op);
    }
  }

  // ---------------------------------------------------------------- the response

  /** The dispatch whose stream an answer comes from. */
  function Last(request: Request, first: Dispatch, second: Dispatch): Dispatch {
    if Replays(request, first) then second else first
  }

  /** A successful call returns the meaning of the last stream alone; its operation is closed as succeeded
      and one that was replayed before it as failed. */
  lemma SuccessMeans(size: MessageSize, fixedSize: FixedSize, request: Request, first: Dispatch, second: Dispatch)
    requires StreamResponse(size, fixedSize, request, first, second).result.Ok?
    ensures var reply := StreamResponse(size, fixedSize, request, first, second);
            var last := Last(request, first, second);
            && last.answer.Streaming?
            && reply.result.value.0 == Assemble(EventsOf(last.answer.items), DefaultMetadata(request.fixed.model))
            && reply.result.value.1 == CallsOf(BlocksOf(EventsOf(last.answer.items)))
            && first.begin.Begun?
            && (!Replays(request, first) ==> reply.journal == Attempt(request, first.begin.id, Some(Succeeded)))
            && (Replays(request, first) ==>
                  && second.begin.Begun? && FullReplay(size, fixedSize, request).Ok?
                  && reply.journal == Attempt(request, first.begin.id, Some(FailedCall))
                                      + Attempt(FullReplay(size, fixedSize, request).value, second.begin.id, Some(Succeeded)))
  {
    hide Attempt;
    JournalIs(size, fixedSize, request, first, second);
    hide Consume, FullReplay, Means, Assemble, BlocksOf, CallsOf, EventsOf;
    var empty := Empty(request.fixed.model);
    var default := DefaultMetadata(request.fixed.model);
    EmptyMeans(request.fixed.model);
    if first.answer.Streaming? {
      ConsumeMeans(first.answer.items, empty, request.continuation.Some?, [], default);
      assert [] + EventsOf(first.answer.items) == EventsOf(first.answer.items);
      MeansParts(request, first.answer.items, empty, request.continuation.Some?);
    }
    if Replays(request, first) {
      AfterFirstMeans(request, first);
      if second.answer.Streaming? {
        ConsumeMeans(second.answer.items, AfterFirst(request, first), false, [], default);
        assert [] + EventsOf(second.answer.items) == EventsOf(second.answer.items);
        MeansParts(request, second.answer.items, AfterFirst(request, first), false);
      }
    }
  }

  lemma MeansParts(request: Request, items: seq<Item>, s: Assembly, cursor: bool)
    requires Means(s, [], DefaultMetadata(request.fixed.model))
    ensures Consume(items, s, cursor).Complete? ==>
              && Consume(items, s, cursor).assembly.response == Assemble(EventsOf(items), DefaultMetadata(request.fixed.model))
              && Consume(items, s, cursor).assembly.calls == CallsOf(BlocksOf(EventsOf(items)))
  {
    hide Consume, Assemble, BlocksOf, CallsOf;
    ConsumeMeans(items, s, cursor, [], DefaultMetadata(request.fixed.model));
    assert [] + EventsOf(items) == EventsOf(items);
  }

  lemma AfterFirstMeans(request: Request, first: Dispatch)
    requires Replays(request, first)
    ensures Means(AfterFirst(request, first), [], DefaultMetadata(request.fixed.model))
  {
    hide Consume, Means;
    EmptyMeans(request.fixed.model);
    if first.answer.Streaming? {
      ConsumeMeans(first.answer.items, Empty(request.fixed.model), true, [], DefaultMetadata(request.fixed.model));
      var end := Consume(first.answer.items, Empty(request.fixed.model), true);
      RejectedIsEmpty(end.assembly, [] + EventsOf(first.answer.items), DefaultMetadata(request.fixed.model));
    }
  }

  // ---------------------------------------------------------------- round trip with the default stream

  /** What the default `Provider::stream` makes of a response: its parts between fixed events. */
  function PartEvent(part: Block): Event {
    match part
    case TextBlock(t) => TextDelta(t)
    case ReasoningBlock(t, g) => Reasoning(t, g)
    case CallBlock(id, tool, args, g) => CallEvent(id, tool, args, g)
    case StateBlock(p, m, d) => StateEvent(p, m, d)
  }

  function PartEvents(parts: seq<Block>): seq<Event> {
    if parts == [] then [] else [PartEvent(parts[0])] + PartEvents(parts[1..])
  }

  function DefaultEvents(metadata: Metadata, parts: seq<Block>, completion: Completion): seq<Event> {
    [Start, ResponseMetadata(metadata)] + PartEvents(parts) + [ResponseCompleted(completion)]
  }

  function Arriving(events: seq<Event>): seq<Item> {
    if events == [] then [] else [Arrives(events[0], false, false)] + Arriving(events[1..])
  }

  function DefaultItems(metadata: Metadata, parts: seq<Block>, completion: Completion): seq<Item> {
    Arriving(DefaultEvents(metadata, parts, completion)) + [Arrives(Done, false, false)]
  }

  lemma {:induction false} ArrivingConsumed(events: seq<Event>, s: Assembly, cursor: bool)
    requires forall event :: event in events ==> event != Done
    requires s.completed || exists event :: event in events && event.ResponseCompleted?
    ensures Consume(Arriving(events) + [Arrives(Done, false, false)], s, cursor).Complete?
    ensures EventsOf(Arriving(events) + [Arrives(Done, false, false)]) == events
    decreases |events|
  {
    var items := Arriving(events) + [Arrives(Done, false, false)];
    if events == [] {
      assert items == [Arrives(Done, false, false)];
    } else {
      assert items[0] == Arrives(events[0], false, false) && items[1..] == Arriving(events[1..]) + [Arrives(Done, false, false)];
      assert events[0] in events && forall event :: event in events[1..] ==> event in events;
      assert events == [events[0]] + events[1..];
      ArrivingConsumed(events[1..], Absorb(s, events[0]), cursor);
    }
  }

  lemma {:induction false} PartEventsMean(parts: seq<Block>, default: Metadata)
    ensures BlocksOf(PartEvents(parts)) == parts
    ensures forall event :: event in PartEvents(parts) ==> BlockOf(event).Some? && event != Done
  {
    if parts != [] { PartEventsMean(parts[1..], default); }
  }

  lemma {:induction false} BlocksOfAppend(a: seq<Event>, b: seq<Event>)
    ensures BlocksOf(a + b) == BlocksOf(a) + BlocksOf(b)
    decreases |b|
  {
    if b == [] {
      assert a + b == a;
    } else {
      var front, last := b[..|b| - 1], b[|b| - 1];
      assert b == front + [last] && a + b == a + front + [last];
      BlocksOfAppend(a, front);
      BlocksOfSnoc(a + front, last);
      BlocksOfSnoc(front, last);
    }
  }

  lemma {:induction false} NoMetadataIn(events: seq<Event>, metadata: Metadata, default: Metadata)
    requires forall event :: event in events ==> BlockOf(event).Some?
    ensures LastMetadata([Start, ResponseMetadata(metadata)] + events, default) == metadata
    decreases |events|
  {
    var all := [Start, ResponseMetadata(metadata)] + events;
    if events != [] {
      var front := events[..|events| - 1];
      assert all[..|all| - 1] == [Start, ResponseMetadata(metadata)] + front;
      assert events[|events| - 1] in events && forall event :: event in front ==> event in events;
      NoMetadataIn(front, metadata, default);
    }
  }

  lemma DefaultEventsMean(metadata: Metadata, parts: seq<Block>, completion: Completion, default: Metadata)
    ensures Assemble(DefaultEvents(metadata, parts, completion), default) == Response(metadata, Merged(parts), completion)
    ensures BlocksOf(DefaultEvents(metadata, parts, completion)) == parts
    ensures forall event :: event in DefaultEvents(metadata, parts, completion) ==> event != Done
  {
    hide Merged;
    var head, tail := [Start, ResponseMetadata(metadata)], [ResponseCompleted(completion)];
    var events := DefaultEvents(metadata, parts, completion);
    PartEventsMean(parts, default);
    BlocksOfAppend(head + PartEvents(parts), tail);
    BlocksOfAppend(head, PartEvents(parts));
    assert BlocksOf(head) == [] by { assert head[1..] == [ResponseMetadata(metadata)] && head[1..][1..] == []; }
    assert BlocksOf(tail) == [] by { assert tail[1..] == []; }
    assert [] + parts + [] == parts;
    assert events[..|events| - 1] == head + PartEvents(parts);
    NoMetadataIn(PartEvents(parts), metadata, default);
  }

  /** Streaming a response through the default stream and assembling it again gives back its metadata,
      usage and stop reason, its parts with neighbouring texts joined, and its tool calls in order. */
  lemma RoundTrip(size: MessageSize, fixedSize: FixedSize, request: Request, id: Option<OperationId>, second: Dispatch,
                  metadata: Metadata, parts: seq<Block>, completion: Completion)
    ensures var first := Dispatch(false, Begun(id), Streaming(DefaultItems(metadata, parts, completion)), false);
            StreamResponse(size, fixedSize, request, first, second)
            == Reply(Ok((Response(metadata, Merged(parts), completion), CallsOf(parts))),
                     [Opened(id, request), Sent(request)] + Close(id, Succeeded))
  {
    hide Consume, Assemble, BlocksOf, Merged, CallsOf, EventsOf;
    var events := DefaultEvents(metadata, parts, completion);
    var items := DefaultItems(metadata, parts, completion);
    var default := DefaultMetadata(request.fixed.model);
    DefaultEventsMean(metadata, parts, completion, default);
    assert events[|events| - 1] == ResponseCompleted(completion) && events[|events| - 1] in events;
    ArrivingConsumed(events, Empty(request.fixed.model), request.continuation.Some?);
    EmptyMeans(request.fixed.model);
    MeansParts(request, items, Empty(request.fixed.model), request.continuation.Some?);
  }
}
