/** The streamed answer of an ACP turn: what `UpdateState` accumulates and emits, and what is forwarded.

    Texts are UTF-8 bytes. Bounding JSON and recognising blank text are inputs, and so is which of the
    emitted events the sink refuses. */
module Updates {
  import opened Wrappers
  import opened StreamDelta
  import opened JsonMerge

  datatype Env = Env(bound: Json -> Json, isBlank: Text -> bool, refuses: nat -> bool)

  datatype Tool = Tool(title: Text, kind: Option<Text>, status: Option<Text>, input: Json)

  datatype Event =
    | AssistantDelta(key: string, delta: Text, messageId: Option<Text>, raw: Json)
    | ReasoningDelta(key: string, delta: Text, messageId: Option<Text>, raw: Json)
    | ProviderState(key: string, data: Json)
    | ToolActivity(key: string, callId: Text, title: Text, kind: Option<Text>, status: Option<Text>, input: Json)

  /** `emitted` is history: every event handed to the sink. */
  datatype State = State(
    answer: Text,
    boundary: bool,
    messageId: Option<Text>,
    tools: map<Text, Tool>,
    ordinal: nat,
    prefix: string,
    emitted: seq<Event>)

  const U64: nat := 0x1_0000_0000_0000_0000
  const NEW_TOOL := Tool([], None, None, Null)
  const BREAK: Text := [10, 10]

  /** The bytes of a literal. */
  function Ascii(s: string): Text {
    seq(|s|, i requires 0 <= i < |s| => (s[i] as int % 256) as Byte)
  }

  function Digit(d: nat): char
    requires d < 10
  {
    ('0' as int + d) as char
  }

  function Decimal(n: nat): string {
    if n < 10 then [Digit(n)] else Decimal(n / 10) + [Digit(n % 10)]
  }

  function Key(prefix: string, n: nat): string {
    prefix + ":update:" + Decimal(n)
  }

  function Field(v: Json, key: string): Option<Json> {
    if v.Object? && key in v.fields then Some(v.fields[key]) else None
  }

  function TextField(v: Json, key: string): Option<Text> {
    match Field(v, key)
    case Some(Str(t)) => Some(t)
    case _ => None
  }

  function ContentText(update: Json): Option<Text> {
    var content := Field(update, "content");
    if content.Some? && TextField(content.value, "text").Some? then TextField(content.value, "text")
    else if content.Some? && content.value.Str? then Some(content.value.content)
    else TextField(update, "text")
  }

  function MessageId(update: Json): Option<Text> {
    match TextField(update, "messageId")
    case Some(id) => if id == [] then None else Some(id)
    case None => None
  }

  function NonEmpty(env: Env, update: Json, key: string): Option<Text> {
    match TextField(update, key)
    case Some(t) => if env.isBlank(t) then None else Some(t)
    case None => None
  }

  predicate Kind(update: Json, kind: string) {
    TextField(update, "sessionUpdate") == Some(Ascii(kind))
  }

  /** Hands an event to the sink under a fresh key; false when the sink refuses it. */
  function Emit(s: State, env: Env, event: Event): (State, bool) {
    (s.(ordinal := (s.ordinal + 1) % U64, emitted := s.emitted + [event]), !env.refuses(|s.emitted|))
  }

  function NextKey(s: State): string {
    Key(s.prefix, (s.ordinal + 1) % U64)
  }

  predicate Breaks(s: State, id: Option<Text>) {
    && (s.boundary || (s.messageId.Some? && id.Some? && s.messageId.value != id.value))
    && s.answer != []
  }

  function AddText(s: State, env: Env, text: Text, id: Option<Text>, raw: Json): (State, bool) {
    Emit(s.(answer := s.answer + text), env, AssistantDelta(NextKey(s), text, id, raw))
  }

  function ApplyMessage(s: State, env: Env, update: Json): (State, bool) {
    if !Kind(update, "agent_message_chunk") || ContentText(update).None? then (s, true)
    else
      var text, id := ContentText(update).value, MessageId(update);
      var (t, ok) := if Breaks(s, id) then AddText(s, env, BREAK, id, env.bound(update)) else (s, true);
      if !ok then (t, false)
      else AddText(t.(boundary := false, messageId := if id.Some? then id else t.messageId), env, text, id, env.bound(update))
  }

  /** The tool's state with an update folded in. */
  function Advanced(env: Env, tool: Tool, update: Json): Tool {
    var title := if NonEmpty(env, update, "title").Some? then NonEmpty(env, update, "title").value else tool.title;
    var kind := if NonEmpty(env, update, "kind").Some? then NonEmpty(env, update, "kind") else tool.kind;
    var status := if NonEmpty(env, update, "status").Some? then NonEmpty(env, update, "status") else tool.status;
    var raw, output, locations := Field(update, "rawInput"), Field(update, "rawOutput"), Field(update, "locations");
    var input := if raw.Some? then Merged(tool.input, env.bound(raw.value)) else tool.input;
    var based := if (output.Some? || locations.Some?) && input == Null then Object(map[]) else input;
    var shown := if based.Object? && output.Some? then Object(based.fields["_mews_raw_output" := env.bound(output.value)]) else based;
    var placed := if shown.Object? && locations.Some? then Object(shown.fields["_mews_locations" := env.bound(locations.value)]) else shown;
    Tool(title, kind, status, placed)
  }

  function Title(tool: Tool): Text {
    if tool.title == [] then Ascii("Tool call") else tool.title
  }

  function ApplyTool(s: State, env: Env, update: Json): (State, bool) {
    var t := s.(boundary := true);
    match NonEmpty(env, update, "toolCallId")
    case None => Emit(t, env, ProviderState(NextKey(t), env.bound(update)))
    case Some(id) =>
      var tool := Advanced(env, if id in t.tools then t.tools[id] else NEW_TOOL, update);
      Emit(t.(tools := t.tools[id := tool]), env,
           ToolActivity(NextKey(t), id, Title(tool), tool.kind, tool.status, tool.input))
  }

  function Apply(s: State, env: Env, update: Json): (State, bool) {
    if Kind(update, "agent_message_chunk") then ApplyMessage(s, env, update)
    else if Kind(update, "agent_thought_chunk") then
      match ContentText(update)
      case None => (s, true)
      case Some(text) => Emit(s, env, ReasoningDelta(NextKey(s), text, MessageId(update), env.bound(update)))
    else if Kind(update, "tool_call") || Kind(update, "tool_call_update") then ApplyTool(s, env, update)
    else if Kind(update, "permission_request") then Emit(s, env, ProviderState(NextKey(s), env.bound(update)))
    else (s, true)
  }

  function Fresh(prefix: string): State {
    State([], false, None, map[], 0, prefix, [])
  }

  /** The updates of a turn, up to the first event that the sink refuses. */
  function ApplyAll(s: State, env: Env, updates: seq<Json>): State
    decreases |updates|
  {
    if updates == [] then s
    else
      var (t, ok) := Apply(s, env, updates[0]);
      if ok then ApplyAll(t, env, updates[1..]) else t
  }

  // ---------------------------------------------------------------- conservation and keys

  function DeltaOf(e: Event): Text {
    if e.AssistantDelta? then e.delta else []
  }

  /** The assistant's deltas, one after another. */
  function Deltas(events: seq<Event>): Text {
    if events == [] then [] else Deltas(events[..|events| - 1]) + DeltaOf(events[|events| - 1])
  }

  /** The answer is what has been emitted; the n-th event carries the n-th key. */
  predicate Inv(s: State) {
    && s.answer == Deltas(s.emitted)
    && (|s.emitted| < U64 ==>
          s.ordinal == |s.emitted| && forall n :: 0 <= n < |s.emitted| ==> s.emitted[n].key == Key(s.prefix, n + 1))
  }

  lemma EmitKeeps(s: State, env: Env, event: Event, text: Text)
    requires Inv(s) && event.key == NextKey(s) && DeltaOf(event) == text
    ensures Inv(Emit(s.(answer := s.answer + text), env, event).0)
  {
  }

  /** Every update keeps them, even when the sink refuses an event. */
  lemma ApplyKeeps(s: State, env: Env, update: Json)
    requires Inv(s)
    ensures Inv(Apply(s, env, update).0) && Apply(s, env, update).0.prefix == s.prefix
    ensures s.emitted <= Apply(s, env, update).0.emitted
  {
    hide Inv, Key, Kind, ContentText, MessageId, NonEmpty, Advanced, Title;
    assert s.(answer := s.answer + []) == s;
    if Kind(update, "agent_message_chunk") {
      MessageKeeps(s, env, update);
    } else if Kind(update, "agent_thought_chunk") {
      if ContentText(update).Some? {
        EmitKeeps(s, env, ReasoningDelta(NextKey(s), ContentText(update).value, MessageId(update), env.bound(update)), []);
      }
    } else if Kind(update, "tool_call") || Kind(update, "tool_call_update") {
      ToolKeeps(s, env, update);
    } else if Kind(update, "permission_request") {
      EmitKeeps(s, env, ProviderState(NextKey(s), env.bound(update)), []);
    }
  }

  lemma ToolKeeps(s: State, env: Env, update: Json)
    requires Inv(s)
    ensures Inv(ApplyTool(s, env, update).0)
  {
    hide Key, Deltas, NonEmpty, Advanced, Title;
    var t := s.(boundary := true);
    assert t.(answer := t.answer + []) == t;
    match NonEmpty(env, update, "toolCallId")
    case None => EmitKeeps(t, env, ProviderState(NextKey(t), env.bound(update)), []);
    case Some(id) =>
      var tool := Advanced(env, if id in t.tools then t.tools[id] else NEW_TOOL, update);
      var u := t.(tools := t.tools[id := tool]);
      assert u.(answer := u.answer + []) == u;
      EmitKeeps(u, env, ToolActivity(NextKey(t), id, Title(tool), tool.kind, tool.status, tool.input), []);
  }

  lemma MessageKeeps(s: State, env: Env, update: Json)
    requires Inv(s)
    ensures Inv(ApplyMessage(s, env, update).0)
  {
    hide Key, Deltas, Kind, ContentText, MessageId;
    if Kind(update, "agent_message_chunk") && ContentText(update).Some? {
      var text, id := ContentText(update).value, MessageId(update);
      EmitKeeps(s, env, AssistantDelta(NextKey(s), BREAK, id, env.bound(update)), BREAK);
      var (t, ok) := if Breaks(s, id) then AddText(s, env, BREAK, id, env.bound(update)) else (s, true);
      var u := t.(boundary := false, messageId := if id.Some? then id else t.messageId);
      EmitKeeps(u, env, AssistantDelta(NextKey(u), text, id, env.bound(update)), text);
    }
  }

  lemma {:induction false} AllKeep(s: State, env: Env, updates: seq<Json>)
    requires Inv(s)
    ensures Inv(ApplyAll(s, env, updates)) && ApplyAll(s, env, updates).prefix == s.prefix
    decreases |updates|
  {
    hide Inv, Apply;
    if updates != [] {
      ApplyKeeps(s, env, updates[0]);
      var (t, ok) := Apply(s, env, updates[0]);
      if ok { AllKeep(t, env, updates[1..]); }
    }
  }

  /** The final answer is the text of the emitted assistant deltas, in order, and nothing else. */
  lemma AnswerIsEmitted(prefix: string, env: Env, updates: seq<Json>)
    ensures var s := ApplyAll(Fresh(prefix), env, updates);
            && s.answer == Deltas(s.emitted)
            && (|s.emitted| < U64 ==> forall n :: 0 <= n < |s.emitted| ==> s.emitted[n].key == Key(prefix, n + 1))
  {
    hide Apply, Key;
    AllKeep(Fresh(prefix), env, updates);
  }

  // ---------------------------------------------------------------- forwarding

  datatype Forwarded = Piece(key: string, delta: Text) | Whole(key: string, event: Event)

  function Pieces(key: string, chunks: seq<Text>): seq<Forwarded> {
    seq(|chunks|, i requires 0 <= i < |chunks| => Piece(key + ":" + Decimal(i), chunks[i]))
  }

  /** One event on its way to the Hub; an assistant delta is cut into the given chunks. */
  function ForwardOne(e: Event, chunks: seq<Text>): seq<Forwarded> {
    if e.AssistantDelta? then Pieces(e.key, chunks) else [Whole(e.key, e)]
  }

  function Forward(events: seq<Event>, chunks: seq<seq<Text>>): seq<Forwarded>
    requires |chunks| == |events|
  {
    if events == [] then []
    else
      var n := |events| - 1;
      Forward(events[..n], chunks[..n]) + ForwardOne(events[n], chunks[n])
  }

  function PieceText(f: Forwarded): Text {
    if f.Piece? then f.delta else []
  }

  function ForwardedText(out: seq<Forwarded>): Text {
    if out == [] then [] else ForwardedText(out[..|out| - 1]) + PieceText(out[|out| - 1])
  }

  ghost predicate Cut(events: seq<Event>, chunks: seq<seq<Text>>) {
    |chunks| == |events| && forall n :: 0 <= n < |events| && events[n].AssistantDelta? ==> Splits(events[n].delta, chunks[n])
  }

  lemma {:induction false} ForwardedAppend(a: seq<Forwarded>, b: seq<Forwarded>)
    ensures ForwardedText(a + b) == ForwardedText(a) + ForwardedText(b)
    decreases |b|
  {
    if b == [] {
      assert a + b == a;
    } else {
      var front, last := b[..|b| - 1], b[|b| - 1];
      assert (a + b)[..|a + b| - 1] == a + front && (a + b)[|a + b| - 1] == last;
      ForwardedAppend(a, front);
      assert ForwardedText(a) + (ForwardedText(front) + PieceText(last)) == ForwardedText(a) + ForwardedText(front) + PieceText(last);
    }
  }

  lemma {:induction false} PiecesText(key: string, chunks: seq<Text>)
    ensures ForwardedText(Pieces(key, chunks)) == Concat(chunks)
  {
    if chunks != [] {
      var n := |chunks| - 1;
      PiecesText(key, chunks[..n]);
      assert Pieces(key, chunks)[..n] == Pieces(key, chunks[..n]);
    }
  }

  /** Cutting conserves the text: what is forwarded to the Hub is what was emitted. */
  lemma {:induction false} ForwardConserves(events: seq<Event>, chunks: seq<seq<Text>>)
    requires Cut(events, chunks)
    ensures ForwardedText(Forward(events, chunks)) == Deltas(events)
  {
    hide Splits, Concat;
    if events != [] {
      var n := |events| - 1;
      ForwardConserves(events[..n], chunks[..n]);
      ForwardedAppend(Forward(events[..n], chunks[..n]), ForwardOne(events[n], chunks[n]));
      if events[n].AssistantDelta? {
        PiecesText(events[n].key, chunks[n]);
        SplitsConcat(events[n].delta, chunks[n]);
      } else {
        assert ForwardOne(events[n], chunks[n])[..0] == [];
      }
    }
  }

  lemma SplitsConcat(text: Text, chunks: seq<Text>)
    requires Splits(text, chunks)
    ensures Concat(chunks) == text
  {
  }

  // ---------------------------------------------------------------- what the sink took

  /** Every text in the document is well-formed, as texts are in the source's language. */
  predicate WellFormed(v: Json) {
    match v
    case Str(t) => Utf8(t)
    case Array(items) => forall i :: 0 <= i < |items| ==> WellFormed(items[i])
    case Object(fields) => forall key :: key in fields ==> WellFormed(fields[key])
    case _ => true
  }

  predicate Utf8Deltas(events: seq<Event>) {
    forall n :: 0 <= n < |events| && events[n].AssistantDelta? ==> Utf8(events[n].delta)
  }

  lemma ContentIsUtf8(update: Json)
    requires WellFormed(update)
    ensures ContentText(update).Some? ==> Utf8(ContentText(update).value)
  {
    hide Utf8, WellFormed;
    FieldIsUtf8(update, "text");
    FieldIsUtf8(update, "content");
    if Field(update, "content").Some? { FieldIsUtf8(Field(update, "content").value, "text"); }
  }

  lemma FieldIsUtf8(v: Json, key: string)
    requires WellFormed(v)
    ensures Field(v, key).Some? ==> WellFormed(Field(v, key).value) && (Field(v, key).value.Str? ==> Utf8(Field(v, key).value.content))
  {
    hide Utf8;
  }

  lemma BreakIsUtf8()
    ensures Utf8(BREAK)
  {
    assert BREAK[1..] == [10] && BREAK[1..][1..] == [];
  }

  lemma ApplyUtf8(s: State, env: Env, update: Json)
    requires WellFormed(update) && Utf8Deltas(s.emitted)
    ensures Utf8Deltas(Apply(s, env, update).0.emitted)
  {
    hide Utf8, WellFormed, ContentText, Kind, MessageId, NonEmpty, Advanced, Title, Key, Breaks;
    ContentIsUtf8(update);
    BreakIsUtf8();
  }

  lemma {:induction false} AllUtf8(s: State, env: Env, updates: seq<Json>)
    requires Utf8Deltas(s.emitted) && forall update :: update in updates ==> WellFormed(update)
    ensures Utf8Deltas(ApplyAll(s, env, updates).emitted)
    decreases |updates|
  {
    hide Utf8Deltas, WellFormed, Apply;
    if updates != [] {
      assert updates[0] in updates && forall update :: update in updates[1..] ==> update in updates;
      ApplyUtf8(s, env, updates[0]);
      var (t, ok) := Apply(s, env, updates[0]);
      if ok { AllUtf8(t, env, updates[1..]); }
    }
  }

  lemma {:induction false} CutExists(events: seq<Event>)
    requires Utf8Deltas(events)
    ensures exists chunks :: Cut(events, chunks)
  {
    hide Utf8, Splits;
    if events == [] {
      assert Cut(events, []);
    } else {
      var n := |events| - 1;
      CutExists(events[..n]);
      var before :| Cut(events[..n], before);
      if events[n].AssistantDelta? { SplitsExist(events[n].delta); }
      var last :| events[n].AssistantDelta? ==> Splits(events[n].delta, last);
      assert forall k :: 0 <= k < n ==> events[..n][k] == events[k];
      assert Cut(events, before + [last]);
    }
  }

  /** No event before the last one was refused, and none at all if `ok`. */
  predicate TakenUpTo(env: Env, n: nat, ok: bool) {
    forall i :: 0 <= i < (if ok then n else n - 1) ==> !env.refuses(i)
  }

  lemma EmitTaken(s: State, env: Env, event: Event)
    requires TakenUpTo(env, |s.emitted|, true)
    ensures var (t, ok) := Emit(s, env, event);
            && |t.emitted| == |s.emitted| + 1
            && TakenUpTo(env, |t.emitted|, ok) && (!ok ==> env.refuses(|t.emitted| - 1))
  {
  }

  /** What one attempt to emit leaves, given how many events there are then. */
  predicate TakenSoFar(env: Env, t: State, ok: bool) {
    TakenUpTo(env, |t.emitted|, ok) && (!ok ==> |t.emitted| > 0 && env.refuses(|t.emitted| - 1))
  }

  lemma MessageTaken(s: State, env: Env, update: Json)
    requires TakenUpTo(env, |s.emitted|, true)
    ensures TakenSoFar(env, ApplyMessage(s, env, update).0, ApplyMessage(s, env, update).1)
  {
    hide ContentText, Kind, MessageId, Key, Breaks, TakenUpTo, Emit;
    if Kind(update, "agent_message_chunk") && ContentText(update).Some? {
      var text, id := ContentText(update).value, MessageId(update);
      EmitTaken(s.(answer := s.answer + BREAK), env, AssistantDelta(NextKey(s), BREAK, id, env.bound(update)));
      var (t, ok) := if Breaks(s, id) then AddText(s, env, BREAK, id, env.bound(update)) else (s, true);
      if ok {
        var u := t.(boundary := false, messageId := if id.Some? then id else t.messageId);
        EmitTaken(u.(answer := u.answer + text), env, AssistantDelta(NextKey(u), text, id, env.bound(update)));
      }
    }
  }

  lemma ApplyTaken(s: State, env: Env, update: Json)
    requires TakenUpTo(env, |s.emitted|, true)
    ensures TakenSoFar(env, Apply(s, env, update).0, Apply(s, env, update).1)
  {
    hide ContentText, Kind, MessageId, NonEmpty, Advanced, Title, Key, Breaks, ApplyMessage, ApplyTool, TakenUpTo, Emit;
    if Kind(update, "agent_message_chunk") {
      MessageTaken(s, env, update);
    } else if Kind(update, "agent_thought_chunk") {
      if ContentText(update).Some? {
        EmitTaken(s, env, ReasoningDelta(NextKey(s), ContentText(update).value, MessageId(update), env.bound(update)));
      }
    } else if Kind(update, "tool_call") || Kind(update, "tool_call_update") {
      ToolTaken(s, env, update);
    } else if Kind(update, "permission_request") {
      EmitTaken(s, env, ProviderState(NextKey(s), env.bound(update)));
    }
  }

  lemma ToolTaken(s: State, env: Env, update: Json)
    requires TakenUpTo(env, |s.emitted|, true)
    ensures TakenSoFar(env, ApplyTool(s, env, update).0, ApplyTool(s, env, update).1)
  {
    hide NonEmpty, Advanced, Title, Key, TakenUpTo, Emit;
    var t := s.(boundary := true);
    match NonEmpty(env, update, "toolCallId")
    case None => EmitTaken(t, env, ProviderState(NextKey(t), env.bound(update)));
    case Some(id) =>
      var tool := Advanced(env, if id in t.tools then t.tools[id] else NEW_TOOL, update);
      EmitTaken(t.(tools := t.tools[id := tool]), env,
                ToolActivity(NextKey(t), id, Title(tool), tool.kind, tool.status, tool.input));
  }

  lemma {:induction false} AllTaken(s: State, env: Env, updates: seq<Json>)
    requires TakenUpTo(env, |s.emitted|, true)
    ensures var n := |ApplyAll(s, env, updates).emitted|;
            TakenUpTo(env, n, true) || (n > 0 && TakenUpTo(env, n, false) && env.refuses(n - 1))
    decreases |updates|
  {
    hide Apply, TakenUpTo;
    if updates != [] {
      ApplyTaken(s, env, updates[0]);
      var (t, ok) := Apply(s, env, updates[0]);
      if ok { AllTaken(t, env, updates[1..]); }
    }
  }

  /** The events that the sink took. */
  function Taken(env: Env, events: seq<Event>): seq<Event> {
    if events == [] then []
    else
      var n := |events| - 1;
      Taken(env, events[..n]) + if env.refuses(n) then [] else [events[n]]
  }

  lemma {:induction false} TakenAll(env: Env, events: seq<Event>)
    requires TakenUpTo(env, |events|, true)
    ensures Taken(env, events) == events
  {
    if events != [] {
      TakenAll(env, events[..|events| - 1]);
    }
  }

  /** The text of an event that the sink refused, which then was the last one. */
  function RefusedText(env: Env, events: seq<Event>): Text {
    if events != [] && env.refuses(|events| - 1) then DeltaOf(events[|events| - 1]) else []
  }

  /** From the updates of a turn to what the Hub receives: the deltas can always be cut, the text the Hub gets
      of the events that the sink took is the answer byte by byte, and only a last event that was refused and
      ended the turn is missing from it. */
  lemma HubReceivesTheAnswer(prefix: string, env: Env, updates: seq<Json>)
    requires forall update :: update in updates ==> WellFormed(update)
    ensures var s := ApplyAll(Fresh(prefix), env, updates);
            var taken := Taken(env, s.emitted);
            && (taken == s.emitted || (s.emitted != [] && taken == s.emitted[..|s.emitted| - 1]))
            && (exists chunks :: Cut(taken, chunks))
            && forall chunks :: Cut(taken, chunks) ==>
                 s.answer == ForwardedText(Forward(taken, chunks)) + RefusedText(env, s.emitted)
  {
    hide Apply, Key, ApplyAll, WellFormed, Utf8, Splits, Deltas, ForwardedText, Forward, RefusedText;
    var s := ApplyAll(Fresh(prefix), env, updates);
    AnswerIsEmitted(prefix, env, updates);
    AllUtf8(Fresh(prefix), env, updates);
    AllTaken(Fresh(prefix), env, updates);
    assert TakenUpTo(env, 0, true);
    TakenMeans(env, s.emitted);
    var taken := Taken(env, s.emitted);
    CutExists(taken);
    forall chunks | Cut(taken, chunks)
      ensures s.answer == ForwardedText(Forward(taken, chunks)) + RefusedText(env, s.emitted)
    {
      ForwardConserves(taken, chunks);
    }
  }

  /** A sink that fails in the middle of an event may have passed on some of its chunks: whatever has arrived
      by then is a prefix of the answer. */
  lemma ArrivedIsPrefix(prefix: string, env: Env, updates: seq<Json>, chunks: seq<seq<Text>>, k: nat)
    requires var s := ApplyAll(Fresh(prefix), env, updates);
             Cut(s.emitted, chunks) && k <= |Forward(s.emitted, chunks)|
    ensures var s := ApplyAll(Fresh(prefix), env, updates);
            ForwardedText(Forward(s.emitted, chunks)[..k]) <= s.answer
  {
    hide Apply, Key, ApplyAll, Splits, Deltas, ForwardedText, Forward;
    var s := ApplyAll(Fresh(prefix), env, updates);
    AnswerIsEmitted(prefix, env, updates);
    ForwardConserves(s.emitted, chunks);
    var out := Forward(s.emitted, chunks);
    ForwardedAppend(out[..k], out[k..]);
    assert out[..k] + out[k..] == out;
  }

  lemma TakenMeans(env: Env, events: seq<Event>)
    requires TakenUpTo(env, |events|, true) || (events != [] && TakenUpTo(env, |events|, false) && env.refuses(|events| - 1))
    ensures Taken(env, events) == events || (events != [] && Taken(env, events) == events[..|events| - 1])
    ensures Deltas(Taken(env, events)) + RefusedText(env, events) == Deltas(events)
  {
    if TakenUpTo(env, |events|, true) {
      TakenAll(env, events);
    } else {
      TakenAll(env, events[..|events| - 1]);
      assert Taken(env, events) == events[..|events| - 1];
    }
  }

  // ---------------------------------------------------------------- distinct keys

  predicate Digits(s: string) {
    forall i :: 0 <= i < |s| ==> '0' <= s[i] <= '9'
  }

  lemma {:induction false} DecimalMeans(n: nat)
    ensures Digits(Decimal(n)) && |Decimal(n)| > 0
    ensures n >= 10 ==> |Decimal(n)| > 1
  {
    if n >= 10 { DecimalMeans(n / 10); }
  }

  lemma {:induction false} DecimalInjective(m: nat, n: nat)
    requires Decimal(m) == Decimal(n)
    ensures m == n
  {
    DecimalMeans(m);
    DecimalMeans(n);
    if m >= 10 {
      var a, b := Decimal(m), Decimal(n);
      assert a[..|a| - 1] == Decimal(m / 10) && b[..|b| - 1] == Decimal(n / 10);
      assert a[|a| - 1] == Digit(m % 10) && b[|b| - 1] == Digit(n % 10);
      DecimalInjective(m / 10, n / 10);
    }
  }

  /** What may follow the number of an event in a forwarded key. */
  predicate Suffix(s: string) {
    s == "" || s[0] == ':'
  }

  lemma NumberThenSuffix(a: string, x: string, b: string, y: string)
    requires Digits(a) && Digits(b) && Suffix(x) && Suffix(y) && a + x == b + y
    ensures a == b && x == y
  {
    var s, t := a + x, b + y;
    assert forall i :: 0 <= i < |a| ==> s[i] == a[i];
    assert forall i :: 0 <= i < |b| ==> t[i] == b[i];
    assert (x != "" ==> s[|a|] == ':') && (y != "" ==> t[|b|] == ':');
    assert |a| == |b|;
    assert (a + x)[..|a|] == a && (b + y)[..|b|] == b;
    assert (a + x)[|a|..] == x && (b + y)[|b|..] == y;
  }

  /** A forwarded key determines the event's number and what follows it. */
  lemma KeyParts(prefix: string, m: nat, x: string, n: nat, y: string)
    requires Suffix(x) && Suffix(y) && Key(prefix, m) + x == Key(prefix, n) + y
    ensures m == n && x == y
  {
    DecimalMeans(m);
    DecimalMeans(n);
    var head := prefix + ":update:";
    assert Key(prefix, m) + x == head + (Decimal(m) + x) && Key(prefix, n) + y == head + (Decimal(n) + y);
    assert (head + (Decimal(m) + x))[|head|..] == Decimal(m) + x;
    assert (head + (Decimal(n) + y))[|head|..] == Decimal(n) + y;
    NumberThenSuffix(Decimal(m), x, Decimal(n), y);
    DecimalInjective(m, n);
  }

  predicate DistinctKeys(out: seq<Forwarded>) {
    forall i, j :: 0 <= i < j < |out| ==> out[i].key != out[j].key
  }

  /** The key is that of event `n`, possibly with an index behind it. */
  ghost predicate KeyOf(prefix: string, n: nat, key: string) {
    exists x :: Suffix(x) && key == Key(prefix, n) + x
  }

  ghost predicate Numbered(prefix: string, limit: nat, key: string) {
    exists n: nat :: 1 <= n <= limit && KeyOf(prefix, n, key)
  }

  lemma OneEventDistinct(prefix: string, n: nat, e: Event, chunks: seq<Text>)
    requires e.key == Key(prefix, n)
    ensures DistinctKeys(ForwardOne(e, chunks))
    ensures forall i :: 0 <= i < |ForwardOne(e, chunks)| ==> KeyOf(prefix, n, ForwardOne(e, chunks)[i].key)
  {
    hide Key, Decimal;
    var out := ForwardOne(e, chunks);
    if e.AssistantDelta? {
      forall i | 0 <= i < |out| ensures KeyOf(prefix, n, out[i].key) {
        assert Suffix(":" + Decimal(i)) && out[i].key == Key(prefix, n) + (":" + Decimal(i));
      }
      forall i, j | 0 <= i < j < |out| ensures out[i].key != out[j].key {
        if out[i].key == out[j].key {
          assert out[i].key == Key(prefix, n) + (":" + Decimal(i)) && out[j].key == Key(prefix, n) + (":" + Decimal(j));
          KeyParts(prefix, n, ":" + Decimal(i), n, ":" + Decimal(j));
          assert (":" + Decimal(i))[1..] == Decimal(i) && (":" + Decimal(j))[1..] == Decimal(j);
          DecimalInjective(i, j);
        }
      }
    } else {
      assert Suffix("") && out[0].key == Key(prefix, n) + "";
    }
  }

  /** No two events forwarded for a turn share a key, whatever the chunks. */
  lemma {:induction false} ForwardedKeysDistinct(prefix: string, events: seq<Event>, chunks: seq<seq<Text>>)
    requires |chunks| == |events| && forall n :: 0 <= n < |events| ==> events[n].key == Key(prefix, n + 1)
    ensures var out := Forward(events, chunks);
            && DistinctKeys(out)
            && forall i :: 0 <= i < |out| ==> Numbered(prefix, |events|, out[i].key)
  {
    hide Key, ForwardOne, KeyOf;
    if events != [] {
      var n := |events| - 1;
      var before, last := Forward(events[..n], chunks[..n]), ForwardOne(events[n], chunks[n]);
      ForwardedKeysDistinct(prefix, events[..n], chunks[..n]);
      OneEventDistinct(prefix, n + 1, events[n], chunks[n]);
      forall i, j | 0 <= i < |before| && 0 <= j < |last| ensures before[i].key != last[j].key {
        assert Numbered(prefix, n, before[i].key);
        var m: nat :| 1 <= m <= n && KeyOf(prefix, m, before[i].key);
        DifferentEvents(prefix, m, n + 1, before[i].key, last[j].key);
      }
      var out := before + last;
      forall i | 0 <= i < |out| ensures Numbered(prefix, |events|, out[i].key) {
        if i < |before| {
          assert Numbered(prefix, n, before[i].key);
          var m: nat :| 1 <= m <= n && KeyOf(prefix, m, before[i].key);
          assert KeyOf(prefix, m, out[i].key);
        } else {
          assert KeyOf(prefix, n + 1, out[i].key);
        }
      }
    }
  }

  lemma DifferentEvents(prefix: string, m: nat, n: nat, k: string, l: string)
    requires m != n && KeyOf(prefix, m, k) && KeyOf(prefix, n, l)
    ensures k != l
  {
    hide Key;
    var x :| Suffix(x) && k == Key(prefix, m) + x;
    var y :| Suffix(y) && l == Key(prefix, n) + y;
    if k == l { KeyParts(prefix, m, x, n, y); }
  }
}
