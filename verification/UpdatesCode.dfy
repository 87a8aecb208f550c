/** `UpdateState` over its mutable fields, and the forwarding of its events to the Hub. */
module UpdatesCode {
  import opened Wrappers
  import opened StreamDelta
  import opened JsonMerge
  import opened Updates

  class UpdateState {
    var answer: Text
    var boundary: bool
    var messageId: Option<Text>
    var tools: map<Text, Tool>
    var ordinal: nat
    var emitted: seq<Event>
    const prefix: string
    const env: Env

    constructor (turnId: string, env: Env)
      ensures View() == Fresh(turnId) && this.env == env && Inv(View())
    {
      answer, boundary, messageId, tools, ordinal, emitted := [], false, None, map[], 0, [];
      prefix, this.env := turnId, env;
    }

    function View(): State
      reads this
    {
      State(answer, boundary, messageId, tools, ordinal, prefix, emitted)
    }

    method EventKey() returns (key: string)
      modifies `ordinal
      ensures key == NextKey(old(View())) && ordinal == (old(ordinal) + 1) % U64
    {
      ordinal := (ordinal + 1) % U64;
      key := Key(prefix, ordinal);
    }

    method Send(event: Event) returns (ok: bool)
      modifies `emitted
      ensures emitted == old(emitted) + [event] && ok == !env.refuses(|old(emitted)|)
    {
      ok := !env.refuses(|emitted|);
      emitted := emitted + [event];
    }

    method Say(text: Text, id: Option<Text>, raw: Json) returns (ok: bool)
      modifies this
      ensures (View(), ok) == AddText(old(View()), env, text, id, raw)
    {
      answer := answer + text;
      var key := EventKey();
      ok := Send(AssistantDelta(key, text, id, raw));
    }

    method ApplyMessage(update: Json) returns (ok: bool)
      modifies this
      ensures (View(), ok) == Updates.ApplyMessage(old(View()), env, update)
    {
      hide Kind, ContentText, MessageId, Key;
      if !Kind(update, "agent_message_chunk") || ContentText(update).None? { return true; }
      var text, id := ContentText(update).value, MessageId(update);
      var changed := messageId.Some? && id.Some? && messageId.value != id.value;
      if (boundary || changed) && answer != [] {
        ok := Say(BREAK, id, env.bound(update));
        if !ok { return; }
      }
      boundary := false;
      if id.Some? { messageId := id; }
      ok := Say(text, id, env.bound(update));
    }

    /** One tool's state, updated field by field. */
    method AdvanceTool(known: Tool, update: Json) returns (tool: Tool)
      ensures tool == Advanced(env, known, update)
    {
      hide NonEmpty, Merged;
      tool := known;
      var title, kind, status := NonEmpty(env, update, "title"), NonEmpty(env, update, "kind"), NonEmpty(env, update, "status");
      if title.Some? { tool := tool.(title := title.value); }
      if kind.Some? { tool := tool.(kind := kind); }
      if status.Some? { tool := tool.(status := status); }
      var raw, output, locations := Field(update, "rawInput"), Field(update, "rawOutput"), Field(update, "locations");
      if raw.Some? {
        var merged := MergeJson(tool.input, env.bound(raw.value));
        tool := tool.(input := merged);
      }
      if (output.Some? || locations.Some?) && tool.input == Null { tool := tool.(input := Object(map[])); }
      if tool.input.Object? {
        var fields := tool.input.fields;
        if output.Some? { fields := fields["_mews_raw_output" := env.bound(output.value)]; }
        if locations.Some? { fields := fields["_mews_locations" := env.bound(locations.value)]; }
        tool := tool.(input := Object(fields));
      }
    }

    method ApplyTool(update: Json) returns (ok: bool)
      modifies this
      ensures (View(), ok) == Updates.ApplyTool(old(View()), env, update)
    {
      hide NonEmpty, Advanced, Key;
      boundary := true;
      var id := NonEmpty(env, update, "toolCallId");
      if id.None? {
        var key := EventKey();
        ok := Send(ProviderState(key, env.bound(update)));
        return;
      }
      var tool := AdvanceTool(if id.value in tools then tools[id.value] else NEW_TOOL, update);
      tools := tools[id.value := tool];
      var key := EventKey();
      ok := Send(ToolActivity(key, id.value, if tool.title == [] then Ascii("Tool call") else tool.title, tool.kind, tool.status, tool.input));
    }

    method Apply(update: Json) returns (ok: bool)
      modifies this
      ensures (View(), ok) == Updates.Apply(old(View()), env, update)
      ensures old(Inv(View())) ==> Inv(View())
    {
      hide Kind, ContentText, MessageId, Key, Inv;
      if Inv(View()) { ApplyKeeps(View(), env, update); }
      if Kind(update, "agent_message_chunk") {
        ok := ApplyMessage(update);
      } else if Kind(update, "agent_thought_chunk") {
        if ContentText(update).None? { return true; }
        var key := EventKey();
        ok := Send(ReasoningDelta(key, ContentText(update).value, MessageId(update), env.bound(update)));
      } else if Kind(update, "tool_call") || Kind(update, "tool_call_update") {
        ok := ApplyTool(update);
      } else if Kind(update, "permission_request") {
        var key := EventKey();
        ok := Send(ProviderState(key, env.bound(update)));
      } else {
        ok := true;
      }
    }
  }

  /** The events of a turn as the Hub gets them: nothing of the answer is lost, and under the keys of
      `UpdateState` every forwarded event has its own. */
  method ForwardEvents(prefix: string, events: seq<Event>) returns (out: seq<Forwarded>)
    requires forall e :: e in events && e.AssistantDelta? ==> Utf8(e.delta)
    requires forall n :: 0 <= n < |events| ==> events[n].key == Key(prefix, n + 1)
    ensures ForwardedText(out) == Deltas(events)
    ensures forall f :: f in out && f.Piece? ==> Chunk(f.delta)
    ensures DistinctKeys(out)
  {
    hide Utf8, Splits, Key, Deltas, ForwardedText, DistinctKeys;
    out := [];
    ghost var chunks: seq<seq<Text>> := [];
    for n := 0 to |events|
      invariant |chunks| == n && Cut(events[..n], chunks) && out == Forward(events[..n], chunks)
      invariant forall f :: f in out && f.Piece? ==> Chunk(f.delta)
    {
      var e := events[n];
      assert e in events;
      assert events[..n + 1][..n] == events[..n];
      var pieces: seq<Text> := [];
      if e.AssistantDelta? {
        pieces := SplitStreamDelta(e.delta);
        AreChunks(e.delta, pieces);
      }
      assert (chunks + [pieces])[..n] == chunks;
      chunks := chunks + [pieces];
      out := out + ForwardOne(e, pieces);
    }
    assert events[..|events|] == events;
    ForwardConserves(events, chunks);
    ForwardedKeysDistinct(prefix, events, chunks);
  }

  lemma AreChunks(text: Text, chunks: seq<Text>)
    requires Splits(text, chunks)
    ensures forall k :: 0 <= k < |chunks| ==> Chunk(chunks[k])
  {
  }
}
