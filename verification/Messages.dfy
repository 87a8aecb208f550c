/** The conversation sent to a model, and when it pairs its tool calls with their results. */
module Messages {
  import opened Wrappers

  datatype Role = User | Assistant | Tool

  type CallId = string

  datatype Content =
    | Text(text: string)
    | ToolCall(callId: CallId, tool: string, arguments: string, signature: Option<string>)
    | ToolResult(callId: CallId, tool: string, result: string, isError: bool, uncertain: bool)
    | ProviderState(provider: string, model: string, data: string)

  datatype Message = Message(role: Role, content: Content)

  /** One message read with the calls that still wait for a result; `None` once the order is broken. */
  function Read(open: Option<set<CallId>>, m: Message): Option<set<CallId>> {
    if open == None || (m.role == User && open.value != {}) then None
    else
      match m.content
      case ToolCall(id, _, _, _) => if id in open.value then None else Some(open.value + {id})
      case ToolResult(id, _, _, _, _) => if id in open.value then Some(open.value - {id}) else None
      case _ => open
  }

  function Scan(open: Option<set<CallId>>, messages: seq<Message>): Option<set<CallId>> {
    if messages == [] then open else Read(Scan(open, messages[..|messages| - 1]), messages[|messages| - 1])
  }

  /** Every call gets one later result, every result answers an open call, and no user message stands
      between a call and its result. */
  predicate Paired(messages: seq<Message>) {
    Scan(Some({}), messages) == Some({})
  }

  lemma {:induction false} ScanAppend(open: Option<set<CallId>>, a: seq<Message>, b: seq<Message>)
    ensures Scan(open, a + b) == Scan(Scan(open, a), b)
    decreases |b|
  {
    if b == [] {
      assert a + b == a;
    } else {
      assert (a + b)[..|a + b| - 1] == a + b[..|b| - 1];
      ScanAppend(open, a, b[..|b| - 1]);
    }
  }

  lemma {:induction false} BrokenStays(messages: seq<Message>)
    ensures Scan(None, messages) == None
  {
    if messages != [] { BrokenStays(messages[..|messages| - 1]); }
  }

  lemma ScanAt(open: Option<set<CallId>>, messages: seq<Message>, k: nat)
    requires k < |messages| && Scan(open, messages) != None
    ensures Scan(open, messages[..k]) != None
    ensures Scan(open, messages[..k + 1]) == Read(Scan(open, messages[..k]), messages[k]) && Scan(open, messages[..k + 1]) != None
    ensures Scan(open, messages) == Scan(Scan(open, messages[..k + 1]), messages[k + 1..])
  {
    assert messages == messages[..k + 1] + messages[k + 1..];
    ScanAppend(open, messages[..k + 1], messages[k + 1..]);
    BrokenStays(messages[k + 1..]);
    assert messages[..k + 1][..k] == messages[..k];
  }

  /** Cutting a paired history in front of a user message never splits a call from its result. */
  lemma TrimKeepsPairs(messages: seq<Message>, k: nat)
    requires Paired(messages) && k < |messages| && messages[k].role == User
    ensures Paired(messages[k..]) && Paired(messages[..k])
  {
    ScanAt(Some({}), messages, k);
    assert messages == messages[..k] + messages[k..];
    ScanAppend(Some({}), messages[..k], messages[k..]);
  }

  lemma JoinKeepsPairs(a: seq<Message>, b: seq<Message>)
    requires Paired(a) && Paired(b)
    ensures Paired(a + b)
  {
    ScanAppend(Some({}), a, b);
  }

  // ---------------------------------------------------------------- what pairing means

  predicate CallAt(messages: seq<Message>, i: nat, id: CallId) {
    i < |messages| && messages[i].content.ToolCall? && messages[i].content.callId == id
  }

  predicate ResultAt(messages: seq<Message>, j: nat, id: CallId) {
    j < |messages| && messages[j].content.ToolResult? && messages[j].content.callId == id
  }

  /** `j` answers `i`: nothing about the same call and no user message lies between them. */
  predicate Answers(messages: seq<Message>, i: nat, j: nat, id: CallId) {
    && i < j && CallAt(messages, i, id) && ResultAt(messages, j, id)
    && forall k :: i < k < j ==> !CallAt(messages, k, id) && !ResultAt(messages, k, id) && messages[k].role != User
  }

  /** The call at `i` is still open in front of `k`. */
  predicate OpenSince(messages: seq<Message>, i: nat, k: nat, id: CallId) {
    && i < k <= |messages| && CallAt(messages, i, id)
    && forall l :: i < l < k ==> !CallAt(messages, l, id) && !ResultAt(messages, l, id) && messages[l].role != User
  }

  lemma NothingOpenAtTheEnd(messages: seq<Message>)
    requires Paired(messages)
    ensures Scan(Some({}), messages[..|messages|]) == Some({})
  {
    assert messages[..|messages|] == messages;
  }

  lemma {:induction false} OpenIsAnswered(messages: seq<Message>, i: nat, k: nat, id: CallId)
    requires Paired(messages) && OpenSince(messages, i, k, id)
    requires Scan(Some({}), messages[..k]).Some? && id in Scan(Some({}), messages[..k]).value
    ensures exists j :: Answers(messages, i, j, id)
    decreases |messages| - k
  {
    NothingOpenAtTheEnd(messages);
    if k < |messages| {
      ScanAt(Some({}), messages, k);
      if ResultAt(messages, k, id) {
        assert Answers(messages, i, k, id);
      } else {
        OpenIsAnswered(messages, i, k + 1, id);
      }
    }
  }

  lemma {:induction false} OpenWasCalled(messages: seq<Message>, k: nat, id: CallId)
    requires k <= |messages| && Scan(Some({}), messages[..k]).Some? && id in Scan(Some({}), messages[..k]).value
    ensures exists i :: OpenSince(messages, i, k, id)
    decreases k
  {
    if k > 0 {
      assert messages[..k][..k - 1] == messages[..k - 1];
      if CallAt(messages, k - 1, id) {
        assert OpenSince(messages, k - 1, k, id);
      } else {
        OpenWasCalled(messages, k - 1, id);
        var i :| OpenSince(messages, i, k - 1, id);
        assert OpenSince(messages, i, k, id);
      }
    }
  }

  /** In a paired history every call is answered and every result answers a call. */
  lemma PairedMeans(messages: seq<Message>, id: CallId)
    requires Paired(messages)
    ensures forall i :: CallAt(messages, i, id) ==> exists j :: Answers(messages, i, j, id)
    ensures forall j :: ResultAt(messages, j, id) ==> exists i :: Answers(messages, i, j, id)
  {
    forall i: nat | CallAt(messages, i, id) ensures exists j :: Answers(messages, i, j, id) {
      ScanAt(Some({}), messages, i);
      OpenIsAnswered(messages, i, i + 1, id);
    }
    forall j: nat | ResultAt(messages, j, id) ensures exists i :: Answers(messages, i, j, id) {
      ScanAt(Some({}), messages, j);
      OpenWasCalled(messages, j, id);
      var i :| OpenSince(messages, i, j, id);
      assert Answers(messages, i, j, id);
    }
  }
}
