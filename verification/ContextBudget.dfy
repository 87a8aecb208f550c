/** Trimming the history to a provider's input budget. */
module ContextBudget {
  import opened Wrappers
  import opened Messages

  datatype Fixed = Fixed(model: string, reasoning: Option<string>, system: string, tools: seq<string>)

  /** Serialized sizes; a message never serializes to nothing. */
  type MessageSize = f: Message -> nat | forall m :: f(m) > 0 witness (m => 1)

  type FixedSize = Fixed -> nat

  datatype Trimmed = Dropped(count: nat) | FixedTooLarge | LatestTooLarge

  const USIZE_MAX: nat := 0xFFFF_FFFF_FFFF_FFFF

  function SaturatingAdd(a: nat, b: nat): nat {
    if a + b > USIZE_MAX then USIZE_MAX else a + b
  }

  /** The part of the model name in front of the first slash, if there is one. */
  function Provider(model: string): Option<string>
    ensures Provider(model).Some? ==> Provider(model).value + "/" <= model && '/' !in Provider(model).value
    ensures Provider(model).None? ==> '/' !in model
  {
    if model == "" then None
    else if model[0] == '/' then Some("")
    else
      match Provider(model[1..])
      case None => None
      case Some(p) => Some([model[0]] + p)
  }

  function BudgetBytes(model: string): nat {
    if Provider(model) == Some("google") then 2 * 1024 * 1024
    else if Provider(model) == Some("anthropic") then 640 * 1024
    else if Provider(model) == Some("openai") || Provider(model) == Some("openai-codex") then 384 * 1024
    else 256 * 1024
  }

  function ArrayBytes(size: MessageSize, messages: seq<Message>): nat {
    if messages == [] then 2
    else
      var before := ArrayBytes(size, messages[..|messages| - 1]);
      SaturatingAdd(SaturatingAdd(before, if before > 2 then 1 else 0), size(messages[|messages| - 1]))
  }

  /** The array as JSON counts it: brackets, messages and the commas between them. */
  function JsonBytes(size: MessageSize, messages: seq<Message>): nat {
    2 + Sum(size, messages) + if messages == [] then 0 else |messages| - 1
  }

  function Sum(size: MessageSize, messages: seq<Message>): nat {
    if messages == [] then 0 else size(messages[0]) + Sum(size, messages[1..])
  }

  lemma {:induction false} SumSnoc(size: MessageSize, messages: seq<Message>, m: Message)
    ensures Sum(size, messages + [m]) == Sum(size, messages) + size(m)
  {
    if messages == [] {
      assert [m][1..] == [];
    } else {
      SumSnoc(size, messages[1..], m);
      assert (messages + [m])[1..] == messages[1..] + [m];
    }
  }

  lemma EmptyBytes(size: MessageSize)
    ensures ArrayBytes(size, []) == 2
  {
  }

  /** The running fold is the size of the JSON array, up to saturation. */
  lemma {:induction false} ArrayBytesMeans(size: MessageSize, messages: seq<Message>)
    ensures ArrayBytes(size, messages) == SaturatingAdd(0, JsonBytes(size, messages))
    ensures messages != [] ==> ArrayBytes(size, messages) > 2
  {
    if messages != [] {
      var front, last := messages[..|messages| - 1], messages[|messages| - 1];
      ArrayBytesMeans(size, front);
      SumSnoc(size, front, last);
      assert messages == front + [last];
    }
  }

  /** The size of a suffix, one message longer at its front. */
  lemma SuffixGrows(size: MessageSize, messages: seq<Message>, i: nat)
    requires i < |messages|
    ensures ArrayBytes(size, messages[i..])
            == SaturatingAdd(SaturatingAdd(ArrayBytes(size, messages[i + 1..]), if ArrayBytes(size, messages[i + 1..]) > 2 then 1 else 0), size(messages[i]))
    ensures ArrayBytes(size, messages[i + 1..]) <= ArrayBytes(size, messages[i..])
  {
    ArrayBytesMeans(size, messages[i..]);
    ArrayBytesMeans(size, messages[i + 1..]);
    assert messages[i..][1..] == messages[i + 1..];
  }

  lemma {:induction false} SuffixesShrink(size: MessageSize, messages: seq<Message>, i: nat, j: nat)
    requires i <= j <= |messages|
    ensures ArrayBytes(size, messages[j..]) <= ArrayBytes(size, messages[i..])
    decreases j - i
  {
    if i < j {
      SuffixGrows(size, messages, i);
      SuffixesShrink(size, messages, i + 1, j);
    }
  }

  /** A user-led suffix that fits. */
  predicate Fits(size: MessageSize, messages: seq<Message>, available: nat, i: nat) {
    i < |messages| && messages[i].role == User && ArrayBytes(size, messages[i..]) <= available
  }

  /** The declarative result of trimming: unchanged if it fits, else the longest user-led suffix that does,
      and an error exactly when there is none. */
  ghost predicate Budgeted(size: MessageSize, fixedBytes: nat, limit: nat, before: seq<Message>, after: seq<Message>, r: Trimmed) {
    if fixedBytes > limit then r == FixedTooLarge && after == before
    else
      var available := limit - fixedBytes;
      match r
      case FixedTooLarge => false
      case LatestTooLarge =>
        after == before && ArrayBytes(size, before) > available && forall i :: !Fits(size, before, available, i)
      case Dropped(n) =>
        && n <= |before| && after == before[n..]
        && if ArrayBytes(size, before) <= available then n == 0
           else Fits(size, before, available, n) && forall i: nat :: i < n ==> !Fits(size, before, available, i)
  }

  /** The first user-led suffix that fits, looking from `i` on. */
  function FirstFit(size: MessageSize, messages: seq<Message>, available: nat, i: nat): (r: Option<nat>)
    ensures r.Some? ==> i <= r.value && Fits(size, messages, available, r.value)
    ensures forall j :: i <= j < (if r.Some? then r.value else |messages|) ==> !Fits(size, messages, available, j)
    decreases |messages| - i
  {
    if i >= |messages| then None
    else if Fits(size, messages, available, i) then Some(i)
    else FirstFit(size, messages, available, i + 1)
  }

  /** The same result searched for from the front, suffix by suffix. */
  function Trim(size: MessageSize, fixedBytes: nat, limit: nat, messages: seq<Message>): (r: (seq<Message>, Trimmed))
    ensures Budgeted(size, fixedBytes, limit, messages, r.0, r.1)
  {
    if fixedBytes > limit then (messages, FixedTooLarge)
    else if ArrayBytes(size, messages) <= limit - fixedBytes then
      assert messages[0..] == messages;
      (messages, Dropped(0))
    else
      match FirstFit(size, messages, limit - fixedBytes, 0)
      case None => (messages, LatestTooLarge)
      case Some(i) => (messages[i..], Dropped(i))
  }

  /** There is only one such result. */
  lemma BudgetedIsUnique(size: MessageSize, fixedBytes: nat, limit: nat, before: seq<Message>,
                         after: seq<Message>, r: Trimmed, other: seq<Message>, s: Trimmed)
    requires Budgeted(size, fixedBytes, limit, before, after, r) && Budgeted(size, fixedBytes, limit, before, other, s)
    ensures after == other && r == s
  {
  }

  /** What is left fits into the budget together with the fixed part, and trimming it again drops nothing. */
  lemma BudgetedFits(size: MessageSize, fixedBytes: nat, limit: nat, before: seq<Message>, after: seq<Message>, n: nat)
    requires Budgeted(size, fixedBytes, limit, before, after, Dropped(n)) && limit < USIZE_MAX
    ensures fixedBytes + JsonBytes(size, after) <= limit
    ensures Budgeted(size, fixedBytes, limit, after, after, Dropped(0))
  {
    ArrayBytesMeans(size, after);
    assert before[0..] == before && after[0..] == after;
  }

  /** Trimming keeps a paired history paired. */
  lemma BudgetedKeepsPairs(size: MessageSize, fixedBytes: nat, limit: nat, before: seq<Message>, after: seq<Message>, r: Trimmed)
    requires Budgeted(size, fixedBytes, limit, before, after, r) && Paired(before)
    ensures Paired(after)
  {
    if r.Dropped? {
      if r.count == 0 {
        assert before[0..] == before;
      } else if fixedBytes <= limit && ArrayBytes(size, before) > limit - fixedBytes {
        TrimKeepsPairs(before, r.count);
      }
    }
  }

  /** An empty history is refused exactly if the fixed part leaves no room for the two brackets. */
  lemma EmptyHistoryFailsExactly(size: MessageSize, fixedBytes: nat, limit: nat)
    ensures Budgeted(size, fixedBytes, limit, [], [], LatestTooLarge) <==> fixedBytes <= limit < fixedBytes + 2
  {
    assert forall i :: !Fits(size, [], limit, i);
  }

  class ModelRequest {
    var fixed: Fixed
    var messages: seq<Message>

    constructor (fixed: Fixed, messages: seq<Message>)
      ensures this.fixed == fixed && this.messages == messages
    {
      this.fixed, this.messages := fixed, messages;
    }

    method MessageArrayBytes(size: MessageSize) returns (bytes: nat)
      ensures bytes == ArrayBytes(size, messages)
    {
      bytes := 2;
      for i := 0 to |messages|
        invariant bytes == ArrayBytes(size, messages[..i])
      {
        assert messages[..i + 1][..i] == messages[..i];
        var separator := if bytes > 2 then 1 else 0;
        bytes := SaturatingAdd(SaturatingAdd(bytes, separator), size(messages[i]));
      }
      assert messages[..|messages|] == messages;
    }

    /** Drops the oldest messages in place. */
    method ApplyContextBudget(size: MessageSize, fixedSize: FixedSize) returns (r: Trimmed)
      modifies `messages
      ensures Budgeted(size, fixedSize(fixed), BudgetBytes(fixed.model), old(messages), messages, r)
      ensures (messages, r) == Trim(size, fixedSize(fixed), BudgetBytes(fixed.model), old(messages))
      ensures old(Paired(messages)) ==> Paired(messages)
    {
      hide BudgetBytes, Paired, ArrayBytes;
      ghost var was := messages;
      var limit := BudgetBytes(fixed.model);
      var fixedBytes := fixedSize(fixed);
      if fixedBytes > limit { return FixedTooLarge; }
      var available := limit - fixedBytes;
      var current := MessageArrayBytes(size);
      if current <= available {
        assert was[0..] == was;
        return Dropped(0);
      }
      var suffix := 2;
      var retained: Option<nat> := None;
      var i := |messages|;
      EmptyBytes(size);
      assert messages[i..] == [];
      while i > 0
        invariant 0 <= i <= |messages| && messages == was
        invariant suffix == ArrayBytes(size, messages[i..])
        invariant i < |messages| ==> suffix <= available
        invariant retained.Some? ==> i <= retained.value && Fits(size, messages, available, retained.value)
        invariant forall j :: i <= j < (if retained.Some? then retained.value else |messages|) ==> !Fits(size, messages, available, j)
      {
        SuffixGrows(size, messages, i - 1);
        if suffix > 2 { suffix := SaturatingAdd(suffix, 1); }
        suffix := SaturatingAdd(suffix, size(messages[i - 1]));
        if suffix > available { break; }
        i := i - 1;
        if messages[i].role == User { retained := Some(i); }
      }
      forall j | 0 <= j < i ensures !Fits(size, messages, available, j) {
        SuffixesShrink(size, messages, j, i - 1);
      }
      if retained.Some? {
        messages := messages[retained.value..];
        r := Dropped(retained.value);
      } else {
        r := LatestTooLarge;
      }
      ghost var trimmed := Trim(size, fixedBytes, limit, was);
      BudgetedIsUnique(size, fixedBytes, limit, was, messages, r, trimmed.0, trimmed.1);
      if Paired(was) { BudgetedKeepsPairs(size, fixedBytes, limit, was, messages, r); }
    }
  }
}
