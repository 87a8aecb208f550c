/** Cutting an assistant delta into bounded chunks on UTF-8 boundaries (RFC 3629, section 3). */
module StreamDelta {
  newtype Byte = x: int | 0 <= x < 256

  type Text = seq<Byte>

  const MAX_DELTA_BYTES: nat := 32 * 1024

  predicate Tail(b: Byte) {
    0x80 <= b <= 0xBF
  }

  predicate Tails(t: Text, from: nat, to: nat) {
    to <= |t| && forall i :: from <= i < to ==> Tail(t[i])
  }

  /** The length of the UTF8-char at the front, by the grammar's four forms; 0 if there is none. */
  function CharLength(t: Text): (n: nat)
    ensures n <= 4 && n <= |t|
    ensures n > 0 ==> !Tail(t[0]) && Tails(t, 1, n)
  {
    if t == [] then 0
    else if t[0] <= 0x7F then 1
    else if 0xC2 <= t[0] <= 0xDF then if Tails(t, 1, 2) then 2 else 0
    else if 0xE0 <= t[0] <= 0xEF then
      if !Tails(t, 1, 3) || (t[0] == 0xE0 && t[1] < 0xA0) || (t[0] == 0xED && t[1] > 0x9F) then 0 else 3
    else if 0xF0 <= t[0] <= 0xF4 then
      if !Tails(t, 1, 4) || (t[0] == 0xF0 && t[1] < 0x90) || (t[0] == 0xF4 && t[1] > 0x8F) then 0 else 4
    else 0
  }

  predicate Utf8(t: Text) {
    t == [] || (CharLength(t) > 0 && Utf8(t[CharLength(t)..]))
  }

  /** `str::is_char_boundary`, which looks at one byte only. */
  predicate IsCharBoundary(t: Text, i: nat) {
    i == 0 || i == |t| || (i < |t| && !Tail(t[i]))
  }

  lemma CharLengthPrefix(t: Text, n: nat)
    requires CharLength(t) <= n <= |t|
    ensures CharLength(t) > 0 ==> CharLength(t[..n]) == CharLength(t)
  {
  }

  /** In well-formed text the one-byte test finds exactly the positions between characters. */
  lemma {:induction false} BoundaryMeans(t: Text, i: nat)
    requires Utf8(t) && i <= |t|
    ensures IsCharBoundary(t, i) <==> Utf8(t[..i]) && Utf8(t[i..])
    decreases |t|
  {
    hide CharLength;
    if i == 0 {
      assert t[..0] == [] && t[0..] == t;
    } else if i == |t| {
      assert t[..i] == t && t[i..] == [];
    } else {
      var n := CharLength(t);
      if i < n {
        assert Tail(t[i]);
        assert t[i..][0] == t[i];
      } else {
        BoundaryMeans(t[n..], i - n);
        CharLengthPrefix(t, i);
        assert t[n..][..i - n] == t[..i][n..] && t[n..][i - n..] == t[i..];
        assert i > n ==> t[n..][i - n] == t[i];
        if i == n {
          assert Utf8(t[..i]) by { assert t[..n][n..] == []; }
          if n < |t| { assert CharLength(t[n..]) > 0 && t[n..][0] == t[n]; }
        }
      }
    }
  }

  /** Among any four neighbouring positions inside well-formed text there is a boundary. */
  lemma {:induction false} BoundaryIsNear(t: Text, i: nat)
    requires Utf8(t) && 3 <= i <= |t|
    ensures IsCharBoundary(t, i) || IsCharBoundary(t, i - 1) || IsCharBoundary(t, i - 2) || IsCharBoundary(t, i - 3)
    decreases |t|
  {
    var n := CharLength(t);
    if i >= n + 3 {
      BoundaryIsNear(t[n..], i - n);
      assert forall k :: 0 <= k < |t| - n ==> t[n..][k] == t[n + k];
    } else if n <= i && n < |t| {
      assert CharLength(t[n..]) > 0 && t[n..][0] == t[n];
      assert IsCharBoundary(t, n);
    }
  }

  function Concat(chunks: seq<Text>): Text {
    if chunks == [] then [] else Concat(chunks[..|chunks| - 1]) + chunks[|chunks| - 1]
  }

  /** A piece that may be sent: not empty, bounded, and characters only. */
  predicate Chunk(t: Text) {
    0 < |t| <= MAX_DELTA_BYTES && Utf8(t)
  }

  /** What splitting promises: nothing lost, nothing cut, and no chunk but the last one shorter than
      necessary by more than three bytes. */
  predicate Splits(text: Text, chunks: seq<Text>) {
    && Concat(chunks) == text
    && (forall k :: 0 <= k < |chunks| ==> Chunk(chunks[k]))
    && (forall k :: 0 <= k < |chunks| - 1 ==> |chunks[k]| >= MAX_DELTA_BYTES - 3)
  }

  lemma ConcatSnoc(chunks: seq<Text>, t: Text)
    ensures Concat(chunks + [t]) == Concat(chunks) + t
  {
  }

  method SplitStreamDelta(text: Text) returns (chunks: seq<Text>)
    requires Utf8(text)
    ensures Splits(text, chunks)
  {
    hide Utf8, IsCharBoundary, Concat;
    chunks := [];
    var start := 0;
    EmptyText();
    assert text[..0] == [] && text[0..] == text;
    while start < |text|
      invariant start <= |text| && Concat(chunks) == text[..start] && Utf8(text[start..])
      invariant forall k :: 0 <= k < |chunks| ==> Chunk(chunks[k])
      invariant forall k :: 0 <= k < |chunks| - 1 ==> |chunks[k]| >= MAX_DELTA_BYTES - 3
      invariant start < |text| && chunks != [] ==> |chunks[|chunks| - 1]| >= MAX_DELTA_BYTES - 3
      decreases |text| - start
    {
      ghost var rest := text[start..];
      var limit := if start + MAX_DELTA_BYTES < |text| then start + MAX_DELTA_BYTES else |text|;
      var end := limit;
      if limit < |text| { BoundaryIsNear(rest, limit - start); }
      EndIsBoundary(rest, text, start, limit);
      while !IsCharBoundary(text, end)
        invariant start < end <= limit && limit - 3 <= end
        invariant limit == |text| ==> end == limit
        invariant limit < |text| ==>
          exists k :: limit - 3 <= k <= end && k > start && IsCharBoundary(text, k)
        decreases end
      {
        end := end - 1;
      }
      assert IsCharBoundary(rest, end - start) by { BoundaryWithin(text, start, end); }
      BoundaryMeans(rest, end - start);
      var chunk := text[start..end];
      assert rest[..end - start] == chunk && rest[end - start..] == text[end..];
      ConcatSnoc(chunks, chunk);
      assert text[..start] + chunk == text[..end];
      chunks := chunks + [chunk];
      start := end;
    }
    assert text[..start] == text;
  }

  lemma {:induction false} ConcatCons(t: Text, chunks: seq<Text>)
    ensures Concat([t] + chunks) == t + Concat(chunks)
  {
    if chunks == [] {
      assert [t] + chunks == [t] && [t][..0] == [] && t + [] == t;
    } else {
      var n := |chunks| - 1;
      ConcatCons(t, chunks[..n]);
      assert ([t] + chunks)[..n + 1] == [t] + chunks[..n];
    }
  }

  /** Every well-formed text can be cut. */
  lemma {:induction false} SplitsExist(text: Text)
    requires Utf8(text)
    ensures exists chunks :: Splits(text, chunks)
    decreases |text|
  {
    hide Utf8, Concat, IsCharBoundary;
    EmptyText();
    if text == [] {
      assert Splits(text, []);
    } else if |text| <= MAX_DELTA_BYTES {
      ConcatSnoc([], text);
      assert [] + [text] == [text] && [] + text == text;
      assert Splits(text, [text]);
    } else {
      var i := MAX_DELTA_BYTES;
      BoundaryIsNear(text, i);
      var cut: nat := if IsCharBoundary(text, i) then i else if IsCharBoundary(text, i - 1) then i - 1
                      else if IsCharBoundary(text, i - 2) then i - 2 else i - 3;
      BoundaryMeans(text, cut);
      SplitsExist(text[cut..]);
      var rest :| Splits(text[cut..], rest);
      SplitsCons(text, cut, rest);
    }
  }

  lemma SplitsCons(text: Text, cut: nat, rest: seq<Text>)
    requires cut <= |text| && Splits(text[cut..], rest) && Chunk(text[..cut]) && |text[..cut]| >= MAX_DELTA_BYTES - 3
    ensures Splits(text, [text[..cut]] + rest)
  {
    hide Utf8, Concat;
    ConcatCons(text[..cut], rest);
    assert text[..cut] + text[cut..] == text;
  }

  lemma EmptyText()
    ensures Concat([]) == [] && Utf8([])
  {
  }

  lemma BoundaryWithin(text: Text, start: nat, end: nat)
    requires start < end <= |text| && IsCharBoundary(text, end)
    ensures IsCharBoundary(text[start..], end - start)
  {
  }

  /** A boundary of the rest is one of the whole text. */
  lemma EndIsBoundary(rest: Text, text: Text, start: nat, limit: nat)
    requires start < limit <= |text| && rest == text[start..]
    requires limit < |text| ==> limit - start == MAX_DELTA_BYTES
    requires limit < |text| ==>
      var i := limit - start;
      IsCharBoundary(rest, i) || IsCharBoundary(rest, i - 1) || IsCharBoundary(rest, i - 2) || IsCharBoundary(rest, i - 3)
    ensures limit < |text| ==> exists k :: limit - 3 <= k <= limit && k > start && IsCharBoundary(text, k)
    ensures limit == |text| ==> IsCharBoundary(text, limit)
  {
    if limit < |text| {
      var i := limit - start;
      var back := if IsCharBoundary(rest, i) then 0 else if IsCharBoundary(rest, i - 1) then 1
                  else if IsCharBoundary(rest, i - 2) then 2 else 3;
      assert rest[i - back] == text[limit - back];
      assert IsCharBoundary(text, limit - back);
    }
  }
}
