/** The idempotency key of a Channel turn: the bytes that are hashed, and why they name one message. */
module TurnKeys {
  newtype byte = x: int | 0 <= x < 256

  const USIZE_LIMIT: nat := 0x1_0000_0000_0000_0000

  /** A string as its UTF-8 bytes; its length fits the machine word it is hashed with. */
  type Text = s: seq<byte> | |s| < USIZE_LIMIT

  const WORD_BYTES: nat := 8

  function Pow256(k: nat): (p: nat)
    ensures p > 0
  {
    if k == 0 then 1 else 256 * Pow256(k - 1)
  }

  /** `usize::to_be_bytes`, for a word of `k` bytes. */
  function BigEndian(n: nat, k: nat): (r: seq<byte>)
    requires n < Pow256(k)
    ensures |r| == k
  {
    if k == 0 then [] else BigEndian(n / 256, k - 1) + [(n % 256) as byte]
  }

  /** Reads a big-endian word. */
  function Value(bytes: seq<byte>): nat {
    if bytes == [] then 0 else 256 * Value(bytes[..|bytes| - 1]) + bytes[|bytes| - 1] as nat
  }

  lemma {:induction false} BigEndianRoundTrip(n: nat, k: nat)
    requires n < Pow256(k)
    ensures Value(BigEndian(n, k)) == n
  {
    if k > 0 {
      var r := BigEndian(n, k);
      assert r[..k - 1] == BigEndian(n / 256, k - 1);
      BigEndianRoundTrip(n / 256, k - 1);
    }
  }

  lemma WordHolds(n: nat)
    requires n < USIZE_LIMIT
    ensures n < Pow256(WORD_BYTES)
  {
  }

  /** One hashed value: its length in eight big-endian bytes, then its bytes. */
  function Framed(value: Text): seq<byte> {
    WordHolds(|value|);
    BigEndian(|value|, WORD_BYTES) + value
  }

  /** What is hashed for one message of one conversation. */
  function KeyBytes(consumer: Text, conversation: Text, externalId: Text): seq<byte> {
    Framed(consumer) + Framed(conversation) + Framed(externalId)
  }

  /** Framed values are a prefix code: what follows one does not blur where it ends. */
  lemma FramedPrefix(a: Text, b: Text, x: seq<byte>, y: seq<byte>)
    requires Framed(a) + x == Framed(b) + y
    ensures a == b && x == y
  {
    WordHolds(|a|);
    WordHolds(|b|);
    var s := Framed(a) + x;
    assert s[..WORD_BYTES] == BigEndian(|a|, WORD_BYTES);
    assert s[..WORD_BYTES] == BigEndian(|b|, WORD_BYTES) by {
      assert s == Framed(b) + y;
    }
    BigEndianRoundTrip(|a|, WORD_BYTES);
    BigEndianRoundTrip(|b|, WORD_BYTES);
    var n := WORD_BYTES + |a|;
    assert a == s[WORD_BYTES..n];
    assert b == (Framed(b) + y)[WORD_BYTES..n];
    assert x == s[n..];
    assert y == (Framed(b) + y)[n..];
  }

  /** Different messages never hash the same bytes, whatever their identifiers contain. */
  lemma KeysInjective(consumer: Text, conversation: Text, externalId: Text,
                      consumer': Text, conversation': Text, externalId': Text)
    requires KeyBytes(consumer, conversation, externalId) == KeyBytes(consumer', conversation', externalId')
    ensures consumer == consumer' && conversation == conversation' && externalId == externalId'
  {
    var rest, rest' := Framed(conversation) + Framed(externalId), Framed(conversation') + Framed(externalId');
    assert KeyBytes(consumer, conversation, externalId) == Framed(consumer) + rest;
    assert KeyBytes(consumer', conversation', externalId') == Framed(consumer') + rest';
    FramedPrefix(consumer, consumer', rest, rest');
    FramedPrefix(conversation, conversation', Framed(externalId), Framed(externalId'));
    assert Framed(externalId) + [] == Framed(externalId') + [];
    FramedPrefix(externalId, externalId', [], []);
  }
}
