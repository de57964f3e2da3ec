// Byte strings, as Go's string and []byte, and 32-bit big-endian words.
module Bytes {
  newtype byte = x: int | 0 <= x < 256

  // A Go string is a byte string, so channel names and frames share one representation.
  type Frame = seq<byte>
  type Channel = seq<byte>

  const WILDCARD: Channel := [42]
  const UINT32_RANGE: int := 0x1_0000_0000

  datatype Option<+T> = None | Some(value: T)

  function Power256(n: nat): (p: int) ensures p > 0 {
    if n == 0 then 1 else 256 * Power256(n - 1)
  }

  lemma WordRange()
    ensures Power256(4) == UINT32_RANGE
  {
    assert Power256(2) == 0x1_0000;
  }

  // The last n big-endian digits of v.
  function Digits(v: nat, n: nat): (b: seq<byte>) ensures |b| == n {
    if n == 0 then [] else Digits(v / 256, n - 1) + [(v % 256) as byte]
  }

  function Value(b: seq<byte>): (v: nat) ensures v < Power256(|b|) {
    if b == [] then 0 else 256 * Value(b[..|b| - 1]) + b[|b| - 1] as nat
  }

  lemma {:induction false} ValueDigits(v: nat, n: nat)
    requires v < Power256(n)
    ensures Value(Digits(v, n)) == v
  {
    if n > 0 {
      ValueDigits(v / 256, n - 1);
      assert Digits(v, n)[..n - 1] == Digits(v / 256, n - 1);
    }
  }

  lemma {:induction false} DigitsValue(b: seq<byte>)
    ensures Digits(Value(b), |b|) == b
  {
    if b != [] {
      DigitsValue(b[..|b| - 1]);
    }
  }

  // binary.BigEndian.PutUint32
  function Put32(v: int): (b: seq<byte>)
    requires 0 <= v < UINT32_RANGE
    ensures |b| == 4
  {
    Digits(v, 4)
  }

  // binary.BigEndian.Uint32
  function Get32(b: seq<byte>): (v: int)
    requires |b| == 4
    ensures 0 <= v < UINT32_RANGE
  {
    WordRange();
    Value(b)
  }

  lemma Get32Put32(v: int)
    requires 0 <= v < UINT32_RANGE
    ensures Get32(Put32(v)) == v
  {
    WordRange();
    ValueDigits(v, 4);
  }

  lemma Put32Get32(b: seq<byte>)
    requires |b| == 4
    ensures Put32(Get32(b)) == b
  {
    DigitsValue(b);
  }

  // The bytes of several chunks, one after another.
  function Flat(chunks: seq<seq<byte>>): (s: seq<byte>) {
    if chunks == [] then [] else chunks[0] + Flat(chunks[1..])
  }

  lemma {:induction false} FlatAppend(a: seq<seq<byte>>, b: seq<seq<byte>>)
    ensures Flat(a + b) == Flat(a) + Flat(b)
  {
    if a == [] {
      assert a + b == b;
    } else {
      assert (a + b)[1..] == a[1..] + b;
      FlatAppend(a[1..], b);
    }
  }

  lemma CutAfter(a: seq<byte>, b: seq<byte>, cut: nat)
    requires |a| <= cut <= |a + b|
    ensures (a + b)[..cut] == a + b[..cut - |a|]
  {}

  lemma Associative(a: seq<byte>, b: seq<byte>, c: seq<byte>)
    ensures (a + b) + c == a + (b + c)
  {}
}
