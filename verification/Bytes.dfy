/** Byte strings, digests and the orders and encodings the protocol puts on them. */
module Bytes {
  type byte = b: int | 0 <= b < 256

  type Digest = d: seq<byte> | |d| == 32 witness seq(32, _ => 0)

  /** SHA-256, of which nothing is assumed but the length of its output. */
  type Hash = seq<byte> -> Digest

  /** Two given inputs that collide. With 32-byte digests some pair always does; finding one is the hard part. */
  predicate Collision(h: Hash, x: seq<byte>, y: seq<byte>) {
    x != y && h(x) == h(y)
  }

  /** Lexicographic comparison: negative, zero or positive. */
  function Compare(a: seq<byte>, b: seq<byte>): int {
    if a == [] && b == [] then 0
    else if a == [] then -1
    else if b == [] then 1
    else if a[0] < b[0] then -1
    else if a[0] > b[0] then 1
    else Compare(a[1..], b[1..])
  }

  lemma {:induction false} CompareAntisymmetric(a: seq<byte>, b: seq<byte>)
    ensures Compare(a, b) == -Compare(b, a)
    ensures Compare(a, b) == 0 <==> a == b
  {
    if a != [] && b != [] && a[0] == b[0] {
      CompareAntisymmetric(a[1..], b[1..]);
      assert a == [a[0]] + a[1..] && b == [b[0]] + b[1..];
    }
  }

  /** Of two strings of one length, the lower is lower in the first byte in which they differ. */
  lemma {:induction false} CompareIsLexicographic(a: seq<byte>, b: seq<byte>)
    requires |a| == |b|
    ensures Compare(a, b) <= 0 <==> a == b || exists k: nat | k < |a| :: a[..k] == b[..k] && a[k] < b[k]
  {
    if a != [] {
      assert a == [a[0]] + a[1..] && b == [b[0]] + b[1..];
      if a[0] < b[0] {
        assert a[..0] == b[..0];
      } else if a[0] == b[0] {
        CompareIsLexicographic(a[1..], b[1..]);
        forall k: nat | 0 < k < |a|
          ensures a[..k] == b[..k] && a[k] < b[k] <==> a[1..][..k - 1] == b[1..][..k - 1] && a[1..][k - 1] < b[1..][k - 1]
        {
          assert a[..k] == [a[0]] + a[1..][..k - 1] && b[..k] == [b[0]] + b[1..][..k - 1];
        }
        if k: nat :| k < |a[1..]| && a[1..][..k] == b[1..][..k] && a[1..][k] < b[1..][k] {
          assert a[..k + 1] == b[..k + 1] && a[k + 1] < b[k + 1];
        }
      } else {
        forall k: nat | 0 < k < |a|
          ensures a[..k] != b[..k]
        {
          assert a[..k][0] == a[0] && b[..k][0] == b[0];
        }
      }
    }
  }

  /** The bytes of an ASCII text. */
  predicate Spells(bytes: seq<byte>, text: string) {
    |bytes| == |text| && forall i | 0 <= i < |text| :: bytes[i] as int == text[i] as int
  }

  type uint16 = v: int | 0 <= v < 0x1_0000

  function FromBigEndian(hi: byte, lo: byte): uint16 {
    256 * hi + lo
  }

  lemma SamePrefixSplit(x: seq<byte>, y: seq<byte>, x': seq<byte>, y': seq<byte>)
    requires x + y == x' + y' && |x| == |x'|
    ensures x == x' && y == y'
  {
    assert x == (x + y)[..|x|] && x' == (x' + y')[..|x'|];
    assert y == (x + y)[|x|..] && y' == (x' + y')[|x'|..];
  }
}
