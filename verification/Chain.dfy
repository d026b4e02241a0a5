/** The hash chain: each head is the digest of the previous head, the data and the position. */
module Chain {
  import opened Bytes
  import opened MachineInts

  /** `n >> (8 * i)` */
  function Shifted(n: nat, i: nat): nat {
    if i == 0 then n else Shifted(n, i - 1) / 256
  }

  /** The eight bytes of a 64-bit number, lowest first. */
  function LittleEndian(n: nat): seq<byte> {
    seq(8, i requires 0 <= i < 8 => Shifted(n, i) % 256)
  }

  lemma {:induction false} ShiftedBelow(n: nat, i: nat, bound: nat)
    requires n < Pow256(i) * bound && bound > 0
    ensures Shifted(n, i) < bound
  {
    if i > 0 {
      assert Pow256(i) * bound == Pow256(i - 1) * (256 * bound);
      ShiftedBelow(n, i - 1, 256 * bound);
    }
  }

  function Pow256(i: nat): nat {
    if i == 0 then 1 else 256 * Pow256(i - 1)
  }

  /** The number written by bytes, lowest first. */
  function NumberOf(bytes: seq<byte>): nat {
    if bytes == [] then 0 else bytes[0] + 256 * NumberOf(bytes[1..])
  }

  lemma {:induction false} NumberOfTail(n: nat, i: nat)
    requires i <= 8 && n < TWO_64
    ensures NumberOf(LittleEndian(n)[i..]) == Shifted(n, i)
    decreases 8 - i
  {
    var bytes := LittleEndian(n);
    if i == 8 {
      assert Pow256(8) == TWO_64 by {
        assert Pow256(4) == 0x1_0000_0000;
      }
      ShiftedBelow(n, 8, 1);
    } else {
      NumberOfTail(n, i + 1);
      assert bytes[i..][0] == Shifted(n, i) % 256 && bytes[i..][1..] == bytes[i + 1..];
      assert Shifted(n, i + 1) == Shifted(n, i) / 256;
    }
  }

  /** Lowest byte first: the first byte is what is left over by 256, the others are those of the quotient. */
  lemma LowestFirst(n: nat, i: nat)
    requires i < 7
    ensures LittleEndian(n)[0] == n % 256 && LittleEndian(n)[i + 1] == LittleEndian(n / 256)[i]
  {
    ShiftedOnce(n, i);
  }

  lemma {:induction false} ShiftedOnce(n: nat, i: nat)
    ensures Shifted(n, i + 1) == Shifted(n / 256, i)
  {
    if i > 0 {
      ShiftedOnce(n, i - 1);
    } else {
      assert Shifted(n, 0) == n;
    }
  }

  /** The eight bytes spell the number. */
  lemma LittleEndianReadsBack(n: nat)
    requires n < TWO_64
    ensures NumberOf(LittleEndian(n)) == n
  {
    NumberOfTail(n, 0);
    assert LittleEndian(n)[0..] == LittleEndian(n);
  }

  /** What is hashed when `data` is added to `history`. */
  function Input(h: Hash, history: seq<seq<byte>>, data: seq<byte>): seq<byte>
    decreases |history|, 1
  {
    Head(h, history) + data + LittleEndian(|history| % TWO_64)
  }

  /** The current hash after `history`. */
  function Head(h: Hash, history: seq<seq<byte>>): seq<byte>
    decreases |history|, 0
  {
    if history == [] then []
    else
      var k := |history| - 1;
      h(Input(h, history[..k], history[k]))
  }

  /** A head is the digest of the head before it, the data, and the eight bytes of the position, in this order. */
  lemma HeadOutright(h: Hash, history: seq<seq<byte>>, data: seq<byte>)
    ensures Head(h, []) == []
    ensures Head(h, history + [data]) == h(Head(h, history) + data + LittleEndian(|history| % 0x1_0000_0000_0000_0000))
  {
    hide LittleEndian;
    assert (history + [data])[..|history|] == history;
  }

  function HexDigit(n: nat): char
    requires n < 16
  {
    "0123456789abcdef"[n]
  }

  /** Two lower-case digits a byte. */
  function Hex(b: seq<byte>): string {
    if b == [] then "" else [HexDigit(b[0] / 16), HexDigit(b[0] % 16)] + Hex(b[1..])
  }

  lemma HexDigitInjective(n: nat, m: nat)
    requires n < 16 && m < 16 && HexDigit(n) == HexDigit(m)
    ensures n == m
  {
  }

  lemma {:induction false} HexInjective(a: seq<byte>, b: seq<byte>)
    requires Hex(a) == Hex(b)
    ensures a == b
  {
    if a != [] && b != [] {
      var x, y := Hex(a), Hex(b);
      assert x[0] == y[0] && x[1] == y[1] && x[2..] == y[2..];
      assert x[2..] == Hex(a[1..]) && y[2..] == Hex(b[1..]);
      HexDigitInjective(a[0] / 16, b[0] / 16);
      HexDigitInjective(a[0] % 16, b[0] % 16);
      HexInjective(a[1..], b[1..]);
      assert a == [a[0]] + a[1..] && b == [b[0]] + b[1..];
    }
  }

  class HashChain {
    const h: Hash
    var previousHash: seq<byte>
    var sequence: nat
    ghost var history: seq<seq<byte>>

    ghost predicate Valid()
      reads this
    {
      previousHash == Head(h, history) && sequence == |history| % TWO_64
    }

    constructor (h: Hash)
      ensures Valid() && history == [] && this.h == h
    {
      this.h := h;
      previousHash := [];
      sequence := 0;
      history := [];
    }

    static method SequenceBytes(sequence: nat) returns (bytes: seq<byte>)
      ensures bytes == LittleEndian(sequence)
    {
      var sequenceBytes: array<byte> := new byte[8](_ => 0);
      for i := 0 to 8
        invariant forall k | 0 <= k < i :: sequenceBytes[k] == Shifted(sequence, k) % 256
      {
        sequenceBytes[i] := Shifted(sequence, i) % 256;
      }
      assert sequenceBytes[..] == LittleEndian(sequence);
      bytes := sequenceBytes[..];
    }

    /** Adds `data` and returns the new head. */
    method NextHash(data: seq<byte>) returns (hash: seq<byte>)
      requires Valid()
      modifies this
      ensures Valid() && history == old(history) + [data]
      ensures hash == Head(h, history) == previousHash
    {
      var sequenceBytes := SequenceBytes(sequence);
      var hashInput := previousHash + data + sequenceBytes;
      hash := h(hashInput);
      previousHash := hash;
      sequence := (sequence + 1) % TWO_64;
      history := history + [data];
      assert history[..|history| - 1] == old(history);
    }

    /** Accepts exactly the head that adding `data` at this position would give. */
    method VerifyHash(expectedHash: seq<byte>, data: seq<byte>, sequence: nat) returns (ok: bool)
      requires Valid()
      ensures ok <==> sequence == this.sequence && expectedHash == Head(h, history + [data])
    {
      if sequence != this.sequence {
        return false;
      }
      var sequenceBytes := SequenceBytes(sequence);
      var hashInput := previousHash + data + sequenceBytes;
      var hash := h(hashInput);
      assert (history + [data])[..|history|] == history;
      ok := Hex(hash) == Hex(expectedHash);
      if ok {
        HexInjective(hash, expectedHash);
      }
    }
  }

  /** The input hashed for entry `k` of a history. */
  function InputAt(h: Hash, history: seq<seq<byte>>, k: nat): seq<byte>
    requires k < |history|
  {
    Input(h, history[..k], history[k])
  }

  /** An input can be taken apart: same input, same position, previous head and data. */
  lemma InputsTakenApart(h: Hash, a: seq<seq<byte>>, x: seq<byte>, b: seq<seq<byte>>, y: seq<byte>)
    requires |a| < TWO_64 && |b| < TWO_64
    requires Input(h, a, x) == Input(h, b, y)
    ensures |a| == |b| && Head(h, a) == Head(h, b) && x == y
  {
    hide LittleEndian;
    var u, v := Head(h, a) + x, Head(h, b) + y;
    var p, q := LittleEndian(|a| % TWO_64), LittleEndian(|b| % TWO_64);
    assert |p| == 8 && |q| == 8 by { EightBytes(|a| % TWO_64); EightBytes(|b| % TWO_64); }
    assert u + p == v + q;
    SamePrefixSplit(u, p, v, q);
    LittleEndianReadsBack(|a|);
    LittleEndianReadsBack(|b|);
    SamePrefixSplit(Head(h, a), x, Head(h, b), y);
  }

  lemma EightBytes(n: nat)
    ensures |LittleEndian(n)| == 8
  {
  }

  /** Equal heads come from equal histories, or entry `i` of one and `j` of the other collide. */
  lemma {:induction false} HeadsDetermineHistories(h: Hash, a: seq<seq<byte>>, b: seq<seq<byte>>) returns (i: nat, j: nat)
    requires |a| < TWO_64 && |b| < TWO_64
    requires Head(h, a) == Head(h, b)
    ensures a == b || (i < |a| && j < |b| && Collision(h, InputAt(h, a, i), InputAt(h, b, j)))
    decreases |a|
  {
    i, j := 0, 0;
    if a != [] && b != [] {
      var k, l := |a| - 1, |b| - 1;
      i, j := k, l;
      if InputAt(h, a, k) == InputAt(h, b, l) {
        InputsTakenApart(h, a[..k], a[k], b[..l], b[l]);
        i, j := HeadsDetermineHistories(h, a[..k], b[..l]);
        assert a == a[..k] + [a[k]] && b == b[..l] + [b[l]];
        if a != b {
          assert a[..k][..i] == a[..i] && b[..l][..j] == b[..j];
        }
      }
    }
  }
}
