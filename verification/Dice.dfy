/**
 Turning a shared digest into eight dice: rejection sampling over sixteen big-endian words,
 and the confirmation message that pins the result down.
 */
module Dice {
  import opened Bytes
  import opened MachineInts
  import opened Options

  const MAX_WORD: int := 0xFFFF
  const MAX_SIDES: int := 20
  const DICE_PER_ROLL := 8
  const WORDS := 16

  /** Words from this limit on are thrown away, so that every face keeps the same share. */
  function RollValueLimit(sides: int): int
    requires 0 < sides <= MAX_WORD
  {
    MAX_WORD - MAX_WORD % sides
  }

  function Word(sum: Digest, k: nat): uint16
    requires k < WORDS
  {
    FromBigEndian(sum[2 * k], sum[2 * k + 1])
  }

  function Face(sides: int, v: int): uint16
    requires 0 < sides <= MAX_WORD
  {
    v % sides + 1
  }

  /** The faces of the first `k` words, rejected ones left out. */
  function Faces(sides: int, sum: Digest, k: nat): (f: seq<uint16>)
    requires 0 < sides <= MAX_WORD && k <= WORDS
    ensures |f| <= k
  {
    if k == 0 then []
    else
      var before := Faces(sides, sum, k - 1);
      var v := Word(sum, k - 1);
      if v < RollValueLimit(sides) then before + [Face(sides, v)] else before
  }

  /** The eight dice of a digest, or none when too few words are usable. */
  function Extract(sides: int, sum: Digest): Option<seq<uint16>>
    requires 0 < sides <= MAX_WORD
  {
    var f := Faces(sides, sum, WORDS);
    if |f| >= DICE_PER_ROLL then Some(f[..DICE_PER_ROLL]) else None
  }

  lemma {:induction false} FacesPrefix(sides: int, sum: Digest, j: nat, k: nat)
    requires 0 < sides <= MAX_WORD && j <= k <= WORDS
    ensures Faces(sides, sum, j) <= Faces(sides, sum, k)
  {
    if j < k {
      FacesPrefix(sides, sum, j, k - 1);
    }
  }

  lemma FacesStep(sides: int, sum: Digest, k: nat)
    requires 0 < sides <= MAX_WORD && k <= WORDS
    ensures Faces(sides, sum, 0) == []
    ensures k < WORDS ==>
              var v := Word(sum, k);
              Faces(sides, sum, k + 1)
              == if v < RollValueLimit(sides) then Faces(sides, sum, k) + [Face(sides, v)] else Faces(sides, sum, k)
  {
  }

  lemma {:induction false} FacesInRange(sides: int, sum: Digest, k: nat)
    requires 0 < sides <= MAX_WORD && k <= WORDS
    ensures forall f | f in Faces(sides, sum, k) :: 1 <= f <= sides
  {
    if k > 0 {
      FacesInRange(sides, sum, k - 1);
    }
  }

  lemma ExtractInRange(sides: int, sum: Digest)
    requires 0 < sides <= MAX_WORD
    ensures var r := Extract(sides, sum);
            r.Some? ==> |r.value| == DICE_PER_ROLL && forall f | f in r.value :: 1 <= f <= sides
  {
    FacesInRange(sides, sum, WORDS);
    var all := Faces(sides, sum, WORDS);
    if |all| >= DICE_PER_ROLL {
      assert forall f | f in all[..DICE_PER_ROLL] :: f in all;
    }
  }

  /** The positions below `k` whose word is below the limit, in order. */
  function UsableBefore(sides: int, sum: Digest, k: nat): (at: seq<nat>)
    requires 0 < sides <= MAX_WORD && k <= WORDS
    ensures forall i | 0 <= i < |at| :: at[i] < k
  {
    if k == 0 then []
    else
      var before := UsableBefore(sides, sum, k - 1);
      if Word(sum, k - 1) < RollValueLimit(sides) then before + [k - 1] else before
  }

  /** The die `d` of a word: what is left of it after whole rounds of the sides, counted from one. */
  predicate IsDieOf(sides: int, word: int, d: int)
    requires sides > 0
  {
    1 <= d <= sides && word == word / sides * sides + (d - 1)
  }

  lemma WordIsBigEndian(sum: Digest, k: nat)
    requires k < WORDS
    ensures Word(sum, k) == 256 * (sum[2 * k] as int) + sum[2 * k + 1] as int
  {
  }

  lemma FaceIsDie(sides: int, word: uint16)
    requires 0 < sides <= MAX_WORD
    ensures IsDieOf(sides, word, Face(sides, word))
  {
  }

  lemma {:induction false} UsableInOrder(sides: int, sum: Digest, k: nat)
    requires 0 < sides <= MAX_WORD && k <= WORDS
    ensures var at := UsableBefore(sides, sum, k);
            && (forall i, j | 0 <= i < j < |at| :: at[i] < at[j])
            && (forall j: nat | j < k :: j in at <==> Word(sum, j) < RollValueLimit(sides))
  {
    hide RollValueLimit, Word;
    if k > 0 {
      UsableInOrder(sides, sum, k - 1);
    }
  }

  lemma {:induction false} UsableCounted(sides: int, sum: Digest, k: nat)
    requires 0 < sides <= MAX_WORD && k <= WORDS
    ensures |set j: nat | j < k && Word(sum, j) < RollValueLimit(sides)| == |UsableBefore(sides, sum, k)|
  {
    hide RollValueLimit, Word;
    var usable := set j: nat | j < k && Word(sum, j) < RollValueLimit(sides);
    if k == 0 {
      assert usable == {};
    } else {
      UsableCounted(sides, sum, k - 1);
      var before := set j: nat | j < k - 1 && Word(sum, j) < RollValueLimit(sides);
      assert usable == if Word(sum, k - 1) < RollValueLimit(sides) then before + {k - 1} else before;
    }
  }

  lemma {:induction false} FacesAreDice(sides: int, sum: Digest, k: nat)
    requires 0 < sides <= MAX_WORD && k <= WORDS
    ensures var at, f := UsableBefore(sides, sum, k), Faces(sides, sum, k);
            |at| == |f| && forall i | 0 <= i < |at| :: IsDieOf(sides, Word(sum, at[i]), f[i])
  {
    hide RollValueLimit, Word, Face, IsDieOf;
    if k > 0 {
      FacesAreDice(sides, sum, k - 1);
      FaceIsDie(sides, Word(sum, k - 1));
    }
  }

  /** The limit is the largest multiple of the sides that is at most 65535. */
  lemma LimitIsLargestMultiple(sides: int)
    requires 0 < sides <= MAX_WORD
    ensures var limit := RollValueLimit(sides);
            limit == 65535 / sides * sides && limit <= 65535 < limit + sides
  {
  }

  /**
   The dice of a digest, from its words alone: there are some exactly when eight of the sixteen
   big-endian words are below the largest multiple of the sides, and then they come from the
   first eight such words, in order, each being what is left of its word.
   */
  lemma DiceByWords(sides: int, sum: Digest)
    requires 0 < sides <= MAX_WORD
    ensures Extract(sides, sum).Some? <==>
            |set j: nat | j < 16 && Word(sum, j) < RollValueLimit(sides)| >= 8
    ensures Extract(sides, sum).Some? ==>
              var at, dice := UsableBefore(sides, sum, 16), Extract(sides, sum).value;
              && |at| >= 8 && |dice| == 8
              && (forall i, j | 0 <= i < j < |at| :: at[i] < at[j])
              && (forall j: nat | j < 16 :: j in at <==> Word(sum, j) < RollValueLimit(sides))
              && (forall i | 0 <= i < 8 :: IsDieOf(sides, Word(sum, at[i]), dice[i]))
  {
    hide Faces, UsableBefore, IsDieOf, RollValueLimit, Word;
    UsableInOrder(sides, sum, 16);
    UsableCounted(sides, sum, 16);
    FacesAreDice(sides, sum, 16);
  }

  /** The words of an even share: `n` whole rounds of the faces hold each face `n` times. */
  ghost function Preimages(sides: int, n: nat, face: int): set<int>
    requires 0 < sides <= MAX_WORD
  {
    set v | 0 <= v < n * sides && Face(sides, v) == face
  }

  lemma {:induction false} PreimagesCount(sides: int, n: nat, face: int)
    requires 1 <= face <= sides <= MAX_WORD
    ensures |Preimages(sides, n, face)| == n
  {
    if n == 0 {
      assert Preimages(sides, 0, face) == {};
    } else {
      PreimagesCount(sides, n - 1, face);
      var base := (n - 1) * sides;
      assert n * sides == base + sides;
      var last := base + face - 1;
      forall v | base <= v < base + sides
        ensures v % sides == v - base
      {
        ModUnique(v, n - 1, v - base, sides);
      }
      assert Preimages(sides, n, face) == Preimages(sides, n - 1, face) + {last};
      assert last !in Preimages(sides, n - 1, face);
    }
  }

  /** Fairness: below the limit every face has exactly the same number of words. */
  lemma FacesAreFair(sides: int, face: int)
    requires 1 <= sides <= MAX_WORD && 1 <= face <= sides
    ensures |set v: int | 0 <= v < RollValueLimit(sides) && Face(sides, v) == face| == RollValueLimit(sides) / sides
    ensures RollValueLimit(sides) % sides == 0 && RollValueLimit(sides) > 0
  {
    var n := MAX_WORD / sides;
    assert RollValueLimit(sides) == n * sides;
    PreimagesCount(sides, n, face);
    assert (set v: int | 0 <= v < RollValueLimit(sides) && Face(sides, v) == face) == Preimages(sides, n, face);
    ModUnique(n * sides, n, 0, sides);
    QuotientPositive(MAX_WORD, sides);
    assert n * sides >= sides;
  }

  lemma QuotientPositive(x: int, y: int)
    requires 1 <= y <= x
    ensures x / y >= 1
  {
  }

  /** The confirmation payload: the dice as big-endian words, zero-filled to 32 bytes. */
  function Confirmation(rolls: seq<uint16>): Digest
    requires |rolls| <= WORDS
  {
    seq(32, i requires 0 <= i < 32 =>
      if i / 2 >= |rolls| then 0 else if i % 2 == 0 then rolls[i / 2] / 256 else rolls[i / 2] % 256)
  }

  /** A confirmation read word by word is the rolls, and zero after them. */
  lemma ConfirmationReadsBack(r: seq<uint16>, k: nat)
    requires |r| <= WORDS && k < WORDS
    ensures Word(Confirmation(r), k) == if k < |r| then r[k] else 0
  {
    var c := Confirmation(r);
    assert 2 * k / 2 == k && (2 * k + 1) / 2 == k;
    assert c[2 * k] == (if k < |r| then r[k] / 256 else 0) && c[2 * k + 1] == (if k < |r| then r[k] % 256 else 0);
  }

  /** Equal confirmations come from equal rolls. */
  lemma ConfirmationInjective(r: seq<uint16>, r': seq<uint16>)
    requires |r| == |r'| <= WORDS
    requires Confirmation(r) == Confirmation(r')
    ensures r == r'
  {
    forall k | 0 <= k < |r|
      ensures r[k] == r'[k]
    {
      ConfirmationReadsBack(r, k);
      ConfirmationReadsBack(r', k);
    }
  }

  datatype GetResult = Rolls(rolls: seq<uint16>) | BadCount | TooFew(size: nat)

  /** The first `n` dice of a completed roll. */
  function Get(result: seq<uint16>, n: int): GetResult {
    if n <= 0 || n > 8 then BadCount
    else if |result| < n then TooFew(|result|)
    else Rolls(result[..n])
  }

  /** One to eight dice can be asked for, and as many as there are. */
  lemma GetOutright(result: seq<uint16>, n: int)
    ensures var r := Get(result, n);
            && (r.BadCount? <==> n < 1 || n > 8)
            && (r.TooFew? <==> 1 <= n <= 8 && |result| < n)
            && (r.Rolls? ==> r.rolls == result[..n])
  {
  }

  /** Asking for more dice never changes the ones already promised. */
  lemma GetAgrees(result: seq<uint16>, n: int, m: int)
    requires n <= m && Get(result, n).Rolls? && Get(result, m).Rolls?
    ensures Get(result, n).rolls <= Get(result, m).rolls
    ensures |Get(result, n).rolls| == n && |Get(result, m).rolls| == m
  {
  }

  datatype NewRollerResult = Created(roller: Roller) | TooManySides | DivisionByZero

  method NewRoller(sides: byte) returns (r: NewRollerResult)
    ensures r.TooManySides? <==> sides > 20
    ensures r.DivisionByZero? <==> sides == 0
    ensures r.Created? ==> fresh(r.roller) && r.roller.sides == sides
  {
    if sides > MAX_SIDES {
      return TooManySides;
    }
    if sides == 0 {
      return DivisionByZero;
    }
    var roller := new Roller(sides);
    return Created(roller);
  }

  class Roller {
    const sides: int
    const rollValueLimit: int

    predicate Valid() {
      1 <= sides <= MAX_SIDES && rollValueLimit == RollValueLimit(sides)
    }

    constructor (sides: int)
      requires 1 <= sides <= MAX_SIDES
      ensures Valid() && this.sides == sides
    {
      this.sides := sides;
      rollValueLimit := RollValueLimit(sides);
    }

    /** The dice of a digest; `None` is the panic for want of entropy. */
    method Roll(sum: Digest) returns (r: Option<seq<uint16>>)
      requires Valid()
      ensures r == Extract(sides, sum)
      ensures r.Some? <==>
              |set j: nat | j < 16 && Word(sum, j) < RollValueLimit(sides)| >= 8
    {
      hide Faces, RollValueLimit, Face;
      DiceByWords(sides, sum);
      var result := new uint16[DICE_PER_ROLL];
      var written := 0;
      var i := 0;
      ghost var k := 0;
      FacesStep(sides, sum, 0);
      while i + 2 <= |sum| && written < DICE_PER_ROLL
        invariant i == 2 * k && k <= WORDS && written <= DICE_PER_ROLL
        invariant result[..written] == Faces(sides, sum, k)
      {
        var v := FromBigEndian(sum[i], sum[i + 1]);
        FacesStep(sides, sum, k);
        if v < rollValueLimit {
          ghost var before := result[..written];
          result[written] := Face(sides, v);
          written := written + 1;
          assert result[..written] == before + [Face(sides, v)];
        }
        i := i + 2;
        k := k + 1;
      }
      FacesPrefix(sides, sum, k, WORDS);
      if written != DICE_PER_ROLL {
        return None;
      }
      assert result[..] == result[..written] == Faces(sides, sum, WORDS)[..DICE_PER_ROLL];
      return Some(result[..]);
    }

    /** Fills the confirmation buffer two bytes a die. */
    method EncodeRolls(rolls: seq<uint16>) returns (out: Digest)
      requires |rolls| <= WORDS
      ensures out == Confirmation(rolls)
    {
      var rollValueOut: array<byte> := new byte[32](_ => 0);
      var n := 0;
      for i := 0 to |rolls|
        invariant n == 2 * i
        invariant forall k | 0 <= k < n :: rollValueOut[k] == Confirmation(rolls)[k]
        invariant forall k | n <= k < 32 :: rollValueOut[k] == 0
      {
        rollValueOut[n] := rolls[i] / 256;
        rollValueOut[n + 1] := rolls[i] % 256;
        n := n + 2;
      }
      assert rollValueOut[..] == Confirmation(rolls);
      out := rollValueOut[..];
    }
  }
}
