/** Moves and dice messages as the wire's int32 fields and byte strings, and back. */
module Convert {
  import opened Boards
  import opened Bytes
  import opened MachineInts
  import opened Messages
  import opened Moves
  import opened Options

  type int32 = x: int | IsInt32(x)

  datatype ProtoPawnMove = ProtoPawnMove(result: int32, bump: int32)

  datatype ProtoMove = ProtoMove(pawn1: ProtoPawnMove, pawn2: ProtoPawnMove)

  datatype ProtoDiceMessage = ProtoDiceMessage(msgType: int32, data: seq<byte>)

  function ToProtoDice(m: Message): ProtoDiceMessage {
    ProtoDiceMessage(m.msgType, m.data)
  }

  function BumpCode(b: BumpStatus): int {
    match b
    case NoBump => 0
    case BumpedPeer1 => 1
    case BumpedPeer2 => 2
    case BumpedSelf => 3
    case OtherBump(code) => code
  }

  function BumpOfCode(code: int): BumpStatus {
    if code == 0 then NoBump
    else if code == 1 then BumpedPeer1
    else if code == 2 then BumpedPeer2
    else if code == 3 then BumpedSelf
    else OtherBump(code)
  }

  function ToProtoPawn(p: PawnMove): ProtoPawnMove {
    ProtoPawnMove(Wrap32(p.result), Wrap32(BumpCode(p.bump)))
  }

  function FromProtoPawn(p: ProtoPawnMove): PawnMove {
    PawnMove(None, p.result, BumpOfCode(p.bump))
  }

  function ToProtoMove(m: Move): ProtoMove {
    ProtoMove(ToProtoPawn(m.pawn1), ToProtoPawn(m.pawn2))
  }

  function FromProtoMove(m: ProtoMove): Move {
    Move(FromProtoPawn(m.pawn1), FromProtoPawn(m.pawn2))
  }

  /** The move the other end of the stream is handed. */
  function OverTheWire(m: Move): Move {
    FromProtoMove(ToProtoMove(m))
  }

  /** The numbers that go over the wire for the four statuses. */
  lemma BumpCodes()
    ensures BumpCode(NoBump) == 0 && BumpCode(BumpedPeer1) == 1 && BumpCode(BumpedPeer2) == 2 && BumpCode(BumpedSelf) == 3
  {
  }

  /** The fields a move and a dice message are sent in. */
  lemma FieldsOutright(m: Move, d: Message)
    ensures ToProtoMove(m).pawn1 == ProtoPawnMove(Wrap32(m.pawn1.result), Wrap32(BumpCode(m.pawn1.bump)))
    ensures ToProtoMove(m).pawn2 == ProtoPawnMove(Wrap32(m.pawn2.result), Wrap32(BumpCode(m.pawn2.bump)))
    ensures ToProtoDice(d).msgType == d.msgType && ToProtoDice(d).data == d.data
  {
  }

  /** What arrives of any move: the low 32 bits of each result, and no expression. */
  lemma WireOutright(m: Move)
    ensures var w := OverTheWire(m);
            && w.pawn1.expr == None && w.pawn2.expr == None
            && (w.pawn1.result - m.pawn1.result) % 0x1_0000_0000 == 0 && -0x8000_0000 <= w.pawn1.result < 0x8000_0000
            && (w.pawn2.result - m.pawn2.result) % 0x1_0000_0000 == 0 && -0x8000_0000 <= w.pawn2.result < 0x8000_0000
  {
    LowBits(m.pawn1.result);
    LowBits(m.pawn2.result);
  }

  lemma LowBits(x: int)
    ensures (Wrap32(x) - x) % TWO_32 == 0
  {
    var q := (x + TWO_31) / TWO_32;
    assert Wrap32(x) - x == -q * TWO_32 + 0;
    ModUnique(Wrap32(x) - x, -q, 0, TWO_32);
  }

  predicate FitsWire(m: Move) {
    IsInt32(m.pawn1.result) && IsInt32(m.pawn2.result)
  }

  /** A legal move survives the wire, its expression apart, exactly when both results are 32-bit. */
  lemma WireKeepsMove(b: Board, d1: int, d2: int, m: Move)
    requires HasLegalEffect(b, d1, d2, m)
    ensures SameEffect(OverTheWire(m), m) <==> FitsWire(m)
    ensures OverTheWire(m).pawn1.bump == m.pawn1.bump && OverTheWire(m).pawn2.bump == m.pawn2.bump
  {
    hide IsMove;
    LegalFacts(b, d1, d2, m);
  }

  /**
   The peer accepts a legal move and ends on the mirrored board exactly when both results are
   32-bit. A result that is not is rejected, or accepted as a different move.
   */
  lemma WireAgreement(b: Board, d1: int, d2: int, m: Move)
    requires HasLegalEffect(b, d1, d2, m)
    ensures FitsWire(m) <==>
            && HasLegalEffect(b, d1, d2, OverTheWire(m))
            && ApplyPeerMove(b.Mirror(), OverTheWire(m)) == ApplyMove(b, m).Mirror()
  {
    hide IsMove, Wrap32;
    var w := OverTheWire(m);
    WireKeepsMove(b, d1, d2, m);
    LegalFacts(b, d1, d2, m);
    ReplicasStayMirrored(b, w);
    if FitsWire(m) {
      SameEffectSameBoard(b, w, m);
      var m' :| Legal(b, d1, d2, m') && SameEffect(m, m');
      assert SameEffect(w, m');
    } else {
      assert ApplyMove(b, w).pawn2 == w.pawn2.result && ApplyMove(b, m).pawn2 == m.pawn2.result;
      if IsInt32(m.pawn2.result) {
        assert m.pawn1.result != m.pawn2.result;
        assert ApplyMove(b, w).pawn1 == w.pawn1.result && ApplyMove(b, m).pawn1 == m.pawn1.result;
      }
      assert ApplyMove(b, w).Mirror() != ApplyMove(b, m).Mirror();
    }
  }

  /** The data cut or zero-filled to 32 bytes. */
  function Fixed(data: seq<byte>): Digest {
    if |data| >= 32 then data[..32] else data + seq(32 - |data|, _ => 0)
  }

  function FromProtoDice(p: ProtoDiceMessage): Message {
    Message(p.msgType % 256, Fixed(p.data))
  }

  /** Dice messages cross unharmed; a received one was altered on arrival unless it had the sent form. */
  lemma DiceWireRoundTrip(m: Message, p: ProtoDiceMessage)
    ensures FromProtoDice(ToProtoDice(m)) == m
    ensures ToProtoDice(FromProtoDice(p)) == p <==> 0 <= p.msgType < 256 && |p.data| == 32
    ensures FromProtoDice(p).msgType == p.msgType % 256
    ensures forall i | 0 <= i < 32 :: FromProtoDice(p).data[i] == if i < |p.data| then p.data[i] else 0
  {
  }
}
