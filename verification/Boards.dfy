/**
 The four-pawn board as one player sees it, the effect of a move on it, and what every
 legal move keeps true of it.
 */
module Boards {
  import opened MachineInts
  import opened Moves
  import opened Completeness

  datatype Board = Board(pawn1: int, pawn2: int, peer1: int, peer2: int) {
    /** The same position seen from the other side. */
    function Mirror(): Board {
      Board(peer1, peer2, pawn1, pawn2)
    }

    predicate Win() {
      pawn1 == GOAL && pawn2 == GOAL
    }

    predicate Lose() {
      peer1 == GOAL && peer2 == GOAL
    }

    predicate Undecided() {
      !Win() && !Lose()
    }
  }

  const START: Board := Board(0, 0, 0, 0)

  function ApplyBump(b: Board, bump: BumpStatus): Board {
    match bump
    case BumpedPeer1 => b.(peer1 := 0)
    case BumpedPeer2 => b.(peer2 := 0)
    case BumpedSelf => b.(pawn1 := 0)
    case _ => b
  }

  /** The mover's own board after the move: land both pawns, then act on the two statuses in turn. */
  function ApplyMove(b: Board, m: Move): Board {
    var landed := b.(pawn1 := m.pawn1.result, pawn2 := m.pawn2.result);
    ApplyBump(ApplyBump(landed, m.pawn1.bump), m.pawn2.bump)
  }

  function ApplyPeerBump(b: Board, bump: BumpStatus): Board {
    match bump
    case BumpedPeer1 => b.(pawn1 := 0)
    case BumpedPeer2 => b.(pawn2 := 0)
    case BumpedSelf => b.(peer1 := 0)
    case _ => b
  }

  /** The other player's board after the same move. */
  function ApplyPeerMove(b: Board, m: Move): Board {
    var landed := b.(peer1 := m.pawn1.result, peer2 := m.pawn2.result);
    ApplyPeerBump(ApplyPeerBump(landed, m.pawn1.bump), m.pawn2.bump)
  }

  /** What any move does, whatever its statuses: each square outright. */
  lemma MoveOutright(b: Board, m: Move)
    ensures var b', s1, s2 := ApplyMove(b, m), m.pawn1.bump, m.pawn2.bump;
            && b'.pawn1 == (if s1 == BumpedSelf || s2 == BumpedSelf then 0 else m.pawn1.result)
            && b'.pawn2 == m.pawn2.result
            && b'.peer1 == (if s1 == BumpedPeer1 || s2 == BumpedPeer1 then 0 else b.peer1)
            && b'.peer2 == (if s1 == BumpedPeer2 || s2 == BumpedPeer2 then 0 else b.peer2)
  {
  }

  /** The goal is square 101, and it takes both pawns. */
  lemma DecidedAt101(b: Board)
    ensures b.Win() <==> b.pawn1 == 101 && b.pawn2 == 101
    ensures b.Lose() <==> b.peer1 == 101 && b.peer2 == 101
    ensures b.Undecided() <==> !(b.pawn1 == 101 && b.pawn2 == 101) && !(b.peer1 == 101 && b.peer2 == 101)
  {
  }

  /** Whatever the move, honest or not, the two replicas stay mirror images. */
  lemma ReplicasStayMirrored(b: Board, m: Move)
    ensures ApplyPeerMove(b.Mirror(), m) == ApplyMove(b, m).Mirror()
  {
    var landed := b.(pawn1 := m.pawn1.result, pawn2 := m.pawn2.result);
    MirrorBump(landed, m.pawn1.bump);
    MirrorBump(ApplyBump(landed, m.pawn1.bump), m.pawn2.bump);
  }

  lemma MirrorBump(b: Board, bump: BumpStatus)
    ensures ApplyPeerBump(b.Mirror(), bump) == ApplyBump(b, bump).Mirror()
  {
  }

  predicate Legal(b: Board, d1: int, d2: int, m: Move) {
    IsMove(b.pawn1, b.pawn2, d1, d2, b.peer1, b.peer2, m)
  }

  ghost predicate CanMove(b: Board, d1: int, d2: int) {
    exists m :: Legal(b, d1, d2, m)
  }

  /** The enumeration on a board, in the order in which a strategy is shown it. */
  function Enumeration(b: Board, d1: int, d2: int): seq<Move> {
    MoveList(b.pawn1, b.pawn2, d1, d2, b.peer1, b.peer2)
  }

  lemma EnumerationMember(b: Board, d1: int, d2: int, m: Move)
    ensures m in Enumeration(b, d1, d2) <==> Legal(b, d1, d2, m)
  {
    hide MoveList, IsMove;
    MoveListMember(b.pawn1, b.pawn2, d1, d2, b.peer1, b.peer2, m);
  }

  lemma CanMoveSome(b: Board, d1: int, d2: int)
    ensures CanMove(b, d1, d2) <==> Enumeration(b, d1, d2) != []
  {
    hide Legal, Enumeration;
    var moves := Enumeration(b, d1, d2);
    if moves != [] {
      assert moves[0] in moves;
      EnumerationMember(b, d1, d2, moves[0]);
    }
    if m :| Legal(b, d1, d2, m) {
      EnumerationMember(b, d1, d2, m);
    }
  }

  /** The two moves are told apart by neither the peer's validation nor the board. */
  predicate SameEffect(m: Move, m': Move) {
    && m.pawn1.result == m'.pawn1.result && m.pawn2.result == m'.pawn2.result
    && m.pawn1.bump == m'.pawn1.bump && m.pawn2.bump == m'.pawn2.bump
  }

  lemma SameEffectSameBoard(b: Board, m: Move, m': Move)
    requires SameEffect(m, m')
    ensures ApplyMove(b, m) == ApplyMove(b, m') && ApplyPeerMove(b, m) == ApplyPeerMove(b, m')
  {
  }

  /** What the player to move may do, up to the expression the move was found with. */
  ghost predicate HasLegalEffect(b: Board, d1: int, d2: int, m: Move) {
    exists m' :: Legal(b, d1, d2, m') && SameEffect(m, m')
  }

  /** What legality says of a move's visible parts. */
  lemma LegalFacts(b: Board, d1: int, d2: int, m: Move)
    requires HasLegalEffect(b, d1, d2, m)
    ensures m.pawn1.result <= GOAL && m.pawn2.result <= GOAL
    ensures SomePawnMoves(b.pawn1, b.pawn2, m.pawn1.result, m.pawn2.result)
    ensures IsInt64(b.pawn1) ==> IsInt64(m.pawn1.result)
    ensures IsInt64(b.pawn2) ==> IsInt64(m.pawn2.result)
    ensures b.pawn1 == GOAL ==> m.pawn1.result == GOAL
    ensures b.pawn2 == GOAL ==> m.pawn2.result == GOAL
    ensures m.pawn1.bump == BumpOfPawn1(m.pawn1.result, b.peer1, b.peer2)
    ensures m.pawn2.bump == BumpOfPawn2(m.pawn1.result, m.pawn2.result, b.peer1, b.peer2)
  {
    hide Eval, IsShape;
    var m' :| Legal(b, d1, d2, m') && SameEffect(m, m');
    var alloc :| alloc in AllAllocations(d1, d2, b.pawn1, b.pawn2)
                 && FromAllocation(b.pawn1, b.pawn2, b.peer1, b.peer2, alloc, m');
    PawnResultFits(b.pawn1, alloc.pawn1, m'.pawn1.(bump := NoBump));
    PawnResultFits(b.pawn2, alloc.pawn2, m'.pawn2.(bump := NoBump));
  }

  /**
   The statuses of a legal move, outright. Landing on the other own pawn overwrites everything for
   the second pawn, and landing on the peer's second pawn overwrites landing on its first.
   */
  lemma StatusesOutright(b: Board, d1: int, d2: int, m: Move)
    requires HasLegalEffect(b, d1, d2, m)
    ensures var r, bump := m.pawn1.result, m.pawn1.bump;
            && (bump == BumpedPeer2 <==> r == b.peer2 && r != 101)
            && (bump == BumpedPeer1 <==> r == b.peer1 && r != 101 && r != b.peer2)
            && (bump == NoBump <==> r == 101 || (r != b.peer1 && r != b.peer2))
    ensures var r, bump := m.pawn2.result, m.pawn2.bump;
            && (bump == BumpedSelf <==> r == m.pawn1.result && r != 101)
            && (bump == BumpedPeer2 <==> r == b.peer2 && r != 101 && r != m.pawn1.result)
            && (bump == BumpedPeer1 <==> r == b.peer1 && r != 101 && r != b.peer2 && r != m.pawn1.result)
            && (bump == NoBump <==> r == 101 || (r != b.peer1 && r != b.peer2 && r != m.pawn1.result))
  {
    hide Legal;
    LegalFacts(b, d1, d2, m);
  }

  lemma PawnResultFits(start: int, dice: seq<int>, m: PawnMove)
    requires IsPawnMove(start, dice, m)
    ensures IsInt64(start) ==> IsInt64(m.result)
  {
    hide Wrap64;
    if |dice| > 0 {
      assert m.expr.value.Node?;
    }
  }

  /** A pawn of the peer stands where one of the mover's pawns lands, off the goal. */
  predicate LandsOn(r1: int, r2: int, square: int) {
    (square == r1 || square == r2) && square != GOAL
  }

  /** The rule of the game: every pawn landed on goes back to 0, nobody else moves. */
  function BumpRule(b: Board, r1: int, r2: int): Board {
    Board(
      if r1 == r2 && r1 != GOAL then 0 else r1,
      r2,
      if LandsOn(r1, r2, b.peer1) then 0 else b.peer1,
      if LandsOn(r1, r2, b.peer2) then 0 else b.peer2)
  }

  /** The peer's pawns share a square, neither 0 nor the goal, and one of them is landed on. */
  predicate BumpsSharedSquare(b: Board, r1: int, r2: int) {
    b.peer1 == b.peer2 && b.peer1 != 0 && LandsOn(r1, r2, b.peer1)
  }

  /**
   One status per pawn, with later checks overwriting earlier ones, carries out the rule
   exactly unless the peer's two pawns share the square that is landed on.
   */
  lemma NoBumpLost(b: Board, d1: int, d2: int, m: Move)
    requires HasLegalEffect(b, d1, d2, m)
    ensures ApplyMove(b, m) == BumpRule(b, m.pawn1.result, m.pawn2.result)
       <==> !BumpsSharedSquare(b, m.pawn1.result, m.pawn2.result)
  {
    LegalFacts(b, d1, d2, m);
  }

  predicate MayShare(x: int, y: int) {
    x == y ==> x == 0 || x == GOAL
  }

  /** No two of the four pawns share a square, except at the start and on the goal. */
  predicate Exclusive(b: Board) {
    && MayShare(b.pawn1, b.pawn2) && MayShare(b.peer1, b.peer2)
    && MayShare(b.pawn1, b.peer1) && MayShare(b.pawn1, b.peer2)
    && MayShare(b.pawn2, b.peer1) && MayShare(b.pawn2, b.peer2)
  }

  predicate OnTrack(x: int) {
    IsInt64(x) && x <= GOAL
  }

  predicate Sound(b: Board) {
    && Exclusive(b)
    && OnTrack(b.pawn1) && OnTrack(b.pawn2) && OnTrack(b.peer1) && OnTrack(b.peer2)
  }

  /** On a sound board every legal move follows the bump rule and leaves a sound board. */
  lemma SoundKept(b: Board, d1: int, d2: int, m: Move)
    requires Sound(b) && HasLegalEffect(b, d1, d2, m)
    ensures Sound(ApplyMove(b, m))
    ensures ApplyMove(b, m) == BumpRule(b, m.pawn1.result, m.pawn2.result)
    ensures var b', r1, r2 := ApplyMove(b, m), m.pawn1.result, m.pawn2.result;
            && b'.pawn1 == (if r1 == r2 && r1 != 101 then 0 else r1) && b'.pawn2 == r2
            && b'.peer1 == (if b.peer1 in {r1, r2} && b.peer1 != 101 then 0 else b.peer1)
            && b'.peer2 == (if b.peer2 in {r1, r2} && b.peer2 != 101 then 0 else b.peer2)
  {
    LegalFacts(b, d1, d2, m);
  }

  lemma SoundMirror(b: Board)
    ensures Sound(b.Mirror()) == Sound(b)
  {
  }

  /** A pawn on the goal stays there, whoever moves, and a move never takes the peer home. */
  lemma GoalIsAbsorbing(b: Board, d1: int, d2: int, m: Move)
    requires HasLegalEffect(b, d1, d2, m)
    ensures var b' := ApplyMove(b, m);
            && (b.pawn1 == GOAL ==> b'.pawn1 == GOAL) && (b.pawn2 == GOAL ==> b'.pawn2 == GOAL)
            && (b'.peer1 == GOAL <==> b.peer1 == GOAL) && (b'.peer2 == GOAL <==> b.peer2 == GOAL)
  {
    LegalFacts(b, d1, d2, m);
  }

  /** On a sound board a player has a legal move exactly when its pawns are not both on 101. */
  lemma MoverNeverStuck(b: Board, d1: int, d2: int)
    requires Sound(b)
    requires 1 <= d1 <= 10 && 1 <= d2 <= 10
    ensures CanMove(b, d1, d2) <==> !(b.pawn1 == 101 && b.pawn2 == 101)
  {
    hide IsMove;
    NeverStuck(b.pawn1, b.pawn2, d1, d2, b.peer1, b.peer2);
    if !(b.pawn1 == 101 && b.pawn2 == 101) {
      var m :| IsMove(b.pawn1, b.pawn2, d1, d2, b.peer1, b.peer2, m);
      assert Legal(b, d1, d2, m);
    }
  }

  /** The opening move cannot win: some pawn takes at most one die, worth at most ten. */
  lemma OpeningCannotWin(d1: int, d2: int, m: Move)
    requires 1 <= d1 <= 10 && 1 <= d2 <= 10
    requires HasLegalEffect(START, d1, d2, m)
    ensures ApplyMove(START, m).Undecided()
  {
    hide IsPawnMove;
    var m' :| Legal(START, d1, d2, m') && SameEffect(m, m');
    var alloc :| alloc in AllAllocations(d1, d2, 0, 0) && FromAllocation(0, 0, 0, 0, alloc, m');
    if |alloc.pawn1| <= 1 {
      OneDieFromStart(alloc.pawn1, m'.pawn1.(bump := NoBump));
    } else {
      OneDieFromStart(alloc.pawn2, m'.pawn2.(bump := NoBump));
    }
    LegalFacts(START, d1, d2, m);
  }

  lemma OneDieFromStart(dice: seq<int>, m: PawnMove)
    requires |dice| <= 1 && IsPawnMove(0, dice, m)
    requires |dice| == 1 ==> 1 <= dice[0] <= 10
    ensures m.result <= 10
  {
    if |dice| == 1 {
      assert Eval(m.expr.value) == ApplyOp(m.expr.value.op, 0, dice[0]);
      assert 0 * dice[0] == 0;
    }
  }
}
