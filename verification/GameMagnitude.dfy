/** How large the numbers of a legal game get, and for how long they fit the wire. */
module GameMagnitude {
  import opened Boards
  import opened Completeness
  import opened Convert
  import opened Game
  import opened MachineInts
  import opened Magnitude
  import opened Moves
  import opened Options

  /** How many of the first `n` moves are the logging player's own. */
  function OwnCount(goFirst: bool, n: nat): nat {
    if goFirst then (n + 1) / 2 else n / 2
  }

  function PeerCount(goFirst: bool, n: nat): nat {
    n - OwnCount(goFirst, n)
  }

  /** How many moves the maker of move `i` has behind them. */
  function MovesBehind(i: nat): nat {
    i / 2
  }

  lemma PrefixAlternates(goFirst: bool, log: seq<GameLogEntry>, k: nat)
    requires Alternates(goFirst, log) && k <= |log|
    ensures Alternates(goFirst, log[..k])
  {
  }

  /** After `k` of its owner's moves a pawn is no lower than -100^k, for the first nine moves of each player. */
  lemma {:induction false} BoardsBounded(goFirst: bool, log: seq<GameLogEntry>)
    requires LegalGame(log) && Alternates(goFirst, log) && |log| <= 2 * EXACT_MOVES
    ensures var b, own, peer := BoardAfter(log), OwnCount(goFirst, |log|), PeerCount(goFirst, |log|);
            && Reachable(b.pawn1, own) && Reachable(b.pawn2, own)
            && Reachable(b.peer1, peer) && Reachable(b.peer2, peer)
  {
    hide Reachable, HasLegalEffect, Effect;
    if log == [] {
      ReachableZero(0);
    } else {
      var k := |log| - 1;
      PrefixLegal(log, k);
      PrefixAlternates(goFirst, log, k);
      BoardsBounded(goFirst, log[..k]);
      StepBounded(goFirst, log[k], k);
    }
  }

  lemma StepBounded(goFirst: bool, e: GameLogEntry, k: nat)
    requires LegalEntry(e) && e.state == Effect(e) && e.isPeer == PeerMovesAt(goFirst, k)
    requires k < 2 * EXACT_MOVES
    requires var b, own, peer := e.fromState, OwnCount(goFirst, k), PeerCount(goFirst, k);
             && Reachable(b.pawn1, own) && Reachable(b.pawn2, own)
             && Reachable(b.peer1, peer) && Reachable(b.peer2, peer)
    ensures var b, own, peer := e.state, OwnCount(goFirst, k + 1), PeerCount(goFirst, k + 1);
            && Reachable(b.pawn1, own) && Reachable(b.pawn2, own)
            && Reachable(b.peer1, peer) && Reachable(b.peer2, peer)
    ensures Reachable(e.move.pawn1.result, MovesBehind(k) + 1) && Reachable(e.move.pawn2.result, MovesBehind(k) + 1)
    ensures Legal(MoverView(e), e.rolls.0, e.rolls.1, e.move) ==> ExactPawn(e.move.pawn1) && ExactPawn(e.move.pawn2)
  {
    hide HasLegalEffect, Legal, ExactPawn, Reachable;
    MoveStep(MoverView(e), e.rolls.0, e.rolls.1, e.move, MovesBehind(k));
    ReachableZero(OwnCount(goFirst, k + 1));
    ReachableZero(PeerCount(goFirst, k + 1));
    if e.isPeer {
      ReplicasStayMirrored(MoverView(e), e.move);
      assert e.fromState.Mirror().Mirror() == e.fromState;
      assert e.state == ApplyMove(MoverView(e), e.move).Mirror();
    }
  }

  /** For the first nine moves of each player 64-bit arithmetic is the arithmetic of the integers. */
  lemma ArithmeticExact(goFirst: bool, log: seq<GameLogEntry>, i: nat)
    requires LegalGame(log) && Alternates(goFirst, log) && i < |log| && i < 2 * EXACT_MOVES
    ensures Reachable(log[i].move.pawn1.result, MovesBehind(i) + 1) && Reachable(log[i].move.pawn2.result, MovesBehind(i) + 1)
    ensures Legal(MoverView(log[i]), log[i].rolls.0, log[i].rolls.1, log[i].move) ==>
              ExactPawn(log[i].move.pawn1) && ExactPawn(log[i].move.pawn2)
  {
    PrefixLegal(log, i);
    PrefixAlternates(goFirst, log, i);
    BoardsBounded(goFirst, log[..i]);
    StepBounded(goFirst, log[i], i);
  }

  /** The first four moves of each player always fit the wire's 32-bit results. */
  lemma FirstMovesFitWire(goFirst: bool, log: seq<GameLogEntry>, i: nat)
    requires LegalGame(log) && Alternates(goFirst, log) && i < |log| && i < 8
    ensures FitsWire(log[i].move)
  {
    hide LegalGame, Alternates, ExactPawn, Legal;
    ArithmeticExact(goFirst, log, i);
    Pow100Monotone(MovesBehind(i) + 1, 4);
    assert Pow100(4) == 100_000_000;
  }

  /** Both dice show ten in the game that gets furthest down: the first pawn takes them, the second stays. */
  function TensMove(b: Board, op1: Op, op2: Op, r: int): Move {
    Move(PawnMove(Some(LeftNested(b.pawn1, 10, 10, op1, op2)), r, BumpOfPawn1(r, b.peer1, b.peer2)),
         PawnMove(Some(Value(b.pawn2)), b.pawn2, BumpOfPawn2(r, b.pawn2, b.peer1, b.peer2)))
  }

  lemma TensMoveLegal(b: Board, op1: Op, op2: Op, r: int)
    requires Sound(b) && b.pawn1 != GOAL && b.pawn2 == 0 && b.peer2 == 0
    requires op1 in OPS && op2 in OPS && Eval(LeftNested(b.pawn1, 10, 10, op1, op2)) == Some(r)
    requires r != b.pawn1 && r <= GOAL && (b.peer1 == 0 || !LandsOn(r, 0, b.peer1))
    ensures var m := TensMove(b, op1, op2, r);
            && Legal(b, 10, 10, m)
            && ApplyMove(b, m) == Board(if r == 0 then 0 else r, 0, b.peer1, 0)
  {
    hide Eval;
    var m := TensMove(b, op1, op2, r);
    var alloc := Allocation([10, 10], []);
    assert AllAllocations(10, 10, b.pawn1, b.pawn2)[1] == alloc;
    assert m.pawn1.(bump := NoBump) == Candidate(LeftNested(b.pawn1, 10, 10, op1, op2), r);
    assert m.pawn2.(bump := NoBump) == Candidate(Value(0), 0);
    assert FromAllocation(b.pawn1, b.pawn2, b.peer1, b.peer2, alloc, m);
    assert SameEffect(m, m);
    SoundKept(b, 10, 10, m);
  }

  lemma AppendMove(log: seq<GameLogEntry>, isPeer: bool, m: Move) returns (log': seq<GameLogEntry>)
    requires LegalGame(log) && Alternates(true, log) && isPeer == PeerMovesAt(true, |log|)
    requires BoardAfter(log).Undecided()
    requires Legal(if isPeer then BoardAfter(log).Mirror() else BoardAfter(log), 10, 10, m)
    ensures LegalGame(log') && Alternates(true, log') && |log'| == |log| + 1
    ensures BoardAfter(log') == if isPeer then ApplyPeerMove(BoardAfter(log), m) else ApplyMove(BoardAfter(log), m)
    ensures log'[|log|].move == m
  {
    hide IsMove;
    var b := BoardAfter(log);
    var to := if isPeer then ApplyPeerMove(b, m) else ApplyMove(b, m);
    var e := GameLogEntry(if isPeer then "Peer" else "Self", m, TurnNumber(true, |log|), isPeer, b, to, (10, 10));
    assert SameEffect(m, m);
    assert LegalEntry(e);
    log' := log + [e];
    ExtendGood(log, e);
  }

  lemma ExtendGood(log: seq<GameLogEntry>, e: GameLogEntry)
    requires LegalGame(log) && Alternates(true, log)
    requires e.fromState == BoardAfter(log) && e.state == Effect(e) && LegalEntry(e)
    requires e.isPeer == PeerMovesAt(true, |log|) && e.turnNum == TurnNumber(true, |log|)
    requires e.player == (if e.isPeer then "Peer" else "Self")
    ensures LegalGame(log + [e]) && Alternates(true, log + [e])
  {
    hide HasLegalEffect, Effect;
    assert GoodLog(true, log, true);
    GoodLogExtend(true, log, true, e);
    GoodLogIsLegalGame(true, log + [e]);
  }

  lemma TenTimes(p: int)
    requires 0 <= p <= 10_000_000_000_000_000
    ensures Eval(LeftNested(-p, 10, 10, Mul, Mul)) == Some(-(100 * p))
  {
    EvalNested(-p, 10, 10, Mul, Mul);
  }

  /** Where the peer's first pawn stands after `k` moves: it goes up by twenty and comes back. */
  function Pacing(k: nat): int {
    if k % 2 == 1 then 20 else 0
  }

  function PacingOp(k: nat): Op {
    if k % 2 == 1 then Sub else Add
  }

  lemma PeerPaces(b: Board, k: nat)
    requires Sound(b) && b.pawn1 < 0 && b.pawn2 == 0 && b.peer1 == Pacing(k) && b.peer2 == 0
    ensures var m := TensMove(b.Mirror(), PacingOp(k), PacingOp(k), Pacing(k + 1));
            && Legal(b.Mirror(), 10, 10, m)
            && ApplyPeerMove(b, m) == Board(b.pawn1, 0, Pacing(k + 1), 0)
  {
    hide IsMove, Eval, TensMove;
    EvalNested(Pacing(k), 10, 10, PacingOp(k), PacingOp(k));
    SoundMirror(b);
    TensMoveLegal(b.Mirror(), PacingOp(k), PacingOp(k), Pacing(k + 1));
    ReplicasStayMirrored(b.Mirror(), TensMove(b.Mirror(), PacingOp(k), PacingOp(k), Pacing(k + 1)));
    assert b.Mirror().Mirror() == b;
  }

  /** The peer's turn in that game. */
  lemma PeerAnswers(log: seq<GameLogEntry>, k: nat) returns (log': seq<GameLogEntry>)
    requires LegalGame(log) && Alternates(true, log) && |log| % 2 == 1
    requires var b := BoardAfter(log); b.pawn1 < 0 && b.pawn2 == 0 && b.peer1 == Pacing(k) && b.peer2 == 0
    ensures LegalGame(log') && Alternates(true, log') && |log'| == |log| + 1
    ensures BoardAfter(log') == Board(BoardAfter(log).pawn1, 0, Pacing(k + 1), 0) && Sound(BoardAfter(log'))
  {
    hide LegalGame, Alternates, Legal, TensMove;
    var b := BoardAfter(log);
    LegalGameSound(log);
    PeerPaces(b, k);
    log' := AppendMove(log, true, TensMove(b.Mirror(), PacingOp(k), PacingOp(k), Pacing(k + 1)));
    LegalGameSound(log');
  }

  /** The own turn: one more pair of operators on tens. */
  lemma TensTurn(log: seq<GameLogEntry>, op1: Op, op2: Op, r: int) returns (log': seq<GameLogEntry>)
    requires LegalGame(log) && Alternates(true, log) && |log| % 2 == 0
    requires var b := BoardAfter(log);
             && b.pawn1 <= 0 && b.pawn2 == 0 && b.peer1 in {0, 20} && b.peer2 == 0
             && op1 in OPS && op2 in OPS && Eval(LeftNested(b.pawn1, 10, 10, op1, op2)) == Some(r) && r < 0 && r != b.pawn1
    ensures LegalGame(log') && Alternates(true, log') && |log'| == |log| + 1
    ensures BoardAfter(log') == Board(r, 0, BoardAfter(log).peer1, 0)
    ensures log'[|log|].move == TensMove(BoardAfter(log), op1, op2, r)
  {
    hide LegalGame, Alternates, Legal, TensMove, Eval;
    LegalGameSound(log);
    TensMoveLegal(BoardAfter(log), op1, op2, r);
    log' := AppendMove(log, false, TensMove(BoardAfter(log), op1, op2, r));
  }

  /** The bound is reached: a legal game in which the first player's `k`-th move lands on -100^k. */
  lemma {:induction false} BoundIsReached(k: nat) returns (log: seq<GameLogEntry>)
    requires 1 <= k <= EXACT_MOVES
    ensures LegalGame(log) && Alternates(true, log) && |log| == 2 * k - 1
    ensures log[2 * k - 2].move.pawn1.result == -Pow100(k)
    ensures BoardAfter(log) == Board(-Pow100(k), 0, Pacing(k - 1), 0)
  {
    hide LegalGame, Alternates, Eval, Legal;
    if k == 1 {
      EvalNested(0, 10, 10, Sub, Mul);
      EmptyGame();
      log := TensTurn([], Sub, Mul, -100);
      assert Pow100(1) == 100;
    } else {
      var before := BoundIsReached(k - 1);
      var middle := PeerAnswers(before, k - 2);
      LowEnough(k - 1);
      TenTimes(Pow100(k - 1));
      log := TensTurn(middle, Mul, Mul, -Pow100(k));
    }
  }

  lemma EmptyGame()
    ensures LegalGame([]) && Alternates(true, [])
  {
  }

  lemma LowEnough(k: nat)
    requires k < EXACT_MOVES
    ensures Pow100(k) <= 10_000_000_000_000_000
  {
    Pow100Monotone(k, 8);
    assert Pow100(4) == 100_000_000;
  }

  /** So the wire does fail: the fifth move of a legal game need not fit it. */
  lemma FifthMoveMayNotFit() returns (log: seq<GameLogEntry>)
    ensures LegalGame(log) && |log| == 9 && !FitsWire(log[8].move)
  {
    log := BoundIsReached(5);
    assert Pow100(5) == 10_000_000_000 by {
      assert Pow100(3) == 1_000_000;
    }
  }

  /** And 64-bit arithmetic does wrap around: the tenth move of a legal game need not be exact. */
  lemma TenthMoveMayWrap() returns (log: seq<GameLogEntry>)
    ensures LegalGame(log) && |log| == 19
    ensures var m := log[18].move.pawn1;
            && m.expr.Some? && Eval(m.expr.value) == Some(m.result)
            && EvalExact(m.expr.value).Some? && EvalExact(m.expr.value) != Some(m.result)
  {
    hide LegalGame, Alternates, Legal, LegalEntry;
    var before := BoundIsReached(9);
    var middle := PeerAnswers(before, 8);
    var low := -1_000_000_000_000_000_000;
    assert BoardAfter(middle).pawn1 == low by {
      assert Pow100(9) == -low by { LowestExact(); }
    }
    WrapsAround(low);
    log := TensTurn(middle, Mul, Mul, -7_766_279_631_452_241_920);
  }

  lemma LowestExact()
    ensures Pow100(9) == 1_000_000_000_000_000_000
  {
    assert Pow100(3) == 1_000_000;
    assert Pow100(6) == 1_000_000_000_000;
  }

  lemma WrapsAround(low: int)
    requires low == -1_000_000_000_000_000_000
    ensures Eval(LeftNested(low, 10, 10, Mul, Mul)) == Some(-7_766_279_631_452_241_920)
    ensures EvalExact(LeftNested(low, 10, 10, Mul, Mul)) == Some(100 * low)
  {
    EvalNested(low, 10, 10, Mul, Mul);
    assert Wrap64(10 * low) == 8_446_744_073_709_551_616;
    assert Wrap64(84_467_440_737_095_516_160) == -7_766_279_631_452_241_920;
    assert EvalExact(Node(Mul, Value(low), Value(10))) == Some(10 * low);
  }
}
