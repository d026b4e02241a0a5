/**
 A match over a stream that the wire form breaks: dice that always show ten, a first player that
 multiplies its way down, and a second one that goes up by twenty and back.
 */
module Overflow {
  import opened Boards
  import opened Bytes
  import opened Completeness
  import opened Dice
  import opened Exchange
  import opened Game
  import opened GameMagnitude
  import opened MachineInts
  import opened Magnitude
  import opened Match
  import opened Moves
  import opened Options
  import opened Plan

  /** Sixteen words of nine: with ten sides, tens. */
  function Nines(): Digest {
    seq(32, i => if i % 2 == 1 then 9 else 0)
  }

  /** What the two players want in round `k`. */
  function Wish(k: nat, b: Board): Move {
    if k == 1 then TensMove(b, Sub, Mul, -100)
    else if k % 2 == 1 then TensMove(b, Mul, Mul, 100 * b.pawn1)
    else TensMove(b, PacingOp(k / 2 + 1), PacingOp(k / 2 + 1), Pacing(k / 2))
  }

  /** The wish if it is open, else the first move there is. */
  function Wisher(): Strategy {
    (b: Board, log: seq<GameLogEntry>, moves: seq<Move>) =>
      var wish := Wish(|log| + 1, b);
      if wish in moves || moves == [] then wish else moves[0]
  }

  function Tens(): Config {
    Config(_ => Nines(), Stream, (_, _) => Nines(), _ => Wisher())
  }

  lemma TensRolled(k: nat)
    ensures DiceOf(Tens(), k).Some? && Die1(Tens(), k) == 10 && Die2(Tens(), k) == 10 && First(Tens()) == A
  {
    NinesGiveTens(8);
    FacesPrefix(SIDES, Nines(), 8, WORDS);
  }

  lemma {:induction false} NinesGiveTens(k: nat)
    requires k <= 8
    ensures |Faces(SIDES, Nines(), k)| == k && forall i | 0 <= i < k :: Faces(SIDES, Nines(), k)[i] == 10
  {
    hide Faces, Word, Nines;
    if k == 0 {
      FacesStep(SIDES, Nines(), 0);
    } else {
      NinesGiveTens(k - 1);
      FacesStep(SIDES, Nines(), k - 1);
      assert Word(Nines(), k - 1) == 9 by { WordOfNines(k - 1); }
    }
  }

  lemma WordOfNines(k: nat)
    requires k < WORDS
    ensures Word(Nines(), k) == 9
  {
  }

  lemma TensMemberStrategies()
    ensures MemberStrategies(Tens())
  {
    hide Wish;
  }

  /** The board before round `k`, for whoever moves. */
  function BoardBefore(k: nat): Board
    requires k >= 1
  {
    var j := (k - 1) / 2;
    var low := if j == 0 then 0 else -Pow100(j);
    if k % 2 == 1 then Board(low, 0, Pacing(j), 0) else Board(Pacing(j), 0, -Pow100(j + 1), 0)
  }

  /** In its turn each player can do as it wishes. */
  lemma WishIsLegal(k: nat)
    requires 1 <= k <= 9
    ensures var b := BoardBefore(k);
            && Legal(b, 10, 10, Wish(k, b))
            && ApplyMove(b, Wish(k, b)).Mirror() == BoardBefore(k + 1)
            && !ApplyMove(b, Wish(k, b)).Win()
  {
    hide BoardBefore, Legal, ApplyMove, Wish;
    if k == 1 {
      FirstWish();
    } else if k % 2 == 1 {
      DownWish(k);
    } else {
      PacingWish(k);
    }
  }

  lemma FirstWish()
    ensures var b := BoardBefore(1);
            && Legal(b, 10, 10, Wish(1, b))
            && ApplyMove(b, Wish(1, b)).Mirror() == BoardBefore(2)
            && !ApplyMove(b, Wish(1, b)).Win()
  {
    hide Eval, Legal, TensMove, ApplyMove, Wish;
    var b := BoardBefore(1);
    Powers();
    EvalNested(0, 10, 10, Sub, Mul);
    TensMoveLegal(b, Sub, Mul, -100);
    WishOf(1, b);
  }

  lemma DownWish(k: nat)
    requires 3 <= k <= 9 && k % 2 == 1
    ensures var b := BoardBefore(k);
            && Legal(b, 10, 10, Wish(k, b))
            && ApplyMove(b, Wish(k, b)).Mirror() == BoardBefore(k + 1)
            && !ApplyMove(b, Wish(k, b)).Win()
  {
    hide Eval, Legal, TensMove, ApplyMove, Wish;
    var b, j := BoardBefore(k), (k - 1) / 2;
    Powers();
    TenTimes(Pow100(j));
    TensMoveLegal(b, Mul, Mul, 100 * b.pawn1);
    WishOf(k, b);
  }

  lemma PacingWish(k: nat)
    requires 2 <= k <= 8 && k % 2 == 0
    ensures var b := BoardBefore(k);
            && Legal(b, 10, 10, Wish(k, b))
            && ApplyMove(b, Wish(k, b)).Mirror() == BoardBefore(k + 1)
            && !ApplyMove(b, Wish(k, b)).Win()
  {
    hide Eval, Legal, TensMove, ApplyMove, Wish;
    var b, j, op := BoardBefore(k), (k - 1) / 2, PacingOp(k / 2 + 1);
    Powers();
    EvalNested(Pacing(j), 10, 10, op, op);
    TensMoveLegal(b, op, op, Pacing(k / 2));
    WishOf(k, b);
  }

  lemma WishOf(k: nat, b: Board)
    ensures k == 1 ==> Wish(k, b) == TensMove(b, Sub, Mul, -100)
    ensures k > 1 && k % 2 == 1 ==> Wish(k, b) == TensMove(b, Mul, Mul, 100 * b.pawn1)
    ensures k % 2 == 0 ==> Wish(k, b) == TensMove(b, PacingOp(k / 2 + 1), PacingOp(k / 2 + 1), Pacing(k / 2))
  {
    hide TensMove;
  }

  lemma Powers()
    ensures Pow100(0) == 1 && Pow100(1) == 100 && Pow100(2) == 10_000 && Pow100(3) == 1_000_000
    ensures Pow100(4) == 100_000_000 && Pow100(5) == 10_000_000_000
  {
  }

  /** The plan of this match is the wishes coming true, for nine rounds. */
  lemma {:induction false} PlanIsWishes(k: nat)
    requires 1 <= k <= 9
    ensures Live(Tens(), k) && MoverBoard(Tens(), k - 1) == BoardBefore(k)
    ensures MoveOf(Tens(), k) == Wish(k, BoardBefore(k)) && !Wins(Tens(), k)
  {
    hide DiceOf, Die1, Die2, First, Wish, BoardBefore, Legal, ApplyMove, MoverBoard, MoveOf, ViewOf, EntryOf, LogOf, Tens;
    BoardIs(Tens(), k - 1);
    TensRolled(k - 1);
    if k == 1 {
      assert BoardBefore(1) == START by { OpeningWish(); }
    } else {
      PlanIsWishes(k - 1);
      WishIsLegal(k - 1);
    }
    MoveIsWish(k);
    WishIsLegal(k);
  }

  lemma MoveIsWish(k: nat)
    requires 1 <= k <= 9 && MoverBoard(Tens(), k - 1) == BoardBefore(k)
    ensures MoveOf(Tens(), k) == Wish(k, BoardBefore(k))
  {
    hide Legal, Enumeration, Wish, BoardBefore, Mover, First, DiceOf, Die1, Die2, MoverBoard, MoveOf, ViewOf, EntryOf, LogOf;
    var b := BoardBefore(k);
    TensRolled(k);
    MoveOfIs(Tens(), k);
    WishIsLegal(k);
    EnumerationMember(b, 10, 10, Wish(k, b));
    assert |LogOf(Tens(), Mover(Tens(), k), k - 1)| + 1 == k;
  }

  lemma OpeningWish()
    ensures BoardBefore(1) == START
  {
  }

  lemma NinthMoveDoesNotFit()
    ensures Live(Tens(), 10) && !Fits(Tens(), 9) && Mover(Tens(), 9) == A
  {
    hide Live, DiceOf, Die1, First, Wins, MoveOf, MoverBoard, ViewOf, EntryOf, LogOf;
    PlanIsWishes(9);
    TensRolled(9);
    LiveTen();
    Powers();
  }

  lemma LiveTen()
    requires Live(Tens(), 9) && DiceOf(Tens(), 9).Some? && !Wins(Tens(), 9)
    ensures Live(Tens(), 10)
  {
    hide DiceOf, Wins;
  }

  /** Nobody is finished before round ten. */
  lemma StillRunning(side: Side, p: Player)
    requires PlayerOk(Tens(), side, p) && p.round <= 9
    ensures p.status == Running
  {
    hide DiceOf, Wins, ViewOf, LogOf, First, Mover, MoverBoard, MoveOf, EntryOf;
    TensRolled(p.round);
    NinthMoveDoesNotFit();
    if p.round >= 2 {
      LiveBefore(Tens(), p.round - 1, 10);
    }
  }

  /** What is left of -10^10 on the wire is nothing that a pawn on -10^8 can reach. */
  lemma WrappedMoveIsIllegal(m: Move)
    requires m.pawn1.result == -1_410_065_408
    ensures !HasLegalEffect(BoardBefore(9), 10, 10, m)
  {
    hide IsPawnMove, Pow100;
    Powers();
    if m' :| Legal(BoardBefore(9), 10, 10, m') && SameEffect(m, m') {
      var alloc :| alloc in AllAllocations(10, 10, -100_000_000, 0)
        && FromAllocation(-100_000_000, 0, BoardBefore(9).peer1, BoardBefore(9).peer2, alloc, m');
      NotReached(alloc.pawn1, m'.pawn1.(bump := NoBump));
    }
  }

  lemma NotReached(dice: seq<int>, m: PawnMove)
    requires dice in {[], [10], [10, 10]} && IsPawnMove(-100_000_000, dice, m)
    ensures m.result != -1_410_065_408
  {
    hide Eval, LeftNested, RightNested, IsTwoDiceShape, ApplyOp;
    if dice == [10] {
      var op := m.expr.value.op;
      assert Eval(m.expr.value) == ApplyOp(op, -100_000_000, 10) by { OneOperator(op, -100_000_000, 10); }
      OneTen(op);
    } else if dice == [10, 10] {
      TwoTens(m.expr.value);
    }
  }

  lemma OneTen(op: Op)
    ensures ApplyOp(op, -100_000_000, 10) in
            {Some(-99_999_990), Some(-100_000_010), Some(-1_000_000_000), Some(-10_000_000), None}
  {
  }

  lemma TwoTens(e: Expr)
    requires IsTwoDiceShape(-100_000_000, 10, 10, e)
    ensures Eval(e) != Some(-1_410_065_408)
  {
    hide Eval, LeftNested, RightNested, ApplyOp;
    var s := -100_000_000;
    if e.left.Node? && e == LeftNested(s, 10, 10, e.left.op, e.op) {
      EvalNested(s, 10, 10, e.left.op, e.op);
      OneTen(e.left.op);
      LeftTens(e.left.op, e.op);
    } else {
      EvalNested(s, 10, 10, e.op, e.right.op);
      RightTens(e.op, e.right.op);
    }
  }

  lemma LeftTens(op1: Op, op2: Op)
    ensures LeftValue(-100_000_000, 10, 10, op1, op2) != Some(-1_410_065_408)
  {
    hide ApplyOp;
    OneTen(op1);
    var l := ApplyOp(op1, -100_000_000, 10);
    if l.Some? {
      OffTens(op2, l.value);
    }
  }

  lemma OffTens(op: Op, l: int)
    requires l in {-99_999_990, -100_000_010, -1_000_000_000, -10_000_000}
    ensures ApplyOp(op, l, 10) != Some(-1_410_065_408)
  {
  }

  lemma RightTens(op1: Op, op2: Op)
    ensures RightValue(-100_000_000, 10, 10, op1, op2) != Some(-1_410_065_408)
  {
    hide ApplyOp;
    assert ApplyOp(op2, 10, 10) in {Some(20), Some(0), Some(100), Some(1), None} by { TenAndTen(op2); }
    var r := ApplyOp(op2, 10, 10);
    if r.Some? {
      OffDice(op1, r.value);
    }
  }

  lemma TenAndTen(op: Op)
    ensures ApplyOp(op, 10, 10) in {Some(20), Some(0), Some(100), Some(1), None}
  {
  }

  lemma OffDice(op: Op, r: int)
    requires r in {20, 0, 100, 1}
    ensures ApplyOp(op, -100_000_000, r) != Some(-1_410_065_408)
  {
  }

  lemma NinthMoveWraps()
    ensures Delivered(Stream, MoveOf(Tens(), 9)).pawn1.result == -1_410_065_408
  {
    hide MoverBoard, MoveOf, ViewOf, EntryOf, LogOf, Live, Wins, Legal, ApplyMove;
    PlanIsWishes(9);
    Powers();
    assert MoveOf(Tens(), 9).pawn1.result == -10_000_000_000;
    assert Wrap32(-10_000_000_000) == -1_410_065_408;
  }

  /** A first player never meets a move that does not fit, and a second player only in round nine. */
  lemma OnlyRoundNine(side: Side, s: Duo)
    requires OnPlan(Tens(), s) && s.peer.round <= 9 && Next(Tens(), side, s).Some?
    requires !ReceivesFittingMove(Tens(), if side == A then s.me else s.peer)
    ensures side == B && s.peer.round == 9
  {
    hide PlayerOk, Tens, Fits, Caught, InFlight, Live;
    var c := Tens();
    var p := if side == A then s.me else s.peer;
    TensMemberStrategies();
    TensStreams();
    RoundTakesPlace(c, side, p);
    if 1 <= p.round <= 8 {
      EarlyRoundsFit(c, p.round);
    }
    if side == A {
      Together(c, s);
      PeerHasTurnLeft(s);
      FirstKnown(c, A, s.me);
      TensRolled(0);
    }
  }

  lemma TensStreams()
    ensures Tens().transport == Stream
  {
  }

  lemma RoundTakesPlace(c: Config, side: Side, p: Player)
    requires PlayerOk(c, side, p) && p.status == Running
    ensures Live(c, p.round)
  {
  }

  /** In round nine the second player refuses what it receives. */
  lemma RoundNineRefused(s: Duo)
    requires OnPlan(Tens(), s) && s.peer.round == 9 && Next(Tens(), B, s).Some? && !ReceivesFittingMove(Tens(), s.peer)
    ensures Next(Tens(), B, s).value.peer.status == Refused
  {
    hide PlayerOk, LinkOk, Step, ReceivesFittingMove, Tens, HasLegalEffect, MoveOf, Delivered, ApplyPeerMove, BoardBefore;
    var c, p := Tens(), s.peer;
    TensMemberStrategies();
    TensStreams();
    assert s.Swap().Swap() == s;
    UnfitStepLeavesPlan(c, B, s.Swap());
    NinthMoveWraps();
    PeerHasTurnLeft(s);
    RoundNineBoard(p);
    WrappedMoveIsIllegal(Delivered(Stream, MoveOf(c, 9)));
  }

  lemma RoundNineBoard(p: Player)
    requires PlayerOk(Tens(), B, p) && p.round == 9 && !ReceivesFittingMove(Tens(), p) && p.status == Running
    ensures p.board.Mirror() == BoardBefore(9) && |p.rolls| >= 2 && p.rolls[0] == 10 && p.rolls[1] == 10
  {
    hide MoverBoard, MoveOf, ViewOf, EntryOf, LogOf, Live, Wins, Tens, Die1, Die2, DiceOf, First, BoardBefore, Fits;
    PlanIsWishes(9);
    TensRolled(9);
    EightDice(Tens(), 9);
    ViewIs(Tens(), B, 8);
    assert BoardBefore(9).Mirror().Mirror() == BoardBefore(9);
  }

  /** However the two go on, all is well until the second player has to take its ninth turn. */
  lemma {:induction false} GoesOffPlan(schedule: seq<Side>) returns (schedule': seq<Side>)
    requires After(Tens(), schedule).Some?
    requires var s := After(Tens(), schedule).value;
             OnPlan(Tens(), s) && s.peer.round <= 9 && Pos(s.me) + Pos(s.peer) == |schedule|
    ensures After(Tens(), schedule').Some? && After(Tens(), schedule').value.peer.status == Refused
    decreases 200 - |schedule|
  {
    hide OnPlan, Next, Tens, ReceivesFittingMove, Pos;
    var c, s := Tens(), After(Tens(), schedule).value;
    TensMemberStrategies();
    PeerHasTurnLeft(s);
    NoDeadlock(c, s);
    Together(c, s);
    var side := if Next(c, A, s).Some? then A else B;
    schedule' := schedule + [side];
    assert schedule'[..|schedule|] == schedule;
    OnPlanNext(c, side, s);
    if OnPlan(c, Next(c, side, s).value) {
      NextKeepsPlan(c, side, s);
      NinthTurnIsNotPassed(side, s);
      schedule' := GoesOffPlan(schedule');
    } else {
      OnlyRoundNine(side, s);
      RoundNineRefused(s);
    }
  }

  lemma PeerHasTurnLeft(s: Duo)
    requires OnPlan(Tens(), s) && s.peer.round <= 9
    ensures s.peer.status == Running && Pos(s.peer) < 70
  {
    hide PlayerOk, LinkOk;
    StillRunning(B, s.peer);
    PhaseBound(Tens(), B, s.peer);
  }

  lemma NinthTurnIsNotPassed(side: Side, s: Duo)
    requires OnPlan(Tens(), s) && s.peer.round <= 9 && Next(Tens(), side, s).Some?
    requires ReceivesFittingMove(Tens(), if side == A then s.me else s.peer)
    ensures Next(Tens(), side, s).value.peer.round <= 9
  {
    hide LinkOk, Step, PlayerOk, ReceivesFittingMove, Tens;
    var c := Tens();
    if side == B {
      OneRoundAtATime(c, B, s.Swap());
      if s.peer.round == 9 {
        NinthTurnAhead(s.peer);
      }
    } else {
      PeerUntouched(c, s);
    }
  }

  lemma NinthTurnAhead(p: Player)
    requires PlayerOk(Tens(), B, p) && p.round == 9 && ReceivesFittingMove(Tens(), p)
    ensures p.phase < 6
  {
    hide PlayerOk, Tens, Fits, First, MoverBoard, MoveOf, ViewOf, EntryOf, LogOf;
    NinthMoveDoesNotFit();
    FirstKnown(Tens(), B, p);
    PhaseBound(Tens(), B, p);
    TensRolled(0);
  }

  lemma PeerUntouched(c: Config, v: Duo)
    requires Step(c, A, v).Some?
    ensures Step(c, A, v).value.peer == v.peer
  {
    hide ActionOf, OnReceive;
  }

  /** A round ends only in its last phase. */
  lemma OneRoundAtATime(c: Config, side: Side, v: Duo)
    requires Step(c, side, v).Some?
    ensures Step(c, side, v).value.me.round <= v.me.round + if v.me.phase >= 6 then 1 else 0
  {
    hide HasLegalEffect, CanMove, ApplyMove, ApplyPeerMove, Extract, SharedSum, Delivered;
  }

  /** So there is a match between honest players in which one refuses the other's legal move. */
  lemma LegalMoveRefused() returns (c: Config, schedule: seq<Side>)
    ensures MemberStrategies(c) && c.transport == Stream
    ensures After(c, schedule).Some? && After(c, schedule).value.peer.status == Refused
  {
    c := Tens();
    TensMemberStrategies();
    StartOnPlan(c);
    schedule := GoesOffPlan([]);
  }
}
