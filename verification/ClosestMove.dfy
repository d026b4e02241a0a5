/** The default strategy: what it picks, what that is worth, and what it is not. */
module ClosestMove {
  import opened Boards
  import opened Completeness
  import opened Game
  import opened MachineInts
  import opened Moves
  import opened Options

  /** Neither pawn of `m` gets further than the same pawn of `best`. */
  predicate NoBetter(m: Move, best: Move) {
    m.pawn1.result <= best.pawn1.result && m.pawn2.result <= best.pawn2.result
  }

  /** One look at a move: it replaces the best so far if either pawn gets further. */
  function Keep(best: Move, m: Move): Move {
    if NoBetter(m, best) then best else m
  }

  function Pick(moves: seq<Move>): Move
    requires moves != []
  {
    var k := |moves| - 1;
    if k == 0 then moves[0] else Keep(Pick(moves[..k]), moves[k])
  }

  /** No move after the `i`-th betters it. */
  predicate Settled(moves: seq<Move>, i: nat) {
    i < |moves| && forall j | i < j < |moves| :: NoBetter(moves[j], moves[i])
  }

  predicate Dominates(moves: seq<Move>, best: Move) {
    best in moves && forall m | m in moves :: NoBetter(m, best)
  }

  method ChooseMove(moves: seq<Move>) returns (best: Move)
    requires |moves| > 0
    ensures best == Pick(moves) && best in moves
    ensures exists i: nat :: Settled(moves, i) && moves[i] == best
    ensures Dominates(moves, best) <==> exists top :: Dominates(moves, top)
  {
    best := moves[0];
    for k := 0 to |moves|
      invariant best == if k == 0 then moves[0] else Pick(moves[..k])
    {
      var m := moves[k];
      assert moves[..k + 1][..k] == moves[..k];
      if m.pawn1.result > best.pawn1.result {
        best := m;
      }
      if m.pawn2.result > best.pawn2.result {
        best := m;
      }
    }
    assert moves[..|moves|] == moves;
    ghost var i := PickSettled(moves);
    PickDominates(moves);
  }

  /** The pick is on the list, and nothing after it betters it. */
  lemma {:induction false} PickSettled(moves: seq<Move>) returns (i: nat)
    requires moves != []
    ensures Settled(moves, i) && moves[i] == Pick(moves)
    ensures i == 0 || !NoBetter(moves[i], Pick(moves[..i]))
  {
    var k := |moves| - 1;
    i := k;
    if k > 0 {
      var i' := PickSettled(moves[..k]);
      assert moves[..k][..i'] == moves[..i'];
      if NoBetter(moves[k], moves[i']) {
        i := i';
        assert forall j | i < j < k :: moves[j] == moves[..k][j];
      }
    }
  }

  /** The pick is at least as good, on both pawns, as any move that nothing after it betters. */
  lemma {:induction false} PickCovers(moves: seq<Move>, i: nat)
    requires Settled(moves, i)
    ensures NoBetter(moves[i], Pick(moves))
  {
    var k := |moves| - 1;
    if i < k {
      assert forall j | i < j < k :: moves[..k][j] == moves[j];
      PickCovers(moves[..k], i);
    }
  }

  /** The pick beats every move on both pawns exactly when some move does. */
  lemma PickDominates(moves: seq<Move>)
    requires moves != []
    ensures Dominates(moves, Pick(moves)) <==> exists top :: Dominates(moves, top)
  {
    var i := PickSettled(moves);
    if top :| Dominates(moves, top) {
      var j :| 0 <= j < |moves| && moves[j] == top;
      PickCovers(moves, j);
    }
  }

  /** How far the further of the two pawns gets. */
  function Furthest(m: Move): int {
    if m.pawn1.result >= m.pawn2.result then m.pawn1.result else m.pawn2.result
  }

  /** No move on the list gets any pawn further than one of `m`'s gets. */
  predicate HasClosestPawn(moves: seq<Move>, m: Move) {
    forall m' | m' in moves :: Furthest(m') <= Furthest(m)
  }

  /**
   The pick has the pawn closest to the goal exactly when some move has it that no later move
   betters on either pawn.
   */
  lemma ClosestPawnIff(moves: seq<Move>)
    requires moves != []
    ensures HasClosestPawn(moves, Pick(moves)) <==> exists i: nat :: Settled(moves, i) && HasClosestPawn(moves, moves[i])
  {
    var i := PickSettled(moves);
    if i': nat :| Settled(moves, i') && HasClosestPawn(moves, moves[i']) {
      PickCovers(moves, i');
    }
  }

  /** The strategy a player has by default; it is never shown an empty list. */
  function DefaultStrategy(): Strategy {
    (b: Board, log: seq<GameLogEntry>, moves: seq<Move>) =>
      if moves == [] then Move(Candidate(Value(0), 0), Candidate(Value(0), 0)) else Pick(moves)
  }

  lemma DefaultChoosesMember()
    ensures ChoosesMember(DefaultStrategy())
  {
    forall moves: seq<Move> | moves != []
      ensures Pick(moves) in moves
    {
      var i := PickSettled(moves);
    }
  }

  // The opening roll 1, 1.

  lemma {:induction false} PickStays(moves: seq<Move>, more: seq<Move>)
    requires moves != [] && forall m | m in more :: NoBetter(m, Pick(moves))
    ensures Pick(moves + more) == Pick(moves)
  {
    if more == [] {
      assert moves + more == moves;
    } else {
      var k := |more| - 1;
      PickStays(moves, more[..k]);
      assert (moves + more)[..|moves| + k] == moves + more[..k];
    }
  }

  /** A further stretch whose first move is an improvement, and beats the rest of the stretch. */
  lemma PickMovesOn(moves: seq<Move>, more: seq<Move>)
    requires moves != [] && more != []
    requires !NoBetter(more[0], Pick(moves)) && forall m | m in more :: NoBetter(m, more[0])
    ensures Pick(moves + more) == more[0]
  {
    var upto := moves + [more[0]];
    assert upto[..|moves|] == moves && Pick(upto) == more[0];
    PickStays(upto, more[1..]);
    assert upto + more[1..] == moves + more;
  }

  lemma {:induction false} FirstTried(exprs: seq<Expr>, r: int)
    requires exprs != [] && EvalWithMax(exprs[0], GOAL) == Some(r)
    ensures Tried(exprs) != [] && Tried(exprs)[0] == Candidate(exprs[0], r)
  {
    hide EvalWithMax;
    var k := |exprs| - 1;
    if k == 0 {
      assert Tried(exprs[..0]) == [];
    } else {
      FirstTried(exprs[..k], r);
    }
  }

  lemma {:induction false} FirstOfRow(p1: int, p2: int, peer1: int, peer2: int, m1: PawnMove, ms2: seq<PawnMove>, j: nat)
    requires 1 <= j <= |ms2| && Joined(p1, p2, peer1, peer2, m1, ms2[0]) != []
    ensures var row := JoinedRow(p1, p2, peer1, peer2, m1, ms2, j);
            row != [] && row[0] == Joined(p1, p2, peer1, peer2, m1, ms2[0])[0]
  {
    hide Joined;
    if j > 1 {
      FirstOfRow(p1, p2, peer1, peer2, m1, ms2, j - 1);
    } else {
      assert JoinedRow(p1, p2, peer1, peer2, m1, ms2, 0) == [];
    }
  }

  lemma {:induction false} FirstOfGrid(
    p1: int, p2: int, peer1: int, peer2: int, ms1: seq<PawnMove>, ms2: seq<PawnMove>, i: nat)
    requires 1 <= i <= |ms1| && ms2 != [] && Joined(p1, p2, peer1, peer2, ms1[0], ms2[0]) != []
    ensures var grid := JoinedGrid(p1, p2, peer1, peer2, ms1, ms2, i);
            grid != [] && grid[0] == Joined(p1, p2, peer1, peer2, ms1[0], ms2[0])[0]
  {
    hide Joined, JoinedRow;
    if i > 1 {
      FirstOfGrid(p1, p2, peer1, peer2, ms1, ms2, i - 1);
    } else {
      FirstOfRow(p1, p2, peer1, peer2, ms1[0], ms2, |ms2|);
      assert JoinedGrid(p1, p2, peer1, peer2, ms1, ms2, 0) == [];
    }
  }

  /** What a pawn at the start can do with up to two ones: add them up first, and get no further. */
  lemma Ones(dice: seq<int>)
    requires dice in {[], [1], [1, 1]}
    ensures PawnList(0, dice) != [] && PawnList(0, dice)[0].result == |dice|
    ensures forall m | m in PawnList(0, dice) :: m.result <= |dice|
  {
    if dice == [1] {
      FirstOneDie(0, 1);
      FirstTried(OneDieShapes(0, 1, |OPS|), 1);
    } else if dice == [1, 1] {
      FirstTwoDice(0, 1, 1);
      FirstTried(GridShapes(0, 1, 1, |OPS|) + GridShapes(0, 1, 1, |OPS|), 2);
    }
    forall m | m in PawnList(0, dice)
      ensures m.result <= |dice|
    {
      PawnListMember(0, dice, m);
      OnesBounded(dice, m);
    }
  }

  lemma FirstOneDie(start: int, die: int)
    ensures OneDieShapes(start, die, |OPS|) != [] && OneDieShapes(start, die, |OPS|)[0] == Node(Add, Value(start), Value(die))
  {
    assert OneDieShapes(start, die, 1) == [Node(Add, Value(start), Value(die))];
    assert OneDieShapes(start, die, 2)[0] == OneDieShapes(start, die, 1)[0];
    assert OneDieShapes(start, die, 3)[0] == OneDieShapes(start, die, 2)[0];
  }

  lemma FirstTwoDice(s: int, a: int, b: int)
    ensures GridShapes(s, a, b, |OPS|) != [] && GridShapes(s, a, b, |OPS|)[0] == LeftNested(s, a, b, Add, Add)
  {
    hide PairShapes;
    FirstInRow(s, a, b);
    assert GridShapes(s, a, b, 0) == [];
    assert GridShapes(s, a, b, 1) == RowShapes(s, a, b, Add, |OPS|);
    assert GridShapes(s, a, b, 2)[0] == GridShapes(s, a, b, 1)[0];
    assert GridShapes(s, a, b, 3)[0] == GridShapes(s, a, b, 2)[0];
  }

  lemma FirstInRow(s: int, a: int, b: int)
    ensures RowShapes(s, a, b, Add, |OPS|) != [] && RowShapes(s, a, b, Add, |OPS|)[0] == LeftNested(s, a, b, Add, Add)
  {
    hide LeftNested, RightNested;
    assert RowShapes(s, a, b, Add, 0) == [];
    assert RowShapes(s, a, b, Add, 1)[0] == LeftNested(s, a, b, Add, Add);
    assert RowShapes(s, a, b, Add, 2)[0] == RowShapes(s, a, b, Add, 1)[0];
    assert RowShapes(s, a, b, Add, 3)[0] == RowShapes(s, a, b, Add, 2)[0];
  }

  lemma OnesBounded(dice: seq<int>, m: PawnMove)
    requires dice in {[], [1], [1, 1]} && IsPawnMove(0, dice, m)
    ensures m.result <= |dice|
  {
    hide Eval, LeftNested, RightNested, IsTwoDiceShape;
    if dice == [1] {
      assert Eval(m.expr.value) == ApplyOp(m.expr.value.op, 0, 1) by { OneOperator(m.expr.value.op, 0, 1); }
    } else if dice == [1, 1] {
      OnesNested(m.expr.value);
    }
  }

  lemma OnesNested(e: Expr)
    requires IsTwoDiceShape(0, 1, 1, e)
    ensures Eval(e).Some? ==> Eval(e).value <= 2
  {
    hide Eval, LeftNested, RightNested;
    if e.left.Node? && e == LeftNested(0, 1, 1, e.left.op, e.op) {
      EvalNested(0, 1, 1, e.left.op, e.op);
    } else {
      EvalNested(0, 1, 1, e.op, e.right.op);
    }
  }

  /** What one allocation of the two ones contributes: its first move, and that it is the best of them. */
  lemma OnesAllocated(alloc: Allocation)
    requires alloc in AllAllocations(1, 1, 0, 0)
    ensures var moves := MovesOf(0, 0, 0, 0, alloc);
            && moves != [] && moves[0].pawn1.result == |alloc.pawn1| && moves[0].pawn2.result == |alloc.pawn2|
            && forall m | m in moves :: NoBetter(m, moves[0])
  {
    hide PawnList, JoinedGrid, Legal, IsPawnMove;
    var ms1, ms2 := PawnList(0, alloc.pawn1), PawnList(0, alloc.pawn2);
    Ones(alloc.pawn1);
    Ones(alloc.pawn2);
    FirstOfGrid(0, 0, 0, 0, ms1, ms2, |ms1|);
    forall m | m in MovesOf(0, 0, 0, 0, alloc)
      ensures m.pawn1.result <= |alloc.pawn1| && m.pawn2.result <= |alloc.pawn2|
    {
      AllocationMember(0, 0, 0, 0, alloc, m);
      PawnListMember(0, alloc.pawn1, m.pawn1.(bump := NoBump));
      PawnListMember(0, alloc.pawn2, m.pawn2.(bump := NoBump));
    }
  }

  lemma OpeningList() returns (l1: seq<Move>, l2: seq<Move>, l3: seq<Move>, l4: seq<Move>)
    ensures Enumeration(START, 1, 1) == l1 + l2 + l3 + l4
    ensures l1 == MovesOf(0, 0, 0, 0, Allocation([], [1, 1])) && l2 == MovesOf(0, 0, 0, 0, Allocation([1, 1], []))
    ensures l3 == l4 == MovesOf(0, 0, 0, 0, Allocation([1], [1]))
  {
    hide MovesOf;
    var allocs := AllAllocations(1, 1, 0, 0);
    l1, l2 := MovesOf(0, 0, 0, 0, allocs[0]), MovesOf(0, 0, 0, 0, allocs[1]);
    l3, l4 := MovesOf(0, 0, 0, 0, allocs[2]), MovesOf(0, 0, 0, 0, allocs[3]);
    assert MovesOfFirst(0, 0, 0, 0, allocs, 0) == [];
    assert MovesOfFirst(0, 0, 0, 0, allocs, 1) == l1;
    assert MovesOfFirst(0, 0, 0, 0, allocs, 2) == l1 + l2;
    assert MovesOfFirst(0, 0, 0, 0, allocs, 3) == l1 + l2 + l3;
  }

  /**
   At a turn any game can begin with, the default strategy does not pick a move with a pawn closest
   to the goal: on the opening roll 1, 1 it takes both pawns to 1, when either could go to 2.
   */
  lemma NotAlwaysClosest()
    ensures var moves := Enumeration(START, 1, 1);
            && moves != [] && Pick(moves).pawn1.result == 1 && Pick(moves).pawn2.result == 1
            && (exists m | m in moves :: m.pawn1.result == 2) && (exists m | m in moves :: m.pawn2.result == 2)
            && !HasClosestPawn(moves, Pick(moves))
  {
    hide Enumeration, MovesOf, Pick, Legal;
    var l1, l2, l3, l4 := OpeningList();
    var allocs := AllAllocations(1, 1, 0, 0);
    assert allocs[0] in allocs && allocs[1] in allocs && allocs[2] in allocs;
    OnesAllocated(allocs[0]);
    OnesAllocated(allocs[1]);
    OnesAllocated(allocs[2]);
    PickFirst(l1);
    PickMovesOn(l1, l2);
    PickMovesOn(l1 + l2, l3);
    PickStays(l1 + l2 + l3, l4);
    assert l1[0] in l1 + l2 + l3 + l4 && l2[0] in l1 + l2 + l3 + l4;
    assert Furthest(l1[0]) == 2 && l1[0].pawn2.result == 2 && l2[0].pawn1.result == 2;
  }

  lemma PickFirst(moves: seq<Move>)
    requires moves != [] && forall m | m in moves :: NoBetter(m, moves[0])
    ensures Pick(moves) == moves[0]
  {
    assert Pick(moves[..1]) == moves[0];
    assert moves[..1] + moves[1..] == moves;
    PickStays(moves[..1], moves[1..]);
  }
}
