/**
 Arithmetic moves of FactorFight: expressions over a pawn's square and the dice, the
 enumeration of a player's moves, and what that enumeration contains.
 */
module Moves {
  import opened MachineInts
  import opened Options

  const GOAL := 101

  datatype Op = Add | Sub | Mul | Div | UnknownOp(symbol: string)

  datatype Expr = Value(n: int) | Node(op: Op, left: Expr, right: Expr)

  /** One operator on 64-bit operands. Division is exact or fails, so its rounding never matters. */
  function ApplyOp(op: Op, l: int, r: int): (v: Option<int>) {
    match op
    case Add => Some(Wrap64(l + r))
    case Sub => Some(Wrap64(l - r))
    case Mul => Some(Wrap64(l * r))
    case Div => if r == 0 || l % r != 0 then None else Some(Wrap64(l / r))
    case UnknownOp(_) => None
  }

  function Eval(e: Expr): Option<int> {
    match e
    case Value(n) => Some(n)
    case Node(op, left, right) =>
      var l, r := Eval(left), Eval(right);
      if l.None? || r.None? then None else ApplyOp(op, l.value, r.value)
  }

  function EvalWithMax(e: Expr, max: int): Option<int> {
    var r := Eval(e);
    if r.Some? && r.value > max then None else r
  }

  /** What happens to the pawn a move lands on; `OtherBump` is any other code a peer may send. */
  datatype BumpStatus = NoBump | BumpedPeer1 | BumpedPeer2 | BumpedSelf | OtherBump(code: int)

  /** `expr` is absent on a move that came off the wire, which does not carry the expression. */
  datatype PawnMove = PawnMove(expr: Option<Expr>, result: int, bump: BumpStatus)

  datatype Move = Move(pawn1: PawnMove, pawn2: PawnMove)

  const OPS: seq<Op> := [Add, Sub, Mul, Div]

  function LeftNested(s: int, a: int, b: int, op1: Op, op2: Op): Expr {
    Node(op2, Node(op1, Value(s), Value(a)), Value(b))
  }

  function RightNested(s: int, a: int, b: int, op1: Op, op2: Op): Expr {
    Node(op1, Value(s), Node(op2, Value(a), Value(b)))
  }

  /** The right-nested forms the enumeration leaves out as duplicates. */
  predicate Pruned(op1: Op, op2: Op) {
    || ((op1 == Add || op1 == Sub) && (op2 == Add || op2 == Sub))
    || (op1 == Mul && op2 == Mul)
  }

  predicate IsTwoDiceShape(s: int, a: int, b: int, e: Expr) {
    && e.Node?
    && e.op in OPS
    && ((e.left.Node? && e.left.op in OPS && e == LeftNested(s, a, b, e.left.op, e.op))
        || (e.right.Node? && e.right.op in OPS && !Pruned(e.op, e.right.op)
            && e == RightNested(s, a, b, e.op, e.right.op)))
  }

  /** The expressions enumerated for a pawn on `start` that is handed `dice`. */
  predicate IsShape(start: int, dice: seq<int>, e: Expr) {
    match |dice|
    case 0 => e == Value(start)
    case 1 => e.Node? && e.op in OPS && e == Node(e.op, Value(start), Value(dice[0]))
    case 2 => IsTwoDiceShape(start, dice[0], dice[1], e) || IsTwoDiceShape(start, dice[1], dice[0], e)
    case _ => false
  }

  /** The moves enumerated for one pawn: a pawn with no die stays, whatever its square. */
  predicate IsPawnMove(start: int, dice: seq<int>, m: PawnMove) {
    && m.expr.Some?
    && m.bump == NoBump
    && IsShape(start, dice, m.expr.value)
    && (if |dice| == 0 then m.result == start else EvalWithMax(m.expr.value, GOAL) == Some(m.result))
  }

  function Candidate(e: Expr, r: int): PawnMove {
    PawnMove(Some(e), r, NoBump)
  }

  /** The candidates among `exprs`, in order: those that evaluate to at most the goal. */
  function Tried(exprs: seq<Expr>): seq<PawnMove> {
    if exprs == [] then [] else Tried(exprs[..|exprs| - 1]) + TriedOne(exprs[|exprs| - 1])
  }

  function TriedOne(e: Expr): seq<PawnMove> {
    var r := EvalWithMax(e, GOAL);
    if r.Some? then [Candidate(e, r.value)] else []
  }

  lemma TriedOneMore(exprs: seq<Expr>, e: Expr)
    ensures Tried(exprs + [e]) == Tried(exprs) + TriedOne(e)
  {
    hide TriedOne;
    assert (exprs + [e])[..|exprs|] == exprs;
  }

  lemma {:induction false} TriedMember(exprs: seq<Expr>, m: PawnMove)
    ensures m in Tried(exprs) <==>
            m.expr.Some? && m.expr.value in exprs && m.bump == NoBump && EvalWithMax(m.expr.value, GOAL) == Some(m.result)
  {
    hide EvalWithMax;
    if exprs != [] {
      var k := |exprs| - 1;
      TriedMember(exprs[..k], m);
      assert exprs == exprs[..k] + [exprs[k]];
    }
  }

  /** The forms tried for one die and the first `j` operators. */
  function OneDieShapes(start: int, die: int, j: nat): seq<Expr>
    requires j <= |OPS|
  {
    if j == 0 then [] else OneDieShapes(start, die, j - 1) + [Node(OPS[j - 1], Value(start), Value(die))]
  }

  function PairShapes(s: int, a: int, b: int, op1: Op, op2: Op): seq<Expr> {
    [LeftNested(s, a, b, op1, op2)] + if Pruned(op1, op2) then [] else [RightNested(s, a, b, op1, op2)]
  }

  /** The forms tried with `op1` first and one of the first `j` operators second. */
  function RowShapes(s: int, a: int, b: int, op1: Op, j: nat): seq<Expr>
    requires j <= |OPS|
  {
    if j == 0 then [] else RowShapes(s, a, b, op1, j - 1) + PairShapes(s, a, b, op1, OPS[j - 1])
  }

  function GridShapes(s: int, a: int, b: int, i: nat): seq<Expr>
    requires i <= |OPS|
  {
    if i == 0 then [] else GridShapes(s, a, b, i - 1) + RowShapes(s, a, b, OPS[i - 1], |OPS|)
  }

  lemma {:induction false} OneDieMember(start: int, die: int, j: nat, e: Expr)
    requires j <= |OPS|
    ensures e in OneDieShapes(start, die, j) <==> exists x | 0 <= x < j :: e == Node(OPS[x], Value(start), Value(die))
  {
    if j > 0 {
      OneDieMember(start, die, j - 1, e);
    }
  }

  lemma {:induction false} RowMember(s: int, a: int, b: int, op1: Op, j: nat, e: Expr)
    requires j <= |OPS|
    ensures e in RowShapes(s, a, b, op1, j) <==> exists y | 0 <= y < j :: e in PairShapes(s, a, b, op1, OPS[y])
  {
    hide PairShapes;
    if j > 0 {
      RowMember(s, a, b, op1, j - 1, e);
    }
  }

  lemma {:induction false} GridMember(s: int, a: int, b: int, i: nat, e: Expr)
    requires i <= |OPS|
    ensures e in GridShapes(s, a, b, i) <==>
            exists x, y | 0 <= x < i && 0 <= y < |OPS| :: e in PairShapes(s, a, b, OPS[x], OPS[y])
  {
    hide PairShapes, RowShapes;
    if i > 0 {
      GridMember(s, a, b, i - 1, e);
      RowMember(s, a, b, OPS[i - 1], |OPS|, e);
    }
  }

  lemma GridIsShapes(s: int, a: int, b: int, e: Expr)
    ensures e in GridShapes(s, a, b, |OPS|) <==> IsTwoDiceShape(s, a, b, e)
  {
    GridMember(s, a, b, |OPS|, e);
    if IsTwoDiceShape(s, a, b, e) {
      var x :| 0 <= x < |OPS| && OPS[x] == e.op;
      if e.left.Node? {
        var y :| 0 <= y < |OPS| && OPS[y] == e.left.op;
        assert e in PairShapes(s, a, b, OPS[y], OPS[x]);
      } else {
        var y :| 0 <= y < |OPS| && OPS[y] == e.right.op;
        assert e in PairShapes(s, a, b, OPS[x], OPS[y]);
      }
    }
  }

  /** The candidates of one pawn, in the order in which they are found. */
  function PawnList(start: int, dice: seq<int>): seq<PawnMove> {
    match |dice|
    case 0 => [Candidate(Value(start), start)]
    case 1 => Tried(OneDieShapes(start, dice[0], |OPS|))
    case 2 => Tried(GridShapes(start, dice[0], dice[1], |OPS|) + GridShapes(start, dice[1], dice[0], |OPS|))
    case _ => []
  }

  lemma PawnListMember(start: int, dice: seq<int>, m: PawnMove)
    ensures m in PawnList(start, dice) <==> IsPawnMove(start, dice, m)
  {
    hide EvalWithMax, IsTwoDiceShape, Tried, OneDieShapes, GridShapes;
    if |dice| == 1 {
      TriedMember(OneDieShapes(start, dice[0], |OPS|), m);
      if m.expr.Some? {
        OneDieMember(start, dice[0], |OPS|, m.expr.value);
      }
    } else if |dice| == 2 {
      TriedMember(GridShapes(start, dice[0], dice[1], |OPS|) + GridShapes(start, dice[1], dice[0], |OPS|), m);
      if m.expr.Some? {
        GridIsShapes(start, dice[0], dice[1], m.expr.value);
        GridIsShapes(start, dice[1], dice[0], m.expr.value);
      }
    }
  }

  method PawnMovesZeroDice(start: int) returns (moves: seq<PawnMove>)
    ensures moves == PawnList(start, [])
  {
    moves := [Candidate(Value(start), start)];
  }

  method PawnMovesOneDie(start: int, die: int) returns (moves: seq<PawnMove>)
    ensures moves == PawnList(start, [die])
    ensures forall m :: m in moves <==> IsPawnMove(start, [die], m)
  {
    hide EvalWithMax, IsPawnMove;
    moves := [];
    for i := 0 to |OPS|
      invariant moves == Tried(OneDieShapes(start, die, i))
    {
      var expr := Node(OPS[i], Value(start), Value(die));
      TriedOneMore(OneDieShapes(start, die, i), expr);
      var res := EvalWithMax(expr, GOAL);
      if res.Some? {
        moves := moves + [Candidate(expr, res.value)];
      }
    }
    forall m
      ensures m in moves <==> IsPawnMove(start, [die], m)
    {
      PawnListMember(start, [die], m);
    }
  }

  method PawnMovesTwoDice(start: int, d1: int, d2: int) returns (moves: seq<PawnMove>)
    ensures moves == PawnList(start, [d1, d2])
    ensures forall m :: m in moves <==> IsPawnMove(start, [d1, d2], m)
  {
    hide EvalWithMax, IsPawnMove, Tried, RowShapes, GridShapes, LeftNested, RightNested, Candidate;
    var pairs := [(d1, d2), (d2, d1)];
    ghost var done: seq<Expr> := [];
    moves := [];
    NothingTried();
    for q := 0 to |pairs|
      invariant moves == Tried(done)
      invariant done == (if q > 0 then GridShapes(start, d1, d2, |OPS|) else [])
                        + (if q > 1 then GridShapes(start, d2, d1, |OPS|) else [])
    {
      var (a, b) := pairs[q];
      GridStarts(done, start, a, b);
      for i := 0 to |OPS|
        invariant moves == Tried(done + GridShapes(start, a, b, i))
      {
        ghost var above := done + GridShapes(start, a, b, i);
        GridGrows(done, start, a, b, i);
        for j := 0 to |OPS|
          invariant moves == Tried(above + RowShapes(start, a, b, OPS[i], j))
        {
          var op1, op2 := OPS[i], OPS[j];
          RowGrows(above, start, a, b, op1, j);
          var expr1 := LeftNested(start, a, b, op1, op2);
          var res1 := EvalWithMax(expr1, GOAL);
          if res1.Some? {
            moves := moves + [Candidate(expr1, res1.value)];
          }
          if (op1 == Add || op1 == Sub) && (op2 == Add || op2 == Sub) {
            continue;
          }
          if op1 == Mul && op2 == Mul {
            continue;
          }
          var expr2 := RightNested(start, a, b, op1, op2);
          var res2 := EvalWithMax(expr2, GOAL);
          if res2.Some? {
            moves := moves + [Candidate(expr2, res2.value)];
          }
        }
      }
      done := done + GridShapes(start, a, b, |OPS|);
    }
    forall m
      ensures m in moves <==> IsPawnMove(start, [d1, d2], m)
    {
      PawnListMember(start, [d1, d2], m);
    }
  }

  lemma GridStarts(done: seq<Expr>, s: int, a: int, b: int)
    ensures Tried(done + GridShapes(s, a, b, 0)) == Tried(done)
  {
    hide Tried;
    assert done + GridShapes(s, a, b, 0) == done;
  }

  lemma RowStarts(s: int, a: int, b: int, op: Op)
    ensures RowShapes(s, a, b, op, 0) == []
  {
  }

  lemma GridGrows(done: seq<Expr>, s: int, a: int, b: int, i: nat)
    requires i < |OPS|
    ensures var above := done + GridShapes(s, a, b, i);
            && Tried(above + RowShapes(s, a, b, OPS[i], 0)) == Tried(above)
            && Tried(above + RowShapes(s, a, b, OPS[i], |OPS|)) == Tried(done + GridShapes(s, a, b, i + 1))
  {
    hide Tried, RowShapes;
    var above := done + GridShapes(s, a, b, i);
    RowStarts(s, a, b, OPS[i]);
    assert above + RowShapes(s, a, b, OPS[i], 0) == above;
    assert above + RowShapes(s, a, b, OPS[i], |OPS|) == done + GridShapes(s, a, b, i + 1);
  }

  lemma RowGrows(above: seq<Expr>, s: int, a: int, b: int, op1: Op, j: nat)
    requires j < |OPS|
    ensures Tried(above + RowShapes(s, a, b, op1, j + 1)) ==
            Tried(above + RowShapes(s, a, b, op1, j)) + TriedOne(LeftNested(s, a, b, op1, OPS[j]))
            + if Pruned(op1, OPS[j]) then [] else TriedOne(RightNested(s, a, b, op1, OPS[j]))
  {
    hide Tried, TriedOne;
    var before, left := above + RowShapes(s, a, b, op1, j), LeftNested(s, a, b, op1, OPS[j]);
    var right := RightNested(s, a, b, op1, OPS[j]);
    TriedOneMore(before, left);
    if Pruned(op1, OPS[j]) {
      assert above + RowShapes(s, a, b, op1, j + 1) == before + [left];
    } else {
      TriedOneMore(before + [left], right);
      assert above + RowShapes(s, a, b, op1, j + 1) == before + [left] + [right];
    }
  }

  lemma NothingTried()
    ensures Tried([]) == []
  {
  }

  method PawnMoves(start: int, dice: seq<int>) returns (moves: seq<PawnMove>)
    ensures moves == PawnList(start, dice)
    ensures forall m :: m in moves <==> IsPawnMove(start, dice, m)
  {
    hide IsPawnMove, Tried, OneDieShapes, GridShapes;
    match |dice| {
      case 0 =>
        moves := PawnMovesZeroDice(start);
      case 1 =>
        moves := PawnMovesOneDie(start, dice[0]);
        assert dice == [dice[0]];
      case 2 =>
        moves := PawnMovesTwoDice(start, dice[0], dice[1]);
        assert dice == [dice[0], dice[1]];
      case _ =>
        moves := [];
    }
    forall m
      ensures m in moves <==> IsPawnMove(start, dice, m)
    {
      PawnListMember(start, dice, m);
    }
  }

  datatype Allocation = Allocation(pawn1: seq<int>, pawn2: seq<int>)

  /** The ways to hand the two dice to the pawns that are not on the goal. */
  function AllAllocations(d1: int, d2: int, p1: int, p2: int): seq<Allocation> {
    if p1 == GOAL && p2 == GOAL then []
    else if p1 == GOAL then [Allocation([], [d1, d2])]
    else if p2 == GOAL then [Allocation([d1, d2], [])]
    else [Allocation([], [d1, d2]), Allocation([d1, d2], []), Allocation([d1], [d2]), Allocation([d2], [d1])]
  }

  /** The status of the first pawn: a later check overwrites an earlier one. */
  function BumpOfPawn1(r1: int, peer1: int, peer2: int): BumpStatus {
    if r1 == peer2 && peer2 != GOAL then BumpedPeer2
    else if r1 == peer1 && peer1 != GOAL then BumpedPeer1
    else NoBump
  }

  function BumpOfPawn2(r1: int, r2: int, peer1: int, peer2: int): BumpStatus {
    if r1 == r2 && r1 != GOAL then BumpedSelf else BumpOfPawn1(r2, peer1, peer2)
  }

  predicate SomePawnMoves(p1: int, p2: int, r1: int, r2: int) {
    !(r1 == p1 && r2 == p2)
  }

  predicate FromAllocation(p1: int, p2: int, peer1: int, peer2: int, alloc: Allocation, m: Move) {
    var r1, r2 := m.pawn1.result, m.pawn2.result;
    && IsPawnMove(p1, alloc.pawn1, m.pawn1.(bump := NoBump))
    && IsPawnMove(p2, alloc.pawn2, m.pawn2.(bump := NoBump))
    && SomePawnMoves(p1, p2, r1, r2)
    && r1 <= GOAL && r2 <= GOAL
    && m.pawn1.bump == BumpOfPawn1(r1, peer1, peer2)
    && m.pawn2.bump == BumpOfPawn2(r1, r2, peer1, peer2)
  }

  /** The moves open to a player on `p1`, `p2` who rolled `d1`, `d2` against pawns on `peer1`, `peer2`. */
  predicate IsMove(p1: int, p2: int, d1: int, d2: int, peer1: int, peer2: int, m: Move) {
    exists alloc | alloc in AllAllocations(d1, d2, p1, p2) :: FromAllocation(p1, p2, peer1, peer2, alloc, m)
  }

  /** The move made of two candidates, if the pair is one. */
  function Joined(p1: int, p2: int, peer1: int, peer2: int, m1: PawnMove, m2: PawnMove): seq<Move> {
    if SomePawnMoves(p1, p2, m1.result, m2.result) && m1.result <= GOAL && m2.result <= GOAL
    then [Move(m1.(bump := BumpOfPawn1(m1.result, peer1, peer2)),
               m2.(bump := BumpOfPawn2(m1.result, m2.result, peer1, peer2)))]
    else []
  }

  /** `m1` with each of the first `j` of `ms2`. */
  function JoinedRow(p1: int, p2: int, peer1: int, peer2: int, m1: PawnMove, ms2: seq<PawnMove>, j: nat): seq<Move>
    requires j <= |ms2|
  {
    if j == 0 then []
    else JoinedRow(p1, p2, peer1, peer2, m1, ms2, j - 1) + Joined(p1, p2, peer1, peer2, m1, ms2[j - 1])
  }

  /** Each of the first `i` of `ms1` with each of `ms2`. */
  function JoinedGrid(p1: int, p2: int, peer1: int, peer2: int, ms1: seq<PawnMove>, ms2: seq<PawnMove>, i: nat): seq<Move>
    requires i <= |ms1|
  {
    if i == 0 then []
    else
      JoinedGrid(p1, p2, peer1, peer2, ms1, ms2, i - 1) + JoinedRow(p1, p2, peer1, peer2, ms1[i - 1], ms2, |ms2|)
  }

  function MovesOf(p1: int, p2: int, peer1: int, peer2: int, alloc: Allocation): seq<Move> {
    var ms1, ms2 := PawnList(p1, alloc.pawn1), PawnList(p2, alloc.pawn2);
    JoinedGrid(p1, p2, peer1, peer2, ms1, ms2, |ms1|)
  }

  function MovesOfFirst(p1: int, p2: int, peer1: int, peer2: int, allocs: seq<Allocation>, k: nat): seq<Move>
    requires k <= |allocs|
  {
    if k == 0 then []
    else MovesOfFirst(p1, p2, peer1, peer2, allocs, k - 1) + MovesOf(p1, p2, peer1, peer2, allocs[k - 1])
  }

  /** The enumeration, in the order in which it is handed to a strategy. */
  function MoveList(p1: int, p2: int, d1: int, d2: int, peer1: int, peer2: int): seq<Move> {
    var allocs := AllAllocations(d1, d2, p1, p2);
    MovesOfFirst(p1, p2, peer1, peer2, allocs, |allocs|)
  }

  method GenerateMoves(p1: int, p2: int, d1: int, d2: int, peer1: int, peer2: int) returns (moves: seq<Move>)
    ensures moves == MoveList(p1, p2, d1, d2, peer1, peer2)
    ensures forall m :: m in moves <==> IsMove(p1, p2, d1, d2, peer1, peer2, m)
  {
    hide IsMove, PawnList, AllAllocations, IsPawnMove, JoinedRow, JoinedGrid, MovesOfFirst, Joined;
    var allocs := AllAllocations(d1, d2, p1, p2);
    moves := [];
    NoneYet(p1, p2, peer1, peer2, allocs);
    for k := 0 to |allocs|
      invariant moves == MovesOfFirst(p1, p2, peer1, peer2, allocs, k)
    {
      var p1Moves := PawnMoves(p1, allocs[k].pawn1);
      var p2Moves := PawnMoves(p2, allocs[k].pawn2);
      ghost var before := moves;
      GridBegins(p1, p2, peer1, peer2, allocs, k);
      for i := 0 to |p1Moves|
        invariant moves == before + JoinedGrid(p1, p2, peer1, peer2, p1Moves, p2Moves, i)
      {
        ghost var above := moves;
        RowBegins(p1, p2, peer1, peer2, p1Moves, p2Moves, i);
        for j := 0 to |p2Moves|
          invariant moves == above + JoinedRow(p1, p2, peer1, peer2, p1Moves[i], p2Moves, j)
        {
          var m1, m2 := p1Moves[i], p2Moves[j];
          PairJoins(p1, p2, peer1, peer2, m1, p2Moves, j);
          if m1.result == p1 && m2.result == p2 {
            continue;
          }
          if m1.result > GOAL || m2.result > GOAL {
            continue;
          }

          var bumpStatusP1, bumpStatusP2 := NoBump, NoBump;
          if m1.result == peer1 && peer1 != GOAL {
            bumpStatusP1 := BumpedPeer1;
          }
          if m2.result == peer1 && peer1 != GOAL {
            bumpStatusP2 := BumpedPeer1;
          }
          if m1.result == peer2 && peer2 != GOAL {
            bumpStatusP1 := BumpedPeer2;
          }
          if m2.result == peer2 && peer2 != GOAL {
            bumpStatusP2 := BumpedPeer2;
          }
          if m1.result == m2.result && m1.result != GOAL {
            bumpStatusP2 := BumpedSelf;
          }

          moves := moves + [Move(m1.(bump := bumpStatusP1), m2.(bump := bumpStatusP2))];
        }
      }
    }
    forall m
      ensures m in moves <==> IsMove(p1, p2, d1, d2, peer1, peer2, m)
    {
      MoveListMember(p1, p2, d1, d2, peer1, peer2, m);
    }
  }

  lemma NoneYet(p1: int, p2: int, peer1: int, peer2: int, allocs: seq<Allocation>)
    ensures MovesOfFirst(p1, p2, peer1, peer2, allocs, 0) == []
  {
  }

  lemma GridBegins(p1: int, p2: int, peer1: int, peer2: int, allocs: seq<Allocation>, k: nat)
    requires k < |allocs|
    ensures var ms1, ms2 := PawnList(p1, allocs[k].pawn1), PawnList(p2, allocs[k].pawn2);
            && JoinedGrid(p1, p2, peer1, peer2, ms1, ms2, 0) == []
            && MovesOfFirst(p1, p2, peer1, peer2, allocs, k + 1)
               == MovesOfFirst(p1, p2, peer1, peer2, allocs, k) + JoinedGrid(p1, p2, peer1, peer2, ms1, ms2, |ms1|)
  {
    hide PawnList;
  }

  lemma RowBegins(p1: int, p2: int, peer1: int, peer2: int, ms1: seq<PawnMove>, ms2: seq<PawnMove>, i: nat)
    requires i < |ms1|
    ensures JoinedRow(p1, p2, peer1, peer2, ms1[i], ms2, 0) == []
    ensures JoinedGrid(p1, p2, peer1, peer2, ms1, ms2, i + 1)
         == JoinedGrid(p1, p2, peer1, peer2, ms1, ms2, i) + JoinedRow(p1, p2, peer1, peer2, ms1[i], ms2, |ms2|)
  {
  }

  lemma PairJoins(p1: int, p2: int, peer1: int, peer2: int, m1: PawnMove, ms2: seq<PawnMove>, j: nat)
    requires j < |ms2|
    ensures var row, m2 := JoinedRow(p1, p2, peer1, peer2, m1, ms2, j), ms2[j];
            JoinedRow(p1, p2, peer1, peer2, m1, ms2, j + 1) ==
            if (m1.result == p1 && m2.result == p2) || m1.result > GOAL || m2.result > GOAL then row
            else row + [Move(m1.(bump := BumpOfPawn1(m1.result, peer1, peer2)),
                             m2.(bump := BumpOfPawn2(m1.result, m2.result, peer1, peer2)))]
  {
  }

  lemma {:induction false} RowOfPairs(p1: int, p2: int, peer1: int, peer2: int, m1: PawnMove, ms2: seq<PawnMove>, j: nat, m: Move)
    requires j <= |ms2|
    ensures m in JoinedRow(p1, p2, peer1, peer2, m1, ms2, j)
       <==> exists y | 0 <= y < j :: m in Joined(p1, p2, peer1, peer2, m1, ms2[y])
  {
    hide Joined;
    if j > 0 {
      RowOfPairs(p1, p2, peer1, peer2, m1, ms2, j - 1, m);
    }
  }

  lemma {:induction false} GridOfPairs(
    p1: int, p2: int, peer1: int, peer2: int, ms1: seq<PawnMove>, ms2: seq<PawnMove>, i: nat, m: Move)
    requires i <= |ms1|
    ensures m in JoinedGrid(p1, p2, peer1, peer2, ms1, ms2, i)
       <==> exists x, y | 0 <= x < i && 0 <= y < |ms2| :: m in Joined(p1, p2, peer1, peer2, ms1[x], ms2[y])
  {
    hide Joined, JoinedRow;
    if i > 0 {
      GridOfPairs(p1, p2, peer1, peer2, ms1, ms2, i - 1, m);
      RowOfPairs(p1, p2, peer1, peer2, ms1[i - 1], ms2, |ms2|, m);
    }
  }

  /** What one allocation contributes. */
  lemma AllocationMember(p1: int, p2: int, peer1: int, peer2: int, alloc: Allocation, m: Move)
    ensures m in MovesOf(p1, p2, peer1, peer2, alloc) <==> FromAllocation(p1, p2, peer1, peer2, alloc, m)
  {
    hide IsPawnMove, PawnList, JoinedGrid;
    var ms1, ms2 := PawnList(p1, alloc.pawn1), PawnList(p2, alloc.pawn2);
    GridOfPairs(p1, p2, peer1, peer2, ms1, ms2, |ms1|, m);
    if x, y :| 0 <= x < |ms1| && 0 <= y < |ms2| && m in Joined(p1, p2, peer1, peer2, ms1[x], ms2[y]) {
      PawnListMember(p1, alloc.pawn1, ms1[x]);
      PawnListMember(p2, alloc.pawn2, ms2[y]);
      NotBumpedYet(p1, alloc.pawn1, ms1[x]);
      NotBumpedYet(p2, alloc.pawn2, ms2[y]);
      assert m.pawn1.(bump := NoBump) == ms1[x] && m.pawn2.(bump := NoBump) == ms2[y];
    }
    if FromAllocation(p1, p2, peer1, peer2, alloc, m) {
      var m1, m2 := m.pawn1.(bump := NoBump), m.pawn2.(bump := NoBump);
      PawnListMember(p1, alloc.pawn1, m1);
      PawnListMember(p2, alloc.pawn2, m2);
      var x :| 0 <= x < |ms1| && ms1[x] == m1;
      var y :| 0 <= y < |ms2| && ms2[y] == m2;
      assert Joined(p1, p2, peer1, peer2, ms1[x], ms2[y]) == [m];
    }
  }

  lemma NotBumpedYet(start: int, dice: seq<int>, m: PawnMove)
    requires IsPawnMove(start, dice, m)
    ensures m.bump == NoBump
  {
  }

  lemma {:induction false} FirstAllocationsMember(
    p1: int, p2: int, peer1: int, peer2: int, allocs: seq<Allocation>, k: nat, m: Move)
    requires k <= |allocs|
    ensures m in MovesOfFirst(p1, p2, peer1, peer2, allocs, k)
       <==> exists x | 0 <= x < k :: FromAllocation(p1, p2, peer1, peer2, allocs[x], m)
  {
    hide FromAllocation, MovesOf;
    if k > 0 {
      FirstAllocationsMember(p1, p2, peer1, peer2, allocs, k - 1, m);
      AllocationMember(p1, p2, peer1, peer2, allocs[k - 1], m);
    }
  }

  /** The list holds exactly the moves. */
  lemma MoveListMember(p1: int, p2: int, d1: int, d2: int, peer1: int, peer2: int, m: Move)
    ensures m in MoveList(p1, p2, d1, d2, peer1, peer2) <==> IsMove(p1, p2, d1, d2, peer1, peer2, m)
  {
    hide FromAllocation, MovesOfFirst, AllAllocations;
    var allocs := AllAllocations(d1, d2, p1, p2);
    FirstAllocationsMember(p1, p2, peer1, peer2, allocs, |allocs|, m);
  }

  // The order of the enumeration, outright.

  /** One die: plus, minus, times, divided by. */
  lemma OneDieOrder(s: int, d: int)
    ensures OneDieShapes(s, d, 4) ==
            [Node(Add, Value(s), Value(d)), Node(Sub, Value(s), Value(d)),
             Node(Mul, Value(s), Value(d)), Node(Div, Value(s), Value(d))]
  {
    assert OneDieShapes(s, d, 1) == [Node(Add, Value(s), Value(d))];
    assert OneDieShapes(s, d, 2) == [Node(Add, Value(s), Value(d)), Node(Sub, Value(s), Value(d))];
    assert OneDieShapes(s, d, 3) == OneDieShapes(s, d, 2) + [Node(Mul, Value(s), Value(d))];
  }

  /** Two dice: the operators in the same order, the first one outermost, and a form without its duplicates. */
  lemma TwoDiceOrder(s: int, a: int, b: int)
    ensures GridShapes(s, a, b, 4) ==
            RowShapes(s, a, b, Add, 4) + RowShapes(s, a, b, Sub, 4) + RowShapes(s, a, b, Mul, 4) + RowShapes(s, a, b, Div, 4)
    ensures forall op | op == Add || op == Sub ::
              RowShapes(s, a, b, op, 4) ==
              [LeftNested(s, a, b, op, Add), LeftNested(s, a, b, op, Sub),
               LeftNested(s, a, b, op, Mul), RightNested(s, a, b, op, Mul),
               LeftNested(s, a, b, op, Div), RightNested(s, a, b, op, Div)]
    ensures RowShapes(s, a, b, Mul, 4) ==
            [LeftNested(s, a, b, Mul, Add), RightNested(s, a, b, Mul, Add),
             LeftNested(s, a, b, Mul, Sub), RightNested(s, a, b, Mul, Sub),
             LeftNested(s, a, b, Mul, Mul),
             LeftNested(s, a, b, Mul, Div), RightNested(s, a, b, Mul, Div)]
    ensures RowShapes(s, a, b, Div, 4) ==
            [LeftNested(s, a, b, Div, Add), RightNested(s, a, b, Div, Add),
             LeftNested(s, a, b, Div, Sub), RightNested(s, a, b, Div, Sub),
             LeftNested(s, a, b, Div, Mul), RightNested(s, a, b, Div, Mul),
             LeftNested(s, a, b, Div, Div), RightNested(s, a, b, Div, Div)]
  {
    hide LeftNested, RightNested;
    GridOfRows(s, a, b);
    forall op
      ensures RowShapes(s, a, b, op, 4) == PairShapes(s, a, b, op, Add) + PairShapes(s, a, b, op, Sub)
                                           + PairShapes(s, a, b, op, Mul) + PairShapes(s, a, b, op, Div)
    {
      RowOfShapes(s, a, b, op);
    }
    hide RowShapes, GridShapes;
  }

  lemma GridOfRows(s: int, a: int, b: int)
    ensures GridShapes(s, a, b, 4) ==
            RowShapes(s, a, b, Add, 4) + RowShapes(s, a, b, Sub, 4) + RowShapes(s, a, b, Mul, 4) + RowShapes(s, a, b, Div, 4)
  {
    hide RowShapes;
    assert GridShapes(s, a, b, 0) == [];
    assert GridShapes(s, a, b, 1) == RowShapes(s, a, b, Add, 4);
    assert GridShapes(s, a, b, 2) == GridShapes(s, a, b, 1) + RowShapes(s, a, b, Sub, 4);
    assert GridShapes(s, a, b, 3) == GridShapes(s, a, b, 2) + RowShapes(s, a, b, Mul, 4);
  }

  lemma RowOfShapes(s: int, a: int, b: int, op: Op)
    ensures RowShapes(s, a, b, op, 4) == PairShapes(s, a, b, op, Add) + PairShapes(s, a, b, op, Sub)
                                         + PairShapes(s, a, b, op, Mul) + PairShapes(s, a, b, op, Div)
  {
    hide PairShapes;
    assert RowShapes(s, a, b, op, 0) == [];
    assert RowShapes(s, a, b, op, 1) == PairShapes(s, a, b, op, Add);
    assert RowShapes(s, a, b, op, 2) == RowShapes(s, a, b, op, 1) + PairShapes(s, a, b, op, Sub);
    assert RowShapes(s, a, b, op, 3) == RowShapes(s, a, b, op, 2) + PairShapes(s, a, b, op, Mul);
  }

  /**
   The whole list: both dice to the second pawn, both to the first, then one each, in both ways; a
   pawn on 101 gets none. Within each, the first pawn's candidates in order, each with the second's.
   */
  lemma AllocationOrder(p1: int, p2: int, d1: int, d2: int, peer1: int, peer2: int)
    ensures var moves, of := MoveList(p1, p2, d1, d2, peer1, peer2),
                             (a: seq<int>, b: seq<int>) => MovesOf(p1, p2, peer1, peer2, Allocation(a, b));
            moves == if p1 == 101 && p2 == 101 then []
                     else if p1 == 101 then of([], [d1, d2])
                     else if p2 == 101 then of([d1, d2], [])
                     else of([], [d1, d2]) + of([d1, d2], []) + of([d1], [d2]) + of([d2], [d1])
  {
    hide MovesOf;
    var allocs := AllAllocations(d1, d2, p1, p2);
    assert MovesOfFirst(p1, p2, peer1, peer2, allocs, 0) == [];
    if |allocs| >= 1 {
      assert MovesOfFirst(p1, p2, peer1, peer2, allocs, 1) == MovesOf(p1, p2, peer1, peer2, allocs[0]);
    }
    if |allocs| == 4 {
      assert MovesOfFirst(p1, p2, peer1, peer2, allocs, 2)
          == MovesOfFirst(p1, p2, peer1, peer2, allocs, 1) + MovesOf(p1, p2, peer1, peer2, allocs[1]);
      assert MovesOfFirst(p1, p2, peer1, peer2, allocs, 3)
          == MovesOfFirst(p1, p2, peer1, peer2, allocs, 2) + MovesOf(p1, p2, peer1, peer2, allocs[2]);
    }
  }
}
