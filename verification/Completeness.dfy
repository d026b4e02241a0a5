/**
 What the move enumeration is worth: nothing outside the rules is in it, and nothing the
 rules allow is missing, the pruned forms included.
 */
module Completeness {
  import opened MachineInts
  import opened Moves
  import opened Options

  /** A division succeeds exactly when there is an integer quotient, and that is its value. */
  lemma DivisionIsExact(l: int, r: int)
    ensures ApplyOp(Div, l, r).Some? <==> r != 0 && exists q :: q * r == l
    ensures forall q | r != 0 && q * r == l :: ApplyOp(Div, l, r) == Some(Wrap64(q))
  {
    hide Wrap64;
    if r != 0 {
      assert l == (l / r) * r + l % r;
      forall q | q * r == l
        ensures l % r == 0 && l / r == q
      {
        ExactQuotient(l, r, q);
      }
    }
  }

  lemma ExactQuotient(l: int, r: int, q: int)
    requires r != 0 && q * r == l
    ensures l % r == 0 && l / r == q
  {
    if r > 0 {
      ModUnique(l, q, 0, r);
    } else {
      assert (-q) * (-r) == l;
      ModUnique(l, -q, 0, -r);
      assert l % r == l % (-r);
      var d := l / r - q;
      assert d * r == 0;
    }
  }

  /** The numbers an expression is built from, from left to right. */
  function Literals(e: Expr): seq<int> {
    match e
    case Value(n) => [n]
    case Node(_, left, right) => Literals(left) + Literals(right)
  }

  /** Every bracketing of the square, the dice in either order and any two operators. */
  ghost predicate ReachesWithTwo(s: int, a: int, b: int, r: int) {
    exists op1, op2 | op1 in OPS && op2 in OPS ::
      Eval(LeftNested(s, a, b, op1, op2)) == Some(r) || Eval(RightNested(s, a, b, op1, op2)) == Some(r)
  }

  /** `r` can be made of `start` and all of `dice`: no form is pruned here. */
  ghost predicate Reaches(start: int, dice: seq<int>, r: int) {
    match |dice|
    case 0 => r == start
    case 1 => exists op | op in OPS :: ApplyOp(op, start, dice[0]) == Some(r)
    case 2 => ReachesWithTwo(start, dice[0], dice[1], r) || ReachesWithTwo(start, dice[1], dice[0], r)
    case _ => false
  }

  lemma OneOperator(op: Op, l: int, r: int)
    ensures Eval(Node(op, Value(l), Value(r))) == ApplyOp(op, l, r)
  {
  }

  /** The value of `(s op1 a) op2 b`. */
  function LeftValue(s: int, a: int, b: int, op1: Op, op2: Op): Option<int> {
    var l := ApplyOp(op1, s, a);
    if l.None? then None else ApplyOp(op2, l.value, b)
  }

  /** The value of `s op1 (a op2 b)`. */
  function RightValue(s: int, a: int, b: int, op1: Op, op2: Op): Option<int> {
    var r := ApplyOp(op2, a, b);
    if r.None? then None else ApplyOp(op1, s, r.value)
  }

  lemma EvalNested(s: int, a: int, b: int, op1: Op, op2: Op)
    ensures Eval(LeftNested(s, a, b, op1, op2)) == LeftValue(s, a, b, op1, op2)
    ensures Eval(RightNested(s, a, b, op1, op2)) == RightValue(s, a, b, op1, op2)
  {
    hide Wrap64;
    assert Eval(Node(op1, Value(s), Value(a))) == ApplyOp(op1, s, a);
    assert Eval(Node(op2, Value(a), Value(b))) == ApplyOp(op2, a, b);
  }

  /** Sums and differences may be regrouped although every step wraps. */
  lemma RegroupSums(s: int, a: int, b: int)
    ensures Wrap64(s + Wrap64(a + b)) == Wrap64(Wrap64(s + a) + b)
    ensures Wrap64(s + Wrap64(a - b)) == Wrap64(Wrap64(s + a) - b)
    ensures Wrap64(s - Wrap64(a + b)) == Wrap64(Wrap64(s - a) - b)
    ensures Wrap64(s - Wrap64(a - b)) == Wrap64(Wrap64(s - a) + b)
  {
    hide Wrap64;
    WrapAddRight(s, a + b);
    WrapAddRight(s, a - b);
    WrapSub(s, a + b);
    WrapSub(s, a - b);
    WrapAdd(s + a, b);
    WrapAdd(s + a, -b);
    WrapAdd(s - a, b);
    WrapAdd(s - a, -b);
    assert Wrap64(s + a) + -b == Wrap64(s + a) - b && Wrap64(s - a) + -b == Wrap64(s - a) - b;
    assert s + (a + b) == s + a + b && s + (a - b) == s + a + -b;
    assert s - (a + b) == s - a + -b && s - (a - b) == s - a + b;
  }

  lemma RegroupProduct(s: int, a: int, b: int)
    ensures Wrap64(s * Wrap64(a * b)) == Wrap64(Wrap64(s * a) * b)
  {
    hide Wrap64;
    WrapMul(s * a, b);
    WrapMul(a * b, s);
    var w := Wrap64(a * b);
    assert w * s == s * w;
    assert (a * b) * s == (s * a) * b by {
      assert (a * b) * s == a * (b * s) == a * (s * b) == (a * s) * b;
    }
  }

  /** A pruned right-nested form has the value of a left-nested one, wrap-around included. */
  lemma PruningLosesNothing(s: int, a: int, b: int, op1: Op, op2: Op) returns (op2': Op)
    requires Pruned(op1, op2)
    ensures op2' in OPS
    ensures Eval(RightNested(s, a, b, op1, op2)) == Eval(LeftNested(s, a, b, op1, op2'))
  {
    hide Wrap64;
    op2' := if op1 == Sub then (if op2 == Add then Sub else Add) else op2;
    EvalNested(s, a, b, op1, op2);
    EvalNested(s, a, b, op1, op2');
    RegroupSums(s, a, b);
    RegroupProduct(s, a, b);
  }

  lemma TwoDiceReachable(s: int, a: int, b: int, r: int)
    ensures (exists e :: IsTwoDiceShape(s, a, b, e) && Eval(e) == Some(r)) <==> ReachesWithTwo(s, a, b, r)
  {
    hide Eval;
    if ReachesWithTwo(s, a, b, r) {
      var op1, op2 :| op1 in OPS && op2 in OPS &&
        (Eval(LeftNested(s, a, b, op1, op2)) == Some(r) || Eval(RightNested(s, a, b, op1, op2)) == Some(r));
      if Eval(LeftNested(s, a, b, op1, op2)) == Some(r) {
        assert IsTwoDiceShape(s, a, b, LeftNested(s, a, b, op1, op2));
      } else if Pruned(op1, op2) {
        var op2' := PruningLosesNothing(s, a, b, op1, op2);
        assert IsTwoDiceShape(s, a, b, LeftNested(s, a, b, op1, op2'));
      } else {
        assert IsTwoDiceShape(s, a, b, RightNested(s, a, b, op1, op2));
      }
    }
    if e :| IsTwoDiceShape(s, a, b, e) && Eval(e) == Some(r) {
      if e.left.Node? {
        assert e == LeftNested(s, a, b, e.left.op, e.op);
      } else {
        assert e == RightNested(s, a, b, e.op, e.right.op);
      }
    }
  }

  /** One pawn: the enumerated results are exactly the reachable ones that do not overshoot. */
  lemma PawnMovesComplete(start: int, dice: seq<int>, r: int)
    requires start <= GOAL
    ensures (exists m :: IsPawnMove(start, dice, m) && m.result == r) <==> Reaches(start, dice, r) && r <= GOAL
  {
    if |dice| == 0 {
      assert r == start ==> IsPawnMove(start, dice, Candidate(Value(start), r));
    } else if |dice| == 1 {
      OneDieComplete(start, dice, r);
    } else if |dice| == 2 {
      TwoDiceComplete(start, dice, r);
    }
  }

  lemma OneDieComplete(start: int, dice: seq<int>, r: int)
    requires |dice| == 1
    ensures (exists m :: IsPawnMove(start, dice, m) && m.result == r) <==> Reaches(start, dice, r) && r <= GOAL
  {
    hide Wrap64;
    if op :| op in OPS && ApplyOp(op, start, dice[0]) == Some(r) && r <= GOAL {
      var e := Node(op, Value(start), Value(dice[0]));
      assert Eval(e) == ApplyOp(op, start, dice[0]);
      assert IsShape(start, dice, e);
      assert IsPawnMove(start, dice, Candidate(e, r));
    }
    if m :| IsPawnMove(start, dice, m) && m.result == r {
      var e := m.expr.value;
      assert IsShape(start, dice, e);
      assert Eval(e) == ApplyOp(e.op, start, dice[0]);
    }
  }

  lemma TwoDiceComplete(start: int, dice: seq<int>, r: int)
    requires |dice| == 2
    ensures (exists m :: IsPawnMove(start, dice, m) && m.result == r) <==> Reaches(start, dice, r) && r <= GOAL
  {
    hide Eval, IsTwoDiceShape, ReachesWithTwo;
    TwoDiceReachable(start, dice[0], dice[1], r);
    TwoDiceReachable(start, dice[1], dice[0], r);
    if Reaches(start, dice, r) && r <= GOAL {
      var e :| IsShape(start, dice, e) && Eval(e) == Some(r);
      assert IsPawnMove(start, dice, Candidate(e, r));
    }
    if m :| IsPawnMove(start, dice, m) && m.result == r {
      assert IsShape(start, dice, m.expr.value) && Eval(m.expr.value) == Some(r);
    }
  }

  lemma NestedLiterals(s: int, a: int, b: int, op1: Op, op2: Op)
    ensures Literals(LeftNested(s, a, b, op1, op2)) == [s, a, b]
    ensures Literals(RightNested(s, a, b, op1, op2)) == [s, a, b]
  {
    assert Literals(Node(op1, Value(s), Value(a))) == [s, a];
    assert Literals(Node(op2, Value(a), Value(b))) == [a, b];
  }

  lemma TwoDiceLiterals(s: int, a: int, b: int, e: Expr)
    requires IsTwoDiceShape(s, a, b, e)
    ensures Literals(e) == [s, a, b]
  {
    hide Literals;
    if e.left.Node? {
      NestedLiterals(s, a, b, e.left.op, e.op);
    } else {
      NestedLiterals(s, a, b, e.op, e.right.op);
    }
  }

  /** Soundness of one pawn's move: the square and each die once, the recorded result, no overshoot. */
  lemma PawnMoveSound(start: int, dice: seq<int>, m: PawnMove)
    requires start <= GOAL
    requires IsPawnMove(start, dice, m)
    ensures || Literals(m.expr.value) == [start] + dice
            || (|dice| == 2 && Literals(m.expr.value) == [start, dice[1], dice[0]])
    ensures Eval(m.expr.value) == Some(m.result) && m.result <= GOAL
  {
    hide ApplyOp, IsTwoDiceShape;
    var e := m.expr.value;
    if |dice| == 2 {
      if IsTwoDiceShape(start, dice[0], dice[1], e) {
        TwoDiceLiterals(start, dice[0], dice[1], e);
      } else {
        TwoDiceLiterals(start, dice[1], dice[0], e);
      }
    }
  }

  /** The dice a pawn may take: a pawn on the goal takes none. */
  ghost predicate IsAllocation(p1: int, p2: int, d1: int, d2: int, a1: seq<int>, a2: seq<int>) {
    && multiset(a1) + multiset(a2) == multiset{d1, d2}
    && (p1 == GOAL ==> a1 == []) && (p2 == GOAL ==> a2 == [])
  }

  /** There are four allocations, up to the order of one pawn's two dice. */
  lemma AllocationsComplete(p1: int, p2: int, d1: int, d2: int, a1: seq<int>, a2: seq<int>)
    requires IsAllocation(p1, p2, d1, d2, a1, a2)
    ensures || (a1 == [] && (a2 == [d1, d2] || a2 == [d2, d1]))
            || ((a1 == [d1, d2] || a1 == [d2, d1]) && a2 == [])
            || (a1 == [d1] && a2 == [d2])
            || (a1 == [d2] && a2 == [d1])
  {
    assert |multiset(a1)| + |multiset(a2)| == |multiset(a1) + multiset(a2)| == 2;
    assert |multiset(a1)| == |a1| && |multiset(a2)| == |a2|;
    if a1 == [] {
      assert multiset(a1) + multiset(a2) == multiset(a2);
      SplitTwo(a2, d1, d2);
    } else if a2 == [] {
      assert multiset(a1) + multiset(a2) == multiset(a1);
      SplitTwo(a1, d1, d2);
    } else {
      SplitTwo(a1 + a2, d1, d2);
      assert a1 == (a1 + a2)[..1] && a2 == (a1 + a2)[1..];
    }
  }

  lemma SplitTwo(a: seq<int>, d1: int, d2: int)
    requires |a| == 2 && multiset(a) == multiset{d1, d2}
    ensures a == [d1, d2] || a == [d2, d1]
  {
    assert a == [a[0], a[1]];
    assert a[0] in multiset{d1, d2} && a[1] in multiset{d1, d2};
    if a[0] == a[1] {
      assert multiset{d1, d2}[a[0]] == 2;
    }
  }

  /** A pair of pawn moves dealt from one allocation is a move once its bumps are filled in. */
  lemma PairMoves(p1: int, p2: int, d1: int, d2: int, peer1: int, peer2: int, alloc: Allocation, r1: int, r2: int)
    returns (m: Move)
    requires p1 <= GOAL && p2 <= GOAL
    requires alloc in AllAllocations(d1, d2, p1, p2)
    requires Reaches(p1, alloc.pawn1, r1) && Reaches(p2, alloc.pawn2, r2)
    requires r1 <= GOAL && r2 <= GOAL && SomePawnMoves(p1, p2, r1, r2)
    ensures IsMove(p1, p2, d1, d2, peer1, peer2, m) && m.pawn1.result == r1 && m.pawn2.result == r2
  {
    hide Reaches, IsShape, EvalWithMax;
    PawnMovesComplete(p1, alloc.pawn1, r1);
    PawnMovesComplete(p2, alloc.pawn2, r2);
    var m1 :| IsPawnMove(p1, alloc.pawn1, m1) && m1.result == r1;
    var m2 :| IsPawnMove(p2, alloc.pawn2, m2) && m2.result == r2;
    m := Move(m1.(bump := BumpOfPawn1(r1, peer1, peer2)), m2.(bump := BumpOfPawn2(r1, r2, peer1, peer2)));
    assert m.pawn1.(bump := NoBump) == m1 && m.pawn2.(bump := NoBump) == m2;
    assert FromAllocation(p1, p2, peer1, peer2, alloc, m);
  }

  /** Some way of dealing out the dice takes the pawns to `r1` and `r2`. */
  ghost predicate ReachesPair(p1: int, p2: int, d1: int, d2: int, r1: int, r2: int) {
    exists a1, a2 :: IsAllocation(p1, p2, d1, d2, a1, a2) && Reaches(p1, a1, r1) && Reaches(p2, a2, r2)
  }

  /** It is enough to try the allocations on the list. */
  lemma ReachesPairFromList(p1: int, p2: int, d1: int, d2: int, r1: int, r2: int)
    requires !(p1 == GOAL && p2 == GOAL)
    requires ReachesPair(p1, p2, d1, d2, r1, r2)
    ensures exists alloc | alloc in AllAllocations(d1, d2, p1, p2) :: Reaches(p1, alloc.pawn1, r1) && Reaches(p2, alloc.pawn2, r2)
  {
    hide ReachesWithTwo;
    var a1, a2 :| IsAllocation(p1, p2, d1, d2, a1, a2) && Reaches(p1, a1, r1) && Reaches(p2, a2, r2);
    AllocationsComplete(p1, p2, d1, d2, a1, a2);
    var b1 := if a1 == [d2, d1] then [d1, d2] else a1;
    var b2 := if a2 == [d2, d1] then [d1, d2] else a2;
    assert Reaches(p1, b1, r1) && Reaches(p2, b2, r2);
    ListedAllocations(p1, p2, d1, d2, b1, b2);
    assert Allocation(b1, b2) in AllAllocations(d1, d2, p1, p2);
  }

  lemma ListedAllocations(p1: int, p2: int, d1: int, d2: int, a1: seq<int>, a2: seq<int>)
    requires !(p1 == GOAL && p2 == GOAL)
    requires p1 == GOAL ==> a1 == []
    requires p2 == GOAL ==> a2 == []
    requires || (a1 == [] && a2 == [d1, d2]) || (a1 == [d1, d2] && a2 == [])
             || (a1 == [d1] && a2 == [d2]) || (a1 == [d2] && a2 == [d1])
    ensures Allocation(a1, a2) in AllAllocations(d1, d2, p1, p2)
  {
    var all := AllAllocations(d1, d2, p1, p2);
    if p1 == GOAL || p2 == GOAL {
      assert Allocation(a1, a2) == all[0];
    } else {
      assert Allocation(a1, a2) == all[0] || Allocation(a1, a2) == all[1]
          || Allocation(a1, a2) == all[2] || Allocation(a1, a2) == all[3];
    }
  }

  lemma ListedIsAllocation(p1: int, p2: int, d1: int, d2: int, alloc: Allocation)
    requires alloc in AllAllocations(d1, d2, p1, p2)
    ensures IsAllocation(p1, p2, d1, d2, alloc.pawn1, alloc.pawn2)
  {
    var nothing: seq<int> := [];
    assert multiset(nothing) + multiset([d1, d2]) == multiset{d1, d2};
    assert multiset([d1]) + multiset([d2]) == multiset{d1, d2};
  }

  /**
   The whole enumeration: a pair of results is on offer exactly when some way of dealing out
   the dice reaches it, neither pawn passes the goal and some pawn moves.
   */
  lemma MovesComplete(p1: int, p2: int, d1: int, d2: int, peer1: int, peer2: int, r1: int, r2: int)
    requires p1 <= GOAL && p2 <= GOAL
    ensures (exists m :: IsMove(p1, p2, d1, d2, peer1, peer2, m) && m.pawn1.result == r1 && m.pawn2.result == r2)
       <==> !(p1 == GOAL && p2 == GOAL) && ReachesPair(p1, p2, d1, d2, r1, r2)
            && r1 <= GOAL && r2 <= GOAL && SomePawnMoves(p1, p2, r1, r2)
  {
    hide Reaches, IsPawnMove, IsAllocation;
    if !(p1 == GOAL && p2 == GOAL) {
      if m :| IsMove(p1, p2, d1, d2, peer1, peer2, m) && m.pawn1.result == r1 && m.pawn2.result == r2 {
        var alloc :| alloc in AllAllocations(d1, d2, p1, p2) && FromAllocation(p1, p2, peer1, peer2, alloc, m);
        ListedIsAllocation(p1, p2, d1, d2, alloc);
        PawnMovesComplete(p1, alloc.pawn1, r1);
        PawnMovesComplete(p2, alloc.pawn2, r2);
        assert m.pawn1.(bump := NoBump).result == r1 && m.pawn2.(bump := NoBump).result == r2;
      }
      if ReachesPair(p1, p2, d1, d2, r1, r2) && r1 <= GOAL && r2 <= GOAL && SomePawnMoves(p1, p2, r1, r2) {
        ReachesPairFromList(p1, p2, d1, d2, r1, r2);
        var alloc :| alloc in AllAllocations(d1, d2, p1, p2) && Reaches(p1, alloc.pawn1, r1) && Reaches(p2, alloc.pawn2, r2);
        var m := PairMoves(p1, p2, d1, d2, peer1, peer2, alloc, r1, r2);
      }
    }
  }

  /** A player is never stuck: with both pawns home there is no move, otherwise there is one. */
  lemma NeverStuck(p1: int, p2: int, d1: int, d2: int, peer1: int, peer2: int)
    requires p1 <= GOAL && p2 <= GOAL
    requires IsInt64(p1) && IsInt64(p2)
    requires 1 <= d1 <= 10 && 1 <= d2 <= 10
    ensures (exists m :: IsMove(p1, p2, d1, d2, peer1, peer2, m)) <==> !(p1 == GOAL && p2 == GOAL)
  {
    hide ReachesWithTwo;
    var all := AllAllocations(d1, d2, p1, p2);
    if p1 != GOAL {
      var r := Shuffle(p1, d1, d2);
      assert Allocation([d1, d2], []) == if p2 == GOAL then all[0] else all[1];
      var m := PairMoves(p1, p2, d1, d2, peer1, peer2, Allocation([d1, d2], []), r, p2);
    } else if p2 != GOAL {
      var r := Shuffle(p2, d1, d2);
      assert Allocation([], [d1, d2]) == all[0];
      var m := PairMoves(p1, p2, d1, d2, peer1, peer2, Allocation([], [d1, d2]), p1, r);
    }
  }

  /** Both dice down from a positive square, both up from any other: a change that stays below the goal. */
  lemma Shuffle(s: int, d1: int, d2: int) returns (r: int)
    requires s <= GOAL && IsInt64(s) && 1 <= d1 <= 10 && 1 <= d2 <= 10
    ensures Reaches(s, [d1, d2], r) && r <= GOAL && r != s
  {
    var op := if s > 0 then Sub else Add;
    r := if s > 0 then s - d1 - d2 else s + d1 + d2;
    EvalNested(s, d1, d2, op, op);
    assert op in OPS && Eval(LeftNested(s, d1, d2, op, op)) == Some(r);
  }
}
