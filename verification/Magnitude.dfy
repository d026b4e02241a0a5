/**
 How far from zero a pawn can get. One move multiplies a pawn's distance by at most a
 hundred, which bounds where 64-bit arithmetic is exact.
 */
module Magnitude {
  import opened MachineInts
  import opened Moves
  import opened Boards
  import opened Options

  /** The operators on unbounded integers. */
  function ApplyExact(op: Op, l: int, r: int): Option<int> {
    match op
    case Add => Some(l + r)
    case Sub => Some(l - r)
    case Mul => Some(l * r)
    case Div => if r == 0 || l % r != 0 then None else Some(l / r)
    case UnknownOp(_) => None
  }

  function EvalExact(e: Expr): Option<int> {
    match e
    case Value(n) => Some(n)
    case Node(op, left, right) =>
      var l, r := EvalExact(left), EvalExact(right);
      if l.None? || r.None? then None else ApplyExact(op, l.value, r.value)
  }

  predicate Within(x: int, bound: int) {
    -bound <= x <= bound
  }

  lemma ProductWithin(x: int, y: int, xb: int, yb: int)
    requires xb >= 0 && yb >= 0
    requires Within(x, xb) && Within(y, yb)
    ensures Within(x * y, xb * yb)
  {
    if x >= 0 {
      assert x * -yb <= x * y <= x * yb;
      assert x * yb <= xb * yb;
    } else {
      assert (-x) * -yb <= (-x) * y <= (-x) * yb;
      assert (-x) * yb <= xb * yb;
    }
  }

  lemma QuotientWithin(x: int, y: int, xb: int)
    requires xb >= 0
    requires y != 0 && x % y == 0 && Within(x, xb)
    ensures Within(x / y, xb)
  {
    var q := x / y;
    assert x == q * y;
    if q > 0 {
      ScaledUp(q, y);
    } else if q < 0 {
      ScaledUp(-q, y);
      assert (-q) * y == -(q * y);
    }
  }

  lemma ScaledUp(q: int, y: int)
    requires q > 0 && y != 0
    ensures q * y >= q || q * y <= -q
  {
    if y > 0 {
      assert q * (y - 1) >= 0;
    } else {
      assert q * (-y - 1) >= 0;
    }
  }

  /** One operator is exact while its result fits; only a product can outgrow the sum of the operands. */
  lemma OpWithin(op: Op, x: int, y: int, xb: int, yb: int)
    requires xb >= 0 && yb >= 0
    requires Within(x, xb) && Within(y, yb)
    requires xb * yb < TWO_63 && xb + yb < TWO_63
    ensures ApplyOp(op, x, y) == ApplyExact(op, x, y)
    ensures var r := ApplyOp(op, x, y);
            r.Some? ==> Within(r.value, if op == Mul then xb * yb else xb + yb)
  {
    hide Wrap64;
    match op
    case Mul => ProductWithin(x, y, xb, yb);
    case Div => if y != 0 && x % y == 0 { QuotientWithin(x, y, xb); }
    case _ =>
  }

  lemma EvalExactNode(op: Op, left: Expr, right: Expr)
    requires EvalExact(left) == Eval(left) && EvalExact(right) == Eval(right)
    requires Eval(left).Some? && Eval(right).Some? ==>
               ApplyOp(op, Eval(left).value, Eval(right).value) == ApplyExact(op, Eval(left).value, Eval(right).value)
    ensures EvalExact(Node(op, left, right)) == Eval(Node(op, left, right))
  {
  }

  /** From a square no further than `x` from zero and no lower than `-low`. */
  predicate ResultBounded(e: Expr, x: int, low: int) {
    && EvalExact(e) == Eval(e)
    && (Eval(e).Some? ==> Eval(e).value >= -(100 * low) || Eval(e).value >= -(20 * x + 100))
  }

  lemma LeftBounded(s: int, a: int, b: int, op1: Op, op2: Op, x: int, low: int)
    requires x >= 0 && low >= 0
    requires 1 <= a <= 10 && 1 <= b <= 10 && Within(s, x) && s >= -low
    requires 100 * x + 1000 < TWO_63
    ensures ResultBounded(LeftNested(s, a, b, op1, op2), x, low)
  {
    hide ApplyOp, ApplyExact;
    OpWithin(op1, s, a, x, 10);
    var inner := Node(op1, Value(s), Value(a));
    EvalExactNode(op1, Value(s), Value(a));
    assert Eval(inner) == ApplyOp(op1, s, a);
    var l := ApplyOp(op1, s, a);
    if l.Some? {
      var yb := if op1 == Mul then 10 * x else x + 10;
      OpWithin(op2, l.value, b, yb, 10);
      EvalExactNode(op2, inner, Value(b));
      if op1 == Mul && op2 == Mul {
        ProductLow(s, a, b, x, low);
      }
    }
  }

  lemma ScaledLow(s: int, a: int, low: int)
    requires 1 <= a <= 10 && s >= -low && low >= 0
    ensures s * a >= -(10 * low)
  {
    if s < 0 {
      assert s * (10 - a) <= 0;
      assert s * a >= s * 10;
    }
  }

  lemma ProductLow(s: int, a: int, b: int, x: int, low: int)
    requires x >= 0 && low >= 0
    requires 1 <= a <= 10 && 1 <= b <= 10 && Within(s, x) && s >= -low
    requires 100 * x + 1000 < TWO_63
    ensures var l := ApplyOp(Mul, s, a);
            l.Some? && (var v := ApplyOp(Mul, l.value, b); v.Some? && v.value >= -(100 * low))
  {
    hide Wrap64, ApplyOp;
    assert ApplyExact(Mul, s, a).Some?;
    OpWithin(Mul, s, a, x, 10);
    ScaledLow(s, a, low);
    OpWithin(Mul, s * a, b, 10 * x, 10);
    ScaledLow(s * a, b, 10 * low);
  }

  lemma RightBounded(s: int, a: int, b: int, op1: Op, op2: Op, x: int, low: int)
    requires x >= 0 && low >= 0
    requires 1 <= a <= 10 && 1 <= b <= 10 && Within(s, x) && s >= -low
    requires 100 * x + 1000 < TWO_63
    requires !Pruned(op1, op2)
    ensures ResultBounded(RightNested(s, a, b, op1, op2), x, low)
  {
    hide ApplyOp, ApplyExact;
    OpWithin(op2, a, b, 10, 10);
    var inner := Node(op2, Value(a), Value(b));
    EvalExactNode(op2, Value(a), Value(b));
    assert Eval(inner) == ApplyOp(op2, a, b);
    var c := ApplyOp(op2, a, b);
    if c.Some? {
      var yb := if op2 == Mul then 100 else 20;
      OpWithin(op1, s, c.value, x, yb);
      EvalExactNode(op1, Value(s), inner);
    }
  }

  /** A pawn's expression is exact, and a hundredfold step down is the most it can take. */
  lemma PawnBounded(start: int, dice: seq<int>, m: PawnMove, x: int, low: int)
    requires x >= 0 && low >= 0
    requires IsPawnMove(start, dice, m)
    requires forall d | d in dice :: 1 <= d <= 10
    requires Within(start, x) && start >= -low && 100 * x + 1000 < TWO_63
    ensures ResultBounded(m.expr.value, x, low) && m.result >= if 100 * low >= 20 * x + 100 then -(100 * low) else -(20 * x + 100)
  {
    hide ApplyOp, ApplyExact, Pruned;
    var e := m.expr.value;
    if |dice| == 0 {
      assert Eval(e) == Some(start) && EvalExact(e) == Some(start);
    } else if |dice| == 1 {
      assert dice[0] in dice;
      OpWithin(e.op, start, dice[0], x, 10);
      EvalExactNode(e.op, e.left, e.right);
      assert Eval(e) == ApplyOp(e.op, start, dice[0]);
    } else {
      assert dice[0] in dice && dice[1] in dice;
      var (a, b) := if IsTwoDiceShape(start, dice[0], dice[1], e) then (dice[0], dice[1]) else (dice[1], dice[0]);
      if e.left.Node? {
        LeftBounded(start, a, b, e.left.op, e.op, x, low);
      } else {
        RightBounded(start, a, b, e.op, e.right.op, x, low);
      }
    }
  }

  function Pow100(k: nat): (p: int)
    ensures p >= 1
  {
    if k == 0 then 1 else 100 * Pow100(k - 1)
  }

  lemma {:induction false} Pow100Monotone(j: nat, k: nat)
    requires j <= k
    ensures Pow100(j) <= Pow100(k)
  {
    if j < k {
      Pow100Monotone(j, k - 1);
    }
  }

  /** Where a pawn can be after `k` moves of its owner. */
  predicate Reachable(x: int, k: nat) {
    if k == 0 then x == 0 else -Pow100(k) <= x <= GOAL
  }

  lemma ReachableZero(k: nat)
    ensures Reachable(0, k)
  {
  }

  /** The ninth move of a player is the last whose arithmetic is certain to be exact. */
  const EXACT_MOVES := 9

  predicate ExactPawn(m: PawnMove) {
    m.expr.Some? && EvalExact(m.expr.value) == Some(m.result)
  }

  lemma PawnStep(start: int, dice: seq<int>, m: PawnMove, k: nat)
    requires IsPawnMove(start, dice, m) && m.result <= GOAL
    requires forall d | d in dice :: 1 <= d <= 10
    requires Reachable(start, k) && k < EXACT_MOVES
    ensures Reachable(m.result, k + 1)
    ensures EvalExact(m.expr.value) == Some(m.result)
  {
    hide IsShape, Eval, EvalExact;
    Pow100Monotone(k, 8);
    assert Pow100(8) == 10_000_000_000_000_000 by {
      assert Pow100(4) == 100_000_000;
    }
    if k == 0 {
      PawnBounded(start, dice, m, 0, 0);
      assert Pow100(1) == 100;
    } else {
      var p := Pow100(k);
      assert p >= 100;
      PawnBounded(start, dice, m, p + 1, p);
    }
    if |dice| == 0 {
      ZeroDice(start, dice, m);
    }
  }

  lemma ZeroDice(start: int, dice: seq<int>, m: PawnMove)
    requires IsPawnMove(start, dice, m) && |dice| == 0
    ensures Eval(m.expr.value) == Some(m.result)
  {
  }

  /** One move of the player whose pawns have made `k` moves, and what the peer's pawns feel of it. */
  lemma MoveStep(b: Board, d1: int, d2: int, m: Move, k: nat)
    requires 1 <= d1 <= 10 && 1 <= d2 <= 10
    requires HasLegalEffect(b, d1, d2, m)
    requires Reachable(b.pawn1, k) && Reachable(b.pawn2, k) && k < EXACT_MOVES
    ensures Reachable(m.pawn1.result, k + 1) && Reachable(m.pawn2.result, k + 1)
    ensures Legal(b, d1, d2, m) ==> ExactPawn(m.pawn1) && ExactPawn(m.pawn2)
    ensures var b' := ApplyMove(b, m);
            && Reachable(b'.pawn1, k + 1) && Reachable(b'.pawn2, k + 1)
            && (b'.peer1 == b.peer1 || b'.peer1 == 0) && (b'.peer2 == b.peer2 || b'.peer2 == 0)
  {
    hide IsShape, EvalExact;
    var m' :| Legal(b, d1, d2, m') && SameEffect(m, m');
    ExactPair(b, d1, d2, m', k);
    if Legal(b, d1, d2, m) {
      ExactPair(b, d1, d2, m, k);
    }
    LegalFacts(b, d1, d2, m);
    ReachableZero(k + 1);
  }

  lemma ExactPair(b: Board, d1: int, d2: int, m: Move, k: nat)
    requires 1 <= d1 <= 10 && 1 <= d2 <= 10
    requires Legal(b, d1, d2, m)
    requires Reachable(b.pawn1, k) && Reachable(b.pawn2, k) && k < EXACT_MOVES
    ensures Reachable(m.pawn1.result, k + 1) && Reachable(m.pawn2.result, k + 1)
    ensures ExactPawn(m.pawn1) && ExactPawn(m.pawn2)
  {
    hide IsShape, EvalExact;
    var alloc :| alloc in AllAllocations(d1, d2, b.pawn1, b.pawn2)
                 && FromAllocation(b.pawn1, b.pawn2, b.peer1, b.peer2, alloc, m);
    assert forall d | d in alloc.pawn1 || d in alloc.pawn2 :: d == d1 || d == d2;
    PawnStep(b.pawn1, alloc.pawn1, m.pawn1.(bump := NoBump), k);
    PawnStep(b.pawn2, alloc.pawn2, m.pawn2.(bump := NoBump), k);
  }
}
