/**
 The game two honest players are going to have, as a function of their secrets and their
 strategies alone: dice, movers, moves and boards, round by round. No message is sent here.
 Round 0 rolls for initiative; round k >= 1 rolls and makes the k-th move.
 */
module Plan {
  import opened Boards
  import opened Bytes
  import opened Convert
  import opened Dice
  import opened Exchange
  import opened Game
  import opened Magnitude
  import opened Moves
  import opened Options

  const SIDES := 10

  datatype Side = A | B {
    function Other(): Side {
      if this == A then B else A
    }
  }

  /** Moves go whole through Go channels; on a stream they pass the wire form. */
  datatype Transport = Channels | Stream

  /**
   The secret each side draws in each round, and each side's strategy. What a random strategy
   will draw, turn by turn, can be fixed beforehand, since the log tells the turns apart.
   */
  datatype Config = Config(
    h: Hash,
    transport: Transport,
    secret: (Side, nat) -> Digest,
    strategy: Side -> Strategy)

  ghost predicate MemberStrategies(c: Config) {
    ChoosesMember(c.strategy(A)) && ChoosesMember(c.strategy(B))
  }

  function DiceOf(c: Config, k: nat): Option<seq<uint16>> {
    Extract(SIDES, SharedSum(c.h, c.secret(A, k), c.secret(B, k)))
  }

  function Die1(c: Config, k: nat): int {
    var r := DiceOf(c, k);
    if r.Some? then r.value[0] else 1
  }

  function Die2(c: Config, k: nat): int {
    var r := DiceOf(c, k);
    if r.Some? then r.value[1] else 1
  }

  lemma DiceInRange(c: Config, k: nat)
    ensures 1 <= Die1(c, k) <= 10 && 1 <= Die2(c, k) <= 10
  {
    var sum := SharedSum(c.h, c.secret(A, k), c.secret(B, k));
    ExtractInRange(SIDES, sum);
    var r := DiceOf(c, k);
    if r.Some? {
      assert r.value[0] in r.value && r.value[1] in r.value;
    }
  }

  /** Side A wants to roll high. */
  predicate GoesFirst(side: Side, roll: int) {
    WinsInitiative(side == A, roll)
  }

  function First(c: Config): Side {
    if GoesFirst(A, Die1(c, 0)) then A else B
  }

  lemma ExactlyOneGoesFirst(c: Config, side: Side)
    ensures GoesFirst(side, Die1(c, 0)) <==> First(c) == side
  {
  }

  function Mover(c: Config, k: nat): Side {
    if k % 2 == 1 then First(c) else First(c).Other()
  }

  /** The board before round `n + 1`, as the player about to move sees it. */
  function MoverBoard(c: Config, n: nat): Board
    decreases n, 0
  {
    if n == 0 then START else ApplyMove(MoverBoard(c, n - 1), MoveOf(c, n)).Mirror()
  }

  /** The mover's strategy is shown its board, its log and the enumeration. */
  function MoveOf(c: Config, k: nat): Move
    requires k >= 1
    decreases k - 1, 4
  {
    var b, mover := MoverBoard(c, k - 1), Mover(c, k);
    c.strategy(mover)(b, LogOf(c, mover, k - 1), Enumeration(b, Die1(c, k), Die2(c, k)))
  }

  /** The board of `side` once `n` moves have been made. */
  function ViewOf(c: Config, side: Side, n: nat): Board
    decreases n, 1
  {
    if Mover(c, n + 1) == side then MoverBoard(c, n) else MoverBoard(c, n).Mirror()
  }

  /** The log entry of `side` for move `k`. */
  function EntryOf(c: Config, side: Side, k: nat): GameLogEntry
    requires k >= 1
    decreases k, 2
  {
    var own := Mover(c, k) == side;
    GameLogEntry(if own then "Self" else "Peer", if own then MoveOf(c, k) else Delivered(c.transport, MoveOf(c, k)),
      TurnNumber(First(c) == side, k - 1), !own, ViewOf(c, side, k - 1), ViewOf(c, side, k), (Die1(c, k), Die2(c, k)))
  }

  function LogOf(c: Config, side: Side, n: nat): (log: seq<GameLogEntry>)
    ensures |log| == n
    decreases n, 3
  {
    if n == 0 then [] else LogOf(c, side, n - 1) + [EntryOf(c, side, n)]
  }

  predicate Wins(c: Config, k: nat)
    requires k >= 1
  {
    ApplyMove(MoverBoard(c, k - 1), MoveOf(c, k)).Win()
  }

  /** Round `k` takes place: every round before it had enough entropy and nobody has won. */
  predicate Live(c: Config, k: nat) {
    k == 0 || (Live(c, k - 1) && DiceOf(c, k - 1).Some? && (k == 1 || !Wins(c, k - 1)))
  }

  /** A round that takes place was preceded by rounds that rolled and did not decide the game. */
  lemma {:induction false} LiveBefore(c: Config, j: nat, k: nat)
    requires j < k && Live(c, k)
    ensures Live(c, j) && DiceOf(c, j).Some? && (j >= 1 ==> !Wins(c, j))
  {
    hide DiceOf, Wins;
    if j < k - 1 {
      LiveBefore(c, j, k - 1);
    }
  }

  /** The move as the other side gets it. */
  function Delivered(t: Transport, m: Move): Move {
    if t == Stream then OverTheWire(m) else m
  }

  predicate Fits(c: Config, k: nat)
    requires k >= 1
  {
    c.transport == Stream ==> FitsWire(MoveOf(c, k))
  }

  // The definitions, one step each.

  lemma BoardIs(c: Config, n: nat)
    ensures MoverBoard(c, n) == if n == 0 then START else ApplyMove(MoverBoard(c, n - 1), MoveOf(c, n)).Mirror()
  {
    hide MoveOf, ApplyMove;
  }

  lemma MoveOfIs(c: Config, k: nat)
    requires k >= 1
    ensures var b, mover := MoverBoard(c, k - 1), Mover(c, k);
            MoveOf(c, k) == c.strategy(mover)(b, LogOf(c, mover, k - 1), Enumeration(b, Die1(c, k), Die2(c, k)))
  {
    hide MoverBoard, LogOf, Mover, Die1, Die2, Enumeration;
  }

  lemma ViewIs(c: Config, side: Side, n: nat)
    ensures ViewOf(c, side, n) == if Mover(c, n + 1) == side then MoverBoard(c, n) else MoverBoard(c, n).Mirror()
  {
    hide MoverBoard, Mover;
  }

  lemma EntryIs(c: Config, side: Side, k: nat)
    requires k >= 1
    ensures var own := Mover(c, k) == side;
            EntryOf(c, side, k) ==
            GameLogEntry(if own then "Self" else "Peer", if own then MoveOf(c, k) else Delivered(c.transport, MoveOf(c, k)),
              TurnNumber(First(c) == side, k - 1), !own, ViewOf(c, side, k - 1), ViewOf(c, side, k), (Die1(c, k), Die2(c, k)))
  {
    hide Mover, MoveOf, Delivered, First, ViewOf, Die1, Die2;
  }

  lemma LogIs(c: Config, side: Side, n: nat)
    ensures LogOf(c, side, n) == if n == 0 then [] else LogOf(c, side, n - 1) + [EntryOf(c, side, n)]
  {
    hide EntryOf;
  }

  /** A legal move that does not win leaves the next player a sound, undecided board. */
  lemma NextBoard(b: Board, d1: int, d2: int, m: Move)
    requires Sound(b) && b.Undecided() && Legal(b, d1, d2, m) && !ApplyMove(b, m).Win()
    ensures var b' := ApplyMove(b, m).Mirror(); Sound(b') && b'.Undecided()
  {
    hide IsMove, ApplyMove, Sound;
    assert SameEffect(m, m);
    SoundKept(b, d1, d2, m);
    SoundMirror(ApplyMove(b, m));
    GoalIsAbsorbing(b, d1, d2, m);
  }

  /** On every round that takes place the board is sound and undecided, and the planned move is legal. */
  lemma {:induction false} RoundIsLegal(c: Config, k: nat)
    requires MemberStrategies(c) && k >= 1 && Live(c, k)
    ensures var b := MoverBoard(c, k - 1);
            && Sound(b) && b.Undecided()
            && CanMove(b, Die1(c, k), Die2(c, k))
            && Legal(b, Die1(c, k), Die2(c, k), MoveOf(c, k))
            && HasLegalEffect(b, Die1(c, k), Die2(c, k), MoveOf(c, k))
  {
    hide Legal, DiceOf, Die1, Die2, ApplyMove, Mover, MoveOf, CanMove, MoverBoard, ViewOf, EntryOf, LogOf;
    BoardIs(c, 0);
    BoardIs(c, k - 1);
    var b := MoverBoard(c, k - 1);
    if k > 1 {
      RoundIsLegal(c, k - 1);
      if k == 2 {
        DiceInRange(c, 1);
        OpeningCannotWin(Die1(c, 1), Die2(c, 1), MoveOf(c, 1));
      }
      NextBoard(MoverBoard(c, k - 2), Die1(c, k - 1), Die2(c, k - 1), MoveOf(c, k - 1));
    } else {
      assert Sound(START);
    }
    DiceInRange(c, k);
    MoverNeverStuck(b, Die1(c, k), Die2(c, k));
    MoveIsMember(c, k);
    assert SameEffect(MoveOf(c, k), MoveOf(c, k));
  }

  lemma MoveIsMember(c: Config, k: nat)
    requires MemberStrategies(c) && k >= 1 && CanMove(MoverBoard(c, k - 1), Die1(c, k), Die2(c, k))
    ensures Legal(MoverBoard(c, k - 1), Die1(c, k), Die2(c, k), MoveOf(c, k))
  {
    hide Legal, DiceOf, Die1, Die2, Mover, MoverBoard, LogOf, MoveOf, Enumeration, CanMove;
    var b := MoverBoard(c, k - 1);
    MoveOfIs(c, k);
    assert ChoosesMember(c.strategy(Mover(c, k))) by {
      assert Mover(c, k) == A || Mover(c, k) == B;
    }
    CanMoveSome(b, Die1(c, k), Die2(c, k));
    EnumerationMember(b, Die1(c, k), Die2(c, k), MoveOf(c, k));
  }

  /** Nobody wins with the first move, which is why the second player need not look. */
  lemma FirstMoveNeverWins(c: Config)
    requires MemberStrategies(c) && Live(c, 1)
    ensures !Wins(c, 1)
  {
    hide IsMove, MoverBoard, MoveOf, ViewOf, EntryOf, LogOf;
    BoardIs(c, 0);
    RoundIsLegal(c, 1);
    DiceInRange(c, 1);
    assert SameEffect(MoveOf(c, 1), MoveOf(c, 1));
    OpeningCannotWin(Die1(c, 1), Die2(c, 1), MoveOf(c, 1));
  }

  /** What the player not moving does with the move delivered to it. */
  lemma DeliveredMoveAccepted(c: Config, k: nat)
    requires MemberStrategies(c) && k >= 1 && Live(c, k) && Fits(c, k)
    ensures var b, w := MoverBoard(c, k - 1), Delivered(c.transport, MoveOf(c, k));
            && SameEffect(w, MoveOf(c, k))
            && HasLegalEffect(b, Die1(c, k), Die2(c, k), w)
            && ApplyPeerMove(b.Mirror(), w) == MoverBoard(c, k)
  {
    hide IsMove, MoverBoard, MoveOf, ViewOf, EntryOf, LogOf;
    BoardIs(c, k);
    RoundIsLegal(c, k);
    var b, m := MoverBoard(c, k - 1), MoveOf(c, k);
    var w := Delivered(c.transport, m);
    assert SameEffect(m, m);
    WireKeepsMove(b, Die1(c, k), Die2(c, k), m);
    assert SameEffect(w, m);
    SameEffectSameBoard(b.Mirror(), w, m);
    ReplicasStayMirrored(b, m);
  }

  /** The delivered move is accepted and mirrored exactly when the move survived the transport. */
  lemma UnfitIsNotMirrored(c: Config, k: nat)
    requires MemberStrategies(c) && k >= 1 && Live(c, k)
    ensures var b, w := MoverBoard(c, k - 1), Delivered(c.transport, MoveOf(c, k));
            HasLegalEffect(b, Die1(c, k), Die2(c, k), w) && ApplyPeerMove(b.Mirror(), w) == MoverBoard(c, k)
            <==> Fits(c, k)
  {
    hide DiceOf, Die1, Die2, ApplyMove, ApplyPeerMove, HasLegalEffect, Sound, FitsWire, OverTheWire, MoverBoard,
         MoveOf, ViewOf, EntryOf, LogOf;
    BoardIs(c, k);
    RoundIsLegal(c, k);
    var b, m := MoverBoard(c, k - 1), MoveOf(c, k);
    if c.transport == Stream {
      WireAgreement(b, Die1(c, k), Die2(c, k), m);
    } else {
      ReplicasStayMirrored(b, m);
    }
  }

  lemma ViewsMirror(c: Config, n: nat)
    ensures ViewOf(c, A, n) == ViewOf(c, B, n).Mirror() && ViewOf(c, B, n) == ViewOf(c, A, n).Mirror()
  {
    hide MoverBoard, MoveOf, ViewOf, EntryOf, LogOf;
    ViewIs(c, A, n);
    ViewIs(c, B, n);
    assert MoverBoard(c, n).Mirror().Mirror() == MoverBoard(c, n);
  }

  /** How move `k` changes the view of its maker, and of the other side. */
  lemma ViewStep(c: Config, side: Side, k: nat)
    requires MemberStrategies(c) && k >= 1 && Live(c, k) && Fits(c, k)
    ensures ViewOf(c, side, k) ==
            if Mover(c, k) == side then ApplyMove(ViewOf(c, side, k - 1), MoveOf(c, k))
            else ApplyPeerMove(ViewOf(c, side, k - 1), Delivered(c.transport, MoveOf(c, k)))
    ensures MoverBoard(c, k - 1) == if Mover(c, k) == side then ViewOf(c, side, k - 1) else ViewOf(c, side, k - 1).Mirror()
  {
    hide DiceOf, Die1, Die2, ApplyMove, ApplyPeerMove, Delivered, HasLegalEffect, Fits, MoverBoard, MoveOf, ViewOf,
         EntryOf, LogOf;
    ViewIs(c, side, k);
    ViewIs(c, side, k - 1);
    BoardIs(c, k);
    DeliveredMoveAccepted(c, k);
    assert MoverBoard(c, k - 1).Mirror().Mirror() == MoverBoard(c, k - 1);
    var b := ApplyMove(MoverBoard(c, k - 1), MoveOf(c, k));
    assert b.Mirror().Mirror() == b;
  }

  lemma EntryEffect(c: Config, side: Side, k: nat)
    requires MemberStrategies(c) && k >= 1 && Live(c, k) && Fits(c, k)
    ensures var e := EntryOf(c, side, k);
            && Effect(e) == e.state && MoverView(e) == MoverBoard(c, k - 1)
            && e.isPeer == PeerMovesAt(First(c) == side, k - 1)
  {
    hide First, Die1, Die2, ApplyMove, ApplyPeerMove, Delivered, Fits, ViewOf, MoverBoard, Live, MoveOf, EntryOf,
         LogOf;
    EntryIs(c, side, k);
    ViewStep(c, side, k);
  }

  lemma EntryIsTurn(c: Config, side: Side, k: nat)
    requires MemberStrategies(c) && k >= 1 && Live(c, k) && Fits(c, k)
    ensures var e, goFirst := EntryOf(c, side, k), First(c) == side;
            && IsTurn(e, ViewOf(c, side, k - 1), ViewOf(c, side, k), TurnNumber(goFirst, k - 1), PeerMovesAt(goFirst, k - 1))
            && LegalEntry(e)
  {
    hide First, Die1, Die2, Delivered, HasLegalEffect, Fits, ViewOf, MoverBoard, Live, MoveOf, Mover, Effect,
         PeerMovesAt, EntryOf, LogOf;
    EntryIs(c, side, k);
    RoundIsLegal(c, k);
    DeliveredMoveAccepted(c, k);
    DiceInRange(c, k);
    EntryEffect(c, side, k);
  }

  /** The first `n` moves survive the transport. */
  predicate FitUpTo(c: Config, n: nat) {
    forall k | 1 <= k <= n :: Fits(c, k)
  }

  /** Either side's log is one that playing alone against an honest peer produces: a legal game. */
  lemma {:induction false} LogIsGood(c: Config, side: Side, n: nat)
    requires MemberStrategies(c) && Live(c, n) && FitUpTo(c, n)
    ensures GoodLog(First(c) == side, LogOf(c, side, n), true)
    ensures BoardAfter(LogOf(c, side, n)) == ViewOf(c, side, n)
  {
    hide LegalEntry, Effect, EntryOf, ViewOf, GoodLog, MoverBoard, MoveOf, LogOf;
    LogIs(c, side, n);
    if n == 0 {
      EmptyLogIsGood(First(c) == side, true);
      assert ViewOf(c, side, 0) == START by { OpeningView(c, side); }
    } else {
      LogIsGood(c, side, n - 1);
      EntryIsTurn(c, side, n);
      var e := EntryOf(c, side, n);
      LegalEntryUndecided(e);
      GoodLogExtend(First(c) == side, LogOf(c, side, n - 1), true, e);
    }
  }

  lemma OpeningView(c: Config, side: Side)
    ensures ViewOf(c, side, 0) == START
  {
    hide MoverBoard, MoveOf, ViewOf, EntryOf, LogOf;
    ViewIs(c, side, 0);
    BoardIs(c, 0);
    assert START.Mirror() == START;
  }

  lemma LegalEntryUndecided(e: GameLogEntry)
    requires LegalEntry(e)
    ensures e.fromState.Undecided()
  {
  }

  /** Entry by entry the two logs are each other's mirror image, turn numbers and names apart. */
  predicate MirrorEntries(e: GameLogEntry, e': GameLogEntry) {
    && e.isPeer == !e'.isPeer && e.rolls == e'.rolls && SameEffect(e.move, e'.move)
    && e.fromState == e'.fromState.Mirror() && e.state == e'.state.Mirror()
  }

  lemma EntriesMirror(c: Config, k: nat)
    requires MemberStrategies(c) && k >= 1 && Live(c, k) && Fits(c, k)
    ensures MirrorEntries(EntryOf(c, A, k), EntryOf(c, B, k))
  {
    hide DiceOf, Die1, Die2, ApplyMove, ApplyPeerMove, Delivered, HasLegalEffect, Fits, ViewOf, MoverBoard, Live,
         MoveOf, EntryOf, LogOf;
    EntryIs(c, A, k);
    EntryIs(c, B, k);
    DeliveredMoveAccepted(c, k);
    ViewsMirror(c, k - 1);
    ViewsMirror(c, k);
  }

  lemma {:induction false} LogsMirror(c: Config, n: nat)
    requires MemberStrategies(c) && Live(c, n) && FitUpTo(c, n)
    ensures forall i | 0 <= i < n :: MirrorEntries(LogOf(c, A, n)[i], LogOf(c, B, n)[i])
  {
    hide MirrorEntries, EntryOf, Fits, MoverBoard, MoveOf, ViewOf, LogOf;
    LogIs(c, A, n);
    LogIs(c, B, n);
    if n > 0 {
      LogsMirror(c, n - 1);
      EntriesMirror(c, n);
    }
  }

  lemma {:induction false} LogPrefix(c: Config, side: Side, n: nat, m: nat)
    requires n <= m
    ensures LogOf(c, side, n) == LogOf(c, side, m)[..n]
  {
    hide EntryOf, MoverBoard, MoveOf, ViewOf, LogOf;
    LogIs(c, side, m);
    if n == m {
      assert LogOf(c, side, m)[..m] == LogOf(c, side, m);
    } else {
      LogPrefix(c, side, n, m - 1);
      assert LogOf(c, side, m)[..m - 1] == LogOf(c, side, m - 1);
      assert LogOf(c, side, m)[..n] == LogOf(c, side, m)[..m - 1][..n];
    }
  }

  predicate BoardReachable(b: Board, own: nat, peer: nat) {
    Reachable(b.pawn1, own) && Reachable(b.pawn2, own) && Reachable(b.peer1, peer) && Reachable(b.peer2, peer)
  }

  lemma NextReachable(b: Board, d1: int, d2: int, m: Move, own: nat, peer: nat)
    requires 1 <= d1 <= 10 && 1 <= d2 <= 10 && HasLegalEffect(b, d1, d2, m)
    requires BoardReachable(b, own, peer) && own <= 3
    ensures BoardReachable(ApplyMove(b, m).Mirror(), peer, own + 1)
    ensures FitsWire(m)
  {
    hide HasLegalEffect, Legal, ApplyMove, ExactPawn, Reachable;
    MoveStep(b, d1, d2, m, own);
    ReachableZero(peer);
    SmallFits(m.pawn1.result, own + 1);
    SmallFits(m.pawn2.result, own + 1);
  }

  lemma SmallFits(x: int, k: nat)
    requires Reachable(x, k) && k <= 4
    ensures -100_000_000 <= x <= GOAL
  {
    Pow100Monotone(k, 4);
    assert Pow100(4) == 100_000_000;
  }

  /** Eight rounds, four moves a side, always fit the stream. */
  lemma {:induction false} EarlyRoundsFit(c: Config, k: nat)
    requires MemberStrategies(c) && 1 <= k <= 8 && Live(c, k)
    ensures Fits(c, k)
    ensures BoardReachable(MoverBoard(c, k - 1), (k - 1) / 2, k / 2)
    ensures BoardReachable(MoverBoard(c, k), k / 2, (k - 1) / 2 + 1)
  {
    hide HasLegalEffect, Legal, ApplyMove, BoardReachable, DiceOf, Die1, Die2, Mover, FitsWire, Wins,
         MemberStrategies, CanMove, Sound, MoveOf, MoverBoard, ViewOf, EntryOf, LogOf;
    BoardIs(c, 0);
    BoardIs(c, k);
    if k == 1 {
      ReachableZero(0);
      assert BoardReachable(START, 0, 0) by { StartReachable(); }
    } else {
      EarlyRoundsFit(c, k - 1);
    }
    RoundIsLegal(c, k);
    DiceInRange(c, k);
    NextReachable(MoverBoard(c, k - 1), Die1(c, k), Die2(c, k), MoveOf(c, k), (k - 1) / 2, k / 2);
  }

  lemma StartReachable()
    ensures BoardReachable(START, 0, 0)
  {
  }
}
