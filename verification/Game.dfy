/** One player's side of a game: the mutable state with its log, and the session that plays it. */
module Game {
  import opened Boards
  import opened Moves
  import opened Options

  type Die = d: int | 1 <= d <= 10 witness 1

  datatype GameLogEntry = GameLogEntry(
    player: string, move: Move, turnNum: nat, isPeer: bool, fromState: Board, state: Board, rolls: (int, int))

  /** The board an entry leads to. */
  function Effect(e: GameLogEntry): Board {
    if e.isPeer then ApplyPeerMove(e.fromState, e.move) else ApplyMove(e.fromState, e.move)
  }

  function BoardAfter(log: seq<GameLogEntry>): Board {
    if log == [] then START else log[|log| - 1].state
  }

  /** The log starts from the empty board and every entry takes up where the last one ended. */
  predicate Replays(log: seq<GameLogEntry>) {
    forall i | 0 <= i < |log| :: log[i].fromState == BoardAfter(log[..i]) && log[i].state == Effect(log[i])
  }

  /** The second player numbers two opposing turns 0. */
  function TurnNumber(goFirst: bool, i: nat): nat {
    if goFirst then i / 2 else if i == 0 then 0 else (i - 1) / 2
  }

  predicate PeerMovesAt(goFirst: bool, i: nat) {
    (i % 2 == 0) != goFirst
  }

  /** Turns alternate from whoever goes first. */
  predicate Alternates(goFirst: bool, log: seq<GameLogEntry>) {
    forall i | 0 <= i < |log| ::
      && log[i].isPeer == PeerMovesAt(goFirst, i)
      && log[i].player == (if log[i].isPeer then "Peer" else "Self")
      && log[i].turnNum == TurnNumber(goFirst, i)
  }

  /** The board as the player making the move sees it. */
  function MoverView(e: GameLogEntry): Board {
    if e.isPeer then e.fromState.Mirror() else e.fromState
  }

  ghost predicate LegalEntry(e: GameLogEntry) {
    && 1 <= e.rolls.0 <= 10 && 1 <= e.rolls.1 <= 10
    && e.fromState.Undecided()
    && HasLegalEffect(MoverView(e), e.rolls.0, e.rolls.1, e.move)
  }

  /** A legal game: every move was open to whoever made it, on a board nobody had won. */
  ghost predicate LegalGame(log: seq<GameLogEntry>) {
    Replays(log) && forall i | 0 <= i < |log| :: LegalEntry(log[i])
  }

  lemma ReplaysExtend(log: seq<GameLogEntry>, e: GameLogEntry)
    requires Replays(log) && e.fromState == BoardAfter(log) && e.state == Effect(e)
    ensures Replays(log + [e])
  {
    var log' := log + [e];
    forall i | 0 <= i < |log'|
      ensures log'[i].fromState == BoardAfter(log'[..i]) && log'[i].state == Effect(log'[i])
    {
      assert log'[..i] == log[..i];
      assert log[..|log|] == log;
    }
  }

  /** Whoever moves, the other side's pawns stay or go back to 0. */
  lemma OthersOnlyFallBack(b: Board, m: Move)
    ensures ApplyMove(b, m).peer1 in {b.peer1, 0} && ApplyMove(b, m).peer2 in {b.peer2, 0}
    ensures ApplyPeerMove(b, m).pawn1 in {b.pawn1, 0} && ApplyPeerMove(b, m).pawn2 in {b.pawn2, 0}
  {
  }

  /** Every board of a legal game is sound, and no move is made to a board both sides have won. */
  lemma {:induction false} LegalGameSound(log: seq<GameLogEntry>)
    requires LegalGame(log)
    ensures Sound(BoardAfter(log)) && !(BoardAfter(log).Win() && BoardAfter(log).Lose())
    ensures var b := BoardAfter(log);
            && (b.pawn1 == b.pawn2 ==> b.pawn1 in {0, 101}) && (b.peer1 == b.peer2 ==> b.peer1 in {0, 101})
            && (b.pawn1 == b.peer1 ==> b.pawn1 in {0, 101}) && (b.pawn1 == b.peer2 ==> b.pawn1 in {0, 101})
            && (b.pawn2 == b.peer1 ==> b.pawn2 in {0, 101}) && (b.pawn2 == b.peer2 ==> b.pawn2 in {0, 101})
            && b.pawn1 <= 101 && b.pawn2 <= 101 && b.peer1 <= 101 && b.peer2 <= 101
  {
    if log != [] {
      var k := |log| - 1;
      PrefixLegal(log, k);
      LegalGameSound(log[..k]);
      EntrySound(log[k]);
    }
  }

  lemma PrefixLegal(log: seq<GameLogEntry>, k: nat)
    requires LegalGame(log) && k <= |log|
    ensures LegalGame(log[..k])
  {
    forall i | 0 <= i < k
      ensures log[..k][i].fromState == BoardAfter(log[..k][..i]) && log[..k][i].state == Effect(log[..k][i])
    {
      assert log[..k][..i] == log[..i];
    }
  }

  /** One legal entry: soundness is kept, the bump rule is followed, the goal is not left. */
  lemma EntrySound(e: GameLogEntry)
    requires LegalEntry(e) && e.state == Effect(e) && Sound(e.fromState)
    ensures Sound(e.state) && !(e.state.Win() && e.state.Lose())
    ensures var after := if e.isPeer then e.state.Mirror() else e.state;
            after == BumpRule(MoverView(e), e.move.pawn1.result, e.move.pawn2.result)
    ensures GoalKept(e.fromState, e.state)
  {
    hide IsMove;
    SoundMirror(e.fromState);
    SoundKept(MoverView(e), e.rolls.0, e.rolls.1, e.move);
    GoalIsAbsorbing(MoverView(e), e.rolls.0, e.rolls.1, e.move);
    if e.isPeer {
      ReplicasStayMirrored(MoverView(e), e.move);
      assert e.fromState.Mirror().Mirror() == e.fromState;
      SoundMirror(ApplyMove(MoverView(e), e.move));
    }
  }

  predicate GoalKept(b: Board, b': Board) {
    && (b.pawn1 == GOAL ==> b'.pawn1 == GOAL) && (b.pawn2 == GOAL ==> b'.pawn2 == GOAL)
    && (b.peer1 == GOAL ==> b'.peer1 == GOAL) && (b.peer2 == GOAL ==> b'.peer2 == GOAL)
  }

  /** Entry `k` of a legal game in context. */
  lemma EntryOfGame(log: seq<GameLogEntry>, k: nat)
    requires LegalGame(log) && k < |log|
    ensures log[k].fromState == BoardAfter(log[..k]) && log[k].state == BoardAfter(log[..k + 1])
    ensures Sound(log[k].fromState) && Sound(log[k].state) && GoalKept(log[k].fromState, log[k].state)
  {
    hide LegalEntry, Sound, GoalKept, Effect;
    PrefixLegal(log, k);
    LegalGameSound(log[..k]);
    assert LegalEntry(log[k]);
    EntrySound(log[k]);
  }

  /** A pawn that has reached the goal is on it in every later board of the game. */
  lemma {:induction false} GoalIsForever(log: seq<GameLogEntry>, i: nat, j: nat)
    requires LegalGame(log) && i <= j <= |log|
    ensures GoalKept(BoardAfter(log[..i]), BoardAfter(log[..j]))
  {
    hide LegalGame;
    if i < j {
      GoalIsForever(log, i, j - 1);
      EntryOfGame(log, j - 1);
    }
  }

  class State {
    var pawn1Pos: int
    var pawn2Pos: int
    var peerPawn1Pos: int
    var peerPawn2Pos: int
    var gameLog: seq<GameLogEntry>

    function View(): Board
      reads this
    {
      Board(pawn1Pos, pawn2Pos, peerPawn1Pos, peerPawn2Pos)
    }

    constructor ()
      ensures View() == START && gameLog == []
    {
      pawn1Pos, pawn2Pos, peerPawn1Pos, peerPawn2Pos := 0, 0, 0, 0;
      gameLog := [];
    }

    constructor Copy(s: State)
      ensures View() == s.View() && gameLog == s.gameLog
    {
      pawn1Pos, pawn2Pos := s.pawn1Pos, s.pawn2Pos;
      peerPawn1Pos, peerPawn2Pos := s.peerPawn1Pos, s.peerPawn2Pos;
      gameLog := s.gameLog;
    }

    method Move(m: Move)
      modifies this
      ensures View() == ApplyMove(old(View()), m) && gameLog == old(gameLog)
    {
      pawn1Pos := m.pawn1.result;
      pawn2Pos := m.pawn2.result;
      match m.pawn1.bump {
        case BumpedPeer1 => peerPawn1Pos := 0;
        case BumpedPeer2 => peerPawn2Pos := 0;
        case BumpedSelf => pawn1Pos := 0;
        case _ =>
      }
      match m.pawn2.bump {
        case BumpedPeer1 => peerPawn1Pos := 0;
        case BumpedPeer2 => peerPawn2Pos := 0;
        case BumpedSelf => pawn1Pos := 0;
        case _ =>
      }
    }

    method PeerMove(m: Move)
      modifies this
      ensures View() == ApplyPeerMove(old(View()), m) && gameLog == old(gameLog)
    {
      peerPawn1Pos := m.pawn1.result;
      peerPawn2Pos := m.pawn2.result;
      match m.pawn1.bump {
        case BumpedPeer1 => pawn1Pos := 0;
        case BumpedPeer2 => pawn2Pos := 0;
        case BumpedSelf => peerPawn1Pos := 0;
        case _ =>
      }
      match m.pawn2.bump {
        case BumpedPeer1 => pawn1Pos := 0;
        case BumpedPeer2 => pawn2Pos := 0;
        case BumpedSelf => peerPawn1Pos := 0;
        case _ =>
      }
    }

    /** Logs the move against the board it will lead to, before it is made. */
    method AddGameLogEntry(move: Move, turnNum: nat, isPeer: bool, rolls: seq<int>)
      modifies this
      ensures View() == old(View())
      ensures exists e: GameLogEntry ::
                && gameLog == old(gameLog) + [e]
                && e.fromState == View() && e.state == Effect(e)
                && e.move == move && e.turnNum == turnNum && e.isPeer == isPeer
                && e.player == (if isPeer then "Peer" else "Self")
                && e.rolls == (if |rolls| >= 2 then (rolls[0], rolls[1]) else (0, 0))
    {
      var rollsArray := (0, 0);
      if |rolls| >= 2 {
        rollsArray := (rolls[0], rolls[1]);
      }
      var newState := new State.Copy(this);
      if isPeer {
        newState.PeerMove(move);
      } else {
        newState.Move(move);
      }
      var name := if isPeer then "Peer" else "Self";
      var logEntry := GameLogEntry(name, move, turnNum, isPeer, View(), newState.View(), rollsArray);
      gameLog := gameLog + [logEntry];
    }
  }

  datatype TurnError = RollFailed | ReceiveFailed | SendFailed | NoValidMoves | InvalidMove

  /** Some move on the list looks like `move` to the validation. */
  method ContainsEffect(moves: seq<Move>, move: Move) returns (found: bool)
    ensures found <==> exists m :: m in moves && SameEffect(move, m)
  {
    for i := 0 to |moves|
      invariant forall j | 0 <= j < i :: !SameEffect(move, moves[j])
    {
      if SameEffect(move, moves[i]) {
        return true;
      }
    }
    return false;
  }

  /** The check of a received move against the own enumeration of what the peer could do. */
  method ValidateMove(d1: int, d2: int, b: Board, move: Move) returns (err: Option<TurnError>)
    ensures err == None <==> HasLegalEffect(b.Mirror(), d1, d2, move)
    ensures err == Some(NoValidMoves) <==> !CanMove(b.Mirror(), d1, d2)
    ensures err in {None, Some(NoValidMoves), Some(InvalidMove)}
  {
    hide IsMove;
    var moves := GenerateMoves(b.peer1, b.peer2, d1, d2, b.pawn1, b.pawn2);
    if |moves| == 0 {
      assert forall m :: m !in moves;
      return Some(NoValidMoves);
    }
    assert moves[0] in moves && Legal(b.Mirror(), d1, d2, moves[0]);
    var found := ContainsEffect(moves, move);
    if !found {
      return Some(InvalidMove);
    }
    return None;
  }

  type Strategy = (Board, seq<GameLogEntry>, seq<Move>) -> Move

  /** What the Strategy interface asks for: one of the moves it was given. */
  ghost predicate ChoosesMember(strategy: Strategy) {
    forall b, log, moves :: |moves| > 0 ==> strategy(b, log, moves) in moves
  }

  /** `m` is what the strategy picks when shown that board, that log and the enumeration. */
  predicate Chooses(strategy: Strategy, b: Board, log: seq<GameLogEntry>, d1: int, d2: int, m: Move) {
    var moves := Enumeration(b, d1, d2);
    moves != [] && m == strategy(b, log, moves)
  }

  /** Every own move in a log is the strategy's choice at that point. */
  predicate Chosen(strategy: Strategy, log: seq<GameLogEntry>) {
    forall i | 0 <= i < |log| && !log[i].isPeer ::
      Chooses(strategy, log[i].fromState, log[..i], log[i].rolls.0, log[i].rolls.1, log[i].move)
  }

  lemma ChosenExtend(strategy: Strategy, log: seq<GameLogEntry>, e: GameLogEntry)
    requires Chosen(strategy, log)
    requires !e.isPeer ==> Chooses(strategy, e.fromState, log, e.rolls.0, e.rolls.1, e.move)
    ensures Chosen(strategy, log + [e])
  {
    hide Chooses;
    var log' := log + [e];
    forall i | 0 <= i < |log'| && !log'[i].isPeer
      ensures Chooses(strategy, log'[i].fromState, log'[..i], log'[i].rolls.0, log'[i].rolls.1, log'[i].move)
    {
      assert log'[..i] == log[..i];
      assert log[..|log|] == log;
    }
  }

  lemma ChoiceIsLegal(strategy: Strategy, b: Board, log: seq<GameLogEntry>, d1: int, d2: int, m: Move)
    requires ChoosesMember(strategy) && Chooses(strategy, b, log, d1, d2, m)
    ensures Legal(b, d1, d2, m)
  {
    hide Legal, Enumeration;
    EnumerationMember(b, d1, d2, m);
  }

  predicate WinsInitiative(high: bool, roll: int) {
    if high then roll > 5 else roll <= 5
  }

  /** Each side goes first on five of the ten faces, and on each face exactly one does. */
  lemma InitiativeIsFair()
    ensures (set d | 1 <= d <= 10 && WinsInitiative(true, d)) == {6, 7, 8, 9, 10}
    ensures (set d | 1 <= d <= 10 && WinsInitiative(false, d)) == {1, 2, 3, 4, 5}
    ensures |set d | 1 <= d <= 10 && WinsInitiative(true, d)| == |set d | 1 <= d <= 10 && WinsInitiative(false, d)| == 5
  {
    assert (set d | 1 <= d <= 10 && WinsInitiative(true, d)) == {6, 7, 8, 9, 10};
    assert (set d | 1 <= d <= 10 && WinsInitiative(false, d)) == {1, 2, 3, 4, 5};
  }

  datatype PlayResult = Finished(win: bool) | GameError(err: TurnError)

  /** One turn's entry: made on `from`, leading to `to`. */
  predicate IsTurn(e: GameLogEntry, from: Board, to: Board, turnNum: nat, isPeer: bool) {
    && e.player == (if isPeer then "Peer" else "Self") && e.turnNum == turnNum && e.isPeer == isPeer
    && e.fromState == from && e.state == Effect(e) == to
    && 1 <= e.rolls.0 <= 10 && 1 <= e.rolls.1 <= 10
  }

  /** What a finished, failed or running game has logged. */
  ghost predicate GoodLog(goFirst: bool, log: seq<GameLogEntry>, choosesMember: bool) {
    && Replays(log) && Alternates(goFirst, log)
    && (forall i | 0 <= i < |log| :: log[i].isPeer || choosesMember ==> LegalEntry(log[i]))
    && (forall i | 0 <= i < |log| :: log[i].fromState.Undecided())
  }

  lemma EmptyLogIsGood(goFirst: bool, choosesMember: bool)
    ensures GoodLog(goFirst, [], choosesMember)
  {
  }

  lemma GoodLogExtend(goFirst: bool, log: seq<GameLogEntry>, choosesMember: bool, e: GameLogEntry)
    requires GoodLog(goFirst, log, choosesMember)
    requires e.fromState == BoardAfter(log) && e.state == Effect(e) && e.fromState.Undecided()
    requires e.isPeer == PeerMovesAt(goFirst, |log|) && e.turnNum == TurnNumber(goFirst, |log|)
    requires e.player == (if e.isPeer then "Peer" else "Self")
    requires e.isPeer || choosesMember ==> LegalEntry(e)
    ensures GoodLog(goFirst, log + [e], choosesMember)
  {
    hide LegalEntry, Effect, Replays, PeerMovesAt;
    var log' := log + [e];
    ReplaysExtend(log, e);
    assert forall i | 0 <= i < |log'| :: i < |log| || log'[i] == e;
  }

  /** With a member-choosing strategy the log is a legal game, on which nobody who is to move is stuck. */
  lemma GoodLogIsLegalGame(goFirst: bool, log: seq<GameLogEntry>)
    requires GoodLog(goFirst, log, true)
    ensures LegalGame(log)
  {
    hide LegalEntry;
  }

  lemma GoodLogNeverStuck(goFirst: bool, log: seq<GameLogEntry>, d1: int, d2: int)
    requires GoodLog(goFirst, log, true) && BoardAfter(log).Undecided()
    requires 1 <= d1 <= 10 && 1 <= d2 <= 10
    ensures CanMove(BoardAfter(log), d1, d2)
    ensures CanMove(BoardAfter(log).Mirror(), d1, d2)
  {
    hide IsMove, LegalEntry;
    GoodLogIsLegalGame(goFirst, log);
    LegalGameSound(log);
    SoundMirror(BoardAfter(log));
    MoverNeverStuck(BoardAfter(log), d1, d2);
    MoverNeverStuck(BoardAfter(log).Mirror(), d1, d2);
  }

  function OwnMoves(log: seq<GameLogEntry>): seq<Move> {
    if log == [] then []
    else
      var last := log[|log| - 1];
      OwnMoves(log[..|log| - 1]) + if last.isPeer then [] else [last.move]
  }

  function PeerMoves(log: seq<GameLogEntry>): seq<Move> {
    if log == [] then []
    else
      var last := log[|log| - 1];
      PeerMoves(log[..|log| - 1]) + if last.isPeer then [last.move] else []
  }

  function RollsOf(log: seq<GameLogEntry>): seq<(int, int)> {
    seq(|log|, i requires 0 <= i < |log| => log[i].rolls)
  }

  /** What is still to come in, how many sends are still to succeed, and what has gone out. */
  datatype Supplies = Supplies(rolls: seq<(Die, Die)>, inbox: seq<Move>, sends: nat, outbox: seq<Move>)

  /** Everything in the log came in, in order: the dice that were rolled and the moves that were received. */
  predicate Recorded(log: seq<GameLogEntry>, start: Supplies) {
    RollsOf(log) <= start.rolls && PeerMoves(log) <= start.inbox
  }

  /** What is left of `start` when exactly what the log holds has been used up and sent. */
  function Left(log: seq<GameLogEntry>, start: Supplies): Supplies
    requires Recorded(log, start)
  {
    var own := OwnMoves(log);
    Supplies(start.rolls[|log|..], start.inbox[|PeerMoves(log)|..],
             if |own| <= start.sends then start.sends - |own| else 0, start.outbox + own)
  }

  predicate Ledger(log: seq<GameLogEntry>, start: Supplies, now: Supplies) {
    Recorded(log, start) && |OwnMoves(log)| <= start.sends && now == Left(log, start)
  }

  lemma LedgerOwnTurn(log: seq<GameLogEntry>, start: Supplies, now: Supplies, e: GameLogEntry)
    requires Ledger(log, start, now)
    requires now.rolls != [] && !e.isPeer && e.rolls == (now.rolls[0].0, now.rolls[0].1)
    ensures Recorded(log + [e], start)
    ensures OwnMoves(log + [e]) == OwnMoves(log) + [e.move] && now.sends == start.sends - |OwnMoves(log)|
    ensures now.outbox == start.outbox + OwnMoves(log)
    ensures now.sends > 0 ==>
              Ledger(log + [e], start, Supplies(now.rolls[1..], now.inbox, now.sends - 1, now.outbox + [e.move]))
  {
    RollsExtend(log, start.rolls, e);
    PeerMovesExtend(log, e);
    OwnMovesExtend(log, e);
    assert now.outbox + [e.move] == start.outbox + (OwnMoves(log) + [e.move]);
  }

  lemma LedgerPeerTurn(log: seq<GameLogEntry>, start: Supplies, now: Supplies, e: GameLogEntry)
    requires Ledger(log, start, now)
    requires now.rolls != [] && now.inbox != [] && e.isPeer
    requires e.rolls == (now.rolls[0].0, now.rolls[0].1) && e.move == now.inbox[0]
    ensures Ledger(log + [e], start, now.(rolls := now.rolls[1..], inbox := now.inbox[1..]))
  {
    RollsExtend(log, start.rolls, e);
    PeerMovesExtend(log, e);
    OwnMovesExtend(log, e);
  }

  lemma RollsExtend(log: seq<GameLogEntry>, rolled: seq<(Die, Die)>, e: GameLogEntry)
    requires RollsOf(log) <= rolled && |log| < |rolled| && e.rolls == (rolled[|log|].0, rolled[|log|].1)
    ensures RollsOf(log + [e]) <= rolled
  {
    assert RollsOf(log + [e]) == RollsOf(log) + [e.rolls];
  }

  lemma PeerMovesExtend(log: seq<GameLogEntry>, e: GameLogEntry)
    ensures PeerMoves(log + [e]) == PeerMoves(log) + if e.isPeer then [e.move] else []
  {
    assert (log + [e])[..|log|] == log;
  }

  lemma OwnMovesExtend(log: seq<GameLogEntry>, e: GameLogEntry)
    ensures OwnMoves(log + [e]) == OwnMoves(log) + if e.isPeer then [] else [e.move]
  {
    assert (log + [e])[..|log|] == log;
  }

  lemma PeerMovesPrefix(log: seq<GameLogEntry>, k: nat)
    requires k < |log| && log[k].isPeer
    ensures |PeerMoves(log[..k])| < |PeerMoves(log)| && PeerMoves(log)[|PeerMoves(log[..k])|] == log[k].move
  {
    var n := |log| - 1;
    if k < n {
      PeerMovesPrefix(log[..n], k);
      assert log[..n][..k] == log[..k];
    }
  }

  lemma OwnMovesPrefix(log: seq<GameLogEntry>, k: nat)
    requires k < |log| && !log[k].isPeer
    ensures |OwnMoves(log[..k])| < |OwnMoves(log)| && OwnMoves(log)[|OwnMoves(log[..k])|] == log[k].move
  {
    var n := |log| - 1;
    if k < n {
      OwnMovesPrefix(log[..n], k);
      assert log[..n][..k] == log[..k];
    }
  }

  /** What a log can hold, entry by entry. */
  lemma EntryOfLog(goFirst: bool, strategy: Strategy, start: Supplies, log: seq<GameLogEntry>, k: nat)
    requires Replays(log) && Alternates(goFirst, log) && Chosen(strategy, log) && Recorded(log, start)
    requires k < |log|
    ensures k < |start.rolls| && log[k].rolls == (start.rolls[k].0, start.rolls[k].1)
    ensures IsTurn(log[k], BoardAfter(log[..k]), log[k].state, TurnNumber(goFirst, k), PeerMovesAt(goFirst, k))
    ensures if log[k].isPeer then
              |PeerMoves(log[..k])| < |start.inbox| && log[k].move == start.inbox[|PeerMoves(log[..k])|]
            else
              Chooses(strategy, BoardAfter(log[..k]), log[..k], log[k].rolls.0, log[k].rolls.1, log[k].move)
  {
    hide Chooses, Effect, BoardAfter, TurnNumber, PeerMovesAt, PeerMoves;
    assert RollsOf(log)[k] == log[k].rolls;
    if log[k].isPeer {
      PeerMovesPrefix(log, k);
    }
  }

  /** What keeps a turn from being taken on board `b`, when `now` is what can still come in. */
  ghost predicate Blocked(err: TurnError, peerNext: bool, b: Board, now: Supplies) {
    match err
    case RollFailed => now.rolls == []
    case ReceiveFailed => now.rolls != [] && peerNext && now.inbox == []
    case NoValidMoves =>
      && now.rolls != [] && (peerNext ==> now.inbox != [])
      && !CanMove(if peerNext then b.Mirror() else b, now.rolls[0].0, now.rolls[0].1)
    case InvalidMove =>
      && now.rolls != [] && peerNext && now.inbox != []
      && CanMove(b.Mirror(), now.rolls[0].0, now.rolls[0].1)
      && !HasLegalEffect(b.Mirror(), now.rolls[0].0, now.rolls[0].1, now.inbox[0])
    case SendFailed => false
  }

  /**
   Why a game begun with `start` stops with this log: the last move decided it, or the next turn
   is blocked by what comes in next, or the last own move could not be sent.
   */
  ghost predicate Stops(goFirst: bool, result: PlayResult, log: seq<GameLogEntry>, start: Supplies)
    requires Recorded(log, start)
  {
    var b := BoardAfter(log);
    match result
    case Finished(win) =>
      && log != [] && log[|log| - 1].isPeer == !win && (if win then b.Win() else b.Lose())
      && |OwnMoves(log)| <= start.sends
    case GameError(SendFailed) => log != [] && !log[|log| - 1].isPeer && |OwnMoves(log)| == start.sends + 1
    case GameError(err) =>
      && b.Undecided() && |OwnMoves(log)| <= start.sends
      && Blocked(err, PeerMovesAt(goFirst, |log|), b, Left(log, start))
  }

  /** All that is known once a game begun with `start` has stopped. */
  ghost predicate Played(goFirst: bool, strategy: Strategy, start: Supplies, result: PlayResult,
                         log: seq<GameLogEntry>, outbox: seq<Move>) {
    && GoodLog(goFirst, log, ChoosesMember(strategy)) && Chosen(strategy, log)
    && Recorded(log, start) && Stops(goFirst, result, log, start)
    && outbox == start.outbox + if |OwnMoves(log)| <= start.sends then OwnMoves(log) else OwnMoves(log)[..start.sends]
  }

  /** The loop's invariant: a good log of chosen moves, an undecided board, and whose turn it is. */
  ghost predicate Running(goFirst: bool, strategy: Strategy, log: seq<GameLogEntry>, b: Board, turnNum: nat,
                          peerNext: bool, start: Supplies, now: Supplies) {
    && GoodLog(goFirst, log, ChoosesMember(strategy)) && Chosen(strategy, log)
    && b == BoardAfter(log) && b.Undecided()
    && PeerMovesAt(goFirst, |log|) == peerNext
    && TurnNumber(goFirst, |log|) == turnNum
    && Ledger(log, start, now)
  }

  /** After the own turn the game is won, or cannot go on, or the peer's turn has the same number. */
  lemma OwnTurnLogged(goFirst: bool, strategy: Strategy, log: seq<GameLogEntry>, b: Board, to: Board, turnNum: nat,
                      start: Supplies, now: Supplies, e: GameLogEntry)
    requires Running(goFirst, strategy, log, b, turnNum, false, start, now)
    requires IsTurn(e, b, to, turnNum, false)
    requires now.rolls != [] && e.rolls == (now.rolls[0].0, now.rolls[0].1)
    requires Chooses(strategy, b, log, e.rolls.0, e.rolls.1, e.move)
    ensures now.sends == 0 ==> Played(goFirst, strategy, start, GameError(SendFailed), log + [e], now.outbox)
    ensures now.sends > 0 ==>
              var now' := Supplies(now.rolls[1..], now.inbox, now.sends - 1, now.outbox + [e.move]);
              if to.Win() then Played(goFirst, strategy, start, Finished(true), log + [e], now'.outbox)
              else Running(goFirst, strategy, log + [e], to, turnNum, true, start, now')
  {
    hide IsMove, GoodLog, Legal, Chosen, Chooses, Recorded, Ledger, ChoosesMember;
    if ChoosesMember(strategy) {
      ChoiceIsLegal(strategy, b, log, e.rolls.0, e.rolls.1, e.move);
      LegalIsEntry(e);
    }
    hide LegalEntry;
    GoodLogExtend(goFirst, log, ChoosesMember(strategy), e);
    ChosenExtend(strategy, log, e);
    OthersOnlyFallBack(e.fromState, e.move);
    LedgerOwnTurn(log, start, now, e);
    LedgerTells(log, start, now);
    if now.sends > 0 {
      LedgerTells(log + [e], start, Supplies(now.rolls[1..], now.inbox, now.sends - 1, now.outbox + [e.move]));
    }
  }

  lemma LegalIsEntry(e: GameLogEntry)
    requires 1 <= e.rolls.0 <= 10 && 1 <= e.rolls.1 <= 10 && e.fromState.Undecided() && !e.isPeer
    requires Legal(e.fromState, e.rolls.0, e.rolls.1, e.move)
    ensures LegalEntry(e)
  {
    hide IsMove;
    assert SameEffect(e.move, e.move);
  }

  lemma LedgerTells(log: seq<GameLogEntry>, start: Supplies, now: Supplies)
    requires Ledger(log, start, now)
    ensures Recorded(log, start) && now == Left(log, start)
    ensures |OwnMoves(log)| <= start.sends && now.outbox == start.outbox + OwnMoves(log)
  {
  }

  /** After the peer's turn the game is lost, or the own turn is next; the opening turn cannot lose it. */
  lemma PeerTurnLogged(goFirst: bool, strategy: Strategy, log: seq<GameLogEntry>, b: Board, to: Board, turnNum: nat,
                       start: Supplies, now: Supplies, e: GameLogEntry)
    requires Running(goFirst, strategy, log, b, turnNum, true, start, now)
    requires IsTurn(e, b, to, turnNum, true)
    requires now.rolls != [] && e.rolls == (now.rolls[0].0, now.rolls[0].1)
    requires now.inbox != [] && e.move == now.inbox[0]
    requires HasLegalEffect(b.Mirror(), e.rolls.0, e.rolls.1, e.move)
    ensures var now' := now.(rolls := now.rolls[1..], inbox := now.inbox[1..]);
            if to.Lose() then Played(goFirst, strategy, start, Finished(false), log + [e], now.outbox)
            else Running(goFirst, strategy, log + [e], to, if log == [] then 0 else turnNum + 1, false, start, now')
    ensures log == [] ==> !to.Lose()
  {
    hide IsMove, GoodLog, HasLegalEffect, Chosen, Recorded, Ledger, ChoosesMember;
    assert LegalEntry(e);
    hide LegalEntry;
    GoodLogExtend(goFirst, log, ChoosesMember(strategy), e);
    ChosenExtend(strategy, log, e);
    OthersOnlyFallBack(e.fromState, e.move);
    LedgerPeerTurn(log, start, now, e);
    LedgerTells(log + [e], start, now.(rolls := now.rolls[1..], inbox := now.inbox[1..]));
    if log == [] {
      OpeningCannotWin(e.rolls.0, e.rolls.1, e.move);
      ReplicasStayMirrored(START, e.move);
    }
  }

  lemma GameStarts(goFirst: bool, strategy: Strategy, start: Supplies)
    ensures Running(goFirst, strategy, [], START, 0, !goFirst, start, start)
  {
    EmptyLogIsGood(goFirst, ChoosesMember(strategy));
    assert start.outbox + OwnMoves([]) == start.outbox;
  }

  /** A blocked turn is why the game stops. */
  lemma BlockedTurnStops(goFirst: bool, strategy: Strategy, log: seq<GameLogEntry>, b: Board, turnNum: nat,
                         peerNext: bool, start: Supplies, now: Supplies, err: TurnError)
    requires Running(goFirst, strategy, log, b, turnNum, peerNext, start, now)
    requires Blocked(err, peerNext, b, now)
    ensures Played(goFirst, strategy, start, GameError(err), log, now.outbox)
  {
    hide GoodLog, Chosen, Recorded, Ledger, ChoosesMember, CanMove, HasLegalEffect;
    LedgerTells(log, start, now);
  }

  /** Whose turn is which, and how the log counts them: the second player has two turns 0. */
  lemma TurnsOutright(goFirst: bool, strategy: Strategy, start: Supplies, result: PlayResult,
                      log: seq<GameLogEntry>, outbox: seq<Move>, i: nat)
    requires Played(goFirst, strategy, start, result, log, outbox) && i < |log|
    ensures goFirst ==> (log[i].isPeer <==> i % 2 == 1) && log[i].turnNum == i / 2
    ensures !goFirst ==> (log[i].isPeer <==> i % 2 == 0) && log[i].turnNum == if i == 0 then 0 else (i - 1) / 2
    ensures log[i].player == if log[i].isPeer then "Peer" else "Self"
  {
    hide Replays, LegalEntry, Chosen, Stops, Recorded, ChoosesMember;
  }

  /** A strategy that chooses among its moves never makes the game end for want of one. */
  lemma PlayedNeverStuck(goFirst: bool, strategy: Strategy, start: Supplies, result: PlayResult,
                         log: seq<GameLogEntry>, outbox: seq<Move>)
    requires ChoosesMember(strategy) && Played(goFirst, strategy, start, result, log, outbox)
    ensures result != GameError(NoValidMoves)
  {
    hide IsMove, GoodLog, Chosen, Recorded, ChoosesMember, CanMove;
    if result == GameError(NoValidMoves) {
      var dice := Left(log, start).rolls[0];
      GoodLogNeverStuck(goFirst, log, dice.0, dice.1);
    }
  }

  /** Playing against whatever the outside world turns out to deliver: dice, moves, failures. */
  class Session {
    const strategy: Strategy
    var rolls: seq<(Die, Die)> // the rolls that will succeed
    var inbox: seq<Move> // the moves that will be received
    var sendsLeft: nat // the sends that will succeed
    var outbox: seq<Move>

    constructor (strategy: Strategy, rolls: seq<(Die, Die)>, inbox: seq<Move>, sendsLeft: nat)
      ensures this.strategy == strategy && this.rolls == rolls && this.inbox == inbox
      ensures this.sendsLeft == sendsLeft && outbox == []
    {
      this.strategy, this.rolls, this.inbox, this.sendsLeft := strategy, rolls, inbox, sendsLeft;
      outbox := [];
    }

    function Wires(): Supplies
      reads this
    {
      Supplies(rolls, inbox, sendsLeft, outbox)
    }

    method RollSync() returns (r: Option<(Die, Die)>)
      modifies this`rolls
      ensures old(rolls) == [] ==> r == None && rolls == []
      ensures old(rolls) != [] ==> r == Some(old(rolls)[0]) && rolls == old(rolls)[1..]
    {
      if rolls == [] {
        return None;
      }
      r := Some(rolls[0]);
      rolls := rolls[1..];
    }

    method RecvMove() returns (r: Option<Move>)
      modifies this`inbox
      ensures old(inbox) == [] ==> r == None && inbox == []
      ensures old(inbox) != [] ==> r == Some(old(inbox)[0]) && inbox == old(inbox)[1..]
    {
      if inbox == [] {
        return None;
      }
      r := Some(inbox[0]);
      inbox := inbox[1..];
    }

    method SendMove(m: Move) returns (ok: bool)
      modifies this`sendsLeft, this`outbox
      ensures ok == (old(sendsLeft) > 0)
      ensures sendsLeft == if ok then old(sendsLeft) - 1 else 0
      ensures outbox == if ok then old(outbox) + [m] else old(outbox)
    {
      if sendsLeft == 0 {
        return false;
      }
      sendsLeft := sendsLeft - 1;
      outbox := outbox + [m];
      return true;
    }

    /**
     Blocked, the turn changes neither board nor log. Otherwise the strategy's choice is made and
     logged, and goes out unless no send succeeds any more.
     */
    method TakeTurn(state: State, turnNum: nat) returns (err: Option<TurnError>)
      modifies this`rolls, this`sendsLeft, this`outbox, state
      ensures err.Some? && err != Some(SendFailed) ==>
                && Blocked(err.value, false, old(state.View()), old(Wires()))
                && state.View() == old(state.View()) && state.gameLog == old(state.gameLog) && outbox == old(outbox)
      ensures err in {None, Some(SendFailed)} ==>
                && old(rolls) != [] && (err == None <==> old(sendsLeft) > 0)
                && exists e: GameLogEntry ::
                     && state.gameLog == old(state.gameLog) + [e]
                     && IsTurn(e, old(state.View()), state.View(), turnNum, false)
                     && e.rolls == (old(rolls)[0].0, old(rolls)[0].1)
                     && Chooses(strategy, old(state.View()), old(state.gameLog), e.rolls.0, e.rolls.1, e.move)
                     && (err == None ==>
                           Wires() == Supplies(old(rolls)[1..], old(inbox), old(sendsLeft) - 1, old(outbox) + [e.move]))
                     && (err == Some(SendFailed) ==> outbox == old(outbox))
    {
      hide IsMove, MoveList;
      var r := RollSync();
      if r.None? {
        return Some(RollFailed);
      }
      var (d1, d2) := r.value;
      var moves := GenerateMoves(state.pawn1Pos, state.pawn2Pos, d1, d2, state.peerPawn1Pos, state.peerPawn2Pos);
      if |moves| == 0 {
        assert forall m :: m !in moves;
        return Some(NoValidMoves);
      }
      var move := strategy(state.View(), state.gameLog, moves);
      assert moves == Enumeration(state.View(), d1, d2);
      assert Chooses(strategy, state.View(), state.gameLog, d1, d2, move);
      state.AddGameLogEntry(move, turnNum, false, [d1, d2]);
      state.Move(move);
      var ok := SendMove(move);
      if !ok {
        return Some(SendFailed);
      }
      return None;
    }

    /** Made and logged exactly when the next move received has a legal effect for the next dice. */
    method OtherTurn(state: State, turnNum: nat) returns (err: Option<TurnError>)
      modifies this`rolls, this`inbox, state
      ensures err.Some? ==>
                && Blocked(err.value, true, old(state.View()), old(Wires()))
                && state.View() == old(state.View()) && state.gameLog == old(state.gameLog)
      ensures err == None ==>
                && old(rolls) != [] && old(inbox) != []
                && HasLegalEffect(old(state.View()).Mirror(), old(rolls)[0].0, old(rolls)[0].1, old(inbox)[0])
                && Wires() == old(Wires()).(rolls := old(rolls)[1..], inbox := old(inbox)[1..])
                && exists e: GameLogEntry ::
                     && state.gameLog == old(state.gameLog) + [e]
                     && IsTurn(e, old(state.View()), state.View(), turnNum, true)
                     && e.move == old(inbox)[0] && e.rolls == (old(rolls)[0].0, old(rolls)[0].1)
    {
      hide IsMove;
      var r := RollSync();
      if r.None? {
        return Some(RollFailed);
      }
      var peerMove := RecvMove();
      if peerMove.None? {
        return Some(ReceiveFailed);
      }
      var (d1, d2) := r.value;
      err := ValidateMove(d1, d2, state.View(), peerMove.value);
      if err.Some? {
        return;
      }
      state.AddGameLogEntry(peerMove.value, turnNum, true, [d1, d2]);
      state.PeerMove(peerMove.value);
    }

    /**
     The whole game, against whatever comes in: a good log of the strategy's choices and of the
     moves received, for the dice rolled, that goes on until it is decided, blocked or cut off.
     */
    method Play(goFirst: bool) returns (result: PlayResult, log: seq<GameLogEntry>)
      modifies this`rolls, this`inbox, this`sendsLeft, this`outbox
      ensures Played(goFirst, strategy, old(Wires()), result, log, outbox)
    {
      hide IsMove, Legal, HasLegalEffect, Chooses, IsTurn, Blocked, Running, Played;
      ghost var start := Wires();
      var state := new State();
      GameStarts(goFirst, strategy, start);
      if !goFirst {
        var err := OtherTurn(state, 0);
        if err.Some? {
          BlockedTurnStops(goFirst, strategy, [], START, 0, true, start, start, err.value);
          return GameError(err.value), state.gameLog;
        }
        PeerTurnLogged(goFirst, strategy, [], START, state.View(), 0, start, start, state.gameLog[0]);
      }
      var turnNum := 0;
      while true
        invariant Running(goFirst, strategy, state.gameLog, state.View(), turnNum, false, start, Wires())
        decreases |rolls|
      {
        ghost var before, b, now := state.gameLog, state.View(), Wires();
        var err := TakeTurn(state, turnNum);
        if err.Some? {
          if err == Some(SendFailed) {
            OwnTurnLogged(goFirst, strategy, before, b, state.View(), turnNum, start, now, state.gameLog[|before|]);
          } else {
            BlockedTurnStops(goFirst, strategy, before, b, turnNum, false, start, now, err.value);
          }
          return GameError(err.value), state.gameLog;
        }
        OwnTurnLogged(goFirst, strategy, before, b, state.View(), turnNum, start, now, state.gameLog[|before|]);
        if state.View().Win() {
          return Finished(true), state.gameLog;
        }

        before, b, now := state.gameLog, state.View(), Wires();
        err := OtherTurn(state, turnNum);
        if err.Some? {
          BlockedTurnStops(goFirst, strategy, before, b, turnNum, true, start, now, err.value);
          return GameError(err.value), state.gameLog;
        }
        PeerTurnLogged(goFirst, strategy, before, b, state.View(), turnNum, start, now, state.gameLog[|before|]);
        if state.View().Lose() {
          return Finished(false), state.gameLog;
        }
        turnNum := turnNum + 1;
      }
    }

    /** The first die of a roll of its own decides: 6 to 10 for the side that wants high, 1 to 5 for the other. */
    method RollInitiative(high: bool) returns (first: Option<bool>)
      modifies this`rolls
      ensures old(rolls) == [] ==> first == None && rolls == []
      ensures old(rolls) != [] ==> rolls == old(rolls)[1..]
      ensures old(rolls) != [] ==> first == Some(old(rolls)[0].0 in if high then {6, 7, 8, 9, 10} else {1, 2, 3, 4, 5})
    {
      var r := RollSync();
      if r.None? {
        return None;
      }
      var (d, _) := r.value;
      if high {
        return Some(d > 5);
      }
      return Some(d <= 5);
    }

    method PlayWithInitiative(high: bool) returns (result: PlayResult, log: seq<GameLogEntry>)
      modifies this`rolls, this`inbox, this`sendsLeft, this`outbox
      ensures old(rolls) == [] ==> result == GameError(RollFailed) && log == []
      ensures old(rolls) != [] ==>
                var goFirst := old(rolls)[0].0 in if high then {6, 7, 8, 9, 10} else {1, 2, 3, 4, 5};
                Played(goFirst, strategy, old(Wires()).(rolls := old(rolls)[1..]), result, log, outbox)
    {
      hide Played;
      var first := RollInitiative(high);
      if first.None? {
        return GameError(RollFailed), [];
      }
      result, log := Play(first.value);
    }
  }
}
