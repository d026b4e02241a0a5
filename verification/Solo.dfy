/**
 The session's own loop, alone against what an honest peer delivers, does what the plan says:
 the steps of the match are those of the code that plays and that rolls.
 */
module Solo {
  import opened Boards
  import opened Dice
  import opened Exchange
  import opened Game
  import opened Match
  import opened Messages
  import opened Moves
  import opened Options
  import opened Plan

  /** The dice of the first `n` turns. */
  function PlannedRolls(c: Config, n: nat): (rolls: seq<(Die, Die)>)
    ensures |rolls| == n
  {
    if n == 0 then []
    else
      DiceInRange(c, n);
      PlannedRolls(c, n - 1) + [(Die1(c, n), Die2(c, n))]
  }

  /** What the other side's moves of the first `n` turns are when they get here. */
  function PlannedInbox(c: Config, side: Side, n: nat): seq<Move> {
    if n == 0 then []
    else PlannedInbox(c, side, n - 1) + if Mover(c, n) == side then [] else [Delivered(c.transport, MoveOf(c, n))]
  }

  lemma {:induction false} PlannedRollsAt(c: Config, k: nat, n: nat)
    requires k < n
    ensures PlannedRolls(c, n)[k] == (Die1(c, k + 1), Die2(c, k + 1))
  {
    hide Die1, Die2;
    if k < n - 1 {
      PlannedRollsAt(c, k, n - 1);
    }
  }

  lemma {:induction false} PlannedInboxAt(c: Config, side: Side, k: nat, n: nat)
    requires k < n && Mover(c, k + 1) != side
    ensures |PlannedInbox(c, side, k)| < |PlannedInbox(c, side, n)|
    ensures PlannedInbox(c, side, n)[|PlannedInbox(c, side, k)|] == Delivered(c.transport, MoveOf(c, k + 1))
  {
    hide Mover, Delivered, MoveOf, MoverBoard, ViewOf, EntryOf, LogOf;
    if k < n - 1 {
      PlannedInboxAt(c, side, k, n - 1);
    }
  }

  /** The plan's log has received what the plan delivers. */
  lemma {:induction false} PlannedPeerMoves(c: Config, side: Side, n: nat)
    ensures PeerMoves(LogOf(c, side, n)) == PlannedInbox(c, side, n)
  {
    hide Mover, Delivered, MoveOf, ViewOf, TurnNumber, First, Die1, Die2, MoverBoard, EntryOf, LogOf;
    LogIs(c, side, n);
    if n > 0 {
      EntryIs(c, side, n);
      PlannedPeerMoves(c, side, n - 1);
      assert LogOf(c, side, n)[..n - 1] == LogOf(c, side, n - 1);
    }
  }

  /** The first `n` rounds take place and survive the transport, and `start` holds what they need. */
  ghost predicate Supplied(c: Config, side: Side, start: Supplies, n: nat) {
    && MemberStrategies(c) && Live(c, n) && FitUpTo(c, n)
    && start.rolls == PlannedRolls(c, n) && start.inbox == PlannedInbox(c, side, n)
    && start.sends >= n && start.outbox == []
  }

  /** What is there for turn `k + 1`: its dice, and the other side's move if it is not the own turn. */
  lemma RoundSupplied(c: Config, side: Side, start: Supplies, n: nat, k: nat)
    requires Supplied(c, side, start, n) && k < n
    ensures MemberStrategies(c) && Live(c, k) && Live(c, k + 1) && FitUpTo(c, k) && Fits(c, k + 1)
    ensures |start.rolls| == n && start.rolls[k] == (Die1(c, k + 1), Die2(c, k + 1))
    ensures Mover(c, k + 1) != side ==>
              var got := |PeerMoves(LogOf(c, side, k))|;
              got < |start.inbox| && start.inbox[got] == Delivered(c.transport, MoveOf(c, k + 1))
  {
    hide MemberStrategies, Fits, Live, PlannedRolls, PlannedInbox, LogOf, Mover, Delivered, MoveOf, Die1, Die2, PeerMoves, Wins;
    if k + 1 < n {
      LiveBefore(c, k + 1, n);
    }
    LiveBefore(c, k, k + 1);
    PlannedRollsAt(c, k, n);
    if Mover(c, k + 1) != side {
      PlannedPeerMoves(c, side, k);
      PlannedInboxAt(c, side, k, n);
    }
  }

  /** How the planned entry `k + 1` comes about: the board it is made on, who makes it and which move it is. */
  lemma PlannedTurn(c: Config, side: Side, k: nat)
    requires MemberStrategies(c) && Live(c, k) && Live(c, k + 1) && FitUpTo(c, k) && Fits(c, k + 1)
    ensures var e, goFirst, b := EntryOf(c, side, k + 1), First(c) == side, BoardAfter(LogOf(c, side, k));
            && IsTurn(e, b, e.state, TurnNumber(goFirst, k), PeerMovesAt(goFirst, k))
            && PeerMovesAt(goFirst, k) == (Mover(c, k + 1) != side)
            && e.rolls == (Die1(c, k + 1), Die2(c, k + 1))
            && (if Mover(c, k + 1) == side
                then e.move == MoveOf(c, k + 1)
                     && MoveOf(c, k + 1) == c.strategy(side)(b, LogOf(c, side, k), Enumeration(b, Die1(c, k + 1), Die2(c, k + 1)))
                     && CanMove(b, Die1(c, k + 1), Die2(c, k + 1))
                else e.move == Delivered(c.transport, MoveOf(c, k + 1))
                     && HasLegalEffect(b.Mirror(), Die1(c, k + 1), Die2(c, k + 1), e.move)
                     && CanMove(b.Mirror(), Die1(c, k + 1), Die2(c, k + 1)))
  {
    hide MemberStrategies, FitUpTo, Live, LogOf, Delivered, Die1, Die2, HasLegalEffect, CanMove, GoodLog, MoverBoard,
         BoardAfter, Legal, ApplyMove, ApplyPeerMove, Sound, Effect, LegalEntry, Fits, First, SameEffect, MoveOf,
         ViewOf, EntryOf, Mover, PeerMovesAt, TurnNumber, Enumeration, DiceOf, IsMove;
    EntryIs(c, side, k + 1);
    ViewIs(c, side, k);
    MoveOfIs(c, k + 1);
    LogIsGood(c, side, k);
    EntryIsTurn(c, side, k + 1);
    EntryEffect(c, side, k + 1);
    RoundIsLegal(c, k + 1);
    ViewStep(c, side, k + 1);
    DeliveredMoveAccepted(c, k + 1);
  }

  /** Two entries of the same turn with the same dice and move are the same. */
  lemma SameTurn(e: GameLogEntry, e': GameLogEntry, b: Board, turnNum: nat, isPeer: bool)
    requires IsTurn(e, b, e.state, turnNum, isPeer) && IsTurn(e', b, e'.state, turnNum, isPeer)
    requires e.rolls == e'.rolls && e.move == e'.move
    ensures e == e'
  {
    hide ApplyMove, ApplyPeerMove;
  }

  /** Whatever log the session can have written from planned supplies, it is the planned one. */
  lemma {:induction false} LogFollowsPlan(c: Config, side: Side, start: Supplies, n: nat,
                                          log: seq<GameLogEntry>, k: nat)
    requires Supplied(c, side, start, n)
    requires Replays(log) && Alternates(First(c) == side, log) && Chosen(c.strategy(side), log) && Recorded(log, start)
    requires k <= |log| <= n
    ensures log[..k] == LogOf(c, side, k)
  {
    hide Replays, Alternates, Chosen, Supplied, Recorded, EntryOf, First, MoverBoard, MoveOf, ViewOf, LogOf;
    LogIs(c, side, k);
    if k > 0 {
      LogFollowsPlan(c, side, start, n, log, k - 1);
      EntryFollowsPlan(c, side, start, n, log, k - 1);
      assert log[..k] == log[..k - 1] + [log[k - 1]];
    }
  }

  lemma EntryFollowsPlan(c: Config, side: Side, start: Supplies, n: nat,
                         log: seq<GameLogEntry>, k: nat)
    requires Supplied(c, side, start, n)
    requires Replays(log) && Alternates(First(c) == side, log) && Chosen(c.strategy(side), log) && Recorded(log, start)
    requires k < |log| <= n && log[..k] == LogOf(c, side, k)
    ensures log[k] == EntryOf(c, side, k + 1)
  {
    hide Replays, Alternates, Chosen, Supplied, Recorded, EntryOf, First, MemberStrategies, Live, FitUpTo, Fits,
         LogOf, Mover, CanMove, HasLegalEffect, BoardAfter, Delivered, MoveOf, Die1, Die2, PeerMoves, TurnNumber,
         PeerMovesAt, Effect, MoverBoard, ViewOf, Enumeration;
    RoundSupplied(c, side, start, n, k);
    PlannedTurn(c, side, k);
    EntryOfLog(First(c) == side, c.strategy(side), start, log, k);
    SameTurn(log[k], EntryOf(c, side, k + 1), BoardAfter(log[..k]), TurnNumber(First(c) == side, k),
             PeerMovesAt(First(c) == side, k));
  }

  /**
   Given the planned dice, the moves as they are delivered, and sends enough, whatever `Play` can
   end with is the planned log and the planned end: won, lost, or out of dice.
   */
  lemma PlayKeepsToPlan(c: Config, side: Side, start: Supplies, n: nat,
                        result: PlayResult, log: seq<GameLogEntry>, outbox: seq<Move>)
    requires Supplied(c, side, start, n)
    requires Played(First(c) == side, c.strategy(side), start, result, log, outbox)
    ensures log == LogOf(c, side, n) && outbox == OwnMoves(log)
    ensures result == if n >= 1 && Wins(c, n) then Finished(Mover(c, n) == side) else GameError(RollFailed)
  {
    assert |start.rolls| == n && start.sends >= n && start.outbox == [];
    assert |log| <= n by {
      assert |RollsOf(log)| == |log|;
    }
    hide Supplied, Chosen, Wins, LogOf, Mover, RollsOf, Stops, First;
    OwnMovesFewer(log);
    assert log[..|log|] == log;
    LogFollowsPlan(c, side, start, n, log, |log|);
    StopsOnPlan(c, side, start, n, result, log);
  }

  lemma StopsOnPlan(c: Config, side: Side, start: Supplies, n: nat, result: PlayResult, log: seq<GameLogEntry>)
    requires Supplied(c, side, start, n) && |log| <= n && log == LogOf(c, side, |log|)
    requires Recorded(log, start) && Stops(First(c) == side, result, log, start)
    ensures |log| == n
    ensures result == if n >= 1 && Wins(c, n) then Finished(Mover(c, n) == side) else GameError(RollFailed)
  {
    var k := |log|;
    assert start.sends >= n && |start.rolls| == n;
    OwnMovesFewer(log);
    DecidedByPlan(c, side, start, n, k);
    if k < n && result.GameError? {
      NotBlockedOnPlan(c, side, start, n, log, result.err);
    }
    hide Supplied, Wins, LogOf, Mover, First, BoardAfter, OwnMoves, PeerMovesAt, CanMove, HasLegalEffect, PeerMoves, RollsOf,
         Recorded;
    if k == n {
      NoDiceLeft(log, start);
    }
  }

  /** The board after `k` planned moves is decided exactly when the last of them wins, which is only the very last. */
  lemma DecidedByPlan(c: Config, side: Side, start: Supplies, n: nat, k: nat)
    requires Supplied(c, side, start, n) && k <= n
    ensures var log, b := LogOf(c, side, k), BoardAfter(LogOf(c, side, k));
            && (b.Undecided() <==> !(k >= 1 && Wins(c, k)))
            && (k > 0 ==> (log[k - 1].isPeer <==> Mover(c, k) != side))
            && (0 < k < n ==> !Wins(c, k))
  {
    hide MoverBoard, MoveOf, ViewOf, EntryOf, LogOf;
    LogIs(c, side, k);
    if k > 0 {
      EntryIs(c, side, k);
    }
    assert Live(c, k) && FitUpTo(c, k) by {
      if k < n {
        LiveBefore(c, k, n);
      }
    }
    if 0 < k < n {
      LiveBefore(c, k, n);
    }
    assert MemberStrategies(c);
    hide Supplied, FitUpTo, Live, BoardAfter, GoodLog, ViewOf, Mover, MemberStrategies;
    LogIsGood(c, side, k);
    ViewDecided(c, side, k);
  }

  lemma ViewDecided(c: Config, side: Side, k: nat)
    requires MemberStrategies(c) && Live(c, k)
    ensures ViewOf(c, side, k).Undecided() <==> !(k >= 1 && Wins(c, k))
  {
    hide MemberStrategies, Live, CanMove, Legal, HasLegalEffect, Sound, MoveOf, ApplyMove, First, Die1, Die2,
         MoverBoard, ViewOf, EntryOf, LogOf;
    ViewIs(c, side, k);
    BoardIs(c, k);
    if k == 0 {
      OpeningView(c, side);
    } else {
      var b, m := MoverBoard(c, k - 1), MoveOf(c, k);
      RoundIsLegal(c, k);
      GoalIsAbsorbing(b, Die1(c, k), Die2(c, k), m);
    }
  }

  lemma NoDiceLeft(log: seq<GameLogEntry>, start: Supplies)
    requires Recorded(log, start) && |log| == |start.rolls|
    ensures Left(log, start).rolls == []
  {
  }

  lemma NotBlockedOnPlan(c: Config, side: Side, start: Supplies, n: nat, log: seq<GameLogEntry>,
                         err: TurnError)
    requires Supplied(c, side, start, n) && |log| < n && log == LogOf(c, side, |log|) && Recorded(log, start)
    ensures !Blocked(err, PeerMovesAt(First(c) == side, |log|), BoardAfter(log), Left(log, start))
  {
    hide Supplied, LogOf, First, BoardAfter, OwnMoves, PeerMovesAt, CanMove, HasLegalEffect, PeerMoves, RollsOf,
         Recorded, MemberStrategies, Live, FitUpTo, Fits, Mover, MoveOf, Die1, Die2, Delivered, EntryOf, IsTurn;
    var k, left := |log|, Left(log, start);
    RoundSupplied(c, side, start, n, k);
    PlannedTurn(c, side, k);
    assert left.rolls != [] && left.rolls[0] == start.rolls[k];
    if Mover(c, k + 1) != side {
      assert left.inbox != [] && left.inbox[0] == start.inbox[|PeerMoves(log)|];
    }
  }

  lemma {:induction false} OwnMovesFewer(log: seq<GameLogEntry>)
    ensures |OwnMoves(log)| <= |log|
  {
    if log != [] {
      OwnMovesFewer(log[..|log| - 1]);
    }
  }

  lemma FirstByInitiative(c: Config, side: Side)
    ensures (Die1(c, 0) in if side == A then {6, 7, 8, 9, 10} else {1, 2, 3, 4, 5}) <==> First(c) == side
  {
    hide DiceOf, Die1, Die2;
    DiceInRange(c, 0);
    ExactlyOneGoesFirst(c, side);
  }

  /** The session of one side, initiative and all, given what the plan brings it. */
  method PlayAsPlanned(c: Config, side: Side, n: nat) returns (result: PlayResult, log: seq<GameLogEntry>)
    requires MemberStrategies(c) && Live(c, n) && FitUpTo(c, n)
    ensures log == LogOf(c, side, n)
    ensures result == if n >= 1 && Wins(c, n) then Finished(Mover(c, n) == side) else GameError(RollFailed)
  {
    hide First, DiceOf, Die1, Die2, PlannedRolls, PlannedInbox, MemberStrategies, Live, FitUpTo, Played, LogOf, Wins, Mover;
    DiceInRange(c, 0);
    var session := new Session(c.strategy(side), [(Die1(c, 0), Die2(c, 0))] + PlannedRolls(c, n), PlannedInbox(c, side, n), n);
    ghost var start := session.Wires().(rolls := session.rolls[1..]);
    assert start.rolls == PlannedRolls(c, n);
    FirstByInitiative(c, side);
    result, log := session.PlayWithInitiative(side == A);
    PlayKeepsToPlan(c, side, start, n, result, log, session.outbox);
  }

  /**
   The players of the match are sessions playing: wherever a match has got to, a player's log is
   what `Play` returns for the dice and moves so far, and a finished player has its result.
   */
  lemma PlayersPlay(c: Config, s: Duo, side: Side, start: Supplies,
                    result: PlayResult, log: seq<GameLogEntry>, outbox: seq<Move>)
    requires MemberStrategies(c) && OnPlan(c, s) && FitsThrough(c, Rounds(s))
    requires var p := if side == A then s.me else s.peer;
             && start == Supplies(PlannedRolls(c, Logged(p)), PlannedInbox(c, side, Logged(p)), Logged(p), [])
             && Played(First(c) == side, c.strategy(side), start, result, log, outbox)
    ensures var p := if side == A then s.me else s.peer;
            && p.log == log
            && (p.status in {WonGame, LostGame} ==> result == Finished(p.status == WonGame))
            && (p.status in {Running, OutOfEntropy} ==> result == GameError(RollFailed))
  {
    hide MemberStrategies, Played, LogOf, Wins, Mover, Live, FitUpTo, Fits, LinkOk, FitsThrough, Caught, InFlight,
         PlannedRolls, PlannedInbox, First, ViewOf, OwnMoves;
    var p := if side == A then s.me else s.peer;
    LogOnPlan(c, side, p);
    FitsUpToLogged(c, Logged(p), Rounds(s));
    PlayKeepsToPlan(c, side, start, Logged(p), result, log, outbox);
    LastMoveOf(c, side, p);
  }

  lemma LastMoveOf(c: Config, side: Side, p: Player)
    requires PlayerOk(c, side, p)
    ensures p.status in {WonGame, LostGame} <==> Logged(p) >= 1 && Wins(c, Logged(p))
    ensures p.status in {WonGame, LostGame} ==> (p.status == WonGame <==> Mover(c, Logged(p)) == side)
  {
    hide MoverBoard, MoveOf, ViewOf, EntryOf, LogOf;
  }

  /** The roll of a round, phase by phase, is the exchange of an honest peer with an honest peer. */
  lemma RollsAreExchanges(c: Config, side: Side, k: nat)
    ensures var own, other := c.secret(side, k), c.secret(side.Other(), k);
            var run := RunRoll(c.h, SIDES, own, HonestMessages(c.h, SIDES, other, own));
            && run.outcome == (if DiceOf(c, k).Some? then Rolled(DiceOf(c, k).value) else Panicked)
            && (forall i | 0 <= i < |SentOf(run.trace)| ::
                  SentAt(c, side, 7 * k + 2 * i) == Some(DicePacket(SentOf(run.trace)[i])))
            && |SentOf(run.trace)| == if DiceOf(c, k).Some? then 3 else 2
  {
    hide Extract, RunRoll, SentAt, SharedSum, SentOf, CommitMsg, SecretMsg, ConfirmMsg;
    var own, other := c.secret(side, k), c.secret(side.Other(), k);
    HonestPeersAgree(c.h, SIDES, own, other);
    RollPlanned(c, side, k);
    SentInRoll(c, side, k);
  }

  lemma SentInRoll(c: Config, side: Side, k: nat)
    ensures SentAt(c, side, 7 * k) == Some(DicePacket(CommitMsg(c.h, c.secret(side, k))))
    ensures SentAt(c, side, 7 * k + 2) == Some(DicePacket(SecretMsg(c.secret(side, k))))
    ensures DiceOf(c, k).Some? ==> SentAt(c, side, 7 * k + 4) == Some(DicePacket(ConfirmMsg(DiceOf(c, k).value)))
  {
    hide DiceOf, CommitMsg, SecretMsg, ConfirmMsg, Mover, MoveOf;
  }

  // One player of the match against whatever a peer sends.

  /** The player after a message, and after sending what it then has to send, if anything. */
  ghost function Hear(c: Config, side: Side, p: Player, m: Message): Player {
    var q := OnReceiveDice(c, side, p, m);
    if q.status == Running && q.phase in {2, 4} then q.(phase := q.phase + 1) else q
  }

  ghost function OnReceiveDice(c: Config, side: Side, p: Player, m: Message): Player {
    OnReceive(c, side, p, DicePacket(m))
  }

  /** The player that has sent its commitment, after up to three messages. */
  ghost function HearAll(c: Config, side: Side, p: Player, inbox: seq<Message>): Player
    decreases |inbox|
  {
    if inbox == [] then p
    else
      var q := Hear(c, side, p, inbox[0]);
      if q.status != Running || q.phase == 6 then q else HearAll(c, side, q, inbox[1..])
  }

  /**
   Against any peer at all, a player's roll in the match is the run of the exchange code: the same
   messages are waited for, the same ones refused, and the same dice come out.
   */
  lemma RollAgainstAnyPeer(c: Config, side: Side, p: Player, inbox: seq<Message>)
    requires p.status == Running && p.phase == 1 && |inbox| <= 3
    ensures var q, run := HearAll(c, side, p, inbox), RunRoll(c.h, SIDES, c.secret(side, p.round), inbox);
            match run.outcome
            case Rolled(rolls) => q.status == Running && q.phase == 6 && q.rolls == rolls
            case Panicked => q.status == OutOfEntropy
            case Failed(NoReply) => q.status == Running && q.phase == 2 * |inbox| + 1
            case Failed(_) => q.status == Refused
  {
    hide Extract, SharedSum, Commitment, Hear, HearAll, Confirmation;
    HearNext(c, side, p, inbox);
    if |inbox| >= 1 {
      HearCommitment(c, side, p, inbox[0]);
      if inbox[0].msgType == COMMITMENT {
        FromSecret(c, side, p.(peerCommit := inbox[0].data, phase := 3), inbox[1..]);
      }
    }
  }

  lemma HearNext(c: Config, side: Side, p: Player, inbox: seq<Message>)
    ensures HearAll(c, side, p, inbox) ==
            if inbox == [] then p
            else
              var q := Hear(c, side, p, inbox[0]);
              if q.status != Running || q.phase == 6 then q else HearAll(c, side, q, inbox[1..])
  {
    hide Hear;
  }

  lemma FromSecret(c: Config, side: Side, p: Player, inbox: seq<Message>)
    requires p.status == Running && p.phase == 3 && |inbox| <= 2
    ensures HearAll(c, side, p, inbox) ==
            if inbox == [] then p
            else if inbox[0].msgType != SECRET || Commitment(c.h, inbox[0].data) != p.peerCommit then p.(status := Refused)
            else
              var r := Extract(SIDES, SharedSum(c.h, c.secret(side, p.round), inbox[0].data));
              if r.None? then p.(phase := 4, status := OutOfEntropy)
              else
                var q := p.(phase := 5, rolls := r.value);
                if |inbox| == 1 then q
                else if inbox[1].msgType == ROLL_CONFIRMATION && inbox[1].data == Confirmation(r.value) then q.(phase := 6)
                else q.(status := Refused)
  {
    hide SharedSum, Commitment, Hear, HearAll, Confirmation, Faces;
    HearNext(c, side, p, inbox);
    if |inbox| >= 1 {
      HearSecret(c, side, p, inbox[0]);
      var q := Hear(c, side, p, inbox[0]);
      if q.status == Running {
        HearNext(c, side, q, inbox[1..]);
        if |inbox| == 2 {
          HearConfirmation(c, side, q, inbox[1]);
        }
      }
    }
  }

  lemma HearCommitment(c: Config, side: Side, p: Player, m: Message)
    requires p.status == Running && p.phase == 1
    ensures Hear(c, side, p, m) ==
            if m.msgType == COMMITMENT then p.(peerCommit := m.data, phase := 3) else p.(status := Refused)
  {
    hide Extract, SharedSum, Commitment;
  }

  lemma HearSecret(c: Config, side: Side, p: Player, m: Message)
    requires p.status == Running && p.phase == 3
    ensures var r := Extract(SIDES, SharedSum(c.h, c.secret(side, p.round), m.data));
            Hear(c, side, p, m) ==
            if m.msgType != SECRET || Commitment(c.h, m.data) != p.peerCommit then p.(status := Refused)
            else if r.None? then p.(phase := 4, status := OutOfEntropy)
            else p.(phase := 5, rolls := r.value)
  {
    hide SharedSum, Commitment, Faces;
  }

  lemma HearConfirmation(c: Config, side: Side, p: Player, m: Message)
    requires p.status == Running && p.phase == 5
    ensures Hear(c, side, p, m) ==
            if m.msgType == ROLL_CONFIRMATION && m.data == Confirmation(p.rolls) then p.(phase := 6) else p.(status := Refused)
  {
    hide Extract, SharedSum, Commitment, Confirmation;
  }

  /** Whatever move arrives, a player's turn in the match is blocked by it exactly when the session's is. */
  lemma TurnAgainstAnyPeer(c: Config, side: Side, p: Player, m: Move, now: Supplies)
    requires p.status == Running && p.phase == 6 && p.round >= 1 && |p.rolls| >= 2
    requires now.rolls != [] && now.rolls[0].0 == p.rolls[0] && now.rolls[0].1 == p.rolls[1]
    ensures now.inbox == [Delivered(c.transport, m)] ==>
              var q := OnReceive(c, side, p, MovePacket(m));
              && (q.status == Refused <==>
                    Blocked(InvalidMove, true, p.board, now) || Blocked(NoValidMoves, true, p.board, now))
              && (q.status != Refused ==>
                    && q.board == ApplyPeerMove(p.board, now.inbox[0]) && |q.log| == |p.log| + 1
                    && IsTurn(q.log[|p.log|], p.board, q.board, TurnNumber(p.goFirst, p.round - 1), true))
    ensures OwnTurn(p) ==>
              var action := ActionOf(c, side, p);
              && (action == Local(p.(status := Refused)) <==> Blocked(NoValidMoves, false, p.board, now))
              && (action.Send? ==> Chooses(c.strategy(side), p.board, p.log, p.rolls[0], p.rolls[1], action.p.move))
    ensures !OwnTurn(p) ==> ActionOf(c, side, p).Receive?
  {
    hide Legal, Enumeration, ApplyMove, ApplyPeerMove, Delivered;
    CanMoveSome(p.board, p.rolls[0], p.rolls[1]);
    if now.inbox == [Delivered(c.transport, m)] && HasLegalEffect(p.board.Mirror(), p.rolls[0], p.rolls[1], now.inbox[0]) {
      var m' :| Legal(p.board.Mirror(), p.rolls[0], p.rolls[1], m') && SameEffect(now.inbox[0], m');
    }
  }

  /** A move where a dice message is due, or the other way round, is refused. */
  lemma WrongKindRefused(c: Config, side: Side, p: Player, m: Move, d: Message)
    requires p.status == Running
    ensures p.phase < 6 ==> OnReceive(c, side, p, MovePacket(m)).status == Refused
    ensures p.phase == 6 ==> OnReceive(c, side, p, DicePacket(d)).status == Refused
  {
  }
}
