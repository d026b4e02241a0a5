/**
 Two honest players and the queues between them, stepped in any order a scheduler likes.
 Each plays the initiative roll and then the game, sending and receiving as the code does.
 The invariant ties every local state and every queue to the plan.
 */
module Match {
  import opened Boards
  import opened Bytes
  import opened Convert
  import opened Dice
  import opened Exchange
  import opened Game
  import opened Messages
  import opened Moves
  import opened Options
  import opened Plan

  datatype Packet = DicePacket(m: Message) | MovePacket(move: Move)

  /** On a stream everything shares the main lane; Go channels keep moves apart. */
  datatype Lane = Main | Aside

  /** What is in flight in one direction. */
  datatype Link = Link(main: seq<Packet>, aside: seq<Packet>) {
    function On(lane: Lane): seq<Packet> {
      if lane == Main then main else aside
    }

    function Push(lane: Lane, p: Packet): Link {
      if lane == Main then Link(main + [p], aside) else Link(main, aside + [p])
    }

    function Pop(lane: Lane): Link
      requires On(lane) != []
    {
      if lane == Main then Link(main[1..], aside) else Link(main, aside[1..])
    }
  }

  datatype Status = Running | WonGame | LostGame | OutOfEntropy | Refused

  type Rolls = r: seq<uint16> | |r| <= WORDS

  /**
   Where a player is: phases 0 to 5 are the sends and receives of a roll, phase 6 is what the
   roll was for, the start of play in round 0 and a turn later.
   */
  datatype Player = Player(
    status: Status, round: nat, phase: nat, goFirst: bool, board: Board, log: seq<GameLogEntry>,
    peerCommit: Digest, rolls: Rolls)

  function NewPlayer(): Player {
    Player(Running, 0, 0, false, START, [], seq(32, _ => 0), [])
  }

  /** One player, the other one, and the two directions between them. */
  datatype Duo = Duo(me: Player, peer: Player, out: Link, inn: Link) {
    function Swap(): Duo {
      Duo(peer, me, inn, out)
    }
  }

  function MoveLane(c: Config): Lane {
    if c.transport == Stream then Main else Aside
  }

  function LaneOf(c: Config, p: Packet): Lane {
    if p.MovePacket? then MoveLane(c) else Main
  }

  /** A Go channel of capacity one; a stream always takes more. */
  predicate Full(c: Config, queue: seq<Packet>) {
    c.transport == Channels && |queue| >= 1
  }

  datatype Action = Send(p: Packet, next: Player) | Receive(lane: Lane) | Local(next: Player)

  predicate OwnTurn(p: Player) {
    p.goFirst == (p.round % 2 == 1)
  }

  function AfterOwnMove(p: Player, m: Move): Player
    requires p.round >= 1 && |p.rolls| >= 2
  {
    var b := ApplyMove(p.board, m);
    var e := GameLogEntry("Self", m, TurnNumber(p.goFirst, p.round - 1), false, p.board, b, (p.rolls[0], p.rolls[1]));
    p.(board := b, log := p.log + [e], round := p.round + 1, phase := 0, status := if b.Win() then WonGame else Running)
  }

  /** The second player's opening turn is the one after which nobody looks for a loss. */
  ghost function AfterPeerMove(p: Player, m: Move): Player
    requires p.round >= 1 && |p.rolls| >= 2
  {
    if !HasLegalEffect(p.board.Mirror(), p.rolls[0], p.rolls[1], m) then p.(status := Refused)
    else
      var b := ApplyPeerMove(p.board, m);
      var e := GameLogEntry("Peer", m, TurnNumber(p.goFirst, p.round - 1), true, p.board, b, (p.rolls[0], p.rolls[1]));
      p.(board := b, log := p.log + [e], round := p.round + 1, phase := 0,
         status := if p.round > 1 && b.Lose() then LostGame else Running)
  }

  function ActionOf(c: Config, side: Side, p: Player): Action {
    if p.phase == 0 then Send(DicePacket(CommitMsg(c.h, c.secret(side, p.round))), p.(phase := 1))
    else if p.phase == 2 then Send(DicePacket(SecretMsg(c.secret(side, p.round))), p.(phase := 3))
    else if p.phase == 4 then Send(DicePacket(ConfirmMsg(p.rolls)), p.(phase := 5))
    else if p.phase < 6 then Receive(Main)
    else if |p.rolls| < 2 then Local(p.(status := Refused))
    else if p.round == 0 then Local(p.(goFirst := GoesFirst(side, p.rolls[0]), round := 1, phase := 0))
    else if !OwnTurn(p) then Receive(MoveLane(c))
    else
      var moves := Enumeration(p.board, p.rolls[0], p.rolls[1]);
      if moves == [] then Local(p.(status := Refused))
      else
        var m := c.strategy(side)(p.board, p.log, moves);
        Send(MovePacket(m), AfterOwnMove(p, m))
  }

  ghost function OnReceive(c: Config, side: Side, p: Player, packet: Packet): Player {
    if p.phase == 6 then
      if packet.MovePacket? && p.round >= 1 && |p.rolls| >= 2 then AfterPeerMove(p, Delivered(c.transport, packet.move))
      else p.(status := Refused)
    else if packet.MovePacket? then p.(status := Refused)
    else if p.phase == 1 && packet.m.msgType == COMMITMENT then p.(peerCommit := packet.m.data, phase := 2)
    else if p.phase == 3 && packet.m.msgType == SECRET && Commitment(c.h, packet.m.data) == p.peerCommit then
      var r := Extract(SIDES, SharedSum(c.h, c.secret(side, p.round), packet.m.data));
      if r.None? then p.(phase := 4, status := OutOfEntropy) else p.(phase := 4, rolls := r.value)
    else if p.phase == 5 && packet.m == ConfirmMsg(p.rolls) then p.(phase := 6)
    else p.(status := Refused)
  }

  /** The next atomic step of one player; `None` when it is finished or has to wait. */
  ghost function Step(c: Config, side: Side, v: Duo): Option<Duo> {
    if v.me.status != Running then None
    else
      match ActionOf(c, side, v.me)
      case Send(p, next) =>
        var lane := LaneOf(c, p);
        if Full(c, v.out.On(lane)) then None else Some(v.(me := next, out := v.out.Push(lane, p)))
      case Receive(lane) =>
        if v.inn.On(lane) == [] then None
        else Some(v.(me := OnReceive(c, side, v.me, v.inn.On(lane)[0]), inn := v.inn.Pop(lane)))
      case Local(next) => Some(v.(me := next))
  }

  /** A step of either side of the match, which is written as side A sees it. */
  ghost function Next(c: Config, side: Side, s: Duo): Option<Duo> {
    if side == A then Step(c, A, s)
    else
      var r := Step(c, B, s.Swap());
      if r.None? then None else Some(r.value.Swap())
  }

  /** The match after a schedule; `None` when the schedule asks for a step that has to wait. */
  ghost function After(c: Config, schedule: seq<Side>): Option<Duo> {
    if schedule == [] then Some(Duo(NewPlayer(), NewPlayer(), Link([], []), Link([], [])))
    else
      match After(c, schedule[..|schedule| - 1])
      case None => None
      case Some(s) => Next(c, schedule[|schedule| - 1], s)
  }

  /** Where packets may be: a Go channel holds one at most, moves and dice apart; a stream carries all on one lane. */
  predicate LanesOk(c: Config, l: Link) {
    if c.transport == Channels then
      && |l.main| <= 1 && |l.aside| <= 1
      && (forall p | p in l.main :: p.DicePacket?) && (forall p | p in l.aside :: p.MovePacket?)
    else l.aside == []
  }

  lemma StepKeepsLanes(c: Config, side: Side, v: Duo)
    requires LanesOk(c, v.out) && LanesOk(c, v.inn) && Step(c, side, v).Some?
    ensures LanesOk(c, Step(c, side, v).value.out) && LanesOk(c, Step(c, side, v).value.inn)
  {
    hide OnReceive, Enumeration, AfterOwnMove;
  }

  lemma {:induction false} LanesKept(c: Config, schedule: seq<Side>)
    requires After(c, schedule).Some?
    ensures LanesOk(c, After(c, schedule).value.out) && LanesOk(c, After(c, schedule).value.inn)
  {
    hide Step, LanesOk;
    if schedule == [] {
      assert LanesOk(c, Link([], [])) by { NoPackets(c); }
    } else {
      var k := |schedule| - 1;
      LanesKept(c, schedule[..k]);
      var s := After(c, schedule[..k]).value;
      if schedule[k] == A {
        StepKeepsLanes(c, A, s);
      } else {
        StepKeepsLanes(c, B, s.Swap());
      }
    }
  }

  lemma NoPackets(c: Config)
    ensures LanesOk(c, Link([], []))
  {
  }

  // What the plan says of one player and of what it has in flight.

  function Pos(p: Player): nat {
    7 * p.round + p.phase
  }

  function PhaseOf(pos: nat): (phase: nat)
    ensures phase <= 6
  {
    pos % 7
  }

  function RoundOf(pos: nat): (k: nat)
    ensures pos == 7 * k + PhaseOf(pos)
  {
    pos / 7
  }

  lemma NextPhase(pos: nat)
    ensures PhaseOf(pos + 1) == if PhaseOf(pos) < 6 then PhaseOf(pos) + 1 else 0
    ensures RoundOf(pos + 1) == RoundOf(pos) + if PhaseOf(pos) < 6 then 0 else 1
  {
  }

  /** The phases in which a message of the exchange is awaited. */
  predicate OddPhase(pos: nat) {
    PhaseOf(pos) == 1 || PhaseOf(pos) == 3 || PhaseOf(pos) == 5
  }

  /** Everything the other side sent at an earlier position has been received at `pos`. */
  function Cursor(pos: nat): (cursor: nat)
    ensures cursor <= pos <= cursor + 1
  {
    if OddPhase(pos) then pos - 1 else pos
  }

  /** What `side` sends at a position, if anything. */
  function SentAt(c: Config, side: Side, pos: nat): Option<Packet> {
    var k, phase := RoundOf(pos), PhaseOf(pos);
    if phase == 0 then Some(DicePacket(CommitMsg(c.h, c.secret(side, k))))
    else if phase == 2 then Some(DicePacket(SecretMsg(c.secret(side, k))))
    else if phase == 4 && DiceOf(c, k).Some? then Some(DicePacket(ConfirmMsg(DiceOf(c, k).value)))
    else if phase == 6 && k >= 1 && Mover(c, k) == side then Some(MovePacket(MoveOf(c, k)))
    else None
  }

  function SentOn(c: Config, side: Side, lane: Lane, pos: nat): seq<Packet> {
    var p := SentAt(c, side, pos);
    if p.Some? && LaneOf(c, p.value) == lane then [p.value] else []
  }

  function InFlight(c: Config, side: Side, lane: Lane, lo: nat, hi: nat): seq<Packet>
    decreases hi
  {
    if lo >= hi then [] else InFlight(c, side, lane, lo, hi - 1) + SentOn(c, side, lane, hi - 1)
  }

  lemma {:induction false} InFlightHead(c: Config, side: Side, lane: Lane, lo: nat, hi: nat)
    requires lo < hi
    ensures InFlight(c, side, lane, lo, hi) == SentOn(c, side, lane, lo) + InFlight(c, side, lane, lo + 1, hi)
    decreases hi
  {
    hide SentOn;
    if lo + 1 < hi {
      InFlightHead(c, side, lane, lo, hi - 1);
    } else {
      assert InFlight(c, side, lane, lo, lo) == [];
    }
  }

  /** Side `side` cannot be behind the messages the other side has already received. */
  predicate Caught(c: Config, side: Side, pos: nat, cursor: nat) {
    var k, phase := RoundOf(cursor), PhaseOf(cursor);
    if phase >= 2 then pos >= cursor - 1
    else if k == 0 then true
    else if k >= 2 && Mover(c, k - 1) == side then pos >= 7 * k
    else pos >= 7 * k - 2
  }

  predicate PlayerOk(c: Config, side: Side, p: Player) {
    && p.phase <= 6
    && (match p.status
        case Running =>
          && Live(c, p.round)
          && (2 <= p.phase <= 3 ==> p.peerCommit == Commitment(c.h, c.secret(side.Other(), p.round)))
          && (p.phase >= 4 ==> DiceOf(c, p.round) == Some(p.rolls))
        case OutOfEntropy => Live(c, p.round) && p.phase == 4 && DiceOf(c, p.round) == None
        case Refused => false
        case _ =>
          && p.round >= 2 && p.phase == 0 && Live(c, p.round - 1) && DiceOf(c, p.round - 1).Some? && Wins(c, p.round - 1)
          && (p.status == WonGame <==> Mover(c, p.round - 1) == side))
    && (p.round == 0 ==> p.board == START && p.log == [])
    && (p.round >= 1 ==>
          && p.goFirst == (First(c) == side)
          && p.board == ViewOf(c, side, p.round - 1)
          && p.log == LogOf(c, side, p.round - 1))
  }

  /** One player and its outgoing direction are where the plan has them. */
  predicate Half(c: Config, side: Side, v: Duo) {
    && PlayerOk(c, side, v.me)
    && LinkOk(c, side, v.out, Cursor(Pos(v.peer)), Pos(v.me))
  }

  predicate LinkOk(c: Config, side: Side, l: Link, cursor: nat, pos: nat) {
    && Caught(c, side, pos, cursor)
    && l.main == InFlight(c, side, Main, cursor, pos)
    && l.aside == InFlight(c, side, Aside, cursor, pos)
  }

  /** The invariant, for both players. */
  predicate OnPlan(c: Config, s: Duo) {
    Half(c, A, s) && Half(c, B, s.Swap())
  }

  /** A player about to send is not ahead of itself: what it sends has not been received yet. */
  lemma SenderCaughtUp(c: Config, side: Side, pos: nat, peerPos: nat)
    requires Caught(c, side, pos, Cursor(peerPos))
    requires SentAt(c, side, pos).Some?
    ensures Cursor(peerPos) <= pos
  {
    hide Mover, First, DiceOf, MoveOf, PhaseOf, RoundOf;
    NextPhase(Cursor(peerPos));
  }

  /** The own direction when the position moves on by one, with or without a message. */
  lemma OutMovesOn(c: Config, side: Side, l: Link, cursor: nat, pos: nat)
    requires LinkOk(c, side, l, cursor, pos)
    requires SentAt(c, side, pos).Some? ==> cursor <= pos
    ensures var p := SentAt(c, side, pos);
            LinkOk(c, side, if p.Some? then l.Push(LaneOf(c, p.value), p.value) else l, cursor, pos + 1)
  {
    hide SentAt, PhaseOf, RoundOf;
  }

  lemma CursorStays(pos: nat)
    requires !OddPhase(pos) && PhaseOf(pos) < 6
    ensures Cursor(pos + 1) == Cursor(pos)
  {
    hide PhaseOf, RoundOf;
    NextPhase(pos);
  }

  lemma CursorAfterTurn(pos: nat)
    requires PhaseOf(pos) == 6
    ensures Cursor(pos) == pos && Cursor(pos + 1) == pos + 1
  {
    hide PhaseOf, RoundOf;
    NextPhase(pos);
  }

  /** Going from a send to the receive after it: nothing is received yet. */
  lemma InWaits(c: Config, side: Side, l: Link, pos: nat, peerPos: nat)
    requires LinkOk(c, side, l, Cursor(pos), peerPos)
    requires !OddPhase(pos) && PhaseOf(pos) < 6
    ensures LinkOk(c, side, l, Cursor(pos + 1), peerPos)
  {
    hide LinkOk, Cursor, PhaseOf, RoundOf;
    CursorStays(pos);
  }

  lemma CaughtAfterTurn(c: Config, side: Side, pos: nat, peerPos: nat)
    requires Caught(c, side, peerPos, pos) && PhaseOf(pos) == 6 && SentAt(c, side, pos).None?
    ensures Caught(c, side, peerPos, pos + 1)
  {
    hide DiceOf, MoveOf, First, Mover, PhaseOf, RoundOf;
    NextPhase(pos);
  }

  /** Leaving phase 6 when the other side has nothing to send in it. */
  lemma InSkips(c: Config, side: Side, l: Link, pos: nat, peerPos: nat)
    requires LinkOk(c, side, l, Cursor(pos), peerPos)
    requires PhaseOf(pos) == 6 && SentAt(c, side, pos).None?
    ensures LinkOk(c, side, l, Cursor(pos + 1), peerPos)
  {
    hide SentAt, Cursor, Caught, PhaseOf, RoundOf;
    CursorAfterTurn(pos);
    CaughtAfterTurn(c, side, pos, peerPos);
    if pos < peerPos {
      InFlightHead(c, side, Main, pos, peerPos);
      InFlightHead(c, side, Aside, pos, peerPos);
    }
  }

  /** The position whose message is awaited at `pos`. */
  function Awaited(pos: nat): nat {
    if PhaseOf(pos) == 6 then pos else Cursor(pos)
  }

  predicate Waiting(c: Config, side: Side, pos: nat) {
    OddPhase(pos) || (PhaseOf(pos) == 6 && RoundOf(pos) >= 1 && Mover(c, RoundOf(pos)) == side)
  }

  /** An awaited message takes the cursor past itself, and past the odd position after it. */
  lemma AwaitedCursor(c: Config, side: Side, pos: nat)
    requires Waiting(c, side, pos)
    ensures Cursor(pos) == Awaited(pos)
    ensures Cursor(pos + 1) == Awaited(pos) + 1
         || (Cursor(pos + 1) == Awaited(pos) + 2 && SentAt(c, side, Awaited(pos) + 1).None?)
  {
    hide DiceOf, MoveOf, First, Mover, PhaseOf, RoundOf;
    NextPhase(Cursor(pos));
    NextPhase(pos);
  }

  lemma CaughtAfterReceive(c: Config, side: Side, pos: nat, peerPos: nat)
    requires Waiting(c, side, pos) && peerPos > Awaited(pos)
    ensures Caught(c, side, peerPos, Cursor(pos + 1))
  {
    hide First, Mover, PhaseOf, RoundOf;
    NextPhase(Cursor(pos));
    NextPhase(pos);
  }

  lemma LaneAfterReceive(c: Config, side: Side, lane: Lane, at: nat, next: nat, peerPos: nat)
    requires at < peerPos
    requires next == at + 1 || (next == at + 2 && SentAt(c, side, at + 1).None?)
    ensures InFlight(c, side, lane, at, peerPos) == SentOn(c, side, lane, at) + InFlight(c, side, lane, next, peerPos)
  {
    hide SentAt;
    InFlightHead(c, side, lane, at, peerPos);
    if next == at + 2 {
      if at + 1 < peerPos {
        InFlightHead(c, side, lane, at + 1, peerPos);
      }
    }
  }

  /** Receiving: the awaited message heads its lane exactly when its sender has passed it. */
  lemma InReceives(c: Config, side: Side, l: Link, pos: nat, peerPos: nat)
    requires LinkOk(c, side, l, Cursor(pos), peerPos)
    requires Waiting(c, side, pos) && SentAt(c, side, Awaited(pos)).Some?
    ensures var p := SentAt(c, side, Awaited(pos)).value;
            && (l.On(LaneOf(c, p)) != [] <==> peerPos > Awaited(pos))
            && (peerPos > Awaited(pos) ==>
                  && l.On(LaneOf(c, p))[0] == p
                  && LinkOk(c, side, l.Pop(LaneOf(c, p)), Cursor(pos + 1), peerPos))
  {
    hide SentAt, Waiting, Caught, Awaited, Cursor, LaneOf, PhaseOf, RoundOf;
    var at := Awaited(pos);
    AwaitedCursor(c, side, pos);
    if at < peerPos {
      LaneAfterReceive(c, side, Main, at, Cursor(pos + 1), peerPos);
      LaneAfterReceive(c, side, Aside, at, Cursor(pos + 1), peerPos);
      CaughtAfterReceive(c, side, pos, peerPos);
    }
  }

  // One step of one player, against the plan.

  lemma PosParts(p: Player)
    requires p.phase <= 6
    ensures RoundOf(Pos(p)) == p.round && PhaseOf(Pos(p)) == p.phase
  {
    hide PhaseOf, RoundOf;
  }

  lemma OwnTurnIsMover(c: Config, side: Side, p: Player)
    requires p.round >= 1 && p.goFirst == (First(c) == side)
    ensures OwnTurn(p) <==> Mover(c, p.round) == side
    ensures Mover(c, p.round) == side <==> Mover(c, p.round) != side.Other()
  {
    hide First;
  }

  lemma EightDice(c: Config, k: nat)
    requires DiceOf(c, k).Some?
    ensures |DiceOf(c, k).value| == DICE_PER_ROLL
    ensures Die1(c, k) == DiceOf(c, k).value[0] && Die2(c, k) == DiceOf(c, k).value[1]
  {
  }

  lemma OwnMovePlanned(c: Config, side: Side, p: Player)
    requires MemberStrategies(c) && PlayerOk(c, side, p) && p.status == Running
    requires p.phase == 6 && p.round >= 1 && OwnTurn(p)
    ensures |p.rolls| >= 2 && Enumeration(p.board, p.rolls[0], p.rolls[1]) != []
    ensures c.strategy(side)(p.board, p.log, Enumeration(p.board, p.rolls[0], p.rolls[1])) == MoveOf(c, p.round)
    ensures PlayerOk(c, side, AfterOwnMove(p, MoveOf(c, p.round)))
  {
    hide DiceOf, Die1, Die2, First, Mover, ApplyMove, Legal, Sound, CanMove, Enumeration, Live, Wins, LogOf, ViewOf,
         AfterOwnMove, MemberStrategies, HasLegalEffect, MoverBoard, MoveOf, EntryOf;
    MoveOfIs(c, p.round);
    OwnTurnIsMover(c, side, p);
    EightDice(c, p.round);
    RoundIsLegal(c, p.round);
    OwnView(c, side, p.round);
    CanMoveSome(MoverBoard(c, p.round - 1), Die1(c, p.round), Die2(c, p.round));
    OwnMoveKeepsPlan(c, side, p);
  }

  lemma OwnMoveKeepsPlan(c: Config, side: Side, p: Player)
    requires PlayerOk(c, side, p) && p.status == Running
    requires p.phase == 6 && p.round >= 1 && Mover(c, p.round) == side && |p.rolls| >= 2
    ensures PlayerOk(c, side, AfterOwnMove(p, MoveOf(c, p.round)))
  {
    hide DiceOf, First, Mover, ApplyMove, MoverBoard, MoveOf, ViewOf, TurnNumber, EntryOf, LogOf;
    ViewIs(c, side, p.round);
    BoardIs(c, p.round);
    EntryIs(c, side, p.round);
    LogIs(c, side, p.round);
    EightDice(c, p.round);
    OwnView(c, side, p.round);
  }

  lemma OwnView(c: Config, side: Side, k: nat)
    requires k >= 1 && Mover(c, k) == side
    ensures ViewOf(c, side, k - 1) == MoverBoard(c, k - 1)
    ensures ViewOf(c, side, k) == ApplyMove(MoverBoard(c, k - 1), MoveOf(c, k))
  {
    hide First, ApplyMove, MoveOf, MoverBoard, ViewOf, EntryOf, LogOf;
    ViewIs(c, side, k - 1);
    ViewIs(c, side, k);
    BoardIs(c, k);
    var b := ApplyMove(MoverBoard(c, k - 1), MoveOf(c, k));
    assert b.Mirror().Mirror() == b;
  }

  /** A player that sends, sends what is planned and stays on plan. */
  lemma PlayerSends(c: Config, side: Side, p: Player)
    requires MemberStrategies(c) && PlayerOk(c, side, p) && p.status == Running && ActionOf(c, side, p).Send?
    ensures var action := ActionOf(c, side, p);
            && SentAt(c, side, Pos(p)) == Some(action.p)
            && PlayerOk(c, side, action.next) && Pos(action.next) == Pos(p) + 1
            && (p.phase == 6 ==> SentAt(c, side.Other(), Pos(p)).None?)
            && p.phase <= 6 && p.phase in {0, 2, 4, 6}
  {
    hide DiceOf, First, ApplyMove, Enumeration, Live, Wins, ViewOf, LogOf, MoveOf, Mover, PhaseOf, RoundOf,
         MoverBoard, EntryOf;
    PosParts(p);
    if p.phase == 6 {
      OwnTurnIsMover(c, side, p);
      OwnMovePlanned(c, side, p);
    }
  }

  lemma PeerMovePlanned(c: Config, side: Side, p: Player)
    requires MemberStrategies(c) && PlayerOk(c, side, p) && p.status == Running
    requires p.phase == 6 && p.round >= 1 && !OwnTurn(p) && Fits(c, p.round)
    ensures |p.rolls| >= 2
    ensures var q := AfterPeerMove(p, Delivered(c.transport, MoveOf(c, p.round)));
            PlayerOk(c, side, q) && q.round == p.round + 1 && q.phase == 0
  {
    hide DiceOf, Die1, Die2, First, Mover, ApplyMove, ApplyPeerMove, HasLegalEffect, Sound, Delivered, Fits, MoveOf,
         PhaseOf, RoundOf, MoverBoard, ViewOf, EntryOf, LogOf;
    EntryIs(c, side, p.round);
    LogIs(c, side, p.round);
    OwnTurnIsMover(c, side, p);
    EightDice(c, p.round);
    DeliveredMoveAccepted(c, p.round);
    ViewStep(c, side, p.round);
    LossIsWin(c, side, p.round);
    if p.round == 1 {
      FirstMoveNeverWins(c);
    }
  }

  /** The receiver sees a loss exactly when the maker of the move sees a win. */
  lemma LossIsWin(c: Config, side: Side, k: nat)
    requires k >= 1 && Mover(c, k) != side
    ensures ViewOf(c, side, k).Lose() <==> Wins(c, k)
  {
    hide First, ApplyMove, MoveOf, MoverBoard, ViewOf, EntryOf, LogOf;
    ViewIs(c, side, k);
    BoardIs(c, k);
  }

  /** The roll computed from the own secret and the received one is the planned one. */
  lemma RollPlanned(c: Config, side: Side, k: nat)
    ensures Extract(SIDES, SharedSum(c.h, c.secret(side, k), c.secret(side.Other(), k))) == DiceOf(c, k)
  {
    hide Extract, SharedSum;
    SharedSumSymmetric(c.h, c.secret(A, k), c.secret(B, k));
  }

  /** With the message awaited from the other side, a receiving player stays on plan. */
  ghost predicate ReceivesPlanned(c: Config, side: Side, p: Player)
    requires ActionOf(c, side, p).Receive?
  {
    var awaited := SentAt(c, side.Other(), Awaited(Pos(p)));
    && Waiting(c, side.Other(), Pos(p)) && awaited.Some?
    && LaneOf(c, awaited.value) == ActionOf(c, side, p).lane
    && PlayerOk(c, side, OnReceive(c, side, p, awaited.value))
    && Pos(OnReceive(c, side, p, awaited.value)) == Pos(p) + 1
    && SentAt(c, side, Pos(p)).None?
  }

  /** The dice message due at a receive phase. */
  function DiceDue(c: Config, side: Side, p: Player): Packet {
    if p.phase == 1 then DicePacket(CommitMsg(c.h, c.secret(side.Other(), p.round)))
    else if p.phase == 3 then DicePacket(SecretMsg(c.secret(side.Other(), p.round)))
    else DicePacket(ConfirmMsg(p.rolls))
  }

  lemma DiceDueIsSent(c: Config, side: Side, p: Player)
    requires PlayerOk(c, side, p) && p.status == Running && p.phase in {1, 3, 5}
    ensures Waiting(c, side.Other(), Pos(p)) && SentAt(c, side, Pos(p)).None?
    ensures SentAt(c, side.Other(), Awaited(Pos(p))) == Some(DiceDue(c, side, p))
  {
    hide DiceOf, First, Live, Wins, ViewOf, LogOf, MoveOf, Mover, CommitMsg, SecretMsg, ConfirmMsg, PhaseOf, RoundOf;
    PosParts(p);
  }

  lemma DiceDueKeepsPlan(c: Config, side: Side, p: Player)
    requires PlayerOk(c, side, p) && p.status == Running && p.phase in {1, 3, 5}
    ensures var q := OnReceive(c, side, p, DiceDue(c, side, p));
            PlayerOk(c, side, q) && q.round == p.round && q.phase == p.phase + 1
  {
    hide DiceOf, First, Live, Wins, ViewOf, LogOf, MoveOf, Mover, Extract, SharedSum, Confirmation, PhaseOf, RoundOf;
    RollPlanned(c, side, p.round);
  }

  lemma PlayerReceivesDice(c: Config, side: Side, p: Player)
    requires PlayerOk(c, side, p) && p.status == Running && ActionOf(c, side, p).Receive? && p.phase < 6
    ensures ReceivesPlanned(c, side, p)
  {
    hide PlayerOk, OnReceive, SentAt, Waiting, Awaited, Enumeration;
    DiceDueIsSent(c, side, p);
    DiceDueKeepsPlan(c, side, p);
  }

  lemma PlayerReceivesMove(c: Config, side: Side, p: Player)
    requires MemberStrategies(c) && PlayerOk(c, side, p) && p.status == Running && ActionOf(c, side, p).Receive?
    requires p.phase == 6 && p.round >= 1 && Fits(c, p.round)
    ensures ReceivesPlanned(c, side, p)
  {
    hide PlayerOk, DiceOf, First, ApplyPeerMove, MoveOf, Mover, HasLegalEffect, Fits, Enumeration, PhaseOf, RoundOf,
         MoverBoard, ViewOf, EntryOf, LogOf;
    PosParts(p);
    FirstKnown(c, side, p);
    OwnTurnIsMover(c, side, p);
    PeerMovePlanned(c, side, p);
  }

  lemma FirstKnown(c: Config, side: Side, p: Player)
    requires PlayerOk(c, side, p) && p.round >= 1
    ensures p.goFirst == (First(c) == side)
  {
  }

  lemma PlayerStarts(c: Config, side: Side, p: Player)
    requires MemberStrategies(c) && PlayerOk(c, side, p) && p.status == Running && ActionOf(c, side, p).Local?
    ensures PlayerOk(c, side, ActionOf(c, side, p).next) && Pos(ActionOf(c, side, p).next) == Pos(p) + 1
    ensures p.phase == 6 && SentAt(c, side, Pos(p)).None? && SentAt(c, side.Other(), Pos(p)).None?
  {
    hide DiceOf, ApplyMove, Enumeration, Wins, MoveOf, Mover, First, PhaseOf, RoundOf, MoverBoard, ViewOf, EntryOf,
         LogOf;
    LogIs(c, side, 0);
    PosParts(p);
    EightDice(c, p.round);
    if p.round >= 1 {
      OwnMovePlanned(c, side, p);
    } else {
      ExactlyOneGoesFirst(c, side);
      OpeningView(c, side);
    }
  }

  /** A receiver of a move needs it to have survived the transport. */
  predicate ReceivesFittingMove(c: Config, p: Player) {
    p.phase == 6 && p.round >= 1 && !OwnTurn(p) ==> Fits(c, p.round)
  }

  /** Every step of either player keeps both players and both directions on plan. */
  lemma StepKeepsPlan(c: Config, side: Side, v: Duo)
    requires MemberStrategies(c) && Half(c, side, v) && Half(c, side.Other(), v.Swap())
    requires Step(c, side, v).Some? && ReceivesFittingMove(c, v.me)
    ensures var v' := Step(c, side, v).value;
            Half(c, side, v') && Half(c, side.Other(), v'.Swap()) && v'.peer == v.peer && Pos(v'.me) == Pos(v.me) + 1
  {
    hide PlayerOk, LinkOk, ActionOf, OnReceive, SentAt, Cursor, Awaited, Waiting, LaneOf, Pos, Fits, PhaseOf, RoundOf;
    var pos, peerPos := Pos(v.me), Pos(v.peer);
    match ActionOf(c, side, v.me) {
      case Send(p, next) =>
        PlayerSends(c, side, v.me);
        OutStep(c, side, v);
        InStepOfSender(c, side, v);
      case Receive(lane) =>
        PhaseBound(c, side, v.me);
        ReceiveNeedsRound(c, side, v.me);
        if v.me.phase == 6 {
          PlayerReceivesMove(c, side, v.me);
        } else {
          PlayerReceivesDice(c, side, v.me);
        }
        OutStep(c, side, v);
        InReceives(c, side.Other(), v.inn, pos, peerPos);
      case Local(next) =>
        PlayerStarts(c, side, v.me);
        OutStep(c, side, v);
        InStepOfSender(c, side, v);
    }
  }

  lemma ReceiveNeedsRound(c: Config, side: Side, p: Player)
    requires ActionOf(c, side, p).Receive?
    ensures p.phase <= 6 ==> p.phase < 6 || (p.round >= 1 && !OwnTurn(p))
  {
  }

  lemma OutStep(c: Config, side: Side, v: Duo)
    requires LinkOk(c, side, v.out, Cursor(Pos(v.peer)), Pos(v.me))
    ensures var p := SentAt(c, side, Pos(v.me));
            LinkOk(c, side, if p.Some? then v.out.Push(LaneOf(c, p.value), p.value) else v.out, Cursor(Pos(v.peer)), Pos(v.me) + 1)
  {
    hide SentAt, Cursor;
    if SentAt(c, side, Pos(v.me)).Some? {
      SenderCaughtUp(c, side, Pos(v.me), Pos(v.peer));
    }
    OutMovesOn(c, side, v.out, Cursor(Pos(v.peer)), Pos(v.me));
  }

  lemma InStepOfSender(c: Config, side: Side, v: Duo)
    requires v.me.phase <= 6 && v.me.phase in {0, 2, 4, 6}
    requires v.me.phase == 6 ==> SentAt(c, side.Other(), Pos(v.me)).None?
    requires LinkOk(c, side.Other(), v.inn, Cursor(Pos(v.me)), Pos(v.peer))
    ensures LinkOk(c, side.Other(), v.inn, Cursor(Pos(v.me) + 1), Pos(v.peer))
  {
    hide SentAt, Cursor, LinkOk, PhaseOf, RoundOf;
    PosParts(v.me);
    if v.me.phase == 6 {
      InSkips(c, side.Other(), v.inn, Pos(v.me), Pos(v.peer));
    } else {
      InWaits(c, side.Other(), v.inn, Pos(v.me), Pos(v.peer));
    }
  }

  lemma StartOnPlan(c: Config)
    ensures OnPlan(c, Duo(NewPlayer(), NewPlayer(), Link([], []), Link([], [])))
  {
  }

  lemma NextKeepsPlan(c: Config, side: Side, s: Duo)
    requires MemberStrategies(c) && OnPlan(c, s) && Next(c, side, s).Some?
    requires ReceivesFittingMove(c, if side == A then s.me else s.peer)
    ensures var s' := Next(c, side, s).value;
            && OnPlan(c, s')
            && Pos(s'.me) == Pos(s.me) + (if side == A then 1 else 0)
            && Pos(s'.peer) == Pos(s.peer) + (if side == B then 1 else 0)
  {
    hide Half, Step, Pos, Fits;
    assert s.Swap().Swap() == s;
    if side == A {
      StepKeepsPlan(c, A, s);
    } else {
      StepKeepsPlan(c, B, s.Swap());
      var r := Step(c, B, s.Swap()).value;
      assert r.Swap().Swap() == r;
    }
  }

  /** The rounds a match has reached. */
  function Rounds(s: Duo): nat {
    if s.me.round >= s.peer.round then s.me.round else s.peer.round
  }

  /** The moves of the first `n` rounds, as far as the game gets, survive the transport. */
  predicate FitsThrough(c: Config, n: nat) {
    forall k | 1 <= k <= n && Live(c, k) :: Fits(c, k)
  }

  lemma RoundsGrow(c: Config, side: Side, s: Duo)
    requires Next(c, side, s).Some?
    ensures Rounds(Next(c, side, s).value) >= Rounds(s)
  {
    hide ApplyMove, ApplyPeerMove, HasLegalEffect, Enumeration, Delivered;
  }

  lemma ReachedMovesFit(c: Config, side: Side, s: Duo)
    requires OnPlan(c, s) && FitsThrough(c, Rounds(s)) && Next(c, side, s).Some?
    ensures ReceivesFittingMove(c, if side == A then s.me else s.peer)
  {
    hide Fits, InFlight, Live;
  }

  /**
   Safety over every run: whatever the schedule, as long as the moves of the rounds reached
   survive the transport, both players and both directions are where the plan has them.
   */
  lemma {:induction false} EveryRunOnPlan(c: Config, schedule: seq<Side>)
    requires MemberStrategies(c)
    requires After(c, schedule).Some? && FitsThrough(c, Rounds(After(c, schedule).value))
    ensures OnPlan(c, After(c, schedule).value)
    ensures Pos(After(c, schedule).value.me) + Pos(After(c, schedule).value.peer) == |schedule|
  {
    hide OnPlan, Next, Fits, Rounds, Live;
    if schedule == [] {
      StartOnPlan(c);
    } else {
      var n := |schedule| - 1;
      var s := After(c, schedule[..n]).value;
      RoundsGrow(c, schedule[n], s);
      EveryRunOnPlan(c, schedule[..n]);
      ReachedMovesFit(c, schedule[n], s);
      NextKeepsPlan(c, schedule[n], s);
    }
  }

  /** Over Go channels nothing can get lost; over a stream nothing does for eight rounds. */
  lemma TransportsFit(c: Config, n: nat)
    requires MemberStrategies(c)
    requires c.transport == Channels || n <= 8
    ensures FitsThrough(c, n)
  {
    hide Live, FitsWire;
    forall k | 1 <= k <= n && Live(c, k)
      ensures Fits(c, k)
    {
      if c.transport == Stream {
        EarlyRoundsFit(c, k);
      }
    }
  }

  // What being on plan means for the two players.

  /** No message of the wrong kind, no broken commitment, no contested roll, no rejected or missing move. */
  lemma NobodyRefuses(c: Config, s: Duo)
    requires OnPlan(c, s)
    ensures s.me.status != Refused && s.peer.status != Refused
  {
    hide LinkOk, LogOf, ViewOf;
  }

  /** In the same round the two players hold mirrored boards, and the same dice once both have rolled. */
  lemma PlayersAgree(c: Config, s: Duo)
    requires OnPlan(c, s) && s.me.round == s.peer.round
    ensures s.me.board == s.peer.board.Mirror()
    ensures s.me.round >= 1 ==> s.me.goFirst != s.peer.goFirst
    ensures s.me.status == s.peer.status == Running && s.me.phase >= 4 && s.peer.phase >= 4 ==> s.me.rolls == s.peer.rolls
  {
    hide LinkOk, LogOf, ViewOf, Live, DiceOf, MoverBoard, MoveOf, EntryOf;
    if s.me.round >= 1 {
      ViewsMirror(c, s.me.round - 1);
    }
    assert START.Mirror() == START;
  }

  /** How many moves a player has logged. */
  function Logged(p: Player): nat {
    if p.round == 0 then 0 else p.round - 1
  }

  lemma LogOnPlan(c: Config, side: Side, p: Player)
    requires PlayerOk(c, side, p)
    ensures p.log == LogOf(c, side, Logged(p)) && Live(c, Logged(p))
  {
    hide LogOf, DiceOf, Wins, ViewOf, Live;
    if p.round >= 1 && Live(c, p.round) {
      LiveBefore(c, p.round - 1, p.round);
    }
  }

  /** A player is at most three steps ahead of the other, and so at most one round. */
  lemma LagBounded(c: Config, side: Side, pos: nat, peerPos: nat)
    requires Caught(c, side, pos, Cursor(peerPos))
    ensures peerPos <= pos + 3
  {
    hide First, Mover, PhaseOf, RoundOf;
    NextPhase(Cursor(peerPos));
  }

  lemma FitsUpToLogged(c: Config, n: nat, m: nat)
    requires FitsThrough(c, m) && Live(c, n) && n <= m
    ensures FitUpTo(c, n)
  {
    hide Fits, Live;
    forall k | 1 <= k <= n
      ensures Fits(c, k)
    {
      if k < n {
        LiveBefore(c, k, n);
      }
    }
  }

  /** The logs agree entry by entry as far as both have got, with sides swapped. */
  lemma LogsAgree(c: Config, s: Duo)
    requires MemberStrategies(c) && OnPlan(c, s) && FitsThrough(c, Rounds(s))
    ensures |s.me.log| <= |s.peer.log| + 1 && |s.peer.log| <= |s.me.log| + 1
    ensures forall i | 0 <= i < |s.me.log| && i < |s.peer.log| :: MirrorEntries(s.me.log[i], s.peer.log[i])
  {
    hide InFlight, MirrorEntries, Fits, PlayerOk, Live, LogOf, Caught, Cursor;
    LogOnPlan(c, A, s.me);
    LogOnPlan(c, B, s.peer);
    LagBounded(c, A, Pos(s.me), Pos(s.peer));
    LagBounded(c, B, Pos(s.peer), Pos(s.me));
    PhaseBound(c, A, s.me);
    PhaseBound(c, B, s.peer);
    var n := if Logged(s.me) <= Logged(s.peer) then Logged(s.me) else Logged(s.peer);
    FitsUpToLogged(c, n, Rounds(s));
    LogsMirror(c, n);
    LogPrefix(c, A, n, Logged(s.me));
    LogPrefix(c, B, n, Logged(s.peer));
  }

  lemma PhaseBound(c: Config, side: Side, p: Player)
    requires PlayerOk(c, side, p)
    ensures p.phase <= 6
  {
  }

  /** Either log is the log of a legal game as one player alone would play it. */
  lemma LogsAreLegalGames(c: Config, s: Duo)
    requires MemberStrategies(c) && OnPlan(c, s) && FitsThrough(c, Rounds(s))
    ensures GoodLog(First(c) == A, s.me.log, true) && GoodLog(First(c) == B, s.peer.log, true)
  {
    hide InFlight, GoodLog, Fits, PlayerOk, Live, LogOf, LinkOk;
    LogOnPlan(c, A, s.me);
    LogOnPlan(c, B, s.peer);
    FitsUpToLogged(c, Logged(s.me), Rounds(s));
    FitsUpToLogged(c, Logged(s.peer), Rounds(s));
    LogIsGood(c, A, Logged(s.me));
    LogIsGood(c, B, Logged(s.peer));
  }

  lemma CursorMonotone(pos: nat, peerPos: nat)
    requires pos <= peerPos && !OddPhase(pos)
    ensures Cursor(peerPos) >= pos
  {
    hide PhaseOf, RoundOf;
  }

  /** A send of the player that is not ahead never blocks: its lane is empty. */
  lemma SenderNotBlocked(c: Config, side: Side, v: Duo)
    requires MemberStrategies(c) && Half(c, side, v) && v.me.status == Running
    requires Pos(v.me) <= Pos(v.peer) && ActionOf(c, side, v.me).Send?
    ensures Step(c, side, v).Some?
  {
    hide PlayerOk, ActionOf, SentAt, Cursor, Pos, LaneOf, Caught;
    PlayerSends(c, side, v.me);
    SendPhase(c, side, v.me);
    CursorMonotone(Pos(v.me), Pos(v.peer));
  }

  lemma SendPhase(c: Config, side: Side, p: Player)
    requires PlayerOk(c, side, p) && ActionOf(c, side, p).Send?
    ensures !OddPhase(Pos(p))
  {
    hide DiceOf, First, Live, Wins, ViewOf, LogOf, Enumeration, ApplyMove, CommitMsg, SecretMsg, ConfirmMsg, PhaseOf, RoundOf;
    PosParts(p);
  }

  /** A receive waits only for a move, and only beside a mover who is about to send it. */
  lemma ReceiverServed(c: Config, side: Side, v: Duo)
    requires MemberStrategies(c) && Half(c, side, v) && Half(c, side.Other(), v.Swap()) && v.me.status == Running
    requires Pos(v.me) <= Pos(v.peer) && ActionOf(c, side, v.me).Receive?
    ensures Step(c, side, v).Some? || (Pos(v.me) == Pos(v.peer) && v.me.phase == 6 && v.me.round >= 1 && !OwnTurn(v.me))
  {
    hide PlayerOk, SentAt, Cursor, LaneOf, Caught, LinkOk, OnReceive, Enumeration, PhaseOf, RoundOf;
    PhaseBound(c, side, v.me);
    PosParts(v.me);
    ReceiveNeedsRound(c, side, v.me);
    PeerSendsAwaited(c, side, v.me);
    InReceives(c, side.Other(), v.inn, Pos(v.me), Pos(v.peer));
    if v.me.phase < 6 {
      AwaitedCursor(c, side.Other(), Pos(v.me));
      OddAwaited(Pos(v.me));
    }
  }

  lemma OddAwaited(pos: nat)
    requires OddPhase(pos)
    ensures Awaited(pos) < pos
  {
    hide PhaseOf, RoundOf;
  }

  lemma PeerSendsAwaited(c: Config, side: Side, p: Player)
    requires PlayerOk(c, side, p) && p.status == Running && ActionOf(c, side, p).Receive?
    ensures var awaited := SentAt(c, side.Other(), Awaited(Pos(p)));
            && Waiting(c, side.Other(), Pos(p)) && awaited.Some?
            && LaneOf(c, awaited.value) == ActionOf(c, side, p).lane
  {
    hide DiceOf, First, Live, Wins, ViewOf, LogOf, MoveOf, Mover, Enumeration, PhaseOf, RoundOf;
    PosParts(p);
    if p.phase == 6 {
      OwnTurnIsMover(c, side, p);
    }
  }

  /** A finished player's pursuer has finished too, once it has caught up. */
  lemma FinishedTogether(c: Config, side: Side, p: Player, q: Player)
    requires PlayerOk(c, side, p) && PlayerOk(c, side.Other(), q)
    requires p.status != Running && Pos(p) <= Pos(q)
    ensures q.status != Running
  {
    hide DiceOf, First, Live, Wins, ViewOf, LogOf, Mover, MoverBoard, MoveOf, EntryOf;
    if q.status == Running && p.round < q.round {
      LiveBefore(c, p.round, q.round);
    }
    if q.status == Running && p.round >= 1 && p.round - 1 < q.round {
      LiveBefore(c, p.round - 1, q.round);
    }
  }

  /** The mover in phase 6 has its move to send. */
  lemma MoverSends(c: Config, side: Side, p: Player)
    requires MemberStrategies(c) && PlayerOk(c, side, p) && p.status == Running && p.phase == 6 && p.round >= 1 && OwnTurn(p)
    ensures ActionOf(c, side, p).Send?
  {
    hide DiceOf, First, Live, Wins, ViewOf, LogOf, Enumeration, MoveOf;
    OwnMovePlanned(c, side, p);
  }

  lemma LocalNeverBlocks(c: Config, side: Side, v: Duo)
    requires v.me.status == Running && ActionOf(c, side, v.me).Local?
    ensures Step(c, side, v).Some?
  {
  }

  /** The player that is not ahead can step, or else its peer beside it can. */
  lemma BehindOrBesideMoves(c: Config, side: Side, v: Duo)
    requires MemberStrategies(c) && Half(c, side, v) && Half(c, side.Other(), v.Swap())
    requires Pos(v.me) <= Pos(v.peer) && v.me.status == Running
    ensures Step(c, side, v).Some? || Step(c, side.Other(), v.Swap()).Some?
  {
    hide PlayerOk, LinkOk, ActionOf, Step, Cursor;
    match ActionOf(c, side, v.me) {
      case Send(_, _) => SenderNotBlocked(c, side, v);
      case Local(_) => LocalNeverBlocks(c, side, v);
      case Receive(_) =>
        ReceiverServed(c, side, v);
        if Step(c, side, v).None? {
          BesideIsMover(c, side, v.me, v.peer);
          MoverSends(c, side.Other(), v.peer);
          assert v.Swap().Swap() == v;
          SenderNotBlocked(c, side.Other(), v.Swap());
        }
    }
  }

  lemma BesideIsMover(c: Config, side: Side, p: Player, q: Player)
    requires PlayerOk(c, side, p) && PlayerOk(c, side.Other(), q)
    requires Pos(p) == Pos(q) && p.phase == 6 && p.round >= 1 && !OwnTurn(p)
    ensures q.status == Running && q.phase == 6 && q.round >= 1 && OwnTurn(q)
  {
    hide DiceOf, First, Live, Wins, ViewOf, LogOf, Mover, PhaseOf, RoundOf, MoverBoard, MoveOf, EntryOf;
    PosParts(p);
    PosParts(q);
  }

  /** No deadlock: on either transport, some player can step until both have finished. */
  lemma NoDeadlock(c: Config, s: Duo)
    requires MemberStrategies(c) && OnPlan(c, s)
    requires s.me.status == Running || s.peer.status == Running
    ensures Next(c, A, s).Some? || Next(c, B, s).Some?
  {
    hide PlayerOk, LinkOk, Step, Pos, Cursor;
    assert s.Swap().Swap() == s;
    if Pos(s.me) <= Pos(s.peer) {
      if s.me.status != Running {
        FinishedTogether(c, A, s.me, s.peer);
      } else {
        BehindOrBesideMoves(c, A, s);
      }
    } else {
      if s.peer.status != Running {
        FinishedTogether(c, B, s.peer, s.me);
      } else {
        BehindOrBesideMoves(c, B, s.Swap());
      }
    }
  }

  /** Where a finished player's last round is: the one it ran out of entropy in, or the winning one. */
  function LastRound(p: Player): nat {
    if p.status == OutOfEntropy || p.round == 0 then p.round else p.round - 1
  }

  /** The game has one end. */
  lemma EndsEqual(c: Config, p: Player, q: Player)
    requires PlayerOk(c, A, p) && PlayerOk(c, B, q) && p.status != Running && q.status != Running
    ensures p.round == q.round && (p.status == OutOfEntropy <==> q.status == OutOfEntropy)
    ensures p.status != OutOfEntropy ==> (p.status == WonGame <==> q.status == LostGame)
  {
    hide DiceOf, First, Live, Wins, ViewOf, LogOf, Mover, MoverBoard, MoveOf, EntryOf;
    if LastRound(p) < LastRound(q) {
      LiveBefore(c, LastRound(p), LastRound(q));
    } else if LastRound(q) < LastRound(p) {
      LiveBefore(c, LastRound(q), LastRound(p));
    }
  }

  lemma WinnersBoard(c: Config, side: Side, p: Player)
    requires PlayerOk(c, side, p) && p.status == WonGame
    ensures p.board.Win()
  {
    hide DiceOf, First, Live, LogOf, Mover, ViewOf, MoverBoard, MoveOf, EntryOf;
    OwnView(c, side, p.round - 1);
  }

  /** Finished: one has won what the other has lost, or the same roll ran out of entropy for both. */
  lemma OppositeResults(c: Config, s: Duo)
    requires OnPlan(c, s) && s.me.status != Running && s.peer.status != Running
    ensures s.me.round == s.peer.round && |s.me.log| == |s.peer.log| && s.me.board == s.peer.board.Mirror()
    ensures || (s.me.status == WonGame && s.peer.status == LostGame && s.me.board.Win())
            || (s.me.status == LostGame && s.peer.status == WonGame && s.peer.board.Win())
            || (s.me.status == OutOfEntropy && s.peer.status == OutOfEntropy)
  {
    hide LinkOk, PlayerOk;
    EndsEqual(c, s.me, s.peer);
    if s.me.status == WonGame {
      WinnersBoard(c, A, s.me);
    }
    if s.peer.status == WonGame {
      WinnersBoard(c, B, s.peer);
    }
    NobodyRefuses(c, s);
    PlayersAgree(c, s);
    LogOnPlan(c, A, s.me);
    LogOnPlan(c, B, s.peer);
  }

  /** The receiver of a move ends where the plan has it exactly when the move survived the transport. */
  lemma FitIsNeeded(c: Config, side: Side, p: Player)
    requires MemberStrategies(c) && PlayerOk(c, side, p) && p.status == Running
    requires p.phase == 6 && p.round >= 1 && !OwnTurn(p) && |p.rolls| >= 2
    ensures var q := AfterPeerMove(p, Delivered(c.transport, MoveOf(c, p.round)));
            (q.status != Refused && q.board == ViewOf(c, side, p.round)) <==> Fits(c, p.round)
  {
    hide DiceOf, Die1, Die2, First, Mover, ApplyPeerMove, HasLegalEffect, Fits, Delivered, MoveOf, MoverBoard, LogOf,
         Live, ViewOf, EntryOf;
    OwnTurnIsMover(c, side, p);
    EightDice(c, p.round);
    UnfitIsNotMirrored(c, p.round);
    ReceiverView(c, side, p.round);
  }

  /** A step that receives a move which did not survive the transport leaves the plan. */
  lemma UnfitStepLeavesPlan(c: Config, side: Side, v: Duo)
    requires MemberStrategies(c) && Half(c, side, v) && Half(c, side.Other(), v.Swap())
    requires Step(c, side, v).Some? && !ReceivesFittingMove(c, v.me)
    ensures !PlayerOk(c, side, Step(c, side, v).value.me)
    ensures v.me.round >= 1 && |v.me.rolls| >= 2
    ensures Step(c, side, v).value.me == AfterPeerMove(v.me, Delivered(c.transport, MoveOf(c, v.me.round)))
  {
    hide PlayerOk, Cursor, InFlight, Fits, DiceOf, First, Mover, MoveOf, Delivered, HasLegalEffect, ApplyPeerMove, Enumeration,
         Caught, Awaited, Waiting, SentAt;
    UnfitReceipt(c, side, v.me);
    InReceives(c, side.Other(), v.inn, Pos(v.me), Pos(v.peer));
  }

  lemma UnfitReceipt(c: Config, side: Side, p: Player)
    requires MemberStrategies(c) && PlayerOk(c, side, p) && p.status == Running && !ReceivesFittingMove(c, p)
    ensures ActionOf(c, side, p) == Receive(MoveLane(c))
    ensures var awaited := SentAt(c, side.Other(), Awaited(Pos(p)));
            && Waiting(c, side.Other(), Pos(p)) && awaited.Some? && LaneOf(c, awaited.value) == MoveLane(c)
            && !PlayerOk(c, side, OnReceive(c, side, p, awaited.value))
            && p.round >= 1 && |p.rolls| >= 2
            && OnReceive(c, side, p, awaited.value) == AfterPeerMove(p, Delivered(c.transport, MoveOf(c, p.round)))
  {
    hide DiceOf, First, Mover, MoveOf, Delivered, HasLegalEffect, ApplyPeerMove, Fits, Enumeration, ViewOf, LogOf,
         Live, Wins, PhaseOf, RoundOf, MoverBoard, EntryOf;
    PosParts(p);
    EightDice(c, p.round);
    OwnTurnIsMover(c, side, p);
    FitIsNeeded(c, side, p);
  }

  ghost predicate AlwaysOnPlan(c: Config, schedule: seq<Side>)
    requires After(c, schedule).Some?
  {
    OnPlan(c, After(c, schedule).value) && (schedule != [] ==> AlwaysOnPlan(c, schedule[..|schedule| - 1]))
  }

  /** Every move received along the way survived the transport. */
  ghost predicate ReceivedMovesFit(c: Config, schedule: seq<Side>)
    requires After(c, schedule).Some?
  {
    schedule != [] ==>
      var k := |schedule| - 1;
      var s := After(c, schedule[..k]).value;
      ReceivedMovesFit(c, schedule[..k]) && ReceivesFittingMove(c, if schedule[k] == A then s.me else s.peer)
  }

  /** Over any schedule, exactly: a match is on plan all along if and only if every move received fits. */
  lemma {:induction false} OnPlanIffMovesFit(c: Config, schedule: seq<Side>)
    requires MemberStrategies(c) && After(c, schedule).Some?
    ensures AlwaysOnPlan(c, schedule) <==> ReceivedMovesFit(c, schedule)
  {
    hide OnPlan, Next, ReceivesFittingMove, MemberStrategies;
    if schedule == [] {
      StartOnPlan(c);
    } else {
      var k := |schedule| - 1;
      var s := After(c, schedule[..k]).value;
      OnPlanIffMovesFit(c, schedule[..k]);
      if AlwaysOnPlan(c, schedule[..k]) {
        OnPlanNext(c, schedule[k], s);
      }
    }
  }

  lemma OnPlanNext(c: Config, side: Side, s: Duo)
    requires MemberStrategies(c) && OnPlan(c, s) && Next(c, side, s).Some?
    ensures OnPlan(c, Next(c, side, s).value) <==> ReceivesFittingMove(c, if side == A then s.me else s.peer)
  {
    hide PlayerOk, LinkOk, Step, ReceivesFittingMove;
    if ReceivesFittingMove(c, if side == A then s.me else s.peer) {
      NextKeepsPlan(c, side, s);
    } else if side == A {
      UnfitStepLeavesPlan(c, A, s);
    } else {
      assert s.Swap().Swap() == s;
      UnfitStepLeavesPlan(c, B, s.Swap());
    }
  }

  lemma ReceiverView(c: Config, side: Side, k: nat)
    requires k >= 1 && Mover(c, k) != side
    ensures ViewOf(c, side, k - 1) == MoverBoard(c, k - 1).Mirror() && ViewOf(c, side, k - 1).Mirror() == MoverBoard(c, k - 1)
    ensures ViewOf(c, side, k) == MoverBoard(c, k)
  {
    hide First, MoverBoard, MoveOf, ViewOf, EntryOf, LogOf;
    ViewIs(c, side, k - 1);
    ViewIs(c, side, k);
    BoardIs(c, k);
  }

  lemma {:induction false} InFlightCount(c: Config, side: Side, lo: nat, hi: nat)
    requires lo <= hi
    ensures |InFlight(c, side, Main, lo, hi)| + |InFlight(c, side, Aside, lo, hi)| <= hi - lo
    ensures hi > lo && OddPhase(hi - 1) ==>
              |InFlight(c, side, Main, lo, hi)| + |InFlight(c, side, Aside, lo, hi)| <= hi - 1 - lo
    decreases hi
  {
    hide DiceOf, First, MoveOf, Mover, PhaseOf, RoundOf;
    if lo < hi {
      InFlightCount(c, side, lo, hi - 1);
    }
  }

  /** At most three messages are under way in either direction. */
  lemma AtMostThreeInFlight(c: Config, s: Duo)
    requires OnPlan(c, s)
    ensures |s.out.main| + |s.out.aside| <= 3 && |s.inn.main| + |s.inn.aside| <= 3
  {
    hide PlayerOk, Pos;
    OneWayBounded(c, A, s.out, Pos(s.me), Pos(s.peer));
    OneWayBounded(c, B, s.inn, Pos(s.peer), Pos(s.me));
  }

  lemma OneWayBounded(c: Config, side: Side, l: Link, pos: nat, peerPos: nat)
    requires LinkOk(c, side, l, Cursor(peerPos), pos)
    requires Caught(c, side.Other(), peerPos, Cursor(pos))
    ensures |l.main| + |l.aside| <= 3
  {
    hide Caught, InFlight, Cursor, PhaseOf, RoundOf;
    LagBounded(c, side.Other(), peerPos, pos);
    FourStepsBack(c, side, Cursor(peerPos), pos, peerPos);
  }

  lemma FourStepsBack(c: Config, side: Side, cursor: nat, pos: nat, peerPos: nat)
    requires cursor == Cursor(peerPos) && pos <= peerPos + 3
    ensures |InFlight(c, side, Main, cursor, pos)| + |InFlight(c, side, Aside, cursor, pos)| <= 3
  {
    hide SentOn, PhaseOf, RoundOf;
    NextPhase(cursor);
    NextPhase(cursor + 1);
    NextPhase(cursor + 2);
    NextPhase(cursor + 3);
    if cursor <= pos {
      InFlightCount(c, side, cursor, pos);
      if pos == cursor + 4 {
        SentBefore(c, side, cursor, pos);
      }
    }
  }

  lemma SentBefore(c: Config, side: Side, cursor: nat, pos: nat)
    requires pos == cursor + 4 && !OddPhase(cursor) && PhaseOf(cursor) < 6
    ensures |InFlight(c, side, Main, cursor, pos)| + |InFlight(c, side, Aside, cursor, pos)| <= 3
  {
    hide SentAt, PhaseOf, RoundOf;
    NextPhase(cursor);
    NextPhase(cursor + 1);
    InFlightHead(c, side, Main, cursor, pos);
    InFlightHead(c, side, Aside, cursor, pos);
    InFlightHead(c, side, Main, cursor + 1, pos);
    InFlightHead(c, side, Aside, cursor + 1, pos);
    InFlightCount(c, side, cursor + 2, pos);
    assert SentAt(c, side, cursor + 1).None? by { OddSendsNothing(c, side, cursor + 1); }
    SentOnce(c, side, cursor);
  }

  lemma OddSendsNothing(c: Config, side: Side, pos: nat)
    requires OddPhase(pos)
    ensures SentAt(c, side, pos).None?
  {
    hide PhaseOf, RoundOf;
  }

  lemma SentOnce(c: Config, side: Side, pos: nat)
    ensures |SentOn(c, side, Main, pos)| + |SentOn(c, side, Aside, pos)| <= 1
  {
    hide SentAt, PhaseOf, RoundOf;
  }

  /**
   The whole match, under every schedule: nobody refuses anything, the two players agree on
   dice, boards and logs, neither runs away from the other, the match goes on until both have
   finished, and then their results are opposite.
   */
  lemma HonestMatch(c: Config, schedule: seq<Side>)
    requires MemberStrategies(c)
    requires After(c, schedule).Some?
    requires c.transport == Channels || FitsThrough(c, Rounds(After(c, schedule).value))
    ensures var s := After(c, schedule).value;
            && s.me.status != Refused && s.peer.status != Refused
            && (s.me.round == s.peer.round ==> s.me.board == s.peer.board.Mirror())
            && (forall i | 0 <= i < |s.me.log| && i < |s.peer.log| :: MirrorEntries(s.me.log[i], s.peer.log[i]))
            && GoodLog(First(c) == A, s.me.log, true) && GoodLog(First(c) == B, s.peer.log, true)
            && |schedule| <= 2 * Pos(s.me) + 3 && |schedule| <= 2 * Pos(s.peer) + 3
            && (s.me.status == Running || s.peer.status == Running ==> Next(c, A, s).Some? || Next(c, B, s).Some?)
            && (s.me.status != Running && s.peer.status != Running ==>
                  || (s.me.status == WonGame && s.peer.status == LostGame)
                  || (s.me.status == LostGame && s.peer.status == WonGame)
                  || (s.me.status == OutOfEntropy && s.peer.status == OutOfEntropy))
  {
    hide Half, After, MirrorEntries, GoodLog, Fits, Next, Pos, Live;
    var s := After(c, schedule).value;
    if c.transport == Channels {
      TransportsFit(c, Rounds(s));
    }
    EveryRunOnPlan(c, schedule);
    NobodyRefuses(c, s);
    LogsAgree(c, s);
    LogsAreLegalGames(c, s);
    Together(c, s);
    if s.me.round == s.peer.round {
      PlayersAgree(c, s);
    }
    if s.me.status == Running || s.peer.status == Running {
      NoDeadlock(c, s);
    } else {
      OppositeResults(c, s);
    }
  }

  lemma Together(c: Config, s: Duo)
    requires OnPlan(c, s)
    ensures Pos(s.me) <= Pos(s.peer) + 3 && Pos(s.peer) <= Pos(s.me) + 3
  {
    hide PlayerOk, Caught, InFlight, Cursor, Pos, PhaseOf, RoundOf;
    LagBounded(c, A, Pos(s.me), Pos(s.peer));
    LagBounded(c, B, Pos(s.peer), Pos(s.me));
  }
}
