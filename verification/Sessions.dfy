/**
 Two sessions that play each other, taken as what each may end with: whatever their strategies,
 as long as they choose among their moves, they play one game.
 */
module Sessions {
  import opened Boards
  import opened Convert
  import opened Game
  import opened GameMagnitude
  import opened Moves
  import opened Plan

  /** A session that has stopped: how it was set up, and what came of it. */
  datatype Ended = Ended(goFirst: bool, strategy: Strategy, start: Supplies, result: PlayResult,
                         log: seq<GameLogEntry>, outbox: seq<Move>)

  ghost predicate HasPlayed(x: Ended) {
    ChoosesMember(x.strategy) && Played(x.goFirst, x.strategy, x.start, x.result, x.log, x.outbox)
  }

  function AllDelivered(t: Transport, moves: seq<Move>): seq<Move> {
    seq(|moves|, i requires 0 <= i < |moves| => Delivered(t, moves[i]))
  }

  /** What `x` could receive is the beginning of what `y` sent, as it is delivered. */
  predicate Hears(t: Transport, x: Ended, y: Ended) {
    x.start.inbox <= AllDelivered(t, OwnMoves(y.log))
  }

  predicate OwnMovesFit(t: Transport, x: Ended) {
    t == Stream ==> forall m | m in OwnMoves(x.log) :: FitsWire(m)
  }

  /** Two sessions at opposite ends, with the same dice for as long as both have any. */
  ghost predicate Opponents(t: Transport, x: Ended, y: Ended) {
    && HasPlayed(x) && HasPlayed(y) && x.goFirst != y.goFirst
    && (x.start.rolls <= y.start.rolls || y.start.rolls <= x.start.rolls)
    && Hears(t, x, y) && Hears(t, y, x) && OwnMovesFit(t, x) && OwnMovesFit(t, y)
  }

  lemma OpponentsBothWays(t: Transport, x: Ended, y: Ended)
    requires Opponents(t, x, y)
    ensures Opponents(t, y, x)
  {
  }

  /** In an alternating log the number of moves says how many are own ones. */
  lemma {:induction false} MovesCounted(goFirst: bool, log: seq<GameLogEntry>)
    requires Alternates(goFirst, log)
    ensures |OwnMoves(log)| == OwnCount(goFirst, |log|) && |PeerMoves(log)| == PeerCount(goFirst, |log|)
  {
    if log != [] {
      PrefixAlternates(goFirst, log, |log| - 1);
      MovesCounted(goFirst, log[..|log| - 1]);
    }
  }

  /** What is known of entry `k` of a session's log. */
  lemma EntryKnown(x: Ended, k: nat)
    requires HasPlayed(x) && k < |x.log|
    ensures var e := x.log[k];
            && LegalEntry(e) && e.isPeer == PeerMovesAt(x.goFirst, k)
            && e.fromState == BoardAfter(x.log[..k]) && e.state == Effect(e) && e.fromState.Undecided()
            && k < |x.start.rolls| && e.rolls == (x.start.rolls[k].0, x.start.rolls[k].1)
    ensures x.log[k].isPeer ==>
              PeerCount(x.goFirst, k) < |x.start.inbox| && x.log[k].move == x.start.inbox[PeerCount(x.goFirst, k)]
    ensures !x.log[k].isPeer ==>
              OwnCount(x.goFirst, k) < |OwnMoves(x.log)| && x.log[k].move == OwnMoves(x.log)[OwnCount(x.goFirst, k)]
  {
    hide LegalEntry, Effect, BoardAfter, Chooses, ChoosesMember, OwnMoves, PeerMoves, PeerMovesAt, OwnCount, PeerCount, Stops;
    EntryOfLog(x.goFirst, x.strategy, x.start, x.log, k);
    PrefixAlternates(x.goFirst, x.log, k);
    MovesCounted(x.goFirst, x.log[..k]);
    if !x.log[k].isPeer {
      OwnMovesPrefix(x.log, k);
    }
  }

  /** A move and its delivery: the two entries mirror each other. */
  lemma DeliveryMirrors(t: Transport, e: GameLogEntry, e': GameLogEntry)
    requires LegalEntry(e) && e.state == Effect(e) && e'.state == Effect(e') && !e.isPeer && e'.isPeer
    requires e.fromState == e'.fromState.Mirror() && e.rolls == e'.rolls
    requires e'.move == Delivered(t, e.move) && (t == Stream ==> FitsWire(e.move))
    ensures MirrorEntries(e, e') && MirrorEntries(e', e)
  {
    hide HasLegalEffect, ApplyMove, ApplyPeerMove, OverTheWire, FitsWire;
    DeliveredEffect(t, e.fromState, e.rolls.0, e.rolls.1, e.move);
    SameEffectSameBoard(e'.fromState, e'.move, e.move);
    ReplicasStayMirrored(e.fromState, e.move);
    assert e'.fromState.Mirror().Mirror() == e'.fromState;
    assert e'.state.Mirror().Mirror() == e'.state;
  }

  lemma DeliveredEffect(t: Transport, b: Board, d1: int, d2: int, m: Move)
    requires HasLegalEffect(b, d1, d2, m) && (t == Stream ==> FitsWire(m))
    ensures SameEffect(Delivered(t, m), m) && SameEffect(m, Delivered(t, m)) && HasLegalEffect(b, d1, d2, Delivered(t, m))
  {
    hide Legal, FitsWire, OverTheWire;
    WireKeepsMove(b, d1, d2, m);
  }

  /** As far as both logs go they are each other's mirror image. */
  lemma {:induction false} LogsMirrorEachOther(t: Transport, x: Ended, y: Ended, k: nat)
    requires Opponents(t, x, y) && k <= |x.log| && k <= |y.log|
    ensures BoardAfter(x.log[..k]) == BoardAfter(y.log[..k]).Mirror()
    ensures forall i | 0 <= i < k :: MirrorEntries(x.log[i], y.log[i])
  {
    hide Opponents, MirrorEntries;
    if k > 0 {
      LogsMirrorEachOther(t, x, y, k - 1);
      NextEntriesMirror(t, x, y, k - 1);
      BoardAfterEntry(x.log, k - 1);
      BoardAfterEntry(y.log, k - 1);
      assert MirrorEntries(x.log[k - 1], y.log[k - 1]) ==> x.log[k - 1].state == y.log[k - 1].state.Mirror() by {
        StatesMirror(x.log[k - 1], y.log[k - 1]);
      }
    }
  }

  lemma StatesMirror(e: GameLogEntry, e': GameLogEntry)
    ensures MirrorEntries(e, e') ==> e.state == e'.state.Mirror()
  {
  }

  lemma BoardAfterEntry(log: seq<GameLogEntry>, k: nat)
    requires k < |log|
    ensures BoardAfter(log[..k + 1]) == log[k].state
  {
  }

  lemma NextEntriesMirror(t: Transport, x: Ended, y: Ended, k: nat)
    requires Opponents(t, x, y) && k < |x.log| && k < |y.log|
    requires BoardAfter(x.log[..k]) == BoardAfter(y.log[..k]).Mirror()
    ensures MirrorEntries(x.log[k], y.log[k])
  {
    hide HasPlayed, MirrorEntries, LegalEntry, Effect, BoardAfter, OwnMoves, Delivered, FitsWire;
    EntryKnown(x, k);
    EntryKnown(y, k);
    var b := BoardAfter(y.log[..k]);
    assert b.Mirror().Mirror() == b;
    if x.log[k].isPeer {
      DeliveryMirrors(t, y.log[k], x.log[k]);
    } else {
      DeliveryMirrors(t, x.log[k], y.log[k]);
    }
  }

  /** Neither log runs ahead of the other by more than the move just made. */
  lemma LogsKeepUp(t: Transport, x: Ended, y: Ended)
    requires Opponents(t, x, y)
    ensures |x.log| <= |y.log| + 1
  {
    hide ChoosesMember, Chosen, Replays, Stops, RollsOf, OwnMoves, PeerMoves;
    MovesCounted(x.goFirst, x.log);
    MovesCounted(y.goFirst, y.log);
  }

  /** What the other side sent is never refused, and there is always a move to make. */
  lemma NothingRefused(t: Transport, x: Ended, y: Ended)
    requires Opponents(t, x, y)
    ensures x.result != GameError(InvalidMove) && x.result != GameError(NoValidMoves)
  {
    hide GoodLog, Chosen, ChoosesMember, HasLegalEffect, CanMove, OwnMoves, PeerMoves;
    PlayedNeverStuck(x.goFirst, x.strategy, x.start, x.result, x.log, x.outbox);
    if x.result == GameError(InvalidMove) {
      NextMoveAccepted(t, x, y);
    }
  }

  /** If the next move is there to be received, it is the other side's next entry, and it has a legal effect. */
  lemma NextMoveAccepted(t: Transport, x: Ended, y: Ended)
    requires Opponents(t, x, y)
    requires var n := |x.log|; PeerMovesAt(x.goFirst, n) && n < |x.start.rolls| && |PeerMoves(x.log)| < |x.start.inbox|
    ensures var n := |x.log|;
            HasLegalEffect(BoardAfter(x.log).Mirror(), x.start.rolls[n].0, x.start.rolls[n].1, x.start.inbox[|PeerMoves(x.log)|])
  {
    hide HasLegalEffect, OwnMoves, PeerMoves, BoardAfter, Delivered, FitsWire, MirrorEntries, ChoosesMember, Chosen,
         Replays, Stops, Effect, RollsOf, Alternates;
    var n := |x.log|;
    MovesCounted(x.goFirst, x.log);
    MovesCounted(y.goFirst, y.log);
    assert n < |y.log|;
    EntryKnown(y, n);
    LogsMirrorEachOther(t, x, y, n);
    assert x.log[..n] == x.log;
    var e := y.log[n];
    var b := e.fromState;
    assert b.Mirror().Mirror() == b;
    DeliveredEffect(t, b, e.rolls.0, e.rolls.1, e.move);
  }

  /** A decided log is the longer one, or as long. */
  lemma DecidedIsLonger(t: Transport, x: Ended, y: Ended)
    requires Opponents(t, x, y) && x.result.Finished?
    ensures |y.log| <= |x.log|
  {
    hide ChoosesMember, Chosen, OwnMoves, PeerMoves, MirrorEntries, Alternates, LegalEntry, RollsOf, GoodLog;
    if |x.log| < |y.log| {
      LogsMirrorEachOther(t, x, y, |x.log|);
      assert x.log[..|x.log|] == x.log;
      EntryKnown(y, |x.log|);
    }
  }

  /**
   Two sessions, one going first, with any strategies that choose among their moves, the same dice,
   and each hearing what the other sends: their logs are each other's mirror image as far as both
   go and as long to within one move, neither ever finds a move invalid or has none, and if both
   finish they finish on the same move, one winning and the other losing.
   */
  lemma SessionsAgree(t: Transport, x: Ended, y: Ended)
    requires Opponents(t, x, y)
    ensures forall i | 0 <= i < |x.log| && i < |y.log| :: MirrorEntries(x.log[i], y.log[i])
    ensures |x.log| <= |y.log| + 1 && |y.log| <= |x.log| + 1
    ensures x.result !in {GameError(InvalidMove), GameError(NoValidMoves)}
    ensures y.result !in {GameError(InvalidMove), GameError(NoValidMoves)}
    ensures x.result.Finished? && y.result.Finished? ==> |x.log| == |y.log| && x.result.win != y.result.win
    ensures LegalGame(x.log) && LegalGame(y.log)
  {
    hide Opponents, MirrorEntries;
    OpponentsBothWays(t, x, y);
    LogsMirrorEachOther(t, x, y, if |x.log| <= |y.log| then |x.log| else |y.log|);
    LogsKeepUp(t, x, y);
    LogsKeepUp(t, y, x);
    NothingRefused(t, x, y);
    NothingRefused(t, y, x);
    if x.result.Finished? && y.result.Finished? {
      DecidedIsLonger(t, x, y);
      DecidedIsLonger(t, y, x);
      ResultsOpposite(t, x, y);
    }
    LogIsLegal(t, x, y);
    LogIsLegal(t, y, x);
  }

  lemma LogIsLegal(t: Transport, x: Ended, y: Ended)
    requires Opponents(t, x, y)
    ensures LegalGame(x.log)
  {
    hide ChoosesMember, Chosen, Stops, LegalGame;
    GoodLogIsLegalGame(x.goFirst, x.log);
  }

  lemma ResultsOpposite(t: Transport, x: Ended, y: Ended)
    requires Opponents(t, x, y) && x.result.Finished? && y.result.Finished? && |x.log| == |y.log|
    ensures x.result.win != y.result.win
  {
    hide ChoosesMember, Chosen, LegalEntry, BoardAfter, OwnMoves, PeerMoves, Replays, RollsOf;
  }

  /** Over a stream nothing needs to be assumed of games of up to eight moves. */
  lemma ShortGamesFit(t: Transport, x: Ended)
    requires HasPlayed(x) && |x.log| <= 8
    ensures OwnMovesFit(t, x)
  {
    hide ChoosesMember, Chosen, Stops, LegalGame, FitsWire, LegalEntry, OwnMoves;
    GoodLogIsLegalGame(x.goFirst, x.log);
    forall m | m in OwnMoves(x.log)
      ensures FitsWire(m)
    {
      var i := OwnMoveLogged(x.log, m);
      FirstMovesFitWire(x.goFirst, x.log, i);
    }
  }

  lemma {:induction false} OwnMoveLogged(log: seq<GameLogEntry>, m: Move) returns (i: nat)
    requires m in OwnMoves(log)
    ensures i < |log| && log[i].move == m
  {
    var k := |log| - 1;
    i := k;
    if log[k].isPeer || log[k].move != m {
      i := OwnMoveLogged(log[..k], m);
    }
  }
}
