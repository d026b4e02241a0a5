# ztg: the FactorFight game, its dice and its signed stream, modelled and proved

ztg lets two machines that do not trust each other play FactorFight. Each keeps its own copy of
a board with four pawns. Dice are rolled together by commitment and reveal, moves are chosen
locally and checked by the other side against its own enumeration, and on a network every
message travels signed, numbered and chained to the hash of the one before.

This project models those four layers and proves what makes them work together. The main results:

- **One match, two players, any schedule** (`Match.HonestMatch`). Two honest players step in
  any order, over capacity-1 channels or over a stream. Nobody ever refuses anything, the dice
  are equal, the boards are mirror images, the logs are legal games that mirror each other
  entry by entry, somebody can always go on, and if both end they end with opposite results.
- **The same under envelopes** (`Wire.WireMatch`). With numbered, hash-chained envelopes and an
  expiring chain entry at each receiver, the match runs without a refusal exactly when no read
  comes later than the previous entry lasts, and is then the bare match step for step.
- **Against any peer** (`Game.Session.Play`, `Exchange.CommitBeforeReveal`,
  `Exchange.PeerIsBound`). Whatever arrives, the log of a game is that of a legal game, and the
  game stops only for the reason given; a secret goes out only after a commitment has come in,
  and a peer cannot choose its secret afterwards.
- **Two sessions** (`Sessions.SessionsAgree`). Whatever two runs of `Play` end with, one going
  first, with any strategies that choose among their moves, the same dice, and each hearing what
  the other sends: the logs mirror each other, no move is found invalid, and if both finish they
  finish on the same move with opposite results.
- **The match is the code playing** (`Solo.PlayKeepsToPlan`, `Solo.PlayersPlay`,
  `Solo.RollsAreExchanges`). Given what an honest peer delivers, the session's own loop can only
  return the log and the result that the match's player has, for every strategy, and a roll in
  the match is the exchange of the dice code.
- **The engine** (`Completeness.MovesComplete`, `Boards.NoBumpLost`, `Boards.SoundKept`). The
  enumeration offers exactly the results the rules allow, its pruning loses none, and the one
  bump status per pawn carries out the bump rule on every board a game can reach.
- **Caches** (`Verifier.AcceptedKeyIsRecent`, `IdentityCache.CacheRefinesTimedMap`,
  `IdentityCache.StoreIsSafeIffNothingPending`). Whatever identities do meanwhile, an accepted
  signature is by a key known for the signer's address no longer ago than the time to live; alone
  the cache is a timed map, and shared it loses an entry only under an exact condition.

## How to read it

| file | what is in it |
|---|---|
| `MachineInts`, `Bytes`, `Options` | 64-bit wrap-around, bytes and hashes, `Option` |
| `Moves`, `Completeness`, `Magnitude` | move enumeration; what it is worth; how far pawns get |
| `Boards`, `Game`, `GameMagnitude`, `ClosestMove` | boards and bumps; state, log and play; bounds over a game; default strategy |
| `Sessions` | what two sessions playing each other can end with |
| `Dice`, `Exchange`, `Messages` | extraction and confirmation; the roll protocol; the 33-byte stream form |
| `Convert`, `Plan`, `Match` | wire forms; the game two honest players will have; the step system that keeps to it |
| `Solo`, `Overflow` | the session alone does what the plan says; a match the wire form breaks |
| `Chain`, `Ordered`, `Wire` | hash chain; ordered messages; the match under envelopes |
| `IdentityCache`, `PeerStore`, `Verifier` | the expiring cache, alone and concurrent; the store behind it; verification of messages |

What the source updates in place is a class (`State`, `Session`, `Roller`, `Connection`,
`Reader`, `HashChain`, `HashChainManager`, `Sender`, `IdentityCacheManager`, `Store`, `Verifier`) whose
methods are tied to functions and predicates; the results over runs are about those. What such a
function computes is in turn stated outright, in numbers and without its own name, by a lemma
beside it (`Boards.StatusesOutright`, `Dice.DiceByWords`, `Exchange.DiceComeFromBothSecrets`,
`Ordered.VerdictsOutright` and others). The step system in `Match` is a second account of the
session and of a roll; `Solo` ties it to the first, against honest and against arbitrary peers.

Choices that matter:

- Go's `int` is taken as 64 bits wide, and `Eval` wraps around explicitly. Nothing is assumed
  about overflow: for nine moves of each player it cannot occur (`GameMagnitude.ArithmeticExact`),
  with the tenth it can (`GameMagnitude.TenthMoveMayWrap`).
- SHA-256 is an arbitrary function to 32 bytes. Nothing assumes it injective: where a result
  rests on collision resistance, it ends in "or here are two inputs with the same hash".
- Ed25519 verification is an arbitrary predicate, marshalling an arbitrary function of the message.
- Clock readings, random secrets, stored or remote identities and delivery are parameters.
- A strategy is a function of the board, the log and the enumeration, in the order in which the
  code lists it. The log tells the turns apart, so what a random strategy will draw can be fixed
  beforehand. In a match each side has its own.

Where the code and its own comments differ, the model follows the code:

- `ClosestMoveStrategy` says it always picks the move closest to the goal
  (factorfight/strategy.go:13, 18). It keeps the last move that improves on either pawn. On an
  opening roll of 1, 1 it takes both pawns to 1 when either could go to 2
  (`ClosestMove.NotAlwaysClosest`). `ClosestMove.ClosestPawnIff` and `ClosestMove.ChooseMove` say
  exactly when its pick has the pawn closest to the goal, and when it beats all others on both.
- The second player logs two peer turns as turn 0 (factorfight/game.go:234, 259), so turn
  numbers are not mirrored; `Game.Alternates` and `Plan.MirrorEntries` state exactly what is.
- The wire form narrows results to 32 bits. The first four moves of each player always survive
  (`GameMagnitude.FirstMovesFitWire`); the fifth need not (`GameMagnitude.FifthMoveMayNotFit`),
  and then the receiver cannot end with the mirrored board (`Match.FitIsNeeded`). A match stays on
  plan exactly when every move received fits (`Match.OnPlanIffMovesFit`), and there is an
  honest match in which the second player refuses a legal move (`Overflow.LegalMoveRefused`).
- One bump status per pawn loses a bump on a board where the peer's two pawns share a square
  off 0 and 101 (`Boards.NoBumpLost`); no game reaches such a board (`Game.LegalGameSound`).
- `IdentityCacheManager.Get` and `GetWithAddressCheck` give up their lock before they delete, so a
  concurrent `Set` can be undone (`IdentityCache.FreshEntryCanBeLost`), exactly when a deletion for
  the address is outstanding at that moment (`IdentityCache.StoreIsSafeIffNothingPending`).

## Model

| member | source | states |
|---|---|---|
| Moves.PawnMovesOneDie | factorfight/move.go:123-140 | The candidates for one die are exactly `start op die` for the four operators, where defined and not past the goal, each with its value, in the order of the operators |
| Moves.PawnMovesTwoDice | factorfight/move.go:142-198 | The nested loops yield exactly the unpruned expressions of both shapes, over both orders of the dice, that evaluate to at most 101, in the order of `PawnList` |
| Moves.PawnMoves | factorfight/move.go:228-239 | Whatever the number of dice, the list is exactly the candidates the rules describe; none for more than two dice |
| Moves.GenerateMoves | factorfight/move.go:241-294 | The result is the list `MoveList`, order and repetitions included; a move is on it exactly when some allocation of the dice gives both pawns a candidate, one pawn moves, none passes the goal, and the statuses come out of the overwriting order |
| Moves.PawnListMember | factorfight/move.go:116-239 | The ordered list of a pawn's candidates holds exactly what the rules describe, for any number of dice |
| Moves.MoveListMember | factorfight/move.go:241-294 | The ordered list of moves holds exactly the moves the rules describe |
| Moves.OneDieOrder | factorfight/move.go:123-140 | The forms for one die are plus, minus, times, divided by, in this order |
| Moves.TwoDiceOrder | factorfight/move.go:142-198 | The forms for two dice outright: for each first operator, for each second one, the left-nested form and then, unless pruned, the right-nested one |
| Moves.AllocationOrder | factorfight/move.go:205-294 | The list is both dice for the second pawn, both for the first, one each, one each the other way, a pawn on 101 getting none |
| Completeness.DivisionIsExact | factorfight/move.go:95-99 | Division is defined exactly when an integer quotient exists, and yields it, negative operands included |
| Completeness.PruningLosesNothing | factorfight/move.go:169-177 | Every skipped right-nested form has the value of some left-nested form that is tried, in wrap-around arithmetic |
| Completeness.PawnMovesComplete | factorfight/move.go:123-239 | From at most 101, the results on offer are exactly the values at most 101 of any expression of either nesting, pruned or not |
| Completeness.PawnMoveSound | factorfight/move.go:142-198 | A candidate's expression has the pawn's square first and then each allocated die exactly once, and evaluates to its result, at most 101 |
| Completeness.AllocationsComplete | factorfight/move.go:205-226 | Every way of dealing both dice out to the two pawns, an arrived pawn getting none, is one of the four listed up to the order of two dice |
| Completeness.MovesComplete | factorfight/move.go:205-294 | A pair of results is on offer exactly when some allocation reaches it, none passes the goal and some pawn moves |
| Completeness.NeverStuck | factorfight/move.go:205-294 | For dice 1 to 10 and pawns at most 101, there is a move exactly when the two pawns are not both home |
| Boards.ReplicasStayMirrored | factorfight/game.go:125-172 | The peer's update of a mirrored board is the mirror image of the mover's own update, for every move whatever its statuses |
| Boards.LegalFacts | factorfight/move.go:250-283 | What any move with the effect of a generated one satisfies: results at most 101, some pawn moves, arrived pawns stay, statuses as detected |
| Boards.StatusesOutright | factorfight/move.go:260-283 | The two statuses of a legal move, outright: which of the other three pawns each result lands on, off 101, with the second peer pawn overriding the first and the own pawn overriding both |
| Boards.MoveOutright | factorfight/game.go:125-147 | Each of the four squares after a move with any statuses |
| Boards.DecidedAt101 | factorfight/game.go:174-180 | Won and lost mean both pawns of a side on 101 |
| Boards.NoBumpLost | factorfight/move.go:260-283 | Carrying out the two statuses is the bump rule, every pawn landed on off the goal goes to 0 and no other moves, if and only if the peer's pawns do not share the square landed on (off 0) |
| Boards.SoundKept | factorfight/game.go:125-147 | A move with the effect of a generated one keeps pawns apart except on 0 and 101, keeps all within range, and sends home exactly the pawns landed on off 101 |
| Boards.GoalIsAbsorbing | factorfight/game.go:125-147 | A move keeps the mover's arrived pawns home and neither bumps nor brings home a pawn of the peer |
| Boards.MoverNeverStuck | factorfight/move.go:205-294 | On a sound board a player has a move, for all dice 1 to 10, exactly when its pawns are not both on 101 |
| Boards.OpeningCannotWin | factorfight/game.go:233-241 | No first move leaves a decided board, so the missing `Lose` check after the opening peer turn is harmless |
| Magnitude.PawnBounded | factorfight/move.go:73-103 | One pawn move with dice 1 to 10 multiplies the distance from 0 at most by 100 (up to small sums), without overflow if 100 times the distance fits |
| Magnitude.MoveStep | factorfight/move.go:142-198 | If both pawns were reachable after k own moves (k < 9), the results are reachable after k + 1, and every expression's 64-bit value is its exact value |
| GameMagnitude.BoardsBounded | factorfight/game.go:230-273 | Over any legal game of at most 18 entries, after k own moves each pawn is 0 or within [-100^k, 101], for both players |
| GameMagnitude.ArithmeticExact | factorfight/move.go:73-103 | In any legal game the expressions of each player's first nine moves evaluate exactly |
| GameMagnitude.FirstMovesFitWire | server/factorfight/convert.go:11-40 | In any legal game the first four moves of each player pass the int32 form unchanged |
| GameMagnitude.BoundIsReached | factorfight/move.go:142-198 | The bound is sharp: for every k up to 9 there is a legal game whose k-th own move lands on -100^k |
| GameMagnitude.FifthMoveMayNotFit | server/factorfight/convert.go:14 | There is a legal game whose ninth entry, a fifth own move, does not survive the int32 form |
| GameMagnitude.TenthMoveMayWrap | factorfight/move.go:88-94 | There is a legal game whose nineteenth entry, a tenth own move, has an expression whose 64-bit value is not its exact value |
| Game.State.Move | factorfight/game.go:125-147 | Positions become the results, then the first and the second status are carried out; the log is untouched |
| Game.State.PeerMove | factorfight/game.go:150-172 | The same for the peer's pawns |
| Game.State.AddGameLogEntry | factorfight/game.go:81-122 | Appends one entry with the board now, the board the move leads to, the dice and the player; the board itself does not change |
| Game.ValidateMove | factorfight/game.go:326-341 | Accepts exactly the moves with the effect of some move open to the peer; "no valid moves" exactly when the peer has none |
| Game.Session.TakeTurn | factorfight/game.go:297-324 | Without dice or moves nothing changes and the error says which; otherwise one entry, for what the strategy picks when shown that board, that log and the enumeration in its order, with the dice rolled; it goes out unless the send fails |
| Game.Session.OtherTurn | factorfight/game.go:275-295 | Logs and makes the next received move exactly when it has a legal effect for the next dice; otherwise board and log stay and the error says what was missing or wrong |
| Game.Session.Play | factorfight/game.go:230-273 | Whatever comes in: the log replays from the empty board, alternates, holds exactly the dice and moves that came in and the strategy's choices, with legal peer moves on undecided boards; the game stops only when its last entry decides it, the next turn is blocked by what comes in next, or the last own move could not be sent; what went out is the own moves |
| Game.PlayedNeverStuck | factorfight/game.go:307-310 | With a member-choosing strategy no game ever stops for want of a move |
| Game.TurnsOutright | factorfight/game.go:230-273 | Which entries of a log are the peer's and what their turn numbers are, for the player going first and for the second one with its two turns 0 |
| Game.Session.RollInitiative | factorfight/game.go:343-359 | One roll is used; the high side goes first exactly on 6 to 10, the low side exactly on 1 to 5 |
| Game.InitiativeIsFair | factorfight/game.go:343-359 | Each side goes first on five of the ten faces |
| Game.Session.PlayWithInitiative | factorfight/game.go:220-228 | A failed initiative roll ends it; otherwise it is a game with the turn order the roll gives and the dice that come after |
| Game.LegalGameSound | factorfight/game.go:230-273 | On every board of a legal game any two pawns on one square are on 0 or 101, no pawn is past 101, and it is never both won and lost |
| Game.GoalIsForever | factorfight/game.go:125-172 | In a legal game a pawn that is home at some point is home at every later point, on either side |
| Game.GoodLogNeverStuck | factorfight/game.go:307-310 | After any good log of an undecided game, either side has a move for all dice 1 to 10 |
| Game.GoodLogIsLegalGame | factorfight/game.go:230-324 | What `Play` logs with a member-choosing strategy is a legal game |
| ClosestMove.ChooseMove | factorfight/strategy.go:19-30 | Returns the pick of the list, a member that no later move betters on either pawn, and that beats the whole list on both pawns exactly when some move does |
| ClosestMove.PickCovers | factorfight/strategy.go:19-30 | The pick gets each pawn at least as far as any move that nothing after it betters |
| ClosestMove.ClosestPawnIff | factorfight/strategy.go:18-30 | The pick has a pawn closest to the goal if and only if some move on the list has one and is bettered, on either pawn, by no later move |
| ClosestMove.DefaultChoosesMember | factorfight/strategy.go:5-30 | The default strategy always chooses a member of its list, so all that is proved of such strategies holds of it |
| ClosestMove.NotAlwaysClosest | factorfight/strategy.go:13-30 | On the opening board with dice 1, 1, shown the enumeration in its order, the default strategy takes both pawns to 1 while the list has moves taking either pawn to 2 |
| Dice.NewRoller | dice/roller.go:41-52 | More than 20 sides is an error, 0 sides a division by zero, anything else a roller of that many sides |
| Dice.Roller.Roll | dice/roller.go:172-194 | The loop returns the first eight faces among the 16 big-endian words below the limit, and nothing exactly when fewer than eight words are below it |
| Dice.DiceByWords | dice/roller.go:172-194 | A digest gives dice exactly when eight of its words are below the limit; they come from the first eight such words, in order, and each is what is left of its word after whole rounds of the sides, plus one |
| Dice.WordIsBigEndian | dice/roller.go:181 | A word is 256 times its first byte plus its second |
| Dice.LimitIsLargestMultiple | dice/roller.go:48 | The limit is the largest multiple of the sides that is at most 65535 |
| Dice.Roller.EncodeRolls | dice/roller.go:197-202 | The buffer holds the rolls as big-endian words, zeros after them |
| Dice.FacesAreFair | dice/roller.go:183-186 | For every number of sides up to 65535, each face has exactly limit / sides preimages among the accepted words, and the limit is a positive multiple of the sides |
| Dice.ExtractInRange | dice/roller.go:172-194 | A completed extraction has exactly eight dice, each from 1 to sides |
| Dice.FacesPrefix | dice/roller.go:180-187 | Reading on only appends: the dice from the first j words are a prefix of those from more words |
| Dice.ConfirmationReadsBack | dice/roller.go:197-202 | Every word of the confirmation reads back as the die put there |
| Dice.ConfirmationInjective | dice/roller.go:196-222 | Equal confirmations of equally many rolls mean equal rolls |
| Dice.GetOutright | dice/roller.go:95-117 | One to eight dice can be asked for, and no more than there are; what comes is the first ones |
| Dice.GetAgrees | dice/roller.go:95-117 | The first n and the first m dice of a roll agree as far as both go |
| Bytes.CompareAntisymmetric | dice/roller.go:150-153 | Lexicographic comparison is antisymmetric and zero only on equal secrets |
| Bytes.CompareIsLexicographic | dice/roller.go:150-153 | Of two secrets the one not above the other is equal to it, or lower in the first byte in which they differ |
| Exchange.SharedSumSymmetric | dice/roller.go:150-156 | Both sides hash the same bytes, whoever's secret is whose |
| Exchange.DiceComeFromBothSecrets | dice/roller.go:150-158 | Past the exchange, the dice are those of the digest of the roll label, spelled out, and the two secrets, the lower one first |
| Exchange.SumDeterminesSecrets | dice/roller.go:150-156 | Equal digests to take dice from mean the same two secrets, or two named inputs collide |
| Exchange.MessagesOutright | dice/roller.go:64-68 | The type bytes 1, 2, 3 of the three messages, and that a commitment is the digest of its label and the secret |
| Exchange.StartExchange | dice/roller.go:232-311 | A peer secret is returned exactly when a commitment and then a secret that it commits to arrived; each failure says what was missing and what had been sent by then |
| Exchange.ConfirmRoll | dice/roller.go:196-222 | Sends the confirmation and succeeds exactly when an equal confirmation comes back |
| Exchange.RollWithPeer | dice/roller.go:127-170 | Against any peer, the messages sent and received, in order, and the outcome are those of the protocol |
| Exchange.CommitBeforeReveal | dice/roller.go:237-272 | Whatever the peer sends, the secret goes out only after a commitment has been received |
| Exchange.PastExchange | dice/roller.go:265-311 | A run goes on past the exchange exactly when the secret received opens the commitment received |
| Exchange.PeerIsBound | dice/roller.go:265-311 | Two runs that saw the same commitment and got past the exchange, with any own secrets and however they went on, accepted the same peer secret, or two inputs with equal hash are exhibited |
| Exchange.HonestPeersAgree | dice/roller.go:127-170 | Two honest peers, each receiving what the other sends, get the same outcome: the same eight dice, or both too little entropy |
| Exchange.ConfirmedMeansEqual | dice/roller.go:196-222 | Against arbitrary peers, if each side received the confirmation the other sent and both completed, their rolls are equal |
| Messages.Reader.ReadMessage | dice/message.go:52-67 | Consumes the type byte and, if the type is known, 32 data bytes; each short or unknown input is its own error |
| Messages.ReadTakes | dice/message.go:52-67 | A read succeeds exactly on 33 bytes of which the first is 1, 2 or 3, and what each kind of read leaves of the stream |
| Messages.ParsedReserializes | dice/message.go:52-74 | A parsed message serialises to the very bytes consumed and has a known type |
| Messages.StreamRoundTrip | dice/message.go:52-74 | Reading the concatenated bytes of any list of messages returns that list and leaves nothing, exactly when all types are known |
| Convert.WireKeepsMove | server/factorfight/convert.go:11-40 | A legal move keeps its effect across the wire exactly when both results fit 32 bits; its bump statuses always survive |
| Convert.WireAgreement | server/factorfight/convert.go:11-40 | Receiver and sender end with mirrored boards exactly when the results fit 32 bits |
| Convert.DiceWireRoundTrip | server/factorfight/convert.go:42-60 | A dice message survives the protobuf form; the way back is lossless exactly for types 0 to 255 with 32 bytes |
| Convert.WireOutright | server/factorfight/convert.go:11-40 | Of any move the low 32 bits of each result arrive, and no expression |
| Convert.BumpCodes | factorfight/move.go:15-20 | The four statuses are sent as 0, 1, 2, 3 |
| Convert.FieldsOutright | server/factorfight/convert.go:11-60 | Which field carries which part of a move and of a dice message |
| Plan.RoundIsLegal | factorfight/game.go:230-324 | In every round of a game of two honest players the mover has a move, the one its strategy picks is legal, and the boards stay sound and undecided until someone wins |
| Plan.FirstMoveNeverWins | factorfight/game.go:233-241 | The first move of a game never decides it |
| Plan.DeliveredMoveAccepted | factorfight/game.go:326-341 | A legal move that survives the transport passes the receiver's validation and leads it to the mirrored board |
| Plan.UnfitIsNotMirrored | server/factorfight/convert.go:11-40 | A delivered legal move is accepted and leads to the mirrored board only if it survived the transport |
| Plan.LogsMirror | factorfight/game.go:81-122 | The two players' logs agree entry by entry with sides swapped, dice and results equal |
| Plan.EarlyRoundsFit | server/factorfight/convert.go:11-40 | The first eight rounds of every game survive the wire |
| Match.NextKeepsPlan | dice/roller.go:232-289 | Every step of either player keeps both local states and both directions where the plan has them |
| Match.EveryRunOnPlan | factorfight/game.go:221-324 | After any schedule both players and all packets in flight are on plan; packets are neither lost, repeated nor out of order |
| Match.TransportsFit | dice/channel_peer.go:13-31 | Over channels every move survives, over a stream those of the first eight rounds do |
| Match.PlayersAgree | factorfight/game.go:230-324 | In the same round the two boards are mirror images, the turn order is opposite and the dice in use are equal |
| Match.LogsAgree | factorfight/game.go:81-122 | At every point the logs differ in length by at most one and mirror each other as far as both go |
| Match.LogsAreLegalGames | factorfight/game.go:230-324 | At every point each log is that of a legal game, with that player's numbering |
| Match.NoDeadlock | factorfight/channel_peer.go:18-34 | While a player is unfinished some step is possible: never both waiting on empty queues, nor blocked on full capacity-1 channels |
| Match.AtMostThreeInFlight | dice/channel_peer.go:13-31 | At most three packets are ever under way in one direction |
| Match.LanesKept | factorfight/channel_peer.go:18-34 | Over any schedule a channel holds at most one packet, moves and dice apart, and a stream carries all packets on one lane |
| Match.OppositeResults | factorfight/game.go:254-269 | Finished players finished in the same round, with logs of the same length, mirrored boards and opposite results, or both for lack of entropy |
| Match.FitIsNeeded | server/factorfight/convert.go:11-40 | A receiver accepts a move and ends on the mirrored board exactly when the move survived the transport |
| Match.OnPlanIffMovesFit | server/factorfight/convert.go:11-40 | Over every schedule, a match is on plan at every point if and only if every move received on the way survived the transport |
| Overflow.LegalMoveRefused | server/factorfight/convert.go:14 | There are secrets, strategies and a schedule with which, over a stream, the second of two honest players refuses the other's legal move |
| Overflow.WrappedMoveIsIllegal | factorfight/game.go:326-341 | What is left of -10^10 after the int32 conversion is the result of no move open from -10^8 with two tens |
| Match.HonestMatch | factorfight/game.go:221-324 | For every schedule: no reachable state has a wrong message type, a bad commitment, a confirmation mismatch, an invalid move or a player without moves; boards and logs agree, both logs are legal games, neither is ahead by more than three steps, the match goes on, and results are opposite |
| Solo.PlayKeepsToPlan | factorfight/game.go:230-273 | For every strategy that chooses among its moves: given the planned dice, the other side's moves as delivered, and sends enough, whatever `Play` can end with is the planned log with the planned result, won, lost or out of dice |
| Solo.PlayAsPlanned | factorfight/game.go:220-273 | A session made and run with initiative returns the planned log and result |
| Solo.PlayersPlay | factorfight/game.go:230-324 | Wherever a match has got to, a player's log and result are the only ones `Play` can return with that player's strategy for the dice and moves so far |
| Sessions.LogsMirrorEachOther | factorfight/game.go:230-324 | Two sessions with opposite turns, the same dice, and each hearing the other's moves as delivered have mirrored boards and mirrored entries as far as both logs go |
| Sessions.NothingRefused | factorfight/game.go:275-341 | Such a session never ends with an invalid move or for want of moves |
| Sessions.SessionsAgree | factorfight/game.go:230-341 | Such sessions' logs mirror each other and differ in length by at most one, both are legal games, nothing is refused, and if both finish they finish on the same move with opposite results |
| Sessions.ShortGamesFit | server/factorfight/convert.go:11-40 | For games of up to eight moves that holds over a stream without assuming that moves fit |
| Solo.RollsAreExchanges | dice/roller.go:127-170 | What a player sends in a round's roll, and the dice it gets, are those of the exchange code against an honest peer |
| Solo.RollAgainstAnyPeer | dice/roller.go:127-311 | Whatever three messages a peer sends, a player's roll in the match waits, refuses, panics or ends with the same dice as the exchange code |
| Solo.TurnAgainstAnyPeer | factorfight/game.go:275-324 | Whatever move arrives, a player's turn in the match is refused exactly when the session's is blocked by it, and is otherwise the same turn; so is its own turn |
| Solo.WrongKindRefused | server/factorfight/peer.go:79-84 | A move where a dice message is due, or the other way round, is refused |
| Chain.LittleEndianReadsBack | identity/chain.go:25-28 | The eight sequence bytes determine the 64-bit number |
| Chain.LowestFirst | identity/chain.go:25-28 | The first byte is the number's remainder by 256 and the others are those of its quotient |
| Chain.HexInjective | identity/chain.go:64 | Comparing hex renderings is comparing bytes |
| Chain.HashChain.SequenceBytes | identity/chain.go:25-28 | The shift loop writes the little-endian bytes of the sequence |
| Chain.HashChain.NextHash | identity/chain.go:20-37 | Returns and keeps the head of the history extended by the data |
| Chain.HashChain.VerifyHash | identity/chain.go:47-65 | Accepts exactly the current sequence with the hash that `NextHash` would produce for the data, and changes nothing |
| Chain.HeadOutright | identity/chain.go:20-37 | A head is the digest of the head before it, the data and the eight bytes of the position, in this order; the first one is empty |
| Chain.HeadsDetermineHistories | identity/chain.go:20-37 | Equal heads of histories shorter than 2^64 mean equal histories, or a hash collision between two named inputs |
| Ordered.HashChainManager.VerifyAndAdd | server/verifier.go:50-93 | The verdict and the whole map afterwards, for a restart, a missing, expired, differing or out-of-sequence predecessor, and success |
| Ordered.VerdictsOutright | server/verifier.go:50-93 | Each verdict by its own condition, and the map afterwards: an accepted call writes its own entry and no other |
| Ordered.OnlyOwnCallsMatter | server/verifier.go:50-113 | Under a clock that never runs back, what is accepted from an address depends on the calls from it and on clearing alone, not on other addresses' calls or on cleanups |
| Ordered.HashChainManager.Cleanup | server/verifier.go:103-113 | Exactly the expired entries go |
| Ordered.RejectedCallKeepsEntries | server/verifier.go:50-93 | A failed call adds no entry and changes none, but may remove the entry it found expired |
| Ordered.AcceptedIsSegmented | server/verifier.go:50-113 | Over any calls, cleanups and clears, what was accepted from an address falls into stretches that start at 1 with no previous hash, count up, chain hashes and respect the lifetime; a stored entry is that of the last accepted call |
| Ordered.Sender.Send | server/factorfight/peer.go:35-114 | Moves and dice messages share one counter and one last hash, which stay those of everything issued even when the stream fails |
| Ordered.SegmentsArePrefixes | server/verifier.go:50-93 | If an honest sender's envelopes are dropped, repeated or reordered but not altered, each accepted stretch is a prefix of what was issued |
| Ordered.InOrderDelivery | server/verifier.go:50-93 | With complete in-order delivery everything is accepted if and only if no gap between two calls outlives the entry |
| Wire.StepSimulates | server/factorfight/peer.go:35-133 | One step under envelopes: possible exactly when the bare step is, equal to it when in time, a refusal otherwise |
| Wire.WireRefines | server/factorfight/peer.go:35-133 | A run under envelopes in which every read is in time is the bare run, with the queue holding the issued envelopes not yet read |
| Wire.WireMatch | server/factorfight/peer.go:35-133 | From whatever entries the receivers kept, a match has no refusal if and only if every read is in time, and then it is on plan and never stuck |
| IdentityCache.IdentityCacheManager.Get | server/verifier.go:131-152 | A hit is the unexpired entry; a miss leaves no entry under the address |
| IdentityCache.IdentityCacheManager.GetWithAddressCheck | server/verifier.go:156-173 | The same, an entry filed under an address not its own counting as a miss |
| IdentityCache.HitsOutright | server/verifier.go:131-152 | A hit is an entry without an expiry or whose expiry has not passed |
| IdentityCache.IdentityCacheManager.Set | server/verifier.go:176-191 | Files the identity with its key and, for a positive lifetime, an expiry |
| IdentityCache.IdentityCacheManager.SetPublicKey | server/verifier.go:194-208 | Files a bare key likewise |
| IdentityCache.IdentityCacheManager.Cleanup | server/verifier.go:227-237 | Exactly the expired entries go |
| IdentityCache.CacheRefinesTimedMap | server/verifier.go:131-237 | Under a clock that never runs back, any sequence of operations gets the answers of a plain map read through expiry: lazy deletion and cleanup are invisible |
| IdentityCache.AddressCheckIdle | server/verifier.go:156-173 | While every full identity is filed under its own address, the address check changes neither answers nor the cache, and reading keeps it so |
| IdentityCache.HitsAreCorrect | server/verifier.go:131-173 | In every interleaving of stores, reads, both kinds of delayed deletion, cleanups and clears, a hit is the last entry set, unexpired, and with address check also well filed |
| IdentityCache.ExactWhenGuarded | server/verifier.go:131-191 | As long as nothing is set under an address while a deletion for it is outstanding, every answer is that of the plain timed map; without the address check this is said of well-filed maps |
| IdentityCache.StoreIsSafeIffNothingPending | server/verifier.go:131-191 | An entry set is answered until it expires or is replaced, whatever else goes on, if and only if no deletion for its address is outstanding when it is set |
| IdentityCache.FreshEntryCanBeLost | server/verifier.go:140-149 | Four concurrent operations after which a fresh entry is missing |
| PeerStore.Store.GetPeerIdentity | server/verifier.go:403-428 | A row for the address is the answer; otherwise the service's report is, once it has been stored, under the address it names; a report that cannot be stored is no answer |
| PeerStore.FirstReportAnswers | server/verifier.go:403-428 | Over any requests, the store answers for an address with the first identity naming it that was stored, whichever address was being asked for, and with nothing until then |
| PeerStore.AnswerNamesAddress | server/verifier.go:286-290 | An answer passes the address check exactly when it comes from a row or the service reported the address asked for |
| Verifier.Verifier.VerifyMessageSignature | server/verifier.go:256-301 | The refusal and both caches afterwards, for every branch |
| Verifier.Verifier.VerifyOrderedSignature | server/verifier.go:304-367 | The same with the chain: untouched unless the signature held |
| Verifier.Verifier.AddPeerIdentity | server/verifier.go:448-451 | Files the key by hand, with the usual expiry, and touches nothing else |
| Verifier.AddedKeyHolds | server/verifier.go:194-208 | Over any run, a key added by hand decides on every signature of its address, whatever the source answers, until its expiry, or for good without a time to live, unless it is replaced or forgotten |
| Verifier.LearnedKeyHolds | server/verifier.go:256-301 | So does a key learned from the source, once it has verified a message |
| Verifier.ForgottenIsGone | server/verifier.go:453-456 | After the identities are forgotten nothing is known of an address until it is told again |
| Verifier.SourceDecides | server/verifier.go:280-300 | With nothing cached for a signer, each refusal by its own condition on what the source answers |
| Verifier.MalformedRefused | server/verifier.go:304-319 | A malformed message is refused by its first defect and changes nothing |
| Verifier.AcceptedIsRecorded | server/verifier.go:360-366 | An accepted ordered message is recorded under its signer with its digest, its number and its expiry, and nothing else changes |
| Verifier.EveryEntryWasFiled | server/verifier.go:256-428 | Over any run, with a source that may answer differently each time, every cached entry was filed by one of the requests: an identity the source gave for that very address and whose key verified the message, or a key added by hand, expiring one time to live later |
| Verifier.AlwaysWellFiled | server/verifier.go:161-173 | Over any run every full identity in the cache is filed under its own address |
| Verifier.AcceptedKeyIsRecent | server/verifier.go:256-428 | Over any run, a signature that holds is by the key the source gives now for the signer's address, or by one an earlier request made known for it, read no later than one time to live after that (a time to live of 0 or less never expires) |
| Verifier.RotationShows | server/verifier.go:269-278 | After a key rotates, a message signed with the old key is accepted exactly until the old entry expires, where a verifier without a cache refuses it |
| Verifier.CacheIsInvisible | server/verifier.go:239-476 | Over any run in which the source keeps to its answers and keys added by hand agree with it, every answer and every chain is that of a verifier without a cache |
| Verifier.AcceptedIsChainAccepted | server/verifier.go:304-367 | Whatever the source answers, the ordered messages a verifier accepts are exactly the calls its chain accepts among those whose signature held |
| Verifier.AcceptedMessagesAreSegmented | server/verifier.go:304-367 | What a verifier accepts from a signer over any run, whatever the source answers, is segmented, by sequence and by previous hash |
| Verifier.HeaderAloneDecides | server/verifier.go:304-367 | The signature covers the message and not its header: once it holds, exactly the headers of a start, or of the position right after the last accepted message, are accepted |

## Left out

- gRPC services and clients, TLS, the command line, configuration, logging, the SQL store's own behaviour, generated protobuf code: plumbing without a hard property.
- The bytes of SHA-256, Ed25519, PEM and protobuf: an arbitrary hash, an arbitrary signature predicate, an arbitrary function from messages to bytes.
- The distribution of dice and the secrecy of commitments: probabilistic; what is proved is the exact number of preimages of each face.
- `Expr` on the wire and all `String` methods: formatting; the receiver never evaluates a received expression.
- Context cancellation, the goroutines and result channels inside a roll, and send errors inside a roll: a roll is a sequence of sends and receives, and a receive that fails ends it.
- Game.Session.Play: the dice, the received moves and the number of sends that succeed are finite scripts, so every finite run is covered and nothing is said about a game that never ends; whether games end is not claimed.
- Match.HonestMatch: over a stream it asks that the moves of the rounds reached fit 32 bits, which Match.TransportsFit grants for the first eight rounds and Match.OnPlanIffMovesFit shows to be needed.
- Sessions.SessionsAgree: over a stream it asks that the moves made fit 32 bits, which Sessions.ShortGamesFit grants for games of up to eight moves and Overflow.LegalMoveRefused shows to be needed.
- Wire.WireMatch: signatures are taken to hold, both receivers' chains serve this match alone for their peer's address, and the stream neither fails nor alters anything, headers included, which Verifier.HeaderAloneDecides shows to matter; fewer than 2^64 - 1 steps.
- Ordered.Sender.Send: marshalling and signing do not fail.
- Verifier.CacheIsInvisible: asks that the source keeps to its answers, which Verifier.RotationShows shows to be needed; the nil verifier, which accepts everything, is not modelled.
- Verifier.Verifier.VerifyOrderedSignature: runs by itself; interleavings of concurrent callers are covered for the identity cache only.
- The store behind a verifier: what it answers is a parameter of each request; `PeerStore` models the write-through by itself, with the last-seen time and the unique server name left out.
- HighRoll, the registry, the key manager and the setters plugin: thin code with easy claims only.
