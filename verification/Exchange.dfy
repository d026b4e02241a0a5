/**
 One roll between two peers: commit, reveal, confirm. A run is determined by the own secret
 and by what the peer's messages turn out to be, whoever the peer is.
 */
module Exchange {
  import opened Bytes
  import opened Dice
  import opened Messages
  import opened Options

  // "dice-commit-v1|" and "dice-roll-v1|" in ASCII
  const COMMIT_LABEL: seq<byte> := [100, 105, 99, 101, 45, 99, 111, 109, 109, 105, 116, 45, 118, 49, 124]
  const ROLL_LABEL: seq<byte> := [100, 105, 99, 101, 45, 114, 111, 108, 108, 45, 118, 49, 124]

  function Commitment(h: Hash, secret: Digest): Digest {
    h(COMMIT_LABEL + secret)
  }

  /** Both secrets in lexicographic order, whoever asks. */
  function CombinedSecrets(own: Digest, peer: Digest): seq<byte> {
    if Compare(own, peer) > 0 then peer + own else own + peer
  }

  function SharedSum(h: Hash, own: Digest, peer: Digest): Digest {
    h(ROLL_LABEL + CombinedSecrets(own, peer))
  }

  lemma SharedSumSymmetric(h: Hash, own: Digest, peer: Digest)
    ensures SharedSum(h, own, peer) == SharedSum(h, peer, own)
  {
    CompareAntisymmetric(own, peer);
  }

  lemma LabelsSpelled()
    ensures Spells(COMMIT_LABEL, "dice-commit-v1|") && Spells(ROLL_LABEL, "dice-roll-v1|")
  {
  }

  lemma SameSpelling(x: seq<byte>, y: seq<byte>, text: string)
    requires Spells(x, text) && Spells(y, text)
    ensures x == y
  {
  }

  datatype Event = Sent(m: Message) | Received(m: Message)

  datatype Failure = NoReply | WrongType | BadCommitment | ConfirmationMismatch

  datatype Outcome = Rolled(rolls: seq<uint16>) | Panicked | Failed(why: Failure)

  datatype Run = Run(trace: seq<Event>, outcome: Outcome)

  function CommitMsg(h: Hash, secret: Digest): Message {
    Message(COMMITMENT, Commitment(h, secret))
  }

  function SecretMsg(secret: Digest): Message {
    Message(SECRET, secret)
  }

  /** A confirmation of up to sixteen dice; a roll has eight. */
  function ConfirmMsg(rolls: seq<uint16>): Message
    requires |rolls| <= WORDS
  {
    Message(ROLL_CONFIRMATION, Confirmation(rolls))
  }

  /** The type bytes of the three messages and what they carry. */
  lemma MessagesOutright(h: Hash, secret: Digest, rolls: seq<uint16>)
    requires |rolls| <= WORDS
    ensures CommitMsg(h, secret) == Message(1, h(COMMIT_LABEL + secret))
    ensures SecretMsg(secret) == Message(2, secret)
    ensures ConfirmMsg(rolls) == Message(3, Confirmation(rolls))
  {
  }

  /** The run of a roll against a peer whose messages arrive as `inbox`. */
  function RunRoll(h: Hash, sides: int, secret: Digest, inbox: seq<Message>): Run
    requires 1 <= sides <= MAX_SIDES
  {
    var committed := [Sent(CommitMsg(h, secret))];
    if |inbox| < 1 then Run(committed, Failed(NoReply))
    else
      var bound := committed + [Received(inbox[0])];
      if inbox[0].msgType != COMMITMENT then Run(bound, Failed(WrongType))
      else
        var revealed := bound + [Sent(SecretMsg(secret))];
        if |inbox| < 2 then Run(revealed, Failed(NoReply))
        else
          var exchanged := revealed + [Received(inbox[1])];
          if inbox[1].msgType != SECRET then Run(exchanged, Failed(WrongType))
          else if Commitment(h, inbox[1].data) != inbox[0].data then Run(exchanged, Failed(BadCommitment))
          else
            var rolls := Extract(sides, SharedSum(h, secret, inbox[1].data));
            if rolls.None? then Run(exchanged, Panicked)
            else
              var confirmed := exchanged + [Sent(ConfirmMsg(rolls.value))];
              if |inbox| < 3 then Run(confirmed, Failed(NoReply))
              else
                var done := confirmed + [Received(inbox[2])];
                if inbox[2].msgType != ROLL_CONFIRMATION then Run(done, Failed(WrongType))
                else if inbox[2].data != Confirmation(rolls.value) then Run(done, Failed(ConfirmationMismatch))
                else Run(done, Rolled(rolls.value))
  }

  /** The connection to a peer: messages still to arrive, and the history of both directions. */
  class Connection {
    var inbox: seq<Message>
    ghost var trace: seq<Event>

    constructor (inbox: seq<Message>)
      ensures this.inbox == inbox && trace == []
    {
      this.inbox := inbox;
      trace := [];
    }

    method Send(m: Message)
      modifies this
      ensures inbox == old(inbox) && trace == old(trace) + [Sent(m)]
    {
      trace := trace + [Sent(m)];
    }

    method Recv() returns (m: Option<Message>)
      modifies this
      ensures old(inbox) == [] ==> m == None && inbox == old(inbox) && trace == old(trace)
      ensures old(inbox) != [] ==>
                && m == Some(old(inbox)[0]) && inbox == old(inbox)[1..]
                && trace == old(trace) + [Received(old(inbox)[0])]
    {
      if inbox == [] {
        return None;
      }
      m := Some(inbox[0]);
      trace := trace + [Received(inbox[0])];
      inbox := inbox[1..];
    }
  }

  /** A commitment has come in, then a secret that it commits to. */
  predicate Exchanged(h: Hash, inbox: seq<Message>) {
    && |inbox| >= 2 && inbox[0].msgType == COMMITMENT && inbox[1].msgType == SECRET
    && Commitment(h, inbox[1].data) == inbox[0].data
  }

  datatype ExchangeResult = PeerSecret(secret: Digest) | ExchangeFailed(why: Failure)

  /** Steps 1 to 4, and the check of the revealed secret. */
  method StartExchange(h: Hash, peer: Connection, secret: Digest) returns (r: ExchangeResult)
    modifies peer
    ensures r.PeerSecret? <==> Exchanged(h, old(peer.inbox))
    ensures r.PeerSecret? ==>
              var inbox := old(peer.inbox);
              && |inbox| >= 2 && peer.inbox == inbox[2..]
              && inbox[0] == CommitMsg(h, r.secret) && inbox[1] == SecretMsg(r.secret)
              && peer.trace == old(peer.trace)
                 + [Sent(CommitMsg(h, secret)), Received(inbox[0]), Sent(SecretMsg(secret)), Received(inbox[1])]
    ensures r.ExchangeFailed? ==>
              forall sides | 1 <= sides <= MAX_SIDES ::
                var run := RunRoll(h, sides, secret, old(peer.inbox));
                run.outcome == Failed(r.why) && peer.trace == old(peer.trace) + run.trace
  {
    peer.Send(CommitMsg(h, secret));
    var commitmentMsg := peer.Recv();
    if commitmentMsg.None? {
      return ExchangeFailed(NoReply);
    }
    if commitmentMsg.value.msgType != COMMITMENT {
      return ExchangeFailed(WrongType);
    }
    peer.Send(SecretMsg(secret));
    var secretMsg := peer.Recv();
    if secretMsg.None? {
      return ExchangeFailed(NoReply);
    }
    if secretMsg.value.msgType != SECRET {
      return ExchangeFailed(WrongType);
    }
    if Commitment(h, secretMsg.value.data) != commitmentMsg.value.data {
      return ExchangeFailed(BadCommitment);
    }
    return PeerSecret(secretMsg.value.data);
  }

  method ConfirmRoll(peer: Connection, roller: Roller, rolls: seq<uint16>) returns (failure: Option<Failure>)
    requires |rolls| <= WORDS
    modifies peer
    ensures old(peer.inbox) == [] ==>
              failure == Some(NoReply) && peer.trace == old(peer.trace) + [Sent(ConfirmMsg(rolls))]
    ensures old(peer.inbox) != [] ==>
              var msg := old(peer.inbox)[0];
              && peer.inbox == old(peer.inbox)[1..]
              && peer.trace == old(peer.trace) + [Sent(ConfirmMsg(rolls)), Received(msg)]
              && failure == if msg.msgType != ROLL_CONFIRMATION then Some(WrongType)
                            else if msg != ConfirmMsg(rolls) then Some(ConfirmationMismatch)
                            else None
  {
    var rollValueOut := roller.EncodeRolls(rolls);
    peer.Send(Message(ROLL_CONFIRMATION, rollValueOut));
    var msg := peer.Recv();
    if msg.None? {
      return Some(NoReply);
    }
    if msg.value.msgType != ROLL_CONFIRMATION {
      return Some(WrongType);
    }
    if rollValueOut != msg.value.data {
      return Some(ConfirmationMismatch);
    }
    return None;
  }

  method RollWithPeer(h: Hash, roller: Roller, peer: Connection, secret: Digest) returns (outcome: Outcome)
    requires roller.Valid()
    modifies peer
    ensures outcome == RunRoll(h, roller.sides, secret, old(peer.inbox)).outcome
    ensures peer.trace == old(peer.trace) + RunRoll(h, roller.sides, secret, old(peer.inbox)).trace
  {
    hide Commitment, Faces, SharedSum;
    var exchange := StartExchange(h, peer, secret);
    if exchange.ExchangeFailed? {
      return Failed(exchange.why);
    }
    var rolls := roller.Roll(SharedSum(h, secret, exchange.secret));
    if rolls.None? {
      return Panicked;
    }
    assert |peer.inbox| > 0 ==> peer.inbox[0] == old(peer.inbox)[2];
    var failure := ConfirmRoll(peer, roller, rolls.value);
    if failure.Some? {
      return Failed(failure.value);
    }
    return Rolled(rolls.value);
  }

  /** Whatever arrives, the secret leaves only after a commitment has been received. */
  lemma CommitBeforeReveal(h: Hash, sides: int, secret: Digest, inbox: seq<Message>, i: nat)
    requires 1 <= sides <= MAX_SIDES
    requires i < |RunRoll(h, sides, secret, inbox).trace|
    requires RunRoll(h, sides, secret, inbox).trace[i] == Sent(SecretMsg(secret))
    ensures exists j | 0 <= j < i ::
              var e := RunRoll(h, sides, secret, inbox).trace[j];
              e.Received? && e.m.msgType == COMMITMENT
  {
    var t := RunRoll(h, sides, secret, inbox).trace;
    assert t[0] == Sent(CommitMsg(h, secret));
    assert i >= 2 && t[1] == Received(inbox[0]);
  }

  /** A run gets past the exchange exactly when the peer's secret opens its commitment. */
  lemma PastExchange(h: Hash, sides: int, secret: Digest, inbox: seq<Message>)
    requires 1 <= sides <= MAX_SIDES
    ensures var run := RunRoll(h, sides, secret, inbox);
            Exchanged(h, inbox) <==> run.outcome.Panicked? || |run.trace| > 4
  {
    hide Extract, Commitment;
  }

  /**
   The peer is bound by its commitment: two runs that saw the same commitment and got past the
   exchange, with any own secrets and however they went on, accepted the same peer secret, or the
   two peer secrets are a collision of the hash.
   */
  lemma PeerIsBound(h: Hash, sides: int, secret: Digest, secret': Digest, inbox: seq<Message>, inbox': seq<Message>)
    requires 1 <= sides <= MAX_SIDES
    requires var run, run' := RunRoll(h, sides, secret, inbox), RunRoll(h, sides, secret', inbox');
             && (run.outcome.Panicked? || |run.trace| > 4) && (run'.outcome.Panicked? || |run'.trace| > 4)
             && run.trace[1] == run'.trace[1]
    ensures |inbox| >= 2 && |inbox'| >= 2
    ensures inbox[1] == inbox'[1] || Collision(h, COMMIT_LABEL + inbox[1].data, COMMIT_LABEL + inbox'[1].data)
  {
    hide Extract;
    PastExchange(h, sides, secret, inbox);
    PastExchange(h, sides, secret', inbox');
    var run, run' := RunRoll(h, sides, secret, inbox), RunRoll(h, sides, secret', inbox');
    assert run.trace[1] == Received(inbox[0]) && run'.trace[1] == Received(inbox'[0]);
    if COMMIT_LABEL + inbox[1].data == COMMIT_LABEL + inbox'[1].data {
      SamePrefixSplit(COMMIT_LABEL, inbox[1].data, COMMIT_LABEL, inbox'[1].data);
    }
  }

  /** The one of two secrets that is lower in the first byte in which they differ, and the other one. */
  predicate InOrder(x: Digest, y: Digest) {
    x == y || exists k: nat | k < 32 :: x[..k] == y[..k] && x[k] < y[k]
  }

  /**
   Past the exchange, the outcome is that of the digest of the label and both secrets, the lower
   one first; every die comes from both secrets and from nothing else.
   */
  lemma DiceComeFromBothSecrets(h: Hash, sides: int, secret: Digest, inbox: seq<Message>, prefix: seq<byte>)
    returns (x: Digest, y: Digest)
    requires 1 <= sides <= MAX_SIDES && Exchanged(h, inbox) && Spells(prefix, "dice-roll-v1|")
    ensures (x == secret && y == inbox[1].data) || (x == inbox[1].data && y == secret)
    ensures InOrder(x, y)
    ensures var run, dice := RunRoll(h, sides, secret, inbox), Extract(sides, h(prefix + x + y));
            && (run.outcome.Panicked? <==> dice.None?)
            && (dice.Some? ==> |dice.value| == 8 && |run.trace| > 4 && run.trace[4] == Sent(ConfirmMsg(dice.value)))
            && (run.outcome.Rolled? ==> dice == Some(run.outcome.rolls))
  {
    hide Faces, SharedSum, Commitment, Spells, InOrder;
    LabelsSpelled();
    SameSpelling(prefix, ROLL_LABEL, "dice-roll-v1|");
    x, y := SumInOrder(h, secret, inbox[1].data);
  }

  lemma SumInOrder(h: Hash, own: Digest, peer: Digest) returns (x: Digest, y: Digest)
    ensures (x == own && y == peer) || (x == peer && y == own)
    ensures InOrder(x, y) && SharedSum(h, own, peer) == h(ROLL_LABEL + x + y)
  {
    hide Compare;
    CompareIsLexicographic(own, peer);
    CompareIsLexicographic(peer, own);
    CompareAntisymmetric(own, peer);
    x, y := own, peer;
    if Compare(own, peer) > 0 {
      x, y := peer, own;
    }
    assert ROLL_LABEL + (x + y) == ROLL_LABEL + x + y;
  }

  /** The digest the dice are taken from is that of no other two secrets, or two inputs collide. */
  lemma SumDeterminesSecrets(h: Hash, a: Digest, b: Digest, a': Digest, b': Digest) returns (x: seq<byte>, y: seq<byte>)
    requires SharedSum(h, a, b) == SharedSum(h, a', b')
    ensures x in {ROLL_LABEL + a + b, ROLL_LABEL + b + a} && y in {ROLL_LABEL + a' + b', ROLL_LABEL + b' + a'}
    ensures (a == a' && b == b') || (a == b' && b == a') || Collision(h, x, y)
  {
    hide Compare;
    x, y := ROLL_LABEL + CombinedSecrets(a, b), ROLL_LABEL + CombinedSecrets(a', b');
    assert ROLL_LABEL + (a + b) == ROLL_LABEL + a + b && ROLL_LABEL + (b + a) == ROLL_LABEL + b + a;
    assert ROLL_LABEL + (a' + b') == ROLL_LABEL + a' + b' && ROLL_LABEL + (b' + a') == ROLL_LABEL + b' + a';
    if x == y {
      SamePrefixSplit(ROLL_LABEL, CombinedSecrets(a, b), ROLL_LABEL, CombinedSecrets(a', b'));
      if Compare(a, b) > 0 {
        if Compare(a', b') > 0 {
          SamePrefixSplit(b, a, b', a');
        } else {
          SamePrefixSplit(b, a, a', b');
        }
      } else if Compare(a', b') > 0 {
        SamePrefixSplit(a, b, b', a');
      } else {
        SamePrefixSplit(a, b, a', b');
      }
    }
  }

  /** What an honest peer sends against another honest peer. */
  function HonestMessages(h: Hash, sides: int, own: Digest, peer: Digest): seq<Message>
    requires 1 <= sides <= MAX_SIDES
  {
    var rolls := Extract(sides, SharedSum(h, own, peer));
    [CommitMsg(h, own), SecretMsg(own)] + if rolls.Some? then [ConfirmMsg(rolls.value)] else []
  }

  function SentOf(trace: seq<Event>): seq<Message> {
    if trace == [] then []
    else SentOf(trace[..|trace| - 1]) + match trace[|trace| - 1] case Sent(m) => [m] case Received(_) => []
  }

  /** Two honest peers send what each expects, and both end with the same eight dice or the same panic. */
  lemma HonestPeersAgree(h: Hash, sides: int, a: Digest, b: Digest)
    requires 1 <= sides <= MAX_SIDES
    ensures var runA := RunRoll(h, sides, a, HonestMessages(h, sides, b, a));
            var runB := RunRoll(h, sides, b, HonestMessages(h, sides, a, b));
            && SentOf(runA.trace) == HonestMessages(h, sides, a, b)
            && SentOf(runB.trace) == HonestMessages(h, sides, b, a)
            && runA.outcome == runB.outcome
            && runA.outcome == (var r := Extract(sides, SharedSum(h, a, b)); if r.Some? then Rolled(r.value) else Panicked)
  {
    SharedSumSymmetric(h, a, b);
    HonestRun(h, sides, a, b);
    HonestRun(h, sides, b, a);
  }

  lemma HonestRun(h: Hash, sides: int, own: Digest, peer: Digest)
    requires 1 <= sides <= MAX_SIDES
    ensures var run := RunRoll(h, sides, own, HonestMessages(h, sides, peer, own));
            && SentOf(run.trace) == HonestMessages(h, sides, own, peer)
            && run.outcome == (var r := Extract(sides, SharedSum(h, own, peer)); if r.Some? then Rolled(r.value) else Panicked)
  {
    hide SentOf, Faces, Commitment;
    SharedSumSymmetric(h, own, peer);
    assert SentOf([]) == [] by { NothingSent(); }
    var inbox := HonestMessages(h, sides, peer, own);
    var t1 := [] + [Sent(CommitMsg(h, own))];
    var t2 := t1 + [Received(inbox[0])];
    var t3 := t2 + [Sent(SecretMsg(own))];
    var t4 := t3 + [Received(inbox[1])];
    SentOneMore([], Sent(CommitMsg(h, own)));
    SentOneMore(t1, Received(inbox[0]));
    SentOneMore(t2, Sent(SecretMsg(own)));
    SentOneMore(t3, Received(inbox[1]));
    assert t1 == [Sent(CommitMsg(h, own))];
    var rolls := Extract(sides, SharedSum(h, own, peer));
    if rolls.Some? {
      SentOneMore(t4, Sent(ConfirmMsg(rolls.value)));
      SentOneMore(t4 + [Sent(ConfirmMsg(rolls.value))], Received(inbox[2]));
    }
  }

  lemma NothingSent()
    ensures SentOf([]) == []
  {
  }

  lemma SentOneMore(t: seq<Event>, e: Event)
    ensures SentOf(t + [e]) == SentOf(t) + if e.Sent? then [e.m] else []
  {
    assert (t + [e])[..|t|] == t;
  }

  /**
   The confirmation closes the last gap: if each side's confirmation reached the other, two
   completed rolls are equal even when the earlier messages were replaced on the way.
   */
  lemma ConfirmedMeansEqual(h: Hash, sides: int, a: Digest, inboxA: seq<Message>, b: Digest, inboxB: seq<Message>)
    requires 1 <= sides <= MAX_SIDES
    requires var runA, runB := RunRoll(h, sides, a, inboxA), RunRoll(h, sides, b, inboxB);
             runA.outcome.Rolled? && runB.outcome.Rolled? && runB.trace[4] == Sent(inboxA[2])
    ensures RunRoll(h, sides, a, inboxA).outcome == RunRoll(h, sides, b, inboxB).outcome
  {
    var rollsA := Extract(sides, SharedSum(h, a, inboxA[1].data));
    var rollsB := Extract(sides, SharedSum(h, b, inboxB[1].data));
    assert inboxA[2] == ConfirmMsg(rollsB.value) && inboxA[2].data == Confirmation(rollsA.value);
    ConfirmationInjective(rollsA.value, rollsB.value);
  }
}
