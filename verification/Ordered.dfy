/**
 Ordered messages: the sender's counter and last hash, the receiver's expiring entry per
 sender, and what the receiver's accepted history can be.
 */
module Ordered {
  import opened Bytes
  import opened MachineInts
  import opened Options

  datatype ChainEntry = ChainEntry(hash: seq<byte>, sequence: nat, expiresAt: int)

  type Chains = map<string, ChainEntry>

  datatype ChainError = UnexpectedPrevious | NoPreviousEntry | PreviousExpired | HashMismatch | SequenceMismatch

  /** One ordered message as the chain sees it, and the clock when it is checked and when it is stored. */
  datatype Call = Call(addr: string, previous: seq<byte>, current: seq<byte>, sequence: nat, now: int, later: int)

  /** The next 64-bit sequence number. */
  function NextSequence(sequence: nat): nat {
    (sequence + 1) % TWO_64
  }

  predicate Expired(e: ChainEntry, now: int) {
    now > e.expiresAt
  }

  /** The verdict on a call. */
  function Check(chains: Chains, call: Call): Option<ChainError> {
    if call.sequence == 1 then
      if |call.previous| != 0 then Some(UnexpectedPrevious) else None
    else if call.addr !in chains then Some(NoPreviousEntry)
    else
      var last := chains[call.addr];
      if Expired(last, call.now) then Some(PreviousExpired)
      else if last.hash != call.previous then Some(HashMismatch)
      else if call.sequence != NextSequence(last.sequence) then Some(SequenceMismatch)
      else None
  }

  function EntryOf(ttl: int, call: Call): ChainEntry {
    ChainEntry(call.current, call.sequence, call.later + ttl)
  }

  /** The entries after a call. */
  function Stored(chains: Chains, ttl: int, call: Call): Chains {
    match Check(chains, call)
    case None => chains[call.addr := EntryOf(ttl, call)]
    case Some(PreviousExpired) => chains - {call.addr}
    case Some(_) => chains
  }

  function Unexpired(chains: Chains, now: int): Chains {
    map a | a in chains && !Expired(chains[a], now) :: chains[a]
  }

  class HashChainManager {
    var chains: Chains
    const ttl: int

    constructor (ttl: int)
      ensures chains == map[] && this.ttl == ttl
    {
      chains := map[];
      this.ttl := ttl;
    }

    method VerifyAndAdd(call: Call) returns (err: Option<ChainError>)
      modifies this
      ensures err == Check(old(chains), call)
      ensures chains == Stored(old(chains), ttl, call)
    {
      if call.sequence == 1 {
        if |call.previous| != 0 {
          return Some(UnexpectedPrevious);
        }
      } else {
        if call.addr !in chains {
          return Some(NoPreviousEntry);
        }
        var lastEntry := chains[call.addr];
        if call.now > lastEntry.expiresAt {
          chains := chains - {call.addr};
          return Some(PreviousExpired);
        }
        if lastEntry.hash != call.previous {
          return Some(HashMismatch);
        }
        if call.sequence != (lastEntry.sequence + 1) % TWO_64 {
          return Some(SequenceMismatch);
        }
      }
      chains := chains[call.addr := ChainEntry(call.current, call.sequence, call.later + ttl)];
      return None;
    }

    method Clear()
      modifies this
      ensures chains == map[]
    {
      chains := map[];
    }

    /** Deletes as it goes through the keys, in whatever order. */
    method Cleanup(now: int)
      modifies this
      ensures chains == Unexpired(old(chains), now)
      ensures forall a | a in old(chains) :: a in chains <==> now <= old(chains)[a].expiresAt
    {
      var todo := chains.Keys;
      while todo != {}
        invariant todo <= chains.Keys <= old(chains).Keys
        invariant forall a | a in chains :: chains[a] == old(chains)[a]
        invariant forall a | a in chains :: a in todo || !Expired(chains[a], now)
        invariant forall a | a in old(chains) && a !in chains :: Expired(old(chains)[a], now)
        decreases todo
      {
        var addr :| addr in todo;
        todo := todo - {addr};
        if now > chains[addr].expiresAt {
          chains := chains - {addr};
        }
      }
    }
  }

  /** Each verdict, and what it leaves: an accepted call writes its own entry and no other. */
  lemma VerdictsOutright(chains: Chains, ttl: int, call: Call)
    ensures var v, known := Check(chains, call), call.addr in chains;
            && (v == Some(UnexpectedPrevious) <==> call.sequence == 1 && call.previous != [])
            && (v == Some(NoPreviousEntry) <==> call.sequence != 1 && !known)
            && (v == Some(PreviousExpired) <==> call.sequence != 1 && known && call.now > chains[call.addr].expiresAt)
            && (v == Some(HashMismatch) <==>
                  && call.sequence != 1 && known && call.now <= chains[call.addr].expiresAt
                  && chains[call.addr].hash != call.previous)
            && (v == Some(SequenceMismatch) <==>
                  && call.sequence != 1 && known && call.now <= chains[call.addr].expiresAt
                  && chains[call.addr].hash == call.previous
                  && call.sequence != (chains[call.addr].sequence + 1) % 0x1_0000_0000_0000_0000)
            && Stored(chains, ttl, call) ==
               (if v.None? then chains[call.addr := ChainEntry(call.current, call.sequence, call.later + ttl)]
                else if v == Some(PreviousExpired) then chains - {call.addr}
                else chains)
  {
  }

  /** A rejected call changes nothing, except that it drops the entry it found expired. */
  lemma RejectedCallKeepsEntries(chains: Chains, ttl: int, call: Call)
    requires Check(chains, call).Some?
    ensures forall a | a in chains && !(a == call.addr && Expired(chains[a], call.now)) ::
              a in Stored(chains, ttl, call) && Stored(chains, ttl, call)[a] == chains[a]
    ensures Stored(chains, ttl, call).Keys <= chains.Keys
  {
  }

  // Histories of operations on the manager.

  datatype Op = Verify(call: Call) | CleanupAt(now: int) | ClearAll

  function RunOp(chains: Chains, ttl: int, op: Op): Chains {
    match op
    case Verify(call) => Stored(chains, ttl, call)
    case CleanupAt(now) => Unexpired(chains, now)
    case ClearAll => map[]
  }

  function RunOps(ttl: int, ops: seq<Op>): Chains {
    if ops == [] then map[] else RunOp(RunOps(ttl, ops[..|ops| - 1]), ttl, ops[|ops| - 1])
  }

  /** The calls accepted from one address, in order. */
  function Accepted(ttl: int, ops: seq<Op>, addr: string): seq<Call> {
    if ops == [] then []
    else
      var k := |ops| - 1;
      var before := Accepted(ttl, ops[..k], addr);
      if ops[k].Verify? && ops[k].call.addr == addr && Check(RunOps(ttl, ops[..k]), ops[k].call).None?
      then before + [ops[k].call] else before
  }

  predicate Starts(call: Call) {
    call.sequence == 1 && call.previous == []
  }

  /** `next` continues `call` in time. */
  predicate Follows(ttl: int, call: Call, next: Call) {
    && next.sequence == NextSequence(call.sequence) && next.previous == call.current
    && next.now <= call.later + ttl
  }

  /** A chain that may start over at any point but otherwise has no gap. */
  predicate Segmented(ttl: int, acc: seq<Call>) {
    forall i | 0 <= i < |acc| :: Starts(acc[i]) || (i > 0 && Follows(ttl, acc[i - 1], acc[i]))
  }

  /** Over any operations the accepted history is segmented, and a stored entry is that of its last call. */
  lemma {:induction false} AcceptedIsSegmented(ttl: int, ops: seq<Op>, addr: string)
    ensures var acc, chains := Accepted(ttl, ops, addr), RunOps(ttl, ops);
            && Segmented(ttl, acc)
            && (addr in chains ==> |acc| > 0 && chains[addr] == EntryOf(ttl, acc[|acc| - 1]))
  {
    if ops != [] {
      var k := |ops| - 1;
      AcceptedIsSegmented(ttl, ops[..k], addr);
    }
  }

  // One address among others.

  /** The operations that concern an address: the calls from it, and clearing. */
  function Own(ops: seq<Op>, addr: string): seq<Op> {
    if ops == [] then []
    else
      var last, before := ops[|ops| - 1], Own(ops[..|ops| - 1], addr);
      match last
      case Verify(call) => if call.addr == addr then before + [last] else before
      case CleanupAt(_) => before
      case ClearAll => before + [last]
  }

  /** The clock never runs back over the operations, and ends no later than `now`. */
  predicate ClockRuns(ops: seq<Op>, now: int) {
    ops == [] ||
    var before := ops[..|ops| - 1];
    match ops[|ops| - 1]
    case Verify(call) => call.now <= call.later <= now && ClockRuns(before, call.now)
    case CleanupAt(t) => t <= now && ClockRuns(before, t)
    case ClearAll => ClockRuns(before, now)
  }

  /** From `now` on the two maps cannot be told apart at `addr`: an entry is missing only if it has expired. */
  predicate AgreeAt(chains: Chains, own: Chains, addr: string, now: int) {
    && (addr in chains ==> addr in own && own[addr] == chains[addr])
    && (addr in own && addr !in chains ==> Expired(own[addr], now))
  }

  lemma OneOwnOp(ttl: int, chains: Chains, own: Chains, addr: string, op: Op, now: int)
    requires match op
             case Verify(call) => call.now <= call.later <= now && AgreeAt(chains, own, addr, call.now)
             case CleanupAt(t) => t <= now && AgreeAt(chains, own, addr, t)
             case ClearAll => true
    ensures var own' := if op.CleanupAt? || (op.Verify? && op.call.addr != addr) then own else RunOp(own, ttl, op);
            AgreeAt(RunOp(chains, ttl, op), own', addr, now)
    ensures op.Verify? && op.call.addr == addr ==> (Check(chains, op.call).None? <==> Check(own, op.call).None?)
  {
  }

  /**
   What is accepted from an address depends on the calls from that address and on clearing alone:
   neither calls from others nor cleanups, whenever they happen, make any difference.
   */
  lemma {:induction false} OnlyOwnCallsMatter(ttl: int, ops: seq<Op>, addr: string, now: int)
    requires ClockRuns(ops, now)
    ensures Accepted(ttl, ops, addr) == Accepted(ttl, Own(ops, addr), addr)
    ensures AgreeAt(RunOps(ttl, ops), RunOps(ttl, Own(ops, addr)), addr, now)
  {
    hide AgreeAt, RunOp, Check;
    if ops == [] {
      assert AgreeAt(RunOps(ttl, []), RunOps(ttl, []), addr, now) by { AgreeEmpty(addr, now); }
    } else {
      var k := |ops| - 1;
      var before, op := Own(ops[..k], addr), ops[k];
      var earlier := if op.Verify? then op.call.now else if op.CleanupAt? then op.now else now;
      OnlyOwnCallsMatter(ttl, ops[..k], addr, earlier);
      OneOwnOp(ttl, RunOps(ttl, ops[..k]), RunOps(ttl, before), addr, op, now);
      if !(op.CleanupAt? || (op.Verify? && op.call.addr != addr)) {
        assert (before + [op])[..|before|] == before;
      }
    }
  }

  lemma AgreeEmpty(addr: string, now: int)
    ensures AgreeAt(map[], map[], addr, now)
  {
  }

  // An honest sender.

  datatype Envelope<P> = Envelope(payload: P, previousHash: seq<byte>, sequence: nat)

  /** The envelope of message `i` of what an honest sender issues. */
  function EnvelopeAt<P>(h: Hash, marshal: P -> seq<byte>, issued: seq<P>, i: nat): Envelope<P>
    requires i < |issued|
  {
    Envelope(issued[i], if i == 0 then [] else h(marshal(issued[i - 1])), (i + 1) % TWO_64)
  }

  lemma EnvelopeHolds<P>(h: Hash, marshal: P -> seq<byte>, issued: seq<P>, i: nat)
    requires i < |issued|
    ensures EnvelopeAt(h, marshal, issued, i).payload == issued[i]
  {
  }

  /** The counter and the last hash give the next envelope. */
  lemma NextEnvelope<P>(h: Hash, marshal: P -> seq<byte>, issued: seq<P>, msg: P)
    ensures NextSequence(|issued| % TWO_64) == |issued + [msg]| % TWO_64
    ensures EnvelopeAt(h, marshal, issued + [msg], |issued|) ==
            Envelope(msg, if issued == [] then [] else h(marshal(issued[|issued| - 1])), NextSequence(|issued| % TWO_64))
  {
  }

  /** Issuing more changes no envelope issued before. */
  lemma EnvelopeStays<P>(h: Hash, marshal: P -> seq<byte>, issued: seq<P>, msg: P, i: nat)
    requires i < |issued|
    ensures EnvelopeAt(h, marshal, issued + [msg], i) == EnvelopeAt(h, marshal, issued, i)
  {
  }

  /** Every envelope is one of those issued. */
  ghost predicate AllIssued<P(!new)>(h: Hash, marshal: P -> seq<byte>, issued: seq<P>, stream: seq<Envelope<P>>) {
    forall e | e in stream :: exists i | 0 <= i < |issued| :: e == EnvelopeAt(h, marshal, issued, i)
  }

  lemma AllIssuedGrows<P(!new)>(h: Hash, marshal: P -> seq<byte>, issued: seq<P>, stream: seq<Envelope<P>>, msg: P)
    requires AllIssued(h, marshal, issued, stream)
    ensures var more := issued + [msg];
            AllIssued(h, marshal, more, stream) && AllIssued(h, marshal, more, stream + [EnvelopeAt(h, marshal, more, |issued|)])
  {
    hide EnvelopeAt;
    var more := issued + [msg];
    forall e | e in stream
      ensures exists i | 0 <= i < |more| :: e == EnvelopeAt(h, marshal, more, i)
    {
      var i :| 0 <= i < |issued| && e == EnvelopeAt(h, marshal, issued, i);
      EnvelopeStays(h, marshal, issued, msg, i);
    }
  }

  class Sender<P(!new)> {
    const h: Hash
    const marshal: P -> seq<byte>
    var lastHash: seq<byte>
    var sequence: nat
    var stream: seq<Envelope<P>>
    ghost var issued: seq<P>

    /** The counter and the last hash are those of what was issued, delivered or not. */
    ghost predicate Valid()
      reads this
    {
      && sequence == |issued| % TWO_64
      && lastHash == (if issued == [] then [] else h(marshal(issued[|issued| - 1])))
      && AllIssued(h, marshal, issued, stream)
    }

    constructor (h: Hash, marshal: P -> seq<byte>)
      ensures Valid() && issued == [] && stream == [] && this.h == h && this.marshal == marshal
    {
      this.h, this.marshal := h, marshal;
      lastHash, sequence, stream := [], 0, [];
      issued := [];
    }

    /** Sends a move or a dice message. A stream failure still uses up the sequence number. */
    method Send(msg: P, streamOk: bool)
      requires Valid()
      modifies this
      ensures Valid() && issued == old(issued) + [msg]
      ensures stream == old(stream) + if streamOk then [EnvelopeAt(h, marshal, issued, |issued| - 1)] else []
    {
      hide AllIssued, EnvelopeAt, NextSequence;
      NextEnvelope(h, marshal, issued, msg);
      var hash := h(marshal(msg));
      sequence := NextSequence(sequence);
      var signedMsg := Envelope(msg, lastHash, sequence);
      lastHash := hash;
      AllIssuedGrows(h, marshal, issued, stream, msg);
      issued := issued + [msg];
      assert signedMsg == EnvelopeAt(h, marshal, issued, |issued| - 1);
      if streamOk {
        stream := stream + [signedMsg];
      }
    }
  }

  /** A call is made for a genuine envelope: the receiver recomputes the hash of the payload. */
  ghost predicate Genuine<P(!new)>(h: Hash, marshal: P -> seq<byte>, issued: seq<P>, call: Call) {
    exists i | 0 <= i < |issued| :: CallFor(h, marshal, issued, i, call)
  }

  predicate CallFor<P>(h: Hash, marshal: P -> seq<byte>, issued: seq<P>, i: nat, call: Call)
    requires i < |issued|
  {
    var e := EnvelopeAt(h, marshal, issued, i);
    call.sequence == e.sequence && call.previous == e.previousHash && call.current == h(marshal(e.payload))
  }

  /** Calls `start` to `i` are those for the first messages issued, in order. */
  predicate PrefixCalls<P>(h: Hash, marshal: P -> seq<byte>, issued: seq<P>, acc: seq<Call>, start: nat, i: nat)
    requires start <= i < |acc| && i - start < |issued|
  {
    forall k | start <= k <= i :: CallFor(h, marshal, issued, k - start, acc[k])
  }

  /**
   A channel that drops, repeats or reorders, but does not alter, an honest sender's envelopes:
   whatever is accepted, the stretch since the last restart is a prefix of what was issued.
   */
  lemma {:induction false} SegmentsArePrefixes<P(!new)>(
    h: Hash, marshal: P -> seq<byte>, issued: seq<P>, ttl: int, acc: seq<Call>, i: nat)
    requires |issued| < TWO_64 - 1 && Segmented(ttl, acc) && i < |acc|
    requires forall k | 0 <= k < |acc| :: Genuine(h, marshal, issued, acc[k])
    ensures 1 <= acc[i].sequence <= |issued| && acc[i].sequence <= i + 1
    ensures var start := i + 1 - acc[i].sequence;
            Starts(acc[start]) && PrefixCalls(h, marshal, issued, acc, start, i)
  {
    hide CallFor, Genuine, PrefixCalls;
    var j := Position(h, marshal, issued, acc[i]);
    if j == 0 {
      FirstStarts(h, marshal, issued, acc[i]);
    } else {
      assert Follows(ttl, acc[i - 1], acc[i]);
      SegmentsArePrefixes(h, marshal, issued, ttl, acc, i - 1);
    }
    PrefixExtends(h, marshal, issued, acc, i - j, i);
  }

  lemma PrefixExtends<P>(h: Hash, marshal: P -> seq<byte>, issued: seq<P>, acc: seq<Call>, start: nat, i: nat)
    requires start <= i < |acc| && i - start < |issued|
    requires i > start ==> PrefixCalls(h, marshal, issued, acc, start, i - 1)
    requires CallFor(h, marshal, issued, i - start, acc[i])
    ensures PrefixCalls(h, marshal, issued, acc, start, i)
  {
    hide CallFor;
  }

  /** A genuine call names its position by its sequence number. */
  lemma Position<P(!new)>(h: Hash, marshal: P -> seq<byte>, issued: seq<P>, call: Call) returns (j: nat)
    requires |issued| < TWO_64 - 1 && Genuine(h, marshal, issued, call)
    ensures j < |issued| && CallFor(h, marshal, issued, j, call) && call.sequence == j + 1
  {
    j :| j < |issued| && CallFor(h, marshal, issued, j, call);
  }

  lemma FirstStarts<P>(h: Hash, marshal: P -> seq<byte>, issued: seq<P>, call: Call)
    requires |issued| > 0 && CallFor(h, marshal, issued, 0, call)
    ensures Starts(call)
  {
  }

  /** The receiver's next verdict on an honest, unbroken stream: in time or not, nothing else. */
  lemma NextEnvelopeAccepted<P>(
    h: Hash, marshal: P -> seq<byte>, issued: seq<P>, ttl: int, chains: Chains, i: nat, last: Call, call: Call)
    requires |issued| < TWO_64 - 1 && i < |issued| && CallFor(h, marshal, issued, i, call)
    requires i > 0 ==>
               CallFor(h, marshal, issued, i - 1, last) && call.addr in chains && chains[call.addr] == EntryOf(ttl, last)
    ensures Check(chains, call) == if i == 0 || call.now <= last.later + ttl then None else Some(PreviousExpired)
  {
  }

  function VerifyAll(calls: seq<Call>): seq<Op> {
    seq(|calls|, i requires 0 <= i < |calls| => Verify(calls[i]))
  }

  /** No gap between two calls outlives the entry the first one left. */
  predicate InTime(ttl: int, calls: seq<Call>) {
    forall k | 0 < k < |calls| :: calls[k].now <= calls[k - 1].later + ttl
  }

  lemma InTimeLast(ttl: int, calls: seq<Call>)
    requires |calls| > 0
    ensures var k := |calls| - 1;
            InTime(ttl, calls) <==> InTime(ttl, calls[..k]) && (k > 0 ==> calls[k].now <= calls[k - 1].later + ttl)
  {
    var k := |calls| - 1;
    assert forall j | 0 <= j < k :: calls[..k][j] == calls[j];
  }

  /** One more call on top of `calls[..k]`. */
  lemma AcceptedOneMore(ttl: int, calls: seq<Call>, addr: string)
    requires |calls| > 0 && calls[|calls| - 1].addr == addr
    ensures var k := |calls| - 1;
            var chains, before := RunOps(ttl, VerifyAll(calls[..k])), Accepted(ttl, VerifyAll(calls[..k]), addr);
            && RunOps(ttl, VerifyAll(calls)) == Stored(chains, ttl, calls[k])
            && Accepted(ttl, VerifyAll(calls), addr) == if Check(chains, calls[k]).None? then before + [calls[k]] else before
  {
    var k := |calls| - 1;
    assert VerifyAll(calls)[..k] == VerifyAll(calls[..k]);
  }

  /** In-order, complete delivery: everything is accepted exactly when no gap outlives the entry. */
  lemma {:induction false} InOrderDelivery<P>(
    h: Hash, marshal: P -> seq<byte>, issued: seq<P>, ttl: int, calls: seq<Call>, addr: string)
    requires |calls| <= |issued| < TWO_64 - 1
    requires forall k | 0 <= k < |calls| :: calls[k].addr == addr && CallFor(h, marshal, issued, k, calls[k])
    ensures Accepted(ttl, VerifyAll(calls), addr) == calls <==> InTime(ttl, calls)
    ensures |Accepted(ttl, VerifyAll(calls), addr)| <= |calls|
    ensures Accepted(ttl, VerifyAll(calls), addr) == calls && |calls| > 0 ==>
              var chains := RunOps(ttl, VerifyAll(calls));
              addr in chains && chains[addr] == EntryOf(ttl, calls[|calls| - 1])
  {
    hide Accepted, RunOps, InTime, VerifyAll;
    if calls == [] {
      NoCalls(ttl, addr);
    } else {
      var k := |calls| - 1;
      InOrderDelivery(h, marshal, issued, ttl, calls[..k], addr);
      InTimeLast(ttl, calls);
      AcceptedOneMore(ttl, calls, addr);
      var before := Accepted(ttl, VerifyAll(calls[..k]), addr);
      assert calls == calls[..k] + [calls[k]];
      assert (before + [calls[k]])[..|before|] == before;
      if before == calls[..k] {
        NextEnvelopeAccepted(h, marshal, issued, ttl, RunOps(ttl, VerifyAll(calls[..k])), k,
                             if k > 0 then calls[k - 1] else calls[0], calls[k]);
      }
    }
  }

  lemma NoCalls(ttl: int, addr: string)
    ensures Accepted(ttl, VerifyAll([]), addr) == [] && InTime(ttl, [])
  {
  }
}
