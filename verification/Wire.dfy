/**
 The match over a signed stream: every packet travels in an envelope, and every envelope read
 goes through the receiver's chain check before the player sees what is in it.
 The match on bare packets is what this one comes to as long as nobody dawdles.
 */
module Wire {
  import opened Bytes
  import opened MachineInts
  import opened Match
  import opened Options
  import opened Ordered
  import opened Plan

  datatype Setup = Setup(h: Hash, marshal: Packet -> seq<byte>, ttl: int)

  /** From a sender at `addr`: what it issued, what is in flight, the receiver's chains and the calls that led to them. */
  datatype Direction = Direction(
    addr: string, issued: seq<Packet>, queue: seq<Envelope<Packet>>, chains: Chains, calls: seq<Call>)

  /** Two players as one of them sees it, and the two directions between them. */
  datatype Wired = Wired(me: Player, peer: Player, out: Direction, inn: Direction) {
    function Swap(): Wired {
      Wired(peer, me, inn, out)
    }
  }

  /** Who takes a step, and the clock when a call is checked and when its entry is stored. */
  datatype Tick = Tick(side: Side, now: int, later: int)

  function Issue(u: Setup, d: Direction, p: Packet): Direction {
    var issued := d.issued + [p];
    d.(issued := issued, queue := d.queue + [EnvelopeAt(u.h, u.marshal, issued, |d.issued|)])
  }

  function CallOn(u: Setup, d: Direction, t: Tick): Call
    requires d.queue != []
  {
    var e := d.queue[0];
    Call(d.addr, e.previousHash, u.h(u.marshal(e.payload)), e.sequence, t.now, t.later)
  }

  function ReadOne(u: Setup, d: Direction, t: Tick): Direction
    requires d.queue != []
  {
    var call := CallOn(u, d, t);
    d.(queue := d.queue[1..], chains := Stored(d.chains, u.ttl, call), calls := d.calls + [call])
  }

  ghost function WireStep(u: Setup, c: Config, t: Tick, w: Wired): Option<Wired> {
    if w.me.status != Running then None
    else
      match ActionOf(c, t.side, w.me)
      case Send(p, next) => Some(w.(me := next, out := Issue(u, w.out, p)))
      case Receive(_) =>
        if w.inn.queue == [] then None
        else
          var refused := Check(w.inn.chains, CallOn(u, w.inn, t)).Some?;
          var me := if refused then w.me.(status := Refused) else OnReceive(c, t.side, w.me, w.inn.queue[0].payload);
          Some(w.(me := me, inn := ReadOne(u, w.inn, t)))
      case Local(next) => Some(w.(me := next))
  }

  ghost function WireNext(u: Setup, c: Config, t: Tick, w: Wired): Option<Wired> {
    if t.side == A then WireStep(u, c, t, w)
    else
      var r := WireStep(u, c, t, w.Swap());
      if r.None? then None else Some(r.value.Swap())
  }

  /** The match after a timed schedule, begun with whatever the two receivers' chains held before. */
  ghost function WireAfter(u: Setup, c: Config, start: Wired, ticks: seq<Tick>): Option<Wired> {
    if ticks == [] then Some(start)
    else
      match WireAfter(u, c, start, ticks[..|ticks| - 1])
      case None => None
      case Some(w) => WireNext(u, c, ticks[|ticks| - 1], w)
  }

  /** Two new players and two new senders; the receivers' chains may hold anything from before. */
  predicate NewMatch(w: Wired) {
    && w.me == NewPlayer() && w.peer == NewPlayer()
    && w.out.issued == w.inn.issued == [] && w.out.queue == w.inn.queue == []
    && w.out.calls == w.inn.calls == []
  }

  // What the envelopes come to.

  function Payloads(queue: seq<Envelope<Packet>>): seq<Packet> {
    seq(|queue|, i requires 0 <= i < |queue| => queue[i].payload)
  }

  /** The same match without envelopes. */
  function Bare(w: Wired): Duo {
    Duo(w.me, w.peer, Link(Payloads(w.out.queue), []), Link(Payloads(w.inn.queue), []))
  }

  function Sides(ticks: seq<Tick>): seq<Side> {
    seq(|ticks|, i requires 0 <= i < |ticks| => ticks[i].side)
  }

  /** The queue is what was issued and not yet read, and the entry is the one the last call left. */
  predicate InStep(u: Setup, d: Direction) {
    var n := |d.calls|;
    && |d.issued| == n + |d.queue|
    && (forall i | 0 <= i < |d.queue| :: d.queue[i] == EnvelopeAt(u.h, u.marshal, d.issued, n + i))
    && (forall k | 0 <= k < n :: d.calls[k].addr == d.addr && CallFor(u.h, u.marshal, d.issued, k, d.calls[k]))
    && (n > 0 && InTime(u.ttl, d.calls) ==>
          d.addr in d.chains && d.chains[d.addr] == Ordered.EntryOf(u.ttl, d.calls[n - 1]))
  }

  lemma IssueInStep(u: Setup, d: Direction, p: Packet)
    requires InStep(u, d)
    ensures InStep(u, Issue(u, d, p))
    ensures Payloads(Issue(u, d, p).queue) == Payloads(d.queue) + [p]
  {
    hide EnvelopeAt, InTime, CallFor;
    forall i | 0 <= i < |d.issued|
      ensures EnvelopeAt(u.h, u.marshal, d.issued + [p], i) == EnvelopeAt(u.h, u.marshal, d.issued, i)
    {
      EnvelopeStays(u.h, u.marshal, d.issued, p, i);
    }
    forall k | 0 <= k < |d.calls|
      ensures CallFor(u.h, u.marshal, d.issued + [p], k, d.calls[k])
    {
      CallStays(u, d.issued, p, k, d.calls[k]);
    }
    EnvelopeHolds(u.h, u.marshal, d.issued + [p], |d.issued|);
  }

  lemma CallStays(u: Setup, issued: seq<Packet>, p: Packet, k: nat, call: Call)
    requires k < |issued| && CallFor(u.h, u.marshal, issued, k, call)
    ensures CallFor(u.h, u.marshal, issued + [p], k, call)
  {
    EnvelopeStays(u.h, u.marshal, issued, p, k);
  }

  /** In-order reading: the next envelope passes the check exactly when it is read in time. */
  lemma ReadInStep(u: Setup, d: Direction, t: Tick)
    requires InStep(u, d) && d.queue != [] && |d.issued| < TWO_64 - 1
    ensures InStep(u, ReadOne(u, d, t))
    ensures Payloads(d.queue)[0] == d.queue[0].payload
    ensures Payloads(ReadOne(u, d, t).queue) == Payloads(d.queue)[1..]
    ensures InTime(u.ttl, d.calls) ==>
              (Check(d.chains, CallOn(u, d, t)).None? <==> InTime(u.ttl, ReadOne(u, d, t).calls))
    ensures InTime(u.ttl, ReadOne(u, d, t).calls) ==> InTime(u.ttl, d.calls)
    ensures ReadOne(u, d, t).issued == d.issued
  {
    hide InTime, Check, CallFor, EnvelopeAt;
    CallIsNext(u, d, t);
    NextVerdict(u, d, t);
  }

  lemma CallIsNext(u: Setup, d: Direction, t: Tick)
    requires InStep(u, d) && d.queue != []
    ensures CallFor(u.h, u.marshal, d.issued, |d.calls|, CallOn(u, d, t))
  {
  }

  lemma NextVerdict(u: Setup, d: Direction, t: Tick)
    requires InStep(u, d) && d.queue != [] && |d.issued| < TWO_64 - 1
    ensures var call, late := CallOn(u, d, t), !InTime(u.ttl, d.calls + [CallOn(u, d, t)]);
            && (InTime(u.ttl, d.calls) ==> (Check(d.chains, call).None? <==> !late))
            && (!late ==> InTime(u.ttl, d.calls))
  {
    hide InTime, Check, CallFor, EnvelopeAt;
    var n, call := |d.calls|, CallOn(u, d, t);
    CallIsNext(u, d, t);
    InTimeLast(u.ttl, d.calls + [call]);
    assert (d.calls + [call])[..n] == d.calls;
    if InTime(u.ttl, d.calls) {
      NextEnvelopeAccepted(u.h, u.marshal, d.issued, u.ttl, d.chains, n, if n > 0 then d.calls[n - 1] else call, call);
    }
  }

  /** Both directions in step; a player that was too late reading has stopped. */
  predicate Consistent(u: Setup, w: Wired) {
    && InStep(u, w.out) && InStep(u, w.inn)
    && (InTime(u.ttl, w.inn.calls) || w.me.status == Refused)
    && (InTime(u.ttl, w.out.calls) || w.peer.status == Refused)
  }

  predicate Punctual(u: Setup, w: Wired) {
    InTime(u.ttl, w.out.calls) && InTime(u.ttl, w.inn.calls)
  }

  /** One step: a bare step when it is in time, and a refusal when it is not. */
  lemma StepSimulates(u: Setup, c: Config, t: Tick, w: Wired)
    requires c.transport == Stream && Consistent(u, w)
    requires |w.inn.issued| < TWO_64 - 1
    ensures WireStep(u, c, t, w).None? <==> Step(c, t.side, Bare(w)).None?
    ensures WireStep(u, c, t, w).Some? ==>
              var w' := WireStep(u, c, t, w).value;
              && Consistent(u, w')
              && (Punctual(u, w') ==> Punctual(u, w) && Step(c, t.side, Bare(w)) == Some(Bare(w')))
              && |w'.out.issued| + |w'.inn.issued| <= |w.out.issued| + |w.inn.issued| + 1
  {
    hide InStep, InTime, CallOn, ReadOne, OnReceive;
    if w.me.status == Running {
      match ActionOf(c, t.side, w.me)
      case Send(p, next) => IssueInStep(u, w.out, p);
      case Receive(_) =>
        ReceivesOnMain(c, t.side, w.me);
        if w.inn.queue != [] {
          ReadInStep(u, w.inn, t);
        }
      case Local(_) =>
    }
  }

  lemma {:induction false} WireRefines(u: Setup, c: Config, start: Wired, ticks: seq<Tick>)
    requires c.transport == Stream && NewMatch(start) && |ticks| < TWO_64 - 1
    requires WireAfter(u, c, start, ticks).Some?
    ensures var w := WireAfter(u, c, start, ticks).value;
            && Consistent(u, w) && |w.out.issued| + |w.inn.issued| <= |ticks|
            && (Punctual(u, w) ==> After(c, Sides(ticks)) == Some(Bare(w)))
  {
    hide Consistent, Punctual, WireNext, Next, NewMatch;
    NewMatchConsistent(u, start);
    if ticks != [] {
      var n := |ticks| - 1;
      var w := WireAfter(u, c, start, ticks[..n]).value;
      WireRefines(u, c, start, ticks[..n]);
      NextSimulates(u, c, ticks[n], w);
      assert Sides(ticks)[..n] == Sides(ticks[..n]);
    }
  }

  lemma NextSimulates(u: Setup, c: Config, t: Tick, w: Wired)
    requires c.transport == Stream && Consistent(u, w)
    requires |w.inn.issued| + |w.out.issued| < TWO_64 - 1
    ensures WireNext(u, c, t, w).None? <==> Next(c, t.side, Bare(w)).None?
    ensures WireNext(u, c, t, w).Some? ==>
              var w' := WireNext(u, c, t, w).value;
              && Consistent(u, w')
              && (Punctual(u, w') ==> Punctual(u, w) && Next(c, t.side, Bare(w)) == Some(Bare(w')))
              && |w'.out.issued| + |w'.inn.issued| <= |w.out.issued| + |w.inn.issued| + 1
  {
    hide InStep, InTime, WireStep, Step;
    if t.side == A {
      StepSimulates(u, c, t, w);
    } else {
      StepSimulates(u, c, t, w.Swap());
      assert Bare(w.Swap()) == Bare(w).Swap();
    }
  }

  /**
   The whole stack. Over the signed stream, from any chains the receivers may have kept, a match
   runs without a refusal exactly when no read comes later than the entry before it lasts; and
   then it is the match on bare packets, with all that holds of that. Nobody waits forever.
   */
  lemma WireMatch(u: Setup, c: Config, start: Wired, ticks: seq<Tick>)
    requires MemberStrategies(c) && c.transport == Stream && |ticks| < TWO_64 - 1
    requires NewMatch(start)
    requires WireAfter(u, c, start, ticks).Some?
    requires FitsThrough(c, Rounds(Bare(WireAfter(u, c, start, ticks).value)))
    ensures var w := WireAfter(u, c, start, ticks).value;
            && (Punctual(u, w) <==> w.me.status != Refused && w.peer.status != Refused)
            && (Punctual(u, w) ==> After(c, Sides(ticks)) == Some(Bare(w)) && OnPlan(c, Bare(w)))
            && (Punctual(u, w) && (w.me.status == Running || w.peer.status == Running) ==>
                  forall now, later ::
                    || WireNext(u, c, Tick(A, now, later), w).Some?
                    || WireNext(u, c, Tick(B, now, later), w).Some?)
  {
    hide OnPlan, Next, WireNext, Fits, Live, NewMatch;
    var w := WireAfter(u, c, start, ticks).value;
    NewMatchConsistent(u, start);
    WireRefines(u, c, start, ticks);
    if Punctual(u, w) {
      EveryRunOnPlan(c, Sides(ticks));
      NobodyRefuses(c, Bare(w));
      if w.me.status == Running || w.peer.status == Running {
        NoDeadlock(c, Bare(w));
        forall now, later
          ensures WireNext(u, c, Tick(A, now, later), w).Some? || WireNext(u, c, Tick(B, now, later), w).Some?
        {
          NextSimulates(u, c, Tick(A, now, later), w);
          NextSimulates(u, c, Tick(B, now, later), w);
        }
      }
    }
  }

  lemma NewMatchConsistent(u: Setup, start: Wired)
    requires NewMatch(start)
    ensures Consistent(u, start) && Punctual(u, start)
    ensures Bare(start) == Duo(NewPlayer(), NewPlayer(), Link([], []), Link([], []))
    ensures start.out.issued == start.inn.issued == []
  {
  }

  lemma ReceivesOnMain(c: Config, side: Side, p: Player)
    requires c.transport == Stream && ActionOf(c, side, p).Receive?
    ensures ActionOf(c, side, p).lane == Main
  {
  }
}
