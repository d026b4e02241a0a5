/**
 Verification of one message: the signer's key, the signature, and for an ordered message the
 hash chain. The identity cache saves lookups; while identities stay as they are it changes no
 answer, and when one changes it lags by at most the time to live.
 */
module Verifier {
  import opened Bytes
  import opened IdentityCache
  import opened Options
  import opened Ordered

  datatype Signature = Signature(signature: seq<byte>, signerAddress: string)

  datatype OrderedSignature = OrderedSignature(
    signature: seq<byte>, signerAddress: string, previousHash: seq<byte>, sequence: nat)

  datatype Refusal =
    | Unsigned | EmptySignature | EmptyAddress | ZeroSequence
    | NoIdentity | AddressMismatch | BadSignature | BadChain(err: ChainError)

  /** Ed25519 verification: key, digest, signature. */
  type Scheme = (seq<byte>, Digest, seq<byte>) -> bool

  /** What a verifier relies on: hash, signature scheme, and its time to live. */
  datatype Setup = Setup(h: Hash, scheme: Scheme, ttl: int)

  /** What the store, or else the remote service, answers for an address if it is asked now. */
  type Source = string -> Option<Identity>

  /** The clock readings of one call. */
  datatype Clock = Clock(read: int, filed: int, checked: int, stored: int)

  predicate Usable(cache: Cache, addr: string, now: int) {
    var found := Lookup(cache, addr, now);
    found.Some? && !Misfiled(addr, found.value)
  }

  function Verifies(u: Setup, key: seq<byte>, message: seq<byte>, s: Signature): bool {
    u.scheme(key, u.h(message), s.signature)
  }

  /** The verdict on a signature, by the cached key if there is a usable one. */
  function SignatureVerdict(u: Setup, cache: Cache, source: Source, message: seq<byte>, s: Signature, now: int)
    : Option<Refusal>
  {
    var fetched := source(s.signerAddress);
    if Usable(cache, s.signerAddress, now) then
      if Verifies(u, cache[s.signerAddress].publicKey, message, s) then None else Some(BadSignature)
    else if fetched.None? then Some(NoIdentity)
    else if fetched.value.serverAddress != s.signerAddress then Some(AddressMismatch)
    else if Verifies(u, fetched.value.publicKey, message, s) then None
    else Some(BadSignature)
  }

  /** A fetched identity is filed once it has verified a signature; an unusable entry goes. */
  function CacheAfter(u: Setup, cache: Cache, source: Source, message: seq<byte>, s: Signature, t: Clock): Cache {
    if Usable(cache, s.signerAddress, t.read) then cache
    else if SignatureVerdict(u, cache, source, message, s, t.read).Some? then cache - {s.signerAddress}
    else
      var id := source(s.signerAddress).value;
      cache[s.signerAddress := CacheEntry(Some(id), id.publicKey, ExpiryFrom(u.ttl, t.filed))]
  }

  function CallOf(h: Hash, message: seq<byte>, s: OrderedSignature, t: Clock): Call {
    Call(s.signerAddress, s.previousHash, h(message), s.sequence, t.checked, t.stored)
  }

  datatype Held = Held(cache: Cache, chains: Chains)

  datatype Request =
    | Plain(message: seq<byte>, plain: Option<Signature>, source: Source, t: Clock)
    | InOrder(message: seq<byte>, ordered: Option<OrderedSignature>, source: Source, t: Clock)
    | AddKey(addr: string, key: seq<byte>, now: int)
    | CleanCache(now: int)
    | CleanChains(now: int)
    | ForgetIdentities
    | ForgetChains

  function Respond(u: Setup, s: Held, r: Request): (Held, Option<Refusal>) {
    match r
    case Plain(message, None, _, _) => (s, Some(Unsigned))
    case Plain(message, Some(sig), source, t) =>
      if sig.signature == [] then (s, Some(EmptySignature))
      else if sig.signerAddress == "" then (s, Some(EmptyAddress))
      else
        (s.(cache := CacheAfter(u, s.cache, source, message, sig, t)),
         SignatureVerdict(u, s.cache, source, message, sig, t.read))
    case InOrder(message, None, _, _) => (s, Some(Unsigned))
    case InOrder(message, Some(sig), source, t) =>
      if sig.signature == [] then (s, Some(EmptySignature))
      else if sig.signerAddress == "" then (s, Some(EmptyAddress))
      else if sig.sequence == 0 then (s, Some(ZeroSequence))
      else
        var plain := Signature(sig.signature, sig.signerAddress);
        var cache := CacheAfter(u, s.cache, source, message, plain, t);
        var verdict := SignatureVerdict(u, s.cache, source, message, plain, t.read);
        if verdict.Some? then (s.(cache := cache), verdict)
        else
          var call := CallOf(u.h, message, sig, t);
          var err := Check(s.chains, call);
          (Held(cache, Stored(s.chains, u.ttl, call)), if err.None? then None else Some(BadChain(err.value)))
    case AddKey(addr, key, now) => (s.(cache := s.cache[addr := CacheEntry(None, key, ExpiryFrom(u.ttl, now))]), None)
    case CleanCache(now) => (s.(cache := Fresh(s.cache, now)), None)
    case CleanChains(now) => (s.(chains := Unexpired(s.chains, now)), None)
    case ForgetIdentities => (s.(cache := map[]), None)
    case ForgetChains => (s.(chains := map[]), None)
  }

  lemma RefiledAfterRemoval(cache: Cache, addr: string, e: CacheEntry)
    ensures (cache - {addr})[addr := e] == cache[addr := e]
  {
  }

  class Verifier {
    const setup: Setup
    const identityCache: IdentityCacheManager
    const hashChain: HashChainManager

    ghost predicate Valid()
      reads identityCache, hashChain
    {
      identityCache.ttl == setup.ttl && hashChain.ttl == setup.ttl
    }

    function Holds(): Held
      reads identityCache, hashChain
    {
      Held(identityCache.cache, hashChain.chains)
    }

    constructor (setup: Setup)
      ensures Valid() && this.setup == setup && Holds() == Held(map[], map[])
      ensures fresh(identityCache) && fresh(hashChain)
    {
      this.setup := setup;
      identityCache := new IdentityCacheManager(setup.ttl);
      hashChain := new HashChainManager(setup.ttl);
    }

    method VerifyMessageSignature(message: seq<byte>, signature: Option<Signature>, source: Source, t: Clock)
      returns (refusal: Option<Refusal>)
      requires Valid()
      modifies identityCache
      ensures (Holds(), refusal) == Respond(setup, old(Holds()), Plain(message, signature, source, t))
    {
      if signature.None? {
        return Some(Unsigned);
      }
      var s := signature.value;
      if s.signature == [] {
        return Some(EmptySignature);
      }
      if s.signerAddress == "" {
        return Some(EmptyAddress);
      }

      var cached := identityCache.GetWithAddressCheck(s.signerAddress, t.read);
      if cached.Some? {
        if !setup.scheme(cached.value.publicKey, setup.h(message), s.signature) {
          return Some(BadSignature);
        }
        return None;
      }
      var peerIdentity := source(s.signerAddress);
      if peerIdentity.None? {
        return Some(NoIdentity);
      }
      if peerIdentity.value.serverAddress != s.signerAddress {
        return Some(AddressMismatch);
      }
      if !setup.scheme(peerIdentity.value.publicKey, setup.h(message), s.signature) {
        return Some(BadSignature);
      }
      identityCache.Set(s.signerAddress, peerIdentity.value, t.filed);
      RefiledAfterRemoval(old(identityCache.cache), s.signerAddress, identityCache.cache[s.signerAddress]);
      return None;
    }

    method VerifyOrderedSignature(message: seq<byte>, signature: Option<OrderedSignature>, source: Source, t: Clock)
      returns (refusal: Option<Refusal>)
      requires Valid()
      modifies identityCache, hashChain
      ensures (Holds(), refusal) == Respond(setup, old(Holds()), InOrder(message, signature, source, t))
    {
      hide Check, Stored;
      if signature.None? {
        return Some(Unsigned);
      }
      var s := signature.value;
      if s.signature == [] {
        return Some(EmptySignature);
      }
      if s.signerAddress == "" {
        return Some(EmptyAddress);
      }
      if s.sequence == 0 {
        return Some(ZeroSequence);
      }

      var hash := setup.h(message);
      var cached := identityCache.GetWithAddressCheck(s.signerAddress, t.read);
      if cached.Some? {
        if !setup.scheme(cached.value.publicKey, hash, s.signature) {
          return Some(BadSignature);
        }
        var err := hashChain.VerifyAndAdd(Call(s.signerAddress, s.previousHash, hash, s.sequence, t.checked, t.stored));
        if err.Some? {
          return Some(BadChain(err.value));
        }
        return None;
      }
      var peerIdentity := source(s.signerAddress);
      if peerIdentity.None? {
        return Some(NoIdentity);
      }
      if peerIdentity.value.serverAddress != s.signerAddress {
        return Some(AddressMismatch);
      }
      if !setup.scheme(peerIdentity.value.publicKey, hash, s.signature) {
        return Some(BadSignature);
      }
      identityCache.Set(s.signerAddress, peerIdentity.value, t.filed);
      RefiledAfterRemoval(old(identityCache.cache), s.signerAddress, identityCache.cache[s.signerAddress]);
      var err := hashChain.VerifyAndAdd(Call(s.signerAddress, s.previousHash, hash, s.sequence, t.checked, t.stored));
      if err.Some? {
        return Some(BadChain(err.value));
      }
      return None;
    }

    method AddPeerIdentity(addr: string, publicKey: seq<byte>, now: int)
      requires Valid()
      modifies identityCache
      ensures Holds() == Respond(setup, old(Holds()), AddKey(addr, publicKey, now)).0
    {
      identityCache.SetPublicKey(addr, publicKey, now);
    }
  }

  // A new verifier over a whole run of requests. What the source answers may change all the time.

  function StateAfter(u: Setup, rs: seq<Request>): Held {
    if rs == [] then Held(map[], map[]) else Respond(u, StateAfter(u, rs[..|rs| - 1]), rs[|rs| - 1]).0
  }

  /** The answer to the last request. */
  function Answer(u: Setup, rs: seq<Request>): Option<Refusal>
    requires rs != []
  {
    Respond(u, StateAfter(u, rs[..|rs| - 1]), rs[|rs| - 1]).1
  }

  /** The signature a request carries, if it has one that is looked at. */
  function SignedBy(r: Request): Option<Signature> {
    match r
    case Plain(_, Some(sig), _, _) => if sig.signature != [] && sig.signerAddress != "" then Some(sig) else None
    case InOrder(_, Some(sig), _, _) =>
      if sig.signature != [] && sig.signerAddress != "" && sig.sequence != 0
      then Some(Signature(sig.signature, sig.signerAddress)) else None
    case _ => None
  }

  /**
   A request that can have filed `e` under `addr`: a message whose signer the source knew by that
   very address at the time, with a key that verified the message, or a key added by hand.
   */
  predicate Files(u: Setup, r: Request, addr: string, e: CacheEntry) {
    match r
    case AddKey(a, key, now) => a == addr && e == CacheEntry(None, key, ExpiryFrom(u.ttl, now))
    case Plain(message, _, source, t) => FilesFetched(u, message, SignedBy(r), source, t, addr, e)
    case InOrder(message, _, source, t) => FilesFetched(u, message, SignedBy(r), source, t, addr, e)
    case _ => false
  }

  predicate FilesFetched(u: Setup, message: seq<byte>, sig: Option<Signature>, source: Source, t: Clock,
                         addr: string, e: CacheEntry) {
    && sig.Some? && sig.value.signerAddress == addr
    && source(addr) == Some(Identity(addr, e.publicKey))
    && e == CacheEntry(source(addr), e.publicKey, ExpiryFrom(u.ttl, t.filed))
    && Verifies(u, e.publicKey, message, sig.value)
  }

  /** What one request leaves in the cache was there before or is what the request files. */
  lemma EntryFrom(u: Setup, s: Held, r: Request, addr: string)
    requires addr in Respond(u, s, r).0.cache
    ensures var e := Respond(u, s, r).0.cache[addr]; (addr in s.cache && s.cache[addr] == e) || Files(u, r, addr, e)
  {
    hide Check, Stored, Verifies, ExpiryFrom, Lookup, Misfiled;
  }

  /** Provenance: every entry was filed by one of the requests. */
  lemma {:induction false} EveryEntryWasFiled(u: Setup, rs: seq<Request>, addr: string) returns (i: nat)
    requires addr in StateAfter(u, rs).cache
    ensures i < |rs| && Files(u, rs[i], addr, StateAfter(u, rs).cache[addr])
  {
    hide Respond, Files;
    var k := |rs| - 1;
    var before := StateAfter(u, rs[..k]);
    EntryFrom(u, before, rs[k], addr);
    if addr in before.cache && before.cache[addr] == StateAfter(u, rs).cache[addr] {
      i := EveryEntryWasFiled(u, rs[..k], addr);
    } else {
      i := k;
    }
  }

  /** In any run a full identity is filed under its own address. */
  lemma AlwaysWellFiled(u: Setup, rs: seq<Request>)
    ensures WellFiled(StateAfter(u, rs).cache)
  {
    hide StateAfter, Verifies;
    forall a | a in StateAfter(u, rs).cache
      ensures !Misfiled(a, StateAfter(u, rs).cache[a])
    {
      var i := EveryEntryWasFiled(u, rs, a);
    }
  }

  /** The key `r` made known for `addr`, and when. */
  predicate MadeKnown(u: Setup, r: Request, addr: string, key: seq<byte>, at: int) {
    match r
    case AddKey(a, k, now) => a == addr && k == key && at == now
    case Plain(_, _, source, t) => source(addr).Some? && source(addr).value == Identity(addr, key) && at == t.filed
    case InOrder(_, _, source, t) => source(addr).Some? && source(addr).value == Identity(addr, key) && at == t.filed
    case _ => false
  }

  /**
   Whatever the source does over a run, keys rotating, identities coming and going: a signature
   that holds is by the key the source gives for the signer's address in this very request, or by
   one that an earlier request made known for that address, no longer ago than the time to live.
   */
  lemma AcceptedKeyIsRecent(u: Setup, rs: seq<Request>) returns (key: seq<byte>, i: nat, at: int)
    requires rs != [] && SignedBy(rs[|rs| - 1]).Some?
    requires Answer(u, rs).None? || Answer(u, rs).value.BadChain?
    ensures var r, sig := rs[|rs| - 1], SignedBy(rs[|rs| - 1]).value;
            && Verifies(u, key, r.message, sig)
            && i < |rs| && MadeKnown(u, rs[i], sig.signerAddress, key, at)
            && (i == |rs| - 1 || (u.ttl > 0 ==> r.t.read <= at + u.ttl))
  {
    hide Verifies, Check, Stored, StateAfter;
    var k := |rs| - 1;
    var r, addr := rs[k], SignedBy(rs[k]).value.signerAddress;
    var cache := StateAfter(u, rs[..k]).cache;
    AnswerIsVerdict(u, rs);
    if Usable(cache, addr, r.t.read) {
      i := EveryEntryWasFiled(u, rs[..k], addr);
      key := cache[addr].publicKey;
      at := if rs[i].AddKey? then rs[i].now else rs[i].t.filed;
    } else {
      key, i, at := r.source(addr).value.publicKey, k, r.t.filed;
    }
  }

  lemma AnswerIsVerdict(u: Setup, rs: seq<Request>)
    requires rs != [] && SignedBy(rs[|rs| - 1]).Some?
    ensures var r, cache := rs[|rs| - 1], StateAfter(u, rs[..|rs| - 1]).cache;
            SignatureVerdict(u, cache, r.source, r.message, SignedBy(r).value, r.t.read).None?
            <==> Answer(u, rs).None? || Answer(u, rs).value.BadChain?
  {
    hide StateAfter, Verifies, Check, Stored, CacheAfter;
  }

  // How long a key stays in force.

  /** A request that neither forgets nor replaces an entry for `addr`, nor finds one outdated that lasts until `until`. */
  predicate Spares(r: Request, addr: string, until: Option<int>) {
    match r
    case AddKey(a, _, _) => a != addr
    case ForgetIdentities => false
    case CleanCache(now) => until.Some? ==> now <= until.value
    case Plain(_, Some(sig), _, t) => sig.signerAddress == addr && until.Some? ==> t.read <= until.value
    case InOrder(_, Some(sig), _, t) => sig.signerAddress == addr && until.Some? ==> t.read <= until.value
    case _ => true
  }

  lemma SparedEntry(u: Setup, s: Held, r: Request, addr: string)
    requires addr in s.cache && !Misfiled(addr, s.cache[addr]) && Spares(r, addr, s.cache[addr].expiresAt)
    ensures var s' := Respond(u, s, r).0; addr in s'.cache && s'.cache[addr] == s.cache[addr]
  {
    hide SignatureVerdict, Check, Stored;
  }

  lemma {:induction false} EntryStays(u: Setup, rs: seq<Request>, more: seq<Request>, addr: string)
    requires addr in StateAfter(u, rs).cache && !Misfiled(addr, StateAfter(u, rs).cache[addr])
    requires forall r | r in more :: Spares(r, addr, StateAfter(u, rs).cache[addr].expiresAt)
    ensures var cache := StateAfter(u, rs + more).cache;
            addr in cache && cache[addr] == StateAfter(u, rs).cache[addr]
  {
    hide Respond, Spares, Misfiled;
    if more == [] {
      assert rs + more == rs;
    } else {
      var k := |more| - 1;
      assert forall r | r in more[..k] :: r in more;
      assert more[k] in more;
      EntryStays(u, rs, more[..k], addr);
      assert (rs + more)[..|rs| + k] == rs + more[..k];
      SparedEntry(u, StateAfter(u, rs + more[..k]), more[k], addr);
    }
  }

  /** As long as an entry is spared and lasts, its key and no other decides on signatures of its address. */
  lemma KeyInForce(u: Setup, rs: seq<Request>, more: seq<Request>, r: Request, addr: string)
    requires addr in StateAfter(u, rs).cache && !Misfiled(addr, StateAfter(u, rs).cache[addr])
    requires var until := StateAfter(u, rs).cache[addr].expiresAt;
             && (forall r' | r' in more :: Spares(r', addr, until))
             && SignedBy(r).Some? && SignedBy(r).value.signerAddress == addr
             && (until.Some? ==> r.t.read <= until.value)
    ensures var answer := Answer(u, rs + more + [r]);
            (answer.None? || answer.value.BadChain?)
            <==> u.scheme(StateAfter(u, rs).cache[addr].publicKey, u.h(r.message), SignedBy(r).value.signature)
    ensures r.Plain? ==> (Answer(u, rs + more + [r]).None?
              <==> u.scheme(StateAfter(u, rs).cache[addr].publicKey, u.h(r.message), SignedBy(r).value.signature))
  {
    hide StateAfter, Respond, Spares;
    EntryStays(u, rs, more, addr);
    var all := rs + more + [r];
    assert all[..|all| - 1] == rs + more;
    AnswerIsVerdict(u, all);
    if r.Plain? {
      PlainAnswers(u, StateAfter(u, rs + more), r);
    }
  }

  lemma PlainAnswers(u: Setup, s: Held, r: Request)
    requires r.Plain? && SignedBy(r).Some?
    ensures Respond(u, s, r).1.None? || !Respond(u, s, r).1.value.BadChain?
  {
    hide CacheAfter;
  }

  /**
   A key added by hand is in force at once and, whatever the source knows, for the time to live, or
   for good without one, unless it is replaced or the identities are forgotten in between.
   */
  lemma AddedKeyHolds(u: Setup, before: seq<Request>, addr: string, key: seq<byte>, at: int, more: seq<Request>, r: Request)
    requires forall r' | r' in more :: Spares(r', addr, if u.ttl > 0 then Some(at + u.ttl) else None)
    requires SignedBy(r).Some? && SignedBy(r).value.signerAddress == addr && (u.ttl > 0 ==> r.t.read <= at + u.ttl)
    ensures var answer := Answer(u, before + [AddKey(addr, key, at)] + more + [r]);
            && ((answer.None? || answer.value.BadChain?) <==> u.scheme(key, u.h(r.message), SignedBy(r).value.signature))
            && (r.Plain? ==> (answer.None? <==> u.scheme(key, u.h(r.message), SignedBy(r).value.signature)))
  {
    hide Answer, Spares, SignedBy;
    var rs := before + [AddKey(addr, key, at)];
    assert rs[..|before|] == before;
    AddedNow(u, rs, addr, key, at);
    KeyInForce(u, rs, more, r, addr);
  }

  lemma AddedNow(u: Setup, rs: seq<Request>, addr: string, key: seq<byte>, at: int)
    requires rs != [] && rs[|rs| - 1] == AddKey(addr, key, at)
    ensures var cache := StateAfter(u, rs).cache;
            addr in cache && cache[addr] == CacheEntry(None, key, if u.ttl > 0 then Some(at + u.ttl) else None)
  {
  }

  /** So is a key learned from the source, once it has verified a message of a signer of whom nothing usable was known. */
  lemma LearnedKeyHolds(u: Setup, before: seq<Request>, first: Request, more: seq<Request>, r: Request)
    requires SignedBy(first).Some?
    requires var addr := SignedBy(first).value.signerAddress;
             && !Usable(StateAfter(u, before).cache, addr, first.t.read)
             && (Answer(u, before + [first]).None? || Answer(u, before + [first]).value.BadChain?)
             && (forall r' | r' in more :: Spares(r', addr, if u.ttl > 0 then Some(first.t.filed + u.ttl) else None))
             && SignedBy(r).Some? && SignedBy(r).value.signerAddress == addr
             && (u.ttl > 0 ==> r.t.read <= first.t.filed + u.ttl)
    ensures first.source(SignedBy(first).value.signerAddress).Some?
    ensures var key := first.source(SignedBy(first).value.signerAddress).value.publicKey;
            var answer := Answer(u, before + [first] + more + [r]);
            (answer.None? || answer.value.BadChain?) <==> u.scheme(key, u.h(r.message), SignedBy(r).value.signature)
  {
    hide Answer, Spares, StateAfter, Usable;
    var rs := before + [first];
    assert rs[..|before|] == before;
    LearnedNow(u, rs);
    KeyInForce(u, rs, more, r, SignedBy(first).value.signerAddress);
  }

  lemma LearnedNow(u: Setup, rs: seq<Request>)
    requires rs != [] && SignedBy(rs[|rs| - 1]).Some?
    requires var r := rs[|rs| - 1];
             && !Usable(StateAfter(u, rs[..|rs| - 1]).cache, SignedBy(r).value.signerAddress, r.t.read)
             && (Answer(u, rs).None? || Answer(u, rs).value.BadChain?)
    ensures var r := rs[|rs| - 1];
            var addr, cache := SignedBy(r).value.signerAddress, StateAfter(u, rs).cache;
            && r.source(addr).Some? && r.source(addr).value.serverAddress == addr && addr in cache
            && cache[addr] == CacheEntry(r.source(addr), r.source(addr).value.publicKey,
                                         if u.ttl > 0 then Some(r.t.filed + u.ttl) else None)
  {
    hide Usable, Check, Stored, Verifies;
    AnswerIsVerdict(u, rs);
    var before := StateAfter(u, rs[..|rs| - 1]);
    hide StateAfter;
    assert StateAfter(u, rs) == Respond(u, before, rs[|rs| - 1]).0 by { LastStep(u, rs); }
  }

  lemma LastStep(u: Setup, rs: seq<Request>)
    requires rs != []
    ensures StateAfter(u, rs) == Respond(u, StateAfter(u, rs[..|rs| - 1]), rs[|rs| - 1]).0
  {
  }

  /** With nothing cached for a signer the source decides, and each of its failings has its own refusal. */
  lemma SourceDecides(u: Setup, rs: seq<Request>)
    requires rs != [] && SignedBy(rs[|rs| - 1]).Some?
    requires SignedBy(rs[|rs| - 1]).value.signerAddress !in StateAfter(u, rs[..|rs| - 1]).cache
    ensures var r, sig, answer := rs[|rs| - 1], SignedBy(rs[|rs| - 1]).value, Answer(u, rs);
            var known := r.source(sig.signerAddress);
            && (answer == Some(NoIdentity) <==> known == None)
            && (answer == Some(AddressMismatch) <==> known.Some? && known.value.serverAddress != sig.signerAddress)
            && (answer == Some(BadSignature) <==> known.Some? && known.value.serverAddress == sig.signerAddress
                                                  && !u.scheme(known.value.publicKey, u.h(r.message), sig.signature))
            && (answer.None? || answer.value.BadChain? <==> known.Some? && known.value.serverAddress == sig.signerAddress
                                                            && u.scheme(known.value.publicKey, u.h(r.message), sig.signature))
  {
    hide StateAfter, Check, Stored, CacheAfter;
  }

  /** What the chain keeps of an accepted ordered message: its digest, its number, and until when. */
  lemma AcceptedIsRecorded(u: Setup, s: Held, message: seq<byte>, sig: OrderedSignature, source: Source, t: Clock)
    requires Respond(u, s, InOrder(message, Some(sig), source, t)).1.None?
    ensures Respond(u, s, InOrder(message, Some(sig), source, t)).0.chains ==
            s.chains[sig.signerAddress := ChainEntry(u.h(message), sig.sequence, t.stored + u.ttl)]
  {
    hide SignatureVerdict, CacheAfter;
  }

  /** Forgetting forgets everything that is not told again. */
  lemma {:induction false} ForgottenIsGone(u: Setup, before: seq<Request>, more: seq<Request>, addr: string)
    requires forall r | r in more ::
               !(r.AddKey? && r.addr == addr) && (SignedBy(r).Some? ==> SignedBy(r).value.signerAddress != addr)
    ensures addr !in StateAfter(u, before + [ForgetIdentities] + more).cache
  {
    hide Respond, SignedBy;
    var rs := before + [ForgetIdentities];
    assert rs[..|before|] == before;
    if more == [] {
      assert rs + more == rs;
      assert StateAfter(u, rs).cache == map[] by { ForgetsAll(u, StateAfter(u, before)); }
    } else {
      var k := |more| - 1;
      assert forall r | r in more[..k] :: r in more;
      assert more[k] in more;
      ForgottenIsGone(u, before, more[..k], addr);
      assert (rs + more)[..|rs| + k] == rs + more[..k];
      if addr in StateAfter(u, rs + more).cache {
        EntryFrom(u, StateAfter(u, rs + more[..k]), more[k], addr);
        FilesOwnSigner(u, more[k], addr, StateAfter(u, rs + more).cache[addr]);
      }
    }
  }

  lemma ForgetsAll(u: Setup, s: Held)
    ensures Respond(u, s, ForgetIdentities).0.cache == map[]
  {
  }

  lemma FilesOwnSigner(u: Setup, r: Request, addr: string, e: CacheEntry)
    requires Files(u, r, addr, e)
    ensures (r.AddKey? && r.addr == addr) || (SignedBy(r).Some? && SignedBy(r).value.signerAddress == addr)
  {
  }

  /** A message that is not worth looking at is refused by its first defect and changes nothing. */
  lemma MalformedRefused(u: Setup, s: Held, message: seq<byte>, plain: Signature, ordered: OrderedSignature, source: Source, t: Clock)
    ensures Respond(u, s, Plain(message, None, source, t)) == (s, Some(Unsigned))
    ensures Respond(u, s, InOrder(message, None, source, t)) == (s, Some(Unsigned))
    ensures plain.signature == [] ==> Respond(u, s, Plain(message, Some(plain), source, t)) == (s, Some(EmptySignature))
    ensures plain.signature != [] && plain.signerAddress == "" ==>
              Respond(u, s, Plain(message, Some(plain), source, t)) == (s, Some(EmptyAddress))
    ensures ordered.signature == [] ==> Respond(u, s, InOrder(message, Some(ordered), source, t)) == (s, Some(EmptySignature))
    ensures ordered.signature != [] && ordered.signerAddress == "" ==>
              Respond(u, s, InOrder(message, Some(ordered), source, t)) == (s, Some(EmptyAddress))
    ensures ordered.signature != [] && ordered.signerAddress != "" && ordered.sequence == 0 ==>
              Respond(u, s, InOrder(message, Some(ordered), source, t)) == (s, Some(ZeroSequence))
  {
  }

  // A verifier without a cache, which asks the source about every message.

  function ChainsUncached(u: Setup, rs: seq<Request>): Chains {
    if rs == [] then map[] else Respond(u, Held(map[], ChainsUncached(u, rs[..|rs| - 1])), rs[|rs| - 1]).0.chains
  }

  function AnswerUncached(u: Setup, rs: seq<Request>): Option<Refusal>
    requires rs != []
  {
    Respond(u, Held(map[], ChainsUncached(u, rs[..|rs| - 1])), rs[|rs| - 1]).1
  }

  /** Every request sees the same source, and a key added by hand is the one it knows. */
  ghost predicate SteadySource(source: Source, rs: seq<Request>) {
    forall r | r in rs ::
      match r
      case Plain(_, _, asked, _) => asked == source
      case InOrder(_, _, asked, _) => asked == source
      case AddKey(a, key, _) => source(a) == Some(Identity(a, key))
      case _ => true
  }

  predicate Backed(source: Source, cache: Cache) {
    forall a | a in cache ::
      source(a) == Some(Identity(a, cache[a].publicKey)) && (cache[a].identity.Some? ==> cache[a].identity == source(a))
  }

  lemma SteadyEntriesBacked(u: Setup, source: Source, rs: seq<Request>)
    requires SteadySource(source, rs)
    ensures Backed(source, StateAfter(u, rs).cache)
  {
    hide StateAfter, Verifies;
    forall a | a in StateAfter(u, rs).cache
      ensures var e := StateAfter(u, rs).cache[a];
              source(a) == Some(Identity(a, e.publicKey)) && (e.identity.Some? ==> e.identity == source(a))
    {
      var i := EveryEntryWasFiled(u, rs, a);
      assert rs[i] in rs;
    }
  }

  lemma BackedVerdict(u: Setup, s: Held, r: Request, source: Source)
    requires Backed(source, s.cache) && SteadySource(source, [r])
    ensures Respond(u, s, r).1 == Respond(u, Held(map[], s.chains), r).1
    ensures Respond(u, s, r).0.chains == Respond(u, Held(map[], s.chains), r).0.chains
  {
    hide Check, Stored, Verifies, ExpiryFrom, CacheAfter, CallOf;
    assert r in [r];
  }

  /**
   As long as the source keeps to its answers the cache is invisible: whatever messages come, plain
   or ordered, and whenever anything is cleaned up or cleared, every answer and every chain is
   the one a verifier without a cache gives.
   */
  lemma {:induction false} CacheIsInvisible(u: Setup, source: Source, rs: seq<Request>)
    requires SteadySource(source, rs)
    ensures StateAfter(u, rs).chains == ChainsUncached(u, rs)
    ensures rs != [] ==> Answer(u, rs) == AnswerUncached(u, rs)
  {
    hide Respond, Backed;
    if rs != [] {
      var k := |rs| - 1;
      var before := rs[..k];
      assert rs[k] in rs && forall r | r in before :: r in rs;
      CacheIsInvisible(u, source, before);
      SteadyEntriesBacked(u, source, before);
      BackedVerdict(u, StateAfter(u, before), rs[k], source);
    }
  }

  /** When the source does change, the cache shows, for as long as the old entry lasts and no longer. */
  lemma RotationShows(u: Setup, addr: string, keyBefore: seq<byte>, keyAfter: seq<byte>, message: seq<byte>, s: Signature,
                      before: Source, after: Source, now: int)
    requires u.ttl > 0 && s.signature != [] && s.signerAddress == addr != ""
    requires before(addr) == Some(Identity(addr, keyBefore)) && after(addr) == Some(Identity(addr, keyAfter))
    requires Verifies(u, keyBefore, message, s) && !Verifies(u, keyAfter, message, s)
    ensures var rs := [Plain(message, Some(s), before, Clock(0, 0, 0, 0)), Plain(message, Some(s), after, Clock(now, now, now, now))];
            && AnswerUncached(u, rs) == Some(BadSignature)
            && (Answer(u, rs) == None <==> now <= u.ttl)
  {
    hide Verifies;
    var first := Plain(message, Some(s), before, Clock(0, 0, 0, 0));
    var rs := [first, Plain(message, Some(s), after, Clock(now, now, now, now))];
    assert rs[..1] == [first] && [first][..0] == [];
    assert StateAfter(u, []) == Held(map[], map[]);
    assert StateAfter(u, [first]).cache == map[addr := CacheEntry(Some(Identity(addr, keyBefore)), keyBefore, Some(u.ttl))];
  }

  // What an ordered run does to the chains, whatever the source answers.

  /** What a request does to the chains: an ordered message only once its signature holds. */
  function ChainOps(u: Setup, cache: Cache, r: Request): seq<Ordered.Op> {
    match r
    case InOrder(message, Some(sig), source, t) =>
      if && SignedBy(r).Some?
         && SignatureVerdict(u, cache, source, message, Signature(sig.signature, sig.signerAddress), t.read).None?
      then [Ordered.Verify(CallOf(u.h, message, sig, t))]
      else []
    case CleanChains(now) => [Ordered.CleanupAt(now)]
    case ForgetChains => [Ordered.ClearAll]
    case _ => []
  }

  function AllChainOps(u: Setup, rs: seq<Request>): seq<Ordered.Op> {
    if rs == [] then []
    else
      var before := rs[..|rs| - 1];
      AllChainOps(u, before) + ChainOps(u, StateAfter(u, before).cache, rs[|rs| - 1])
  }

  /** The ordered messages from `addr` that were answered without a refusal. */
  function AcceptedFrom(u: Setup, rs: seq<Request>, addr: string): seq<Call> {
    if rs == [] then []
    else AcceptedFrom(u, rs[..|rs| - 1], addr) + AcceptedNow(u, rs[|rs| - 1], Answer(u, rs), addr)
  }

  function AcceptedNow(u: Setup, r: Request, answer: Option<Refusal>, addr: string): seq<Call> {
    match r
    case InOrder(message, Some(sig), _, t) =>
      if sig.signerAddress == addr && answer.None? then [CallOf(u.h, message, sig, t)] else []
    case _ => []
  }

  lemma OneRequest(u: Setup, s: Held, r: Request, addr: string)
    ensures var (after, answer) := Respond(u, s, r);
            var ops := ChainOps(u, s.cache, r);
            && |ops| <= 1
            && after.chains == (if ops == [] then s.chains else RunOp(s.chains, u.ttl, ops[0]))
            && AcceptedNow(u, r, answer, addr)
               == if ops != [] && ops[0].Verify? && ops[0].call.addr == addr && Check(s.chains, ops[0].call).None?
                  then [ops[0].call] else []
  {
    hide SignatureVerdict, CacheAfter, Check;
  }

  /** One more operation on the chains. */
  lemma OneMoreOp(ttl: int, ops: seq<Ordered.Op>, op: Ordered.Op, addr: string)
    ensures RunOps(ttl, ops + [op]) == RunOp(RunOps(ttl, ops), ttl, op)
    ensures Accepted(ttl, ops + [op], addr) == Accepted(ttl, ops, addr)
              + if op.Verify? && op.call.addr == addr && Check(RunOps(ttl, ops), op.call).None? then [op.call] else []
  {
    hide RunOp, Check;
    assert (ops + [op])[..|ops|] == ops;
  }

  lemma OneMoreRequest(u: Setup, rs: seq<Request>, addr: string)
    requires rs != []
    ensures var k := |rs| - 1;
            var ops, more := AllChainOps(u, rs[..k]), ChainOps(u, StateAfter(u, rs[..k]).cache, rs[k]);
            && AllChainOps(u, rs) == ops + more && |more| <= 1
            && RunOps(u.ttl, ops + more) == (if more == [] then RunOps(u.ttl, ops) else RunOp(RunOps(u.ttl, ops), u.ttl, more[0]))
            && Accepted(u.ttl, ops + more, addr) == Accepted(u.ttl, ops, addr)
               + (if more != [] && more[0].Verify? && more[0].call.addr == addr && Check(RunOps(u.ttl, ops), more[0].call).None?
                  then [more[0].call] else [])
  {
    hide RunOps, Accepted, Check, RunOp, ChainOps, Respond;
    var k := |rs| - 1;
    var s := StateAfter(u, rs[..k]);
    var ops, more := AllChainOps(u, rs[..k]), ChainOps(u, s.cache, rs[k]);
    OneRequest(u, s, rs[k], addr);
    if more == [] {
      assert ops + more == ops;
    } else {
      assert more == [more[0]];
      OneMoreOp(u.ttl, ops, more[0], addr);
    }
  }

  /** A run of requests is, for the chains, the run of the calls whose signature held. */
  lemma {:induction false} AcceptedIsChainAccepted(u: Setup, rs: seq<Request>, addr: string)
    ensures StateAfter(u, rs).chains == RunOps(u.ttl, AllChainOps(u, rs))
    ensures AcceptedFrom(u, rs, addr) == Accepted(u.ttl, AllChainOps(u, rs), addr)
  {
    hide Respond, Check, ChainOps, RunOp, AcceptedNow;
    if rs == [] {
      assert RunOps(u.ttl, []) == map[] && Accepted(u.ttl, [], addr) == [];
    } else {
      hide RunOps, Accepted, AllChainOps;
      var k := |rs| - 1;
      AcceptedIsChainAccepted(u, rs[..k], addr);
      OneMoreRequest(u, rs, addr);
      OneRequest(u, StateAfter(u, rs[..k]), rs[k], addr);
    }
  }

  /**
   What a verifier has accepted from a signer, in any run and whatever the source answered:
   stretches that start at sequence 1 with no previous hash and count up, each message naming the
   hash of the one accepted before it.
   */
  lemma AcceptedMessagesAreSegmented(u: Setup, rs: seq<Request>, addr: string)
    ensures Segmented(u.ttl, AcceptedFrom(u, rs, addr))
  {
    hide RunOps, Accepted, AllChainOps, AcceptedFrom;
    AcceptedIsChainAccepted(u, rs, addr);
    AcceptedIsSegmented(u.ttl, AllChainOps(u, rs), addr);
  }

  /**
   The signature covers the message and not its header: for a message whose signature holds, the
   header alone decides, and it is taken exactly at a start or right after the last one accepted.
   So what is proved of unaltered envelopes needs them to be unaltered.
   */
  lemma HeaderAloneDecides(u: Setup, s: Held, message: seq<byte>, sig: OrderedSignature, header: OrderedSignature,
                           source: Source, t: Clock)
    requires Respond(u, s, InOrder(message, Some(sig), source, t)).1.None?
    requires header.signature == sig.signature && header.signerAddress == sig.signerAddress && header.sequence != 0
    ensures Respond(u, s, InOrder(message, Some(header), source, t)).1.None? <==>
            if header.sequence == 1 then header.previousHash == []
            else
              && header.signerAddress in s.chains
              && var last := s.chains[header.signerAddress];
                 !Expired(last, t.checked) && header.previousHash == last.hash && header.sequence == NextSequence(last.sequence)
  {
    hide SignatureVerdict, CacheAfter, Stored;
  }
}
