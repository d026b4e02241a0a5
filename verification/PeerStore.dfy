/** Where a verifier's identities come from: the store first, then the remote service, written through. */
module PeerStore {
  import opened Bytes
  import opened IdentityCache
  import opened Options

  /** The first row for an address. */
  function RowFor(rows: seq<Identity>, addr: string): Option<Identity> {
    if rows == [] then None
    else if rows[0].serverAddress == addr then Some(rows[0])
    else RowFor(rows[1..], addr)
  }

  /** Public keys are unique in the table. */
  predicate HasKey(rows: seq<Identity>, key: seq<byte>) {
    exists i | 0 <= i < |rows| :: rows[i].publicKey == key
  }

  /** One request: the address asked for, what its service would report, and whether the database takes a new row. */
  datatype Ask = Ask(addr: string, remote: Option<Identity>, insertOk: bool)

  /** No row for the address, a report from its service, and room for it in the table. */
  predicate Inserts(rows: seq<Identity>, ask: Ask) {
    && RowFor(rows, ask.addr).None? && ask.remote.Some?
    && ask.insertOk && !HasKey(rows, ask.remote.value.publicKey)
  }

  class Store {
    var rows: seq<Identity>

    constructor ()
      ensures rows == []
    {
      rows := [];
    }

    method InsertIdentity(identity: Identity, insertOk: bool) returns (ok: bool)
      modifies this
      ensures ok <==> insertOk && !HasKey(old(rows), identity.publicKey)
      ensures rows == if ok then old(rows) + [identity] else old(rows)
    {
      ok := insertOk && !HasKey(rows, identity.publicKey);
      if ok {
        rows := rows + [identity];
      }
    }

    /** A fetched identity that cannot be stored is not answered either. */
    method GetPeerIdentity(ask: Ask) returns (r: Option<Identity>)
      modifies this
      ensures rows == if Inserts(old(rows), ask) then old(rows) + [ask.remote.value] else old(rows)
      ensures r == if RowFor(old(rows), ask.addr).Some? then RowFor(old(rows), ask.addr)
                   else if Inserts(old(rows), ask) then ask.remote else None
    {
      r := RowFor(rows, ask.addr);
      if r.Some? {
        return;
      }
      if ask.remote.None? {
        return None;
      }
      var ok := InsertIdentity(ask.remote.value, ask.insertOk);
      if !ok {
        return None;
      }
      return ask.remote;
    }
  }

  function RowsAfter(asks: seq<Ask>): seq<Identity> {
    if asks == [] then []
    else
      var rows, ask := RowsAfter(asks[..|asks| - 1]), asks[|asks| - 1];
      if Inserts(rows, ask) then rows + [ask.remote.value] else rows
  }

  /** Request `i` is the one that stored the identity its service reported. */
  predicate StoredBy(asks: seq<Ask>, i: nat, id: Identity) {
    i < |asks| && Inserts(RowsAfter(asks[..i]), asks[i]) && asks[i].remote == Some(id)
  }

  lemma {:induction false} RowForExtended(rows: seq<Identity>, id: Identity, addr: string)
    ensures RowFor(rows + [id], addr) ==
            if RowFor(rows, addr).Some? then RowFor(rows, addr) else if id.serverAddress == addr then Some(id) else None
  {
    if rows == [] {
      assert ([] + [id])[1..] == [];
    } else {
      assert (rows + [id])[1..] == rows[1..] + [id];
      RowForExtended(rows[1..], id, addr);
    }
  }

  /**
   The store answers for an address with the first identity naming it that any service reported
   into the store, whichever address was being asked for; and with nothing until there is one.
   */
  lemma {:induction false} FirstReportAnswers(asks: seq<Ask>, addr: string)
    ensures RowFor(RowsAfter(asks), addr).None? <==>
            forall i: nat, id | StoredBy(asks, i, id) :: id.serverAddress != addr
    ensures RowFor(RowsAfter(asks), addr).Some? ==>
              exists i: nat :: StoredBy(asks, i, RowFor(RowsAfter(asks), addr).value)
                && RowFor(RowsAfter(asks), addr).value.serverAddress == addr
                && forall j: nat, id | j < i && StoredBy(asks, j, id) :: id.serverAddress != addr
  {
    hide HasKey;
    if asks != [] {
      var k := |asks| - 1;
      var before := asks[..k];
      FirstReportAnswers(before, addr);
      StoredEarlier(asks);
      var rows := RowsAfter(before);
      if Inserts(rows, asks[k]) {
        RowForExtended(rows, asks[k].remote.value, addr);
      }
      if RowFor(rows, addr).Some? {
        var i: nat :| StoredBy(before, i, RowFor(rows, addr).value)
          && forall j: nat, id | j < i && StoredBy(before, j, id) :: id.serverAddress != addr;
        assert StoredBy(asks, i, RowFor(rows, addr).value);
      } else if RowFor(RowsAfter(asks), addr).Some? {
        assert StoredBy(asks, k, RowFor(RowsAfter(asks), addr).value);
      }
    }
  }

  lemma StoredEarlier(asks: seq<Ask>)
    requires asks != []
    ensures var k := |asks| - 1;
            && (forall i: nat, id | i < k :: StoredBy(asks, i, id) <==> StoredBy(asks[..k], i, id))
            && (forall id :: StoredBy(asks, k, id) <==> Inserts(RowsAfter(asks[..k]), asks[k]) && asks[k].remote == Some(id))
  {
    hide Inserts;
    var k := |asks| - 1;
    assert forall i | 0 <= i < k :: asks[..k][i] == asks[i] && asks[..k][..i] == asks[..i];
  }

  /** An answer names the address asked for exactly when it comes from a row or the service reports that address. */
  lemma AnswerNamesAddress(rows: seq<Identity>, ask: Ask)
    requires Inserts(rows, ask) || RowFor(rows, ask.addr).Some?
    ensures var answer := if RowFor(rows, ask.addr).Some? then RowFor(rows, ask.addr).value else ask.remote.value;
            answer.serverAddress == ask.addr
            <==> RowFor(rows, ask.addr).Some? || ask.remote.value.serverAddress == ask.addr
  {
    RowNamesAddress(rows, ask.addr);
  }

  lemma RowNamesAddress(rows: seq<Identity>, addr: string)
    ensures RowFor(rows, addr).Some? ==> RowFor(rows, addr).value.serverAddress == addr
  {
  }
}
