/**
 The peer store: an in-memory peer map written through to the key-value store, rolled
 back when the write fails, and read back after a restart.
 */
module PeerStore {
  import opened CountedCodec

  type NodeId = nat
  type Address = nat
  type Peers = map<NodeId, Address>

  /** Undoes the in-memory change for `p`, given what was there before. */
  function RollBack(peers: Peers, p: NodeId, previous: Option<Address>): (r: Peers) {
    if previous.Some? then peers[p := previous.value] else peers - {p}
  }

  function Lookup(peers: Peers, p: NodeId): (r: Option<Address>) {
    if p in peers then Some(peers[p]) else None
  }

  // ---- Persistence format ----

  ghost predicate DistinctKeys(pairs: seq<(NodeId, Address)>) {
    forall i, j :: 0 <= i < j < |pairs| ==> pairs[i].0 != pairs[j].0
  }

  /** `order` lists the pairs of `m`, each once: what iterating the hash map yields. */
  ghost predicate Enumerates(order: seq<(NodeId, Address)>, m: Peers) {
    && DistinctKeys(order)
    && (forall i :: 0 <= i < |order| ==> order[i].0 in m && m[order[i].0] == order[i].1)
    && (forall p :: p in m ==> (p, m[p]) in order)
  }

  function FromPairs(pairs: seq<(NodeId, Address)>): (r: Peers) {
    if pairs == [] then map[]
    else FromPairs(pairs[..|pairs| - 1])[pairs[|pairs| - 1].0 := pairs[|pairs| - 1].1]
  }

  /** `PeerStoreDeserWrapper::read`. */
  function Reload(c: ElementCodec<(NodeId, Address)>, bytes: seq<Byte>): (r: Option<Peers>) {
    var pairs := Decode(c, bytes);
    if pairs.None? then None else Some(FromPairs(pairs.value))
  }

  lemma {:induction false} PairsEnumerate(pairs: seq<(NodeId, Address)>)
    requires DistinctKeys(pairs)
    ensures Enumerates(pairs, FromPairs(pairs)) && |FromPairs(pairs)| == |pairs|
  {
    if pairs != [] {
      var n := |pairs| - 1;
      var front, last := pairs[..n], pairs[n];
      PairsEnumerate(front);
      NotEnumerated(front, FromPairs(front), last.0);
      EnumeratesOneMore(front, FromPairs(front), last.0, last.1);
      assert pairs == front + [last];
      CountOneMore(FromPairs(front), last.0, last.1);
    }
  }

  lemma CountOneMore(m: Peers, p: NodeId, address: Address)
    requires p !in m
    ensures |m[p := address]| == |m| + 1
  {
    assert m[p := address].Keys == m.Keys + {p};
  }

  lemma NotEnumerated(order: seq<(NodeId, Address)>, m: Peers, p: NodeId)
    requires Enumerates(order, m) && forall i :: 0 <= i < |order| ==> order[i].0 != p
    ensures p !in m
  {
  }

  lemma EnumeratedPairs(order: seq<(NodeId, Address)>, m: Peers, other: Peers, p: NodeId)
    requires Enumerates(order, m) && Enumerates(order, other) && p in m
    ensures p in other && other[p] == m[p]
  {
    var i :| 0 <= i < |order| && order[i] == (p, m[p]);
  }

  lemma EnumerationRebuilds(order: seq<(NodeId, Address)>, m: Peers)
    requires Enumerates(order, m)
    ensures FromPairs(order) == m && |order| == |m|
  {
    PairsEnumerate(order);
    var rebuilt := FromPairs(order);
    forall p | p in m ensures p in rebuilt && rebuilt[p] == m[p] {
      EnumeratedPairs(order, m, rebuilt, p);
    }
    forall p | p in rebuilt ensures p in m {
      EnumeratedPairs(order, rebuilt, m, p);
    }
    assert rebuilt == m;
  }

  /**
   A restart reads back the persisted map, in whatever order the hash map was iterated
   when it was written, exactly if it has fewer than 65536 peers.
   */
  lemma RestartReadsBackIff(c: ElementCodec<(NodeId, Address)>, order: seq<(NodeId, Address)>, m: Peers)
    requires SelfDelimiting(c) && Enumerates(order, m)
    ensures Reload(c, Encode(c, order)) == Some(m) <==> |m| < COUNT_LIMIT
  {
    EnumerationRebuilds(order, m);
    ReloadTruncates(c, order);
    if |m| < COUNT_LIMIT {
      assert order[..|order|] == order;
    } else {
      PairsEnumerate(order[..|order| % COUNT_LIMIT]);
    }
  }

  // ---- The store ----

  class Store {
    var peers: Peers
    var persisted: Peers

    /** What holds whenever the mutation lock is free. */
    predicate InSync()
      reads this
    {
      peers == persisted
    }

    constructor (loaded: Peers)
      ensures peers == loaded && InSync()
    {
      peers, persisted := loaded, loaded;
    }

    /** `add_peer` under the mutation lock; `writes` says whether the store accepts the write. */
    method AddPeer(p: NodeId, address: Address, writes: bool) returns (ok: bool)
      requires InSync()
      modifies this
      ensures InSync()
      ensures ok <==> writes || Lookup(old(peers), p) == Some(address)
      ensures peers == if ok then old(peers)[p := address] else old(peers)
    {
      var previous := Lookup(peers, p);
      if previous == Some(address) {
        assert peers == peers[p := address];
        return true;
      }
      peers := peers[p := address];
      if !writes {
        peers := RollBack(peers, p, previous);
        assert peers == old(peers);
        return false;
      }
      persisted := peers;
      return true;
    }

    method RemovePeer(p: NodeId, writes: bool) returns (ok: bool)
      requires InSync()
      modifies this
      ensures InSync()
      ensures ok <==> writes
      ensures peers == if ok then old(peers) - {p} else old(peers)
    {
      var removed := Lookup(peers, p);
      peers := peers - {p};
      if !writes {
        if removed.Some? {
          peers := peers[p := removed.value];
        }
        assert peers == old(peers);
        return false;
      }
      persisted := peers;
      return true;
    }

    /**
     The peers `persist_missing_channel_peers_excluding` sets out to add: the first
     occurrence of each counterparty that is neither excluded nor stored and that has an
     announced address.
     */
    method MissingPeers(counterparties: seq<NodeId>, announced: Peers, excluded: set<NodeId>)
      returns (missing: seq<(NodeId, Address)>)
      ensures Enumerates(missing, Recoverable(peers, counterparties, announced, excluded))
    {
      var seen := {};
      missing := [];
      for i := 0 to |counterparties|
        invariant seen == set p | p in counterparties[..i]
        invariant Enumerates(missing, Recoverable(peers, counterparties[..i], announced, excluded))
      {
        var p := counterparties[i];
        ghost var before := Recoverable(peers, counterparties[..i], announced, excluded);
        ghost var after := Recoverable(peers, counterparties[..i + 1], announced, excluded);
        assert counterparties[..i + 1] == counterparties[..i] + [p];
        if p in seen || p in excluded || p in peers || p !in announced {
          assert after == before;
        } else {
          assert after == before[p := announced[p]];
          EnumeratesOneMore(missing, before, p, announced[p]);
          missing := missing + [(p, announced[p])];
        }
        seen := seen + {p};
      }
      assert counterparties[..|counterparties|] == counterparties;
    }

    /** The second loop of `persist_missing_channel_peers_excluding`: failed writes are skipped over. */
    method AddEach(missing: seq<(NodeId, Address)>, writes: NodeId -> bool)
      requires InSync() && DistinctKeys(missing)
      requires forall i :: 0 <= i < |missing| ==> missing[i].0 !in peers
      modifies this
      ensures InSync() && peers == old(peers) + Accepted(FromPairs(missing), writes)
    {
      for i := 0 to |missing|
        invariant InSync() && peers == old(peers) + Accepted(FromPairs(missing[..i]), writes)
      {
        var (p, address) := missing[i];
        AddOneMore(missing, i, writes);
        if p !in peers {
          var ok := AddPeer(p, address, writes(p));
        }
      }
      assert missing[..|missing|] == missing;
    }

    /** `persist_missing_channel_peers_excluding`. */
    method PersistMissingPeers(
      counterparties: seq<NodeId>, announced: Peers, excluded: set<NodeId>, writes: NodeId -> bool)
      requires InSync()
      modifies this
      ensures InSync()
      ensures peers == old(peers) +
        Accepted(Recoverable(old(peers), counterparties, announced, excluded), writes)
    {
      var missing := MissingPeers(counterparties, announced, excluded);
      EnumerationRebuilds(missing, Recoverable(peers, counterparties, announced, excluded));
      AddEach(missing, writes);
    }
  }

  function Recoverable(peers: Peers, counterparties: seq<NodeId>, announced: Peers, excluded: set<NodeId>): (r: Peers) {
    map p | p in announced && p in counterparties && p !in excluded && p !in peers :: announced[p]
  }

  function Accepted(found: Peers, writes: NodeId -> bool): (r: Peers) {
    map p | p in found && writes(p) :: found[p]
  }

  /** What writing the `i`-th missing peer adds. */
  lemma AddOneMore(missing: seq<(NodeId, Address)>, i: nat, writes: NodeId -> bool)
    requires DistinctKeys(missing) && i < |missing|
    ensures var p, before := missing[i].0, Accepted(FromPairs(missing[..i]), writes);
      && p !in before
      && Accepted(FromPairs(missing[..i + 1]), writes) == if writes(p) then before[p := missing[i].1] else before
  {
    var front := missing[..i];
    PairsEnumerate(front);
    NotEnumerated(front, FromPairs(front), missing[i].0);
    assert missing[..i + 1][..i] == front;
    AcceptedOneMore(FromPairs(front), writes, missing[i].0, missing[i].1);
  }

  lemma AcceptedOneMore(found: Peers, writes: NodeId -> bool, p: NodeId, address: Address)
    requires p !in found
    ensures Accepted(found[p := address], writes) ==
      if writes(p) then Accepted(found, writes)[p := address] else Accepted(found, writes)
  {
  }

  lemma EnumeratesOneMore(order: seq<(NodeId, Address)>, m: Peers, p: NodeId, address: Address)
    requires Enumerates(order, m) && p !in m
    ensures Enumerates(order + [(p, address)], m[p := address])
  {
    var longer := order + [(p, address)];
    assert longer[|order|] == (p, address);
    assert forall q :: q in m ==> (q, m[q]) in order;
  }
}
