/**
 The mempool half of `BitcoindClient`: the entry cache, the transaction cache and the
 emission watermark, as updated by one poll of bitcoind.

 Transactions are identified with their txid. The replies of bitcoind are parameters;
 any of them may be an error, which ends the call where the source returns early.
 */
module MempoolClient {
  type Txid = nat

  datatype Option<+T> = None | Some(value: T)

  /** A cached `MempoolEntry`: when the transaction entered the pool, and at which height. */
  datatype Entry = Entry(time: nat, height: nat)

  /** The reply to `getmempoolentry`. */
  datatype EntryReply = EntryFound(entry: Entry) | EntryMissing | EntryError

  /** The reply to `getrawtransaction`. */
  datatype RawReply = RawFound | RawMissing | RawError

  /** What decides whether a cached entry is emitted, apart from the entry itself. */
  datatype Selection = Selection(bestHeight: nat, watermark: nat, replayAll: bool)

  predicate ShouldEmit(entry: Entry, sel: Selection) {
    sel.replayAll || entry.height > sel.bestHeight || entry.time >= sel.watermark
  }

  // ---- The entry cache ----

  function Retain(entries: map<Txid, Entry>, txids: seq<Txid>): (r: map<Txid, Entry>) {
    map x | x in entries && x in txids :: entries[x]
  }

  /** The cache after asking for each listed txid in turn, and whether no lookup failed. */
  function LookUpAll(entries: map<Txid, Entry>, txids: seq<Txid>, replies: seq<EntryReply>)
    : (r: (bool, map<Txid, Entry>))
    requires |txids| == |replies|
  {
    if txids == [] then (true, entries)
    else
      var before := LookUpAll(entries, txids[..|txids| - 1], replies[..|txids| - 1]);
      var x, reply := txids[|txids| - 1], replies[|txids| - 1];
      if !before.0 || x in before.1 || reply.EntryMissing? then before
      else if reply.EntryError? then (false, before.1)
      else (true, before.1[x := reply.entry])
  }

  function RefreshCache(entries: map<Txid, Entry>, txids: seq<Txid>, replies: seq<EntryReply>)
    : (r: (bool, map<Txid, Entry>))
    requires |txids| == |replies|
  {
    LookUpAll(Retain(entries, txids), txids, replies)
  }

  /** Lookups keep what is cached, and cache only what bitcoind reported for a listed txid. */
  lemma {:induction false} LookUpAllFacts(entries: map<Txid, Entry>, txids: seq<Txid>, replies: seq<EntryReply>)
    requires |txids| == |replies|
    ensures var after := LookUpAll(entries, txids, replies).1;
      && entries.Keys <= after.Keys
      && (forall x :: x in entries ==> after[x] == entries[x])
      && (forall x :: x in after && x !in entries ==>
            exists i :: 0 <= i < |txids| && txids[i] == x && replies[i] == EntryFound(after[x]))
  {
    if txids != [] {
      var n := |txids| - 1;
      LookUpAllFacts(entries, txids[..n], replies[..n]);
      var before, after := LookUpAll(entries, txids[..n], replies[..n]).1, LookUpAll(entries, txids, replies).1;
      forall x | x in after && x !in entries
        ensures exists i :: 0 <= i < |txids| && txids[i] == x && replies[i] == EntryFound(after[x])
      {
        if x in before {
          var i :| 0 <= i < n && txids[..n][i] == x && replies[..n][i] == EntryFound(before[x]);
          assert txids[i] == x && replies[i] == EntryFound(after[x]);
        } else {
          assert txids[n] == x;
        }
      }
    }
  }

  /** When no lookup fails, every listed txid is cached unless bitcoind no longer had it. */
  lemma {:induction false} LookUpAllComplete(
    entries: map<Txid, Entry>, txids: seq<Txid>, replies: seq<EntryReply>, i: nat)
    requires |txids| == |replies| && i < |txids| && LookUpAll(entries, txids, replies).0
    ensures txids[i] in LookUpAll(entries, txids, replies).1 || replies[i].EntryMissing?
  {
    var n := |txids| - 1;
    if i < n {
      LookUpAllComplete(entries, txids[..n], replies[..n], i);
    }
  }

  // ---- Emission ----

  /** The emission needs a lookup for `x`, and that lookup fails. */
  predicate LookupFails(
    entries: map<Txid, Entry>, txs: map<Txid, nat>, raw: Txid -> RawReply, sel: Selection, x: Txid) {
    x in entries && ShouldEmit(entries[x], sel) && x !in txs && raw(x).RawError?
  }

  predicate IsEmitted(entries: map<Txid, Entry>, txs: map<Txid, nat>, raw: Txid -> RawReply, sel: Selection, x: Txid) {
    x in entries && ShouldEmit(entries[x], sel) && (x in txs || raw(x).RawFound?)
  }

  /** The emitted txids with the time each is emitted with. */
  function Emission(entries: map<Txid, Entry>, txs: map<Txid, nat>, raw: Txid -> RawReply, sel: Selection)
    : (r: map<Txid, nat>)
  {
    map x | x in entries && IsEmitted(entries, txs, raw, sel, x) :: if x in txs then txs[x] else entries[x].time
  }

  /** `latest` is the largest of the watermark and the times in the cache. */
  ghost predicate IsLatestTime(entries: map<Txid, Entry>, watermark: nat, latest: nat) {
    && watermark <= latest
    && (forall x :: x in entries ==> entries[x].time <= latest)
    && (latest == watermark || exists x :: x in entries && entries[x].time == latest)
  }

  predicate Distinct(emitted: seq<(Txid, nat)>) {
    forall i, j :: 0 <= i < j < |emitted| ==> emitted[i].0 != emitted[j].0
  }

  /** `emitted` lists the pairs of `m`, each once, in some order. */
  ghost predicate Lists(emitted: seq<(Txid, nat)>, m: map<Txid, nat>) {
    && Distinct(emitted)
    && (forall i :: 0 <= i < |emitted| ==> emitted[i].0 in m && m[emitted[i].0] == emitted[i].1)
    && (forall x :: x in m ==> (x, m[x]) in emitted)
  }

  // ---- Eviction ----

  function Max(a: nat, b: nat): (r: nat) {
    if a < b then b else a
  }

  /** The wallet's unconfirmed txids missing from the cache, with their eviction times. */
  function Evicted(unconfirmed: seq<(Txid, nat)>, entries: map<Txid, Entry>, timestamp: nat)
    : (r: seq<(Txid, nat)>)
  {
    if unconfirmed == [] then []
    else
      var (x, lastSeen) := unconfirmed[0];
      (if x in entries then [] else [(x, Max(timestamp, lastSeen))])
      + Evicted(unconfirmed[1..], entries, timestamp)
  }

  function EvictionTime(watermark: nat, next: Option<nat>, clock: Option<nat>): (r: nat) {
    Max(if next.Some? then next.value else watermark, if clock.Some? then clock.value else watermark)
  }

  lemma {:induction false} EvictedFacts(unconfirmed: seq<(Txid, nat)>, entries: map<Txid, Entry>, timestamp: nat)
    ensures forall x :: (exists t :: (x, t) in Evicted(unconfirmed, entries, timestamp)) <==>
                        x !in entries && (exists seen :: (x, seen) in unconfirmed)
    ensures forall x, t :: (x, t) in Evicted(unconfirmed, entries, timestamp) ==>
              timestamp <= t && exists seen :: (x, seen) in unconfirmed && seen <= t
  {
    if unconfirmed != [] {
      var head, rest := unconfirmed[0], unconfirmed[1..];
      EvictedFacts(rest, entries, timestamp);
      assert unconfirmed == [head] + rest;
      var tail, all := Evicted(rest, entries, timestamp), Evicted(unconfirmed, entries, timestamp);
      assert head.0 !in entries ==> all == [(head.0, Max(timestamp, head.1))] + tail;
      assert head.0 in entries ==> all == tail;
      forall x, t | (x, t) in all
        ensures timestamp <= t && exists seen :: (x, seen) in unconfirmed && seen <= t
      {
        if (x, t) in tail {
          var seen :| (x, seen) in rest && seen <= t;
        } else {
          assert (x, head.1) in unconfirmed;
        }
      }
      forall x
        ensures (exists t :: (x, t) in all) <==> x !in entries && (exists seen :: (x, seen) in unconfirmed)
      {
        if x !in entries && exists seen :: (x, seen) in unconfirmed {
          var seen :| (x, seen) in unconfirmed;
          if (x, seen) == head {
            assert (x, Max(timestamp, seen)) in all;
          } else {
            assert (x, seen) in rest;
            var t :| (x, t) in tail;
            assert (x, t) in all;
          }
        }
        if exists t :: (x, t) in all {
          var t :| (x, t) in all;
          if (x, t) in tail {
            var seen :| (x, seen) in rest;
            assert (x, seen) in unconfirmed;
          } else {
            assert (x, head.1) in unconfirmed;
          }
        }
      }
    }
  }

  datatype MempoolUpdate = MempoolUpdate(
    transactions: seq<(Txid, nat)>, evicted: seq<(Txid, nat)>, next: Option<nat>)

  /**
   An update evicts exactly the wallet's unconfirmed txids that the snapshot lacks, never
   one it also emits, and never at a time before the one the wallet last saw it, before
   the current watermark or before the watermark the update is going to commit.
   */
  ghost predicate WellEvicted(
    update: MempoolUpdate, entries: map<Txid, Entry>, unconfirmed: seq<(Txid, nat)>, watermark: nat) {
    && (forall x :: (exists t :: (x, t) in update.evicted) <==>
                    x !in entries && (exists seen :: (x, seen) in unconfirmed))
    && (forall x, t :: (x, t) in update.evicted ==> (forall u :: (x, u) !in update.transactions))
    && (forall x, t :: (x, t) in update.evicted ==>
          && watermark <= t
          && (update.next.Some? ==> update.next.value <= t)
          && exists seen :: (x, seen) in unconfirmed && seen <= t)
  }

  class BitcoindClient {
    var watermark: nat
    var entries: map<Txid, Entry>
    var txs: map<Txid, nat>

    constructor ()
      ensures watermark == 0 && entries == map[] && txs == map[]
    {
      watermark, entries, txs := 0, map[], map[];
    }

    /** `update_mempool_entries_cache_inner`; no listing means that `getrawmempool` failed. */
    method UpdateEntriesCache(listing: Option<seq<Txid>>, replies: seq<EntryReply>) returns (ok: bool)
      requires listing.Some? ==> |listing.value| == |replies|
      modifies this`entries
      ensures listing.None? ==> !ok && entries == old(entries)
      ensures listing.Some? ==> (ok, entries) == RefreshCache(old(entries), listing.value, replies)
    {
      if listing.None? {
        return false;
      }
      var txids := listing.value;
      entries := Retain(entries, txids);
      ghost var retained := entries;
      for i := 0 to |txids|
        invariant LookUpAll(retained, txids[..i], replies[..i]) == (true, entries)
      {
        assert txids[..i + 1][..i] == txids[..i] && replies[..i + 1][..i] == replies[..i];
        if txids[i] !in entries {
          match replies[i] {
            case EntryFound(entry) => entries := entries[txids[i] := entry];
            case EntryMissing =>
            case EntryError =>
              LookUpAllStops(retained, txids, replies, i + 1);
              return false;
          }
        }
      }
      assert txids[..|txids|] == txids && replies[..|txids|] == replies;
      return true;
    }

    /**
     `get_mempool_transactions_and_timestamp_at_height_inner` after the cache refresh:
     one pass over the cached entries in whatever order the hash map yields them.
     */
    method CollectTransactions(raw: Txid -> RawReply, bestHeight: nat, replayAll: bool)
      returns (ok: bool, emitted: seq<(Txid, nat)>, next: Option<nat>)
      modifies this`txs
      ensures var sel := Selection(bestHeight, watermark, replayAll);
        var emission := Emission(entries, old(txs), raw, sel);
        && (ok <==> !exists x :: LookupFails(entries, old(txs), raw, sel, x))
        && (ok ==> Lists(emitted, emission) && txs == Kept(entries, old(txs)) + emission)
        && (ok ==> (next.None? <==> emitted == []))
        && (ok && next.Some? ==> IsLatestTime(entries, watermark, next.value))
        && (exists todo :: txs == TxsAfter(Job(entries, old(txs), raw, sel), todo))
    {
      var latest, todo := watermark, entries.Keys;
      ghost var job := Job(entries, txs, raw, Selection(bestHeight, watermark, replayAll));
      txs := Kept(entries, txs);
      emitted := [];
      NothingVisited(job);
      while todo != {}
        invariant todo <= entries.Keys
        invariant IsLatestTime(Visited(job, todo), watermark, latest)
        invariant txs == TxsAfter(job, todo)
        invariant Lists(emitted, EmittedAfter(job, todo))
        invariant NoneFailed(job, todo)
        decreases |todo|
      {
        var x :| x in todo;
        var entry := entries[x];
        VisitOne(job, todo, x);
        LatestGrows(Visited(job, todo), watermark, latest, x, entry);
        if entry.time > latest {
          latest := entry.time;
        }
        if ShouldEmit(entry, Selection(bestHeight, watermark, replayAll)) {
          if x in txs {
            ListsOneMore(emitted, EmittedAfter(job, todo), x, txs[x]);
            emitted := emitted + [(x, txs[x])];
          } else {
            match raw(x) {
              case RawFound =>
                txs := txs[x := entry.time];
                ListsOneMore(emitted, EmittedAfter(job, todo), x, entry.time);
                emitted := emitted + [(x, entry.time)];
              case RawMissing =>
              case RawError =>
                assert LookupFails(job.entries, job.txs, raw, job.sel, x);
                return false, [], None;
            }
          }
        }
        todo := todo - {x};
      }
      AllVisited(job);
      return true, emitted, if emitted == [] then None else Some(latest);
    }

    /**
     `get_updated_mempool_transactions`: refresh, collect, then evict what the wallet
     still holds unconfirmed but the refreshed cache no longer lists. The watermark
     only moves when the update is committed.
     */
    method GetUpdatedTransactions(
      listing: Option<seq<Txid>>, replies: seq<EntryReply>, raw: Txid -> RawReply,
      bestHeight: nat, replayAll: bool, unconfirmed: seq<(Txid, nat)>, clock: Option<nat>)
      returns (update: Option<MempoolUpdate>)
      requires listing.Some? ==> |listing.value| == |replies|
      modifies this`entries, this`txs
      ensures update.Some? <==> (
        && listing.Some?
        && RefreshCache(old(entries), listing.value, replies).0
        && !exists x :: LookupFails(entries, old(txs), raw, Selection(bestHeight, watermark, replayAll), x))
      ensures update.Some? ==> listing.Some? && entries == RefreshCache(old(entries), listing.value, replies).1
      ensures update.Some? ==>
        Lists(update.value.transactions, Emission(entries, old(txs), raw, Selection(bestHeight, watermark, replayAll)))
      ensures update.Some? && update.value.next.Some? ==> IsLatestTime(entries, watermark, update.value.next.value)
      ensures update.Some? ==> WellEvicted(update.value, entries, unconfirmed, watermark)
    {
      var ok := UpdateEntriesCache(listing, replies);
      if !ok {
        return None;
      }
      var collected, emitted, next := CollectTransactions(raw, bestHeight, replayAll);
      if !collected {
        return None;
      }
      var timestamp := EvictionTime(watermark, next, clock);
      EvictedFacts(unconfirmed, entries, timestamp);
      return Some(MempoolUpdate(emitted, Evicted(unconfirmed, entries, timestamp), next));
    }

    method CommitTimestamp(timestamp: Option<nat>)
      modifies this`watermark
      ensures watermark == if timestamp.Some? then Max(old(watermark), timestamp.value) else old(watermark)
    {
      if timestamp.Some? {
        watermark := Max(watermark, timestamp.value);
      }
    }
  }

  function Kept(entries: map<Txid, Entry>, txs: map<Txid, nat>): (r: map<Txid, nat>) {
    map x | x in txs && x in entries :: txs[x]
  }

  /** What one emission pass works on. */
  datatype Job = Job(entries: map<Txid, Entry>, txs: map<Txid, nat>, raw: Txid -> RawReply, sel: Selection)

  function Visited(job: Job, todo: set<Txid>): (r: map<Txid, Entry>) {
    map x | x in job.entries && x !in todo :: job.entries[x]
  }

  /** The part of the emission that is out when the entries in `todo` are still to be visited. */
  function EmittedAfter(job: Job, todo: set<Txid>): (r: map<Txid, nat>) {
    var emission := Emission(job.entries, job.txs, job.raw, job.sel);
    map x | x in emission && x !in todo :: emission[x]
  }

  function TxsAfter(job: Job, todo: set<Txid>): (r: map<Txid, nat>) {
    Kept(job.entries, job.txs) + EmittedAfter(job, todo)
  }

  ghost predicate NoneFailed(job: Job, todo: set<Txid>) {
    forall x :: x in job.entries && x !in todo ==> !LookupFails(job.entries, job.txs, job.raw, job.sel, x)
  }

  lemma NothingVisited(job: Job)
    ensures Visited(job, job.entries.Keys) == map[]
    ensures EmittedAfter(job, job.entries.Keys) == map[]
    ensures TxsAfter(job, job.entries.Keys) == Kept(job.entries, job.txs)
  {
  }

  lemma AllVisited(job: Job)
    ensures Visited(job, {}) == job.entries
    ensures EmittedAfter(job, {}) == Emission(job.entries, job.txs, job.raw, job.sel)
  {
  }

  /** What visiting one more entry changes. */
  lemma VisitOne(job: Job, todo: set<Txid>, x: Txid)
    requires x in todo && x in job.entries
    ensures Visited(job, todo - {x}) == Visited(job, todo)[x := job.entries[x]]
    ensures x in TxsAfter(job, todo) <==> x in job.txs
    ensures x in job.txs ==> TxsAfter(job, todo)[x] == job.txs[x]
    ensures var emission := Emission(job.entries, job.txs, job.raw, job.sel);
      if x in emission then
        && EmittedAfter(job, todo - {x}) == EmittedAfter(job, todo)[x := emission[x]]
        && TxsAfter(job, todo - {x}) ==
           if x in job.txs then TxsAfter(job, todo) else TxsAfter(job, todo)[x := emission[x]]
      else
        && EmittedAfter(job, todo - {x}) == EmittedAfter(job, todo)
        && TxsAfter(job, todo - {x}) == TxsAfter(job, todo)
  {
    var emission := Emission(job.entries, job.txs, job.raw, job.sel);
    if x in emission {
      assert EmittedAfter(job, todo - {x}) == EmittedAfter(job, todo)[x := emission[x]];
    } else {
      assert EmittedAfter(job, todo - {x}) == EmittedAfter(job, todo);
    }
  }

  lemma ListsOneMore(emitted: seq<(Txid, nat)>, m: map<Txid, nat>, x: Txid, time: nat)
    requires Lists(emitted, m) && x !in m
    ensures Lists(emitted + [(x, time)], m[x := time])
  {
    var after := emitted + [(x, time)];
    assert after[|emitted|] == (x, time);
    assert forall y :: y in m ==> (y, m[y]) in emitted;
  }

  lemma LatestGrows(entries: map<Txid, Entry>, watermark: nat, latest: nat, x: Txid, entry: Entry)
    requires IsLatestTime(entries, watermark, latest) && x !in entries
    ensures IsLatestTime(entries[x := entry], watermark, Max(latest, entry.time))
  {
    var after := entries[x := entry];
    if entry.time > latest {
      assert x in after && after[x].time == entry.time;
    } else if latest != watermark {
      var y :| y in entries && entries[y].time == latest;
      assert y in after && after[y].time == latest;
    }
  }

  /** An error stops the refresh: later txids change nothing. */
  lemma {:induction false} LookUpAllStops(entries: map<Txid, Entry>, txids: seq<Txid>, replies: seq<EntryReply>, n: nat)
    requires |txids| == |replies| && n <= |txids| && !LookUpAll(entries, txids[..n], replies[..n]).0
    ensures LookUpAll(entries, txids, replies) == LookUpAll(entries, txids[..n], replies[..n])
  {
    if n < |txids| {
      var last := |txids| - 1;
      assert txids[..last][..n] == txids[..n] && replies[..last][..n] == replies[..n];
      LookUpAllStops(entries, txids[..last], replies[..last], n);
    } else {
      assert txids[..n] == txids && replies[..n] == replies;
    }
  }
}
