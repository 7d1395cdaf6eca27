/** The bounded cache of block headers that chain synchronisation looks headers up in. */
module HeaderCache {
  datatype Option<+T> = None | Some(value: T)

  type Hash = nat
  type Header = nat

  const MAX_HEADER_CACHE_ENTRIES := 100

  /** The cached headers, and the hashes connected so far and not yet popped, oldest first. */
  datatype Cache = Cache(headers: map<Hash, Header>, seen: seq<Hash>)

  datatype Event = Connect(hash: Hash, header: Header) | Disconnect(hash: Hash)

  const Empty := Cache(map[], [])

  ghost predicate Valid(c: Cache) {
    |c.headers| < MAX_HEADER_CACHE_ENTRIES && AllQueued(c)
  }

  /** Pops hashes until one of them had a header, which goes with it. */
  function Evict(c: Cache): (r: Cache)
    decreases c.seen
  {
    if c.seen == [] then c
    else if c.seen[0] in c.headers then Cache(c.headers - {c.seen[0]}, c.seen[1..])
    else Evict(Cache(c.headers, c.seen[1..]))
  }

  function Connected(c: Cache, hash: Hash, header: Header): (r: Cache) {
    var added := Cache(c.headers[hash := header], c.seen + [hash]);
    if |added.headers| >= MAX_HEADER_CACHE_ENTRIES then Evict(added) else added
  }

  function Without(hashes: seq<Hash>, hash: Hash): (r: seq<Hash>) {
    if hashes == [] then []
    else (if hashes[0] == hash then [] else [hashes[0]]) + Without(hashes[1..], hash)
  }

  function Disconnected(c: Cache, hash: Hash): (r: Cache) {
    Cache(c.headers - {hash}, Without(c.seen, hash))
  }

  function Apply(c: Cache, event: Event): (r: Cache) {
    match event
    case Connect(hash, header) => Connected(c, hash, header)
    case Disconnect(hash) => Disconnected(c, hash)
  }

  /** The cache after a history of connections and disconnections. */
  function Run(events: seq<Event>): (r: Cache) {
    if events == [] then Empty else Apply(Run(events[..|events| - 1]), events[|events| - 1])
  }

  // ---- The cache stays bounded and what it holds stays queued ----

  lemma {:induction false} WithoutElements(hashes: seq<Hash>, hash: Hash)
    ensures forall h :: h in Without(hashes, hash) <==> h in hashes && h != hash
    decreases hashes
  {
    if hashes != [] {
      WithoutElements(hashes[1..], hash);
      assert hashes == [hashes[0]] + hashes[1..];
    }
  }

  ghost predicate AllQueued(c: Cache) {
    forall h :: h in c.headers ==> h in c.seen
  }

  /** The k-th hash is the first one in the queue that has a header. */
  predicate OldestAt(c: Cache, k: nat) {
    k < |c.seen| && c.seen[k] in c.headers && forall i :: 0 <= i < k ==> c.seen[i] !in c.headers
  }

  lemma RestStaysQueued(c: Cache)
    requires AllQueued(c) && c.seen != [] && c.seen[0] !in c.headers
    ensures AllQueued(Cache(c.headers, c.seen[1..]))
  {
    forall h | h in c.headers ensures h in c.seen[1..] {
      assert h in c.seen && h != c.seen[0];
    }
  }

  lemma OldestShifts(c: Cache, j: nat)
    requires c.seen != [] && c.seen[0] !in c.headers && OldestAt(Cache(c.headers, c.seen[1..]), j)
    ensures OldestAt(c, j + 1) && c.seen[j + 1] == c.seen[1..][j] && c.seen[j + 2..] == c.seen[1..][j + 1..]
  {
    assert forall i :: 0 < i < j + 1 ==> c.seen[i] == c.seen[1..][i - 1];
  }

  /** Eviction removes exactly one header, the one whose hash was queued first. */
  lemma {:induction false} EvictRemovesOldest(c: Cache) returns (k: nat)
    requires c.headers != map[] && AllQueued(c)
    ensures OldestAt(c, k)
    ensures Evict(c) == Cache(c.headers - {c.seen[k]}, c.seen[k + 1..])
    decreases c.seen
  {
    var some :| some in c.headers;
    assert some in c.seen;
    if c.seen[0] in c.headers {
      k := 0;
    } else {
      var rest := Cache(c.headers, c.seen[1..]);
      RestStaysQueued(c);
      var j := EvictRemovesOldest(rest);
      OldestShifts(c, j);
      k := j + 1;
    }
  }

  lemma EvictKeepsQueued(c: Cache)
    requires c.headers != map[] && AllQueued(c)
    ensures |Evict(c).headers| == |c.headers| - 1
    ensures forall h :: h in Evict(c).headers ==> h in c.headers && Evict(c).headers[h] == c.headers[h]
    ensures AllQueued(Evict(c))
  {
    var k := EvictRemovesOldest(c);
    assert c.headers.Keys - {c.seen[k]} == (c.headers - {c.seen[k]}).Keys;
    assert |c.headers.Keys| == |c.headers| && |(c.headers - {c.seen[k]}).Keys| == |c.headers - {c.seen[k]}|;
    forall h | h in c.headers && h != c.seen[k] ensures h in c.seen[k + 1..] {
      var i :| 0 <= i < |c.seen| && c.seen[i] == h;
      assert c.seen[k + 1..][i - k - 1] == h;
    }
  }

  lemma ConnectedFacts(c: Cache, hash: Hash, header: Header)
    requires Valid(c)
    ensures Valid(Connected(c, hash, header))
    ensures forall h :: h in Connected(c, hash, header).headers ==>
      (h == hash && Connected(c, hash, header).headers[h] == header)
      || (h in c.headers && h != hash && Connected(c, hash, header).headers[h] == c.headers[h])
  {
    var added := Cache(c.headers[hash := header], c.seen + [hash]);
    assert added.headers.Keys == c.headers.Keys + {hash};
    assert |added.headers| == |added.headers.Keys| <= |c.headers.Keys| + 1;
    assert |c.headers.Keys| == |c.headers|;
    assert forall h :: h in added.seen <==> h in c.seen || h == hash;
    assert hash in added.headers;
    EvictKeepsQueued(added);
  }

  lemma DisconnectedFacts(c: Cache, hash: Hash)
    requires Valid(c)
    ensures Valid(Disconnected(c, hash))
  {
    WithoutElements(c.seen, hash);
    assert (c.headers - {hash}).Keys <= c.headers.Keys;
    NoLarger((c.headers - {hash}).Keys, c.headers.Keys);
    assert |c.headers.Keys| == |c.headers| && |(c.headers - {hash}).Keys| == |c.headers - {hash}|;
  }

  lemma NoLarger(a: set<Hash>, b: set<Hash>)
    requires a <= b
    ensures |a| <= |b|
  {
    assert b == a + (b - a);
  }

  // ---- Whole histories ----

  /** The header last connected under `hash`, unless it was disconnected since. */
  function LastHeader(events: seq<Event>, hash: Hash): (r: Option<Header>) {
    if events == [] then None
    else
      var last := events[|events| - 1];
      if last.hash != hash then LastHeader(events[..|events| - 1], hash)
      else if last.Connect? then Some(last.header) else None
  }

  /** Fewer than 100 headers, all of them still queued, and every hit is the last header connected. */
  lemma {:induction false} CacheIsBoundedAndCurrent(events: seq<Event>)
    ensures |Run(events).headers| < MAX_HEADER_CACHE_ENTRIES
    ensures forall h :: h in Run(events).headers ==> h in Run(events).seen
    ensures forall h :: h in Run(events).headers ==> LastHeader(events, h) == Some(Run(events).headers[h])
  {
    if events != [] {
      var before, last := events[..|events| - 1], events[|events| - 1];
      CacheIsBoundedAndCurrent(before);
      match last {
        case Connect(hash, header) => ConnectedFacts(Run(before), hash, header);
        case Disconnect(hash) => DisconnectedFacts(Run(before), hash);
      }
    }
  }

  // ---- Eviction order ----

  /** A bounded queue of hashes: the reference for what the cache should hold. */
  function Fifo(events: seq<Event>): (r: seq<Hash>) {
    if events == [] then []
    else
      var before := Fifo(events[..|events| - 1]);
      match events[|events| - 1]
      case Connect(hash, _) =>
        if |before| + 1 >= MAX_HEADER_CACHE_ENTRIES then (before + [hash])[1..] else before + [hash]
      case Disconnect(hash) => Without(before, hash)
  }

  /** No hash is connected while an earlier connection of it is still queued. */
  predicate NeverReconnected(events: seq<Event>) {
    events == [] ||
    var before, last := events[..|events| - 1], events[|events| - 1];
    NeverReconnected(before) && (last.Connect? ==> last.hash !in Run(before).seen)
  }

  ghost predicate Distinct(hashes: seq<Hash>) {
    forall i, j :: 0 <= i < j < |hashes| ==> hashes[i] != hashes[j]
  }

  /** The queue names each cached hash once and nothing else. */
  ghost predicate Exact(c: Cache) {
    Distinct(c.seen) && forall h :: h in c.seen <==> h in c.headers
  }

  lemma {:induction false} DistinctSize(hashes: seq<Hash>, keys: set<Hash>)
    requires Distinct(hashes) && forall h :: h in hashes <==> h in keys
    ensures |hashes| == |keys|
    decreases hashes
  {
    if hashes == [] {
      assert keys == {};
    } else {
      var first, rest := hashes[0], hashes[1..];
      assert hashes == [first] + rest;
      assert first !in rest;
      assert forall h :: h in rest <==> h in keys - {first};
      DistinctSize(rest, keys - {first});
    }
  }

  lemma {:induction false} WithoutDistinct(hashes: seq<Hash>, hash: Hash)
    requires Distinct(hashes)
    ensures Distinct(Without(hashes, hash))
    decreases hashes
  {
    if hashes != [] {
      WithoutDistinct(hashes[1..], hash);
      WithoutElements(hashes[1..], hash);
      assert forall i :: 0 <= i < |Without(hashes[1..], hash)| ==> Without(hashes[1..], hash)[i] in hashes[1..];
    }
  }

  lemma AddedIsExact(c: Cache, hash: Hash, header: Header)
    requires Exact(c) && hash !in c.seen
    ensures Exact(Cache(c.headers[hash := header], c.seen + [hash]))
    ensures |c.headers[hash := header]| == |c.seen| + 1
  {
    var added := Cache(c.headers[hash := header], c.seen + [hash]);
    assert forall i :: 0 <= i < |c.seen| ==> c.seen[i] in c.seen;
    assert forall h :: h in added.seen <==> h in c.seen || h == hash;
    DistinctSize(added.seen, added.headers.Keys);
    assert |added.headers.Keys| == |added.headers|;
  }

  lemma EvictsTheFirst(c: Cache)
    requires Exact(c) && c.seen != []
    ensures Evict(c) == Cache(c.headers - {c.seen[0]}, c.seen[1..]) && Exact(Evict(c))
  {
    var first, rest := c.seen[0], c.seen[1..];
    assert first in c.seen;
    assert c.seen == [first] + rest;
    assert forall h :: h in c.seen <==> h == first || h in rest;
    assert first !in rest;
  }

  lemma ConnectedInOrder(c: Cache, hash: Hash, header: Header)
    requires Exact(c) && hash !in c.seen
    ensures Exact(Connected(c, hash, header))
    ensures Connected(c, hash, header).seen ==
      if |c.seen| + 1 >= MAX_HEADER_CACHE_ENTRIES then (c.seen + [hash])[1..] else c.seen + [hash]
  {
    AddedIsExact(c, hash, header);
    EvictsTheFirst(Cache(c.headers[hash := header], c.seen + [hash]));
  }

  /**
   While no hash is reconnected in the queue, the cache is the bounded first-in-first-out
   queue of the connected hashes, so that evictions follow connection order exactly, and
   the queue is bounded as the headers are.
   */
  lemma EvictsInConnectionOrder(events: seq<Event>)
    requires NeverReconnected(events)
    ensures Run(events).seen == Fifo(events) && |Run(events).seen| < MAX_HEADER_CACHE_ENTRIES
    ensures Exact(Run(events))
  {
    FollowsFifo(events);
    CacheIsBoundedAndCurrent(events);
    DistinctSize(Run(events).seen, Run(events).headers.Keys);
    assert |Run(events).headers.Keys| == |Run(events).headers|;
  }

  lemma {:induction false} FollowsFifo(events: seq<Event>)
    requires NeverReconnected(events)
    ensures Run(events).seen == Fifo(events) && Exact(Run(events))
  {
    if events != [] {
      var before, last := events[..|events| - 1], events[|events| - 1];
      FollowsFifo(before);
      match last {
        case Connect(hash, header) => ConnectedInOrder(Run(before), hash, header);
        case Disconnect(hash) =>
          WithoutElements(Run(before).seen, hash);
          WithoutDistinct(Run(before).seen, hash);
      }
    }
  }

  ghost predicate ExactAfter(events: seq<Event>, n: nat)
    requires n <= |events|
  {
    Exact(Run(events[..n]))
  }

  ghost predicate AlwaysExact(events: seq<Event>) {
    forall n :: 0 <= n <= |events| ==> ExactAfter(events, n)
  }

  /** Reconnecting a hash that an exact queue holds makes it hold the hash twice. */
  lemma ReconnectionIsNotExact(c: Cache, hash: Hash, header: Header)
    requires Exact(c) && |c.headers| < MAX_HEADER_CACHE_ENTRIES && hash in c.seen
    ensures !Exact(Connected(c, hash, header))
  {
    assert c.headers[hash := header].Keys == c.headers.Keys;
    assert |c.headers[hash := header].Keys| == |c.headers[hash := header]| && |c.headers.Keys| == |c.headers|;
    var k :| 0 <= k < |c.seen| && c.seen[k] == hash;
    var after := Connected(c, hash, header).seen;
    assert after == c.seen + [hash] && after[k] == after[|c.seen|];
  }

  lemma {:induction false} AlwaysExactOneMore(events: seq<Event>)
    requires events != []
    ensures AlwaysExact(events) <==> AlwaysExact(events[..|events| - 1]) && Exact(Run(events))
  {
    var before := events[..|events| - 1];
    assert events[..|events|] == events;
    forall m | 0 <= m <= |before| ensures ExactAfter(before, m) <==> ExactAfter(events, m) {
      assert before[..m] == events[..m];
    }
    assert ExactAfter(events, |events|) <==> Exact(Run(events));
  }

  /** The queue names the cached hashes, each once, all along a history exactly if none is reconnected in it. */
  lemma {:induction false} ExactIffNeverReconnected(events: seq<Event>)
    ensures AlwaysExact(events) <==> NeverReconnected(events)
  {
    if events == [] {
      assert forall n :: 0 <= n <= |events| ==> events[..n] == [];
    } else {
      var before, last := events[..|events| - 1], events[|events| - 1];
      ExactIffNeverReconnected(before);
      AlwaysExactOneMore(events);
      if NeverReconnected(events) {
        FollowsFifo(events);
      } else if NeverReconnected(before) {
        FollowsFifo(before);
        CacheIsBoundedAndCurrent(before);
        ReconnectionIsNotExact(Run(before), last.hash, last.header);
      }
    }
  }

  /** A hash reconnected while queued keeps its old place: it goes first, however recent it is. */
  lemma ReconnectedIsEvictedFirst(c: Cache, hash: Hash, header: Header, next: Hash, header': Header)
    requires Valid(c) && c.seen != [] && c.seen[0] == hash && hash in c.headers
    requires |c.headers| == MAX_HEADER_CACHE_ENTRIES - 1 && next !in c.headers
    ensures var again := Connected(c, hash, header);
      again.seen == c.seen + [hash] && hash !in Connected(again, next, header').headers
  {
    assert c.headers[hash := header].Keys == c.headers.Keys;
    assert |c.headers[hash := header].Keys| == |c.headers[hash := header]| && |c.headers.Keys| == |c.headers|;
    var again := Connected(c, hash, header);
    assert again.headers[next := header'].Keys == c.headers.Keys + {next};
    assert |again.headers[next := header'].Keys| == |again.headers[next := header']|;
  }

  /** The same block reconnected n times: the queue of hashes is not bounded. */
  function Reconnections(hash: Hash, header: Header, n: nat): (r: seq<Event>) {
    seq(n, _ => Connect(hash, header))
  }

  lemma {:induction false} QueueCanGrowWithoutBound(hash: Hash, header: Header, n: nat)
    ensures |Run(Reconnections(hash, header, n)).seen| == n
    ensures Run(Reconnections(hash, header, n)).headers.Keys <= {hash}
  {
    if n > 0 {
      var events := Reconnections(hash, header, n);
      assert events[..|events| - 1] == Reconnections(hash, header, n - 1);
      QueueCanGrowWithoutBound(hash, header, n - 1);
      var c := Run(Reconnections(hash, header, n - 1));
      assert c.headers[hash := header].Keys == {hash};
      assert |c.headers[hash := header]| == |c.headers[hash := header].Keys|;
    }
  }

  // ---- The cache itself ----

  class BoundedHeaderCache {
    var headerMap: map<Hash, Header>
    var recentlySeen: seq<Hash>

    ghost function View(): (c: Cache)
      reads this
    {
      Cache(headerMap, recentlySeen)
    }

    constructor ()
      ensures View() == Empty && Valid(View())
    {
      headerMap, recentlySeen := map[], [];
    }

    method LookUp(hash: Hash) returns (header: Option<Header>)
      ensures header.Some? <==> hash in headerMap
      ensures header.Some? ==> header.value == headerMap[hash]
    {
      header := if hash in headerMap then Some(headerMap[hash]) else None;
    }

    method BlockConnected(hash: Hash, header: Header)
      requires Valid(View())
      modifies this
      ensures View() == Connected(old(View()), hash, header) && Valid(View())
    {
      ConnectedFacts(View(), hash, header);
      recentlySeen := recentlySeen + [hash];
      headerMap := headerMap[hash := header];
      if |headerMap| >= MAX_HEADER_CACHE_ENTRIES {
        ghost var added := View();
        var removed := false;
        while recentlySeen != [] && !removed
          invariant !removed ==> Evict(View()) == Evict(added)
          invariant removed ==> View() == Evict(added)
          decreases recentlySeen
        {
          var oldest := recentlySeen[0];
          recentlySeen := recentlySeen[1..];
          if oldest in headerMap {
            headerMap := headerMap - {oldest};
            removed := true;
          }
        }
      }
    }

    method BlockDisconnected(hash: Hash) returns (header: Option<Header>)
      requires Valid(View())
      modifies this
      ensures View() == Disconnected(old(View()), hash) && Valid(View())
      ensures header == if hash in old(headerMap) then Some(old(headerMap)[hash]) else None
    {
      DisconnectedFacts(View(), hash);
      header := if hash in headerMap then Some(headerMap[hash]) else None;
      headerMap := headerMap - {hash};
      recentlySeen := Without(recentlySeen, hash);
    }
  }
}
