/**
 Migrating channel data from another implementation into the store: the channel manager
 unless the store already has one, and every channel monitor that is newer than what the
 store holds for its channel. A read or write of the store may fail at any point.
 */
module Migration {
  datatype Option<+T> = None | Some(value: T)

  type Bytes = nat
  type Key = nat

  /** What deserialising a monitor tells: the key of its funding output and its latest update id. */
  datatype Monitor = Monitor(key: Key, updateId: nat)

  type Decoder = Bytes -> Option<Monitor>

  datatype Store = Store(manager: Option<Bytes>, monitors: map<Key, Bytes>)

  datatype Data = Data(manager: Option<Bytes>, monitors: seq<Bytes>)

  /** Whether the read, and the write if there is one, fail at a step of the migration. */
  datatype Faults = Faults(read: bool, write: bool)

  datatype Result = Ok | ReadFailed | WriteFailed

  // ---- What the migration computes ----

  function MigrateManager(store: Store, manager: Option<Bytes>, faults: Faults): (r: (Store, Result)) {
    if manager.None? then (store, Ok)
    else if faults.read then (store, ReadFailed)
    else if store.manager.Some? then (store, Ok)
    else if faults.write then (store, WriteFailed)
    else (store.(manager := manager), Ok)
  }

  /** Only a missing monitor, or a readable one with a lower update id, gives way to `migrated`. */
  predicate GivesWay(decode: Decoder, store: Store, migrated: Monitor) {
    migrated.key !in store.monitors ||
    var existing := decode(store.monitors[migrated.key]);
    existing.Some? && existing.value.updateId < migrated.updateId
  }

  function MigrateMonitor(decode: Decoder, store: Store, data: Bytes, faults: Faults): (r: (Store, Result)) {
    var migrated := decode(data);
    if migrated.None? || faults.read then (store, ReadFailed)
    else if !GivesWay(decode, store, migrated.value) then (store, Ok)
    else if faults.write then (store, WriteFailed)
    else (store.(monitors := store.monitors[migrated.value.key := data]), Ok)
  }

  /** The monitors in order, up to the first failure; `at` is the position of the first of them. */
  function MigrateMonitors(decode: Decoder, store: Store, monitors: seq<Bytes>, faults: nat -> Faults, at: nat)
    : (r: (Store, Result))
    decreases monitors
  {
    if monitors == [] then (store, Ok)
    else
      var (next, result) := MigrateMonitor(decode, store, monitors[0], faults(at));
      if result.Ok? then MigrateMonitors(decode, next, monitors[1..], faults, at + 1) else (next, result)
  }

  /** Step 0 is the manager, step k + 1 the k-th monitor. */
  function Migrate(decode: Decoder, store: Store, data: Data, faults: nat -> Faults): (r: (Store, Result)) {
    var (next, result) := MigrateManager(store, data.manager, faults(0));
    if result.Ok? then MigrateMonitors(decode, next, data.monitors, faults, 1) else (next, result)
  }

  // ---- What the store says about a channel ----

  datatype Slot = Absent | Unreadable | At(id: nat)

  function SlotAt(decode: Decoder, store: Store, key: Key): (r: Slot) {
    if key !in store.monitors then Absent
    else
      match decode(store.monitors[key])
      case None => Unreadable
      case Some(monitor) => At(monitor.updateId)
  }

  /** `id` is the update id of one of the migrated monitors of `key`. */
  predicate Offered(decode: Decoder, monitors: seq<Bytes>, key: Key, id: nat) {
    exists i :: 0 <= i < |monitors| && decode(monitors[i]) == Some(Monitor(key, id))
  }

  /** `after` is what should become of `before` once `monitors` were migrated: the highest id. */
  ghost predicate Settled(decode: Decoder, monitors: seq<Bytes>, key: Key, before: Slot, after: Slot) {
    if before.Unreadable? then after == Unreadable
    else if forall id: nat :: !Offered(decode, monitors, key, id) then after == before
    else
      && after.At?
      && (forall id: nat :: Offered(decode, monitors, key, id) ==> id <= after.id)
      && (before.At? ==> before.id <= after.id)
      && (before == after || Offered(decode, monitors, key, after.id))
  }

  /** The monitors went from `before` to `after` by migrating exactly `monitors`. */
  ghost predicate Migrated(decode: Decoder, monitors: seq<Bytes>, before: Store, after: Store) {
    && (forall k :: Settled(decode, monitors, k, SlotAt(decode, before, k), SlotAt(decode, after, k)))
    && (forall k :: Kept(decode, before, after, k))
  }

  /** A stored monitor is replaced only if it is readable, and only by one with a higher id. */
  predicate Kept(decode: Decoder, before: Store, after: Store, k: Key) {
    k in before.monitors ==>
      && k in after.monitors
      && (after.monitors[k] != before.monitors[k] ==>
            && SlotAt(decode, before, k).At? && SlotAt(decode, after, k).At?
            && SlotAt(decode, before, k).id < SlotAt(decode, after, k).id)
  }

  lemma OfferedByOne(decode: Decoder, data: Bytes, key: Key, id: nat)
    ensures Offered(decode, [data], key, id) <==> decode(data) == Some(Monitor(key, id))
  {
    assert [data][0] == data;
  }

  lemma OfferedByBoth(decode: Decoder, first: seq<Bytes>, rest: seq<Bytes>, key: Key, id: nat)
    ensures Offered(decode, first + rest, key, id) <==>
            Offered(decode, first, key, id) || Offered(decode, rest, key, id)
  {
    var all := first + rest;
    if Offered(decode, first, key, id) {
      var i :| 0 <= i < |first| && decode(first[i]) == Some(Monitor(key, id));
      assert all[i] == first[i];
    }
    if Offered(decode, rest, key, id) {
      var i :| 0 <= i < |rest| && decode(rest[i]) == Some(Monitor(key, id));
      assert all[|first| + i] == rest[i];
    }
  }

  lemma OneMonitorSettles(decode: Decoder, store: Store, data: Bytes, faults: Faults, key: Key)
    requires MigrateMonitor(decode, store, data, faults).1.Ok?
    ensures Settled(decode, [data], key, SlotAt(decode, store, key),
                    SlotAt(decode, MigrateMonitor(decode, store, data, faults).0, key))
  {
    forall id: nat ensures Offered(decode, [data], key, id) <==> decode(data) == Some(Monitor(key, id)) {
      OfferedByOne(decode, data, key, id);
    }
    var id := decode(data).value.updateId;
    assert key == decode(data).value.key ==> Offered(decode, [data], key, id);
  }

  /** Settling first one list and then another settles both. */
  lemma SettledInTurn(
    decode: Decoder, first: seq<Bytes>, rest: seq<Bytes>, key: Key, before: Slot, middle: Slot, after: Slot)
    requires Settled(decode, first, key, before, middle) && Settled(decode, rest, key, middle, after)
    ensures Settled(decode, first + rest, key, before, after)
  {
    forall id: nat
      ensures Offered(decode, first + rest, key, id) <==>
            Offered(decode, first, key, id) || Offered(decode, rest, key, id)
    {
      OfferedByBoth(decode, first, rest, key, id);
    }
  }

  /** What a slot settles to is determined, and does not depend on the order of the monitors. */
  lemma SettledIsUnique(
    decode: Decoder, monitors: seq<Bytes>, monitors': seq<Bytes>, key: Key, before: Slot, after: Slot, after': Slot)
    requires forall id: nat :: Offered(decode, monitors, key, id) <==> Offered(decode, monitors', key, id)
    requires Settled(decode, monitors, key, before, after) && Settled(decode, monitors', key, before, after')
    ensures after == after'
  {
  }

  lemma KeptInTurn(decode: Decoder, before: Store, middle: Store, after: Store, k: Key)
    requires Kept(decode, before, middle, k) && Kept(decode, middle, after, k)
    ensures Kept(decode, before, after, k)
  {
  }

  lemma OneMonitorMigrates(decode: Decoder, store: Store, data: Bytes, faults: Faults)
    requires MigrateMonitor(decode, store, data, faults).1.Ok?
    ensures Migrated(decode, [data], store, MigrateMonitor(decode, store, data, faults).0)
  {
    forall k ensures Settled(decode, [data], k, SlotAt(decode, store, k),
                             SlotAt(decode, MigrateMonitor(decode, store, data, faults).0, k)) {
      OneMonitorSettles(decode, store, data, faults, k);
    }
  }

  lemma MigratedInTurn(decode: Decoder, first: seq<Bytes>, rest: seq<Bytes>, before: Store, middle: Store, after: Store)
    requires Migrated(decode, first, before, middle) && Migrated(decode, rest, middle, after)
    ensures Migrated(decode, first + rest, before, after)
  {
    forall k ensures Settled(decode, first + rest, k, SlotAt(decode, before, k), SlotAt(decode, after, k)) {
      SettledInTurn(decode, first, rest, k,
                    SlotAt(decode, before, k), SlotAt(decode, middle, k), SlotAt(decode, after, k));
    }
    forall k ensures Kept(decode, before, after, k) {
      KeptInTurn(decode, before, middle, after, k);
    }
  }

  lemma NothingMigrates(decode: Decoder, store: Store)
    ensures Migrated(decode, [], store, store)
  {
  }

  lemma OnlyMonitorsMatter(decode: Decoder, monitors: seq<Bytes>, before: Store, after: Store, after': Store)
    requires Migrated(decode, monitors, before, after) && after.monitors == after'.monitors
    ensures Migrated(decode, monitors, before, after')
  {
    forall k ensures Kept(decode, before, after', k) {
      assert Kept(decode, before, after, k);
    }
    assert forall k :: SlotAt(decode, after', k) == SlotAt(decode, after, k);
  }

  /** However it ends, a migration has migrated some prefix of the monitors, all of them on Ok. */
  lemma {:induction false} MonitorsMigrateAPrefix(
    decode: Decoder, store: Store, monitors: seq<Bytes>, faults: nat -> Faults, at: nat)
    returns (n: nat)
    ensures n <= |monitors|
    ensures MigrateMonitors(decode, store, monitors, faults, at).1.Ok? ==> n == |monitors|
    ensures Migrated(decode, monitors[..n], store, MigrateMonitors(decode, store, monitors, faults, at).0)
    decreases monitors
  {
    n := 0;
    if monitors == [] {
      NothingMigrates(decode, store);
    } else {
      var (next, result) := MigrateMonitor(decode, store, monitors[0], faults(at));
      if result.Ok? {
        OneMonitorMigrates(decode, store, monitors[0], faults(at));
        var m := MonitorsMigrateAPrefix(decode, next, monitors[1..], faults, at + 1);
        MigratedInTurn(decode, [monitors[0]], monitors[1..][..m], store, next,
                       MigrateMonitors(decode, next, monitors[1..], faults, at + 1).0);
        n := m + 1;
        assert [monitors[0]] + monitors[1..][..m] == monitors[..n];
      } else {
        NothingMigrates(decode, store);
      }
    }
  }

  lemma {:induction false} ManagerStays(
    decode: Decoder, store: Store, monitors: seq<Bytes>, faults: nat -> Faults, at: nat)
    ensures MigrateMonitors(decode, store, monitors, faults, at).0.manager == store.manager
    decreases monitors
  {
    if monitors != [] {
      ManagerStays(decode, MigrateMonitor(decode, store, monitors[0], faults(at)).0, monitors[1..], faults, at + 1);
    }
  }

  // ---- Main results ----

  lemma MigratesAPrefix(decode: Decoder, store: Store, data: Data, faults: nat -> Faults) returns (n: nat)
    ensures n <= |data.monitors|
    ensures Migrate(decode, store, data, faults).1.Ok? ==> n == |data.monitors|
    ensures Migrated(decode, data.monitors[..n], store, Migrate(decode, store, data, faults).0)
  {
    var (next, result) := MigrateManager(store, data.manager, faults(0));
    NothingMigrates(decode, store);
    OnlyMonitorsMatter(decode, [], store, store, next);
    if result.Ok? {
      n := MonitorsMigrateAPrefix(decode, next, data.monitors, faults, 1);
      MigratedInTurn(decode, [], data.monitors[..n], store, next, Migrate(decode, store, data, faults).0);
      assert [] + data.monitors[..n] == data.monitors[..n];
    } else {
      n := 0;
    }
  }

  /** However it ends: no stored update id goes down, no undecodable or equal-or-newer monitor is touched. */
  lemma NothingIsLost(decode: Decoder, store: Store, data: Data, faults: nat -> Faults, k: Key)
    requires k in store.monitors
    ensures var after := Migrate(decode, store, data, faults).0;
      && k in after.monitors
      && (decode(store.monitors[k]).None? ==> after.monitors[k] == store.monitors[k])
      && (after.monitors[k] != store.monitors[k] ==>
            && decode(store.monitors[k]).Some? && decode(after.monitors[k]).Some?
            && decode(store.monitors[k]).value.updateId < decode(after.monitors[k]).value.updateId)
  {
    var n := MigratesAPrefix(decode, store, data, faults);
    assert Kept(decode, store, Migrate(decode, store, data, faults).0, k);
  }

  /** An existing manager is never touched, and on Ok a migrated one is there if none was. */
  lemma ManagerOnlyFilledIn(decode: Decoder, store: Store, data: Data, faults: nat -> Faults)
    ensures var (after, result) := Migrate(decode, store, data, faults);
      && (store.manager.Some? ==> after.manager == store.manager)
      && (after.manager == store.manager || after.manager == data.manager)
      && (result.Ok? && store.manager.None? ==> after.manager == data.manager)
  {
    var (next, _) := MigrateManager(store, data.manager, faults(0));
    ManagerStays(decode, next, data.monitors, faults, 1);
  }

  /** On Ok, every channel is at the maximum of what was stored and what was migrated for it. */
  lemma OkReachesTheMaximum(decode: Decoder, store: Store, data: Data, faults: nat -> Faults, k: Key)
    requires Migrate(decode, store, data, faults).1.Ok?
    ensures Settled(decode, data.monitors, k, SlotAt(decode, store, k),
                    SlotAt(decode, Migrate(decode, store, data, faults).0, k))
  {
    var n := MigratesAPrefix(decode, store, data, faults);
    assert data.monitors[..n] == data.monitors;
  }

  /** The order, and repetition, of the migrated monitors does not matter to the update ids. */
  lemma OrderDoesNotMatter(
    decode: Decoder, store: Store, data: Data, data': Data, faults: nat -> Faults, faults': nat -> Faults, k: Key)
    requires forall b :: b in data.monitors <==> b in data'.monitors
    requires Migrate(decode, store, data, faults).1.Ok? && Migrate(decode, store, data', faults').1.Ok?
    ensures SlotAt(decode, Migrate(decode, store, data, faults).0, k) ==
            SlotAt(decode, Migrate(decode, store, data', faults').0, k)
  {
    OkReachesTheMaximum(decode, store, data, faults, k);
    OkReachesTheMaximum(decode, store, data', faults', k);
    SameOffers(decode, data.monitors, data'.monitors, k);
    SameOffers(decode, data'.monitors, data.monitors, k);
    SettledIsUnique(decode, data.monitors, data'.monitors, k, SlotAt(decode, store, k),
                    SlotAt(decode, Migrate(decode, store, data, faults).0, k),
                    SlotAt(decode, Migrate(decode, store, data', faults').0, k));
  }

  lemma SameOffers(decode: Decoder, monitors: seq<Bytes>, monitors': seq<Bytes>, key: Key)
    requires forall b :: b in monitors ==> b in monitors'
    ensures forall id: nat :: Offered(decode, monitors, key, id) ==> Offered(decode, monitors', key, id)
  {
    forall id: nat | Offered(decode, monitors, key, id) ensures Offered(decode, monitors', key, id) {
      var i :| 0 <= i < |monitors| && decode(monitors[i]) == Some(Monitor(key, id));
      assert monitors[i] in monitors';
    }
  }

  /** A migration that stopped early, for whatever reason, is completed by running it again. */
  lemma RetryCompletes(
    decode: Decoder, store: Store, data: Data, faults: nat -> Faults, faults': nat -> Faults, faults'': nat -> Faults,
    k: Key)
    requires Migrate(decode, Migrate(decode, store, data, faults).0, data, faults').1.Ok?
    requires Migrate(decode, store, data, faults'').1.Ok?
    ensures SlotAt(decode, Migrate(decode, Migrate(decode, store, data, faults).0, data, faults').0, k) ==
            SlotAt(decode, Migrate(decode, store, data, faults'').0, k)
  {
    var part := Migrate(decode, store, data, faults).0;
    var n := MigratesAPrefix(decode, store, data, faults);
    OkReachesTheMaximum(decode, part, data, faults', k);
    OkReachesTheMaximum(decode, store, data, faults'', k);
    var again := data.monitors[..n] + data.monitors;
    SettledInTurn(decode, data.monitors[..n], data.monitors, k, SlotAt(decode, store, k), SlotAt(decode, part, k),
                  SlotAt(decode, Migrate(decode, part, data, faults').0, k));
    SameOffers(decode, again, data.monitors, k);
    SameOffers(decode, data.monitors, again, k);
    SettledIsUnique(decode, again, data.monitors, k, SlotAt(decode, store, k),
                    SlotAt(decode, Migrate(decode, part, data, faults').0, k),
                    SlotAt(decode, Migrate(decode, store, data, faults'').0, k));
  }

  /** Nothing in `monitors` is newer than what the store has. */
  predicate UpToDate(decode: Decoder, store: Store, monitors: seq<Bytes>) {
    forall b :: b in monitors ==> decode(b).Some? && !GivesWay(decode, store, decode(b).value)
  }

  lemma {:induction false} UpToDateMigratesNothing(
    decode: Decoder, store: Store, monitors: seq<Bytes>, faults: nat -> Faults, at: nat)
    requires UpToDate(decode, store, monitors) && forall i :: !faults(i).read
    ensures MigrateMonitors(decode, store, monitors, faults, at) == (store, Ok)
    decreases monitors
  {
    if monitors != [] {
      assert monitors[0] in monitors;
      assert forall b :: b in monitors[1..] ==> b in monitors;
      UpToDateMigratesNothing(decode, store, monitors[1..], faults, at + 1);
    }
  }

  lemma {:induction false} OkMeansReadable(
    decode: Decoder, store: Store, monitors: seq<Bytes>, faults: nat -> Faults, at: nat)
    requires MigrateMonitors(decode, store, monitors, faults, at).1.Ok?
    ensures forall b :: b in monitors ==> decode(b).Some?
    decreases monitors
  {
    if monitors != [] {
      OkMeansReadable(decode, MigrateMonitor(decode, store, monitors[0], faults(at)).0, monitors[1..], faults, at + 1);
    }
  }

  /** Once a migration was Ok, migrating the same data again changes nothing at all. */
  lemma MigrationIsIdempotent(decode: Decoder, store: Store, data: Data, faults: nat -> Faults, faults': nat -> Faults)
    requires Migrate(decode, store, data, faults).1.Ok? && forall i :: !faults'(i).read
    ensures Migrate(decode, Migrate(decode, store, data, faults).0, data, faults') ==
            (Migrate(decode, store, data, faults).0, Ok)
  {
    var after := Migrate(decode, store, data, faults).0;
    OkMeansReadable(decode, MigrateManager(store, data.manager, faults(0)).0, data.monitors, faults, 1);
    ManagerOnlyFilledIn(decode, store, data, faults);
    forall b | b in data.monitors ensures !GivesWay(decode, after, decode(b).value) {
      var migrated := decode(b).value;
      var i :| 0 <= i < |data.monitors| && data.monitors[i] == b;
      assert Offered(decode, data.monitors, migrated.key, migrated.updateId);
      OkReachesTheMaximum(decode, store, data, faults, migrated.key);
    }
    UpToDateMigratesNothing(decode, after, data.monitors, faults', 1);
  }

  // ---- The loop ----

  /** The store that the migration works on. */
  class ChannelStore {
    var manager: Option<Bytes>
    var monitors: map<Key, Bytes>

    ghost function View(): (s: Store)
      reads this
    {
      Store(manager, monitors)
    }

    method ApplyMigration(decode: Decoder, data: Data, faults: nat -> Faults) returns (result: Result)
      modifies this
      ensures (View(), result) == Migrate(decode, old(View()), data, faults)
    {
      if data.manager.Some? {
        if faults(0).read {
          return ReadFailed;
        }
        if manager.None? {
          if faults(0).write {
            return WriteFailed;
          }
          manager := data.manager;
        }
      }
      ghost var begun := View();
      var i := 0;
      while i < |data.monitors|
        invariant 0 <= i <= |data.monitors|
        invariant MigrateMonitors(decode, begun, data.monitors, faults, 1) ==
                  MigrateMonitors(decode, View(), data.monitors[i..], faults, i + 1)
      {
        assert data.monitors[i..][1..] == data.monitors[i + 1..];
        var bytes, fault := data.monitors[i], faults(i + 1);
        var migrated := decode(bytes);
        if migrated.None? || fault.read {
          return ReadFailed;
        }
        var key := migrated.value.key;
        var shouldWrite := true;
        if key in monitors {
          var existing := decode(monitors[key]);
          shouldWrite := existing.Some? && existing.value.updateId < migrated.value.updateId;
        }
        if shouldWrite {
          if fault.write {
            return WriteFailed;
          }
          monitors := monitors[key := bytes];
        }
        i := i + 1;
      }
      result := Ok;
    }
  }
}
