/**
 The write-through store of objects such as payments: a map in memory, and one entry per
 item in the key-value store, under the hex string of the item's id. Every write or
 removal in the key-value store may fail, and then leaves it unchanged.

 What kind of object it is stays abstract: how ids, updates and encodings behave is all
 that is used.
 */
module DataStore {
  import opened CountedCodec
  import opened Hex

  type Id = seq<Byte>
  type Item = nat
  type Update = nat

  datatype Kind = Kind(
    id: Item -> Id,
    update: (Item, Update) -> (Item, bool),
    toUpdate: Item -> Update,
    updateId: Update -> Id,
    key: Id -> string,
    idOf: string -> Id,
    encode: Item -> seq<Byte>,
    decode: seq<Byte> -> Option<Item>)

  /** An update keeps the id, and changes nothing if it says so. */
  ghost predicate UpdatesLawful(kind: Kind) {
    && (forall o, u :: kind.id(kind.update(o, u).0) == kind.id(o))
    && (forall o, u :: !kind.update(o, u).1 ==> kind.update(o, u).0 == o)
  }

  /** A key names its id, and an encoding decodes back. */
  ghost predicate EntriesLawful(kind: Kind) {
    && (forall id :: kind.idOf(kind.key(id)) == id)
    && (forall o: Item :: kind.decode(kind.encode(o)) == Some(o))
  }

  ghost predicate Lawful(kind: Kind) {
    UpdatesLawful(kind) && EntriesLawful(kind)
  }

  /** The hex string of an id's bytes is such a key, read back as hex. */
  lemma HexKeysNameIds(kind: Kind, id: Id)
    requires forall a :: kind.key(a) == ToHex(a)
    requires forall key :: IsHex(key) ==> kind.idOf(key) == Pairs(key)
    ensures kind.idOf(kind.key(id)) == id
  {
    HexRoundTrip(id);
  }

  datatype Store = Store(memory: map<Id, Item>, disk: map<string, seq<Byte>>)

  /** Each operation with the fate of its write, if it makes one. */
  datatype Op =
    | Insert(item: Item, ok: bool)
    | InsertOrUpdate(item: Item, ok: bool)
    | UpdateWith(update: Update, ok: bool)
    | Remove(id: Id, ok: bool)

  datatype Result = Returned(changed: bool) | NotFound | PersistenceFailed

  // ---- What the operations compute ----

  function Written(kind: Kind, disk: map<string, seq<Byte>>, item: Item, ok: bool): (r: map<string, seq<Byte>>) {
    if ok then disk[kind.key(kind.id(item)) := kind.encode(item)] else disk
  }

  /** Write the object, then put it into memory if that worked. */
  function Put(kind: Kind, s: Store, item: Item, ok: bool): (r: Store) {
    Store(if ok then s.memory[kind.id(item) := item] else s.memory, Written(kind, s.disk, item, ok))
  }

  function Apply(kind: Kind, s: Store, op: Op): (r: Store) {
    match op
    case Insert(item, ok) => Put(kind, s, item, ok)
    case InsertOrUpdate(item, ok) =>
      if kind.id(item) !in s.memory then Put(kind, s, item, ok)
      else
        var (updated, changed) := kind.update(s.memory[kind.id(item)], kind.toUpdate(item));
        if changed then Put(kind, s, updated, ok) else s
    case UpdateWith(update, ok) =>
      var id := kind.updateId(update);
      if id !in s.memory then s
      else
        var (updated, changed) := kind.update(s.memory[id], update);
        Store(s.memory[id := updated], if changed then Written(kind, s.disk, updated, ok) else s.disk)
    case Remove(id, ok) =>
      if id !in s.memory then s else Store(s.memory - {id}, if ok then s.disk - {kind.key(id)} else s.disk)
  }

  function Run(kind: Kind, s: Store, ops: seq<Op>): (r: Store) {
    if ops == [] then s else Apply(kind, Run(kind, s, ops[..|ops| - 1]), ops[|ops| - 1])
  }

  /** Whether the operation has something to write in this state. */
  predicate Writes(kind: Kind, s: Store, op: Op) {
    match op
    case Insert(_, _) => true
    case InsertOrUpdate(item, _) =>
      kind.id(item) in s.memory ==> kind.update(s.memory[kind.id(item)], kind.toUpdate(item)).1
    case UpdateWith(update, _) =>
      kind.updateId(update) in s.memory && kind.update(s.memory[kind.updateId(update)], update).1
    case Remove(id, _) => id in s.memory
  }

  // ---- Memory and disk ----

  /** The disk holds exactly the objects in memory, each under its own id and key. */
  ghost predicate Agree(kind: Kind, s: Store) {
    && (forall id :: id in s.memory ==> kind.id(s.memory[id]) == id)
    && (forall id :: id in s.memory <==> kind.key(id) in s.disk)
    && (forall id :: id in s.memory ==> s.disk[kind.key(id)] == kind.encode(s.memory[id]))
    && (forall key :: key in s.disk ==> exists id :: key == kind.key(id))
  }

  /** What is on disk determines what was in memory, so that a restart finds it again. */
  lemma {:induction false} DiskDeterminesMemory(kind: Kind, s: Store, s': Store)
    requires EntriesLawful(kind) && Agree(kind, s) && Agree(kind, s') && s.disk == s'.disk
    ensures s == s'
  {
    assert s.memory.Keys == s'.memory.Keys;
    forall id | id in s.memory ensures s.memory[id] == s'.memory[id] {
      assert kind.decode(s.disk[kind.key(id)]) == Some(s.memory[id]) == Some(s'.memory[id]);
    }
  }

  lemma PutKeepsAgreement(kind: Kind, s: Store, item: Item, ok: bool)
    requires EntriesLawful(kind) && Agree(kind, s)
    ensures Agree(kind, Put(kind, s, item, ok))
  {
  }

  lemma RemoveKeepsAgreement(kind: Kind, s: Store, id: Id)
    requires EntriesLawful(kind) && Agree(kind, s) && id in s.memory
    ensures Agree(kind, Store(s.memory - {id}, s.disk - {kind.key(id)}))
  {
  }

  /** The operation changes memory although its write fails, and there is something to tell them apart. */
  predicate Diverges(kind: Kind, s: Store, op: Op) {
    match op
    case UpdateWith(update, ok) =>
      !ok && kind.updateId(update) in s.memory &&
      kind.update(s.memory[kind.updateId(update)], update).0 != s.memory[kind.updateId(update)]
    case Remove(id, ok) => !ok && id in s.memory
    case _ => false
  }

  /** Memory and disk still agree after an operation exactly if it does not diverge. */
  lemma AgreementKeptIff(kind: Kind, s: Store, op: Op)
    requires Lawful(kind) && Agree(kind, s)
    ensures Agree(kind, Apply(kind, s, op)) <==> !Diverges(kind, s, op)
  {
    match op {
      case Insert(item, ok) => PutKeepsAgreement(kind, s, item, ok);
      case InsertOrUpdate(item, ok) => InsertOrUpdateKeepsAgreement(kind, s, item, ok);
      case UpdateWith(update, ok) => UpdateAgreesIff(kind, s, update, ok);
      case Remove(id, ok) => RemoveAgreesIff(kind, s, id, ok);
    }
  }

  lemma InsertOrUpdateKeepsAgreement(kind: Kind, s: Store, item: Item, ok: bool)
    requires Lawful(kind) && Agree(kind, s)
    ensures Agree(kind, Apply(kind, s, InsertOrUpdate(item, ok)))
  {
    PutKeepsAgreement(kind, s, item, ok);
    if kind.id(item) in s.memory {
      PutKeepsAgreement(kind, s, kind.update(s.memory[kind.id(item)], kind.toUpdate(item)).0, ok);
    }
  }

  lemma UpdateAgreesIff(kind: Kind, s: Store, update: Update, ok: bool)
    requires Lawful(kind) && Agree(kind, s)
    ensures Agree(kind, Apply(kind, s, UpdateWith(update, ok))) <==> !Diverges(kind, s, UpdateWith(update, ok))
  {
    var id := kind.updateId(update);
    var s' := Apply(kind, s, UpdateWith(update, ok));
    if id in s.memory {
      var (updated, changed) := kind.update(s.memory[id], update);
      if updated == s.memory[id] {
        assert s'.memory == s.memory;
        assert s.disk[kind.key(id)] == kind.encode(updated);
        assert s'.disk == s.disk;
      } else if ok {
        PutKeepsAgreement(kind, s, updated, ok);
        assert s' == Put(kind, s, updated, ok);
      } else {
        assert kind.decode(s'.disk[kind.key(id)]) == Some(s.memory[id]) != kind.decode(kind.encode(s'.memory[id]));
      }
    }
  }

  lemma RemoveAgreesIff(kind: Kind, s: Store, id: Id, ok: bool)
    requires Lawful(kind) && Agree(kind, s)
    ensures Agree(kind, Apply(kind, s, Remove(id, ok))) <==> !Diverges(kind, s, Remove(id, ok))
  {
    if id in s.memory {
      if ok {
        RemoveKeepsAgreement(kind, s, id);
      } else {
        assert id !in Apply(kind, s, Remove(id, ok)).memory && kind.key(id) in s.disk;
      }
    }
  }

  /**
   Any sequence of inserts with any write failures, mixed with updates and removals whose
   writes succeed, keeps the memory equal to what is stored.
   */
  lemma {:induction false} AgreementSurvives(kind: Kind, s: Store, ops: seq<Op>)
    requires Lawful(kind) && Agree(kind, s)
    requires forall i :: 0 <= i < |ops| && (ops[i].UpdateWith? || ops[i].Remove?) ==> ops[i].ok
    ensures Agree(kind, Run(kind, s, ops))
  {
    if ops != [] {
      AgreementSurvives(kind, s, ops[..|ops| - 1]);
      AgreementKeptIff(kind, Run(kind, s, ops[..|ops| - 1]), ops[|ops| - 1]);
    }
  }

  /**
   An insert that fails changes nothing, in memory or on disk, whatever it was given; it
   can be tried again with the same effect as if it had worked at once.
   */
  lemma FailedInsertIsRetryable(kind: Kind, s: Store, item: Item, op: Op, retry: Op)
    requires (op, retry) == (Insert(item, false), Insert(item, true))
      || (op, retry) == (InsertOrUpdate(item, false), InsertOrUpdate(item, true))
    requires Writes(kind, s, op)
    ensures Run(kind, s, [op]) == s && Run(kind, s, [op, retry]) == Run(kind, s, [retry])
  {
    assert [op][..0] == [] && [retry][..0] == [] && [op, retry][..1] == [op];
    assert Run(kind, s, [op]) == Apply(kind, s, op);
    assert Run(kind, s, [retry]) == Apply(kind, s, retry);
  }

  // ---- The store itself ----

  class Objects {
    const kind: Kind
    var memory: map<Id, Item>
    var disk: map<string, seq<Byte>>

    ghost function View(): (s: Store)
      reads this
    {
      Store(memory, disk)
    }

    method Persist(item: Item, written: bool) returns (ok: bool)
      modifies this`disk
      ensures ok == written && disk == Written(kind, old(disk), item, ok)
    {
      var key := kind.key(kind.id(item));
      ok := written;
      if ok {
        disk := disk[key := kind.encode(item)];
      }
    }

    method InsertObject(item: Item, written: bool) returns (result: Result)
      modifies this
      ensures View() == Apply(kind, old(View()), Insert(item, written))
      ensures result == if written then Returned(kind.id(item) in old(memory)) else PersistenceFailed
    {
      var ok := Persist(item, written);
      if !ok {
        return PersistenceFailed;
      }
      result := Returned(kind.id(item) in memory);
      memory := memory[kind.id(item) := item];
    }

    method InsertOrUpdateObject(item: Item, written: bool) returns (result: Result)
      requires Lawful(kind) && Agree(kind, View())
      modifies this
      ensures View() == Apply(kind, old(View()), InsertOrUpdate(item, written)) && Agree(kind, View())
      ensures result == if !Writes(kind, old(View()), InsertOrUpdate(item, written)) then Returned(false)
                        else if written then Returned(true) else PersistenceFailed
    {
      AgreementKeptIff(kind, View(), InsertOrUpdate(item, written));
      var id := kind.id(item);
      if id in memory {
        var (updated, changed) := kind.update(memory[id], kind.toUpdate(item));
        if changed {
          var ok := Persist(updated, written);
          if !ok {
            return PersistenceFailed;
          }
          memory := memory[id := updated];
        }
        result := Returned(changed);
      } else {
        var ok := Persist(item, written);
        if !ok {
          return PersistenceFailed;
        }
        memory := memory[id := item];
        result := Returned(true);
      }
    }

    method UpdateObject(update: Update, written: bool) returns (result: Result)
      modifies this
      ensures View() == Apply(kind, old(View()), UpdateWith(update, written))
      ensures result == if kind.updateId(update) !in old(memory) then NotFound
                        else if !Writes(kind, old(View()), UpdateWith(update, written)) then Returned(false)
                        else if written then Returned(true) else PersistenceFailed
    {
      var id := kind.updateId(update);
      if id !in memory {
        return NotFound;
      }
      var (updated, changed) := kind.update(memory[id], update);
      memory := memory[id := updated];
      if changed {
        var ok := Persist(updated, written);
        if !ok {
          return PersistenceFailed;
        }
      }
      result := Returned(changed);
    }

    method RemoveObject(id: Id, written: bool) returns (result: Result)
      modifies this
      ensures View() == Apply(kind, old(View()), Remove(id, written))
      ensures result.PersistenceFailed? <==> id in old(memory) && !written
    {
      var removed := id in memory;
      memory := memory - {id};
      if removed {
        var key := kind.key(id);
        if !written {
          return PersistenceFailed;
        }
        disk := disk - {key};
      }
      result := Returned(removed);
    }
  }
}
