/**
 Operations of the object store running concurrently. Inserts and updates hold the lock
 around their write and are one step each. A removal takes the object out of memory under
 the lock and gives the lock up before it erases the stored entry, so it is two steps.

 `removing` holds the ids whose removal is between the two, each as often as it is.
 */
module DataStoreRuns {
  import opened CountedCodec
  import opened DataStore

  datatype State = State(store: Store, removing: multiset<Id>)

  datatype Step =
    | Whole(op: Op)
    | Detach(id: Id)
    | Erase(id: Id, ok: bool)

  predicate Enabled(s: State, step: Step) {
    match step
    case Whole(op) => !op.Remove?
    case Detach(_) => true
    case Erase(id, _) => id in s.removing
  }

  function Apply(kind: Kind, s: State, step: Step): (r: State) {
    match step
    case Whole(op) => s.(store := DataStore.Apply(kind, s.store, op))
    case Detach(id) =>
      if id !in s.store.memory then s
      else State(s.store.(memory := s.store.memory - {id}), s.removing + multiset{id})
    case Erase(id, ok) =>
      State(if ok then s.store.(disk := s.store.disk - {kind.key(id)}) else s.store, s.removing - multiset{id})
  }

  ghost predicate Follows(kind: Kind, s: State, step: Step, s': State) {
    Enabled(s, step) && s' == Apply(kind, s, step)
  }

  /** A run from a store in which memory and disk agree. */
  ghost predicate IsRun(kind: Kind, states: seq<State>, steps: seq<Step>) {
    && Lawful(kind)
    && |states| == |steps| + 1
    && Agree(kind, states[0].store) && states[0].removing == multiset{}
    && forall i :: 0 <= i < |steps| ==> Follows(kind, states[i], steps[i], states[i + 1])
  }

  /** Undisturbed, the two halves are the removal as a whole. */
  lemma HalvesMakeRemoval(kind: Kind, s: State, id: Id, ok: bool)
    requires id in s.store.memory
    ensures Apply(kind, Apply(kind, s, Detach(id)), Erase(id, ok)) ==
            s.(store := DataStore.Apply(kind, s.store, Remove(id, ok)))
  {
    assert s.removing + multiset{id} - multiset{id} == s.removing;
  }

  // ---- Agreement up to the removals under way ----

  /** What memory has for `id` is stored. */
  predicate Held(kind: Kind, s: Store, id: Id) {
    id in s.memory ==>
      kind.id(s.memory[id]) == id && kind.key(id) in s.disk && s.disk[kind.key(id)] == kind.encode(s.memory[id])
  }

  /** A stored entry is of an object in memory, or of one being removed. */
  ghost predicate Accounted(kind: Kind, s: State, key: string) {
    key in s.store.disk ==> exists id :: key == kind.key(id) && (id in s.store.memory || id in s.removing)
  }

  ghost predicate Consistent(kind: Kind, s: State) {
    (forall id :: Held(kind, s.store, id)) && (forall key :: Accounted(kind, s, key))
  }

  /** With no removal under way, that is agreement. */
  lemma ConsistentWhenQuietIffAgree(kind: Kind, s: State)
    requires Lawful(kind) && s.removing == multiset{}
    ensures Consistent(kind, s) <==> Agree(kind, s.store)
  {
    if Consistent(kind, s) {
      forall id ensures id in s.store.memory <==> kind.key(id) in s.store.disk {
        assert Held(kind, s.store, id) && Accounted(kind, s, kind.key(id));
      }
      forall key | key in s.store.disk ensures exists id :: key == kind.key(id) {
        assert Accounted(kind, s, key);
      }
      assert forall id :: id in s.store.memory ==> Held(kind, s.store, id);
    }
    if Agree(kind, s.store) {
      forall id ensures Held(kind, s.store, id) {
      }
    }
  }

  /** The guard of the branches that break agreement. */
  predicate Breaks(kind: Kind, s: State, step: Step) {
    match step
    case Whole(op) => Diverges(kind, s.store, op)
    case Detach(_) => false
    case Erase(id, true) => id in s.store.memory
    case Erase(id, false) =>
      id !in s.store.memory && kind.key(id) in s.store.disk && s.removing[id] == 1
  }

  lemma PutKeepsConsistent(kind: Kind, s: State, item: Item, ok: bool)
    requires Lawful(kind) && Consistent(kind, s)
    ensures Consistent(kind, s.(store := Put(kind, s.store, item, ok)))
  {
    var s' := s.(store := Put(kind, s.store, item, ok));
    forall id ensures Held(kind, s'.store, id) {
      assert Held(kind, s.store, id);
    }
    forall key ensures Accounted(kind, s', key) {
      assert Accounted(kind, s, key);
    }
  }

  lemma UpdateConsistentIff(kind: Kind, s: State, update: Update, ok: bool)
    requires Lawful(kind) && Consistent(kind, s)
    ensures Consistent(kind, Apply(kind, s, Whole(UpdateWith(update, ok)))) <==>
            !Diverges(kind, s.store, UpdateWith(update, ok))
  {
    var id, s' := kind.updateId(update), Apply(kind, s, Whole(UpdateWith(update, ok)));
    if id in s.store.memory {
      var updated := kind.update(s.store.memory[id], update).0;
      assert Held(kind, s.store, id);
      if updated == s.store.memory[id] {
        assert s'.store == s.store;
      } else if ok {
        PutKeepsConsistent(kind, s, updated, true);
        assert s'.store == Put(kind, s.store, updated, true);
      } else {
        assert kind.decode(s'.store.disk[kind.key(id)]) == Some(s.store.memory[id]);
        assert !Held(kind, s'.store, id);
      }
    }
  }

  lemma DetachKeepsConsistent(kind: Kind, s: State, id: Id)
    requires Consistent(kind, s)
    ensures Consistent(kind, Apply(kind, s, Detach(id)))
  {
    var s' := Apply(kind, s, Detach(id));
    forall other ensures Held(kind, s'.store, other) {
      assert Held(kind, s.store, other);
    }
    forall key ensures Accounted(kind, s', key) {
      assert Accounted(kind, s, key);
    }
  }

  lemma ErasedConsistentIff(kind: Kind, s: State, id: Id)
    requires Lawful(kind) && Consistent(kind, s) && id in s.removing
    ensures Consistent(kind, Apply(kind, s, Erase(id, true))) <==> id !in s.store.memory
  {
    var s' := Apply(kind, s, Erase(id, true));
    if id in s.store.memory {
      assert !Held(kind, s'.store, id);
    } else {
      forall other ensures Held(kind, s'.store, other) {
        assert Held(kind, s.store, other);
      }
      forall key ensures Accounted(kind, s', key) {
        assert Accounted(kind, s, key);
      }
    }
  }

  lemma NotErasedConsistentIff(kind: Kind, s: State, id: Id)
    requires Lawful(kind) && Consistent(kind, s) && id in s.removing
    ensures Consistent(kind, Apply(kind, s, Erase(id, false))) <==> !Breaks(kind, s, Erase(id, false))
  {
    var s' := Apply(kind, s, Erase(id, false));
    assert forall other :: Held(kind, s'.store, other) <==> Held(kind, s.store, other);
    if Breaks(kind, s, Erase(id, false)) {
      assert !Accounted(kind, s', kind.key(id));
    } else {
      forall key ensures Accounted(kind, s', key) {
        assert Accounted(kind, s, key);
      }
    }
  }

  /** A step keeps agreement, up to the removals under way, exactly unless it takes a branch that breaks it. */
  lemma ConsistentKeptIff(kind: Kind, s: State, step: Step)
    requires Lawful(kind) && Consistent(kind, s) && Enabled(s, step)
    ensures Consistent(kind, Apply(kind, s, step)) <==> !Breaks(kind, s, step)
  {
    match step {
      case Whole(Insert(item, ok)) => PutKeepsConsistent(kind, s, item, ok);
      case Whole(InsertOrUpdate(item, ok)) =>
        PutKeepsConsistent(kind, s, item, ok);
        if kind.id(item) in s.store.memory {
          PutKeepsConsistent(kind, s, kind.update(s.store.memory[kind.id(item)], kind.toUpdate(item)).0, ok);
        }
      case Whole(UpdateWith(update, ok)) => UpdateConsistentIff(kind, s, update, ok);
      case Detach(id) => DetachKeepsConsistent(kind, s, id);
      case Erase(id, true) => ErasedConsistentIff(kind, s, id);
      case Erase(id, false) => NotErasedConsistentIff(kind, s, id);
    }
  }

  /**
   Over every interleaving: memory and disk agree in every state, up to the removals under
   way, exactly if no step takes a branch that breaks agreement.
   */
  lemma {:induction false} RunConsistentIff(kind: Kind, states: seq<State>, steps: seq<Step>)
    requires IsRun(kind, states, steps)
    ensures (forall i :: 0 <= i < |states| ==> Consistent(kind, states[i])) <==>
            (forall i :: 0 <= i < |steps| ==> !Breaks(kind, states[i], steps[i]))
  {
    if forall i :: 0 <= i < |steps| ==> !Breaks(kind, states[i], steps[i]) {
      forall i | 0 <= i < |states| ensures Consistent(kind, states[i]) {
        UnbrokenIsConsistent(kind, states, steps, i);
      }
    } else {
      var i :| 0 <= i < |steps| && Breaks(kind, states[i], steps[i]);
      assert Follows(kind, states[i], steps[i], states[i + 1]);
      if Consistent(kind, states[i]) {
        ConsistentKeptIff(kind, states[i], steps[i]);
        assert !Consistent(kind, states[i + 1]);
      }
    }
  }

  lemma {:induction false} UnbrokenIsConsistent(kind: Kind, states: seq<State>, steps: seq<Step>, i: nat)
    requires IsRun(kind, states, steps) && i < |states|
    requires forall k :: 0 <= k < i ==> !Breaks(kind, states[k], steps[k])
    ensures Consistent(kind, states[i])
  {
    if i == 0 {
      ConsistentWhenQuietIffAgree(kind, states[0]);
    } else {
      UnbrokenIsConsistent(kind, states, steps, i - 1);
      assert Follows(kind, states[i - 1], steps[i - 1], states[i]);
      ConsistentKeptIff(kind, states[i - 1], steps[i - 1]);
    }
  }

  // ---- What callers can see to ----

  /** The step puts an object with this id into memory. */
  predicate Puts(kind: Kind, step: Step, id: Id) {
    step.Whole? && (step.op.Insert? || step.op.InsertOrUpdate?) && step.op.ok && kind.id(step.op.item) == id
  }

  predicate Keyed(kind: Kind, memory: map<Id, Item>) {
    forall id :: id in memory ==> kind.id(memory[id]) == id
  }

  lemma {:induction false} RunIsKeyed(kind: Kind, states: seq<State>, steps: seq<Step>, i: nat)
    requires IsRun(kind, states, steps) && i < |states|
    ensures Keyed(kind, states[i].store.memory)
  {
    if i > 0 {
      RunIsKeyed(kind, states, steps, i - 1);
      assert Follows(kind, states[i - 1], steps[i - 1], states[i]);
      StepKeepsKeyed(kind, states[i - 1], steps[i - 1], states[i]);
    }
  }

  lemma StepKeepsKeyed(kind: Kind, s: State, step: Step, s': State)
    requires UpdatesLawful(kind) && Keyed(kind, s.store.memory) && Follows(kind, s, step, s')
    ensures Keyed(kind, s'.store.memory)
  {
  }

  /** An id that was detached stays out of memory until an insert of it succeeds. */
  lemma {:induction false} DetachedUntilPut(kind: Kind, states: seq<State>, steps: seq<Step>, i: nat, j: nat, id: Id)
    requires IsRun(kind, states, steps) && i < j < |states| && steps[i] == Detach(id)
    requires forall k :: i < k < j ==> !Puts(kind, steps[k], id)
    ensures id !in states[j].store.memory
  {
    if i + 1 < j {
      DetachedUntilPut(kind, states, steps, i, j - 1, id);
      RunIsKeyed(kind, states, steps, j - 1);
      assert Follows(kind, states[j - 1], steps[j - 1], states[j]) && !Puts(kind, steps[j - 1], id);
      StaysOutOfMemory(kind, states[j - 1], steps[j - 1], states[j], id);
    } else {
      assert Follows(kind, states[i], steps[i], states[i + 1]);
      DetachTakesOut(kind, states[i], states[j], id);
    }
  }

  lemma DetachTakesOut(kind: Kind, s: State, s': State, id: Id)
    requires Follows(kind, s, Detach(id), s')
    ensures id !in s'.store.memory
  {
  }

  lemma StaysOutOfMemory(kind: Kind, s: State, step: Step, s': State, id: Id)
    requires UpdatesLawful(kind) && Keyed(kind, s.store.memory) && Follows(kind, s, step, s')
    requires id !in s.store.memory && !Puts(kind, step, id)
    ensures id !in s'.store.memory
  {
  }

  /** No insert of an id runs between the two halves of a removal of it. */
  ghost predicate RemovalsUndisturbed(kind: Kind, steps: seq<Step>) {
    forall j :: 0 <= j < |steps| && steps[j].Erase? ==> Undisturbed(kind, steps, j)
  }

  ghost predicate Undisturbed(kind: Kind, steps: seq<Step>, j: nat)
    requires j < |steps| && steps[j].Erase?
  {
    exists i :: 0 <= i < j && steps[i] == Detach(steps[j].id)
                && forall k :: i < k < j ==> !Puts(kind, steps[k], steps[j].id)
  }

  /**
   If inserts of an id keep clear of removals of it, and the writes of updates and removals
   succeed, then memory and disk agree whenever no removal is under way.
   */
  lemma UndisturbedRemovalsAgree(kind: Kind, states: seq<State>, steps: seq<Step>, i: nat)
    requires IsRun(kind, states, steps) && RemovalsUndisturbed(kind, steps)
    requires forall k :: 0 <= k < |steps| && steps[k].Whole? && steps[k].op.UpdateWith? ==> steps[k].op.ok
    requires forall k :: 0 <= k < |steps| && steps[k].Erase? ==> steps[k].ok
    requires i < |states| && states[i].removing == multiset{}
    ensures Agree(kind, states[i].store)
  {
    forall k | 0 <= k < i ensures !Breaks(kind, states[k], steps[k]) {
      assert Follows(kind, states[k], steps[k], states[k + 1]);
      if steps[k].Erase? {
        assert Undisturbed(kind, steps, k);
        var d :| 0 <= d < k && steps[d] == Detach(steps[k].id)
                 && forall m :: d < m < k ==> !Puts(kind, steps[m], steps[k].id);
        DetachedUntilPut(kind, states, steps, d, k, steps[k].id);
      }
    }
    UnbrokenIsConsistent(kind, states, steps, i);
    ConsistentWhenQuietIffAgree(kind, states[i]);
  }

  /**
   In any quiet state of any run that has agreed so far: an insert between the two halves
   of a removal of the same id is kept in memory and lost on disk, with no write failing.
   */
  lemma InsertDuringRemovalIsLost(kind: Kind, states: seq<State>, steps: seq<Step>, item: Item)
    requires IsRun(kind, states, steps) && Consistent(kind, states[|steps|]) && states[|steps|].removing == multiset{}
    requires kind.id(item) in states[|steps|].store.memory
    ensures var id, s := kind.id(item), states[|steps|];
      var after := Apply(kind, Apply(kind, Apply(kind, s, Detach(id)), Whole(Insert(item, true))), Erase(id, true));
      after.removing == multiset{} && id in after.store.memory && !Agree(kind, after.store)
  {
    var id, s := kind.id(item), states[|steps|];
    var detached := Apply(kind, s, Detach(id));
    var inserted := Apply(kind, detached, Whole(Insert(item, true)));
    ConsistentKeptIff(kind, s, Detach(id));
    ConsistentKeptIff(kind, detached, Whole(Insert(item, true)));
    ConsistentKeptIff(kind, inserted, Erase(id, true));
    ConsistentWhenQuietIffAgree(kind, Apply(kind, inserted, Erase(id, true)));
  }
}
