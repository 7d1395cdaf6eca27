/**
 Callers of a single-flight registry, running concurrently. A caller that registers first
 leads and publishes its result at its end, a later one waits on its receiver, and any
 caller may be dropped midway. The initial chain sync registers too, but leads whatever
 the registry answers: in a release build its assertion that nothing is registered is void.
 */
module SingleFlightRuns {
  import opened SingleFlight

  type Key = nat
  type Tid = nat

  datatype Task =
    | Leading(key: Key)
    | Waiting(key: Key, rx: Rx)
    | Returned(outcome: Outcome, heardOn: Option<Rx>)
    | Dropped

  datatype State = State(registry: Registry<Key>, tasks: map<Tid, Task>)

  datatype Step =
    | Call(t: Tid, key: Key)
    | InitialSync(t: Tid, key: Key)
    | Finish(t: Tid, outcome: Outcome)
    | Receive(t: Tid)
    | Drop(t: Tid)

  const Init := State(Registry(map[], map[], 0), map[])

  predicate Enabled(s: State, step: Step) {
    match step
    case Call(t, _) => t !in s.tasks
    case InitialSync(t, _) => t !in s.tasks
    case Finish(t, _) => t in s.tasks && s.tasks[t].Leading?
    case Receive(t) =>
      && t in s.tasks && s.tasks[t].Waiting?
      && s.tasks[t].rx in s.registry.inbox && s.registry.inbox[s.tasks[t].rx] != []
    case Drop(t) => t in s.tasks && (s.tasks[t].Leading? || s.tasks[t].Waiting?)
  }

  function AfterCall(s: State, t: Tid, key: Key): (r: State) {
    var (registry, rx) := Register(s.registry, key);
    State(registry, s.tasks[t := if rx.Some? then Waiting(key, rx.value) else Leading(key)])
  }

  function AfterReceive(s: State, t: Tid): (r: State)
    requires Enabled(s, Receive(t))
  {
    var rx := s.tasks[t].rx;
    var results := s.registry.inbox[rx];
    State(s.registry.(inbox := s.registry.inbox[rx := results[1..]]), s.tasks[t := Returned(results[0], Some(rx))])
  }

  function Apply(s: State, step: Step): (r: State)
    requires Enabled(s, step)
  {
    match step
    case Call(t, key) => AfterCall(s, t, key)
    case InitialSync(t, key) => State(Register(s.registry, key).0, s.tasks[t := Leading(key)])
    case Finish(t, outcome) =>
      State(Publish(s.registry, s.tasks[t].key, outcome), s.tasks[t := Returned(outcome, None)])
    case Receive(t) => AfterReceive(s, t)
    case Drop(t) => s.(tasks := s.tasks[t := Dropped])
  }

  ghost predicate Follows(s: State, step: Step, s': State) {
    Enabled(s, step) && s' == Apply(s, step)
  }

  ghost predicate IsRun(states: seq<State>, steps: seq<Step>) {
    && |states| == |steps| + 1
    && states[0] == Init
    && forall i :: 0 <= i < |steps| ==> Follows(states[i], steps[i], states[i + 1])
  }

  // ---- Invariant ----

  predicate Unsubscribed(r: Registry<Key>, rx: Rx) {
    forall k :: k in r.pending ==> rx !in r.pending[k]
  }

  /** `rx` waits for the result under `key`, which is not published yet. */
  predicate Subscribed(r: Registry<Key>, key: Key, rx: Rx) {
    rx in r.inbox && r.inbox[rx] == [] && key in r.pending && rx in r.pending[key]
  }

  /** `rx` was sent `outcomes`, and nothing will be sent to it any more. */
  predicate Served(r: Registry<Key>, rx: Rx, outcomes: seq<Outcome>) {
    rx in r.inbox && r.inbox[rx] == outcomes && Unsubscribed(r, rx)
  }

  predicate TaskFits(s: State, t: Tid)
    requires t in s.tasks
  {
    match s.tasks[t]
    case Waiting(key, rx) =>
      || Subscribed(s.registry, key, rx)
      || (rx in s.registry.inbox && |s.registry.inbox[rx]| == 1 && Unsubscribed(s.registry, rx))
    case Returned(_, heardOn) => heardOn.Some? ==> Served(s.registry, heardOn.value, [])
    case _ => true
  }

  function ReceiverOf(task: Task): (r: Option<Rx>) {
    match task
    case Waiting(_, rx) => Some(rx)
    case Returned(_, heardOn) => heardOn
    case _ => None
  }

  ghost predicate ReceiversDiffer(s: State) {
    forall t, u :: t in s.tasks && u in s.tasks && t != u && ReceiverOf(s.tasks[t]).Some? ==>
                     ReceiverOf(s.tasks[t]) != ReceiverOf(s.tasks[u])
  }

  ghost predicate Inv(s: State) {
    WellFormed(s.registry) && ReceiversDiffer(s) && forall t :: t in s.tasks ==> TaskFits(s, t)
  }

  lemma RegisterKeepsReceiver(r: Registry<Key>, key: Key, k: Key, rx: Rx, outcomes: seq<Outcome>)
    requires WellFormed(r)
    ensures Subscribed(r, k, rx) ==> Subscribed(Register(r, key).0, k, rx)
    ensures Served(r, rx, outcomes) ==> Served(Register(r, key).0, rx, outcomes)
  {
  }

  lemma PublishServes(r: Registry<Key>, key: Key, outcome: Outcome, k: Key, rx: Rx, outcomes: seq<Outcome>)
    requires WellFormed(r)
    ensures Subscribed(r, k, rx) && k != key ==> Subscribed(Publish(r, key, outcome), k, rx)
    ensures Subscribed(r, key, rx) ==> Served(Publish(r, key, outcome), rx, [outcome])
    ensures Served(r, rx, outcomes) ==> Served(Publish(r, key, outcome), rx, outcomes)
  {
    if Subscribed(r, key, rx) {
      assert [] + [outcome] == [outcome];
      assert forall l :: l in r.pending && rx in r.pending[l] ==> l == key;
    }
  }

  lemma RegistrationKeepsInv(s: State, step: Step)
    requires Inv(s) && Enabled(s, step) && (step.Call? || step.InitialSync?)
    ensures Inv(Apply(s, step))
  {
    var s' := Apply(s, step);
    RegisterKeepsWellFormed(s.registry, step.key);
    forall u | u in s.tasks && u != step.t ensures TaskFits(s', u) {
      assert TaskFits(s, u);
      if ReceiverOf(s.tasks[u]).Some? {
        var rx := ReceiverOf(s.tasks[u]).value;
        var k := if s.tasks[u].Waiting? then s.tasks[u].key else 0;
        RegisterKeepsReceiver(s.registry, step.key, k, rx, s.registry.inbox[rx]);
      }
    }
    forall u | u in s.tasks && ReceiverOf(s.tasks[u]).Some?
      ensures ReceiverOf(s.tasks[u]).value < s.registry.unused
    {
      assert TaskFits(s, u);
    }
  }

  lemma FinishKeepsInv(s: State, step: Step)
    requires Inv(s) && Enabled(s, step) && step.Finish?
    ensures Inv(Apply(s, step))
  {
    var s', key := Apply(s, step), s.tasks[step.t].key;
    PublishKeepsWellFormed(s.registry, key, step.outcome);
    forall u | u in s.tasks && u != step.t ensures TaskFits(s', u) {
      assert TaskFits(s, u);
      if ReceiverOf(s.tasks[u]).Some? {
        var rx := ReceiverOf(s.tasks[u]).value;
        var k := if s.tasks[u].Waiting? then s.tasks[u].key else 0;
        PublishServes(s.registry, key, step.outcome, k, rx, s.registry.inbox[rx]);
      }
    }
  }

  lemma ReceiveKeepsInv(s: State, step: Step)
    requires Inv(s) && Enabled(s, step) && step.Receive?
    ensures Inv(Apply(s, step))
  {
    var s' := Apply(s, step);
    assert s'.registry.inbox.Keys == s.registry.inbox.Keys;
    assert TaskFits(s, step.t);
    forall u | u in s.tasks && u != step.t ensures TaskFits(s', u) {
      assert TaskFits(s, u) && ReceiverOf(s.tasks[u]) != ReceiverOf(s.tasks[step.t]);
    }
  }

  lemma DropKeepsInv(s: State, step: Step)
    requires Inv(s) && Enabled(s, step) && step.Drop?
    ensures Inv(Apply(s, step))
  {
    forall u | u in s.tasks && u != step.t ensures TaskFits(Apply(s, step), u) {
      assert TaskFits(s, u);
    }
  }

  lemma StepKeepsInv(s: State, step: Step)
    requires Inv(s) && Enabled(s, step)
    ensures Inv(Apply(s, step))
  {
    match step {
      case Call(_, _) => RegistrationKeepsInv(s, step);
      case InitialSync(_, _) => RegistrationKeepsInv(s, step);
      case Finish(_, _) => FinishKeepsInv(s, step);
      case Receive(_) => ReceiveKeepsInv(s, step);
      case Drop(_) => DropKeepsInv(s, step);
    }
  }

  lemma {:induction false} RunKeepsInv(states: seq<State>, steps: seq<Step>, i: nat)
    requires IsRun(states, steps) && i < |states|
    ensures Inv(states[i])
  {
    if i > 0 {
      RunKeepsInv(states, steps, i - 1);
      assert Follows(states[i - 1], steps[i - 1], states[i]);
      StepKeepsInv(states[i - 1], steps[i - 1]);
    }
  }

  // ---- Leaders ----

  predicate Leads(s: State, t: Tid, key: Key) {
    t in s.tasks && s.tasks[t] == Leading(key)
  }

  ghost predicate Led(s: State, key: Key) {
    exists t :: Leads(s, t, key)
  }

  ghost predicate TwoLead(s: State, key: Key) {
    exists t, u :: t != u && Leads(s, t, key) && Leads(s, u, key)
  }

  predicate StartsInitialSync(step: Step, key: Key) {
    step.InitialSync? && step.key == key
  }

  /** The initial sync of `key` starts although some task leads it. */
  ghost predicate CutsIn(s: State, step: Step, key: Key) {
    StartsInitialSync(step, key) && Led(s, key)
  }

  lemma StepKeepsLeaderUnique(s: State, step: Step, s': State, key: Key)
    requires Follows(s, step, s') && !CutsIn(s, step, key)
    requires !TwoLead(s, key) && (Led(s, key) ==> key in s.registry.pending)
    ensures !TwoLead(s', key) && (Led(s', key) ==> key in s'.registry.pending)
  {
    forall t | Leads(s', t, key) ensures key in s'.registry.pending {
      assert t != step.t ==> Leads(s, t, key);
      assert t != step.t && Leads(s, t, key) && Leads(s, step.t, key) ==> TwoLead(s, key);
    }
    forall t, u | Leads(s', t, key) && Leads(s', u, key) ensures t == u {
      assert t != step.t ==> Leads(s, t, key);
      assert u != step.t ==> Leads(s, u, key);
    }
  }

  lemma {:induction false} LeaderIsUnique(states: seq<State>, steps: seq<Step>, i: nat, key: Key)
    requires IsRun(states, steps) && i < |states| && forall k :: 0 <= k < i ==> !CutsIn(states[k], steps[k], key)
    ensures !TwoLead(states[i], key) && (Led(states[i], key) ==> key in states[i].registry.pending)
  {
    if i > 0 {
      LeaderIsUnique(states, steps, i - 1, key);
      assert Follows(states[i - 1], steps[i - 1], states[i]);
      StepKeepsLeaderUnique(states[i - 1], steps[i - 1], states[i], key);
    }
  }

  /**
   In any run, two tasks ever lead a key at the same time exactly if an initial sync of it
   starts while a task leads it.
   */
  lemma TwoLeadIffInitialSyncCutsIn(states: seq<State>, steps: seq<Step>, key: Key)
    requires IsRun(states, steps)
    ensures (exists i :: 0 <= i < |states| && TwoLead(states[i], key)) <==>
            (exists k :: 0 <= k < |steps| && CutsIn(states[k], steps[k], key))
  {
    if exists k :: 0 <= k < |steps| && CutsIn(states[k], steps[k], key) {
      var k :| 0 <= k < |steps| && CutsIn(states[k], steps[k], key);
      assert Follows(states[k], steps[k], states[k + 1]);
      CutInMakesTwoLead(states[k], steps[k], states[k + 1], key);
    } else {
      forall i | 0 <= i < |states| ensures !TwoLead(states[i], key) {
        LeaderIsUnique(states, steps, i, key);
      }
    }
  }

  lemma CutInMakesTwoLead(s: State, step: Step, s': State, key: Key)
    requires Follows(s, step, s') && CutsIn(s, step, key)
    ensures TwoLead(s', key)
  {
    var t :| Leads(s, t, key);
    assert t != step.t && Leads(s', t, key) && Leads(s', step.t, key);
  }

  // ---- Registrations whose leader was dropped ----

  /** `key` is registered, and nobody is left to publish a result. */
  ghost predicate Stale(s: State, key: Key) {
    key in s.registry.pending && !Led(s, key)
  }

  lemma StepKeepsStale(s: State, step: Step, s': State, key: Key)
    requires Follows(s, step, s') && Stale(s, key)
    ensures Stale(s', key) <==> !StartsInitialSync(step, key)
  {
    assert !Leads(s, step.t, key);
    if StartsInitialSync(step, key) {
      assert Leads(s', step.t, key) && Led(s', key);
    } else {
      forall t ensures !Leads(s', t, key) {
        assert !Leads(s, t, key);
      }
      assert key in s'.registry.pending && !Led(s', key);
    }
  }

  /** A registration left behind stays so, and nobody leads its key, exactly until the next initial sync of it. */
  lemma {:induction false} StaleUntilInitialSync(states: seq<State>, steps: seq<Step>, i: nat, j: nat, key: Key)
    requires IsRun(states, steps) && i <= j < |states| && Stale(states[i], key)
    ensures (forall m :: i <= m <= j ==> Stale(states[m], key)) <==>
            (forall k :: i <= k < j ==> !StartsInitialSync(steps[k], key))
  {
    if i < j {
      StaleUntilInitialSync(states, steps, i, j - 1, key);
      assert Follows(states[j - 1], steps[j - 1], states[j]);
      if forall m :: i <= m <= j - 1 ==> Stale(states[m], key) {
        StepKeepsStale(states[j - 1], steps[j - 1], states[j], key);
      }
    }
  }

  /** A task that leads `key` is dropped. */
  ghost predicate DropsLeader(s: State, step: Step, key: Key) {
    step.Drop? && Leads(s, step.t, key)
  }

  lemma StaleOnlyByDrop(s: State, step: Step, s': State, key: Key)
    requires Follows(s, step, s') && !Stale(s, key) && Stale(s', key)
    ensures DropsLeader(s, step, key)
  {
    if Led(s, key) {
      var t :| Leads(s, t, key);
      assert !Leads(s', t, key);
    } else {
      assert step.Call? || step.InitialSync?;
      assert Leads(s', step.t, key);
    }
  }

  lemma {:induction false} StaleSinceDrop(states: seq<State>, steps: seq<Step>, i: nat, key: Key) returns (k: nat)
    requires IsRun(states, steps) && i < |states| && Stale(states[i], key)
    ensures k < i && DropsLeader(states[k], steps[k], key)
    ensures forall m :: k < m <= i ==> Stale(states[m], key)
  {
    assert Follows(states[i - 1], steps[i - 1], states[i]);
    if Stale(states[i - 1], key) {
      k := StaleSinceDrop(states, steps, i - 1, key);
    } else {
      StaleOnlyByDrop(states[i - 1], steps[i - 1], states[i], key);
      k := i - 1;
    }
  }

  /** Its leader was dropped before state `i`, and no initial sync of it started since. */
  ghost predicate Abandoned(states: seq<State>, steps: seq<Step>, i: nat, key: Key)
    requires IsRun(states, steps) && i < |states|
  {
    exists k :: 0 <= k < i && DropsLeader(states[k], steps[k], key)
                && forall m :: k < m < i ==> !StartsInitialSync(steps[m], key)
  }

  /**
   As long as no initial sync cuts in, a key is registered exactly while a task leads it or
   after its leader was dropped and before the next initial sync.
   */
  lemma RegisteredIffLedOrAbandoned(states: seq<State>, steps: seq<Step>, i: nat, key: Key)
    requires IsRun(states, steps) && i < |states| && forall k :: 0 <= k < i ==> !CutsIn(states[k], steps[k], key)
    ensures key in states[i].registry.pending <==> Led(states[i], key) || Abandoned(states, steps, i, key)
  {
    LeaderIsUnique(states, steps, i, key);
    if Stale(states[i], key) {
      var k := StaleSinceDrop(states, steps, i, key);
      StaleUntilInitialSync(states, steps, k + 1, i, key);
    }
    if Abandoned(states, steps, i, key) {
      var k :| 0 <= k < i && DropsLeader(states[k], steps[k], key)
               && forall m :: k < m < i ==> !StartsInitialSync(steps[m], key);
      LeaderIsUnique(states, steps, k, key);
      DroppedUniqueLeaderLeavesStale(states[k], steps[k], states[k + 1], key);
      StaleUntilInitialSync(states, steps, k + 1, i, key);
    }
  }

  lemma DroppedUniqueLeaderLeavesStale(s: State, step: Step, s': State, key: Key)
    requires Follows(s, step, s') && DropsLeader(s, step, key) && !TwoLead(s, key) && key in s.registry.pending
    ensures Stale(s', key)
  {
    forall t ensures !Leads(s', t, key) {
      assert t != step.t && Leads(s', t, key) ==> Leads(s, t, key);
    }
  }

  // ---- Subscribers ----

  /** A task that leads `key` comes to its end and publishes. */
  predicate Finishes(s: State, step: Step, key: Key) {
    step.Finish? && Leads(s, step.t, key)
  }

  ghost predicate NoneFinishes(states: seq<State>, steps: seq<Step>, i: nat, j: nat, key: Key)
    requires IsRun(states, steps) && j <= |steps|
  {
    forall k :: i < k < j ==> !Finishes(states[k], steps[k], key)
  }

  /** The step `f` is the first after `i` by which a task publishes under `key`. */
  ghost predicate IsFirstFinish(states: seq<State>, steps: seq<Step>, i: nat, f: nat, key: Key)
    requires IsRun(states, steps) && f < |steps|
  {
    i < f && Finishes(states[f], steps[f], key) && NoneFinishes(states, steps, i, f, key)
  }

  /** The task `t` subscribes to `key` in step `i`. */
  predicate Subscribes(states: seq<State>, steps: seq<Step>, i: nat, t: Tid, key: Key)
    requires |states| == |steps| + 1
  {
    i < |steps| && steps[i] == Call(t, key) && key in states[i].registry.pending
  }

  lemma StepKeepsSubscribed(s: State, step: Step, s': State, t: Tid, key: Key, rx: Rx)
    requires Inv(s) && Follows(s, step, s') && t in s.tasks && s.tasks[t] == Waiting(key, rx)
    requires Subscribed(s.registry, key, rx)
    ensures t in s'.tasks
    ensures !Finishes(s, step, key) ==>
      s'.tasks[t].Dropped? || (s'.tasks[t] == Waiting(key, rx) && Subscribed(s'.registry, key, rx))
    ensures Finishes(s, step, key) ==> s'.tasks[t] == Waiting(key, rx) && Served(s'.registry, rx, [step.outcome])
  {
    match step {
      case Finish(u, outcome) => PublishServes(s.registry, s.tasks[u].key, outcome, key, rx, []);
      case Receive(u) => assert u != t ==> ReceiverOf(s.tasks[u]) != ReceiverOf(s.tasks[t]);
      case Drop(_) =>
      case _ => RegisterKeepsReceiver(s.registry, step.key, key, rx, []);
    }
  }

  /** Until somebody publishes under its key, a subscriber waits, and its registration stands. */
  lemma {:induction false} SubscriberWaits(states: seq<State>, steps: seq<Step>, i: nat, j: nat, t: Tid, key: Key)
    requires IsRun(states, steps) && i < j < |states| && Subscribes(states, steps, i, t, key)
    requires NoneFinishes(states, steps, i, j, key)
    ensures t in states[j].tasks
    ensures var rx := states[i].registry.unused;
      states[j].tasks[t].Dropped?
      || (states[j].tasks[t] == Waiting(key, rx) && Subscribed(states[j].registry, key, rx))
  {
    assert Follows(states[j - 1], steps[j - 1], states[j]);
    if i + 1 < j {
      SubscriberWaits(states, steps, i, j - 1, t, key);
      RunKeepsInv(states, steps, j - 1);
      if !states[j - 1].tasks[t].Dropped? {
        StepKeepsSubscribed(states[j - 1], steps[j - 1], states[j], t, key, states[i].registry.unused);
      }
    }
  }

  /** What the subscriber on `rx` has been told is `outcome`, once, or will be when it reads. */
  predicate Told(s: State, t: Tid, key: Key, rx: Rx, outcome: Outcome) {
    && t in s.tasks
    && (|| s.tasks[t].Dropped?
        || (s.tasks[t] == Waiting(key, rx) && Served(s.registry, rx, [outcome]))
        || (s.tasks[t] == Returned(outcome, Some(rx)) && Served(s.registry, rx, [])))
  }

  lemma StepKeepsTold(s: State, step: Step, s': State, t: Tid, key: Key, rx: Rx, outcome: Outcome)
    requires Inv(s) && Follows(s, step, s') && Told(s, t, key, rx, outcome)
    ensures Told(s', t, key, rx, outcome)
  {
    if !s.tasks[t].Dropped? {
      match step {
        case Finish(u, o) => PublishServes(s.registry, s.tasks[u].key, o, key, rx, s.registry.inbox[rx]);
        case Receive(u) =>
          assert u != t ==> ReceiverOf(s.tasks[u]) != ReceiverOf(s.tasks[t]);
          assert [outcome][1..] == [];
        case Drop(_) =>
        case _ => RegisterKeepsReceiver(s.registry, step.key, key, rx, s.registry.inbox[rx]);
      }
    }
  }

  lemma {:induction false} SubscriberIsTold(
    states: seq<State>, steps: seq<Step>, i: nat, f: nat, j: nat, t: Tid, key: Key)
    requires IsRun(states, steps) && f < j < |states| && Subscribes(states, steps, i, t, key)
    requires IsFirstFinish(states, steps, i, f, key)
    ensures Told(states[j], t, key, states[i].registry.unused, steps[f].outcome)
  {
    var rx := states[i].registry.unused;
    assert Follows(states[j - 1], steps[j - 1], states[j]);
    RunKeepsInv(states, steps, j - 1);
    if f + 1 < j {
      SubscriberIsTold(states, steps, i, f, j - 1, t, key);
      StepKeepsTold(states[j - 1], steps[j - 1], states[j], t, key, rx, steps[f].outcome);
    } else {
      SubscriberWaits(states, steps, i, f, t, key);
      if !states[f].tasks[t].Dropped? {
        StepKeepsSubscribed(states[f], steps[f], states[j], t, key, rx);
      }
    }
  }

  lemma {:induction false} FirstFinish(states: seq<State>, steps: seq<Step>, i: nat, j: nat, key: Key) returns (f: nat)
    requires IsRun(states, steps) && j <= |steps| && !NoneFinishes(states, steps, i, j, key)
    ensures f < j && IsFirstFinish(states, steps, i, f, key)
  {
    if NoneFinishes(states, steps, i, j - 1, key) {
      f := j - 1;
    } else {
      f := FirstFinish(states, steps, i, j - 1, key);
    }
  }

  lemma {:induction false} PendingUntilFinish(states: seq<State>, steps: seq<Step>, i: nat, j: nat, key: Key)
    requires IsRun(states, steps) && i < j < |states| && key in states[i + 1].registry.pending
    requires NoneFinishes(states, steps, i, j, key)
    ensures key in states[j].registry.pending
  {
    if i + 1 < j {
      PendingUntilFinish(states, steps, i, j - 1, key);
      assert Follows(states[j - 1], steps[j - 1], states[j]);
      assert !Finishes(states[j - 1], steps[j - 1], key);
    }
  }

  /** While nobody publishes, only an initial sync becomes a new leader of a registered key. */
  lemma {:induction false} LeaderIsOldOrInitialSync(
    states: seq<State>, steps: seq<Step>, i: nat, j: nat, u: Tid, key: Key)
    requires IsRun(states, steps) && i < j < |states| && key in states[i + 1].registry.pending
    requires NoneFinishes(states, steps, i, j, key) && Leads(states[j], u, key)
    ensures Leads(states[i + 1], u, key) <==> forall k :: i < k < j ==> steps[k] != InitialSync(u, key)
  {
    if i + 1 < j {
      assert Follows(states[j - 1], steps[j - 1], states[j]);
      PendingUntilFinish(states, steps, i, j - 1, key);
      if Leads(states[j - 1], u, key) {
        LeaderIsOldOrInitialSync(states, steps, i, j - 1, u, key);
      } else {
        assert steps[j - 1] == InitialSync(u, key);
        TasksStay(states, steps, i + 1, j - 1, u);
      }
    }
  }

  lemma {:induction false} TasksStay(states: seq<State>, steps: seq<Step>, i: nat, j: nat, t: Tid)
    requires IsRun(states, steps) && i <= j < |states| && t !in states[j].tasks
    ensures t !in states[i].tasks
  {
    if i < j {
      assert Follows(states[j - 1], steps[j - 1], states[j]);
      TasksStay(states, steps, i, j - 1, t);
    }
  }

  /**
   In any run, a subscriber that returns, returns the result of the first task to publish
   under its key after it subscribed, and is sent that one result only. That task was
   leading when it subscribed exactly unless it is an initial sync started since.
   */
  lemma SubscriberGetsFirstResult(states: seq<State>, steps: seq<Step>, i: nat, j: nat, t: Tid, key: Key)
    returns (f: nat)
    requires IsRun(states, steps) && i < j < |states| && Subscribes(states, steps, i, t, key)
    requires t in states[j].tasks && states[j].tasks[t].Returned?
    ensures f < j && IsFirstFinish(states, steps, i, f, key)
    ensures states[j].tasks[t] == Returned(steps[f].outcome, Some(states[i].registry.unused))
    ensures Served(states[j].registry, states[i].registry.unused, [])
    ensures Leads(states[i], steps[f].t, key) <==> forall k :: i < k < f ==> steps[k] != InitialSync(steps[f].t, key)
  {
    if NoneFinishes(states, steps, i, j, key) {
      SubscriberWaits(states, steps, i, j, t, key);
      assert false;
    }
    f := FirstFinish(states, steps, i, j, key);
    SubscriberIsTold(states, steps, i, f, j, t, key);
    assert Follows(states[i], steps[i], states[i + 1]);
    LeaderIsOldOrInitialSync(states, steps, i, f, steps[f].t, key);
  }

  /**
   In any run, a subscriber that still waits has been sent the first result published
   under its key since it subscribed, or none was and its registration still stands.
   */
  lemma NoSubscriberForgotten(states: seq<State>, steps: seq<Step>, i: nat, j: nat, t: Tid, key: Key)
    requires IsRun(states, steps) && i < j < |states| && Subscribes(states, steps, i, t, key)
    requires t in states[j].tasks && states[j].tasks[t].Waiting?
    ensures var rx := states[i].registry.unused;
      if NoneFinishes(states, steps, i, j, key) then Subscribed(states[j].registry, key, rx)
      else exists f :: i < f < j && IsFirstFinish(states, steps, i, f, key)
                       && Served(states[j].registry, rx, [steps[f].outcome])
  {
    if NoneFinishes(states, steps, i, j, key) {
      SubscriberWaits(states, steps, i, j, t, key);
    } else {
      var f := FirstFinish(states, steps, i, j, key);
      SubscriberIsTold(states, steps, i, f, j, t, key);
    }
  }

  /** The next initial sync takes a registration over that was left behind: it ends it, and serves its subscribers. */
  lemma InitialSyncTakesOver(states: seq<State>, steps: seq<Step>, t: Tid, key: Key, outcome: Outcome, u: Tid, rx: Rx)
    requires IsRun(states, steps) && Stale(states[|steps|], key) && t !in states[|steps|].tasks
    requires u in states[|steps|].tasks && states[|steps|].tasks[u] == Waiting(key, rx)
    requires Subscribed(states[|steps|].registry, key, rx)
    ensures var led := Apply(states[|steps|], InitialSync(t, key));
      var done := Apply(led, Finish(t, outcome));
      && Leads(led, t, key) && !TwoLead(led, key)
      && key !in done.registry.pending && Told(done, u, key, rx, outcome) && !done.tasks[u].Dropped?
  {
    var s := states[|steps|];
    var led := Apply(s, InitialSync(t, key));
    RunKeepsInv(states, steps, |steps|);
    StepKeepsInv(s, InitialSync(t, key));
    StepKeepsSubscribed(s, InitialSync(t, key), led, u, key, rx);
    StepKeepsSubscribed(led, Finish(t, outcome), Apply(led, Finish(t, outcome)), u, key, rx);
    forall a | Leads(led, a, key) ensures a == t {
      assert a != t ==> Leads(s, a, key);
    }
  }

  // ---- An initial sync that starts while a task leads ----

  /** A caller leads, a second one waits for it, and then the initial sync starts. */
  const Crowded := State(
    Registry(map[0 := [0, 1]], map[0 := [], 1 := []], 2),
    map[0 := Leading(0), 1 := Waiting(0, 0), 2 := Leading(0)])

  /** The initial sync ends first, and its result goes to the waiting caller. */
  const Mixed := State(
    Registry(map[], map[0 := [], 1 := [Ok]], 2),
    map[0 := Leading(0), 1 := Returned(Ok, Some(0)), 2 := Returned(Ok, None)])

  lemma ToCrowded(first: State, second: State)
    requires Follows(Init, Call(0, 0), first) && Follows(first, Call(1, 0), second)
    ensures Follows(second, InitialSync(2, 0), Crowded)
  {
    assert first.registry.pending[0] + [0] == [0];
    assert second.registry.pending[0] + [1] == [0, 1];
    assert second.registry == Registry(map[0 := [0]], map[0 := []], 1);
    var last := Apply(second, InitialSync(2, 0));
    assert last.registry.pending == Crowded.registry.pending;
    assert last.tasks == Crowded.tasks;
  }

  lemma ToMixed(published: State)
    requires Follows(Crowded, Finish(2, Ok), published)
    ensures Follows(published, Receive(1), Mixed)
  {
    PublishedWhileCrowded();
    assert published.registry == Registry(map[], map[0 := [Ok], 1 := [Ok]], 2);
    assert [Ok][1..] == [];
    var last := Apply(published, Receive(1));
    assert last.registry.inbox == Mixed.registry.inbox;
    assert last.tasks == Mixed.tasks;
  }

  lemma PublishedWhileCrowded()
    ensures Publish(Crowded.registry, 0, Ok) == Registry(map[], map[0 := [Ok], 1 := [Ok]], 2)
  {
    var inbox, receivers := Crowded.registry.inbox, Crowded.registry.pending[0];
    assert inbox[0] + [Ok] == [Ok] == inbox[1] + [Ok] && 0 in receivers && 1 in receivers;
    assert Sent(inbox, receivers, Ok) == map[0 := [Ok], 1 := [Ok]];
    assert Crowded.registry.pending - {0} == map[];
  }

  /**
   The initial sync can start while a task leads: both lead, a subscriber returns the
   initial sync's result, and the task it had joined leads on a key no longer registered.
   */
  lemma InitialSyncCanCutIn() returns (states: seq<State>, steps: seq<Step>)
    ensures IsRun(states, steps) && |states| == 6 && states[3] == Crowded && states[5] == Mixed
    ensures TwoLead(states[3], 0)
    ensures Leads(states[5], 0, 0) && states[5].tasks[1].Returned? && 0 !in states[5].registry.pending
  {
    var first := Apply(Init, Call(0, 0));
    var second := Apply(first, Call(1, 0));
    var published := Apply(Crowded, Finish(2, Ok));
    ToCrowded(first, second);
    ToMixed(published);
    states, steps := Extend([Init], [], Call(0, 0), first);
    states, steps := Extend(states, steps, Call(1, 0), second);
    states, steps := Extend(states, steps, InitialSync(2, 0), Crowded);
    states, steps := Extend(states, steps, Finish(2, Ok), published);
    states, steps := Extend(states, steps, Receive(1), Mixed);
    assert Leads(Crowded, 0, 0) && Leads(Crowded, 2, 0);
  }

  lemma Extend(states: seq<State>, steps: seq<Step>, step: Step, s': State)
    returns (longer: seq<State>, more: seq<Step>)
    requires IsRun(states, steps) && Follows(states[|steps|], step, s')
    ensures IsRun(longer, more) && longer == states + [s'] && |more| == |steps| + 1
  {
    longer, more := states + [s'], steps + [step];
  }
}
