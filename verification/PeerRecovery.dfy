/**
 Peer operations and recovery passes running concurrently.

 Two locks are involved: the exclusion lock (a read/write lock around the set of peers
 that recovery must leave alone) and the peer store's mutation lock. Every operation is a
 thread that runs to its end; every lock acquisition, every unsynchronised read of the
 peer map and every end of a store write is one step, and steps of all threads interleave.
 */
module PeerRecovery {
  import opened CountedCodec
  import opened PeerStore

  type Tid = nat

  datatype Kind =
    | Disconnect(peer: NodeId)
    | Connect(peer: NodeId, address: Address)
    | CloseLast(peer: NodeId)
    | PlainAdd(peer: NodeId, address: Address)
    | Recovery(counterparties: seq<NodeId>)

  datatype At =
    | WantExclusion
    | Scan(next: nat, found: seq<(NodeId, Address)>)
    | Visit(todo: seq<(NodeId, Address)>)
    | WantMutation(target: NodeId, adds: Option<Address>, rest: seq<(NodeId, Address)>)
    | Writing(target: NodeId, previous: Option<Address>, data: Peers, rest: seq<(NodeId, Address)>)
    | Release(ok: bool)
    | Done(ok: bool)

  datatype Thread = Thread(kind: Kind, at: At)

  datatype State = State(
    peers: Peers,
    disk: Peers,
    excluded: set<NodeId>,
    mutation: Option<Tid>,
    writer: Option<Tid>,
    readers: set<Tid>,
    threads: map<Tid, Thread>)

  datatype Step =
    | Launch(t: Tid, kind: Kind)
    | Grant(t: Tid)
    | ScanNext(t: Tid, announced: Option<Address>)
    | VisitNext(t: Tid)
    | Lock(t: Tid)
    | WriteEnds(t: Tid, ok: bool)
    | Finish(t: Tid)

  /** A node that loaded `stored` and has no operation under way. */
  function Init(stored: Peers): (r: State) {
    State(stored, stored, {}, None, None, {}, map[])
  }

  /** The operations that keep the exclusion lock for writing around their mutation. */
  predicate TakesWriteLock(k: Kind) {
    k.Disconnect? || k.Connect?
  }

  predicate IsExplicitAdd(k: Kind) {
    k.Connect? || k.PlainAdd?
  }

  function FirstMutation(k: Kind): (r: At)
    requires !k.Recovery?
  {
    match k
    case Disconnect(p) => WantMutation(p, None, [])
    case Connect(p, a) => WantMutation(p, Some(a), [])
    case CloseLast(p) => WantMutation(p, None, [])
    case PlainAdd(p, a) => WantMutation(p, Some(a), [])
  }

  function FirstAt(k: Kind): (r: At) {
    if k.PlainAdd? then FirstMutation(k) else WantExclusion
  }

  /** Where a thread goes on once its mutation is over and the mutation lock is free. */
  function AfterMutation(k: Kind, ok: bool, rest: seq<(NodeId, Address)>): (r: At) {
    match k
    case Disconnect(_) => Release(ok)
    case Connect(_, _) => Release(ok)
    case CloseLast(_) => Done(ok)
    case PlainAdd(_, _) => Done(ok)
    case Recovery(_) => Visit(rest)
  }

  predicate Grantable(s: State, k: Kind) {
    s.writer.None? && (k.Recovery? || s.readers == {})
  }

  predicate Enabled(s: State, step: Step) {
    match step
    case Launch(t, _) => t !in s.threads
    case Grant(t) => t in s.threads && s.threads[t].at.WantExclusion? && Grantable(s, s.threads[t].kind)
    case ScanNext(t, _) => t in s.threads && s.threads[t].kind.Recovery? && s.threads[t].at.Scan?
    case VisitNext(t) => t in s.threads && s.threads[t].at.Visit?
    case Lock(t) => t in s.threads && s.threads[t].at.WantMutation? && s.mutation.None?
    case WriteEnds(t, _) => t in s.threads && s.threads[t].at.Writing?
    case Finish(t) => t in s.threads && s.threads[t].at.Release?
  }

  function Goto(s: State, t: Tid, at: At): (r: State)
    requires t in s.threads
  {
    s.(threads := s.threads[t := s.threads[t].(at := at)])
  }

  function AfterGrant(s: State, t: Tid): (r: State)
    requires t in s.threads
  {
    var k := s.threads[t].kind;
    match k
    case Recovery(_) => Goto(s, t, Scan(0, [])).(readers := s.readers + {t})
    case CloseLast(p) => Goto(s, t, FirstMutation(k)).(excluded := s.excluded + {p})
    case _ => Goto(s, t, FirstMutation(k)).(writer := Some(t))
  }

  /** One turn of the filter in `persist_missing_channel_peers_excluding`. */
  function AfterScan(s: State, t: Tid, announced: Option<Address>): (r: State)
    requires t in s.threads && s.threads[t].kind.Recovery? && s.threads[t].at.Scan?
  {
    var all, next, found := s.threads[t].kind.counterparties, s.threads[t].at.next, s.threads[t].at.found;
    if next >= |all| then Goto(s, t, Visit(found))
    else
      var p := all[next];
      var skip := p in all[..next] || p in s.excluded || p in s.peers || announced.None?;
      Goto(s, t, Scan(next + 1, if skip then found else found + [(p, announced.value)]))
  }

  function AfterVisit(s: State, t: Tid): (r: State)
    requires t in s.threads && s.threads[t].at.Visit?
  {
    var todo := s.threads[t].at.todo;
    if todo == [] then Goto(s, t, Done(true)).(readers := s.readers - {t})
    else if todo[0].0 in s.peers then Goto(s, t, Visit(todo[1..]))
    else Goto(s, t, WantMutation(todo[0].0, Some(todo[0].1), todo[1..]))
  }

  /** The in-memory section of `add_peer` and `remove_peer`. */
  function AfterLock(s: State, t: Tid): (r: State)
    requires t in s.threads && s.threads[t].at.WantMutation?
  {
    var WantMutation(p, adds, rest) := s.threads[t].at;
    var previous := Lookup(s.peers, p);
    if adds.Some? && previous == adds then Goto(s, t, AfterMutation(s.threads[t].kind, true, rest))
    else
      var changed := if adds.Some? then s.peers[p := adds.value] else s.peers - {p};
      Goto(s, t, Writing(p, previous, changed, rest)).(peers := changed, mutation := Some(t))
  }

  function AfterWrite(s: State, t: Tid, ok: bool): (r: State)
    requires t in s.threads && s.threads[t].at.Writing?
  {
    var Writing(p, previous, data, rest) := s.threads[t].at;
    var k := s.threads[t].kind;
    var next := Goto(s, t, AfterMutation(k, ok, rest)).(mutation := None);
    if ok then next.(disk := data)
    else next.(peers := RollBack(s.peers, p, previous))
  }

  function AfterRelease(s: State, t: Tid): (r: State)
    requires t in s.threads && s.threads[t].at.Release?
  {
    var ok, k := s.threads[t].at.ok, s.threads[t].kind;
    Goto(s, t, Done(ok)).(
      writer := None,
      excluded := if ok && k.Disconnect? then s.excluded + {k.peer}
                  else if ok && k.Connect? then s.excluded - {k.peer}
                  else s.excluded)
  }

  function Apply(s: State, step: Step): (r: State)
    requires Enabled(s, step)
  {
    match step
    case Launch(t, k) => s.(threads := s.threads[t := Thread(k, FirstAt(k))])
    case Grant(t) => AfterGrant(s, t)
    case ScanNext(t, announced) => AfterScan(s, t, announced)
    case VisitNext(t) => AfterVisit(s, t)
    case Lock(t) => AfterLock(s, t)
    case WriteEnds(t, ok) => AfterWrite(s, t, ok)
    case Finish(t) => AfterRelease(s, t)
  }

  ghost predicate Follows(s: State, step: Step, s': State) {
    Enabled(s, step) && s' == Apply(s, step)
  }

  ghost predicate IsRun(stored: Peers, states: seq<State>, steps: seq<Step>) {
    && |states| == |steps| + 1
    && states[0] == Init(stored)
    && forall i :: 0 <= i < |steps| ==> Follows(states[i], steps[i], states[i + 1])
  }

  // ---- Invariant ----

  predicate InsideWriteLock(th: Thread) {
    TakesWriteLock(th.kind) && (th.at.WantMutation? || th.at.Writing? || th.at.Release?)
  }

  predicate InsideReadLock(th: Thread) {
    th.kind.Recovery? && (th.at.Scan? || th.at.Visit? || th.at.WantMutation? || th.at.Writing?)
  }

  /** The locks are held by exactly the threads that are inside them. */
  ghost predicate LocksFit(s: State) {
    && (forall t :: t in s.threads ==> (s.mutation == Some(t) <==> s.threads[t].at.Writing?))
    && (forall t :: t in s.threads ==> (s.writer == Some(t) <==> InsideWriteLock(s.threads[t])))
    && (forall t :: t in s.threads ==> (t in s.readers <==> InsideReadLock(s.threads[t])))
    && (s.mutation.Some? ==> s.mutation.value in s.threads)
    && (s.writer.Some? ==> s.writer.value in s.threads && s.readers == {})
    && (forall t :: t in s.readers ==> t in s.threads)
  }

  function Keys(pairs: seq<(NodeId, Address)>): (r: set<NodeId>) {
    set pair | pair in pairs :: pair.0
  }

  /** The peers a thread at `at` may still add or remove. */
  function Pending(at: At): (r: set<NodeId>) {
    match at
    case Scan(_, found) => Keys(found)
    case Visit(todo) => Keys(todo)
    case WantMutation(p, _, rest) => {p} + Keys(rest)
    case Writing(p, _, _, rest) => {p} + Keys(rest)
    case _ => {}
  }

  /** A thread works on its own target, and a recovery pass never on an excluded peer. */
  ghost predicate ThreadFits(th: Thread, excluded: set<NodeId>) {
    match th.kind
    case Recovery(_) =>
      Pending(th.at) !! excluded && !th.at.Release? && (th.at.WantMutation? ==> th.at.adds.Some?)
    case _ =>
      && !th.at.Scan? && !th.at.Visit?
      && (th.kind.PlainAdd? ==> !th.at.WantExclusion?)
      && (th.at.Release? ==> TakesWriteLock(th.kind))
      && (th.at.WantMutation? ==> th.at == FirstMutation(th.kind))
      && (th.at.Writing? ==> th.at.target == th.kind.peer)
  }

  ghost predicate ThreadsFit(s: State) {
    forall t :: t in s.threads ==> ThreadFits(s.threads[t], s.excluded)
  }

  /** Memory equals disk, except for the one change that is being written. */
  ghost predicate MemoryFits(s: State) {
    && (s.mutation.None? ==> s.peers == s.disk)
    && (s.mutation.Some? && s.mutation.value in s.threads && s.threads[s.mutation.value].at.Writing? ==>
          var th := s.threads[s.mutation.value];
          && th.at.data == s.peers
          && RollBack(s.peers, th.at.target, th.at.previous) == s.disk
          && (th.kind.Disconnect? || th.kind.CloseLast? ==> th.at.target !in s.peers))
  }

  ghost predicate Inv(s: State) {
    LocksFit(s) && ThreadsFit(s) && MemoryFits(s)
  }

  /** A thread that neither enters nor leaves a lock. */
  lemma MoveKeepsLocks(s: State, t: Tid, at: At)
    requires LocksFit(s) && t in s.threads
    requires var before, after := s.threads[t], s.threads[t].(at := at);
      && before.at.Writing? == after.at.Writing?
      && InsideWriteLock(before) == InsideWriteLock(after)
      && InsideReadLock(before) == InsideReadLock(after)
    ensures LocksFit(Goto(s, t, at))
  {
  }

  lemma LaunchKeepsLocks(s: State, t: Tid, k: Kind)
    requires LocksFit(s) && ThreadsFit(s) && Enabled(s, Launch(t, k))
    ensures LocksFit(Apply(s, Launch(t, k)))
  {
  }

  lemma LaunchKeepsThreads(s: State, t: Tid, k: Kind)
    requires LocksFit(s) && ThreadsFit(s) && Enabled(s, Launch(t, k))
    ensures ThreadsFit(Apply(s, Launch(t, k)))
  {
  }

  lemma LaunchKeepsMemory(s: State, t: Tid, k: Kind)
    requires Inv(s) && Enabled(s, Launch(t, k))
    ensures MemoryFits(Apply(s, Launch(t, k)))
  {
  }

  lemma EnterToReadKeepsLocks(s: State, t: Tid)
    requires LocksFit(s) && t in s.threads && s.threads[t] == Thread(s.threads[t].kind, WantExclusion)
    requires s.threads[t].kind.Recovery? && s.writer.None?
    ensures LocksFit(Goto(s, t, Scan(0, [])).(readers := s.readers + {t}))
  {
  }

  lemma EnterToWriteKeepsLocks(s: State, t: Tid)
    requires LocksFit(s) && t in s.threads && s.threads[t] == Thread(s.threads[t].kind, WantExclusion)
    requires TakesWriteLock(s.threads[t].kind) && s.writer.None? && s.readers == {}
    ensures LocksFit(Goto(s, t, FirstMutation(s.threads[t].kind)).(writer := Some(t)))
  {
  }

  lemma GrantKeepsLocks(s: State, t: Tid)
    requires LocksFit(s) && ThreadsFit(s) && Enabled(s, Grant(t))
    ensures LocksFit(Apply(s, Grant(t)))
  {
    assert ThreadFits(s.threads[t], s.excluded);
    match s.threads[t].kind {
      case Recovery(_) => EnterToReadKeepsLocks(s, t);
      case CloseLast(_) => MoveKeepsLocks(s, t, FirstMutation(s.threads[t].kind));
      case _ => EnterToWriteKeepsLocks(s, t);
    }
  }

  lemma GrantKeepsThreads(s: State, t: Tid)
    requires LocksFit(s) && ThreadsFit(s) && Enabled(s, Grant(t))
    ensures ThreadsFit(Apply(s, Grant(t)))
  {
  }

  lemma GrantKeepsMemory(s: State, t: Tid)
    requires Inv(s) && Enabled(s, Grant(t))
    ensures MemoryFits(Apply(s, Grant(t)))
  {
  }

  lemma ScanKeepsLocks(s: State, t: Tid, announced: Option<Address>)
    requires LocksFit(s) && ThreadsFit(s) && Enabled(s, ScanNext(t, announced))
    ensures LocksFit(Apply(s, ScanNext(t, announced)))
  {
    MoveKeepsLocks(s, t, Apply(s, ScanNext(t, announced)).threads[t].at);
  }

  lemma ScanKeepsThreads(s: State, t: Tid, announced: Option<Address>)
    requires LocksFit(s) && ThreadsFit(s) && Enabled(s, ScanNext(t, announced))
    ensures ThreadsFit(Apply(s, ScanNext(t, announced)))
  {
  }

  lemma ScanKeepsMemory(s: State, t: Tid, announced: Option<Address>)
    requires Inv(s) && Enabled(s, ScanNext(t, announced))
    ensures MemoryFits(Apply(s, ScanNext(t, announced)))
  {
  }

  lemma LeavingKeepsLocks(s: State, t: Tid)
    requires LocksFit(s) && t in s.threads && s.threads[t].kind.Recovery? && s.threads[t].at.Visit?
    ensures LocksFit(Goto(s, t, Done(true)).(readers := s.readers - {t}))
  {
    assert s.writer.Some? ==> s.readers == {};
  }

  lemma VisitKeepsLocks(s: State, t: Tid)
    requires LocksFit(s) && ThreadsFit(s) && Enabled(s, VisitNext(t))
    ensures LocksFit(Apply(s, VisitNext(t)))
  {
    assert ThreadFits(s.threads[t], s.excluded);
    if s.threads[t].at.todo == [] {
      LeavingKeepsLocks(s, t);
    } else {
      MoveKeepsLocks(s, t, Apply(s, VisitNext(t)).threads[t].at);
    }
  }

  lemma VisitKeepsThreads(s: State, t: Tid)
    requires LocksFit(s) && ThreadsFit(s) && Enabled(s, VisitNext(t))
    ensures ThreadsFit(Apply(s, VisitNext(t)))
  {
  }

  lemma VisitKeepsMemory(s: State, t: Tid)
    requires Inv(s) && Enabled(s, VisitNext(t))
    ensures MemoryFits(Apply(s, VisitNext(t)))
  {
  }

  lemma LockKeepsLocks(s: State, t: Tid)
    requires LocksFit(s) && ThreadsFit(s) && Enabled(s, Lock(t))
    ensures LocksFit(Apply(s, Lock(t)))
  {
  }

  lemma LockKeepsThreads(s: State, t: Tid)
    requires LocksFit(s) && ThreadsFit(s) && Enabled(s, Lock(t))
    ensures ThreadsFit(Apply(s, Lock(t)))
  {
  }

  lemma LockKeepsMemory(s: State, t: Tid)
    requires Inv(s) && Enabled(s, Lock(t))
    ensures MemoryFits(Apply(s, Lock(t)))
  {
  }

  lemma WriteKeepsLocks(s: State, t: Tid, ok: bool)
    requires LocksFit(s) && ThreadsFit(s) && Enabled(s, WriteEnds(t, ok))
    ensures LocksFit(Apply(s, WriteEnds(t, ok)))
  {
  }

  lemma WriteKeepsThreads(s: State, t: Tid, ok: bool)
    requires LocksFit(s) && ThreadsFit(s) && Enabled(s, WriteEnds(t, ok))
    ensures ThreadsFit(Apply(s, WriteEnds(t, ok)))
  {
  }

  lemma WriteKeepsMemory(s: State, t: Tid, ok: bool)
    requires Inv(s) && Enabled(s, WriteEnds(t, ok))
    ensures MemoryFits(Apply(s, WriteEnds(t, ok)))
  {
  }

  lemma ReleaseKeepsLocks(s: State, t: Tid)
    requires LocksFit(s) && ThreadsFit(s) && Enabled(s, Finish(t))
    ensures LocksFit(Apply(s, Finish(t)))
  {
  }

  lemma ReleaseKeepsThreads(s: State, t: Tid)
    requires LocksFit(s) && ThreadsFit(s) && Enabled(s, Finish(t))
    ensures ThreadsFit(Apply(s, Finish(t)))
  {
  }

  lemma ReleaseKeepsMemory(s: State, t: Tid)
    requires Inv(s) && Enabled(s, Finish(t))
    ensures MemoryFits(Apply(s, Finish(t)))
  {
  }

  /** Every step of every thread keeps the invariant. */
  lemma StepKeepsInv(s: State, step: Step)
    requires Inv(s) && Enabled(s, step)
    ensures Inv(Apply(s, step))
  {
    match step {
      case Launch(t, k) => LaunchKeepsLocks(s, t, k); LaunchKeepsThreads(s, t, k); LaunchKeepsMemory(s, t, k);
      case Grant(t) => GrantKeepsLocks(s, t); GrantKeepsThreads(s, t); GrantKeepsMemory(s, t);
      case ScanNext(t, a) => ScanKeepsLocks(s, t, a); ScanKeepsThreads(s, t, a); ScanKeepsMemory(s, t, a);
      case VisitNext(t) => VisitKeepsLocks(s, t); VisitKeepsThreads(s, t); VisitKeepsMemory(s, t);
      case Lock(t) => LockKeepsLocks(s, t); LockKeepsThreads(s, t); LockKeepsMemory(s, t);
      case WriteEnds(t, ok) => WriteKeepsLocks(s, t, ok); WriteKeepsThreads(s, t, ok); WriteKeepsMemory(s, t, ok);
      case Finish(t) => ReleaseKeepsLocks(s, t); ReleaseKeepsThreads(s, t); ReleaseKeepsMemory(s, t);
    }
  }

  lemma {:induction false} RunKeepsInv(stored: Peers, states: seq<State>, steps: seq<Step>, i: nat)
    requires IsRun(stored, states, steps) && i < |states|
    ensures Inv(states[i])
  {
    if i > 0 {
      RunKeepsInv(stored, states, steps, i - 1);
      assert Follows(states[i - 1], steps[i - 1], states[i]);
      StepKeepsInv(states[i - 1], steps[i - 1]);
    }
  }

  // ---- What holds over whole runs ----

  /** A connect has added `p` and is about to lift its exclusion. */
  predicate AboutToLift(s: State, p: NodeId) {
    s.writer.Some? && s.writer.value in s.threads &&
    var th := s.threads[s.writer.value];
    th.kind.Connect? && th.kind.peer == p && th.at == Release(true)
  }

  /** A disconnect has removed `p` and is about to exclude it. */
  predicate JustRemoved(s: State, p: NodeId) {
    s.writer.Some? && s.writer.value in s.threads
    && s.threads[s.writer.value] == Thread(Disconnect(p), Release(true))
  }

  /** Recovery leaves `p` alone, now and once whoever holds the exclusion lock is done. */
  predicate Protected(s: State, p: NodeId) {
    (p in s.excluded && !AboutToLift(s, p)) || JustRemoved(s, p)
  }

  /** The step by which the store accepts an explicit add of `p`. */
  ghost predicate WritesExplicitAdd(s: State, step: Step, p: NodeId) {
    && step.WriteEnds? && step.ok && step.t in s.threads
    && IsExplicitAdd(s.threads[step.t].kind) && s.threads[step.t].kind.peer == p
  }

  /** The step by which the store accepts the removal a disconnect of `p` asked for. */
  ghost predicate WritesDisconnect(s: State, step: Step, p: NodeId) {
    step.WriteEnds? && step.ok && step.t in s.threads && s.threads[step.t].kind == Disconnect(p)
  }

  /** The step by which the store accepts the removal that closing the last channel asked for. */
  ghost predicate WritesClose(s: State, step: Step, p: NodeId) {
    step.WriteEnds? && step.ok && step.t in s.threads && s.threads[step.t].kind == CloseLast(p)
  }

  lemma WriteKeepsOut(s: State, t: Tid, p: NodeId)
    requires Inv(s) && Enabled(s, WriteEnds(t, true)) && !WritesExplicitAdd(s, WriteEnds(t, true), p)
    requires p !in s.disk && Protected(s, p)
    ensures p !in Apply(s, WriteEnds(t, true)).disk
  {
    var th := s.threads[t];
    assert ThreadFits(th, s.excluded);
    assert s.mutation == Some(t) && RollBack(s.peers, th.at.target, th.at.previous) == s.disk;
    if p in s.peers {
      assert th.at.target == p;
      assert th.kind.Recovery? ==> InsideReadLock(th) && p in Pending(th.at);
    }
  }

  lemma StepKeepsProtected(s: State, step: Step, p: NodeId)
    requires Inv(s) && Enabled(s, step) && !WritesExplicitAdd(s, step, p)
    requires p !in s.disk && Protected(s, p)
    ensures Protected(Apply(s, step), p)
  {
    if step.t in s.threads {
      assert ThreadFits(s.threads[step.t], s.excluded);
    }
  }

  lemma StepKeepsOut(s: State, step: Step, s': State, p: NodeId)
    requires Inv(s) && Follows(s, step, s') && !WritesExplicitAdd(s, step, p)
    requires p !in s.disk && Protected(s, p)
    ensures p !in s'.disk && Protected(s', p)
  {
    StepKeepsProtected(s, step, p);
    if step.WriteEnds? && step.ok {
      WriteKeepsOut(s, step.t, p);
    }
  }

  /** A protected peer stays protected and out of the store until an explicit add of it is written. */
  lemma {:induction false} ProtectedPeerStaysOut(
    stored: Peers, states: seq<State>, steps: seq<Step>, i: nat, k: nat, p: NodeId)
    requires IsRun(stored, states, steps) && i <= k < |states| && p !in states[i].disk && Protected(states[i], p)
    requires forall j :: i <= j < k ==> !WritesExplicitAdd(states[j], steps[j], p)
    ensures p !in states[k].disk && Protected(states[k], p)
  {
    if i < k {
      ProtectedPeerStaysOut(stored, states, steps, i, k - 1, p);
      RunKeepsInv(stored, states, steps, k - 1);
      assert Follows(states[k - 1], steps[k - 1], states[k]);
      StepKeepsOut(states[k - 1], steps[k - 1], states[k], p);
    }
  }

  /** A protected peer is in memory only while an explicit add of that very peer has its write in flight. */
  lemma ProtectedPeerInMemory(stored: Peers, states: seq<State>, steps: seq<Step>, i: nat, p: NodeId)
    requires IsRun(stored, states, steps) && i < |states| && p !in states[i].disk && Protected(states[i], p)
    ensures p in states[i].peers ==>
      exists t :: t in states[i].threads && states[i].mutation == Some(t) && IsExplicitAdd(states[i].threads[t].kind)
                  && states[i].threads[t].kind.peer == p
  {
    RunKeepsInv(stored, states, steps, i);
    var s := states[i];
    if p in s.peers {
      var th := s.threads[s.mutation.value];
      assert ThreadFits(th, s.excluded) && th.at.target == p;
      assert InsideReadLock(th) ==> p in Pending(th.at);
    }
  }

  /**
   After a disconnect of `p` was written, `p` is out of the store for as long as no
   explicit add of `p` is written, however recovery passes and other operations interleave.
   */
  lemma DisconnectedPeerStaysOut(stored: Peers, states: seq<State>, steps: seq<Step>, i: nat, k: nat, p: NodeId)
    requires IsRun(stored, states, steps) && i < k < |states| && WritesDisconnect(states[i], steps[i], p)
    requires forall j :: i < j < k ==> !WritesExplicitAdd(states[j], steps[j], p)
    ensures p !in states[k].disk
    ensures p in states[k].peers ==>
      exists t :: t in states[k].threads && states[k].mutation == Some(t) && IsExplicitAdd(states[k].threads[t].kind)
                  && states[k].threads[t].kind.peer == p
  {
    RunKeepsInv(stored, states, steps, i);
    assert Follows(states[i], steps[i], states[i + 1]);
    DisconnectProtects(states[i], steps[i], states[i + 1], p);
    ProtectedPeerStaysOut(stored, states, steps, i + 1, k, p);
    ProtectedPeerInMemory(stored, states, steps, k, p);
  }

  lemma DisconnectProtects(s: State, step: Step, s': State, p: NodeId)
    requires Inv(s) && Follows(s, step, s') && WritesDisconnect(s, step, p)
    ensures p !in s'.disk && Protected(s', p)
  {
    assert ThreadFits(s.threads[step.t], s.excluded) && InsideWriteLock(s.threads[step.t]);
  }

  // ---- Exactly what keeps a removed peer out ----

  /** A run that goes on from `states` without an explicit add of `p`. */
  ghost predicate Continues(
    stored: Peers, states: seq<State>, steps: seq<Step>, longer: seq<State>, more: seq<Step>, p: NodeId) {
    && IsRun(stored, longer, more) && states <= longer && steps <= more
    && (forall j :: |steps| <= j < |more| ==> !WritesExplicitAdd(longer[j], more[j], p))
  }

  /** However the run goes on, `p` is not in the store until an explicit add of it. */
  ghost predicate StaysOut(stored: Peers, states: seq<State>, steps: seq<Step>, p: NodeId) {
    forall longer: seq<State>, more: seq<Step> ::
      Continues(stored, states, steps, longer, more, p) ==> p !in longer[|more|].disk
  }

  lemma GoOn(
    stored: Peers, states: seq<State>, steps: seq<Step>, longer: seq<State>, more: seq<Step>, step: Step, p: NodeId)
    returns (longer': seq<State>, more': seq<Step>)
    requires IsRun(stored, states, steps) && Continues(stored, states, steps, longer, more, p)
    requires Enabled(longer[|more|], step) && !WritesExplicitAdd(longer[|more|], step, p)
    ensures Continues(stored, states, steps, longer', more', p)
    ensures |longer'| == |more'| + 1 && longer'[|more'|] == Apply(longer[|more|], step)
  {
    longer', more' := longer + [Apply(longer[|more|], step)], more + [step];
  }

  lemma Extend(stored: Peers, states: seq<State>, steps: seq<Step>, step: Step, s': State)
    returns (longer: seq<State>, more: seq<Step>)
    requires IsRun(stored, states, steps) && Follows(states[|states| - 1], step, s')
    ensures IsRun(stored, longer, more) && longer[|longer| - 1] == s'
    ensures states <= longer && more == steps + [step]
  {
    longer, more := states + [s'], steps + [step];
  }

  lemma RecoveryScans(s: State, t: Tid, p: NodeId, address: Address)
    requires t in s.threads && s.threads[t] == Thread(Recovery([p]), Scan(0, []))
    requires p !in s.peers && p !in s.excluded
    ensures Follows(s, ScanNext(t, Some(address)), Goto(s, t, Scan(1, [(p, address)])))
    ensures Follows(Goto(s, t, Scan(1, [(p, address)])), ScanNext(t, None), Goto(s, t, Visit([(p, address)])))
    ensures Follows(Goto(s, t, Visit([(p, address)])), VisitNext(t), Goto(s, t, WantMutation(p, Some(address), [])))
  {
    assert [p][..0] == [] && [] + [(p, address)] == [(p, address)] && [(p, address)][1..] == [];
  }

  lemma RecoveryWrites(s: State, t: Tid, p: NodeId, address: Address)
    requires t in s.threads && s.threads[t].kind.Recovery? && s.mutation.None? && p !in s.peers
    ensures var waiting := Goto(s, t, WantMutation(p, Some(address), []));
      var added := s.peers[p := address];
      var writing := Goto(s, t, Writing(p, None, added, [])).(peers := added, mutation := Some(t));
      && Follows(waiting, Lock(t), writing)
      && Follows(writing, WriteEnds(t, true), Goto(s, t, Visit([])).(peers := added, disk := added))
  {
  }

  lemma {:induction false} FreshTid(used: set<Tid>) returns (t: Tid)
    ensures forall u :: u in used ==> u < t
    decreases |used|
  {
    t := 0;
    if used != {} {
      var u :| u in used;
      assert forall v :: v in used ==> v == u || v in used - {u};
      var rest := FreshTid(used - {u});
      t := if u < rest then rest else u + 1;
    }
  }

  /** With the locks free and `p` neither stored nor excluded, a recovery pass adds it. */
  lemma RecoveryBringsBack(
    stored: Peers, states: seq<State>, steps: seq<Step>, longer0: seq<State>, more0: seq<Step>, p: NodeId, a: Address)
    returns (longer: seq<State>, more: seq<Step>)
    requires IsRun(stored, states, steps) && Continues(stored, states, steps, longer0, more0, p)
    requires var s := longer0[|more0|]; s.mutation.None? && s.writer.None? && p !in s.peers && p !in s.excluded
    ensures Continues(stored, states, steps, longer, more, p) && p in longer[|more|].disk
  {
    var s0 := longer0[|more0|];
    var t := FreshTid(s0.threads.Keys);
    assert t !in s0.threads.Keys;
    longer, more := GoOn(stored, states, steps, longer0, more0, Launch(t, Recovery([p])), p);
    longer, more := GoOn(stored, states, steps, longer, more, Grant(t), p);
    var s := longer[|more|];
    RecoveryScans(s, t, p, a);
    longer, more := GoOn(stored, states, steps, longer, more, ScanNext(t, Some(a)), p);
    longer, more := GoOn(stored, states, steps, longer, more, ScanNext(t, None), p);
    longer, more := GoOn(stored, states, steps, longer, more, VisitNext(t), p);
    RecoveryWrites(s, t, p, a);
    longer, more := GoOn(stored, states, steps, longer, more, Lock(t), p);
    longer, more := GoOn(stored, states, steps, longer, more, WriteEnds(t, true), p);
  }

  lemma FailedWriteKeepsUnprotected(s: State, t: Tid, p: NodeId)
    requires Inv(s) && Enabled(s, WriteEnds(t, false)) && p !in s.disk && !Protected(s, p)
    ensures var s' := Apply(s, WriteEnds(t, false));
      s'.mutation.None? && p !in s'.disk && !Protected(s', p) && s'.writer == s.writer && s'.excluded == s.excluded
  {
  }

  /** The write under way, if there is one, fails. */
  lemma WriteSettles(
    stored: Peers, states: seq<State>, steps: seq<Step>, longer0: seq<State>, more0: seq<Step>, p: NodeId)
    returns (longer: seq<State>, more: seq<Step>)
    requires IsRun(stored, states, steps) && Continues(stored, states, steps, longer0, more0, p)
    requires p !in longer0[|more0|].disk && !Protected(longer0[|more0|], p)
    ensures Continues(stored, states, steps, longer, more, p)
    ensures var s := longer[|more|]; s.mutation.None? && p !in s.disk && p !in s.peers && !Protected(s, p) && Inv(s)
  {
    longer, more := longer0, more0;
    var s := longer[|more|];
    RunKeepsInv(stored, longer, more, |more|);
    if s.mutation.Some? {
      var t := s.mutation.value;
      FailedWriteKeepsUnprotected(s, t, p);
      longer, more := GoOn(stored, states, steps, longer, more, WriteEnds(t, false), p);
      RunKeepsInv(stored, longer, more, |more|);
    }
  }

  lemma LockKeepsUnprotected(s: State, t: Tid, p: NodeId)
    requires Inv(s) && s.writer == Some(t) && Enabled(s, Lock(t)) && p !in s.disk && !Protected(s, p)
    ensures var s' := Apply(s, Lock(t));
      && p !in s'.disk && !Protected(s', p) && s'.writer == s.writer
      && (s'.threads[t].at.Release? || s'.mutation == Some(t))
  {
    assert ThreadFits(s.threads[t], s.excluded) && p !in s.peers;
  }

  /** Whoever holds the exclusion lock for writing comes to release it, with its own write failing if it makes one. */
  lemma WriterReachesRelease(
    stored: Peers, states: seq<State>, steps: seq<Step>, longer0: seq<State>, more0: seq<Step>, t: Tid, p: NodeId)
    returns (longer: seq<State>, more: seq<Step>)
    requires IsRun(stored, states, steps) && Continues(stored, states, steps, longer0, more0, p)
    requires var s := longer0[|more0|];
      Inv(s) && s.mutation.None? && s.writer == Some(t) && p !in s.disk && !Protected(s, p)
    ensures Continues(stored, states, steps, longer, more, p)
    ensures var s := longer[|more|];
      && s.mutation.None? && s.writer == Some(t) && p !in s.disk && p !in s.peers && !Protected(s, p)
      && t in s.threads && s.threads[t].at.Release?
  {
    longer, more := longer0, more0;
    var s := longer[|more|];
    assert InsideWriteLock(s.threads[t]) && ThreadFits(s.threads[t], s.excluded);
    if s.threads[t].at.WantMutation? {
      LockKeepsUnprotected(s, t, p);
      longer, more := GoOn(stored, states, steps, longer, more, Lock(t), p);
      RunKeepsInv(stored, longer, more, |more|);
      if longer[|more|].mutation == Some(t) {
        FailedWriteKeepsUnprotected(longer[|more|], t, p);
        longer, more := GoOn(stored, states, steps, longer, more, WriteEnds(t, false), p);
        RunKeepsInv(stored, longer, more, |more|);
      }
      assert InsideWriteLock(longer[|more|].threads[t]);
    }
  }

  lemma ReleaseUnprotected(s: State, t: Tid, p: NodeId)
    requires Inv(s) && s.mutation.None? && s.writer == Some(t) && Enabled(s, Finish(t))
    requires p !in s.peers && !Protected(s, p)
    ensures var s' := Apply(s, Finish(t)); s'.mutation.None? && s'.writer.None? && p !in s'.peers && p !in s'.excluded
  {
    assert ThreadFits(s.threads[t], s.excluded);
  }

  /** From any reachable state in which `p` is neither stored nor protected, a continuation stores it. */
  lemma UnprotectedPeerComesBack(stored: Peers, states: seq<State>, steps: seq<Step>, p: NodeId, a: Address)
    returns (longer: seq<State>, more: seq<Step>)
    requires IsRun(stored, states, steps) && p !in states[|steps|].disk && !Protected(states[|steps|], p)
    ensures Continues(stored, states, steps, longer, more, p) && p in longer[|more|].disk
  {
    longer, more := WriteSettles(stored, states, steps, states, steps, p);
    if longer[|more|].writer.Some? {
      var t := longer[|more|].writer.value;
      longer, more := WriterReachesRelease(stored, states, steps, longer, more, t, p);
      RunKeepsInv(stored, longer, more, |more|);
      ReleaseUnprotected(longer[|more|], t, p);
      longer, more := GoOn(stored, states, steps, longer, more, Finish(t), p);
    }
    longer, more := RecoveryBringsBack(stored, states, steps, longer, more, p, a);
  }

  /**
   In every reachable state: a peer that is not in the store stays out of it, however the
   run goes on, until an explicit add exactly if it is protected.
   */
  lemma StaysOutIffProtected(stored: Peers, states: seq<State>, steps: seq<Step>, p: NodeId)
    requires IsRun(stored, states, steps) && p !in states[|steps|].disk
    ensures StaysOut(stored, states, steps, p) <==> Protected(states[|steps|], p)
  {
    if Protected(states[|steps|], p) {
      forall longer: seq<State>, more: seq<Step> | Continues(stored, states, steps, longer, more, p)
        ensures p !in longer[|more|].disk
      {
        assert longer[|steps|] == states[|steps|];
        ProtectedPeerStaysOut(stored, longer, more, |steps|, |more|, p);
      }
    } else {
      var longer, more := UnprotectedPeerComesBack(stored, states, steps, p, 0);
    }
  }

  lemma CloseKeepsProtection(s: State, step: Step, s': State, p: NodeId)
    requires Inv(s) && Follows(s, step, s') && WritesClose(s, step, p)
    ensures p !in s'.disk && (Protected(s', p) <==> Protected(s, p))
  {
    assert ThreadFits(s.threads[step.t], s.excluded);
  }

  /**
   After the removal that closes the last channel was written, `p` stays out until an
   explicit add exactly if it was protected at that write.
   */
  lemma ClosedPeerStaysOutIff(stored: Peers, states: seq<State>, steps: seq<Step>, p: NodeId)
    requires IsRun(stored, states, steps) && steps != []
    requires WritesClose(states[|steps| - 1], steps[|steps| - 1], p)
    ensures StaysOut(stored, states, steps, p) <==> Protected(states[|steps| - 1], p)
  {
    RunKeepsInv(stored, states, steps, |steps| - 1);
    assert Follows(states[|steps| - 1], steps[|steps| - 1], states[|steps|]);
    CloseKeepsProtection(states[|steps| - 1], steps[|steps| - 1], states[|steps|], p);
    StaysOutIffProtected(stored, states, steps, p);
  }

  /** A connect to `p` has got past the exclusion lock and not returned yet. */
  ghost predicate ConnectUnderWay(s: State, p: NodeId) {
    exists u :: u in s.threads && s.threads[u].kind.Connect? && s.threads[u].kind.peer == p
                && !s.threads[u].at.WantExclusion? && !s.threads[u].at.Done?
  }

  lemma {:induction false} ExclusionStands(
    stored: Peers, states: seq<State>, steps: seq<Step>, g: nat, i: nat, p: NodeId)
    requires IsRun(stored, states, steps) && g <= i < |states| && p in states[g].excluded
    requires forall k :: g <= k < i ==> !ConnectUnderWay(states[k], p)
    ensures p in states[i].excluded
  {
    if g < i {
      ExclusionStands(stored, states, steps, g, i - 1, p);
      assert Follows(states[i - 1], steps[i - 1], states[i]);
    }
  }

  /** What a caller can see to: no connect to `p` is under way between the close's two critical sections. */
  lemma CloseWithoutConnectIsSafe(stored: Peers, states: seq<State>, steps: seq<Step>, g: nat, t: Tid, p: NodeId)
    requires IsRun(stored, states, steps) && g < |steps| - 1
    requires t in states[g].threads && states[g].threads[t].kind == CloseLast(p) && steps[g] == Grant(t)
    requires WritesClose(states[|steps| - 1], steps[|steps| - 1], p)
    requires forall k :: g < k < |steps| ==> !ConnectUnderWay(states[k], p)
    ensures StaysOut(stored, states, steps, p)
  {
    assert Follows(states[g], steps[g], states[g + 1]);
    ExclusionStands(stored, states, steps, g + 1, |steps| - 1, p);
    ClosedPeerStaysOutIff(stored, states, steps, p);
    assert !ConnectUnderWay(states[|steps| - 1], p);
  }

  /** The states of the race below: thread 0 closes the last channel with peer 1, thread 1 connects to it. */
  function Race(
    peers: Peers, disk: Peers, excluded: set<NodeId>, mutation: Option<Tid>, writer: Option<Tid>,
    close: At, connect: At)
    : (r: State)
  {
    State(peers, disk, excluded, mutation, writer, {},
          map[0 := Thread(CloseLast(1), close), 1 := Thread(Connect(1, 20), connect)])
  }

  const Before: Peers := map[1 := 10]
  const Added: Peers := map[1 := 20]
  const ClosePending := WantMutation(1, None, [])
  const ConnectPending := WantMutation(1, Some(20), [])
  const Overlapping := Race(Before, Before, {1}, None, Some(1), ClosePending, ConnectPending)
  const Lifted := Race(Added, Added, {}, None, None, ClosePending, Done(true))
  const Lost := Race(map[], map[], {}, None, None, Done(true), Done(true))

  /** The close excluded the peer, and the connect got the exclusion lock before the removal. */
  lemma RaceBegins() returns (states: seq<State>, steps: seq<Step>)
    ensures IsRun(Before, states, steps) && states[|states| - 1] == Overlapping
  {
    states, steps := [Init(Before)], [];
    var s1 := Init(Before).(threads := map[0 := Thread(CloseLast(1), WantExclusion)]);
    states, steps := Extend(Before, states, steps, Launch(0, CloseLast(1)), s1);
    var s2 := s1.(threads := map[0 := Thread(CloseLast(1), ClosePending)], excluded := {1});
    states, steps := Extend(Before, states, steps, Grant(0), s2);
    var s3 := Race(Before, Before, {1}, None, None, ClosePending, WantExclusion);
    states, steps := Extend(Before, states, steps, Launch(1, Connect(1, 20)), s3);
    states, steps := Extend(Before, states, steps, Grant(1), Overlapping);
  }

  lemma ConnectLifts(states0: seq<State>, steps0: seq<Step>) returns (states: seq<State>, steps: seq<Step>)
    requires IsRun(Before, states0, steps0) && states0[|states0| - 1] == Overlapping
    ensures IsRun(Before, states, steps) && states[|states| - 1] == Lifted
  {
    var writing := Race(Added, Before, {1}, Some(1), Some(1), ClosePending, Writing(1, Some(10), Added, []));
    assert Before[1 := 20] == Added && Lookup(Before, 1) == Some(10);
    assert Apply(Overlapping, Lock(1)).threads == writing.threads;
    states, steps := Extend(Before, states0, steps0, Lock(1), writing);
    var written := Race(Added, Added, {1}, None, Some(1), ClosePending, Release(true));
    states, steps := Extend(Before, states, steps, WriteEnds(1, true), written);
    states, steps := Extend(Before, states, steps, Finish(1), Lifted);
  }

  /**
   Closing the last channel can lose the exclusion: a connect that runs between its two
   critical sections adds the peer, lifts the exclusion, and then sees its peer removed.
   The close succeeded, yet nothing keeps recovery from bringing the peer back.
   */
  lemma CloseCanLoseExclusion() returns (states: seq<State>, steps: seq<Step>)
    ensures IsRun(Before, states, steps) && states[|states| - 1] == Lost
    ensures Lost.threads[0] == Thread(CloseLast(1), Done(true)) && 1 !in Lost.disk && !Protected(Lost, 1)
  {
    states, steps := RaceBegins();
    states, steps := ConnectLifts(states, steps);
    var writing := Race(map[], Added, {}, Some(0), None, Writing(1, Some(20), map[], []), Done(true));
    states, steps := Extend(Before, states, steps, Lock(0), writing);
    states, steps := Extend(Before, states, steps, WriteEnds(0, true), Lost);
  }

  /**
   Whenever the mutation lock is free, memory equals what was last persisted, and so does
   what a restart would read, in any iteration order, exactly if there are fewer than
   65536 peers.
   */
  lemma MemoryEqualsDiskWhenUnlocked(
    stored: Peers, states: seq<State>, steps: seq<Step>, i: nat,
    c: ElementCodec<(NodeId, Address)>, order: seq<(NodeId, Address)>)
    requires IsRun(stored, states, steps) && i < |states| && states[i].mutation.None?
    requires SelfDelimiting(c) && Enumerates(order, states[i].disk)
    ensures states[i].peers == states[i].disk
    ensures Reload(c, Encode(c, order)) == Some(states[i].peers) <==> |states[i].peers| < COUNT_LIMIT
  {
    RunKeepsInv(stored, states, steps, i);
    RestartReadsBackIff(c, order, states[i].disk);
  }

  /** While a thread holds the mutation lock, no step but the end of its write changes the store. */
  lemma LockedStoreWaits(s: State, step: Step, s': State, t: Tid)
    requires Inv(s) && Follows(s, step, s') && s.mutation == Some(t) && s'.mutation == Some(t)
    ensures s'.disk == s.disk && s'.peers == s.peers
  {
  }

  lemma {:induction false} LockedStoreKeeps(stored: Peers, states: seq<State>, steps: seq<Step>, i: nat, k: nat, t: Tid)
    requires IsRun(stored, states, steps) && i <= k < |states|
    requires forall j :: i <= j <= k ==> states[j].mutation == Some(t)
    ensures states[k].disk == states[i].disk && states[k].peers == states[i].peers
  {
    if i < k {
      LockedStoreKeeps(stored, states, steps, i, k - 1, t);
      RunKeepsInv(stored, states, steps, k - 1);
      LockedStoreWaits(states[k - 1], steps[k - 1], states[k], t);
    }
  }

  /** A failed operation leaves memory and disk as they were when it took the mutation lock. */
  lemma FailedWriteChangesNothing(stored: Peers, states: seq<State>, steps: seq<Step>, i: nat, k: nat, t: Tid)
    requires IsRun(stored, states, steps) && i < k < |steps|
    requires steps[i] == Lock(t) && steps[k] == WriteEnds(t, false)
    requires forall j :: i < j <= k ==> states[j].mutation == Some(t)
    ensures states[k + 1].peers == states[i].peers && states[k + 1].disk == states[i].disk
  {
    assert Follows(states[i], steps[i], states[i + 1]) && Follows(states[k], steps[k], states[k + 1]);
    RunKeepsInv(stored, states, steps, i);
    RunKeepsInv(stored, states, steps, k);
    LockedStoreKeeps(stored, states, steps, i + 1, k, t);
  }

  predicate IsDone(s: State, t: Tid)
    requires t in s.threads
  {
    s.threads[t].at.Done?
  }

  /** A step of thread `t` itself, other than waiting for the exclusion lock. */
  predicate CanMove(s: State, t: Tid)
    requires t in s.threads
  {
    || Enabled(s, ScanNext(t, None)) || Enabled(s, VisitNext(t)) || Enabled(s, Lock(t))
    || Enabled(s, WriteEnds(t, true)) || Enabled(s, Finish(t))
  }

  /**
   No reachable state is deadlocked. As long as some operation is unfinished, either some
   thread can move on without the exclusion lock, or that lock is free and every thread
   waiting for it can be granted it, in whatever order its queue prescribes.
   */
  lemma NeverDeadlocked(stored: Peers, states: seq<State>, steps: seq<Step>, i: nat)
    requires IsRun(stored, states, steps) && i < |states|
    requires exists t :: t in states[i].threads && !IsDone(states[i], t)
    ensures var s := states[i];
      || (exists t :: t in s.threads && CanMove(s, t))
      || (&& (exists t :: t in s.threads && Enabled(s, Grant(t)))
          && forall t :: t in s.threads && s.threads[t].at.WantExclusion? ==> Enabled(s, Grant(t)))
  {
    RunKeepsInv(stored, states, steps, i);
    var s := states[i];
    if s.mutation.Some? {
      assert CanMove(s, s.mutation.value);
    } else if s.writer.Some? {
      assert CanMove(s, s.writer.value);
    } else if s.readers != {} {
      var t :| t in s.readers;
      assert CanMove(s, t);
    } else {
      var t :| t in s.threads && !IsDone(s, t);
      assert ThreadFits(s.threads[t], s.excluded);
      assert s.threads[t].at.WantExclusion? || CanMove(s, t);
    }
  }
}
