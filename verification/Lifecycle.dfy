/**
 The node lifecycle: `start`, `stop`, the task groups and processor handle that
 `RuntimeControl` owns, and the failure callback that a dying event processor runs.

 Every lock section and every wait is one atomic step, and the steps of the
 lifecycle call, of the processors, of their callbacks and of the spawned tasks
 interleave freely. A wait may always time out; it completes only when what it
 waits for has ended.
 */
module Lifecycle {
  datatype Option<+T> = None | Some(value: T)

  /** A `TrackedTasks`: the identity of its tracker, and whether admission is closed. */
  datatype Group = Group(tracker: nat, closed: bool)

  datatype Which = Background | Cancellable

  /** Where a processor task is. All phases after `Checking` are pending callback writes. */
  datatype Phase =
    | Processing
    | Checking
    | MarkFailed
    | ClearRunning
    | CloseBackground
    | CloseCancellable
    | CancelBackground
    | CancelCancellable
    | Finished

  datatype Processor = Processor(generation: nat, phase: Phase)

  /** The position of a `start` call, with the local variables it still needs. */
  datatype StartAt =
    | ReadRunning
    | ReadFailed
    | TakeLeftovers
    | Drain(trackers: seq<nat>, processor: Option<nat>, waited: nat)
    | PutBack(trackers: seq<nat>, processor: Option<nat>)
    | ResetBackground
    | ResetCancellable
    | Setup
    | TakeGeneration
    | SpawnProcessor(generation: nat)
    | SetRunning
    | Recheck
    | Undo

  /** The position of a `stop` call, with the local variables it still needs. */
  datatype StopAt =
    | ReadRunning
    | ReadFailed
    | Clear
    | BumpGeneration
    | CloseBackground
    | CloseCancellable
    | AbortCancellable
    | AwaitCancellable(tracker: nat)
    | DetachCancellable(tracker: nat)
    | WaitBackground
    | AwaitBackground(tracker: nat, cancelled: bool)
    | DetachBackground(tracker: nat)
    | TakeProcessor
    | AwaitProcessor(awaited: nat, aborted: bool)
    | DetachProcessor(awaited: nat)
    | SwapFailed

  /** The call holding the lifecycle lock, if any. */
  datatype Call = Idle | Start(start: StartAt) | Stop(stop: StopAt)

  datatype State = State(
    running: bool,
    failed: bool,
    generation: nat,
    background: Group,
    cancellable: Group,
    slot: Option<nat>,
    leftoverTrackers: seq<nat>,
    leftoverProcessor: Option<nat>,
    processors: seq<Processor>,
    live: multiset<nat>,
    nextTracker: nat,
    call: Call)

  datatype Step =
    | CallStart
    | CallStop
    | Advance
    | TimeOut
    | SetupFails
    | Spawn(group: Which)
    | TaskEnds(tracker: nat)
    | ProcessorEnds(processor: nat)
    | ProcessorErrs(processor: nat)
    | CallbackSteps(processor: nat)

  const Init := State(
    false, false, 0, Group(0, false), Group(1, false), None, [], None, [], multiset{}, 2, Idle)

  predicate Ended(s: State, p: Option<nat>) {
    p.Some? ==> p.value < |s.processors| && s.processors[p.value].phase.Finished?
  }

  /** Whether what the holder of the lifecycle lock waits for has happened. */
  predicate WaitOver(s: State) {
    match s.call
    case Start(Drain(trackers, processor, waited)) =>
      if waited < |trackers| then s.live[trackers[waited]] == 0 else Ended(s, processor)
    case Stop(AwaitCancellable(t)) => s.live[t] == 0
    case Stop(AwaitBackground(t, _)) => s.live[t] == 0
    case Stop(AwaitProcessor(p, _)) => Ended(s, Some(p))
    case _ => true
  }

  predicate AtTimedWait(c: Call) {
    match c
    case Idle => false
    case Start(at) => at.Drain?
    case Stop(at) => at.AwaitCancellable? || at.AwaitBackground? || at.AwaitProcessor?
  }

  predicate Enabled(s: State, step: Step) {
    match step
    case CallStart => s.call.Idle?
    case CallStop => s.call.Idle?
    case Advance => !s.call.Idle? && WaitOver(s)
    case TimeOut => AtTimedWait(s.call)
    case SetupFails => s.call == Start(Setup)
    case Spawn(_) => true
    case TaskEnds(t) => s.live[t] > 0
    case ProcessorEnds(p) => p < |s.processors| && s.processors[p].phase.Processing?
    case ProcessorErrs(p) => p < |s.processors| && s.processors[p].phase.Processing?
    case CallbackSteps(p) =>
      p < |s.processors| && !s.processors[p].phase.Processing? && !s.processors[p].phase.Finished?
  }

  /** `reset_closed_task_generation`. */
  function ResetIfClosed(g: Group, next: nat): (r: Group) {
    if g.closed then Group(next, false) else g
  }

  function CloseGroup(g: Group): (r: Group) {
    g.(closed := true)
  }

  /** The next action of `Node::start`, and of `allow_task_spawns` inside it. */
  function AdvanceStart(s: State, at: StartAt): (r: State) {
    match at
    case ReadRunning => s.(call := if s.running then Idle else Start(StartAt.ReadFailed))
    case ReadFailed => s.(call := if s.failed then Idle else Start(TakeLeftovers))
    case TakeLeftovers =>
      s.(call := Start(Drain(s.leftoverTrackers, s.leftoverProcessor, 0)),
         leftoverTrackers := [], leftoverProcessor := None)
    case Drain(trackers, processor, waited) =>
      s.(call := if waited < |trackers| then Start(Drain(trackers, processor, waited + 1))
                 else Start(ResetBackground))
    case PutBack(trackers, processor) =>
      s.(call := Idle,
         leftoverTrackers := s.leftoverTrackers + trackers,
         leftoverProcessor := if Ended(s, processor) then s.leftoverProcessor else processor)
    case ResetBackground =>
      s.(call := Start(ResetCancellable),
         background := ResetIfClosed(s.background, s.nextTracker), nextTracker := s.nextTracker + 1)
    case ResetCancellable =>
      s.(call := Start(Setup),
         cancellable := ResetIfClosed(s.cancellable, s.nextTracker), nextTracker := s.nextTracker + 1)
    case Setup => s.(call := Start(TakeGeneration))
    case TakeGeneration =>
      s.(call := Start(SpawnProcessor(s.generation + 1)), generation := s.generation + 1)
    case SpawnProcessor(g) =>
      s.(call := Start(SetRunning), slot := Some(|s.processors|),
         processors := s.processors + [Processor(g, Processing)])
    case SetRunning => s.(call := Start(Recheck), running := true)
    case Recheck => s.(call := if s.failed then Start(Undo) else Idle)
    case Undo => s.(call := Idle, running := false)
  }

  /** `detach_task_tracker`: an empty tracker is not kept. */
  function Detach(s: State, t: nat): (r: State) {
    if s.live[t] == 0 then s else s.(leftoverTrackers := s.leftoverTrackers + [t])
  }

  /** The next action of `Node::stop`, and of the waits inside it. */
  function AdvanceStop(s: State, at: StopAt): (r: State) {
    match at
    case ReadRunning => s.(call := Stop(if s.running then Clear else StopAt.ReadFailed))
    case ReadFailed => s.(call := if s.failed then Stop(Clear) else Idle)
    case Clear => s.(call := Stop(BumpGeneration), running := false)
    case BumpGeneration =>
      s.(call := Stop(StopAt.CloseBackground), generation := s.generation + 1)
    case CloseBackground =>
      s.(call := Stop(StopAt.CloseCancellable), background := CloseGroup(s.background))
    case CloseCancellable =>
      s.(call := Stop(AbortCancellable), cancellable := CloseGroup(s.cancellable))
    case AbortCancellable =>
      s.(call := Stop(AwaitCancellable(s.cancellable.tracker)), cancellable := CloseGroup(s.cancellable))
    case AwaitCancellable(_) => s.(call := Stop(WaitBackground))
    case DetachCancellable(t) => Detach(s, t).(call := Stop(WaitBackground))
    case WaitBackground =>
      s.(call := Stop(AwaitBackground(s.background.tracker, false)), background := CloseGroup(s.background))
    case AwaitBackground(_, _) => s.(call := Stop(TakeProcessor))
    case DetachBackground(t) => Detach(s, t).(call := Stop(TakeProcessor))
    case TakeProcessor =>
      if s.slot.Some? then s.(call := Stop(AwaitProcessor(s.slot.value, false)), slot := None)
      else s.(call := Stop(SwapFailed))
    case AwaitProcessor(_, _) => s.(call := Stop(SwapFailed))
    case DetachProcessor(p) => s.(call := Stop(SwapFailed), leftoverProcessor := Some(p))
    case SwapFailed => s.(call := Idle, failed := false)
  }

  function AfterTimeOut(s: State): (r: State) {
    match s.call
    case Start(Drain(trackers, processor, _)) => s.(call := Start(PutBack(trackers, processor)))
    case Stop(AwaitCancellable(t)) => s.(call := Stop(DetachCancellable(t)))
    case Stop(AwaitBackground(t, cancelled)) =>
      s.(call := Stop(if cancelled then DetachBackground(t) else AwaitBackground(t, true)))
    case Stop(AwaitProcessor(p, aborted)) =>
      s.(call := Stop(if aborted then DetachProcessor(p) else AwaitProcessor(p, true)))
    case _ => s
  }

  function WithPhase(s: State, p: nat, phase: Phase): (r: State)
    requires p < |s.processors|
  {
    s.(processors := s.processors[p := s.processors[p].(phase := phase)])
  }

  /** One lock section of `handle_background_processor_failure`, run by processor `p`. */
  function CallbackStep(s: State, p: nat): (r: State)
    requires p < |s.processors|
  {
    match s.processors[p].phase
    case Checking =>
      WithPhase(s, p, if s.processors[p].generation == s.generation then MarkFailed else Finished)
    case MarkFailed => WithPhase(s, p, ClearRunning).(failed := true)
    case ClearRunning => WithPhase(s, p, Phase.CloseBackground).(running := false)
    case CloseBackground =>
      WithPhase(s, p, Phase.CloseCancellable).(background := CloseGroup(s.background))
    case CloseCancellable =>
      WithPhase(s, p, CancelBackground).(cancellable := CloseGroup(s.cancellable))
    case CancelBackground =>
      WithPhase(s, p, CancelCancellable).(background := CloseGroup(s.background))
    case CancelCancellable =>
      WithPhase(s, p, Finished).(cancellable := CloseGroup(s.cancellable))
    case Processing => s
    case Finished => s
  }

  function GroupOf(s: State, which: Which): (r: Group) {
    if which.Background? then s.background else s.cancellable
  }

  function Apply(s: State, step: Step): (r: State)
    requires Enabled(s, step)
  {
    match step
    case CallStart => s.(call := Start(StartAt.ReadRunning))
    case CallStop => s.(call := Stop(StopAt.ReadRunning))
    case Advance =>
      if s.call.Start? then AdvanceStart(s, s.call.start) else AdvanceStop(s, s.call.stop)
    case TimeOut => AfterTimeOut(s)
    case SetupFails => s.(call := Idle)
    case Spawn(which) =>
      var g := GroupOf(s, which);
      if g.closed then s else s.(live := s.live + multiset{g.tracker})
    case TaskEnds(t) => s.(live := s.live - multiset{t})
    case ProcessorEnds(p) => WithPhase(s, p, Finished)
    case ProcessorErrs(p) => WithPhase(s, p, Checking)
    case CallbackSteps(p) => CallbackStep(s, p)
  }

  ghost predicate Follows(s: State, step: Step, s': State) {
    Enabled(s, step) && s' == Apply(s, step)
  }

  /** A run from a freshly built node. */
  ghost predicate IsRun(states: seq<State>, steps: seq<Step>) {
    && |states| == |steps| + 1
    && states[0] == Init
    && forall i :: 0 <= i < |steps| ==> Follows(states[i], steps[i], states[i + 1])
  }

  // ---- Invariants ----

  /** The trackers held in the local variables of the lifecycle call. */
  function HeldTrackers(c: Call): (r: seq<nat>) {
    match c
    case Start(Drain(trackers, _, _)) => trackers
    case Start(PutBack(trackers, _)) => trackers
    case Stop(AwaitCancellable(t)) => [t]
    case Stop(DetachCancellable(t)) => [t]
    case Stop(AwaitBackground(t, _)) => [t]
    case Stop(DetachBackground(t)) => [t]
    case _ => []
  }

  /** The processor handle held in a local variable of the lifecycle call. */
  function HeldProcessor(c: Call): (r: Option<nat>) {
    match c
    case Start(Drain(_, p, _)) => p
    case Start(PutBack(_, p)) => p
    case Stop(AwaitProcessor(p, _)) => Some(p)
    case Stop(DetachProcessor(p)) => Some(p)
    case _ => None
  }

  predicate Detached(s: State, t: nat) {
    t in s.leftoverTrackers || t in HeldTrackers(s.call)
  }

  predicate IsOpen(s: State, t: nat) {
    (t == s.background.tracker && !s.background.closed) ||
    (t == s.cancellable.tracker && !s.cancellable.closed)
  }

  predicate IsCurrent(s: State, t: nat) {
    t == s.background.tracker || t == s.cancellable.tracker
  }

  /** Tracker identities are distinct, and a detached tracker never admits tasks again. */
  ghost predicate TrackersWellFormed(s: State) {
    && s.background.tracker < s.nextTracker
    && s.cancellable.tracker < s.nextTracker
    && s.background.tracker != s.cancellable.tracker
    && (forall t :: t in s.leftoverTrackers ==> t < s.nextTracker && !IsOpen(s, t))
    && (forall t :: t in HeldTrackers(s.call) ==> t < s.nextTracker && !IsOpen(s, t))
  }

  /** Every live task belongs to a current group or to a tracker somebody still holds. */
  ghost predicate NoTaskLost(s: State) {
    forall t: nat :: s.live[t] > 0 ==> IsCurrent(s, t) || Detached(s, t)
  }

  /** A live processor is the newest one, and exactly one place holds its handle. */
  ghost predicate NoProcessorLost(s: State) {
    && (forall p :: 0 <= p < |s.processors| && !s.processors[p].phase.Finished? ==>
          p == |s.processors| - 1 &&
          (s.slot == Some(p) || s.leftoverProcessor == Some(p) || HeldProcessor(s.call) == Some(p)))
    && (s.slot.Some? ==> s.leftoverProcessor.None? && HeldProcessor(s.call).None?
                         && s.slot.value == |s.processors| - 1)
    && (s.leftoverProcessor.Some? ==> HeldProcessor(s.call).None?
                                      && s.leftoverProcessor.value < |s.processors|)
    && (HeldProcessor(s.call).Some? ==> HeldProcessor(s.call).value < |s.processors|)
  }

  /** A closed group is empty or its tracker is held for a later drain. */
  predicate Settled(s: State, g: Group) {
    g.closed ==> s.live[g.tracker] == 0 || Detached(s, g.tracker)
  }

  predicate BothSettled(s: State) {
    Settled(s, s.background) && Settled(s, s.cancellable)
  }

  /** `start` between passing its flag checks and spawning the processor. */
  predicate PassedChecks(at: StartAt) {
    at.TakeLeftovers? || at.Drain? || at.PutBack? || Drained(at)
  }

  /** `start` after the drain returned true and before it spawns the processor. */
  predicate Drained(at: StartAt) {
    at.ResetBackground? || at.ResetCancellable? || at.Setup? || at.TakeGeneration? || at.SpawnProcessor?
  }

  /** `stop` from the point where it waits for the cancellable group on. */
  predicate CancellableStopped(at: StopAt) {
    at.AwaitCancellable? || at.DetachCancellable? || at.WaitBackground? || BackgroundStopped(at)
  }

  predicate BackgroundStopped(at: StopAt) {
    at.AwaitBackground? || at.DetachBackground? || at.TakeProcessor? || ProcessorTaken(at)
  }

  predicate ProcessorTaken(at: StopAt) {
    at.AwaitProcessor? || at.DetachProcessor? || at.SwapFailed?
  }

  /** When a closed group may hold tasks nobody waits for: only while `start` is barred. */
  ghost predicate GroupsAccounted(s: State) {
    match s.call
    case Idle => s.failed || BothSettled(s)
    case Start(at) => (s.failed && !PassedChecks(at)) || BothSettled(s)
    case Stop(at) =>
      && (CancellableStopped(at) ==> s.cancellable.closed && Settled(s, s.cancellable))
      && (BackgroundStopped(at) ==> s.background.closed && Settled(s, s.background))
      && (at.ReadRunning? || at.ReadFailed? ==> s.failed || BothSettled(s))
  }

  /** The callback has marked the failure and still has writes to make. */
  predicate Writing(p: Phase) {
    !p.Processing? && !p.Checking? && !p.MarkFailed? && !p.Finished?
  }

  ghost predicate SomeClearing(s: State) {
    exists p :: 0 <= p < |s.processors| && s.processors[p].phase.ClearRunning?
  }

  /** What the flags say about the processor slot, depending on the call. */
  ghost predicate FlagsFit(s: State) {
    match s.call
    case Idle =>
      && (s.slot.Some? ==> s.running || s.failed)
      && (s.failed && s.running ==> SomeClearing(s))
    case Start(at) =>
      && (at.ReadRunning? || at.Recheck? ==> s.slot.Some? ==> s.running || s.failed)
      && (at.ReadFailed? ==> !s.running && (s.slot.Some? ==> s.failed))
      && (at.Undo? ==> s.failed)
      && (PassedChecks(at) ==> !s.running && s.slot.None?)
      && (at.ReadRunning? && s.failed && s.running ==> SomeClearing(s))
      && (at.SetRunning? || at.Recheck? || at.Undo? ==> s.slot.Some?)
    case Stop(at) =>
      && (at.ReadRunning? && s.slot.Some? ==> s.running || s.failed)
      && (at.ReadFailed? ==> !s.running && (s.slot.Some? ==> s.failed))
      && (ProcessorTaken(at) ==> s.slot.None?)
      && (!at.ReadRunning? && !at.Clear? ==> !s.running)
  }

  /** A live processor out of the slot is one `stop` gave up on, after closing both groups. */
  ghost predicate CallbackFits(s: State) {
    forall p :: 0 <= p < |s.processors| && !s.processors[p].phase.Finished? ==>
      && (s.slot.None? ==> s.background.closed && s.cancellable.closed)
      && (Writing(s.processors[p].phase) ==> s.failed || s.slot.None?)
  }

  /** What the drain has established so far, and keeps. */
  ghost predicate DrainProgress(s: State) {
    s.call.Start? ==>
      var at := s.call.start;
      && (at.Drain? || at.PutBack? || Drained(at) ==> s.leftoverTrackers == [] && s.leftoverProcessor.None?)
      && (at.Drain? ==> at.waited <= |at.trackers|
                        && forall j :: 0 <= j < at.waited ==> s.live[at.trackers[j]] == 0)
      && (Drained(at) ==> forall p :: 0 <= p < |s.processors| ==> s.processors[p].phase.Finished?)
      && (Drained(at) && !at.ResetBackground? ==> !s.background.closed)
      && (Drained(at) && !at.ResetBackground? && !at.ResetCancellable? ==> !s.cancellable.closed)
  }

  ghost predicate WorkHeld(s: State) {
    TrackersWellFormed(s) && NoTaskLost(s) && NoProcessorLost(s)
  }

  ghost predicate PhasesFit(s: State) {
    GroupsAccounted(s) && FlagsFit(s) && CallbackFits(s) && DrainProgress(s)
  }

  ghost predicate Inv(s: State) {
    WorkHeld(s) && PhasesFit(s)
  }

  lemma StartFlagReadsKeepInv(s: State)
    requires Inv(s) && Enabled(s, Advance) && s.call.Start?
    requires var at := s.call.start; at.ReadRunning? || at.ReadFailed?
    ensures Inv(Apply(s, Advance))
  {
  }

  lemma TakeLeftoversKeepsInv(s: State)
    requires Inv(s) && Enabled(s, Advance) && s.call.Start?
    requires var at := s.call.start; at.TakeLeftovers?
    ensures Inv(Apply(s, Advance))
  {
  }

  lemma DrainKeepsWorkHeld(s: State)
    requires Inv(s) && Enabled(s, Advance) && s.call.Start?
    requires var at := s.call.start; at.Drain?
    ensures WorkHeld(Apply(s, Advance))
  {
    assert HeldTrackers(s.call) == s.call.start.trackers;
  }

  lemma DrainKeepsPhases(s: State)
    requires Inv(s) && Enabled(s, Advance) && s.call.Start?
    requires var at := s.call.start; at.Drain?
    ensures PhasesFit(Apply(s, Advance))
  {
    assert HeldTrackers(s.call) == s.call.start.trackers;
  }

  lemma DrainKeepsInv(s: State)
    requires Inv(s) && Enabled(s, Advance) && s.call.Start?
    requires var at := s.call.start; at.Drain?
    ensures Inv(Apply(s, Advance))
  {
    DrainKeepsWorkHeld(s);
    DrainKeepsPhases(s);
  }

  lemma PutBackKeepsInv(s: State)
    requires Inv(s) && Enabled(s, Advance) && s.call.Start?
    requires var at := s.call.start; at.PutBack?
    ensures Inv(Apply(s, Advance))
  {
    assert HeldTrackers(s.call) == s.call.start.trackers;
  }

  lemma ResetKeepsInv(s: State)
    requires Inv(s) && Enabled(s, Advance) && s.call.Start?
    requires var at := s.call.start; at.ResetBackground? || at.ResetCancellable?
    ensures Inv(Apply(s, Advance))
  {
  }

  lemma SetupKeepsInv(s: State)
    requires Inv(s) && Enabled(s, Advance) && s.call.Start?
    requires var at := s.call.start; at.Setup? || at.TakeGeneration?
    ensures Inv(Apply(s, Advance))
  {
  }

  lemma SpawnProcessorKeepsInv(s: State)
    requires Inv(s) && Enabled(s, Advance) && s.call.Start?
    requires var at := s.call.start; at.SpawnProcessor?
    ensures Inv(Apply(s, Advance))
  {
  }

  lemma StartFinishKeepsInv(s: State)
    requires Inv(s) && Enabled(s, Advance) && s.call.Start?
    requires var at := s.call.start; at.SetRunning? || at.Recheck? || at.Undo?
    ensures Inv(Apply(s, Advance))
  {
  }

  lemma StopFlagReadsKeepInv(s: State)
    requires Inv(s) && Enabled(s, Advance) && s.call.Stop?
    requires var at := s.call.stop; at.ReadRunning? || at.ReadFailed?
    ensures Inv(Apply(s, Advance))
  {
  }

  lemma StopClearKeepsInv(s: State)
    requires Inv(s) && Enabled(s, Advance) && s.call.Stop?
    requires var at := s.call.stop; at.Clear? || at.BumpGeneration?
    ensures Inv(Apply(s, Advance))
  {
  }

  lemma StopCloseKeepsInv(s: State)
    requires Inv(s) && Enabled(s, Advance) && s.call.Stop?
    requires var at := s.call.stop; at.CloseBackground? || at.CloseCancellable?
    ensures Inv(Apply(s, Advance))
  {
  }

  lemma StopAbortCancellableKeepsInv(s: State)
    requires Inv(s) && Enabled(s, Advance) && s.call.Stop?
    requires var at := s.call.stop; at.AbortCancellable?
    ensures Inv(Apply(s, Advance))
  {
  }

  lemma StopAwaitCancellableKeepsInv(s: State)
    requires Inv(s) && Enabled(s, Advance) && s.call.Stop?
    requires var at := s.call.stop; at.AwaitCancellable?
    ensures Inv(Apply(s, Advance))
  {
  }

  lemma StopDetachCancellableKeepsWorkHeld(s: State)
    requires Inv(s) && Enabled(s, Advance) && s.call.Stop?
    requires var at := s.call.stop; at.DetachCancellable?
    ensures WorkHeld(Apply(s, Advance))
  {
    var t, s' := s.call.stop.tracker, Apply(s, Advance);
    assert HeldTrackers(s.call) == [t] && t in HeldTrackers(s.call) && HeldTrackers(s'.call) == [];
    assert forall u :: u in s'.leftoverTrackers <==> u in s.leftoverTrackers || (u == t && s.live[t] > 0);
  }

  lemma StopDetachCancellableKeepsPhases(s: State)
    requires Inv(s) && Enabled(s, Advance) && s.call.Stop?
    requires var at := s.call.stop; at.DetachCancellable?
    ensures PhasesFit(Apply(s, Advance))
  {
  }

  lemma StopDetachCancellableKeepsInv(s: State)
    requires Inv(s) && Enabled(s, Advance) && s.call.Stop?
    requires var at := s.call.stop; at.DetachCancellable?
    ensures Inv(Apply(s, Advance))
  {
    StopDetachCancellableKeepsWorkHeld(s);
    StopDetachCancellableKeepsPhases(s);
  }

  lemma StopWaitBackgroundKeepsInv(s: State)
    requires Inv(s) && Enabled(s, Advance) && s.call.Stop?
    requires var at := s.call.stop; at.WaitBackground?
    ensures Inv(Apply(s, Advance))
  {
  }

  lemma StopAwaitBackgroundKeepsInv(s: State)
    requires Inv(s) && Enabled(s, Advance) && s.call.Stop?
    requires var at := s.call.stop; at.AwaitBackground?
    ensures Inv(Apply(s, Advance))
  {
  }

  lemma StopDetachBackgroundKeepsWorkHeld(s: State)
    requires Inv(s) && Enabled(s, Advance) && s.call.Stop?
    requires var at := s.call.stop; at.DetachBackground?
    ensures WorkHeld(Apply(s, Advance))
  {
    var t, s' := s.call.stop.tracker, Apply(s, Advance);
    assert HeldTrackers(s.call) == [t] && t in HeldTrackers(s.call) && HeldTrackers(s'.call) == [];
    assert forall u :: u in s'.leftoverTrackers <==> u in s.leftoverTrackers || (u == t && s.live[t] > 0);
  }

  lemma StopDetachBackgroundKeepsPhases(s: State)
    requires Inv(s) && Enabled(s, Advance) && s.call.Stop?
    requires var at := s.call.stop; at.DetachBackground?
    ensures PhasesFit(Apply(s, Advance))
  {
  }

  lemma StopDetachBackgroundKeepsInv(s: State)
    requires Inv(s) && Enabled(s, Advance) && s.call.Stop?
    requires var at := s.call.stop; at.DetachBackground?
    ensures Inv(Apply(s, Advance))
  {
    StopDetachBackgroundKeepsWorkHeld(s);
    StopDetachBackgroundKeepsPhases(s);
  }

  lemma StopTakeProcessorKeepsWorkHeld(s: State)
    requires Inv(s) && Enabled(s, Advance) && s.call.Stop?
    requires var at := s.call.stop; at.TakeProcessor?
    ensures WorkHeld(Apply(s, Advance))
  {
  }

  lemma StopTakeProcessorKeepsPhases(s: State)
    requires Inv(s) && Enabled(s, Advance) && s.call.Stop?
    requires var at := s.call.stop; at.TakeProcessor?
    ensures PhasesFit(Apply(s, Advance))
  {
  }

  lemma StopTakeProcessorKeepsInv(s: State)
    requires Inv(s) && Enabled(s, Advance) && s.call.Stop?
    requires var at := s.call.stop; at.TakeProcessor?
    ensures Inv(Apply(s, Advance))
  {
    StopTakeProcessorKeepsWorkHeld(s);
    StopTakeProcessorKeepsPhases(s);
  }

  lemma StopLeaveProcessorKeepsInv(s: State)
    requires Inv(s) && Enabled(s, Advance) && s.call.Stop?
    requires var at := s.call.stop; at.AwaitProcessor? || at.DetachProcessor?
    ensures Inv(Apply(s, Advance))
  {
  }

  lemma StopSwapKeepsInv(s: State)
    requires Inv(s) && Enabled(s, Advance) && s.call.Stop?
    requires var at := s.call.stop; at.SwapFailed?
    ensures Inv(Apply(s, Advance))
  {
  }

  lemma BackgroundSpawnKeepsInv(s: State)
    requires Inv(s)
    ensures Inv(Apply(s, Spawn(Background)))
  {
    if s.call.Start? && s.call.start.Drain? {
      assert forall j :: 0 <= j < s.call.start.waited ==> s.call.start.trackers[j] in HeldTrackers(s.call);
    }
  }

  lemma CancellableSpawnKeepsInv(s: State)
    requires Inv(s)
    ensures Inv(Apply(s, Spawn(Cancellable)))
  {
    if s.call.Start? && s.call.start.Drain? {
      assert forall j :: 0 <= j < s.call.start.waited ==> s.call.start.trackers[j] in HeldTrackers(s.call);
    }
  }

  lemma TaskEndKeepsWorkHeld(s: State, step: Step)
    requires Inv(s) && Enabled(s, step)
    requires step.TaskEnds?
    ensures WorkHeld(Apply(s, step))
  {
  }

  lemma TaskEndKeepsPhases(s: State, step: Step)
    requires Inv(s) && Enabled(s, step)
    requires step.TaskEnds?
    ensures PhasesFit(Apply(s, step))
  {
    if s.call.Start? && s.call.start.Drain? {
      assert forall j :: 0 <= j < s.call.start.waited ==> s.call.start.trackers[j] in HeldTrackers(s.call);
    }
  }

  lemma TaskEndKeepsInv(s: State, step: Step)
    requires Inv(s) && Enabled(s, step)
    requires step.TaskEnds?
    ensures Inv(Apply(s, step))
  {
    TaskEndKeepsWorkHeld(s, step);
    TaskEndKeepsPhases(s, step);
  }

  lemma CallKeepsInv(s: State, step: Step)
    requires Inv(s) && Enabled(s, step)
    requires step.CallStart? || step.CallStop? || step.SetupFails?
    ensures Inv(Apply(s, step))
  {
  }

  lemma DrainTimeOutKeepsWorkHeld(s: State)
    requires Inv(s) && Enabled(s, TimeOut)
    requires s.call.Start?
    ensures WorkHeld(Apply(s, TimeOut))
  {
    assert HeldTrackers(AfterTimeOut(s).call) == HeldTrackers(s.call);
  }

  lemma DrainTimeOutKeepsPhases(s: State)
    requires Inv(s) && Enabled(s, TimeOut)
    requires s.call.Start?
    ensures PhasesFit(Apply(s, TimeOut))
  {
    assert HeldTrackers(AfterTimeOut(s).call) == HeldTrackers(s.call);
  }

  lemma DrainTimeOutKeepsInv(s: State)
    requires Inv(s) && Enabled(s, TimeOut)
    requires s.call.Start?
    ensures Inv(Apply(s, TimeOut))
  {
    DrainTimeOutKeepsWorkHeld(s);
    DrainTimeOutKeepsPhases(s);
  }

  lemma CancellableTimeOutKeepsWorkHeld(s: State)
    requires Inv(s) && Enabled(s, TimeOut)
    requires s.call.Stop? && s.call.stop.AwaitCancellable?
    ensures WorkHeld(Apply(s, TimeOut))
  {
    assert HeldTrackers(AfterTimeOut(s).call) == HeldTrackers(s.call);
  }

  lemma CancellableTimeOutKeepsPhases(s: State)
    requires Inv(s) && Enabled(s, TimeOut)
    requires s.call.Stop? && s.call.stop.AwaitCancellable?
    ensures PhasesFit(Apply(s, TimeOut))
  {
    assert HeldTrackers(AfterTimeOut(s).call) == HeldTrackers(s.call);
  }

  lemma CancellableTimeOutKeepsInv(s: State)
    requires Inv(s) && Enabled(s, TimeOut)
    requires s.call.Stop? && s.call.stop.AwaitCancellable?
    ensures Inv(Apply(s, TimeOut))
  {
    CancellableTimeOutKeepsWorkHeld(s);
    CancellableTimeOutKeepsPhases(s);
  }

  lemma BackgroundTimeOutKeepsWorkHeld(s: State)
    requires Inv(s) && Enabled(s, TimeOut)
    requires s.call.Stop? && s.call.stop.AwaitBackground?
    ensures WorkHeld(Apply(s, TimeOut))
  {
    assert HeldTrackers(AfterTimeOut(s).call) == HeldTrackers(s.call);
  }

  lemma BackgroundTimeOutKeepsPhases(s: State)
    requires Inv(s) && Enabled(s, TimeOut)
    requires s.call.Stop? && s.call.stop.AwaitBackground?
    ensures PhasesFit(Apply(s, TimeOut))
  {
    assert HeldTrackers(AfterTimeOut(s).call) == HeldTrackers(s.call);
  }

  lemma BackgroundTimeOutKeepsInv(s: State)
    requires Inv(s) && Enabled(s, TimeOut)
    requires s.call.Stop? && s.call.stop.AwaitBackground?
    ensures Inv(Apply(s, TimeOut))
  {
    BackgroundTimeOutKeepsWorkHeld(s);
    BackgroundTimeOutKeepsPhases(s);
  }

  lemma ProcessorTimeOutKeepsInv(s: State)
    requires Inv(s) && Enabled(s, TimeOut)
    requires s.call.Stop? && s.call.stop.AwaitProcessor?
    ensures Inv(Apply(s, TimeOut))
  {
  }

  lemma ProcessorReturnKeepsWorkHeld(s: State, step: Step)
    requires Inv(s) && Enabled(s, step)
    requires step.ProcessorEnds? || step.ProcessorErrs?
    ensures WorkHeld(Apply(s, step))
  {
  }

  lemma ProcessorReturnKeepsPhases(s: State, step: Step)
    requires Inv(s) && Enabled(s, step)
    requires step.ProcessorEnds? || step.ProcessorErrs?
    ensures PhasesFit(Apply(s, step))
  {
  }

  lemma ProcessorReturnKeepsInv(s: State, step: Step)
    requires Inv(s) && Enabled(s, step)
    requires step.ProcessorEnds? || step.ProcessorErrs?
    ensures Inv(Apply(s, step))
  {
    ProcessorReturnKeepsWorkHeld(s, step);
    ProcessorReturnKeepsPhases(s, step);
  }

  lemma CallbackChecksKeepInv(s: State, p: nat)
    requires Inv(s) && Enabled(s, CallbackSteps(p))
    requires var phase := s.processors[p].phase; phase.Checking?
    ensures Inv(Apply(s, CallbackSteps(p)))
  {
  }

  lemma CallbackFlagsKeepWorkHeld(s: State, p: nat)
    requires Inv(s) && Enabled(s, CallbackSteps(p))
    requires var phase := s.processors[p].phase; phase.MarkFailed? || phase.ClearRunning?
    ensures WorkHeld(Apply(s, CallbackSteps(p)))
  {
  }

  lemma CallbackMarksKeepPhases(s: State, p: nat)
    requires Inv(s) && Enabled(s, CallbackSteps(p)) && s.processors[p].phase.MarkFailed?
    ensures PhasesFit(Apply(s, CallbackSteps(p)))
  {
    var s' := Apply(s, CallbackSteps(p));
    assert s'.processors[p].phase.ClearRunning?;
    assert SomeClearing(s');
  }

  lemma CallbackClearsKeepPhases(s: State, p: nat)
    requires Inv(s) && Enabled(s, CallbackSteps(p)) && s.processors[p].phase.ClearRunning?
    ensures PhasesFit(Apply(s, CallbackSteps(p)))
  {
    assert !Apply(s, CallbackSteps(p)).running;
  }

  lemma CallbackClosesBackgroundInStartKeepsWorkHeld(s: State, p: nat)
    requires Inv(s) && Enabled(s, CallbackSteps(p)) && s.call.Start?
    requires var phase := s.processors[p].phase; phase.CloseBackground? || phase.CancelBackground?
    ensures WorkHeld(Apply(s, CallbackSteps(p)))
  {
  }

  lemma CallbackClosesBackgroundInStartKeepsPhases(s: State, p: nat)
    requires Inv(s) && Enabled(s, CallbackSteps(p)) && s.call.Start?
    requires var phase := s.processors[p].phase; phase.CloseBackground? || phase.CancelBackground?
    ensures PhasesFit(Apply(s, CallbackSteps(p)))
  {
  }

  lemma CallbackClosesBackgroundInStartKeepsInv(s: State, p: nat)
    requires Inv(s) && Enabled(s, CallbackSteps(p)) && s.call.Start?
    requires var phase := s.processors[p].phase; phase.CloseBackground? || phase.CancelBackground?
    ensures Inv(Apply(s, CallbackSteps(p)))
  {
    CallbackClosesBackgroundInStartKeepsWorkHeld(s, p);
    CallbackClosesBackgroundInStartKeepsPhases(s, p);
  }

  lemma CallbackClosesBackgroundWhenIdleKeepsInv(s: State, p: nat)
    requires Inv(s) && Enabled(s, CallbackSteps(p)) && s.call.Idle?
    requires var phase := s.processors[p].phase; phase.CloseBackground? || phase.CancelBackground?
    ensures Inv(Apply(s, CallbackSteps(p)))
  {
  }

  lemma CallbackClosesBackgroundInStopKeepsWorkHeld(s: State, p: nat)
    requires Inv(s) && Enabled(s, CallbackSteps(p)) && s.call.Stop?
    requires var phase := s.processors[p].phase; phase.CloseBackground? || phase.CancelBackground?
    ensures WorkHeld(Apply(s, CallbackSteps(p)))
  {
  }

  lemma CallbackClosesBackgroundInStopKeepsPhases(s: State, p: nat)
    requires Inv(s) && Enabled(s, CallbackSteps(p)) && s.call.Stop?
    requires var phase := s.processors[p].phase; phase.CloseBackground? || phase.CancelBackground?
    ensures PhasesFit(Apply(s, CallbackSteps(p)))
  {
  }

  lemma CallbackClosesBackgroundInStopKeepsInv(s: State, p: nat)
    requires Inv(s) && Enabled(s, CallbackSteps(p)) && s.call.Stop?
    requires var phase := s.processors[p].phase; phase.CloseBackground? || phase.CancelBackground?
    ensures Inv(Apply(s, CallbackSteps(p)))
  {
    CallbackClosesBackgroundInStopKeepsWorkHeld(s, p);
    CallbackClosesBackgroundInStopKeepsPhases(s, p);
  }

  lemma CallbackClosesCancellableInStartKeepsWorkHeld(s: State, p: nat)
    requires Inv(s) && Enabled(s, CallbackSteps(p)) && s.call.Start?
    requires var phase := s.processors[p].phase; phase.CloseCancellable? || phase.CancelCancellable?
    ensures WorkHeld(Apply(s, CallbackSteps(p)))
  {
  }

  lemma CallbackClosesCancellableInStartKeepsPhases(s: State, p: nat)
    requires Inv(s) && Enabled(s, CallbackSteps(p)) && s.call.Start?
    requires var phase := s.processors[p].phase; phase.CloseCancellable? || phase.CancelCancellable?
    ensures PhasesFit(Apply(s, CallbackSteps(p)))
  {
  }

  lemma CallbackClosesCancellableInStartKeepsInv(s: State, p: nat)
    requires Inv(s) && Enabled(s, CallbackSteps(p)) && s.call.Start?
    requires var phase := s.processors[p].phase; phase.CloseCancellable? || phase.CancelCancellable?
    ensures Inv(Apply(s, CallbackSteps(p)))
  {
    CallbackClosesCancellableInStartKeepsWorkHeld(s, p);
    CallbackClosesCancellableInStartKeepsPhases(s, p);
  }

  lemma CallbackClosesCancellableWhenIdleKeepsWorkHeld(s: State, p: nat)
    requires Inv(s) && Enabled(s, CallbackSteps(p)) && s.call.Idle?
    requires var phase := s.processors[p].phase; phase.CloseCancellable? || phase.CancelCancellable?
    ensures WorkHeld(Apply(s, CallbackSteps(p)))
  {
  }

  lemma CallbackClosesCancellableWhenIdleKeepsPhases(s: State, p: nat)
    requires Inv(s) && Enabled(s, CallbackSteps(p)) && s.call.Idle?
    requires var phase := s.processors[p].phase; phase.CloseCancellable? || phase.CancelCancellable?
    ensures PhasesFit(Apply(s, CallbackSteps(p)))
  {
  }

  lemma CallbackClosesCancellableWhenIdleKeepsInv(s: State, p: nat)
    requires Inv(s) && Enabled(s, CallbackSteps(p)) && s.call.Idle?
    requires var phase := s.processors[p].phase; phase.CloseCancellable? || phase.CancelCancellable?
    ensures Inv(Apply(s, CallbackSteps(p)))
  {
    CallbackClosesCancellableWhenIdleKeepsWorkHeld(s, p);
    CallbackClosesCancellableWhenIdleKeepsPhases(s, p);
  }

  lemma CallbackClosesCancellableInStopKeepsWorkHeld(s: State, p: nat)
    requires Inv(s) && Enabled(s, CallbackSteps(p)) && s.call.Stop?
    requires var phase := s.processors[p].phase; phase.CloseCancellable? || phase.CancelCancellable?
    ensures WorkHeld(Apply(s, CallbackSteps(p)))
  {
  }

  lemma CallbackClosesCancellableInStopKeepsPhases(s: State, p: nat)
    requires Inv(s) && Enabled(s, CallbackSteps(p)) && s.call.Stop?
    requires var phase := s.processors[p].phase; phase.CloseCancellable? || phase.CancelCancellable?
    ensures PhasesFit(Apply(s, CallbackSteps(p)))
  {
  }

  lemma CallbackClosesCancellableInStopKeepsInv(s: State, p: nat)
    requires Inv(s) && Enabled(s, CallbackSteps(p)) && s.call.Stop?
    requires var phase := s.processors[p].phase; phase.CloseCancellable? || phase.CancelCancellable?
    ensures Inv(Apply(s, CallbackSteps(p)))
  {
    CallbackClosesCancellableInStopKeepsWorkHeld(s, p);
    CallbackClosesCancellableInStopKeepsPhases(s, p);
  }

  lemma StartAdvanceKeepsInv(s: State)
    requires Inv(s) && Enabled(s, Advance) && s.call.Start?
    ensures Inv(Apply(s, Advance))
  {
    match s.call.start {
      case ReadRunning | ReadFailed => StartFlagReadsKeepInv(s);
      case TakeLeftovers => TakeLeftoversKeepsInv(s);
      case Drain(_, _, _) => DrainKeepsInv(s);
      case PutBack(_, _) => PutBackKeepsInv(s);
      case ResetBackground | ResetCancellable => ResetKeepsInv(s);
      case Setup | TakeGeneration => SetupKeepsInv(s);
      case SpawnProcessor(_) => SpawnProcessorKeepsInv(s);
      case SetRunning | Recheck | Undo => StartFinishKeepsInv(s);
    }
  }

  lemma StopAdvanceKeepsInv(s: State)
    requires Inv(s) && Enabled(s, Advance) && s.call.Stop?
    ensures Inv(Apply(s, Advance))
  {
    match s.call.stop {
      case ReadRunning | ReadFailed => StopFlagReadsKeepInv(s);
      case Clear | BumpGeneration => StopClearKeepsInv(s);
      case CloseBackground | CloseCancellable => StopCloseKeepsInv(s);
      case AbortCancellable => StopAbortCancellableKeepsInv(s);
      case AwaitCancellable(_) => StopAwaitCancellableKeepsInv(s);
      case DetachCancellable(_) => StopDetachCancellableKeepsInv(s);
      case WaitBackground => StopWaitBackgroundKeepsInv(s);
      case AwaitBackground(_, _) => StopAwaitBackgroundKeepsInv(s);
      case DetachBackground(_) => StopDetachBackgroundKeepsInv(s);
      case TakeProcessor => StopTakeProcessorKeepsInv(s);
      case AwaitProcessor(_, _) | DetachProcessor(_) => StopLeaveProcessorKeepsInv(s);
      case SwapFailed => StopSwapKeepsInv(s);
    }
  }

  lemma CallbackKeepsInv(s: State, p: nat)
    requires Inv(s) && Enabled(s, CallbackSteps(p))
    ensures Inv(Apply(s, CallbackSteps(p)))
  {
    match s.processors[p].phase {
      case Checking => CallbackChecksKeepInv(s, p);
      case MarkFailed =>
        CallbackFlagsKeepWorkHeld(s, p);
        CallbackMarksKeepPhases(s, p);
      case ClearRunning =>
        CallbackFlagsKeepWorkHeld(s, p);
        CallbackClearsKeepPhases(s, p);
      case CloseBackground | CancelBackground =>
        if s.call.Stop? { CallbackClosesBackgroundInStopKeepsInv(s, p); }
        else if s.call.Start? { CallbackClosesBackgroundInStartKeepsInv(s, p); }
        else { CallbackClosesBackgroundWhenIdleKeepsInv(s, p); }
      case CloseCancellable | CancelCancellable =>
        if s.call.Stop? { CallbackClosesCancellableInStopKeepsInv(s, p); }
        else if s.call.Start? { CallbackClosesCancellableInStartKeepsInv(s, p); }
        else { CallbackClosesCancellableWhenIdleKeepsInv(s, p); }
    }
  }

  lemma TimeOutKeepsInv(s: State)
    requires Inv(s) && Enabled(s, TimeOut)
    ensures Inv(Apply(s, TimeOut))
  {
    if s.call.Start? { DrainTimeOutKeepsInv(s); }
    else if s.call.stop.AwaitProcessor? { ProcessorTimeOutKeepsInv(s); }
    else if s.call.stop.AwaitBackground? { BackgroundTimeOutKeepsInv(s); }
    else { CancellableTimeOutKeepsInv(s); }
  }

  /** Every step of every actor keeps the invariant. */
  lemma StepKeepsInv(s: State, step: Step)
    requires Inv(s) && Enabled(s, step)
    ensures Inv(Apply(s, step))
  {
    match step {
      case Advance => if s.call.Start? { StartAdvanceKeepsInv(s); } else { StopAdvanceKeepsInv(s); }
      case TimeOut => TimeOutKeepsInv(s);
      case Spawn(Background) => BackgroundSpawnKeepsInv(s);
      case Spawn(Cancellable) => CancellableSpawnKeepsInv(s);
      case TaskEnds(_) => TaskEndKeepsInv(s, step);
      case ProcessorEnds(_) | ProcessorErrs(_) => ProcessorReturnKeepsInv(s, step);
      case CallbackSteps(p) => CallbackKeepsInv(s, p);
      case CallStart | CallStop | SetupFails => CallKeepsInv(s, step);
    }
  }

  lemma {:induction false} RunKeepsInv(states: seq<State>, steps: seq<Step>, i: nat)
    requires IsRun(states, steps) && i < |states|
    ensures Inv(states[i])
  {
    if i > 0 {
      RunKeepsInv(states, steps, i - 1);
      assert Follows(states[i - 1], steps[i - 1], states[i]);
      StepKeepsInv(states[i - 1], steps[i - 1]);
    }
  }

  // ---- What holds over whole runs ----

  /**
   No handle of live work is ever dropped or overwritten: a live task is in a current
   group or in a tracker kept for draining, a live processor is in the slot, in the
   leftover slot or in the hands of the call, in one of them only, and whoever is about to fill a slot
   finds it empty (in particular the assertion in `spawn_background_processor_task`).
   */
  lemma LiveWorkIsAlwaysHeld(states: seq<State>, steps: seq<Step>, i: nat)
    requires IsRun(states, steps) && i < |states|
    ensures var s := states[i];
      && (forall t: nat :: s.live[t] > 0 ==> IsCurrent(s, t) || Detached(s, t))
      && (forall p :: 0 <= p < |s.processors| && !s.processors[p].phase.Finished? ==>
            s.slot == Some(p) || s.leftoverProcessor == Some(p) || HeldProcessor(s.call) == Some(p))
      && (s.slot.Some? ==> s.leftoverProcessor.None? && HeldProcessor(s.call).None?)
      && (s.leftoverProcessor.Some? ==> HeldProcessor(s.call).None?)
      && (s.call.Start? && s.call.start.SpawnProcessor? ==> s.slot.None?)
      && (s.call.Start? && s.call.start.PutBack? ==> s.leftoverProcessor.None?)
      && (s.call.Stop? && s.call.stop.DetachProcessor? ==> s.leftoverProcessor.None?)
  {
    RunKeepsInv(states, steps, i);
  }

  ghost predicate StaysClosed(s: State, s': State, t: nat) {
    t < s.nextTracker && !IsOpen(s, t) ==> t < s'.nextTracker && !IsOpen(s', t)
  }

  lemma StartKeepsClosed(s: State, at: StartAt, t: nat)
    ensures StaysClosed(s, AdvanceStart(s, at), t)
  {
  }

  lemma StopKeepsClosed(s: State, at: StopAt, t: nat)
    ensures StaysClosed(s, AdvanceStop(s, at), t)
  {
  }

  lemma CallbackKeepsClosed(s: State, p: nat, t: nat)
    requires p < |s.processors|
    ensures StaysClosed(s, CallbackStep(s, p), t)
  {
  }

  lemma ClosedTrackerStaysClosed(s: State, step: Step, t: nat)
    requires Enabled(s, step)
    ensures StaysClosed(s, Apply(s, step), t)
  {
    if step.Advance? {
      if s.call.Start? { StartKeepsClosed(s, s.call.start, t); } else { StopKeepsClosed(s, s.call.stop, t); }
    } else if step.CallbackSteps? {
      CallbackKeepsClosed(s, step.processor, t);
    }
  }

  lemma StaysClosedAcross(first: State, s: State, step: Step, s': State, t: nat)
    requires StaysClosed(first, s, t) && Follows(s, step, s')
    ensures StaysClosed(first, s', t)
  {
    ClosedTrackerStaysClosed(s, step, t);
  }

  lemma {:induction false} ClosedTrackerNeverReopens(states: seq<State>, steps: seq<Step>, j: nat, i: nat, t: nat)
    requires IsRun(states, steps) && j <= i < |states|
    ensures StaysClosed(states[j], states[i], t)
  {
    if j < i {
      ClosedTrackerNeverReopens(states, steps, j, i - 1, t);
      assert Follows(states[i - 1], steps[i - 1], states[i]);
      StaysClosedAcross(states[j], states[i - 1], steps[i - 1], states[i], t);
    }
  }

  /**
   `allow_task_spawns` returned true (`start` is at `Setup`): every processor ever spawned
   has ended, no task of a group that was closed or replaced at any earlier point is alive,
   and both current groups admit tasks again.
   */
  lemma SpawnsAllowedOnlyWhenQuiet(states: seq<State>, steps: seq<Step>, i: nat)
    requires IsRun(states, steps) && i < |states| && states[i].call == Start(Setup)
    ensures forall p :: 0 <= p < |states[i].processors| ==> states[i].processors[p].phase.Finished?
    ensures forall j, t: nat :: 0 <= j <= i && t < states[j].nextTracker && !IsOpen(states[j], t) ==>
              states[i].live[t] == 0
    ensures !states[i].background.closed && !states[i].cancellable.closed
  {
    RunKeepsInv(states, steps, i);
    forall j, t: nat | 0 <= j <= i && t < states[j].nextTracker && !IsOpen(states[j], t)
      ensures states[i].live[t] == 0
    {
      ClosedTrackerNeverReopens(states, steps, j, i, t);
    }
  }

  /** Step `k` is the step with which a `start` call returns Ok. */
  ghost predicate StartReturnsOk(states: seq<State>, steps: seq<Step>, k: nat)
    requires IsRun(states, steps)
  {
    k < |steps| && states[k].call == Start(Recheck) && steps[k] == Advance && !states[k].failed
  }

  /** Processors are only added, keep their generation, and never outrun the counter. */
  ghost predicate Grows(s: State, s': State) {
    && |s.processors| <= |s'.processors|
    && s.generation <= s'.generation
    && (forall p :: 0 <= p < |s.processors| ==> s'.processors[p].generation == s.processors[p].generation)
    && (GenerationsBounded(s) ==> GenerationsBounded(s'))
  }

  ghost predicate GenerationsBounded(s: State) {
    && (forall p :: 0 <= p < |s.processors| ==> s.processors[p].generation <= s.generation)
    && (s.call.Start? && s.call.start.SpawnProcessor? ==> s.call.start.generation <= s.generation)
  }

  lemma StartGrows(s: State, at: StartAt)
    requires s.call == Start(at)
    ensures Grows(s, AdvanceStart(s, at))
  {
  }

  lemma StopGrows(s: State, at: StopAt)
    ensures Grows(s, AdvanceStop(s, at))
  {
  }

  lemma CallbackGrows(s: State, p: nat)
    requires p < |s.processors|
    ensures Grows(s, CallbackStep(s, p))
  {
  }

  lemma StepGrows(s: State, step: Step)
    requires Enabled(s, step)
    ensures Grows(s, Apply(s, step))
  {
    match step {
      case Advance =>
        if s.call.Start? { StartGrows(s, s.call.start); } else { StopGrows(s, s.call.stop); }
      case CallbackSteps(p) => CallbackGrows(s, p);
      case _ =>
    }
  }

  lemma {:induction false} HistoryOnlyGrows(states: seq<State>, steps: seq<Step>, k: nat, j: nat)
    requires IsRun(states, steps) && k <= j < |states|
    ensures Grows(states[k], states[j])
  {
    if k < j {
      HistoryOnlyGrows(states, steps, k, j - 1);
      assert Follows(states[j - 1], steps[j - 1], states[j]);
      StepGrows(states[j - 1], steps[j - 1]);
    }
  }

  /**
   Once a `start` returned Ok, every processor of an earlier start has ended for good,
   so no step of an earlier callback, in whatever phase it was detached, comes later:
   the running and failed flags are only written on behalf of that start or a newer one.
   */
  lemma StaleCallbackNeverWritesAfterStart(states: seq<State>, steps: seq<Step>, k: nat, j: nat)
    requires IsRun(states, steps) && StartReturnsOk(states, steps, k) && k <= j < |states|
    ensures 0 < |states[k].processors| <= |states[j].processors|
    ensures forall p :: 0 <= p < |states[k].processors| - 1 ==> states[j].processors[p].phase.Finished?
    ensures j < |steps| && steps[j].CallbackSteps? ==> steps[j].processor >= |states[k].processors| - 1
  {
    RunKeepsInv(states, steps, k);
    RunKeepsInv(states, steps, j);
    HistoryOnlyGrows(states, steps, k, j);
    assert j < |steps| ==> Follows(states[j], steps[j], states[j + 1]);
  }

  /**
   Between lifecycle calls a held processor means running or failed, and once the newest
   processor's callback is over, failed means not running, whichever way the end of
   `start` interleaved with it.
   */
  lemma FlagsBetweenCalls(states: seq<State>, steps: seq<Step>, i: nat)
    requires IsRun(states, steps) && i < |states| && states[i].call.Idle?
    ensures states[i].running || states[i].failed || states[i].slot.None?
    ensures var ps := states[i].processors;
      states[i].failed && (ps == [] || ps[|ps| - 1].phase.Finished?) ==> !states[i].running
  {
    RunKeepsInv(states, steps, i);
  }

  /**
   A processor that was there when `stop` took the next generation, and whose callback
   compares generations only afterwards, leaves both flags and both groups alone.
   */
  lemma LateCheckNeverWrites(states: seq<State>, steps: seq<Step>, k: nat, j: nat, p: nat)
    requires IsRun(states, steps) && k < j < |steps|
    requires states[k].call == Stop(BumpGeneration) && steps[k] == Advance
    requires p < |states[k].processors| && p < |states[j].processors| && steps[j] == CallbackSteps(p)
    requires states[j].processors[p].phase.Checking?
    ensures states[j + 1] == WithPhase(states[j], p, Finished)
  {
    assert Follows(states[k], steps[k], states[k + 1]) && Follows(states[j], steps[j], states[j + 1]);
    HistoryOnlyGrows(states, steps, 0, k);
    HistoryOnlyGrows(states, steps, k, j);
    HistoryOnlyGrows(states, steps, k + 1, j);
  }
}
