/**
 The persisted queue of events for the user. Every change is made in memory first and
 then written to the store as a whole; a write may fail, and the process may stop between
 any two operations and start again from the store.

 Operations are serial. Each event added is given a tag, its number among all adds; the
 tags in memory and in the store are history, so that equal events can be told apart.
 */
module EventQueue {
  import opened CountedCodec

  type Event = nat

  datatype State = State(
    queue: seq<Event>,
    stored: Option<seq<Byte>>,
    tags: seq<nat>,
    storedTags: seq<nat>,
    added: seq<Event>)

  datatype Step = Add(event: Event, ok: bool) | Handle(ok: bool) | Restart

  const Init := State([], None, [], [], [])

  function PopFront<T>(s: seq<T>): (r: seq<T>) {
    if s == [] then [] else s[1..]
  }

  function Persisted(c: ElementCodec<Event>, s: State, ok: bool): (r: State) {
    if ok then s.(stored := Some(Encode(c, s.queue)), storedTags := s.tags) else s
  }

  function Reload(c: ElementCodec<Event>, stored: Option<seq<Byte>>): (r: Option<seq<Event>>) {
    if stored.None? then Some([]) else Decode(c, stored.value)
  }

  predicate Enabled(c: ElementCodec<Event>, s: State, step: Step) {
    step.Restart? ==> Reload(c, s.stored).Some?
  }

  function Apply(c: ElementCodec<Event>, s: State, step: Step): (r: State)
    requires Enabled(c, s, step)
  {
    match step
    case Add(event, ok) =>
      Persisted(c, s.(queue := s.queue + [event], tags := s.tags + [|s.added|], added := s.added + [event]), ok)
    case Handle(ok) => Persisted(c, s.(queue := PopFront(s.queue), tags := PopFront(s.tags)), ok)
    case Restart => s.(queue := Reload(c, s.stored).value, tags := s.storedTags)
  }

  ghost predicate Follows(c: ElementCodec<Event>, s: State, step: Step, s': State) {
    Enabled(c, s, step) && s' == Apply(c, s, step)
  }

  /** A run in which the queue never reaches 65536 events. */
  ghost predicate IsRun(c: ElementCodec<Event>, states: seq<State>, steps: seq<Step>) {
    && SelfDelimiting(c)
    && |states| == |steps| + 1
    && states[0] == Init
    && (forall i :: 0 <= i < |steps| ==> Follows(c, states[i], steps[i], states[i + 1]))
    && (forall i :: 0 <= i < |states| ==> |states[i].queue| < COUNT_LIMIT)
  }

  // ---- Invariant ----

  /** `tags` are increasing numbers of adds, and `queue` holds the events of those adds. */
  ghost predicate Tagged(queue: seq<Event>, tags: seq<nat>, added: seq<Event>) {
    && |queue| == |tags|
    && (forall i :: 0 <= i < |tags| ==> tags[i] < |added| && queue[i] == added[tags[i]])
    && (forall i, j :: 0 <= i < j < |tags| ==> tags[i] < tags[j])
  }

  ghost predicate Inv(c: ElementCodec<Event>, s: State) {
    && Tagged(s.queue, s.tags, s.added)
    && Reload(c, s.stored).Some?
    && Tagged(Reload(c, s.stored).value, s.storedTags, s.added)
  }

  lemma WriteReloads(c: ElementCodec<Event>, queue: seq<Event>)
    requires SelfDelimiting(c) && |queue| < COUNT_LIMIT
    ensures Reload(c, Some(Encode(c, queue))) == Some(queue)
  {
    RoundTripIff(c, queue);
  }

  lemma AddedTagged(queue: seq<Event>, tags: seq<nat>, added: seq<Event>, event: Event)
    requires Tagged(queue, tags, added)
    ensures Tagged(queue + [event], tags + [|added|], added + [event])
    ensures Tagged(queue, tags, added + [event])
  {
  }

  lemma PoppedTagged(queue: seq<Event>, tags: seq<nat>, added: seq<Event>)
    requires Tagged(queue, tags, added)
    ensures Tagged(PopFront(queue), PopFront(tags), added)
  {
  }

  lemma StepKeepsInv(c: ElementCodec<Event>, s: State, step: Step)
    requires SelfDelimiting(c) && Inv(c, s) && Enabled(c, s, step) && |Apply(c, s, step).queue| < COUNT_LIMIT
    ensures Inv(c, Apply(c, s, step))
  {
    WriteReloads(c, Apply(c, s, step).queue);
    match step {
      case Add(event, _) =>
        AddedTagged(s.queue, s.tags, s.added, event);
        AddedTagged(Reload(c, s.stored).value, s.storedTags, s.added, event);
      case Handle(_) => PoppedTagged(s.queue, s.tags, s.added);
      case Restart =>
    }
  }

  lemma {:induction false} RunKeepsInv(c: ElementCodec<Event>, states: seq<State>, steps: seq<Step>, i: nat)
    requires IsRun(c, states, steps) && i < |states|
    ensures Inv(c, states[i])
  {
    if i == 0 {
      assert Reload(c, Init.stored) == Some([]);
    } else {
      RunKeepsInv(c, states, steps, i - 1);
      assert Follows(c, states[i - 1], steps[i - 1], states[i]);
      StepKeepsInv(c, states[i - 1], steps[i - 1]);
    }
  }

  // ---- What holds over whole runs ----

  /** The queue holds events in the order they were added, and a restart always finds a readable queue. */
  lemma InAddOrder(c: ElementCodec<Event>, states: seq<State>, steps: seq<Step>, i: nat)
    requires IsRun(c, states, steps) && i < |states|
    ensures Tagged(states[i].queue, states[i].tags, states[i].added)
    ensures Enabled(c, states[i], Restart)
  {
    RunKeepsInv(c, states, steps, i);
  }

  /** Without a restart in between, what is delivered later was added later, or is the same event. */
  lemma {:induction false} DeliveredInAddOrder(
    c: ElementCodec<Event>, states: seq<State>, steps: seq<Step>, i: nat, j: nat)
    requires IsRun(c, states, steps) && i <= j < |states| && forall k :: i <= k < j ==> !steps[k].Restart?
    requires states[i].tags != [] && states[j].tags != []
    ensures states[i].tags[0] <= states[j].tags[0]
  {
    NothingOlderReturns(c, states, steps, i, j);
    assert states[j].tags[0] in states[j].tags;
  }

  lemma {:induction false} NothingOlderReturns(
    c: ElementCodec<Event>, states: seq<State>, steps: seq<Step>, i: nat, j: nat)
    requires IsRun(c, states, steps) && i <= j < |states| && forall k :: i <= k < j ==> !steps[k].Restart?
    requires states[i].tags != []
    ensures |states[i].added| <= |states[j].added|
    ensures forall n :: n in states[j].tags ==> states[i].tags[0] <= n
  {
    RunKeepsInv(c, states, steps, i);
    var first := states[i].tags[0];
    assert first < |states[i].added| && forall k :: 0 < k < |states[i].tags| ==> first < states[i].tags[k];
    if i < j {
      NothingOlderReturns(c, states, steps, i, j - 1);
      assert Follows(c, states[j - 1], steps[j - 1], states[j]);
      forall n | n in states[j].tags ensures first <= n {
        assert n in states[j - 1].tags || n == |states[j - 1].added|;
      }
    }
  }

  /** Some operation between states i and j took the event tagged `n` off the queue. */
  ghost predicate Popped(states: seq<State>, steps: seq<Step>, i: nat, j: nat, n: nat)
    requires |states| == |steps| + 1 && i <= j < |states|
  {
    exists k :: i <= k < j && steps[k].Handle? && states[k].tags != [] && states[k].tags[0] == n
  }

  /** An event whose add returned Ok is in the queue, across restarts, until it is taken off. */
  lemma {:induction false} OkAddSurvives(c: ElementCodec<Event>, states: seq<State>, steps: seq<Step>, i: nat, j: nat)
    requires IsRun(c, states, steps) && i < j < |states| && steps[i].Add? && steps[i].ok
    requires !Popped(states, steps, i + 1, j, |states[i].added|)
    ensures |states[i].added| in states[j].tags && |states[i].added| in states[j].storedTags
  {
    var n := |states[i].added|;
    assert Follows(c, states[j - 1], steps[j - 1], states[j]);
    if i + 1 < j {
      forall k | i + 1 <= k < j - 1 && steps[k].Handle? && states[k].tags != [] ensures states[k].tags[0] != n {
      }
      OkAddSurvives(c, states, steps, i, j - 1);
      var before, step := states[j - 1], steps[j - 1];
      if step.Handle? {
        assert before.tags[0] != n;
        var at :| 0 <= at < |before.tags| && before.tags[at] == n;
        assert before.tags[1..][at - 1] == n;
      }
    }
  }

  lemma {:induction false} GoneStaysGone(
    c: ElementCodec<Event>, states: seq<State>, steps: seq<Step>, i: nat, j: nat, n: nat)
    requires IsRun(c, states, steps) && i <= j < |states|
    requires n < |states[i].added| && n !in states[i].tags && n !in states[i].storedTags
    ensures n < |states[j].added| && n !in states[j].tags && n !in states[j].storedTags
  {
    if i < j {
      GoneStaysGone(c, states, steps, i, j - 1, n);
      assert Follows(c, states[j - 1], steps[j - 1], states[j]);
    }
  }

  /** An event whose handling returned Ok is never delivered again, and is not in the store. */
  lemma OkHandledNeverReturns(c: ElementCodec<Event>, states: seq<State>, steps: seq<Step>, i: nat, j: nat)
    requires IsRun(c, states, steps) && i < j < |states| && steps[i] == Handle(true) && states[i].tags != []
    ensures states[i].tags[0] !in states[j].tags && states[i].tags[0] !in states[j].storedTags
  {
    RunKeepsInv(c, states, steps, i);
    assert Follows(c, states[i], steps[i], states[i + 1]);
    GoneStaysGone(c, states, steps, i + 1, j, states[i].tags[0]);
  }

  /** An event whose add failed stays in the queue all the same, but is not in the store. */
  lemma FailedAddStaysInMemory(c: ElementCodec<Event>, states: seq<State>, steps: seq<Step>, i: nat)
    requires IsRun(c, states, steps) && i < |steps| && steps[i].Add? && !steps[i].ok
    ensures |states[i].added| in states[i + 1].tags && |states[i].added| !in states[i + 1].storedTags
  {
    RunKeepsInv(c, states, steps, i);
    assert Follows(c, states[i], steps[i], states[i + 1]);
    assert states[i + 1].tags[|states[i].tags|] == |states[i].added|;
  }

  /** A restart restores the queue exactly if it had fewer than 65536 events; at 65536 all are lost. */
  lemma RestartRestoresIff(c: ElementCodec<Event>, queue: seq<Event>)
    requires SelfDelimiting(c)
    ensures Reload(c, Some(Encode(c, queue))) == Some(queue) <==> |queue| < COUNT_LIMIT
    ensures |queue| == COUNT_LIMIT ==> Reload(c, Some(Encode(c, queue))) == Some([])
  {
    RoundTripIff(c, queue);
    ReloadTruncates(c, queue);
  }

  // ---- The queue itself ----

  class Queue {
    const codec: ElementCodec<Event>
    var queue: seq<Event>
    var stored: Option<seq<Byte>>
    ghost var tags: seq<nat>
    ghost var storedTags: seq<nat>
    ghost var added: seq<Event>

    ghost function View(): (s: State)
      reads this
    {
      State(queue, stored, tags, storedTags, added)
    }

    constructor (codec: ElementCodec<Event>)
      ensures View() == Init && this.codec == codec
    {
      this.codec := codec;
      queue, stored, tags, storedTags, added := [], None, [], [], [];
    }

    method Persist(bytes: seq<Byte>, written: bool) returns (ok: bool)
      modifies this`stored, this`storedTags
      ensures ok == written
      ensures stored == if ok then Some(bytes) else old(stored)
      ensures storedTags == if ok then tags else old(storedTags)
    {
      ok := written;
      if ok {
        stored, storedTags := Some(bytes), tags;
      }
    }

    method AddEvent(event: Event, written: bool) returns (ok: bool)
      modifies this
      ensures ok == written && View() == Apply(codec, old(View()), Add(event, ok))
    {
      queue, tags, added := queue + [event], tags + [|added|], added + [event];
      var bytes := Write(codec, queue);
      ok := Persist(bytes, written);
    }

    method NextEvent() returns (event: Option<Event>)
      ensures event.Some? <==> queue != []
      ensures event.Some? ==> event.value == queue[0]
    {
      event := if queue == [] then None else Some(queue[0]);
    }

    method EventHandled(written: bool) returns (ok: bool)
      modifies this
      ensures ok == written && View() == Apply(codec, old(View()), Handle(ok))
    {
      queue, tags := PopFront(queue), PopFront(tags);
      var bytes := Write(codec, queue);
      ok := Persist(bytes, written);
    }

    /** A new process on the same store; it fails if the stored bytes cannot be read. */
    method Reopen() returns (ok: bool)
      modifies this
      ensures ok == Enabled(codec, old(View()), Restart)
      ensures View() == if ok then Apply(codec, old(View()), Restart) else old(View())
    {
      var read: Option<seq<Event>> := Some([]);
      if stored.Some? {
        read := Read(codec, stored.value);
      }
      ok := read.Some?;
      if ok {
        queue, tags := read.value, storedTags;
      }
    }
  }
}
