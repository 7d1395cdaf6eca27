/**
 Mempool polls against a wallet whose account set may change at any moment.

 One poll is in flight at a time, as the single-flight status arranges among callers that
 wait when told to. It remembers the account generation it began with,
 refreshes the caches, collects an update, and applies and commits it under the account
 lock if the generation is still the same. It may stop after any step: an error, or its
 future dropped. The account set may change between any two steps, which hands the wallet
 over to accounts that have seen no mempool transaction yet.

 `delivered` is history: the txids handed to the wallet under the current generation and
 not evicted since. `excused` is history too: cached txids bitcoind reported with a time
 below the watermark already committed, or could not produce when asked for.
 */
module MempoolSync {
  import opened MempoolClient

  /** The initial value of `last_mempool_account_generation`, which no account set has. */
  const NEVER_POLLED: nat := 0xFFFF_FFFF_FFFF_FFFF

  datatype Poll =
    | NoPoll
    | Begun(generation: nat)
    | Refreshed(generation: nat, replay: bool)
    | Collected(generation: nat, emitted: map<Txid, nat>, evicted: seq<(Txid, nat)>, next: Option<nat>)
    | Completed(generation: nat)

  datatype State = State(
    watermark: nat,
    entries: map<Txid, Entry>,
    txs: map<Txid, nat>,
    lastGeneration: nat,
    generation: nat,
    poll: Poll,
    delivered: set<Txid>,
    excused: set<Txid>)

  datatype Step =
    | AccountsChange
    | Begin
    | Refresh(listing: Option<seq<Txid>>, replies: seq<EntryReply>)
    | Collect(raw: Txid -> RawReply, bestHeight: nat, unconfirmed: seq<(Txid, nat)>, clock: Option<nat>, latest: nat)
    | CollectFails(raw: Txid -> RawReply, bestHeight: nat, unvisited: set<Txid>)
    | ApplyAndCommit
    | ApplyFails(applied: set<Txid>, dropped: set<Txid>)
    | Abandon
    | Publish

  const Init := State(0, map[], map[], NEVER_POLLED, 0, NoPoll, {}, {})

  function Ids(pairs: seq<(Txid, nat)>): (r: set<Txid>) {
    set p | p in pairs :: p.0
  }

  function SelectionOf(s: State, bestHeight: nat): (r: Selection)
    requires s.poll.Refreshed?
  {
    Selection(bestHeight, s.watermark, s.poll.replay)
  }

  /** Cached txids that are selected for emission but that bitcoind cannot produce. */
  function Unavailable(entries: map<Txid, Entry>, txs: map<Txid, nat>, raw: Txid -> RawReply, sel: Selection)
    : (r: set<Txid>)
  {
    set x | x in entries && ShouldEmit(entries[x], sel) && x !in txs && raw(x).RawMissing?
  }

  /** Newly cached txids whose reported time is below the committed watermark. */
  function Late(before: map<Txid, Entry>, after: map<Txid, Entry>, watermark: nat): (r: set<Txid>) {
    set x | x in after && x !in before && after[x].time < watermark
  }

  predicate CollectFailsFor(s: State, raw: Txid -> RawReply, bestHeight: nat)
    requires s.poll.Refreshed?
  {
    exists x | x in s.entries :: LookupFails(s.entries, s.txs, raw, SelectionOf(s, bestHeight), x)
  }

  ghost predicate Enabled(s: State, step: Step) {
    match step
    case AccountsChange => s.generation + 1 < NEVER_POLLED
    case Begin => s.poll.NoPoll?
    case Refresh(listing, replies) => s.poll.Begun? && (listing.Some? ==> |listing.value| == |replies|)
    case Collect(raw, bestHeight, _, _, latest) =>
      && s.poll.Refreshed?
      && !CollectFailsFor(s, raw, bestHeight)
      && IsLatestTime(s.entries, s.watermark, latest)
    case CollectFails(raw, bestHeight, _) => s.poll.Refreshed? && CollectFailsFor(s, raw, bestHeight)
    case ApplyAndCommit => s.poll.Collected?
    case ApplyFails(applied, dropped) =>
      s.poll.Collected? && applied <= s.poll.emitted.Keys && dropped <= Ids(s.poll.evicted)
    case Abandon => !s.poll.NoPoll?
    case Publish => s.poll.Completed?
  }

  function AfterRefresh(s: State, listing: Option<seq<Txid>>, replies: seq<EntryReply>): (r: State)
    requires s.poll.Begun? && (listing.Some? ==> |listing.value| == |replies|)
  {
    if listing.None? then s.(poll := NoPoll)
    else
      var (ok, entries) := RefreshCache(s.entries, listing.value, replies);
      s.(entries := entries,
         excused := (s.excused * entries.Keys) + Late(s.entries, entries, s.watermark),
         poll := if ok then Refreshed(s.poll.generation, s.lastGeneration != s.poll.generation) else NoPoll)
  }

  function AfterCollect(
    s: State, raw: Txid -> RawReply, bestHeight: nat, unconfirmed: seq<(Txid, nat)>, clock: Option<nat>, latest: nat)
    : (r: State)
    requires s.poll.Refreshed?
  {
    var sel := SelectionOf(s, bestHeight);
    var emitted := Emission(s.entries, s.txs, raw, sel);
    var next := if emitted == map[] then None else Some(latest);
    s.(txs := Kept(s.entries, s.txs) + emitted,
       excused := s.excused + Unavailable(s.entries, s.txs, raw, sel),
       poll := Collected(s.poll.generation, emitted,
                         Evicted(unconfirmed, s.entries, EvictionTime(s.watermark, next, clock)), next))
  }

  function AfterApply(s: State): (r: State)
    requires s.poll.Collected?
  {
    if s.generation != s.poll.generation then s.(poll := NoPoll)
    else
      s.(delivered := s.delivered - Ids(s.poll.evicted) + s.poll.emitted.Keys,
         watermark := if s.poll.next.Some? then Max(s.watermark, s.poll.next.value) else s.watermark,
         lastGeneration := s.poll.generation,
         poll := Completed(s.poll.generation))
  }

  function Apply(s: State, step: Step): (r: State)
    requires Enabled(s, step)
  {
    match step
    case AccountsChange => s.(generation := s.generation + 1, delivered := {})
    case Begin => s.(poll := Begun(s.generation))
    case Refresh(listing, replies) => AfterRefresh(s, listing, replies)
    case Collect(raw, bestHeight, unconfirmed, clock, latest) =>
      AfterCollect(s, raw, bestHeight, unconfirmed, clock, latest)
    case CollectFails(raw, bestHeight, unvisited) =>
      s.(txs := TxsAfter(Job(s.entries, s.txs, raw, SelectionOf(s, bestHeight)), unvisited), poll := NoPoll)
    case ApplyAndCommit => AfterApply(s)
    case ApplyFails(applied, dropped) =>
      if s.generation != s.poll.generation then s.(poll := NoPoll)
      else s.(delivered := s.delivered - dropped + applied, poll := NoPoll)
    case Abandon => s.(poll := NoPoll)
    case Publish => s.(poll := NoPoll)
  }

  ghost predicate Follows(s: State, step: Step, s': State) {
    Enabled(s, step) && s' == Apply(s, step)
  }

  ghost predicate IsRun(states: seq<State>, steps: seq<Step>) {
    && |states| == |steps| + 1
    && states[0] == Init
    && forall i :: 0 <= i < |steps| ==> Follows(states[i], steps[i], states[i + 1])
  }

  // ---- Invariant ----

  predicate Accounted(s: State, x: Txid) {
    x in s.delivered || x in s.excused
  }

  /** Below the watermark, every cached entry has been delivered under the polled generation. */
  ghost predicate BelowWatermarkDelivered(s: State) {
    s.lastGeneration == s.generation ==>
      forall x :: x in s.entries && s.entries[x].time < s.watermark ==> Accounted(s, x)
  }

  ghost predicate GenerationsFit(s: State) {
    && s.generation < NEVER_POLLED
    && (s.lastGeneration == NEVER_POLLED || s.lastGeneration <= s.generation)
    && (s.poll.NoPoll? || s.poll.generation <= s.generation)
  }

  ghost predicate PollFits(s: State) {
    match s.poll
    case NoPoll => true
    case Begun(_) => true
    case Refreshed(g, replay) => !replay ==> s.lastGeneration == g
    case Collected(g, emitted, evicted, next) =>
      && emitted.Keys <= s.entries.Keys
      && Ids(evicted) !! s.entries.Keys
      && (next.Some? ==> IsLatestTime(s.entries, s.watermark, next.value))
      && (next.None? ==> emitted == map[])
      && forall x :: x in s.entries ==>
           x in emitted || x in s.excused || (s.lastGeneration == g && s.entries[x].time < s.watermark)
    case Completed(g) => s.generation == g ==> forall x :: x in s.entries ==> Accounted(s, x)
  }

  ghost predicate Inv(s: State) {
    GenerationsFit(s) && BelowWatermarkDelivered(s) && PollFits(s)
  }

  lemma RefreshKeepsInv(s: State, step: Step)
    requires Inv(s) && step.Refresh? && Enabled(s, step)
    ensures Inv(Apply(s, step))
  {
    if step.listing.Some? {
      LookUpAllFacts(Retain(s.entries, step.listing.value), step.listing.value, step.replies);
    }
  }

  lemma CachedIsNotEvicted(unconfirmed: seq<(Txid, nat)>, entries: map<Txid, Entry>, timestamp: nat)
    ensures Ids(Evicted(unconfirmed, entries, timestamp)) !! entries.Keys
  {
    var evicted := Evicted(unconfirmed, entries, timestamp);
    EvictedFacts(unconfirmed, entries, timestamp);
    forall x | x in Ids(evicted) ensures x !in entries {
      var p :| p in evicted && p.0 == x;
      assert (x, p.1) in evicted;
    }
  }

  lemma CollectKeepsInv(s: State, step: Step)
    requires Inv(s) && step.Collect? && Enabled(s, step)
    ensures Inv(Apply(s, step))
  {
    var s' := Apply(s, step);
    CachedIsNotEvicted(step.unconfirmed, s.entries, EvictionTime(s.watermark, s'.poll.next, step.clock));
  }

  lemma ApplyKeepsInv(s: State)
    requires Inv(s) && Enabled(s, ApplyAndCommit)
    ensures Inv(Apply(s, ApplyAndCommit))
  {
  }

  lemma OtherStepKeepsInv(s: State, step: Step)
    requires Inv(s) && Enabled(s, step) && !step.Refresh? && !step.Collect? && !step.ApplyAndCommit?
    ensures Inv(Apply(s, step))
  {
  }

  lemma {:induction false} RunKeepsInv(states: seq<State>, steps: seq<Step>, i: nat)
    requires IsRun(states, steps) && i < |states|
    ensures Inv(states[i])
  {
    if i > 0 {
      RunKeepsInv(states, steps, i - 1);
      var s, step := states[i - 1], steps[i - 1];
      assert Follows(s, step, states[i]);
      match step {
        case Refresh(_, _) => RefreshKeepsInv(s, step);
        case Collect(_, _, _, _, _) => CollectKeepsInv(s, step);
        case ApplyAndCommit => ApplyKeepsInv(s);
        case _ => OtherStepKeepsInv(s, step);
      }
    }
  }

  // ---- What holds over whole runs ----

  /**
   When a poll has completed and the generation is still its own, so that the sync reports
   success, every transaction of the poll's mempool snapshot has been delivered under that
   generation, whatever failed or changed before, or is excused.
   */
  lemma CompletedPollDelivered(states: seq<State>, steps: seq<Step>, i: nat)
    requires IsRun(states, steps) && i < |states|
    requires states[i].poll.Completed? && states[i].poll.generation == states[i].generation
    ensures states[i].entries.Keys <= states[i].delivered + states[i].excused
  {
    RunKeepsInv(states, steps, i);
    assert forall x :: x in states[i].entries ==> Accounted(states[i], x);
  }

  /** What `after` caches and `before` did not is dated no earlier than anything in `snapshot`. */
  ghost predicate ArrivesAfter(snapshot: State, before: State, after: State) {
    forall x, y :: x in after.entries && x !in before.entries && y in snapshot.entries ==>
                     snapshot.entries[y].time <= after.entries[x].time
  }

  /** Bitcoind never dates an arrival before anything in a snapshot that was taken to its end earlier. */
  ghost predicate ArrivalsInOrder(states: seq<State>, steps: seq<Step>)
    requires IsRun(states, steps)
  {
    forall i, j :: 0 <= j <= i < |steps| && states[j].poll.Collected? && steps[i].Refresh? ==>
                     ArrivesAfter(states[j], states[i], states[i + 1])
  }

  /** Bitcoind can produce every transaction of its snapshot. */
  ghost predicate SnapshotsAvailable(states: seq<State>, steps: seq<Step>)
    requires IsRun(states, steps)
  {
    forall i, x :: 0 <= i < |steps| && steps[i].Collect? && x in states[i].entries ==> !steps[i].raw(x).RawMissing?
  }

  ghost predicate Shows(s: State, time: nat) {
    s.poll.Collected? && exists x :: x in s.entries && s.entries[x].time == time
  }

  /** The watermark is a time in a snapshot that was taken to its end. */
  lemma {:induction false} WatermarkWasSeen(states: seq<State>, steps: seq<Step>, i: nat)
    requires IsRun(states, steps) && i < |states|
    ensures states[i].watermark == 0 || exists j :: 0 <= j < i && Shows(states[j], states[i].watermark)
  {
    if i > 0 {
      var s, s' := states[i - 1], states[i];
      assert Follows(s, steps[i - 1], s');
      WatermarkWasSeen(states, steps, i - 1);
      RunKeepsInv(states, steps, i - 1);
      if s'.watermark != s.watermark {
        assert Shows(s, s'.watermark);
      } else if s.watermark != 0 {
        var j :| 0 <= j < i - 1 && Shows(states[j], s.watermark);
        assert 0 <= j < i;
      }
    }
  }

  lemma OrderedArrivalIsNotLate(states: seq<State>, steps: seq<Step>, i: nat)
    requires IsRun(states, steps) && ArrivalsInOrder(states, steps) && i < |steps| && steps[i].Refresh?
    ensures Late(states[i].entries, states[i + 1].entries, states[i].watermark) == {}
  {
    WatermarkWasSeen(states, steps, i);
    if states[i].watermark != 0 {
      var j :| 0 <= j < i && Shows(states[j], states[i].watermark);
      assert ArrivesAfter(states[j], states[i], states[i + 1]);
    }
  }

  lemma {:induction false} NobodyExcused(states: seq<State>, steps: seq<Step>, i: nat)
    requires IsRun(states, steps) && ArrivalsInOrder(states, steps) && SnapshotsAvailable(states, steps)
    requires i < |states|
    ensures states[i].excused == {}
  {
    if i > 0 {
      NobodyExcused(states, steps, i - 1);
      assert Follows(states[i - 1], steps[i - 1], states[i]);
      if steps[i - 1].Refresh? {
        OrderedArrivalIsNotLate(states, steps, i - 1);
      }
    }
  }

  /**
   With arrivals dated in order and snapshots available, a successful sync has delivered
   its whole mempool snapshot to the accounts that are loaded now.
   */
  lemma SuccessfulSyncDeliversSnapshot(states: seq<State>, steps: seq<Step>, i: nat)
    requires IsRun(states, steps) && ArrivalsInOrder(states, steps) && SnapshotsAvailable(states, steps)
    requires i < |states| && states[i].poll.Completed? && states[i].poll.generation == states[i].generation
    ensures states[i].entries.Keys <= states[i].delivered
  {
    CompletedPollDelivered(states, steps, i);
    NobodyExcused(states, steps, i);
  }

  lemma {:induction false} WatermarkNeverDecreases(states: seq<State>, steps: seq<Step>, i: nat, j: nat)
    requires IsRun(states, steps) && i <= j < |states|
    ensures states[i].watermark <= states[j].watermark
  {
    if i < j {
      WatermarkNeverDecreases(states, steps, i, j - 1);
      assert Follows(states[j - 1], steps[j - 1], states[j]);
    }
  }

  /** Between the refresh at `r` and state `j` there is no other one, so that a snapshot in use is its own. */
  lemma {:induction false} SnapshotIsOfLastRefresh(states: seq<State>, steps: seq<Step>, r: nat, j: nat)
    requires IsRun(states, steps) && r < j < |states| && steps[r].Refresh?
    requires forall k :: r < k < j ==> !steps[k].Refresh?
    ensures states[j].entries == states[r + 1].entries
    ensures states[j].poll.NoPoll? || states[j].poll.Begun? || states[r + 1].poll.Refreshed?
  {
    assert Follows(states[j - 1], steps[j - 1], states[j]);
    if r + 1 < j {
      SnapshotIsOfLastRefresh(states, steps, r, j - 1);
    }
  }

  /**
   So every txid that bitcoind listed to the completed poll has been delivered, unless
   bitcoind no longer had its entry when asked for it.
   */
  lemma SuccessfulSyncDeliversListing(states: seq<State>, steps: seq<Step>, r: nat, i: nat, k: nat)
    requires IsRun(states, steps) && ArrivalsInOrder(states, steps) && SnapshotsAvailable(states, steps)
    requires i < |states| && states[i].poll.Completed? && states[i].poll.generation == states[i].generation
    requires r < i && steps[r].Refresh? && forall j :: r < j < i ==> !steps[j].Refresh?
    requires steps[r].listing.Some? && k < |steps[r].listing.value| == |steps[r].replies|
    ensures steps[r].listing.value[k] in states[i].delivered || steps[r].replies[k].EntryMissing?
  {
    SuccessfulSyncDeliversSnapshot(states, steps, i);
    SnapshotIsOfLastRefresh(states, steps, r, i);
    assert Follows(states[r], steps[r], states[r + 1]);
    var txids, replies := steps[r].listing.value, steps[r].replies;
    LookUpAllComplete(Retain(states[r].entries, txids), txids, replies, k);
  }

  /**
   Exactly when a poll delivers a cached entry: the account set is still the poll's, the
   entry is selected, and the transaction is cached or produced by bitcoind. What was
   delivered and is cached stays delivered.
   */
  lemma DeliveredIff(s: State, collect: Step, x: Txid)
    requires collect.Collect? && Enabled(s, collect) && x in s.entries
    ensures x in Apply(Apply(s, collect), ApplyAndCommit).delivered <==>
            || x in s.delivered
            || (&& s.poll.generation == s.generation
                && ShouldEmit(s.entries[x], SelectionOf(s, collect.bestHeight))
                && (x in s.txs || collect.raw(x).RawFound?))
  {
    var collected := Apply(s, collect);
    CachedIsNotEvicted(collect.unconfirmed, s.entries, EvictionTime(s.watermark, collected.poll.next, collect.clock));
  }

  /** Polls that cannot rescue `x`: same accounts, `x` still listed, its height processed. */
  ghost predicate Undisturbed(states: seq<State>, steps: seq<Step>, x: Txid, height: nat, i: nat, k: nat)
    requires IsRun(states, steps) && i <= k < |states|
  {
    && (forall j :: i <= j <= k ==> x in states[j].entries)
    && (forall j :: i <= j < k ==> !steps[j].AccountsChange?)
    && (forall j :: i <= j < k && steps[j].Collect? ==> height <= steps[j].bestHeight)
  }

  /** The entry of `x` is below the watermark, undelivered, and no poll in flight emits it. */
  ghost predicate Stuck(s: State, x: Txid, height: nat) {
    && x in s.entries && s.entries[x].height == height && s.entries[x].time < s.watermark
    && x !in s.delivered
    && s.lastGeneration == s.generation
    && (s.poll.Begun? ==> s.poll.generation == s.generation)
    && (s.poll.Refreshed? ==> !s.poll.replay)
    && (s.poll.Collected? ==> x !in s.poll.emitted && s.poll.generation == s.generation)
  }

  /**
   The converse of completeness: once undelivered below the watermark, always undelivered,
   for as long as the account set stays and the entry stays cached.
   */
  lemma {:induction false} StuckStaysStuck(states: seq<State>, steps: seq<Step>, x: Txid, height: nat, i: nat, k: nat)
    requires IsRun(states, steps) && i <= k < |states| && Undisturbed(states, steps, x, height, i, k)
    requires Stuck(states[i], x, height)
    ensures Stuck(states[k], x, height)
  {
    if i < k {
      StuckStaysStuck(states, steps, x, height, i, k - 1);
      var s, step := states[k - 1], steps[k - 1];
      assert Follows(s, step, states[k]) && x in states[k - 1].entries && x in states[k].entries;
      RunKeepsInv(states, steps, k - 1);
      if step.Refresh? && step.listing.Some? {
        LookUpAllFacts(Retain(s.entries, step.listing.value), step.listing.value, step.replies);
        assert x in Retain(s.entries, step.listing.value);
      }
    }
  }

  // ---- Both assumptions are needed ----

  const FIRST := Entry(10, 0)
  const LATE := Entry(5, 0)
  const AllFound: Txid -> RawReply := x => RawFound
  const FirstMissing: Txid -> RawReply := x => if x == 1 then RawMissing else RawFound
  const RefreshOne := Refresh(Some([1]), [EntryFound(FIRST)])
  const RefreshBoth := Refresh(Some([1, 2]), [EntryFound(LATE), EntryFound(LATE)])
  const CollectAll := Collect(AllFound, 0, [], None, 10)
  const OneCached := State(0, map[1 := FIRST], map[], NEVER_POLLED, 0, Refreshed(0, true), {}, {})
  const OneDelivered := State(10, map[1 := FIRST], map[1 := 10], 0, 0, Completed(0), {1}, {})
  const BothCached :=
    State(10, map[1 := FIRST, 2 := LATE], map[1 := 10], 0, 0, Refreshed(0, false), {1}, {2})
  const OneMissed :=
    State(10, map[1 := FIRST, 2 := LATE], map[1 := 10], 0, 0, Completed(0), {1}, {2})

  lemma FirstPoll() returns (begun: State, collected: State)
    ensures Follows(Init, Begin, begun) && Follows(begun, RefreshOne, OneCached)
    ensures Follows(OneCached, CollectAll, collected) && Follows(collected, ApplyAndCommit, OneDelivered)
  {
    begun := Init.(poll := Begun(0));
    var txids, replies := [1], RefreshOne.replies;
    assert txids[..0] == [] && replies[..0] == [] && Retain(map[], txids) == map[];
    assert LookUpAll(map[], txids[..0], replies[..0]) == (true, map[]);
    assert RefreshCache(map[], txids, replies) == (true, map[1 := FIRST]);
    collected := OneCached.(txs := map[1 := 10], poll := Collected(0, map[1 := 10], [], Some(10)));
    assert Emission(OneCached.entries, map[], AllFound, Selection(0, 0, true)) == map[1 := 10];
    assert collected == Apply(OneCached, CollectAll);
  }

  lemma SecondRefresh() returns (idle: State, begun: State)
    ensures Follows(OneDelivered, Publish, idle) && Follows(idle, Begin, begun)
    ensures Follows(begun, RefreshBoth, BothCached)
  {
    idle := OneDelivered.(poll := NoPoll);
    begun := idle.(poll := Begun(0));
    var txids, replies := [1, 2], RefreshBoth.replies;
    assert txids[..1] == [1] && txids[..1][..0] == [] && replies[..1][..0] == [];
    assert Retain(begun.entries, txids) == begun.entries;
    assert LookUpAll(begun.entries, txids[..1], replies[..1]) == (true, begun.entries);
    assert RefreshCache(begun.entries, txids, replies) == (true, BothCached.entries);
  }

  lemma SecondCollect() returns (collected: State)
    ensures Follows(BothCached, CollectAll, collected) && Follows(collected, ApplyAndCommit, OneMissed)
  {
    collected := BothCached.(poll := Collected(0, map[1 := 10], [], Some(10)));
    assert Emission(BothCached.entries, BothCached.txs, AllFound, Selection(0, 10, false)) == map[1 := 10];
    assert 1 in BothCached.entries && BothCached.entries[1].time == 10;
    assert collected == Apply(BothCached, CollectAll);
  }

  /** An arrival dated below the watermark is missing from the wallet after a successful sync. */
  lemma LateArrivalIsMissed() returns (states: seq<State>, steps: seq<Step>)
    ensures IsRun(states, steps) && SnapshotsAvailable(states, steps)
    ensures states[|states| - 1] == OneMissed && 2 in OneMissed.entries && 2 !in OneMissed.delivered
  {
    states, steps := [Init], [];
    var begun1, collected1 := FirstPoll();
    states, steps := Extend(states, steps, Begin, begun1);
    states, steps := Extend(states, steps, RefreshOne, OneCached);
    states, steps := Extend(states, steps, CollectAll, collected1);
    states, steps := Extend(states, steps, ApplyAndCommit, OneDelivered);
    var idle, begun2 := SecondRefresh();
    var collected2 := SecondCollect();
    states, steps := Extend(states, steps, Publish, idle);
    states, steps := Extend(states, steps, Begin, begun2);
    states, steps := Extend(states, steps, RefreshBoth, BothCached);
    states, steps := Extend(states, steps, CollectAll, collected2);
    states, steps := Extend(states, steps, ApplyAndCommit, OneMissed);
  }

  lemma Extend(states: seq<State>, steps: seq<Step>, step: Step, s': State)
    returns (longer: seq<State>, more: seq<Step>)
    requires IsRun(states, steps) && Follows(states[|states| - 1], step, s')
    requires SnapshotsAvailable(states, steps)
    requires step.Collect? ==> step.raw == AllFound
    ensures IsRun(longer, more) && longer[|longer| - 1] == s' && SnapshotsAvailable(longer, more)
  {
    longer, more := states + [s'], steps + [step];
  }

  const RefreshTwo := Refresh(Some([1, 2]), [EntryFound(LATE), EntryFound(FIRST)])
  const CollectSecond := Collect(FirstMissing, 0, [], None, 10)
  const TwoCached := State(0, map[1 := LATE, 2 := FIRST], map[], NEVER_POLLED, 0, Refreshed(0, true), {}, {})
  const FirstMissed := State(10, map[1 := LATE, 2 := FIRST], map[2 := 10], 0, 0, Completed(0), {2}, {1})

  lemma RefreshBeforeMiss() returns (begun: State)
    ensures begun.entries == map[] && Follows(Init, Begin, begun) && Follows(begun, RefreshTwo, TwoCached)
  {
    begun := Init.(poll := Begun(0));
    var txids, replies := [1, 2], RefreshTwo.replies;
    assert txids[..1] == [1] && txids[..1][..0] == [] && replies[..1][..0] == [] && Retain(map[], txids) == map[];
    assert LookUpAll(map[], txids[..1], replies[..1]) == (true, map[1 := LATE]);
    assert RefreshCache(map[], txids, replies) == (true, TwoCached.entries);
  }

  lemma OnlySecondEmitted()
    ensures Emission(TwoCached.entries, map[], FirstMissing, Selection(0, 0, true)) == map[2 := 10]
    ensures Unavailable(TwoCached.entries, map[], FirstMissing, Selection(0, 0, true)) == {1}
    ensures Enabled(TwoCached, CollectSecond)
  {
    assert 1 in TwoCached.entries && FirstMissing(1).RawMissing? && FirstMissing(2).RawFound?;
    assert 2 in TwoCached.entries && TwoCached.entries[2].time == 10;
    assert !CollectFailsFor(TwoCached, FirstMissing, 0) && IsLatestTime(TwoCached.entries, 0, 10);
  }

  lemma CollectWithoutFirst() returns (collected: State)
    ensures Follows(TwoCached, CollectSecond, collected) && Follows(collected, ApplyAndCommit, FirstMissed)
  {
    OnlySecondEmitted();
    collected := Apply(TwoCached, CollectSecond);
    assert collected.txs == map[2 := 10];
    assert collected.excused == {1};
    assert collected.poll == Collected(0, map[2 := 10], [], Some(10));
    assert collected.delivered - Ids([]) + collected.poll.emitted.Keys == {2};
  }

  /** So is a transaction bitcoind could not produce while another one moved the watermark. */
  lemma UnavailableTransactionIsMissed() returns (states: seq<State>, steps: seq<Step>)
    ensures IsRun(states, steps) && ArrivalsInOrder(states, steps)
    ensures states[|states| - 1] == FirstMissed && Stuck(FirstMissed, 1, 0)
  {
    var begun := RefreshBeforeMiss();
    var collected := CollectWithoutFirst();
    states := [Init, begun, TwoCached, collected, FirstMissed];
    steps := [Begin, RefreshTwo, CollectSecond, ApplyAndCommit];
    assert forall j :: 0 <= j <= 1 ==> !states[j].poll.Collected?;
  }
}
