/**
 The shared Electrum connection: reconnect tasks that replace a failed client, and
 broadcasts that retry once on the replacement, all running concurrently.

 A client is identified by a number that is never used twice; the source compares
 clients by pointer while holding a reference to the failed one, so that its address
 cannot be taken by a new client. Time is a clock that any step may find advanced.
 */
module ElectrumClients {
  import opened ElectrumErrors

  type Client = nat
  type Tid = nat

  datatype ReconnectAt =
    | FirstCheck
    | Connecting
    | Swapping(replacement: Client)
    | LastCheck
    | Reported(result: bool)

  /** A `reconnect_main_client` task, given the client that failed. */
  datatype Reconnect = Reconnect(failed: Client, at: ReconnectAt)

  /** How long to wait for an answer, and when that was worked out; the timer starts later. */
  datatype Wait = Wait(since: nat, timeout: nat)

  /** One `transaction_broadcast` call: where it went, when, and how long it is waited for. */
  datatype Sent = Sent(client: Client, at: nat, wait: Wait)

  datatype BroadcastAt =
    | Starting(wait: Wait)
    | FirstAttempt
    | AwaitReconnect(task: Tid)
    | Retry
    | Retrying(wait: Wait)
    | SecondAttempt
    | Finished(response: BroadcastResponse)

  /** A `broadcast_with_timeout` call and what it has submitted and heard so far. */
  datatype Broadcast = Broadcast(txid: Txid, deadline: nat, at: BroadcastAt, sent: seq<Sent>, heard: seq<Submission>)

  datatype State = State(
    current: Client,
    unused: Client,
    reconnects: map<Tid, Reconnect>,
    broadcasts: map<Tid, Broadcast>,
    now: nat)

  datatype Step =
    | Tick(time: nat)
    | Launch(t: Tid, failed: Client)
    | Check(t: Tid)
    | Connect(t: Tid, ok: bool)
    | Swap(t: Tid)
    | Broadcasts(b: Tid, txid: Txid, timeout: nat)
    | Submit(b: Tid)
    | Hear(b: Tid, submission: Submission, t: Tid)
    | HearReconnect(b: Tid)
    | GiveUpReconnect(b: Tid)  // the deadline passed, or the task was lost
    | WorkOutRemaining(b: Tid)

  const Init := State(0, 1, map[], map[], 0)

  function LastSent(b: Broadcast): (r: Sent)
    requires b.sent != []
  {
    b.sent[|b.sent| - 1]
  }

  /** Only once the timeout of a submission has passed is there no answer to it. */
  predicate InTime(b: Broadcast, submission: Submission, now: nat)
    requires b.sent != []
  {
    submission.NoAnswer? ==> LastSent(b).at + LastSent(b).wait.timeout <= now
  }

  predicate Enabled(s: State, step: Step) {
    match step
    case Tick(time) => s.now <= time
    case Launch(t, failed) => t !in s.reconnects && failed <= s.current
    case Check(t) => t in s.reconnects && (s.reconnects[t].at.FirstCheck? || s.reconnects[t].at.LastCheck?)
    case Connect(t, _) => t in s.reconnects && s.reconnects[t].at.Connecting?
    case Swap(t) => t in s.reconnects && s.reconnects[t].at.Swapping?
    case Broadcasts(b, _, _) => b !in s.broadcasts
    case Submit(b) => b in s.broadcasts && (s.broadcasts[b].at.Starting? || s.broadcasts[b].at.Retrying?)
    case Hear(b, submission, t) =>
      && b in s.broadcasts && t !in s.reconnects
      && (s.broadcasts[b].at.FirstAttempt? || s.broadcasts[b].at.SecondAttempt?)
      && s.broadcasts[b].sent != [] && InTime(s.broadcasts[b], submission, s.now)
    case HearReconnect(b) =>
      && b in s.broadcasts && s.broadcasts[b].at.AwaitReconnect?
      && s.broadcasts[b].at.task in s.reconnects && s.reconnects[s.broadcasts[b].at.task].at.Reported?
    case GiveUpReconnect(b) => b in s.broadcasts && s.broadcasts[b].at.AwaitReconnect?
    case WorkOutRemaining(b) => b in s.broadcasts && s.broadcasts[b].at.Retry?
  }

  function WithReconnect(s: State, t: Tid, at: ReconnectAt): (r: State)
    requires t in s.reconnects
  {
    s.(reconnects := s.reconnects[t := s.reconnects[t].(at := at)])
  }

  function AfterCheck(s: State, t: Tid): (r: State)
    requires t in s.reconnects
  {
    var task := s.reconnects[t];
    var replaced := s.current != task.failed;
    WithReconnect(s, t, if task.at.LastCheck? || replaced then Reported(replaced) else Connecting)
  }

  function AfterConnect(s: State, t: Tid, ok: bool): (r: State)
    requires t in s.reconnects
  {
    if ok then WithReconnect(s, t, Swapping(s.unused)).(unused := s.unused + 1)
    else WithReconnect(s, t, LastCheck)
  }

  function AfterSwap(s: State, t: Tid): (r: State)
    requires t in s.reconnects && s.reconnects[t].at.Swapping?
  {
    WithReconnect(s, t, Reported(true)).(
      current := if s.current == s.reconnects[t].failed then s.reconnects[t].at.replacement else s.current)
  }

  function WithBroadcast(s: State, b: Tid, at: BroadcastAt): (r: State)
    requires b in s.broadcasts
  {
    s.(broadcasts := s.broadcasts[b := s.broadcasts[b].(at := at)])
  }

  /** A broadcast that is told how its submission ended; `t` is the task it starts if that broke the connection. */
  function Heard(bc: Broadcast, submission: Submission, t: Tid): (r: Broadcast) {
    bc.(heard := bc.heard + [submission],
        at := match ReadSubmission(bc.txid, submission)
              case Answered(response) => Finished(response)
              case TimedOutAttempt => Finished(Unknown)
              case ConnectionBroken => if bc.at.FirstAttempt? then AwaitReconnect(t) else Finished(Unknown))
  }

  function AfterHear(s: State, b: Tid, submission: Submission, t: Tid): (r: State)
    requires b in s.broadcasts && s.broadcasts[b].sent != []
  {
    var bc := Heard(s.broadcasts[b], submission, t);
    var told := s.(broadcasts := s.broadcasts[b := bc]);
    if bc.at.AwaitReconnect?
    then told.(reconnects := s.reconnects[t := Reconnect(LastSent(bc).client, FirstCheck)])
    else told
  }

  function AfterSubmit(s: State, b: Tid): (r: State)
    requires Enabled(s, Submit(b))
  {
    var bc := s.broadcasts[b];
    s.(broadcasts := s.broadcasts[b := bc.(
         at := if bc.at.Starting? then FirstAttempt else SecondAttempt,
         sent := bc.sent + [Sent(s.current, s.now, bc.at.wait)])])
  }

  function AfterWorkingOut(s: State, b: Tid): (r: State)
    requires b in s.broadcasts
  {
    var deadline := s.broadcasts[b].deadline;
    WithBroadcast(s, b, if deadline <= s.now then Finished(Unknown) else Retrying(Wait(s.now, deadline - s.now)))
  }

  function Apply(s: State, step: Step): (r: State)
    requires Enabled(s, step)
  {
    match step
    case Tick(time) => s.(now := time)
    case Launch(t, failed) => s.(reconnects := s.reconnects[t := Reconnect(failed, FirstCheck)])
    case Check(t) => AfterCheck(s, t)
    case Connect(t, ok) => AfterConnect(s, t, ok)
    case Swap(t) => AfterSwap(s, t)
    case Broadcasts(b, txid, timeout) =>
      s.(broadcasts := s.broadcasts[b := Broadcast(txid, s.now + timeout, Starting(Wait(s.now, timeout)), [], [])])
    case Submit(b) => AfterSubmit(s, b)
    case Hear(b, submission, t) => AfterHear(s, b, submission, t)
    case HearReconnect(b) =>
      WithBroadcast(s, b, if s.reconnects[s.broadcasts[b].at.task].at.result then Retry else Finished(Unknown))
    case GiveUpReconnect(b) => WithBroadcast(s, b, Finished(Unknown))
    case WorkOutRemaining(b) => AfterWorkingOut(s, b)
  }

  ghost predicate Follows(s: State, step: Step, s': State) {
    Enabled(s, step) && s' == Apply(s, step)
  }

  ghost predicate IsRun(states: seq<State>, steps: seq<Step>) {
    && |states| == |steps| + 1
    && states[0] == Init
    && forall i :: 0 <= i < |steps| ==> Follows(states[i], steps[i], states[i + 1])
  }

  // ---- Invariant ----

  /** A replacement is newer than what it replaces, and a task that reported true was right. */
  predicate ReconnectFits(s: State, r: Reconnect) {
    && r.failed <= s.current
    && (r.at.Swapping? ==> r.failed < r.at.replacement < s.unused)
    && (r.at == Reported(true) ==> r.failed < s.current)
  }

  predicate Broke(bc: Broadcast) {
    bc.heard != [] && ReadSubmission(bc.txid, bc.heard[0]).ConnectionBroken?
  }

  /** What a finished broadcast reports: the answer to its last submission, if there is one. */
  function Verdict(bc: Broadcast): (r: BroadcastResponse) {
    if |bc.heard| == |bc.sent| && bc.heard != [] &&
       ReadSubmission(bc.txid, bc.heard[|bc.heard| - 1]).Answered?
    then ReadSubmission(bc.txid, bc.heard[|bc.heard| - 1]).response
    else Unknown
  }

  /** What is left of the deadline at the moment the wait is worked out. */
  predicate WaitFits(bc: Broadcast, wait: Wait, at: nat) {
    wait.since <= at && wait.since + wait.timeout == bc.deadline
  }

  /**
   One submission until the connection breaks, then at most one more, on a newer client;
   both are waited for within the one deadline.
   */
  predicate SubmissionsFit(s: State, bc: Broadcast) {
    && |bc.sent| <= 2 && |bc.heard| <= |bc.sent|
    && (bc.sent != [] ==> bc.sent[0].client <= s.current && WaitFits(bc, bc.sent[0].wait, bc.sent[0].at))
    && (|bc.sent| == 2 ==>
          && Broke(bc)
          && bc.sent[0].client < bc.sent[1].client <= s.current
          && WaitFits(bc, bc.sent[1].wait, bc.sent[1].at) && bc.sent[1].wait.since < bc.deadline)
  }

  predicate ProgressFits(s: State, bc: Broadcast) {
    match bc.at
    case Starting(wait) => bc.sent == [] && bc.heard == [] && WaitFits(bc, wait, s.now)
    case FirstAttempt => |bc.sent| == 1 && bc.heard == []
    case AwaitReconnect(t) =>
      && |bc.sent| == 1 && |bc.heard| == 1 && Broke(bc)
      && t in s.reconnects && s.reconnects[t].failed == bc.sent[0].client
    case Retry => |bc.sent| == 1 && |bc.heard| == 1 && Broke(bc) && bc.sent[0].client < s.current
    case Retrying(wait) =>
      && |bc.sent| == 1 && |bc.heard| == 1 && Broke(bc) && bc.sent[0].client < s.current
      && WaitFits(bc, wait, s.now) && wait.since < bc.deadline
    case SecondAttempt => |bc.sent| == 2 && |bc.heard| == 1
    case Finished(response) => bc.sent != [] && response == Verdict(bc)
  }

  predicate BroadcastFits(s: State, bc: Broadcast) {
    SubmissionsFit(s, bc) && ProgressFits(s, bc)
  }

  ghost predicate ReconnectsFit(s: State) {
    s.current < s.unused && forall t :: t in s.reconnects ==> ReconnectFits(s, s.reconnects[t])
  }

  ghost predicate Inv(s: State) {
    ReconnectsFit(s) && forall b :: b in s.broadcasts ==> BroadcastFits(s, s.broadcasts[b])
  }

  /** Clients only get newer, time goes on, and a task keeps the client it was given. */
  ghost predicate Later(s: State, s': State) {
    && s.current <= s'.current && s.now <= s'.now
    && (forall t :: t in s.reconnects ==> t in s'.reconnects && s'.reconnects[t].failed == s.reconnects[t].failed)
  }

  lemma FitsLater(s: State, s': State, bc: Broadcast)
    requires BroadcastFits(s, bc) && Later(s, s')
    ensures BroadcastFits(s', bc)
  {
  }

  lemma StepKeepsReconnects(s: State, step: Step)
    requires Inv(s) && Enabled(s, step)
    ensures ReconnectsFit(Apply(s, step)) && Later(s, Apply(s, step))
  {
    if step.Hear? {
      assert BroadcastFits(s, s.broadcasts[step.b]);
    }
  }

  lemma HeardFits(s: State, s': State, bc: Broadcast, submission: Submission, t: Tid)
    requires BroadcastFits(s, bc) && (bc.at.FirstAttempt? || bc.at.SecondAttempt?) && Later(s, s')
    requires var after := Heard(bc, submission, t);
      after.at.AwaitReconnect? ==> t in s'.reconnects && s'.reconnects[t].failed == LastSent(bc).client
    ensures BroadcastFits(s', Heard(bc, submission, t))
  {
    var after := Heard(bc, submission, t);
    assert after.heard[|bc.heard|] == submission;
    assert bc.at.SecondAttempt? ==> after.heard[0] == bc.heard[0];
  }

  lemma SubmittedFits(s: State, b: Tid)
    requires Enabled(s, Submit(b)) && BroadcastFits(s, s.broadcasts[b])
    ensures BroadcastFits(s, AfterSubmit(s, b).broadcasts[b])
  {
    var before, after := s.broadcasts[b], AfterSubmit(s, b).broadcasts[b];
    assert after.heard == before.heard && after.sent == before.sent + [Sent(s.current, s.now, before.at.wait)];
  }

  lemma BroadcastStepFits(s: State, step: Step)
    requires Inv(s) && Enabled(s, step)
    requires step.Broadcasts? || step.HearReconnect? || step.GiveUpReconnect? || step.WorkOutRemaining?
    ensures BroadcastFits(Apply(s, step), Apply(s, step).broadcasts[step.b])
  {
    if !step.Broadcasts? {
      assert BroadcastFits(s, s.broadcasts[step.b]);
    }
  }

  lemma StepKeepsInv(s: State, step: Step)
    requires Inv(s) && Enabled(s, step)
    ensures Inv(Apply(s, step))
  {
    var s' := Apply(s, step);
    StepKeepsReconnects(s, step);
    forall b | b in s'.broadcasts ensures BroadcastFits(s', s'.broadcasts[b]) {
      if b in s.broadcasts && s'.broadcasts[b] == s.broadcasts[b] {
        FitsLater(s, s', s.broadcasts[b]);
      } else if step.Hear? {
        HeardFits(s, s', s.broadcasts[b], step.submission, step.t);
      } else if step.Submit? {
        SubmittedFits(s, b);
        FitsLater(s, s', s'.broadcasts[b]);
      } else {
        BroadcastStepFits(s, step);
      }
    }
  }

  lemma {:induction false} RunKeepsInv(states: seq<State>, steps: seq<Step>, i: nat)
    requires IsRun(states, steps) && i < |states|
    ensures Inv(states[i])
  {
    if i > 0 {
      RunKeepsInv(states, steps, i - 1);
      assert Follows(states[i - 1], steps[i - 1], states[i]);
      StepKeepsInv(states[i - 1], steps[i - 1]);
    }
  }

  // ---- What holds over whole runs ----

  /** Only the swap of a task started for the current client changes the client, to a newer one. */
  lemma ReplacedOnlyByItsOwnTask(states: seq<State>, steps: seq<Step>, i: nat)
    requires IsRun(states, steps) && i < |steps|
    ensures states[i].current <= states[i + 1].current
    ensures states[i + 1].current != states[i].current ==>
      steps[i].Swap? && steps[i].t in states[i].reconnects
      && states[i].reconnects[steps[i].t].failed == states[i].current
  {
    RunKeepsInv(states, steps, i);
    assert Follows(states[i], steps[i], states[i + 1]);
  }

  lemma {:induction false} ClientsOnlyGetNewer(states: seq<State>, steps: seq<Step>, i: nat, j: nat)
    requires IsRun(states, steps) && i <= j < |states|
    ensures states[i].current <= states[j].current
  {
    if i < j {
      ClientsOnlyGetNewer(states, steps, i, j - 1);
      ReplacedOnlyByItsOwnTask(states, steps, j - 1);
    }
  }

  /** A failed client is replaced at most once, however many tasks were started for it. */
  lemma ReplacedAtMostOnce(states: seq<State>, steps: seq<Step>, i: nat, j: nat)
    requires IsRun(states, steps) && i < j < |steps|
    requires states[i + 1].current != states[i].current && states[j + 1].current != states[j].current
    ensures states[i].current != states[j].current
  {
    ReplacedOnlyByItsOwnTask(states, steps, i);
    ClientsOnlyGetNewer(states, steps, i + 1, j);
  }

  lemma {:induction false} ReportStands(states: seq<State>, steps: seq<Step>, i: nat, j: nat, t: Tid)
    requires IsRun(states, steps) && i <= j < |states|
    requires t in states[i].reconnects && states[i].reconnects[t].at.Reported?
    ensures t in states[j].reconnects && states[j].reconnects[t] == states[i].reconnects[t]
  {
    if i < j {
      ReportStands(states, steps, i, j - 1, t);
      assert Follows(states[j - 1], steps[j - 1], states[j]);
    }
  }

  /** What a task reports is whether the client current at that moment differs from its own. */
  lemma ReportIsRight(states: seq<State>, steps: seq<Step>, i: nat, t: Tid)
    requires IsRun(states, steps) && i < |steps| && t in states[i].reconnects && t in states[i + 1].reconnects
    requires !states[i].reconnects[t].at.Reported? && states[i + 1].reconnects[t].at.Reported?
    ensures states[i + 1].reconnects[t].at.result <==> states[i + 1].current != states[i + 1].reconnects[t].failed
  {
    RunKeepsInv(states, steps, i);
    assert Follows(states[i], steps[i], states[i + 1]);
  }

  /** A task that reported true was given a client that is not, and never again becomes, current. */
  lemma ReplacedForGood(states: seq<State>, steps: seq<Step>, i: nat, j: nat, t: Tid)
    requires IsRun(states, steps) && i <= j < |states|
    requires t in states[i].reconnects && states[i].reconnects[t].at == Reported(true)
    ensures states[j].current != states[i].reconnects[t].failed
  {
    ReportStands(states, steps, i, j, t);
    RunKeepsInv(states, steps, j);
  }

  /**
   The contract of a finished broadcast, in any run: one or two submissions, the second
   only after the first broke its connection, on another client and with time left. Each is
   waited for as long as was left of the one deadline when its wait was worked out, so it
   overruns the deadline by no more than it took from there to start the timer. The
   response is Accepted exactly if the last submission returned the expected txid, Unknown
   if it was not answered, and Rejected only with a server's own refusal.
   */
  lemma BroadcastContract(states: seq<State>, steps: seq<Step>, i: nat, b: Tid)
    requires IsRun(states, steps) && i < |states| && b in states[i].broadcasts && states[i].broadcasts[b].at.Finished?
    ensures var bc := states[i].broadcasts[b];
      && 1 <= |bc.sent| <= 2
      && (|bc.sent| == 2 ==>
            bc.heard != [] && ReadSubmission(bc.txid, bc.heard[0]).ConnectionBroken?
            && bc.sent[0].client != bc.sent[1].client && bc.sent[1].wait.since < bc.deadline)
      && (forall k :: 0 <= k < |bc.sent| ==>
            var sent := bc.sent[k]; sent.wait.since <= sent.at && sent.wait.since + sent.wait.timeout == bc.deadline)
      && (bc.at.response.Accepted? <==> |bc.heard| == |bc.sent| && bc.heard[|bc.heard| - 1] == Returned(bc.txid))
      && (|bc.heard| < |bc.sent| || bc.heard[|bc.heard| - 1].NoAnswer? ==> bc.at.response.Unknown?)
      && (bc.at.response.Rejected? ==>
            && |bc.heard| == |bc.sent| && bc.heard[|bc.heard| - 1].Failed? && bc.heard[|bc.heard| - 1].error.Protocol?
            && ClassifyReply(bc.heard[|bc.heard| - 1].error.reply) == bc.at.response)
  {
    RunKeepsInv(states, steps, i);
    var bc := states[i].broadcasts[b];
    assert BroadcastFits(states[i], bc);
  }
}
