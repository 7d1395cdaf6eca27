/**
 The single-flight registries: `WalletSyncStatus`, which admits one sync at a time, and
 the connection manager's pending connections, which admit one attempt per peer. The
 first caller leads; later callers subscribe to its result over a channel.

 A receiver is a number and its inbox the results sent to it and not yet read.
 */
module SingleFlight {
  datatype Option<+T> = None | Some(value: T)

  datatype Error = WalletOperationFailed | InvalidSocketAddress | ConnectionFailed | OtherError(code: nat)

  datatype Outcome = Ok | Err(error: Error)

  type Rx = nat

  /** What is registered under each key, as the receivers that subscribed to it. */
  datatype Registry<K> = Registry(pending: map<K, seq<Rx>>, inbox: map<Rx, seq<Outcome>>, unused: Rx)

  predicate Distinct(receivers: seq<Rx>) {
    forall i, j :: 0 <= i < j < |receivers| ==> receivers[i] != receivers[j]
  }

  ghost predicate WellFormed<K(!new)>(r: Registry<K>) {
    && (forall x :: x in r.inbox ==> x < r.unused)
    && (forall k, x :: k in r.pending && x in r.pending[k] ==> x in r.inbox)
    && (forall k :: k in r.pending ==> Distinct(r.pending[k]))
    && (forall k, l, x :: k in r.pending && l in r.pending && x in r.pending[k] && x in r.pending[l] ==> k == l)
  }

  /** The registry after a caller registered under `key`, and its receiver if it was not the first. */
  function Register<K>(r: Registry<K>, key: K): (result: (Registry<K>, Option<Rx>)) {
    if key in r.pending then
      (Registry(r.pending[key := r.pending[key] + [r.unused]], r.inbox[r.unused := []], r.unused + 1),
       Some(r.unused))
    else (r.(pending := r.pending[key := []]), None)
  }

  /** Every one of `receivers` is sent `outcome` once. */
  function Sent(inbox: map<Rx, seq<Outcome>>, receivers: seq<Rx>, outcome: Outcome): (r: map<Rx, seq<Outcome>>) {
    map x | x in inbox :: if x in receivers then inbox[x] + [outcome] else inbox[x]
  }

  /** The registry after the result under `key` was published. */
  function Publish<K>(r: Registry<K>, key: K, outcome: Outcome): (result: Registry<K>) {
    if key in r.pending
    then Registry(r.pending - {key}, Sent(r.inbox, r.pending[key], outcome), r.unused)
    else r
  }

  lemma RegisterKeepsWellFormed<K(!new)>(r: Registry<K>, key: K)
    requires WellFormed(r)
    ensures WellFormed(Register(r, key).0)
  {
    if key in r.pending {
      var subscribers := r.pending[key];
      assert r.unused !in r.inbox;
      assert forall l, x :: l in r.pending && x in r.pending[l] ==> x != r.unused;
      assert forall i :: 0 <= i < |subscribers| ==> subscribers[i] in subscribers;
      var after := subscribers + [r.unused];
      assert Distinct(after);
      assert forall x :: x in after <==> x in subscribers || x == r.unused;
    }
  }

  lemma PublishKeepsWellFormed<K(!new)>(r: Registry<K>, key: K, outcome: Outcome)
    requires WellFormed(r)
    ensures WellFormed(Publish(r, key, outcome))
  {
  }

  lemma SentOneMore(inbox: map<Rx, seq<Outcome>>, receivers: seq<Rx>, i: nat, outcome: Outcome)
    requires i < |receivers| && receivers[i] in inbox && Distinct(receivers)
    ensures receivers[i] in Sent(inbox, receivers[..i], outcome)
    ensures Sent(inbox, receivers[..i + 1], outcome) ==
      var part := Sent(inbox, receivers[..i], outcome);
      part[receivers[i] := part[receivers[i]] + [outcome]]
  {
    assert receivers[..i + 1] == receivers[..i] + [receivers[i]];
    assert receivers[i] !in receivers[..i];
  }

  // ---- The two registries ----

  /** `ConnectionManager::pending_connections`, by node id. */
  class PendingConnections {
    var pending: map<nat, seq<Rx>>
    var inbox: map<Rx, seq<Outcome>>
    var unused: Rx

    ghost function View(): (r: Registry<nat>)
      reads this
    {
      Registry(pending, inbox, unused)
    }

    constructor ()
      ensures View() == Registry(map[], map[], 0) && WellFormed(View())
    {
      pending, inbox, unused := map[], map[], 0;
    }

    method RegisterOrSubscribe(nodeId: nat) returns (rx: Option<Rx>)
      requires WellFormed(View())
      modifies this
      ensures (View(), rx) == Register(old(View()), nodeId) && WellFormed(View())
    {
      RegisterKeepsWellFormed(View(), nodeId);
      if nodeId in pending {
        rx := Some(unused);
        inbox := inbox[unused := []];
        pending := pending[nodeId := pending[nodeId] + [unused]];
        unused := unused + 1;
      } else {
        pending := pending[nodeId := []];
        rx := None;
      }
    }

    /** The loop over the senders of one node id. */
    method SendToAll(senders: seq<Rx>, outcome: Outcome)
      requires Distinct(senders) && forall x :: x in senders ==> x in inbox
      modifies this`inbox
      ensures inbox == Sent(old(inbox), senders, outcome)
    {
      for i := 0 to |senders|
        invariant inbox == Sent(old(inbox), senders[..i], outcome)
      {
        SentOneMore(old(inbox), senders, i, outcome);
        inbox := inbox[senders[i] := inbox[senders[i]] + [outcome]];
      }
      assert senders[..|senders|] == senders;
    }

    method PropagateResult(nodeId: nat, outcome: Outcome)
      requires WellFormed(View())
      modifies this
      ensures View() == Publish(old(View()), nodeId, outcome) && WellFormed(View())
    {
      PublishKeepsWellFormed(View(), nodeId, outcome);
      if nodeId in pending {
        var senders := pending[nodeId];
        pending := pending - {nodeId};
        SendToAll(senders, outcome);
      }
    }

    /**
     `do_connect_peer` from its registration on, for the caller that leads: every exit
     publishes what it returns. `resolved` says whether the address gave a socket
     address, `closed` whether the attempt failed or its connection closed again before
     the peer showed up.
     */
    method LeadConnect(nodeId: nat, resolved: bool, closed: bool) returns (outcome: Outcome)
      requires WellFormed(View()) && nodeId in pending
      modifies this
      ensures View() == Publish(old(View()), nodeId, outcome) && WellFormed(View())
      ensures outcome.Ok? <==> resolved && !closed
      ensures outcome == Err(InvalidSocketAddress) <==> !resolved
      ensures nodeId !in pending
    {
      if !resolved {
        outcome := Err(InvalidSocketAddress);
        PropagateResult(nodeId, outcome);
        return;
      }
      outcome := if closed then Err(ConnectionFailed) else Ok;
      PropagateResult(nodeId, outcome);
    }
  }

  datatype SyncStatus = Completed | InProgress(subscribers: seq<Rx>)

  /** `WalletSyncStatus` and its broadcast channel; `published` is every result ever published. */
  class WalletSync {
    var status: SyncStatus
    var inbox: map<Rx, seq<Outcome>>
    var unused: Rx
    ghost var published: seq<Outcome>

    /** The status is a registry with one key. */
    ghost function View(): (r: Registry<()>)
      reads this
    {
      Registry(if status.InProgress? then map[() := status.subscribers] else map[], inbox, unused)
    }

    constructor ()
      ensures View() == Registry(map[], map[], 0) && WellFormed(View()) && published == []
    {
      status, inbox, unused, published := Completed, map[], 0, [];
    }

    method RegisterOrSubscribe() returns (rx: Option<Rx>)
      requires WellFormed(View())
      modifies this
      ensures (View(), rx) == Register(old(View()), ()) && WellFormed(View())
      ensures published == old(published)
    {
      RegisterKeepsWellFormed(View(), ());
      match status {
        case Completed =>
          status := InProgress([]);
          rx := None;
        case InProgress(subscribers) =>
          rx := Some(unused);
          inbox := inbox[unused := []];
          status := InProgress(subscribers + [unused]);
          unused := unused + 1;
      }
      assert View().pending == Register(old(View()), ()).0.pending;
    }

    method PropagateResult(outcome: Outcome)
      requires WellFormed(View())
      modifies this
      ensures View() == Publish(old(View()), (), outcome) && WellFormed(View())
      ensures status.Completed?
      ensures published == if old(status).InProgress? then old(published) + [outcome] else old(published)
    {
      PublishKeepsWellFormed(View(), (), outcome);
      if status.InProgress? {
        inbox := Sent(inbox, status.subscribers, outcome);
        status := Completed;
        published := published + [outcome];
      }
      assert View().pending == Publish(old(View()), (), outcome).pending;
    }

    /**
     The retry loop of `poll_and_update_listeners`, for the caller that leads. The k-th
     poll ends as `polls(k)` says, and `generations(k)` is the account generation read
     under the account lock after it.
     */
    method PollAsLeader(polls: nat -> PollOutcome, generations: nat -> nat) returns (outcome: Outcome, count: nat)
      requires WellFormed(View()) && status.InProgress?
      modifies this
      ensures View() == Publish(old(View()), (), outcome) && WellFormed(View())
      ensures status.Completed? && published == old(published) + [outcome]
      ensures 1 <= count <= MAX_ACCOUNT_SET_CHANGE_RETRIES + 1
      ensures forall k :: 0 <= k < count - 1 ==> AccountsMoved(polls(k), generations(k))
      ensures outcome.Ok? ==> polls(count - 1) == PollComplete(generations(count - 1))
      ensures outcome.Err? && !AccountsMoved(polls(count - 1), generations(count - 1)) ==>
        polls(count - 1) == PollFailed(outcome.error)
      ensures AccountsMoved(polls(count - 1), generations(count - 1)) ==>
        count == MAX_ACCOUNT_SET_CHANGE_RETRIES + 1 && outcome == Err(WalletOperationFailed)
    {
      var retries := 0;
      while true
        invariant retries <= MAX_ACCOUNT_SET_CHANGE_RETRIES
        invariant forall k :: 0 <= k < retries ==> AccountsMoved(polls(k), generations(k))
        invariant View() == old(View()) && published == old(published)
        decreases MAX_ACCOUNT_SET_CHANGE_RETRIES - retries
      {
        count := retries + 1;
        match polls(retries) {
          case PollAccountSetChanged =>
          case PollComplete(generation) =>
            if generations(retries) == generation {
              outcome := Ok;
              PropagateResult(outcome);
              return;
            }
          case PollFailed(error) =>
            outcome := Err(error);
            PropagateResult(outcome);
            return;
        }
        if retries == MAX_ACCOUNT_SET_CHANGE_RETRIES {
          outcome := Err(WalletOperationFailed);
          PropagateResult(outcome);
          return;
        }
        retries := retries + 1;
      }
    }
  }

  const MAX_ACCOUNT_SET_CHANGE_RETRIES := 3

  /** How `poll_and_update_listeners_inner` ends. */
  datatype PollOutcome = PollFailed(error: Error) | PollAccountSetChanged | PollComplete(generation: nat)

  /** The account set moved while the poll ran, or between its end and the check under the lock. */
  predicate AccountsMoved(poll: PollOutcome, generation: nat) {
    poll.PollAccountSetChanged? || (poll.PollComplete? && poll.generation != generation)
  }
}
