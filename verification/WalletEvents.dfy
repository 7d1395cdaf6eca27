/**
 Forwarding wallet events to the user. Every loaded account reports its own events, so
 that one transaction may be reported several times; the user is told once per kind of
 event and transaction, and of a confirmation only once all tracked wallets agree on it.
 */
module WalletEvents {
  datatype Option<+T> = None | Some(value: T)

  type Txid = nat
  type Details = nat

  datatype Block = Block(hash: nat, height: nat, time: nat)

  datatype WalletEvent =
    | TxConfirmed(txid: Txid)
    | TxUnconfirmed(txid: Txid, wasConfirmed: bool)
    | TxReplaced(txid: Txid, conflicts: seq<(nat, Txid)>)
    | ChainTipChanged
    | OtherWalletEvent

  datatype Event =
    | Confirmed(txid: Txid, block: Block, details: Details)
    | Reorged(txid: Txid)
    | Received(txid: Txid, details: Details)
    | Replaced(txid: Txid, conflicts: seq<Txid>)

  /** The aggregate wallet: which transactions it has confirmed and where, and their details. */
  datatype Wallet = Wallet(confirmations: map<Txid, Block>, details: map<Txid, Details>)

  /** The details given for a transaction the wallet does not know. */
  const NO_DETAILS: Details := 0

  datatype Kind = ConfirmedKind | ReorgedKind | ReceivedKind | ReplacedKind

  function Tag(e: Event): (r: (Kind, Txid)) {
    match e
    case Confirmed(txid, _, _) => (ConfirmedKind, txid)
    case Reorged(txid) => (ReorgedKind, txid)
    case Received(txid, _) => (ReceivedKind, txid)
    case Replaced(txid, _) => (ReplacedKind, txid)
  }

  function DetailsOf(w: Wallet, txid: Txid): (r: Details) {
    if txid in w.details then w.details[txid] else NO_DETAILS
  }

  function ConflictIds(conflicts: seq<(nat, Txid)>): (r: seq<Txid>) {
    seq(|conflicts|, i requires 0 <= i < |conflicts| => conflicts[i].1)
  }

  /** What the user is told of one wallet event, were it the only one. */
  function Forward(w: Wallet, e: WalletEvent): (r: Option<Event>) {
    match e
    case TxConfirmed(txid) =>
      if txid in w.confirmations then Some(Confirmed(txid, w.confirmations[txid], DetailsOf(w, txid))) else None
    case TxUnconfirmed(txid, wasConfirmed) =>
      Some(if wasConfirmed then Reorged(txid) else Received(txid, DetailsOf(w, txid)))
    case TxReplaced(txid, conflicts) => Some(Replaced(txid, ConflictIds(conflicts)))
    case _ => None
  }

  // ---- First occurrences ----

  /** The i-th wallet event is forwarded, and none before it is under the same kind and txid. */
  predicate IsFirst(w: Wallet, events: seq<WalletEvent>, i: nat) {
    && i < |events|
    && Forward(w, events[i]).Some?
    && forall j :: 0 <= j < i && Forward(w, events[j]).Some? ==>
         Tag(Forward(w, events[j]).value) != Tag(Forward(w, events[i]).value)
  }

  /** The positions of first occurrences among the first `n` events, in order. */
  function Firsts(w: Wallet, events: seq<WalletEvent>, n: nat): (r: seq<nat>)
    requires n <= |events|
  {
    if n == 0 then []
    else Firsts(w, events, n - 1) + (if IsFirst(w, events, n - 1) then [n - 1] else [])
  }

  /** The positions are exactly those of first occurrences, each once, in order. */
  lemma {:induction false} FirstsExactly(w: Wallet, events: seq<WalletEvent>, n: nat)
    requires n <= |events|
    ensures forall i: nat :: i in Firsts(w, events, n) <==> i < n && IsFirst(w, events, i)
    ensures forall k, l :: 0 <= k < l < |Firsts(w, events, n)| ==> Firsts(w, events, n)[k] < Firsts(w, events, n)[l]
  {
    if n > 0 {
      FirstsExactly(w, events, n - 1);
      var before := Firsts(w, events, n - 1);
      forall k | 0 <= k < |before| ensures before[k] < n - 1 {
        assert before[k] in before;
      }
      assert forall i: nat :: i in Firsts(w, events, n) <==> i in before || (i == n - 1 && IsFirst(w, events, i));
    }
  }

  /** What the user is told of the first `n` wallet events. */
  function Told(w: Wallet, events: seq<WalletEvent>, n: nat): (r: seq<Event>)
    requires n <= |events|
  {
    if n == 0 then []
    else Told(w, events, n - 1) + (if IsFirst(w, events, n - 1) then [Forward(w, events[n - 1]).value] else [])
  }

  /** The user is told of the first occurrences, in their order and of nothing else. */
  lemma {:induction false} ToldAreTheFirsts(w: Wallet, events: seq<WalletEvent>, n: nat)
    requires n <= |events|
    ensures |Told(w, events, n)| == |Firsts(w, events, n)|
    ensures forall k :: 0 <= k < |Firsts(w, events, n)| ==>
      IsFirst(w, events, Firsts(w, events, n)[k])
      && Told(w, events, n)[k] == Forward(w, events[Firsts(w, events, n)[k]]).value
  {
    if n > 0 {
      ToldAreTheFirsts(w, events, n - 1);
    }
  }

  /** No transaction is told twice under one kind. */
  lemma NeverToldTwice(w: Wallet, events: seq<WalletEvent>, n: nat, k: nat, l: nat)
    requires n <= |events| && k < l < |Told(w, events, n)|
    ensures Tag(Told(w, events, n)[k]) != Tag(Told(w, events, n)[l])
  {
    ToldAreTheFirsts(w, events, n);
    FirstsExactly(w, events, n);
    var i, j := Firsts(w, events, n)[k], Firsts(w, events, n)[l];
    assert i < j && IsFirst(w, events, i) && IsFirst(w, events, j);
  }

  /** Every wallet event that is forwarded at all is told under its kind and txid. */
  lemma {:induction false} NothingForgotten(w: Wallet, events: seq<WalletEvent>, n: nat, i: nat)
    requires i < n <= |events| && Forward(w, events[i]).Some?
    ensures exists k :: 0 <= k < |Told(w, events, n)| && Tag(Told(w, events, n)[k]) == Tag(Forward(w, events[i]).value)
    decreases i
  {
    if IsFirst(w, events, i) {
      FirstsExactly(w, events, n);
      ToldAreTheFirsts(w, events, n);
      var k :| 0 <= k < |Firsts(w, events, n)| && Firsts(w, events, n)[k] == i;
      assert Told(w, events, n)[k] == Forward(w, events[i]).value;
    } else {
      var j :| 0 <= j < i && Forward(w, events[j]).Some?
               && Tag(Forward(w, events[j]).value) == Tag(Forward(w, events[i]).value);
      NothingForgotten(w, events, n, j);
    }
  }

  /** A confirmation is told only if the aggregate wallet has it, with the aggregate's block. */
  lemma ConfirmedOnlyInAggregate(w: Wallet, events: seq<WalletEvent>, n: nat, k: nat)
    requires n <= |events| && k < |Told(w, events, n)| && Told(w, events, n)[k].Confirmed?
    ensures Told(w, events, n)[k].txid in w.confirmations
    ensures Told(w, events, n)[k].block == w.confirmations[Told(w, events, n)[k].txid]
  {
    ToldAreTheFirsts(w, events, n);
    assert IsFirst(w, events, Firsts(w, events, n)[k]);
  }

  // ---- The loop ----

  /** `seen` holds the txids told so far under `kind`. */
  ghost predicate SeenFits(told: seq<Event>, kind: Kind, seen: set<Txid>) {
    forall txid: Txid :: txid in seen <==> Tagged(told, (kind, txid))
  }

  predicate Tagged(told: seq<Event>, tag: (Kind, Txid)) {
    exists k :: 0 <= k < |told| && Tag(told[k]) == tag
  }

  lemma TaggedOneMore(told: seq<Event>, e: Event, tag: (Kind, Txid))
    ensures Tagged(told + [e], tag) <==> Tagged(told, tag) || Tag(e) == tag
  {
    var more := told + [e];
    assert more[|told|] == e;
    if Tagged(told, tag) {
      var k :| 0 <= k < |told| && Tag(told[k]) == tag;
      assert more[k] == told[k];
    }
  }

  lemma SeenOneMore(told: seq<Event>, e: Event, kind: Kind, seen: set<Txid>)
    requires SeenFits(told, kind, seen)
    ensures SeenFits(told + [e], kind, if Tag(e).0 == kind then seen + {e.txid} else seen)
  {
    forall txid: Txid
      ensures Tagged(told + [e], (kind, txid)) <==> Tagged(told, (kind, txid)) || Tag(e) == (kind, txid)
    {
      TaggedOneMore(told, e, (kind, txid));
    }
  }

  /** The next event is a first occurrence exactly if its txid was not told under its kind. */
  lemma FirstIffUntold(w: Wallet, events: seq<WalletEvent>, n: nat)
    requires n < |events| && Forward(w, events[n]).Some?
    ensures IsFirst(w, events, n) <==> !Tagged(Told(w, events, n), Tag(Forward(w, events[n]).value))
  {
    var tag := Tag(Forward(w, events[n]).value);
    if !IsFirst(w, events, n) {
      var j :| 0 <= j < n && Forward(w, events[j]).Some? && Tag(Forward(w, events[j]).value) == tag;
      NothingForgotten(w, events, n, j);
    } else {
      forall k | 0 <= k < |Told(w, events, n)| ensures Tag(Told(w, events, n)[k]) != tag {
        ToldAreTheFirsts(w, events, n);
        FirstsExactly(w, events, n);
        var i := Firsts(w, events, n)[k];
        assert i in Firsts(w, events, n) && i < n;
      }
    }
  }

  /** The txids told so far, by kind. */
  datatype Seen = Seen(received: set<Txid>, confirmed: set<Txid>, reorged: set<Txid>, replaced: set<Txid>)

  ghost predicate AllFit(told: seq<Event>, s: Seen) {
    && SeenFits(told, ReceivedKind, s.received)
    && SeenFits(told, ConfirmedKind, s.confirmed)
    && SeenFits(told, ReorgedKind, s.reorged)
    && SeenFits(told, ReplacedKind, s.replaced)
  }

  /** One turn of the loop, up to the call that adds the event to the queue. */
  method Consider(w: Wallet, e: WalletEvent, seen: Seen, ghost told: seq<Event>)
    returns (event: Option<Event>, seen': Seen)
    requires AllFit(told, seen)
    ensures event.Some? <==> Forward(w, e).Some? && !Tagged(told, Tag(Forward(w, e).value))
    ensures event.Some? ==> event == Forward(w, e)
    ensures AllFit(if event.Some? then told + [event.value] else told, seen')
  {
    event, seen' := None, seen;
    match e {
      case TxConfirmed(txid) =>
        if txid in w.confirmations && txid !in seen.confirmed {
          seen' := seen.(confirmed := seen.confirmed + {txid});
          event := Some(Confirmed(txid, w.confirmations[txid], DetailsOf(w, txid)));
        }
      case TxUnconfirmed(txid, wasConfirmed) =>
        if wasConfirmed {
          if txid !in seen.reorged {
            seen' := seen.(reorged := seen.reorged + {txid});
            event := Some(Reorged(txid));
          }
        } else {
          if txid !in seen.received {
            seen' := seen.(received := seen.received + {txid});
            event := Some(Received(txid, DetailsOf(w, txid)));
          }
        }
      case TxReplaced(txid, conflicts) =>
        if txid !in seen.replaced {
          seen' := seen.(replaced := seen.replaced + {txid});
          event := Some(Replaced(txid, ConflictIds(conflicts)));
        }
      case ChainTipChanged =>
      case OtherWalletEvent =>
    }
    if event.Some? {
      SeenOneMore(told, event.value, ReceivedKind, seen.received);
      SeenOneMore(told, event.value, ConfirmedKind, seen.confirmed);
      SeenOneMore(told, event.value, ReorgedKind, seen.reorged);
      SeenOneMore(told, event.value, ReplacedKind, seen.replaced);
    }
  }

  /**
   `process_wallet_events`: `adds(k)` says whether the k-th event given to the queue is
   persisted. The first one that is not ends the loop, and is the last one given to it.
   */
  method ProcessWalletEvents(w: Wallet, events: seq<WalletEvent>, adds: nat -> bool)
    returns (added: seq<Event>, ok: bool)
    ensures ok <==> forall k :: 0 <= k < |Told(w, events, |events|)| ==> adds(k)
    ensures ok ==> added == Told(w, events, |events|)
    ensures !ok ==> added != [] && added <= Told(w, events, |events|)
                    && !adds(|added| - 1) && forall k :: 0 <= k < |added| - 1 ==> adds(k)
  {
    added := [];
    var seen := Seen({}, {}, {}, {});
    for n := 0 to |events|
      invariant added == Told(w, events, n) && AllFit(added, seen)
      invariant forall k :: 0 <= k < |added| ==> adds(k)
    {
      if Forward(w, events[n]).Some? {
        FirstIffUntold(w, events, n);
      }
      var event;
      event, seen := Consider(w, events[n], seen, added);
      if event.Some? {
        added := added + [event.value];
        assert added == Told(w, events, n + 1);
        if !adds(|added| - 1) {
          ToldGrows(w, events, n + 1, |events|);
          return added, false;
        }
      }
    }
    ok := true;
  }

  lemma {:induction false} ToldGrows(w: Wallet, events: seq<WalletEvent>, m: nat, n: nat)
    requires m <= n <= |events|
    ensures Told(w, events, m) <= Told(w, events, n)
  {
    if m < n {
      ToldGrows(w, events, m, n - 1);
    }
  }
}
