/**
 The transactional outbox of the payment service: what every step keeps of it.
 */
module OutboxRun {
  import opened Wrappers
  import opened Contracts
  import opened PaymentStore
  import opened PaymentRun
  import Ledger = PaymentLedger

  // --- Acknowledging and retrying, message by message ------------------------------------

  ghost predicate DistinctIds(messages: seq<PendingMessage>) {
    forall i, j :: 0 <= i < j < |messages| ==> messages[i].id != messages[j].id
  }

  lemma {:induction false} AcknowledgingKeepsIdsDistinct(messages: seq<PendingMessage>, id: string, token: string)
    requires DistinctIds(messages)
    ensures DistinctIds(Acknowledged(messages, id, token))
  {
    if messages != [] {
      var rest := Acknowledged(messages[1..], id, token);
      AcknowledgingKeepsIdsDistinct(messages[1..], id, token);
      forall j | 0 <= j < |rest|
        ensures rest[j].id != messages[0].id
      {
        assert rest[j] in messages[1..];
      }
    }
  }

  predicate Carries(m: PendingMessage, id: string, token: string) {
    m.id == id && m.claimToken == token
  }

  lemma {:induction false} RetryingPointwise(messages: seq<PendingMessage>, id: string, token: string, next: int,
                                             attempts: nat, i: nat)
    requires i < |messages|
    ensures var after := Retried(messages, id, token, next, attempts)[i];
            || after == messages[i]
            || (Carries(messages[i], id, token) && after == Postponed(messages[i], next, attempts))
  {
    if i > 0 && !Carries(messages[0], id, token) {
      RetryingPointwise(messages[1..], id, token, next, attempts, i - 1);
    }
  }

  // --- The invariant ---------------------------------------------------------------------

  /** The message of the entry is still in the outbox of its payment. */
  ghost predicate Waits(w: World, e: Entry) {
    exists m :: m in PendingOf(w, e.paymentId) && EntryOf(e.paymentId, m) == e
  }

  predicate StampedOk(m: PendingMessage, uuids: set<string>) {
    (m.claimToken == "" <==> m.claimedUntil == None) && m.claimToken in uuids
  }

  ghost predicate IdsOk(w: World) {
    && "" in w.uuids
    && (forall i :: 0 <= i < |w.log| ==> w.log[i].id in w.uuids && w.log[i].kind == KindOf(w.log[i].body.event))
    && forall i, j :: 0 <= i < j < |w.log| ==> w.log[i].id != w.log[j].id
  }

  ghost predicate PendingOk(w: World) {
    && (forall id :: DistinctIds(PendingOf(w, id)))
    && forall id, m :: m in PendingOf(w, id) ==> EntryOf(id, m) in w.log && StampedOk(m, w.uuids)
  }

  ghost predicate HoldingOk(h: Holding, w: World) {
    && EntryOf(h.paymentId, h.message) in w.log
    && h.message.claimToken in w.uuids && h.message.claimToken != "" && h.message.claimedUntil.Some?
    && (h.stage == Published ==> EntryOf(h.paymentId, h.message) in w.bus)
  }

  ghost predicate HoldingsOk(w: World) {
    && (forall k :: k in w.holdings ==> HoldingOk(w.holdings[k], w))
    && (forall a, b :: a in w.holdings && b in w.holdings && a != b ==>
          w.holdings[a].message.claimToken != w.holdings[b].message.claimToken)
  }

  /** Everything enqueued still waits or is on the bus, and nothing else is on the bus. */
  ghost predicate Conserved(w: World) {
    && (forall e :: e in w.log ==> Waits(w, e) || e in w.bus)
    && (forall e :: e in w.bus ==> e in w.log)
  }

  ghost predicate Consistent(w: World) {
    IdsOk(w) && PendingOk(w) && HoldingsOk(w) && Conserved(w)
  }

  ghost predicate OutboxOk(w: World) {
    forall v :: v == w ==> Consistent(v)
  }

  lemma Inside(w: World)
    requires OutboxOk(w)
    ensures IdsOk(w) && PendingOk(w) && HoldingsOk(w) && Conserved(w)
  {
    assert Consistent(w);
  }

  lemma OutboxIsOkAtFirst()
    ensures OutboxOk(EMPTY)
  {
  }

  // --- Handlers only enqueue -------------------------------------------------------------

  ghost predicate FreshEntries(uuids: set<string>, id: string, entries: seq<Entry>) {
    && (forall i :: 0 <= i < |entries| ==>
          entries[i].paymentId == id && entries[i].id !in uuids && entries[i].kind == KindOf(entries[i].body.event))
    && forall i, j :: 0 <= i < j < |entries| ==> entries[i].id != entries[j].id
  }

  /** w' has the entries in the outbox of the payment and in the log, and nothing else of the outbox is new. */
  ghost predicate Enqueued(w: World, w': World, id: string, entries: seq<Entry>, now: int) {
    && FreshEntries(w.uuids, id, entries)
    && (forall other :: PendingOf(w', other)
          == PendingOf(w, other) + (if other == id then Pendings(entries, now) else []))
    && w'.log == w.log + entries && w'.holdings == w.holdings && w'.bus == w.bus && w'.clock == w.clock
    && w.uuids <= w'.uuids && forall i :: 0 <= i < |entries| ==> entries[i].id in w'.uuids
  }

  ghost predicate OnlyEnqueues(w: World, w': World) {
    exists id, entries, now :: Enqueued(w, w', id, entries, now)
  }

  lemma EnqueuingKeepsIdsDistinct(w: World, w': World, id: string, entries: seq<Entry>, now: int, other: string)
    requires IdsOk(w) && PendingOk(w) && Enqueued(w, w', id, entries, now)
    ensures DistinctIds(PendingOf(w', other))
  {
    var before := PendingOf(w, other);
    forall i | 0 <= i < |before|
      ensures before[i].id in w.uuids
    {
      assert before[i] in before && EntryOf(other, before[i]) in w.log;
    }
    assert DistinctIds(before);
  }

  lemma EnqueuedAreLogged(w: World, w': World, id: string, entries: seq<Entry>, now: int, other: string, m: PendingMessage)
    requires IdsOk(w) && PendingOk(w) && Enqueued(w, w', id, entries, now) && m in PendingOf(w', other)
    ensures EntryOf(other, m) in w'.log && StampedOk(m, w'.uuids)
  {
    if m in PendingOf(w, other) {
      assert EntryOf(other, m) in w.log && StampedOk(m, w.uuids);
    } else {
      var i :| 0 <= i < |entries| && m == Pendings(entries, now)[i];
      assert EntryOf(other, m) == entries[i];
    }
  }

  lemma LoggingKeepsIds(w: World, w': World, id: string, entries: seq<Entry>, now: int)
    requires IdsOk(w) && Enqueued(w, w', id, entries, now)
    ensures IdsOk(w')
  {
    forall i | 0 <= i < |w'.log|
      ensures w'.log[i].id in w'.uuids && w'.log[i].kind == KindOf(w'.log[i].body.event)
      ensures w'.log[i].id in w.uuids <==> i < |w.log|
    {
      if i >= |w.log| {
        assert w'.log[i] == entries[i - |w.log|];
      }
    }
  }

  lemma EnqueuingKeepsIds(w: World, w': World, id: string, entries: seq<Entry>, now: int)
    requires IdsOk(w) && PendingOk(w) && Enqueued(w, w', id, entries, now)
    ensures IdsOk(w') && PendingOk(w')
  {
    LoggingKeepsIds(w, w', id, entries, now);
    forall other
      ensures DistinctIds(PendingOf(w', other))
    {
      EnqueuingKeepsIdsDistinct(w, w', id, entries, now, other);
    }
    forall other, m | m in PendingOf(w', other)
      ensures EntryOf(other, m) in w'.log && StampedOk(m, w'.uuids)
    {
      EnqueuedAreLogged(w, w', id, entries, now, other, m);
    }
  }

  lemma EnqueuingConserves(w: World, w': World, id: string, entries: seq<Entry>, now: int)
    requires HoldingsOk(w) && Conserved(w) && Enqueued(w, w', id, entries, now)
    ensures HoldingsOk(w') && Conserved(w')
  {
    forall e | e in w'.log
      ensures Waits(w', e) || e in w'.bus
    {
      if e in w.log {
        if Waits(w, e) {
          var m :| m in PendingOf(w, e.paymentId) && EntryOf(e.paymentId, m) == e;
          assert m in PendingOf(w', e.paymentId);
        }
      } else {
        var i :| 0 <= i < |entries| && e == entries[i];
        var m := Pendings(entries, now)[i];
        assert m in PendingOf(w', id) && EntryOf(id, m) == e;
      }
    }
  }

  lemma EnqueuingKeepsOutbox(w: World, w': World)
    requires OutboxOk(w) && OnlyEnqueues(w, w')
    ensures OutboxOk(w')
  {
    Inside(w);
    var id, entries, now :| Enqueued(w, w', id, entries, now);
    EnqueuingKeepsIds(w, w', id, entries, now);
    EnqueuingConserves(w, w', id, entries, now);
  }

  lemma NothingEnqueued(w: World, w': World)
    requires forall id :: PendingOf(w', id) == PendingOf(w, id)
    requires w'.log == w.log && w'.holdings == w.holdings && w'.bus == w.bus && w'.clock == w.clock
    requires w.uuids <= w'.uuids
    ensures OnlyEnqueues(w, w')
  {
    assert Enqueued(w, w', "", [], 0);
  }

  lemma StoringEnqueues(w: World, h: nat, next: Stage, p: Payment, entries: seq<Entry>, now: int)
    requires p.pendingMessages == PendingOf(w, p.id) && FreshEntries(w.uuids, p.id, entries)
    ensures OnlyEnqueues(w, Stored(w, h, next, p, entries, now))
  {
    assert Enqueued(w, Stored(w, h, next, p, entries, now), p.id, entries, now);
  }

  lemma TransitionsEnqueue(w: World, h: nat, allowed: bool, p: Payment, entries: seq<Entry>, now: int)
    requires p.id in w.payments ==> p.pendingMessages == PendingOf(w, p.id)
    requires FreshEntries(w.uuids, p.id, entries)
    ensures OnlyEnqueues(w, Transitioned(w, h, allowed, p, entries, now))
  {
    if p.id in w.payments && allowed {
      StoringEnqueues(w, h, Finished, p, entries, now);
    } else {
      NothingEnqueued(w, Moved(w, h, Finished));
    }
  }

  lemma InsertEnqueues(config: Config, w: World, step: Step)
    requires Ledger.Inv(w) && Enabled(w, step) && step.Insert?
    ensures OnlyEnqueues(w, Apply(config, w, step))
  {
    var p := w.handlers[step.h].payment;
    var w' := Apply(config, w, step);
    if IsUnique(w.payments, p) {
      assert p.pendingMessages == [] by {
        Ledger.Inside(w);
        assert Ledger.StageOk(w.handlers[step.h], w, w.log);
      }
      var e := NewEntry(p, Request, step.messageId, ProcessRequested(p.id, p.paymentReference));
      assert Enqueued(w, w', p.id, [e], step.now);
    } else {
      NothingEnqueued(w, w');
    }
  }

  lemma ReserveEnqueuesNothing(config: Config, w: World, step: Step)
    requires Ledger.Inv(w) && Enabled(w, step) && step.Reserve?
    ensures OnlyEnqueues(w, Apply(config, w, step))
  {
    var id := w.handlers[step.h].paymentId;
    if id in w.payments && CanReserve(w.payments[id], step.now) {
      Ledger.Document(w, id);
      var p := Reserved(w.payments[id], step.now);
      StoringEnqueues(w, step.h, Announcing(p), p, [], step.now);
    } else {
      NothingEnqueued(w, Apply(config, w, step));
    }
  }

  lemma AnnounceEnqueues(config: Config, w: World, step: Step)
    requires Ledger.Inv(w) && Enabled(w, step) && step.Announce?
    ensures OnlyEnqueues(w, Apply(config, w, step))
  {
    var seen := w.handlers[step.h].seen;
    Ledger.SeenDocument(w, step.h);
    StoringEnqueues(w, step.h, Charging(seen), w.payments[seen.id],
                    [StatusEntry(seen, Processing, seen.deliveryStatus, step.messageId)], step.now);
  }

  lemma FailEnqueues(config: Config, w: World, step: Step)
    requires Ledger.Inv(w) && Enabled(w, step) && step.Fail?
    ensures OnlyEnqueues(w, Apply(config, w, step))
  {
    var seen := w.handlers[step.h].seen;
    Ledger.SeenDocument(w, step.h);
    var p := Current(w, seen);
    TransitionsEnqueue(w, step.h, CanFail(p), MarkedFailed(p, w.handlers[step.h].reason),
                       [StatusEntry(seen, Failed, seen.deliveryStatus, step.messageId)], step.now);
  }

  lemma CallBackEnqueues(config: Config, w: World, step: Step)
    requires Ledger.Inv(w) && Enabled(w, step) && step.CallBack?
    ensures OnlyEnqueues(w, Apply(config, w, step))
  {
    var seen := w.handlers[step.h].seen;
    Ledger.SeenDocument(w, step.h);
    var callback := SimulatedCallback(seen, w.handlers[step.h].result);
    TransitionsEnqueue(w, step.h, true, Current(w, seen),
                       [NewEntry(seen, CallbackKind, step.messageId, CallbackConfirmed(callback))], step.now);
  }

  lemma ExpireEnqueues(config: Config, w: World, step: Step)
    requires Ledger.Inv(w) && Enabled(w, step) && step.Expire?
    ensures OnlyEnqueues(w, Apply(config, w, step))
  {
    var seen := w.handlers[step.h].seen;
    Ledger.SeenDocument(w, step.h);
    var p := Current(w, seen);
    TransitionsEnqueue(w, step.h, CanSettle(p), MarkedExpired(p),
                       [StatusEntry(seen, Expired, seen.deliveryStatus, step.messageId)], step.now);
  }

  lemma CompleteEnqueues(config: Config, w: World, step: Step)
    requires Ledger.Inv(w) && Enabled(w, step) && step.Complete?
    ensures OnlyEnqueues(w, Apply(config, w, step))
  {
    var seen := w.handlers[step.h].seen;
    var callback := w.handlers[step.h].callback;
    Ledger.SeenDocument(w, step.h);
    var p := Current(w, seen);
    var time := callback.occurredAt.value;
    TransitionsEnqueue(w, step.h, CanSettle(p), MarkedCompleted(p, callback.eventId, time),
                       [StatusEntry(seen.(confirmedAt := Some(time)), Completed, seen.deliveryStatus, step.statusId),
                        NewEntry(seen, Delivery, step.deliveryId, DeliveryRequested(seen.id, seen.userId))], step.now);
  }

  lemma DeliverEnqueues(config: Config, w: World, step: Step)
    requires Ledger.Inv(w) && Enabled(w, step) && step.Deliver?
    ensures OnlyEnqueues(w, Apply(config, w, step))
  {
    var seen := w.handlers[step.h].seen;
    Ledger.SeenDocument(w, step.h);
    var p := Current(w, seen);
    TransitionsEnqueue(w, step.h, CanDeliver(p), MarkedDelivery(p, Delivered, ""),
                       [StatusEntry(seen, Completed, Delivered, step.statusId),
                        NewEntry(seen, Confirmation, step.confirmedId,
                                 PaymentConfirmed(seen.id, seen.userId, seen.confirmedAt))], step.now);
  }

  lemma LookingEnqueuesNothing(config: Config, w: World, step: Step)
    requires Enabled(w, step) && OnlyLooks(step)
    ensures OnlyEnqueues(w, Apply(config, w, step))
  {
    LookingStoresNothing(config, w, step);
    NothingEnqueued(w, Apply(config, w, step));
  }

  lemma BeginningEnqueuesNothing(config: Config, w: World, step: Step)
    requires Enabled(w, step) && (Begins(step) || step.Consume?)
    ensures OnlyEnqueues(w, Apply(config, w, step))
  {
    NothingEnqueued(w, Apply(config, w, step));
  }

  predicate OfPublisher(step: Step) {
    step.Claim? || step.Publish? || step.Acknowledge? || step.RetryLater? || step.Tick?
  }

  /** Whatever is not a publisher's step leaves the outbox as it is, but for what it enqueues. */
  lemma HandlersOnlyEnqueue(config: Config, w: World, step: Step)
    requires Ledger.Inv(w) && Enabled(w, step) && !OfPublisher(step)
    ensures OnlyEnqueues(w, Apply(config, w, step))
  {
    if OnlyLooks(step) {
      LookingEnqueuesNothing(config, w, step);
    } else if Begins(step) || step.Consume? {
      BeginningEnqueuesNothing(config, w, step);
    } else if step.Insert? {
      InsertEnqueues(config, w, step);
    } else if step.Reserve? {
      ReserveEnqueuesNothing(config, w, step);
    } else if step.Announce? {
      AnnounceEnqueues(config, w, step);
    } else if step.Fail? {
      FailEnqueues(config, w, step);
    } else if step.CallBack? {
      CallBackEnqueues(config, w, step);
    } else if step.Expire? {
      ExpireEnqueues(config, w, step);
    } else if step.Complete? {
      CompleteEnqueues(config, w, step);
    } else {
      DeliverEnqueues(config, w, step);
    }
  }
}
