/**
 What every run of the payment service guarantees about its documents and its messages.
 */
module PaymentTheorems {
  import opened Wrappers
  import opened Contracts
  import opened PaymentStore
  import opened PaymentRun
  import opened PaymentLedger

  ghost predicate Next(config: Config, w: World, w': World) {
    exists step :: Enabled(w, step) && w' == Apply(config, w, step)
  }

  /** Next, for proofs that need not look inside it. */
  ghost predicate Follows(config: Config, w: World, w': World) {
    forall v, v' :: v == w && v' == w' ==> Next(config, v, v')
  }

  ghost predicate IsRun(config: Config, run: seq<World>) {
    && |run| > 0 && run[0] == EMPTY
    && forall i, j :: 0 <= i < j < |run| && j == i + 1 ==> Follows(config, run[i], run[j])
  }

  // --- Documents evolve ------------------------------------------------------------------

  /** Documents are never removed, and each evolves. */
  ghost predicate Grows(payments: Payments, payments': Payments) {
    forall id :: id in payments ==> id in payments' && Evolves(payments[id], payments'[id])
  }

  ghost predicate OwnIds(payments: Payments) {
    forall id :: id in payments ==> payments[id].id == id
  }

  lemma StoringGrows(payments: Payments, p: Payment, stored: Payment)
    requires OwnIds(payments) && stored == p.(pendingMessages := stored.pendingMessages)
    requires p.id in payments ==> Evolves(payments[p.id], p)
    ensures Grows(payments, payments[p.id := stored])
  {
  }

  lemma TransitionsGrow(w: World, h: nat, allowed: bool, p: Payment, entries: seq<Entry>, now: int)
    requires OwnIds(w.payments) && (p.id in w.payments && allowed ==> Evolves(w.payments[p.id], p))
    ensures Grows(w.payments, Transitioned(w, h, allowed, p, entries, now).payments)
  {
    if p.id in w.payments && allowed {
      StoringGrows(w.payments, p, WithMessages(p, Pendings(entries, now)));
    }
  }

  lemma InsertGrows(config: Config, w: World, step: Step)
    requires OwnIds(w.payments) && Enabled(w, step) && step.Insert?
    ensures Grows(w.payments, Apply(config, w, step).payments)
  {
    var p := w.handlers[step.h].payment;
    if IsUnique(w.payments, p) {
      var e := NewEntry(p, Request, step.messageId, ProcessRequested(p.id, p.paymentReference));
      StoringGrows(w.payments, p, WithMessages(p, Pendings([e], step.now)));
    }
  }

  lemma ReserveGrows(config: Config, w: World, step: Step)
    requires OwnIds(w.payments) && Enabled(w, step) && step.Reserve?
    ensures Grows(w.payments, Apply(config, w, step).payments)
  {
    var id := w.handlers[step.h].paymentId;
    if id in w.payments && CanReserve(w.payments[id], step.now) {
      var p := Reserved(w.payments[id], step.now);
      StoringGrows(w.payments, p, WithMessages(p, Pendings([], step.now)));
    }
  }

  lemma AnnounceGrows(config: Config, w: World, step: Step)
    requires OwnIds(w.payments) && Enabled(w, step) && step.Announce?
    ensures Grows(w.payments, Apply(config, w, step).payments)
  {
    var seen := w.handlers[step.h].seen;
    if seen.id in w.payments {
      var e := StatusEntry(seen, Processing, seen.deliveryStatus, step.messageId);
      StoringGrows(w.payments, w.payments[seen.id], WithMessages(w.payments[seen.id], Pendings([e], step.now)));
    }
  }

  lemma FailGrows(config: Config, w: World, step: Step)
    requires OwnIds(w.payments) && Enabled(w, step) && step.Fail?
    ensures Grows(w.payments, Apply(config, w, step).payments)
  {
    var seen := w.handlers[step.h].seen;
    var p := Current(w, seen);
    TransitionsGrow(w, step.h, CanFail(p), MarkedFailed(p, w.handlers[step.h].reason),
                    [StatusEntry(seen, Failed, seen.deliveryStatus, step.messageId)], step.now);
  }

  lemma CallBackGrows(config: Config, w: World, step: Step)
    requires OwnIds(w.payments) && Enabled(w, step) && step.CallBack?
    ensures Grows(w.payments, Apply(config, w, step).payments)
  {
    var seen := w.handlers[step.h].seen;
    TransitionsGrow(w, step.h, true, Current(w, seen),
                    [NewEntry(seen, CallbackKind, step.messageId,
                              CallbackConfirmed(SimulatedCallback(seen, w.handlers[step.h].result)))], step.now);
  }

  lemma ExpireGrows(config: Config, w: World, step: Step)
    requires OwnIds(w.payments) && Enabled(w, step) && step.Expire?
    ensures Grows(w.payments, Apply(config, w, step).payments)
  {
    var seen := w.handlers[step.h].seen;
    var p := Current(w, seen);
    TransitionsGrow(w, step.h, CanSettle(p), MarkedExpired(p),
                    [StatusEntry(seen, Expired, seen.deliveryStatus, step.messageId)], step.now);
  }

  lemma CompleteGrows(config: Config, w: World, step: Step)
    requires OwnIds(w.payments) && Enabled(w, step) && step.Complete?
    ensures Grows(w.payments, Apply(config, w, step).payments)
  {
    var seen := w.handlers[step.h].seen;
    var callback := w.handlers[step.h].callback;
    var p := Current(w, seen);
    if callback.occurredAt.Some? {
      var time := callback.occurredAt.value;
      TransitionsGrow(w, step.h, CanSettle(p), MarkedCompleted(p, callback.eventId, time),
                      [StatusEntry(seen.(confirmedAt := Some(time)), Completed, seen.deliveryStatus, step.statusId),
                       NewEntry(seen, Delivery, step.deliveryId, DeliveryRequested(seen.id, seen.userId))], step.now);
    }
  }

  lemma DeliverGrows(config: Config, w: World, step: Step)
    requires OwnIds(w.payments) && Enabled(w, step) && step.Deliver?
    ensures Grows(w.payments, Apply(config, w, step).payments)
  {
    var seen := w.handlers[step.h].seen;
    var p := Current(w, seen);
    TransitionsGrow(w, step.h, CanDeliver(p), MarkedDelivery(p, Delivered, ""),
                    [StatusEntry(seen, Completed, Delivered, step.statusId),
                     NewEntry(seen, Confirmation, step.confirmedId,
                              PaymentConfirmed(seen.id, seen.userId, seen.confirmedAt))], step.now);
  }

  lemma OutboxGrows(config: Config, w: World, step: Step)
    requires Enabled(w, step) && OfOutbox(step)
    ensures Grows(w.payments, Apply(config, w, step).payments)
  {
    var w' := Apply(config, w, step);
    assert SameDocuments(w, w') by {
      OutboxStepsLeaveDocuments(config, w, step);
    }
    forall id | id in w.payments
      ensures id in w'.payments && Evolves(w.payments[id], w'.payments[id])
    {
    }
  }

  lemma HandlersGrow(config: Config, w: World, step: Step)
    requires OwnIds(w.payments) && Enabled(w, step) && !OfOutbox(step) && !OnlyLooks(step) && !Begins(step)
    ensures Grows(w.payments, Apply(config, w, step).payments)
  {
    if step.Insert? {
      InsertGrows(config, w, step);
    } else if step.Reserve? {
      ReserveGrows(config, w, step);
    } else if step.Announce? {
      AnnounceGrows(config, w, step);
    } else if step.Fail? {
      FailGrows(config, w, step);
    } else if step.CallBack? {
      CallBackGrows(config, w, step);
    } else if step.Expire? {
      ExpireGrows(config, w, step);
    } else if step.Complete? {
      CompleteGrows(config, w, step);
    } else {
      DeliverGrows(config, w, step);
    }
  }

  lemma StepsGrow(config: Config, w: World, step: Step)
    requires OwnIds(w.payments) && Enabled(w, step)
    ensures Grows(w.payments, Apply(config, w, step).payments)
  {
    if OfOutbox(step) {
      OutboxGrows(config, w, step);
    } else if Begins(step) {
      BeginningStoresNothing(config, w, step);
    } else if OnlyLooks(step) {
      LookingStoresNothing(config, w, step);
    } else {
      HandlersGrow(config, w, step);
    }
  }

  lemma NextKeepsInv(config: Config, w: World, w': World)
    requires Inv(w) && Next(config, w, w')
    ensures Inv(w') && Grows(w.payments, w'.payments)
  {
    var step :| Enabled(w, step) && w' == Apply(config, w, step);
    StepKeepsInv(config, w, step);
    assert OwnIds(w.payments) by {
      Inside(w);
    }
    StepsGrow(config, w, step);
  }

  lemma EachStepOfARun(config: Config, run: seq<World>, i: nat)
    requires IsRun(config, run) && i + 1 < |run| && Inv(run[i])
    ensures Inv(run[i + 1]) && Grows(run[i].payments, run[i + 1].payments)
  {
    assert Follows(config, run[i], run[i + 1]);
    assert Next(config, run[i], run[i + 1]);
    NextKeepsInv(config, run[i], run[i + 1]);
  }

  lemma {:induction false} ReachedWorldsAreOk(config: Config, run: seq<World>, i: nat)
    requires IsRun(config, run) && i < |run|
    ensures Inv(run[i])
  {
    if i == 0 {
      InvHoldsAtFirst();
    } else {
      ReachedWorldsAreOk(config, run, i - 1);
      EachStepOfARun(config, run, i - 1);
    }
  }

  lemma GrowthIsTransitive(a: Payments, b: Payments, c: Payments)
    requires Grows(a, b) && Grows(b, c)
    ensures Grows(a, c)
  {
    forall id | id in a
      ensures id in c && Evolves(a[id], c[id])
    {
      EvolvesIsTransitive(a[id], b[id], c[id]);
    }
  }

  lemma {:induction false} DocumentsGrow(config: Config, run: seq<World>, i: nat, j: nat)
    requires IsRun(config, run) && i <= j < |run|
    ensures Grows(run[i].payments, run[j].payments)
  {
    if i < j {
      DocumentsGrow(config, run, i, j - 1);
      ReachedWorldsAreOk(config, run, j - 1);
      EachStepOfARun(config, run, j - 1);
      GrowthIsTransitive(run[i].payments, run[j - 1].payments, run[j].payments);
    }
  }

  // --- The theorems ----------------------------------------------------------------------

  /**
   The ledger: a payment's process.requested has been enqueued once, its delivery.requested once
   if it is COMPLETED, its payment.confirmed once if it is DELIVERED, and nothing else of these;
   no status-updated message for any pair of states has been enqueued twice.
   */
  lemma EveryMessageIsEnqueuedOnce(config: Config, run: seq<World>, i: nat, id: string)
    requires IsRun(config, run) && i < |run| && id in run[i].payments
    ensures var p := run[i].payments[id];
            && Count(run[i].log, id, Request) == 1
            && Count(run[i].log, id, Delivery) == (if p.paymentStatus == Completed then 1 else 0)
            && Count(run[i].log, id, Confirmation) == (if p.deliveryStatus == Delivered then 1 else 0)
            && Count(run[i].log, id, CallbackKind) <= 1
    ensures forall status, delivery :: Count(run[i].log, id, Status(status, delivery)) <= 1
    ensures var p := run[i].payments[id];
            && Count(run[i].log, id, Status(Completed, DeliveryPending)) == Count(run[i].log, id, Delivery)
            && Count(run[i].log, id, Status(Completed, Delivered)) == Count(run[i].log, id, Confirmation)
            && Count(run[i].log, id, Status(Expired, DeliveryPending)) == (if p.paymentStatus == Expired then 1 else 0)
  {
    ReachedWorldsAreOk(config, run, i);
    Document(run[i], id);
    assert PaymentOk(run[i].payments[id], id, run[i].log, run[i].callbacks);
    forall status, delivery
      ensures Count(run[i].log, id, Status(status, delivery)) <= 1
    {
      assert Count(run[i].log, id, Status(status, delivery)) <= MostOf(run[i].payments[id], status, delivery);
    }
  }

  lemma {:induction false} TwoAreCounted(log: seq<Entry>, a: nat, b: nat)
    requires a < b < |log| && log[a].paymentId == log[b].paymentId && log[a].kind == log[b].kind
    ensures Count(log, log[a].paymentId, log[a].kind) >= 2
  {
    var front := log[..|log| - 1];
    if b < |log| - 1 {
      TwoAreCounted(front, a, b);
    } else {
      OneIsCounted(front, a);
    }
  }

  lemma {:induction false} OneIsCounted(log: seq<Entry>, a: nat)
    requires a < |log|
    ensures Count(log, log[a].paymentId, log[a].kind) >= 1
  {
    if a < |log| - 1 {
      OneIsCounted(log[..|log| - 1], a);
    }
  }

  /** No two messages ever enqueued have the same logical id. */
  lemma LogicalIdsAreDistinct(config: Config, run: seq<World>, i: nat, a: nat, b: nat)
    requires IsRun(config, run) && i < |run| && a < b < |run[i].log|
    ensures run[i].log[a].body.messageId != run[i].log[b].body.messageId
  {
    var w := run[i];
    ReachedWorldsAreOk(config, run, i);
    Inside(w);
    var p, q := w.payments[w.log[a].paymentId], w.payments[w.log[b].paymentId];
    if w.log[a].paymentId == w.log[b].paymentId && w.log[a].kind == w.log[b].kind {
      TwoAreCounted(w.log, a, b);
      EveryMessageIsEnqueuedOnce(config, run, i, w.log[a].paymentId);
      assert false;
    }
    assert EntryOk(w.log[a], p) && EntryOk(w.log[b], q);
    MessageIdsAreInjective(w.log[a].kind, p.id, p.paymentReference, w.log[b].kind, q.id, q.paymentReference);
  }

  /**
   A completed payment was confirmed no later than it expires, by a delivered callback with its
   reference, amount and currency, whose id, if it has one, is the only one stored; it was processed
   at most once.
   */
  lemma CompletedPaymentsAreJustified(config: Config, run: seq<World>, i: nat, id: string)
    requires IsRun(config, run) && i < |run| && id in run[i].payments
    ensures run[i].payments[id].processingAttempts <= 1
    ensures var p := run[i].payments[id];
            p.paymentStatus == Completed ==>
              && p.confirmedAt.Some? && p.confirmedAt.value <= p.expiresAt
              && exists callback :: callback in run[i].callbacks && Matches(p, callback)
                   && p.confirmedAt == callback.occurredAt
                   && p.webhookEventIds == EventIds(callback.eventId)
    ensures run[i].payments[id].paymentStatus != Completed ==>
              run[i].payments[id].confirmedAt == None && run[i].payments[id].webhookEventIds == []
  {
    ReachedWorldsAreOk(config, run, i);
    Document(run[i], id);
    var p := run[i].payments[id];
    assert PaymentOk(p, id, run[i].log, run[i].callbacks);
  }

  /** The service's own callbacks name their events, as the webhook's do. */
  lemma SimulatedCallbacksNameTheirEvents(p: Payment, result: GatewayResult)
    ensures SimulatedCallback(p, result).eventId != ""
  {
    assert SimulatedCallback(p, result).eventId[0] == 'p';
  }

  /** As long as whoever sends callbacks names their events, a completed payment stores exactly one id. */
  lemma NamedEventsAreStored(config: Config, run: seq<World>, i: nat, id: string)
    requires IsRun(config, run) && i < |run| && id in run[i].payments
    requires forall callback :: callback in run[i].callbacks ==> callback.eventId != ""
    ensures run[i].payments[id].paymentStatus == Completed ==>
              exists eventId :: eventId != "" && run[i].payments[id].webhookEventIds == [eventId]
  {
    CompletedPaymentsAreJustified(config, run, i, id);
  }

  /** Documents only evolve; COMPLETED and EXPIRED are final, so neither ever follows the other. */
  lemma CompletedAndExpiredExclude(config: Config, run: seq<World>, i: nat, j: nat, id: string)
    requires IsRun(config, run) && i < |run| && j < |run| && id in run[i].payments && id in run[j].payments
    ensures !(run[i].payments[id].paymentStatus == Completed && run[j].payments[id].paymentStatus == Expired)
    ensures i <= j && run[i].payments[id].paymentStatus == Completed ==>
              && run[j].payments[id].paymentStatus == Completed
              && run[j].payments[id].confirmedAt == run[i].payments[id].confirmedAt
    ensures i <= j && run[i].payments[id].paymentStatus == Expired ==> run[j].payments[id].paymentStatus == Expired
  {
    if i <= j {
      DocumentsGrow(config, run, i, j);
    } else {
      DocumentsGrow(config, run, j, i);
    }
  }
}
