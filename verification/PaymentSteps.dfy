/**
 Where each step of a run leads, step by step.
 */
module PaymentSteps {
  import opened Wrappers
  import opened Contracts
  import opened Text
  import opened Int64
  import opened PaymentStore
  import opened PaymentRun
  import opened PaymentHistory

  // --- payment.intent.create ---------------------------------------------------------------

  /** Where a handler begins. */
  function FirstStage(step: Step): Stage
    requires Begins(step) && !step.BeginCallback?
  {
    match step
    case BeginCreate(_, request) => Stage.LookingUpKey(request)
    case BeginProcess(_, paymentId) => Reserving(paymentId)
    case BeginDelivery(_, paymentId) => Stage.LookingUpPayment(paymentId)
  }

  lemma BeginningMoves(config: Config, w: World, step: Step)
    requires Begins(step) && !step.BeginCallback? && step.h !in w.handlers
    ensures Leads(config, w, step, Moved(w, step.h, FirstStage(step)))
  {
  }

  lemma KeyIsKnown(config: Config, w: World, h: nat, request: PaymentCreate, id: string, now: int)
    requires h in w.handlers && w.handlers[h] == Stage.LookingUpKey(request)
    requires FoundByKey(w.payments, request.idempotencyKey, Some(id))
    ensures Leads(config, w, LookUpKey(h, Some(id), "", "", "", now),
                  Replied(w, h, request, if w.payments[id].requestHash != request.requestHash
                                         then Refused(Problem(409, IdempotencyKeyReused))
                                         else Data(ToIntent(w.payments[id], "", true))))
  {
  }

  lemma CurrencyIsRefused(config: Config, w: World, h: nat, request: PaymentCreate, now: int)
    requires h in w.handlers && w.handlers[h] == Stage.LookingUpKey(request)
    requires FoundByKey(w.payments, request.idempotencyKey, None) && ToUpper(request.currency) !in config.allowedCurrencies
    ensures Leads(config, w, LookUpKey(h, None, "", "", "", now),
                  Replied(w, h, request, Refused(Problem(400, UnsupportedCurrency))))
  {
  }

  lemma PaymentIsDrawn(config: Config, w: World, h: nat, request: PaymentCreate, id: string, reference: string,
                       qrCode: string, now: int)
    requires h in w.handlers && w.handlers[h] == Stage.LookingUpKey(request)
    requires FoundByKey(w.payments, request.idempotencyKey, None) && ToUpper(request.currency) in config.allowedCurrencies
    ensures Leads(config, w, LookUpKey(h, None, id, reference, qrCode, now),
                  Moved(w, h, Inserting(request, NewPayment(config, request, id, reference, now), qrCode)))
  {
  }

  lemma GatewayBreaks(config: Config, w: World, h: nat, request: PaymentCreate, payment: Payment, qrCode: string)
    requires h in w.handlers && w.handlers[h] == Inserting(request, payment, qrCode)
    ensures Leads(config, w, Breaks(h, true), Replied(w, h, request, Refused(Problem(502, PaymentIntentNotCreated))))
  {
  }

  /** What the step makes of a document that is unique. */
  lemma InsertLeads(config: Config, w: World, h: nat, request: PaymentCreate, p: Payment, qrCode: string,
                    messageId: string, now: int)
    returns (w': World)
    requires h in w.handlers && w.handlers[h] == Inserting(request, p, qrCode) && messageId !in w.uuids
    requires IsUnique(w.payments, p) && p.pendingMessages == []
    ensures Leads(config, w, Insert(h, messageId, now), w')
    ensures var entry := NewEntry(p, Request, messageId, ProcessRequested(p.id, p.paymentReference));
            && w'.payments == w.payments[p.id := p.(pendingMessages := [ToPending(entry, now)])]
            && w'.uuids == w.uuids + {messageId} && w'.handlers == w.handlers[h := Finished]
            && w'.holdings == w.holdings && w'.bus == w.bus && w'.membership == w.membership
            && RpcReply(request, Data(ToIntent(p, qrCode, false))) in w'.replies
  {
    var entry := NewEntry(p, Request, messageId, ProcessRequested(p.id, p.paymentReference));
    w' := Inserted(w, h, request, p, qrCode, messageId, now);
    assert [] + Pendings([entry], now) == [ToPending(entry, now)];
    assert (set e | e in [entry] :: e.id) == {messageId};
  }

  // --- payment.process.requested -----------------------------------------------------------

  lemma ReserveLeads(config: Config, w: World, h: nat, paymentId: string, now: int)
    requires h in w.handlers && w.handlers[h] == Reserving(paymentId)
    requires paymentId in w.payments && CanReserve(w.payments[paymentId], now)
    ensures var p := Reserved(w.payments[paymentId], now);
            Leads(config, w, Reserve(h, now), Stored(w, h, Announcing(p), p, [], now))
  {
  }

  lemma ReserveFailing(config: Config, w: World, h: nat, paymentId: string, now: int)
    requires h in w.handlers && w.handlers[h] == Reserving(paymentId)
    requires !(paymentId in w.payments && CanReserve(w.payments[paymentId], now))
    ensures Leads(config, w, Reserve(h, now), Moved(w, h, LookingAgain(paymentId, now)))
  {
  }

  predicate IsLate(payments: Payments, paymentId: string, now: int) {
    paymentId in payments && payments[paymentId].paymentStatus == Pending && payments[paymentId].expiresAt < now
  }

  lemma LookingAgainLeads(config: Config, w: World, h: nat, paymentId: string, now: int)
    requires h in w.handlers && w.handlers[h] == LookingAgain(paymentId, now)
    ensures Leads(config, w, LookAgain(h),
                  Moved(w, h, if IsLate(w.payments, paymentId, now) then Expiring(w.payments[paymentId]) else Finished))
  {
  }

  lemma Announces(config: Config, w: World, h: nat, p: Payment, messageId: string, now: int)
    requires h in w.handlers && w.handlers[h] == Announcing(p) && messageId !in w.uuids
    requires p.id in w.payments && w.payments[p.id] == p
    ensures Leads(config, w, Announce(h, messageId, now),
                  Stored(w, h, Charging(p), p, [StatusEntry(p, PaymentStatus.Processing, p.deliveryStatus, messageId)], now))
  {
  }

  function AfterCharge(config: Config, p: Payment, charge: Charge): Stage {
    match charge
    case NotCharged(reason) => Failing(p, reason)
    case Charged(result) => if config.simulateWebhook then CallingBack(p, result) else Finished
  }

  lemma ChargeLeads(config: Config, w: World, h: nat, p: Payment, charge: Charge)
    requires h in w.handlers && w.handlers[h] == Charging(p)
    ensures Leads(config, w, DoCharge(h, charge), Moved(w, h, AfterCharge(config, p, charge)))
  {
  }

  lemma FailLeads(config: Config, w: World, h: nat, seen: Payment, reason: string, messageId: string, now: int)
    requires h in w.handlers && w.handlers[h] == Failing(seen, reason) && messageId !in w.uuids && seen.id in w.payments
    ensures var p := w.payments[seen.id];
            Leads(config, w, Fail(h, messageId, now),
                  Transitioned(w, h, CanFail(p), MarkedFailed(p, reason),
                               [StatusEntry(seen, Failed, seen.deliveryStatus, messageId)], now))
  {
  }

  lemma CallBackLeads(config: Config, w: World, h: nat, seen: Payment, result: GatewayResult, messageId: string, now: int)
    requires h in w.handlers && w.handlers[h] == CallingBack(seen, result) && messageId !in w.uuids && seen.id in w.payments
    ensures Leads(config, w, CallBack(h, messageId, now),
                  Transitioned(w, h, true, w.payments[seen.id],
                               [NewEntry(seen, CallbackKind, messageId, CallbackConfirmed(SimulatedCallback(seen, result)))],
                               now))
  {
  }

  // --- payment.callback.confirmed ----------------------------------------------------------

  lemma CallbackBegins(config: Config, w: World, h: nat, callback: Callback)
    requires h !in w.handlers
    ensures Leads(config, w, BeginCallback(h, callback),
                  Moved(w.(callbacks := w.callbacks + {callback}), h, Stage.LookingUpReference(callback)))
  {
  }

  lemma ReferenceLooksUp(config: Config, w: World, h: nat, callback: Callback, found: Option<string>, now: int)
    requires h in w.handlers && w.handlers[h] == Stage.LookingUpReference(callback)
    requires FoundByReference(w.payments, callback.paymentReference, found)
    ensures Leads(config, w, LookUpReference(h, found, now), CallbackLookedUp(config, w, h, callback, found, now))
  {
  }

  function ExpiryEntries(p: Payment, messageId: string): (entries: seq<Entry>)
    ensures |entries| == 1 && entries[0].id == messageId
  {
    [StatusEntry(p, Expired, p.deliveryStatus, messageId)]
  }

  lemma ExpireLeads(config: Config, w: World, h: nat, p: Payment, messageId: string, now: int)
    requires h in w.handlers && w.handlers[h] == Expiring(p) && messageId !in w.uuids
    requires p.id in w.payments && w.payments[p.id] == p
    ensures Leads(config, w, Expire(h, messageId, now),
                  Transitioned(w, h, CanSettle(p), MarkedExpired(p), ExpiryEntries(p, messageId), now))
  {
  }

  function CompletionEntries(p: Payment, callback: Callback, statusId: string, deliveryId: string): (entries: seq<Entry>)
    requires callback.occurredAt.Some?
    ensures |entries| == 2 && entries[0].id == statusId && entries[1].id == deliveryId
  {
    [StatusEntry(p.(confirmedAt := callback.occurredAt), Completed, p.deliveryStatus, statusId),
     NewEntry(p, Delivery, deliveryId, DeliveryRequested(p.id, p.userId))]
  }

  lemma CompleteLeads(config: Config, w: World, h: nat, p: Payment, callback: Callback, statusId: string,
                      deliveryId: string, now: int)
    requires h in w.handlers && w.handlers[h] == Completing(p, callback) && callback.occurredAt.Some?
    requires statusId !in w.uuids && deliveryId !in w.uuids && statusId != deliveryId
    requires p.id in w.payments && w.payments[p.id] == p
    ensures Leads(config, w, Complete(h, statusId, deliveryId, now),
                  Transitioned(w, h, CanSettle(p), MarkedCompleted(p, callback.eventId, callback.occurredAt.value),
                               CompletionEntries(p, callback, statusId, deliveryId), now))
  {
  }

  // --- payment.delivery.requested ----------------------------------------------------------

  lemma PaymentLooksUp(config: Config, w: World, h: nat, paymentId: string)
    requires h in w.handlers && w.handlers[h] == Stage.LookingUpPayment(paymentId)
    ensures Leads(config, w, LookUpPayment(h), DeliveryLookedUp(w, h, paymentId))
  {
  }

  function DeliveryEntries(p: Payment, statusId: string, confirmedId: string): (entries: seq<Entry>)
    ensures |entries| == 2 && entries[0].id == statusId && entries[1].id == confirmedId
  {
    [StatusEntry(p, Completed, Delivered, statusId),
     NewEntry(p, Confirmation, confirmedId, PaymentConfirmed(p.id, p.userId, p.confirmedAt))]
  }

  lemma DeliverLeads(config: Config, w: World, h: nat, p: Payment, statusId: string, confirmedId: string, now: int)
    requires h in w.handlers && w.handlers[h] == Delivering(p)
    requires statusId !in w.uuids && confirmedId !in w.uuids && statusId != confirmedId
    requires p.id in w.payments && w.payments[p.id] == p
    ensures Leads(config, w, Deliver(h, statusId, confirmedId, now),
                  Transitioned(w, h, CanDeliver(p), MarkedDelivery(p, Delivered, ""),
                               DeliveryEntries(p, statusId, confirmedId), now))
  {
  }

  // --- The publisher -----------------------------------------------------------------------

  lemma PublishLeads(config: Config, w: World, k: nat, sent: bool)
    requires k in w.holdings && w.holdings[k].stage == Held
    ensures Leads(config, w, Publish(k, sent), PublishedWorld(w, k, sent))
  {
  }

  lemma AcknowledgeLeads(config: Config, w: World, k: nat)
    requires k in w.holdings && w.holdings[k].stage == Published
    ensures var held := w.holdings[k];
            Leads(config, w, Acknowledge(k),
                  LetGo(w, k, Acknowledged(PendingOf(w, held.paymentId), held.message.id, held.message.claimToken)))
  {
  }

  lemma RetryLeads(config: Config, w: World, k: nat, nextAttemptAt: int)
    requires k in w.holdings && w.holdings[k].stage == Unpublished
    ensures var held := w.holdings[k];
            Leads(config, w, RetryLater(k, nextAttemptAt),
                  LetGo(w, k, Retried(PendingOf(w, held.paymentId), held.message.id, held.message.claimToken,
                                           nextAttemptAt, held.message.attempts + 1)))
  {
  }

  lemma ConsumeLeads(config: Config, w: World, index: nat, rejectsDuplicate: bool)
    requires index < |w.bus| && w.bus[index].body.event.PaymentConfirmed?
    ensures Leads(config, w, Consume(index, rejectsDuplicate), Consumed(w, w.bus[index].body.event, rejectsDuplicate))
  {
  }
}
