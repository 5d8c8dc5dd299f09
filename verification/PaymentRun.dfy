/**
 The payment service at work: any number of handlers, publishers and consumers, interleaved at
 every call of the store, over a network that may duplicate, reorder, delay and drop.

 A message that was published stays on the bus for ever, and a consumer may take any of them any
 number of times.  A process that stops is one that takes no further step.
 */
module PaymentRun {
  import opened Wrappers
  import opened Contracts
  import opened PaymentStore
  import opened Text
  import opened Int64

  datatype Config = Config(allowedCurrencies: set<string>, expiration: int, tolerance: int, simulateWebhook: bool)

  /** A message at the moment it was enqueued. */
  datatype Entry = Entry(paymentId: string, kind: Kind, id: string, body: Envelope)

  /** Where a handler stands; seen is the document it has read. */
  datatype Stage =
    | LookingUpKey(request: PaymentCreate)
    | Inserting(request: PaymentCreate, payment: Payment, qrCode: string)
    | Reserving(paymentId: string)
    | LookingAgain(paymentId: string, now: int)
    | Expiring(seen: Payment)
    | Announcing(seen: Payment)
    | Charging(seen: Payment)
    | Failing(seen: Payment, reason: string)
    | CallingBack(seen: Payment, result: GatewayResult)
    | LookingUpReference(callback: Callback)
    | Completing(seen: Payment, callback: Callback)
    | LookingUpPayment(paymentId: string)
    | Delivering(seen: Payment)
    | Finished

  datatype GatewayResult = GatewayResult(reference: string, completedAt: int)

  datatype Charge = Charged(result: GatewayResult) | NotCharged(reason: string)

  /** One claimed message in the hands of a publisher. */
  datatype HoldStage = Held | Published | Unpublished | Dropped

  datatype Holding = Holding(paymentId: string, message: PendingMessage, stage: HoldStage)

  datatype RpcReply = RpcReply(request: PaymentCreate, outcome: RpcOutcome<PaymentIntent>)

  datatype OutboxRow = OutboxRow(routingKey: string, userId: string)

  datatype Membership = Membership(premium: set<string>, receipts: set<string>, outbox: seq<OutboxRow>)

  datatype World = World(
    payments: Payments,
    log: seq<Entry>,
    handlers: map<nat, Stage>,
    replies: set<RpcReply>,
    callbacks: set<Callback>,
    uuids: set<string>,
    holdings: map<nat, Holding>,
    bus: seq<Entry>,
    clock: int,
    membership: Membership)

  const EMPTY := World(map[], [], map[], {}, {}, {""}, map[], [], 0, Membership({}, {}, []))

  /** Breaks stands for an error of the store, or of the gateway, at the call that a handler is about to make. */
  datatype Step =
    | BeginCreate(h: nat, request: PaymentCreate)
    | LookUpKey(h: nat, found: Option<string>, id: string, reference: string, qrCode: string, now: int)
    | Insert(h: nat, messageId: string, now: int)
    | BeginProcess(h: nat, paymentId: string)
    | Reserve(h: nat, now: int)
    | LookAgain(h: nat)
    | Announce(h: nat, messageId: string, now: int)
    | DoCharge(h: nat, charge: Charge)
    | Fail(h: nat, messageId: string, now: int)
    | CallBack(h: nat, messageId: string, now: int)
    | BeginCallback(h: nat, callback: Callback)
    | LookUpReference(h: nat, found: Option<string>, now: int)
    | Expire(h: nat, messageId: string, now: int)
    | Complete(h: nat, statusId: string, deliveryId: string, now: int)
    | BeginDelivery(h: nat, paymentId: string)
    | LookUpPayment(h: nat)
    | Deliver(h: nat, statusId: string, confirmedId: string, now: int)
    | Breaks(h: nat, atGateway: bool)
    | Claim(k: nat, paymentId: string, index: nat, token: string, before: int, until: int)
    | Publish(k: nat, sent: bool)
    | Acknowledge(k: nat)
    | RetryLater(k: nat, nextAttemptAt: int)
    | Tick(now: int)
    | Consume(index: nat, rejectsDuplicate: bool)

  // --- Building blocks -----------------------------------------------------------------

  function NewEntry(p: Payment, kind: Kind, id: string, event: Event): Entry {
    Entry(p.id, kind, id, Envelope(MessageId(kind, p.id, p.paymentReference), event))
  }

  function StatusEntry(p: Payment, status: PaymentStatus, delivery: DeliveryStatus, id: string): Entry {
    NewEntry(p, Status(status, delivery), id, StatusUpdated(p.id, p.userId, status, delivery, p.confirmedAt))
  }

  function ToPending(e: Entry, now: int): PendingMessage {
    PendingMessage(e.id, e.body, 0, now, "", None)
  }

  function Pendings(entries: seq<Entry>, now: int): (messages: seq<PendingMessage>)
    ensures |messages| == |entries|
    ensures forall i :: 0 <= i < |entries| ==> messages[i] == ToPending(entries[i], now)
  {
    seq(|entries|, i requires 0 <= i < |entries| => ToPending(entries[i], now))
  }

  /** What stands in for the provider's webhook. */
  function SimulatedCallback(seen: Payment, result: GatewayResult): Callback {
    Callback(MessageId(CallbackKind, seen.id, seen.paymentReference), result.reference, seen.amount, seen.currency,
             Some(result.completedAt))
  }

  /** Stores the document together with the messages, and moves the handler on. */
  function Stored(w: World, h: nat, next: Stage, p: Payment, entries: seq<Entry>, now: int): World {
    w.(payments := w.payments[p.id := WithMessages(p, Pendings(entries, now))],
       log := w.log + entries,
       handlers := w.handlers[h := next],
       uuids := w.uuids + set e | e in entries :: e.id)
  }

  function Moved(w: World, h: nat, next: Stage): World {
    w.(handlers := w.handlers[h := next])
  }

  function Replied(w: World, h: nat, request: PaymentCreate, outcome: RpcOutcome<PaymentIntent>): World {
    w.(handlers := w.handlers[h := Finished], replies := w.replies + {RpcReply(request, outcome)})
  }

  function ToIntent(p: Payment, qrCode: string, replayed: bool): PaymentIntent {
    PaymentIntent(p.id, p.paymentReference, p.amount, p.currency, p.paymentStatus, p.deliveryStatus, p.expiresAt,
                  qrCode, replayed)
  }

  function NewPayment(config: Config, r: PaymentCreate, id: string, reference: string, now: int): Payment {
    Payment(id, r.idempotencyKey, r.requestHash, r.userId, reference, r.amount, ToUpper(r.currency), Pending,
            DeliveryPending, 0, now + config.expiration, None, None, "", "", [], [])
  }

  predicate IsUnique(payments: Payments, p: Payment) {
    && p.id !in payments
    && forall id :: id in payments ==>
         payments[id].idempotencyKey != p.idempotencyKey && payments[id].paymentReference != p.paymentReference
  }

  predicate FoundByKey(payments: Payments, key: string, found: Option<string>) {
    match found
    case Some(id) => id in payments && payments[id].idempotencyKey == key
    case None => forall id :: id in payments ==> payments[id].idempotencyKey != key
  }

  predicate FoundByReference(payments: Payments, reference: string, found: Option<string>) {
    match found
    case Some(id) => id in payments && payments[id].paymentReference == reference
    case None => forall id :: id in payments ==> payments[id].paymentReference != reference
  }

  // --- The steps -----------------------------------------------------------------------

  ghost predicate Enabled(w: World, step: Step) {
    match step
    case BeginCreate(h, _) => h !in w.handlers
    case LookUpKey(h, found, id, reference, _, _) =>
      && h in w.handlers && w.handlers[h].LookingUpKey?
      && FoundByKey(w.payments, w.handlers[h].request.idempotencyKey, found)
    case Insert(h, messageId, _) => h in w.handlers && w.handlers[h].Inserting? && messageId !in w.uuids
    case BeginProcess(h, _) => h !in w.handlers
    case Reserve(h, _) => h in w.handlers && w.handlers[h].Reserving?
    case LookAgain(h) => h in w.handlers && w.handlers[h].LookingAgain?
    case Announce(h, messageId, _) => h in w.handlers && w.handlers[h].Announcing? && messageId !in w.uuids
    case DoCharge(h, _) => h in w.handlers && w.handlers[h].Charging?
    case Fail(h, messageId, _) => h in w.handlers && w.handlers[h].Failing? && messageId !in w.uuids
    case CallBack(h, messageId, _) => h in w.handlers && w.handlers[h].CallingBack? && messageId !in w.uuids
    case BeginCallback(h, _) => h !in w.handlers
    case LookUpReference(h, found, _) =>
      && h in w.handlers && w.handlers[h].LookingUpReference?
      && FoundByReference(w.payments, w.handlers[h].callback.paymentReference, found)
    case Expire(h, messageId, _) => h in w.handlers && w.handlers[h].Expiring? && messageId !in w.uuids
    case Complete(h, statusId, deliveryId, _) =>
      h in w.handlers && w.handlers[h].Completing? && statusId !in w.uuids && deliveryId !in w.uuids && statusId != deliveryId
    case BeginDelivery(h, _) => h !in w.handlers
    case LookUpPayment(h) => h in w.handlers && w.handlers[h].LookingUpPayment?
    case Deliver(h, statusId, confirmedId, _) =>
      h in w.handlers && w.handlers[h].Delivering? && statusId !in w.uuids && confirmedId !in w.uuids && statusId != confirmedId
    case Breaks(h, _) => h in w.handlers && w.handlers[h] != Finished
    case Claim(k, paymentId, index, token, before, until) =>
      && k !in w.holdings && paymentId in w.payments && index < |w.payments[paymentId].pendingMessages|
      && Eligible(w.payments[paymentId].pendingMessages[index], before)
      && token !in w.uuids && until > before
    case Publish(k, _) => k in w.holdings && w.holdings[k].stage == Held
    case Acknowledge(k) => k in w.holdings && w.holdings[k].stage == Published
    case RetryLater(k, _) => k in w.holdings && w.holdings[k].stage == Unpublished
    case Tick(now) => now > w.clock
    case Consume(index, _) => index < |w.bus| && w.bus[index].body.event.PaymentConfirmed?
  }

  function CreateLookedUp(config: Config, w: World, h: nat, request: PaymentCreate, found: Option<string>,
                          id: string, reference: string, qrCode: string, now: int): World
    requires found.Some? ==> found.value in w.payments
  {
    if found.Some? then
      var existing := w.payments[found.value];
      if existing.requestHash != request.requestHash then
        Replied(w, h, request, Refused(Problem(409, IdempotencyKeyReused)))
      else Replied(w, h, request, Data(ToIntent(existing, "", true)))
    else if ToUpper(request.currency) !in config.allowedCurrencies then
      Replied(w, h, request, Refused(Problem(400, UnsupportedCurrency)))
    else Moved(w, h, Inserting(request, NewPayment(config, request, id, reference, now), qrCode))
  }

  function Inserted(w: World, h: nat, request: PaymentCreate, p: Payment, qrCode: string, messageId: string, now: int): World {
    if IsUnique(w.payments, p) then
      Replied(Stored(w, h, Finished, p, [NewEntry(p, Request, messageId, ProcessRequested(p.id, p.paymentReference))], now),
              h, request, Data(ToIntent(p, qrCode, false)))
    else Replied(w, h, request, Refused(Problem(500, PaymentNotSaved)))
  }

  function CallbackLookedUp(config: Config, w: World, h: nat, callback: Callback, found: Option<string>, now: int): World
    requires found.Some? ==> found.value in w.payments
  {
    if found.None? || callback.occurredAt.None? then Moved(w, h, Finished)
    else
      var p := w.payments[found.value];
      var time := callback.occurredAt.value;
      if AbsDuration(Saturated(now - time)) > config.tolerance then Moved(w, h, Finished)
      else if p.amount != callback.amount || p.currency != callback.currency then Moved(w, h, Finished)
      else if p.expiresAt < time then Moved(w, h, Expiring(p))
      else Moved(w, h, Completing(p, callback))
  }

  function DeliveryLookedUp(w: World, h: nat, paymentId: string): World {
    if paymentId in w.payments && w.payments[paymentId].paymentStatus == Completed
       && w.payments[paymentId].deliveryStatus != Delivered
    then Moved(w, h, Delivering(w.payments[paymentId]))
    else Moved(w, h, Finished)
  }

  function Current(w: World, seen: Payment): Payment {
    if seen.id in w.payments then w.payments[seen.id] else seen
  }

  /** A guarded transition: it stores document and messages together, or does nothing. */
  function Transitioned(w: World, h: nat, allowed: bool, p: Payment, entries: seq<Entry>, now: int): World {
    if p.id in w.payments && allowed then Stored(w, h, Finished, p, entries, now) else Moved(w, h, Finished)
  }

  function Claimed(w: World, k: nat, paymentId: string, index: nat, token: string, until: int): World
    requires paymentId in w.payments && index < |w.payments[paymentId].pendingMessages|
  {
    var p := w.payments[paymentId];
    var m := Stamped(p.pendingMessages[index], token, until);
    w.(payments := w.payments[paymentId := p.(pendingMessages := p.pendingMessages[index := m])],
       holdings := w.holdings[k := Holding(paymentId, m, Held)],
       uuids := w.uuids + {token})
  }

  function EntryOf(paymentId: string, m: PendingMessage): Entry {
    Entry(paymentId, KindOf(m.body.event), m.id, m.body)
  }

  function KindOf(event: Event): Kind {
    match event
    case ProcessRequested(_, _) => Request
    case StatusUpdated(_, _, status, delivery, _) => Status(status, delivery)
    case CallbackConfirmed(_) => CallbackKind
    case DeliveryRequested(_, _) => Delivery
    case PaymentConfirmed(_, _, _) => Confirmation
  }

  function WithPending(w: World, paymentId: string, messages: seq<PendingMessage>): World {
    if paymentId in w.payments then
      w.(payments := w.payments[paymentId := w.payments[paymentId].(pendingMessages := messages)])
    else w
  }

  function PendingOf(w: World, paymentId: string): seq<PendingMessage> {
    if paymentId in w.payments then w.payments[paymentId].pendingMessages else []
  }

  /** handlePaymentConfirmed; the inbox may or may not notice that it has seen the payment before. */
  function MemberActivated(m: Membership, paymentId: string, userId: string, rejectsDuplicate: bool): Membership {
    var receipt := "payment-confirmed:" + paymentId;
    if receipt in m.receipts && rejectsDuplicate then m
    else if userId in m.premium then m.(receipts := m.receipts + {receipt})
    else Membership(m.premium + {userId}, m.receipts + {receipt},
                    m.outbox + [OutboxRow("membership.premium-activated", userId), OutboxRow("user.premium-updated", userId)])
  }

  function ReservedWorld(w: World, h: nat, id: string, now: int): World {
    if id in w.payments && CanReserve(w.payments[id], now) then
      Stored(w, h, Announcing(Reserved(w.payments[id], now)), Reserved(w.payments[id], now), [], now)
    else Moved(w, h, LookingAgain(id, now))
  }

  function LookedAgain(w: World, h: nat, id: string, now: int): World {
    if id in w.payments && w.payments[id].paymentStatus == Pending && w.payments[id].expiresAt < now
    then Moved(w, h, Expiring(w.payments[id]))
    else Moved(w, h, Finished)
  }

  function Announced(w: World, h: nat, seen: Payment, messageId: string, now: int): World {
    if seen.id in w.payments then
      Stored(w, h, Charging(seen), w.payments[seen.id], [StatusEntry(seen, Processing, seen.deliveryStatus, messageId)], now)
    else Moved(w, h, Charging(seen))
  }

  function ChargedWorld(config: Config, w: World, h: nat, seen: Payment, charge: Charge): World {
    match charge
    case NotCharged(reason) => Moved(w, h, Failing(seen, reason))
    case Charged(result) => Moved(w, h, if config.simulateWebhook then CallingBack(seen, result) else Finished)
  }

  function FailedWorld(w: World, h: nat, seen: Payment, reason: string, messageId: string, now: int): World {
    Transitioned(w, h, CanFail(Current(w, seen)), MarkedFailed(Current(w, seen), reason),
                 [StatusEntry(seen, Failed, seen.deliveryStatus, messageId)], now)
  }

  function CalledBack(w: World, h: nat, seen: Payment, result: GatewayResult, messageId: string, now: int): World {
    Transitioned(w, h, true, Current(w, seen),
                 [NewEntry(seen, CallbackKind, messageId, CallbackConfirmed(SimulatedCallback(seen, result)))], now)
  }

  function ExpiredWorld(w: World, h: nat, seen: Payment, messageId: string, now: int): World {
    Transitioned(w, h, CanSettle(Current(w, seen)), MarkedExpired(Current(w, seen)),
                 [StatusEntry(seen, Expired, seen.deliveryStatus, messageId)], now)
  }

  function CompletedWorld(w: World, h: nat, seen: Payment, callback: Callback, statusId: string, deliveryId: string,
                          now: int): World
  {
    if callback.occurredAt.None? then Moved(w, h, Finished)
    else
      var time := callback.occurredAt.value;
      Transitioned(w, h, CanSettle(Current(w, seen)), MarkedCompleted(Current(w, seen), callback.eventId, time),
                   [StatusEntry(seen.(confirmedAt := Some(time)), Completed, seen.deliveryStatus, statusId),
                    NewEntry(seen, Delivery, deliveryId, DeliveryRequested(seen.id, seen.userId))], now)
  }

  function DeliveredWorld(w: World, h: nat, seen: Payment, statusId: string, confirmedId: string, now: int): World {
    Transitioned(w, h, CanDeliver(Current(w, seen)), MarkedDelivery(Current(w, seen), Delivered, ""),
                 [StatusEntry(seen, Completed, Delivered, statusId),
                  NewEntry(seen, Confirmation, confirmedId, PaymentConfirmed(seen.id, seen.userId, seen.confirmedAt))],
                 now)
  }

  function Broken(w: World, h: nat, stage: Stage, atGateway: bool): World {
    match stage
    case LookingUpKey(request) => Replied(w, h, request, Refused(Problem(500, PaymentStateNotLoaded)))
    case Inserting(request, _, _) =>
      Replied(w, h, request,
              Refused(if atGateway then Problem(502, PaymentIntentNotCreated) else Problem(500, PaymentNotSaved)))
    case _ => Moved(w, h, Finished)
  }

  function PublishedWorld(w: World, k: nat, sent: bool): World
    requires k in w.holdings
  {
    var held := w.holdings[k];
    if sent then
      w.(holdings := w.holdings[k := held.(stage := Published)],
         bus := w.bus + [EntryOf(held.paymentId, held.message)])
    else w.(holdings := w.holdings[k := held.(stage := Unpublished)])
  }

  /** The holder has let go of its message, and the outbox of the payment holds the messages given. */
  function LetGo(w: World, k: nat, messages: seq<PendingMessage>): World
    requires k in w.holdings
  {
    WithPending(w, w.holdings[k].paymentId, messages)
      .(holdings := w.holdings[k := w.holdings[k].(stage := Dropped)])
  }

  function AcknowledgedWorld(w: World, k: nat): World
    requires k in w.holdings
  {
    var held := w.holdings[k];
    LetGo(w, k, Acknowledged(PendingOf(w, held.paymentId), held.message.id, held.message.claimToken))
  }

  function RetriedWorld(w: World, k: nat, nextAttemptAt: int): World
    requires k in w.holdings
  {
    var held := w.holdings[k];
    LetGo(w, k, Retried(PendingOf(w, held.paymentId), held.message.id, held.message.claimToken, nextAttemptAt,
                        held.message.attempts + 1))
  }

  function Consumed(w: World, event: Event, rejectsDuplicate: bool): World
    requires event.PaymentConfirmed?
  {
    w.(membership := MemberActivated(w.membership, event.paymentId, event.userId, rejectsDuplicate))
  }

  function Started(w: World, h: nat, callback: Callback): World {
    Moved(w.(callbacks := w.callbacks + {callback}), h, Stage.LookingUpReference(callback))
  }

  ghost function Apply(config: Config, w: World, step: Step): World
    requires Enabled(w, step)
  {
    match step
    case BeginCreate(h, request) => Moved(w, h, Stage.LookingUpKey(request))
    case LookUpKey(h, found, id, reference, qrCode, now) =>
      CreateLookedUp(config, w, h, w.handlers[h].request, found, id, reference, qrCode, now)
    case Insert(h, messageId, now) =>
      Inserted(w, h, w.handlers[h].request, w.handlers[h].payment, w.handlers[h].qrCode, messageId, now)
    case BeginProcess(h, paymentId) => Moved(w, h, Reserving(paymentId))
    case Reserve(h, now) => ReservedWorld(w, h, w.handlers[h].paymentId, now)
    case LookAgain(h) => LookedAgain(w, h, w.handlers[h].paymentId, w.handlers[h].now)
    case Announce(h, messageId, now) => Announced(w, h, w.handlers[h].seen, messageId, now)
    case DoCharge(h, charge) => ChargedWorld(config, w, h, w.handlers[h].seen, charge)
    case Fail(h, messageId, now) => FailedWorld(w, h, w.handlers[h].seen, w.handlers[h].reason, messageId, now)
    case CallBack(h, messageId, now) => CalledBack(w, h, w.handlers[h].seen, w.handlers[h].result, messageId, now)
    case BeginCallback(h, callback) => Started(w, h, callback)
    case LookUpReference(h, found, now) => CallbackLookedUp(config, w, h, w.handlers[h].callback, found, now)
    case Expire(h, messageId, now) => ExpiredWorld(w, h, w.handlers[h].seen, messageId, now)
    case Complete(h, statusId, deliveryId, now) =>
      CompletedWorld(w, h, w.handlers[h].seen, w.handlers[h].callback, statusId, deliveryId, now)
    case BeginDelivery(h, paymentId) => Moved(w, h, Stage.LookingUpPayment(paymentId))
    case LookUpPayment(h) => DeliveryLookedUp(w, h, w.handlers[h].paymentId)
    case Deliver(h, statusId, confirmedId, now) => DeliveredWorld(w, h, w.handlers[h].seen, statusId, confirmedId, now)
    case Breaks(h, atGateway) => Broken(w, h, w.handlers[h], atGateway)
    case Claim(k, paymentId, index, token, _, until) => Claimed(w, k, paymentId, index, token, until)
    case Publish(k, sent) => PublishedWorld(w, k, sent)
    case Acknowledge(k) => AcknowledgedWorld(w, k)
    case RetryLater(k, nextAttemptAt) => RetriedWorld(w, k, nextAttemptAt)
    case Tick(now) => w.(clock := now)
    case Consume(index, rejectsDuplicate) => Consumed(w, w.bus[index].body.event, rejectsDuplicate)
  }

  // --- Kinds of steps --------------------------------------------------------------------

  predicate Begins(step: Step) {
    step.BeginCreate? || step.BeginProcess? || step.BeginCallback? || step.BeginDelivery?
  }

  predicate OnlyLooks(step: Step) {
    || step.LookUpKey? || step.LookAgain? || step.DoCharge? || step.LookUpReference? || step.LookUpPayment?
    || step.Breaks?
  }

  predicate OfOutbox(step: Step) {
    step.Claim? || step.Publish? || step.Acknowledge? || step.RetryLater? || step.Tick? || step.Consume?
  }

  /** Everything but the handlers, the replies and the callbacks is as it was. */
  predicate SameStore(w: World, w': World) {
    && w'.payments == w.payments && w'.log == w.log && w'.uuids == w.uuids
    && w'.holdings == w.holdings && w'.bus == w.bus && w'.clock == w.clock && w'.membership == w.membership
  }

  lemma FirstLooksStoreNothing(config: Config, w: World, step: Step)
    requires Enabled(w, step) && (step.LookUpKey? || step.LookUpReference?)
    ensures SameStore(w, Apply(config, w, step))
  {
  }

  lemma LaterLooksStoreNothing(config: Config, w: World, step: Step)
    requires Enabled(w, step) && OnlyLooks(step) && !step.LookUpKey? && !step.LookUpReference?
    ensures SameStore(w, Apply(config, w, step))
  {
  }

  lemma LookingStoresNothing(config: Config, w: World, step: Step)
    requires Enabled(w, step) && OnlyLooks(step)
    ensures SameStore(w, Apply(config, w, step))
  {
    if step.LookUpKey? || step.LookUpReference? {
      FirstLooksStoreNothing(config, w, step);
    } else {
      LaterLooksStoreNothing(config, w, step);
    }
  }

  lemma BeginningStoresNothing(config: Config, w: World, step: Step)
    requires Enabled(w, step) && Begins(step)
    ensures SameStore(w, Apply(config, w, step))
  {
  }
}
