/**
 What each handler of the payment service makes of the store when nobody else is at work: which
 document changes, into what, and which events its outbox gains.
 */
module PaymentOutcomes {
  import opened Wrappers
  import opened Contracts
  import opened Text
  import opened Int64
  import opened PaymentStore
  import opened PaymentRun
  import opened Retry

  /** The outbox has gained unclaimed messages for the events, at the end and in order. */
  ghost predicate Appends(before: seq<PendingMessage>, after: seq<PendingMessage>, events: seq<Event>, now: int) {
    && |after| == |before| + |events| && before <= after
    && forall i :: 0 <= i < |events| ==>
         var m := after[|before| + i];
         m.body.event == events[i] && m == PendingMessage(m.id, m.body, 0, now, "", None)
  }

  /** The document becomes the given one and announces the events; every other document stays. */
  ghost predicate Changes(payments: Payments, payments': Payments, p: Payment, events: seq<Event>, now: int) {
    && p.id in payments'
    && payments' == payments[p.id := payments'[p.id]]
    && payments'[p.id] == p.(pendingMessages := payments'[p.id].pendingMessages)
    && Appends(p.pendingMessages, payments'[p.id].pendingMessages, events, now)
  }

  /** Changes, for proofs that need not look inside it. */
  ghost predicate Becomes(payments: Payments, payments': Payments, p: Payment, events: seq<Event>, now: int) {
    forall q :: q == p ==> Changes(payments, payments', q, events, now)
  }

  lemma StoringBecomes(payments: Payments, p: Payment, entries: seq<Entry>, events: seq<Event>, now: int)
    requires |entries| == |events| && forall i :: 0 <= i < |entries| ==> entries[i].body.event == events[i]
    ensures Becomes(payments, payments[p.id := WithMessages(p, Pendings(entries, now))], p, events, now)
  {
    var payments' := payments[p.id := WithMessages(p, Pendings(entries, now))];
    assert Appends(p.pendingMessages, payments'[p.id].pendingMessages, events, now);
  }

  lemma AppendingTwice(a: seq<PendingMessage>, b: seq<PendingMessage>, c: seq<PendingMessage>, first: seq<Event>,
                       second: seq<Event>, now: int)
    requires Appends(a, b, first, now) && Appends(b, c, second, now)
    ensures Appends(a, c, first + second, now)
  {
    forall i | 0 <= i < |first + second|
      ensures var m := c[|a| + i];
              m.body.event == (first + second)[i] && m == PendingMessage(m.id, m.body, 0, now, "", None)
    {
      if i < |first| {
        assert (first + second)[i] == first[i];
        assert c[|a| + i] == b[|a| + i];
      } else {
        var j := i - |first|;
        assert (first + second)[i] == second[j];
        assert c[|b| + j] == c[|a| + i];
      }
    }
  }

  /** One change of the document after another. */
  lemma BecomesTwice(payments: Payments, between: Payments, payments': Payments, p: Payment, q: Payment,
                     first: seq<Event>, second: seq<Event>, now: int)
    requires Becomes(payments, between, p, first, now) && q.id == p.id && q.pendingMessages == p.pendingMessages
    requires p.id in between
    requires Becomes(between, payments', q.(pendingMessages := between[p.id].pendingMessages), second, now)
    ensures Becomes(payments, payments', q, first + second, now)
  {
    assert Changes(payments, between, p, first, now);
    assert Changes(between, payments', q.(pendingMessages := between[p.id].pendingMessages), second, now);
    AppendingTwice(p.pendingMessages, between[p.id].pendingMessages, payments'[p.id].pendingMessages, first, second, now);
  }

  function StatusEvent(p: Payment, status: PaymentStatus, delivery: DeliveryStatus): Event {
    StatusUpdated(p.id, p.userId, status, delivery, p.confirmedAt)
  }

  // --- payment.intent.create ---------------------------------------------------------------

  /** The reply to a request, and what it stores; intent is None when the gateway fails. */
  ghost predicate Answers(config: Config, payments: Payments, payments': Payments, request: PaymentCreate, now: int,
                          intent: Option<string>, reply: RpcOutcome<PaymentIntent>)
  {
    if !FoundByKey(payments, request.idempotencyKey, None) then
      payments' == payments && Replays(payments, request, reply)
    else if ToUpper(request.currency) !in config.allowedCurrencies then
      payments' == payments && reply == Refused(Problem(400, UnsupportedCurrency))
    else if intent.None? then
      payments' == payments && reply == Refused(Problem(502, PaymentIntentNotCreated))
    else
      reply.Data? && Creates(config, payments, payments', request, now, intent.value, reply.data)
  }

  /** The payment under the request's key answers, with a conflict if it was made for another digest. */
  ghost predicate Replays(payments: Payments, request: PaymentCreate, reply: RpcOutcome<PaymentIntent>) {
    exists id :: FoundByKey(payments, request.idempotencyKey, Some(id)) && reply ==
      if payments[id].requestHash == request.requestHash then Data(ToIntent(payments[id], "", true))
      else Refused(Problem(409, IdempotencyKeyReused))
  }

  /** One new payment is stored, and its processing requested. */
  ghost predicate Creates(config: Config, payments: Payments, payments': Payments, request: PaymentCreate, now: int,
                          qrCode: string, data: PaymentIntent)
  {
    var p := NewPayment(config, request, data.id, data.paymentReference, now);
    && IsUnique(payments, p) && data == ToIntent(p, qrCode, false)
    && Becomes(payments, payments', p, [ProcessRequested(p.id, p.paymentReference)], now)
  }

  // --- payment.process.requested -----------------------------------------------------------

  /** Go's zero time, in nanoseconds since 1970. */
  const ZERO_TIME: int := -62_135_596_800_000_000_000

  /** The gateway as retry drives it: its outcome at each attempt, and what it says at the end. */
  datatype Gateway = Gateway(attempts: int, delay: int, backoff: int, operation: int -> Option<GatewayError>,
                             reason: string, result: GatewayResult)

  /** What retry ends with. */
  function FinalError(gateway: Gateway): Option<GatewayError> {
    if gateway.attempts < 1 then None else gateway.operation(LastAttempt(gateway.attempts, gateway.operation, 1))
  }

  /** Without attempts nothing is ever assigned to the result. */
  function FinalResult(gateway: Gateway): GatewayResult {
    if gateway.attempts < 1 then GatewayResult("", ZERO_TIME) else gateway.result
  }

  ghost predicate Processes(config: Config, payments: Payments, payments': Payments, paymentId: string, now: int,
                            gateway: Gateway)
  {
    if paymentId in payments && CanReserve(payments[paymentId], now) then
      IsCharged(config, payments, payments', Reserved(payments[paymentId], now), now, gateway)
    else
      ExpiresIfLate(payments, payments', paymentId, now)
  }

  /** A reserved payment is processing, and then failed or, in the simulation, called back. */
  ghost predicate IsCharged(config: Config, payments: Payments, payments': Payments, p: Payment, now: int, gateway: Gateway) {
    var begun := StatusEvent(p, PaymentStatus.Processing, p.deliveryStatus);
    if FinalError(gateway).Some? then
      Becomes(payments, payments', MarkedFailed(p, gateway.reason), [begun] + [StatusEvent(p, Failed, p.deliveryStatus)], now)
    else if config.simulateWebhook then
      Becomes(payments, payments', p, [begun] + [CallbackConfirmed(SimulatedCallback(p, FinalResult(gateway)))], now)
    else
      Becomes(payments, payments', p, [begun], now)
  }

  ghost predicate ExpiresIfLate(payments: Payments, payments': Payments, paymentId: string, now: int) {
    if paymentId in payments && payments[paymentId].paymentStatus == Pending && payments[paymentId].expiresAt < now then
      IsExpired(payments, payments', payments[paymentId], now)
    else payments' == payments
  }

  ghost predicate IsExpired(payments: Payments, payments': Payments, p: Payment, now: int) {
    Becomes(payments, payments', MarkedExpired(p), [StatusEvent(p, Expired, p.deliveryStatus)], now)
  }

  // --- payment.callback.confirmed ----------------------------------------------------------

  /** The callback is recent and agrees with the payment, which is not settled yet. */
  predicate IsTaken(config: Config, p: Payment, callback: Callback, now: int) {
    && p.paymentReference == callback.paymentReference
    && callback.occurredAt.Some? && AbsDuration(Saturated(now - callback.occurredAt.value)) <= config.tolerance
    && p.amount == callback.amount && p.currency == callback.currency
    && CanSettle(p)
  }

  ghost predicate IsSettled(payments: Payments, payments': Payments, p: Payment, callback: Callback, now: int)
    requires callback.occurredAt.Some?
  {
    if p.expiresAt < callback.occurredAt.value then IsExpired(payments, payments', p, now)
    else IsCompleted(payments, payments', p, callback, now)
  }

  ghost predicate IsCompleted(payments: Payments, payments': Payments, p: Payment, callback: Callback, now: int)
    requires callback.occurredAt.Some?
  {
    var time := callback.occurredAt.value;
    Becomes(payments, payments', MarkedCompleted(p, callback.eventId, time),
            [StatusEvent(p.(confirmedAt := Some(time)), Completed, p.deliveryStatus), DeliveryRequested(p.id, p.userId)], now)
  }

  // --- payment.delivery.requested ----------------------------------------------------------

  ghost predicate Delivers(payments: Payments, payments': Payments, paymentId: string, now: int) {
    if paymentId in payments && CanDeliver(payments[paymentId]) then
      IsDelivered(payments, payments', payments[paymentId], now)
    else payments' == payments
  }

  ghost predicate IsDelivered(payments: Payments, payments': Payments, p: Payment, now: int) {
    Becomes(payments, payments', MarkedDelivery(p, Delivered, ""),
            [StatusEvent(p, Completed, Delivered), PaymentConfirmed(p.id, p.userId, p.confirmedAt)], now)
  }
}
