/**
 The payment document, its outbox, and the guarded updates that both stores make to it.

 Timestamps for bookkeeping and the customer's data are left out of the document.
 */
module PaymentStore {
  import opened Wrappers
  import opened Contracts

  datatype Event =
    | ProcessRequested(paymentId: string, paymentReference: string)
    | StatusUpdated(paymentId: string, userId: string, status: PaymentStatus, delivery: DeliveryStatus,
                    confirmedAt: Option<int>)
    | CallbackConfirmed(callback: Callback)
    | DeliveryRequested(paymentId: string, userId: string)
    | PaymentConfirmed(paymentId: string, userId: string, confirmedAt: Option<int>)

  /** The payload of payment.callback.confirmed; occurredAt is None when it is not a time. */
  datatype Callback = Callback(eventId: string, paymentReference: string, amount: real, currency: string,
                               occurredAt: Option<int>)

  datatype Envelope = Envelope(messageId: string, event: Event)

  datatype PendingMessage = PendingMessage(id: string, body: Envelope, attempts: nat, nextAttemptAt: int,
                                           claimToken: string, claimedUntil: Option<int>)

  datatype Payment = Payment(
    id: string, idempotencyKey: string, requestHash: Digest, userId: string, paymentReference: string,
    amount: real, currency: string, paymentStatus: PaymentStatus, deliveryStatus: DeliveryStatus,
    processingAttempts: nat, expiresAt: int, processingStartedAt: Option<int>, confirmedAt: Option<int>,
    failureReason: string, deliveryFailureReason: string,
    webhookEventIds: seq<string>, pendingMessages: seq<PendingMessage>)

  type Payments = map<string, Payment>

  // --- Guarded transitions -------------------------------------------------------------

  predicate CanReserve(p: Payment, now: int) {
    p.paymentStatus == Pending && p.expiresAt > now
  }

  function Reserved(p: Payment, now: int): Payment {
    p.(paymentStatus := Processing, processingAttempts := p.processingAttempts + 1,
       processingStartedAt := Some(now), failureReason := "")
  }

  predicate CanFail(p: Payment) {
    p.paymentStatus == Processing
  }

  function MarkedFailed(p: Payment, reason: string): Payment {
    p.(paymentStatus := Failed, failureReason := reason)
  }

  predicate CanSettle(p: Payment) {
    p.paymentStatus in {Pending, Processing, Failed}
  }

  function MarkedExpired(p: Payment): Payment {
    p.(paymentStatus := Expired, processingStartedAt := None)
  }

  /** An event without an id leaves none behind. */
  function EventIds(eventId: string): seq<string> {
    if eventId == "" then [] else [eventId]
  }

  function MarkedCompleted(p: Payment, eventId: string, confirmedAt: int): Payment {
    p.(paymentStatus := Completed, confirmedAt := Some(confirmedAt), failureReason := "",
       processingStartedAt := None,
       webhookEventIds := if eventId != "" && eventId !in p.webhookEventIds then p.webhookEventIds + [eventId]
                          else p.webhookEventIds)
  }

  predicate CanDeliver(p: Payment) {
    p.paymentStatus == Completed && p.deliveryStatus == DeliveryPending
  }

  function MarkedDelivery(p: Payment, status: DeliveryStatus, reason: string): Payment {
    p.(deliveryStatus := status, deliveryFailureReason := reason)
  }

  function WithMessages(p: Payment, messages: seq<PendingMessage>): Payment {
    p.(pendingMessages := p.pendingMessages + messages)
  }

  // --- The outbox ----------------------------------------------------------------------

  predicate IsClaimed(m: PendingMessage, now: int) {
    m.claimToken != "" && m.claimedUntil.Some? && m.claimedUntil.value > now
  }

  predicate Eligible(m: PendingMessage, before: int) {
    m.nextAttemptAt <= before && !IsClaimed(m, before)
  }

  function Stamped(m: PendingMessage, token: string, until: int): PendingMessage {
    m.(claimToken := token, claimedUntil := Some(until))
  }

  function Postponed(m: PendingMessage, nextAttemptAt: int, attempts: nat): PendingMessage {
    m.(nextAttemptAt := nextAttemptAt, attempts := attempts, claimToken := "", claimedUntil := None)
  }

  /** The messages without those that carry both the id and the claim token. */
  function Acknowledged(messages: seq<PendingMessage>, id: string, token: string): (kept: seq<PendingMessage>)
    ensures forall m :: m in kept <==> m in messages && !(m.id == id && m.claimToken == token)
  {
    if messages == [] then []
    else
      var rest := Acknowledged(messages[1..], id, token);
      if messages[0].id != id || messages[0].claimToken != token then [messages[0]] + rest else rest
  }

  /** The messages with the first that carries both the id and the claim token postponed. */
  function Retried(messages: seq<PendingMessage>, id: string, token: string, nextAttemptAt: int, attempts: nat)
    : (kept: seq<PendingMessage>)
    ensures |kept| == |messages|
  {
    if messages == [] then []
    else if messages[0].id == id && messages[0].claimToken == token then
      [Postponed(messages[0], nextAttemptAt, attempts)] + messages[1..]
    else [messages[0]] + Retried(messages[1..], id, token, nextAttemptAt, attempts)
  }

  /** An acknowledgement or a retry with a token that no message carries changes nothing. */
  lemma {:induction false} StaleTokensChangeNothing(messages: seq<PendingMessage>, id: string, token: string,
                                                    nextAttemptAt: int, attempts: nat)
    requires forall m :: m in messages && m.id == id ==> m.claimToken != token
    ensures Acknowledged(messages, id, token) == messages
    ensures Retried(messages, id, token, nextAttemptAt, attempts) == messages
  {
    if messages != [] {
      StaleTokensChangeNothing(messages[1..], id, token, nextAttemptAt, attempts);
      assert messages == [messages[0]] + messages[1..];
    }
  }

  // --- Logical message ids -------------------------------------------------------------

  datatype Kind = Request | Status(payment: PaymentStatus, delivery: DeliveryStatus) | CallbackKind | Delivery | Confirmation

  function PaymentStatusCode(status: PaymentStatus): string {
    match status
    case Pending => "p"
    case Processing => "pr"
    case Completed => "c"
    case Failed => "f"
    case Expired => "e"
  }

  function DeliveryStatusCode(status: DeliveryStatus): string {
    match status
    case DeliveryPending => "p"
    case Delivered => "d"
    case DeliveryFailed => "f"
  }

  function StatusMessageId(paymentId: string, status: PaymentStatus, delivery: DeliveryStatus): string {
    "psu:" + paymentId + ":" + PaymentStatusCode(status) + ":" + DeliveryStatusCode(delivery)
  }

  /** The id of the message of a kind; a callback is named after the reference, the rest after the payment. */
  function MessageId(kind: Kind, paymentId: string, paymentReference: string): string {
    match kind
    case Request => "ppd:" + paymentId
    case CallbackKind => "pcb:" + paymentReference
    case Delivery => "pdr:" + paymentId
    case Confirmation => "pcf:" + paymentId
    case Status(status, delivery) => StatusMessageId(paymentId, status, delivery)
  }

  lemma EqualEndings(a: string, x: string, b: string, y: string)
    requires a + x == b + y && |x| == |y|
    ensures a == b && x == y
  {
    assert a == (a + x)[..|a|] && b == (b + y)[..|b|];
    assert x == (a + x)[|a|..] && y == (b + y)[|b|..];
  }

  function LastOfStatusCode(status: PaymentStatus): (last: char)
    ensures PaymentStatusCode(status)[|PaymentStatusCode(status)| - 1] == last
  {
    if status.Processing? then 'r' else PaymentStatusCode(status)[0]
  }

  lemma StatusCodesAreDistinct(s1: PaymentStatus, s2: PaymentStatus, a: string, b: string)
    requires a + PaymentStatusCode(s1) == b + PaymentStatusCode(s2)
    ensures s1 == s2 && a == b
  {
    var m := a + PaymentStatusCode(s1);
    assert m[|m| - 1] == LastOfStatusCode(s1);
    assert m[|m| - 1] == LastOfStatusCode(s2);
    assert s1 == s2;
    EqualEndings(a, PaymentStatusCode(s1), b, PaymentStatusCode(s2));
  }

  /** Whatever characters the payment ids are made of, a psu: id names one payment and one pair of states. */
  lemma StatusMessageIdsAreInjective(id1: string, s1: PaymentStatus, d1: DeliveryStatus,
                                     id2: string, s2: PaymentStatus, d2: DeliveryStatus)
    requires StatusMessageId(id1, s1, d1) == StatusMessageId(id2, s2, d2)
    ensures id1 == id2 && s1 == s2 && d1 == d2
  {
    var head1, head2 := "psu:" + id1 + ":", "psu:" + id2 + ":";
    EqualEndings(head1 + PaymentStatusCode(s1) + ":", DeliveryStatusCode(d1),
                 head2 + PaymentStatusCode(s2) + ":", DeliveryStatusCode(d2));
    assert d1 == d2;
    EqualEndings(head1 + PaymentStatusCode(s1), ":", head2 + PaymentStatusCode(s2), ":");
    StatusCodesAreDistinct(s1, s2, head1, head2);
    EqualEndings("psu:" + id1, ":", "psu:" + id2, ":");
    assert id1 == ("psu:" + id1)[4..] && id2 == ("psu:" + id2)[4..];
  }

  /** Messages of different payments or different kinds have different ids. */
  lemma MessageIdsAreInjective(k1: Kind, id1: string, ref1: string, k2: Kind, id2: string, ref2: string)
    requires (k1, id1) != (k2, id2)
    requires id1 != id2 ==> ref1 != ref2
    ensures MessageId(k1, id1, ref1) != MessageId(k2, id2, ref2)
  {
    var m1 := MessageId(k1, id1, ref1);
    var m2 := MessageId(k2, id2, ref2);
    if k1.Status? && k2.Status? {
      if m1 == m2 {
        StatusMessageIdsAreInjective(id1, k1.payment, k1.delivery, id2, k2.payment, k2.delivery);
      }
    } else if k1 == k2 {
      assert m1[4..] == if k1.CallbackKind? then ref1 else id1;
      assert m2[4..] == if k2.CallbackKind? then ref2 else id2;
    } else {
      assert m1[1] != m2[1] || m1[2] != m2[2];
    }
  }
}
