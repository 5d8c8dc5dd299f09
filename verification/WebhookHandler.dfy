/**
 What the webhook handler makes of a signed payload: the key that deduplicates it, and the answer.
 */
module WebhookHandler {
  import opened Wrappers
  import opened Text
  import opened PaymentStore
  import opened ReceiptStore

  /** occurredAt is the text, and time what it says when it is a time. */
  datatype WebhookPayload = WebhookPayload(eventId: string, paymentReference: string, amount: real, currency: string,
                                           status: string, occurredAt: string, time: Option<int>)

  datatype Flaw = EventIdMissing | ReferenceMissing | AmountNotPositive | CurrencyMissing | StatusMissing
                | TimeMissing | TimeMalformed

  datatype Decision = Invalid(flaw: Flaw) | Ignored | Recorded(registration: Registration)

  datatype Reason = Processing | Replayed

  datatype Answer = AcceptedAnswer | DuplicateAnswer(reason: Reason) | NotRecorded

  function FlawOf(p: WebhookPayload): Option<Flaw> {
    if TrimSpace(p.eventId) == "" then Some(EventIdMissing)
    else if TrimSpace(p.paymentReference) == "" then Some(ReferenceMissing)
    else if p.amount <= 0.0 then Some(AmountNotPositive)
    else if TrimSpace(p.currency) == "" then Some(CurrencyMissing)
    else if TrimSpace(p.status) == "" then Some(StatusMissing)
    else if TrimSpace(p.occurredAt) == "" then Some(TimeMissing)
    else if p.time.None? then Some(TimeMalformed)
    else None
  }

  function CallbackMessageId(reference: string): string {
    "pcb:" + TrimSpace(reference)
  }

  function WebhookDedupeKey(reference: string, status: string): string {
    ToUpper(TrimSpace(status)) + ":" + TrimSpace(reference)
  }

  function Decide(p: WebhookPayload): Decision {
    if FlawOf(p).Some? then Invalid(FlawOf(p).value)
    else
      var status := ToUpper(p.status);
      if status != "CONFIRMED" then Ignored
      else Recorded(Registration(WebhookDedupeKey(p.paymentReference, status), TrimSpace(p.paymentReference), status,
                                 TrimSpace(p.eventId), CallbackMessageId(p.paymentReference),
                                 Callback(p.eventId, p.paymentReference, p.amount, ToUpper(p.currency), p.time)))
  }

  function AnswerTo(result: RegistrationResult): Answer {
    match result
    case Accepted => AcceptedAnswer
    case Duplicate(status) => DuplicateAnswer(if status in {PENDING, IN_FLIGHT} then Processing else Replayed)
    case UniqueViolation => NotRecorded
  }

  lemma ConfirmedIsFixed(status: string)
    requires status == "CONFIRMED"
    ensures ToUpper(TrimSpace(status)) == status
  {
    TrimSpaceFixes(status);
    UpperCaseStays(status);
  }

  lemma ConfirmedKey(reference: string, status: string)
    requires status == "CONFIRMED"
    ensures WebhookDedupeKey(reference, status) == "CONFIRMED:" + TrimSpace(reference)
  {
    ConfirmedIsFixed(status);
    assert status + ":" == "CONFIRMED:";
  }

  lemma TrimmedTextIsThere(s: string)
    requires TrimSpace(s) != ""
    ensures s != ""
  {
  }

  /** What every recorded webhook registers. */
  lemma RecordedKeys(p: WebhookPayload)
    requires Decide(p).Recorded?
    ensures var r := Decide(p).registration;
            && r.paymentStatus == "CONFIRMED" && r.paymentReference == TrimSpace(p.paymentReference) != ""
            && r.dedupeKey == "CONFIRMED:" + r.paymentReference && r.messageId == "pcb:" + r.paymentReference
            && r.payload.eventId != "" && r.providerEventId != "" && r.payload.occurredAt.Some?
  {
    var r := Decide(p).registration;
    assert r.paymentStatus == "CONFIRMED" && r.payload.occurredAt.Some?;
    assert r.dedupeKey == WebhookDedupeKey(p.paymentReference, r.paymentStatus);
    assert r.dedupeKey == "CONFIRMED:" + r.paymentReference by {
      ConfirmedKey(p.paymentReference, r.paymentStatus);
    }
    assert r.payload.eventId != "" by {
      TrimmedTextIsThere(p.eventId);
    }
  }

  /** Two webhooks share a dedupe key exactly when their references agree but for the space around them. */
  lemma KeysNameTrimmedReferences(p: WebhookPayload, q: WebhookPayload)
    requires Decide(p).Recorded? && Decide(q).Recorded?
    ensures Decide(p).registration.dedupeKey == Decide(q).registration.dedupeKey
            <==> TrimSpace(p.paymentReference) == TrimSpace(q.paymentReference)
    ensures Decide(p).registration.messageId == Decide(q).registration.messageId
            <==> TrimSpace(p.paymentReference) == TrimSpace(q.paymentReference)
  {
    RecordedKeys(p);
    RecordedKeys(q);
    var one, two := Decide(p).registration, Decide(q).registration;
    assert one.dedupeKey[10..] == one.paymentReference && two.dedupeKey[10..] == two.paymentReference;
    assert one.messageId[4..] == one.paymentReference && two.messageId[4..] == two.paymentReference;
  }
}
