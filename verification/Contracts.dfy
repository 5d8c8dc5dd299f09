/**
 The payloads that the services exchange.

 A SHA-256 digest is modelled by what it was computed from, so that equal digests mean equal
 inputs.  Instants are whole numbers, amounts are compared for equality only, and the fixed texts
 of a problem are named instead of spelled out.
 */
module Contracts {
  import opened Wrappers

  datatype Fields = Fields(email: string, name: string, cellphone: string, taxId: string,
                           amount: real, currency: string)

  datatype Digest =
    | RootDigest(fields: Fields)
    | UserStepDigest(root: Digest)
    | PaymentStepDigest(root: Digest, userId: string, amount: real, currency: string)

  /** onboarding.account.create */
  datatype Command = Command(messageId: string, correlationId: string, idempotencyKey: string,
                             requestHash: Digest, fields: Fields)
  {
    /** The gateway digests exactly the fields that it sends. */
    ghost predicate Digested() {
      requestHash == RootDigest(fields)
    }
  }

  datatype Reason =
    | IdempotencyKeyReused
    | SagaInProgress
    | DownstreamUnavailable
    | CompensatedAfterFailure
    | SagaStateInvalid
    | UnsupportedCurrency
    | PaymentStateNotLoaded
    | PaymentIntentNotCreated
    | PaymentNotSaved
    | Other(title: string, detail: string, code: Option<string>)

  datatype Problem = Problem(status: int, reason: Reason)

  datatype User = User(id: string, email: string, name: string, isPremium: bool)

  /** identity.user.create */
  datatype UserCreate = UserCreate(idempotencyKey: string, requestHash: Digest, email: string, name: string,
                                   cellphone: string, taxId: string)

  /** identity.user.compensate */
  datatype UserCompensate = UserCompensate(idempotencyKey: string, userId: string)

  /** payment.intent.create */
  datatype PaymentCreate = PaymentCreate(idempotencyKey: string, requestHash: Digest, userId: string,
                                         customerName: string, customerEmail: string, customerCellphone: string,
                                         customerTaxId: string, amount: real, currency: string)

  datatype PaymentStatus = Pending | Processing | Completed | Failed | Expired

  datatype DeliveryStatus = DeliveryPending | Delivered | DeliveryFailed

  /** The reply to payment.intent.create; a replayed one carries no QR code. */
  datatype PaymentIntent = PaymentIntent(id: string, paymentReference: string, amount: real, currency: string,
                                         paymentStatus: PaymentStatus, deliveryStatus: DeliveryStatus,
                                         expiresAt: int, qrCode: string, replayed: bool)

  /** What the public response shows of a payment intent: everything but the replay flag. */
  datatype PublicPayment = PublicPayment(id: string, paymentReference: string, amount: real, currency: string,
                                         paymentStatus: PaymentStatus, deliveryStatus: DeliveryStatus,
                                         expiresAt: int, qrCode: string)

  /** A reply that came back over RPC, or the failure of the call itself. */
  datatype RpcOutcome<+T> = Data(data: T) | Refused(problem: Problem) | Unavailable
}
