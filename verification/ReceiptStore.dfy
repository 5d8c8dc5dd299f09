/**
 ReceiptStore: the table of webhook receipts, one statement or transaction a method.
 */
module ReceiptStore {
  import opened Wrappers
  import opened PaymentStore
  import opened Selection

  datatype PublishStatus = PENDING | IN_FLIGHT | PUBLISHED

  datatype Registration = Registration(dedupeKey: string, paymentReference: string, paymentStatus: string,
                                       providerEventId: string, messageId: string, payload: Callback)

  datatype Receipt = Receipt(paymentReference: string, paymentStatus: string, providerEventId: string,
                             messageId: string, payload: Callback, publishStatus: PublishStatus, attempts: nat,
                             nextAttemptAt: int, lockedBy: Option<string>, lockedUntil: Option<int>,
                             duplicates: nat, createdAt: int)

  type Receipts = map<string, Receipt>

  datatype RegistrationResult = Accepted | Duplicate(publishStatus: PublishStatus) | UniqueViolation

  function NewReceipt(input: Registration, now: int): Receipt {
    Receipt(input.paymentReference, input.paymentStatus, input.providerEventId, input.messageId, input.payload,
            PENDING, 0, now, None, None, 0, now)
  }

  /** A row with the reference and status, or with the provider's event id, is there already. */
  predicate Violates(receipts: Receipts, input: Registration) {
    exists key :: key in receipts && Clashes(receipts[key], input)
  }

  predicate Clashes(receipt: Receipt, input: Registration) {
    || (receipt.paymentReference == input.paymentReference && receipt.paymentStatus == input.paymentStatus)
    || (input.providerEventId != "" && receipt.providerEventId == input.providerEventId)
  }

  function RegisterResult(receipts: Receipts, input: Registration): RegistrationResult {
    if input.dedupeKey in receipts then Duplicate(receipts[input.dedupeKey].publishStatus)
    else if Violates(receipts, input) then UniqueViolation
    else Accepted
  }

  function Registered(receipts: Receipts, input: Registration, now: int): Receipts {
    match RegisterResult(receipts, input)
    case Accepted => receipts[input.dedupeKey := NewReceipt(input, now)]
    case Duplicate(_) =>
      var receipt := receipts[input.dedupeKey];
      receipts[input.dedupeKey := receipt.(duplicates := receipt.duplicates + 1)]
    case UniqueViolation => receipts
  }

  predicate Claimable(receipt: Receipt, now: int) {
    && receipt.publishStatus == PENDING && receipt.nextAttemptAt <= now
    && (receipt.lockedUntil.None? || receipt.lockedUntil.value < now)
  }

  /** SKIP LOCKED passes over the rows of open transactions. */
  function Candidates(receipts: Receipts, skipped: set<string>, now: int): set<string> {
    set key | key in receipts && key !in skipped && Claimable(receipts[key], now)
  }

  function InFlight(receipt: Receipt, owner: string, until: int): Receipt {
    receipt.(publishStatus := IN_FLIGHT, lockedBy := Some(owner), lockedUntil := Some(until))
  }

  function ClaimedBy(receipts: Receipts, keys: set<string>, owner: string, until: int): Receipts {
    map key | key in receipts :: if key in keys then InFlight(receipts[key], owner, until) else receipts[key]
  }

  predicate OwnedBy(receipts: Receipts, key: string, owner: string) {
    key in receipts && receipts[key].publishStatus == IN_FLIGHT && receipts[key].lockedBy == Some(owner)
  }

  function MarkedPublished(receipts: Receipts, key: string, owner: string): Receipts {
    if OwnedBy(receipts, key, owner) then
      receipts[key := receipts[key].(publishStatus := PUBLISHED, lockedBy := None, lockedUntil := None)]
    else receipts
  }

  function Rescheduled(receipts: Receipts, key: string, owner: string, nextAttemptAt: int): Receipts {
    if OwnedBy(receipts, key, owner) then
      receipts[key := receipts[key].(publishStatus := PENDING, attempts := receipts[key].attempts + 1,
                                     nextAttemptAt := nextAttemptAt, lockedBy := None, lockedUntil := None)]
    else receipts
  }

  function CreationTimes(receipts: Receipts): map<string, int> {
    map key | key in receipts :: receipts[key].createdAt
  }

  function SetOf(keys: seq<string>): set<string> {
    set key | key in keys
  }

  class ReceiptStore {
    var receipts: Receipts

    constructor ()
      ensures receipts == map[]
    {
      receipts := map[];
    }

    /** INSERT … ON CONFLICT (dedupe_key) DO NOTHING, or the count of one duplicate more. */
    method Register(input: Registration, now: int) returns (result: RegistrationResult)
      modifies this
      ensures result == RegisterResult(old(receipts), input)
      ensures receipts == Registered(old(receipts), input, now)
    {
      if input.dedupeKey !in receipts {
        var violates := exists key | key in receipts :: Clashes(receipts[key], input);
        if violates {
          return UniqueViolation;
        }
        receipts := receipts[input.dedupeKey := NewReceipt(input, now)];
        return Accepted;
      }
      var receipt := receipts[input.dedupeKey];
      receipts := receipts[input.dedupeKey := receipt.(duplicates := receipt.duplicates + 1)];
      return Duplicate(receipt.publishStatus);
    }

    /** Puts as many candidates as allowed in flight, the oldest first; nothing else changes. */
    method ClaimPending(owner: string, until: int, limit: nat, skipped: set<string>, now: int) returns (keys: seq<string>)
      modifies this
      ensures |keys| == Min(limit, |Candidates(old(receipts), skipped, now)|)
      ensures Selected(CreationTimes(old(receipts)), Candidates(old(receipts), skipped, now), keys)
      ensures receipts == ClaimedBy(old(receipts), SetOf(keys), owner, until)
    {
      keys := SelectOldest(CreationTimes(receipts), Candidates(receipts, skipped, now), limit);
      for i := 0 to |keys|
        invariant receipts == ClaimedBy(old(receipts), SetOf(keys[..i]), owner, until)
      {
        assert keys[..i + 1] == keys[..i] + [keys[i]];
        assert keys[i] !in keys[..i];
        receipts := receipts[keys[i] := InFlight(receipts[keys[i]], owner, until)];
      }
      assert keys[..|keys|] == keys;
    }

    method MarkPublished(key: string, owner: string)
      modifies this
      ensures receipts == MarkedPublished(old(receipts), key, owner)
    {
      if key in receipts && receipts[key].publishStatus == IN_FLIGHT && receipts[key].lockedBy == Some(owner) {
        var receipt := receipts[key].(publishStatus := PUBLISHED);
        receipts := receipts[key := receipt.(lockedBy := None, lockedUntil := None)];
      }
    }

    method RetryPending(key: string, owner: string, nextAttemptAt: int)
      modifies this
      ensures receipts == Rescheduled(old(receipts), key, owner, nextAttemptAt)
    {
      if key in receipts && receipts[key].publishStatus == IN_FLIGHT && receipts[key].lockedBy == Some(owner) {
        var receipt := receipts[key].(publishStatus := PENDING);
        receipt := receipt.(attempts := receipt.attempts + 1);
        receipt := receipt.(nextAttemptAt := nextAttemptAt);
        receipts := receipts[key := receipt.(lockedBy := None, lockedUntil := None)];
      }
    }
  }
}
