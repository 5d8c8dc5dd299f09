/**
 MemoryRepository: the payment store as a mutex-guarded map, changed in place.
 */
module MemoryRepository {
  import opened Wrappers
  import opened Contracts
  import opened PaymentStore
  import opened ClaimLoops
  import opened Uuids

  /** The positions that a scan has passed: all of the documents done, and some of the current one. */
  ghost predicate Passed(done: set<string>, id: string, index: nat, p: Position) {
    p.paymentId in done || (p.paymentId == id && p.index < index)
  }

  /** Whatever was eligible where the scan has passed is taken, and nothing else. */
  ghost predicate TookAll(payments: Payments, before: int, taken: seq<Position>, done: set<string>, id: string, index: nat) {
    forall p :: p in taken <==> p in EligibleAt(payments, before) && Passed(done, id, index, p)
  }

  ghost predicate TokensAreNew(result: seq<PendingPublish>, issued: set<string>, issued': set<string>) {
    forall k :: 0 <= k < |result| ==> result[k].message.claimToken in issued' - issued
  }

  lemma AcknowledgedUnfolds(messages: seq<PendingMessage>, id: string, token: string, filtered: seq<PendingMessage>, k: nat)
    requires k < |messages|
    ensures filtered + Acknowledged(messages[k..], id, token)
            == (if messages[k].id != id || messages[k].claimToken != token then filtered + [messages[k]] else filtered)
               + Acknowledged(messages[k + 1..], id, token)
  {
    assert messages[k..][0] == messages[k] && messages[k..][1..] == messages[k + 1..];
  }

  lemma RetriedUnfolds(messages: seq<PendingMessage>, id: string, token: string, nextAttemptAt: int, attempts: nat, k: nat)
    requires k < |messages|
    ensures var whole := messages[..k] + Retried(messages[k..], id, token, nextAttemptAt, attempts);
            if messages[k].id == id && messages[k].claimToken == token
            then whole == messages[k := Postponed(messages[k], nextAttemptAt, attempts)]
            else whole == messages[..k + 1] + Retried(messages[k + 1..], id, token, nextAttemptAt, attempts)
  {
    assert messages[k..][0] == messages[k] && messages[k..][1..] == messages[k + 1..];
    assert messages[..k + 1] == messages[..k] + [messages[k]];
  }

  /** The filter loop of AcknowledgePendingPublish. */
  method Filtered(messages: seq<PendingMessage>, messageId: string, claimToken: string)
    returns (filtered: seq<PendingMessage>)
    ensures filtered == Acknowledged(messages, messageId, claimToken)
  {
    filtered := [];
    for k := 0 to |messages|
      invariant Acknowledged(messages, messageId, claimToken) == filtered + Acknowledged(messages[k..], messageId, claimToken)
    {
      AcknowledgedUnfolds(messages, messageId, claimToken, filtered, k);
      if messages[k].id != messageId || messages[k].claimToken != claimToken {
        filtered := filtered + [messages[k]];
      }
    }
    assert filtered + [] == filtered;
  }

  /** The search loop of RetryPendingPublish. */
  method Rescheduled(messages: seq<PendingMessage>, messageId: string, claimToken: string, nextAttemptAt: int, attempts: nat)
    returns (after: seq<PendingMessage>, found: bool)
    ensures after == Retried(messages, messageId, claimToken, nextAttemptAt, attempts)
    ensures found <==> exists m :: m in messages && m.id == messageId && m.claimToken == claimToken
  {
    for k := 0 to |messages|
      invariant Retried(messages, messageId, claimToken, nextAttemptAt, attempts)
                == messages[..k] + Retried(messages[k..], messageId, claimToken, nextAttemptAt, attempts)
      invariant forall i :: 0 <= i < k ==> messages[i].id != messageId || messages[i].claimToken != claimToken
    {
      RetriedUnfolds(messages, messageId, claimToken, nextAttemptAt, attempts, k);
      if messages[k].id == messageId && messages[k].claimToken == claimToken {
        var postponed := messages[k].(nextAttemptAt := nextAttemptAt);
        postponed := postponed.(attempts := attempts);
        postponed := postponed.(claimToken := "");
        postponed := postponed.(claimedUntil := None);
        assert messages[k] in messages;
        return messages[k := postponed], true;
      }
    }
    assert messages[..|messages|] == messages;
    return messages, false;
  }

  class MemoryRepository {
    var payments: Payments
    const uuids: UuidSource

    constructor (uuids: UuidSource)
      ensures payments == map[] && this.uuids == uuids
    {
      payments := map[];
      this.uuids := uuids;
    }

    method FindByIdempotencyKey(key: string) returns (found: Option<Payment>)
      ensures found.Some? ==> found.value in payments.Values && found.value.idempotencyKey == key
      ensures found.None? <==> forall id :: id in payments ==> payments[id].idempotencyKey != key
    {
      var remaining := payments.Keys;
      while remaining != {}
        invariant remaining <= payments.Keys
        invariant forall id :: id in payments && id !in remaining ==> payments[id].idempotencyKey != key
        decreases |remaining|
      {
        var id :| id in remaining;
        if payments[id].idempotencyKey == key {
          return Some(payments[id]);
        }
        remaining := remaining - {id};
      }
      return None;
    }

    method FindByReference(reference: string) returns (found: Option<Payment>)
      ensures found.Some? ==> found.value in payments.Values && found.value.paymentReference == reference
      ensures found.None? <==> forall id :: id in payments ==> payments[id].paymentReference != reference
    {
      var remaining := payments.Keys;
      while remaining != {}
        invariant remaining <= payments.Keys
        invariant forall id :: id in payments && id !in remaining ==> payments[id].paymentReference != reference
        decreases |remaining|
      {
        var id :| id in remaining;
        if payments[id].paymentReference == reference {
          return Some(payments[id]);
        }
        remaining := remaining - {id};
      }
      return None;
    }

    method FindByID(id: string) returns (found: Option<Payment>)
      ensures found == if id in payments then Some(payments[id]) else None
    {
      if id in payments {
        return Some(payments[id]);
      }
      return None;
    }

    method Create(p: Payment) returns (created: Payment)
      modifies `payments
      ensures payments == old(payments)[p.id := p] && created == p
    {
      payments := payments[p.id := p];
      return p;
    }

    method ReserveForProcessing(id: string, now: int) returns (reserved: Option<Payment>)
      modifies `payments
      ensures if id in old(payments) && CanReserve(old(payments)[id], now)
              then reserved == Some(Reserved(old(payments)[id], now)) && payments == old(payments)[id := reserved.value]
              else reserved == None && payments == old(payments)
    {
      if id !in payments || payments[id].paymentStatus != Pending || payments[id].expiresAt <= now {
        return None;
      }
      var p := payments[id];
      p := p.(paymentStatus := Processing);
      p := p.(processingAttempts := p.processingAttempts + 1);
      p := p.(processingStartedAt := Some(now));
      p := p.(failureReason := "");
      payments := payments[id := p];
      return Some(p);
    }

    /** A missing document is a nil dereference here, which the callers must rule out. */
    method EnqueueMessages(id: string, messages: seq<PendingMessage>)
      requires id in payments
      modifies `payments
      ensures payments == old(payments)[id := WithMessages(old(payments)[id], messages)]
    {
      var p := payments[id];
      payments := payments[id := p.(pendingMessages := p.pendingMessages + messages)];
    }

    /** Stores the updated document with the messages if the stored one allows it. */
    method Transition(id: string, messages: seq<PendingMessage>, allowed: Payment -> bool, updater: Payment -> Payment)
      returns (current: Option<Payment>, transitioned: bool)
      modifies `payments
      ensures transitioned == (id in old(payments) && allowed(old(payments)[id]))
      ensures payments == if transitioned then old(payments)[id := WithMessages(updater(old(payments)[id]), messages)]
                          else old(payments)
      ensures current == if id in payments then Some(payments[id]) else None
    {
      if id !in payments {
        return None, false;
      }
      var p := payments[id];
      if !allowed(p) {
        return Some(p), false;
      }
      p := updater(p);
      p := p.(pendingMessages := p.pendingMessages + messages);
      payments := payments[id := p];
      return Some(p), true;
    }

    method MarkFailed(id: string, reason: string, messages: seq<PendingMessage>)
      returns (current: Option<Payment>, transitioned: bool)
      modifies `payments
      ensures transitioned == (id in old(payments) && CanFail(old(payments)[id]))
      ensures payments == if transitioned then old(payments)[id := WithMessages(MarkedFailed(old(payments)[id], reason), messages)]
                          else old(payments)
    {
      current, transitioned := Transition(id, messages, (p: Payment) => p.paymentStatus == Processing,
                                          (p: Payment) => p.(paymentStatus := Failed).(failureReason := reason));
    }

    method MarkExpired(id: string, messages: seq<PendingMessage>) returns (current: Option<Payment>, transitioned: bool)
      modifies `payments
      ensures transitioned == (id in old(payments) && CanSettle(old(payments)[id]))
      ensures payments == if transitioned then old(payments)[id := WithMessages(MarkedExpired(old(payments)[id]), messages)]
                          else old(payments)
    {
      current, transitioned := Transition(id, messages, CanSettle,
                                          (p: Payment) => p.(paymentStatus := Expired).(processingStartedAt := None));
    }

    method MarkCompleted(id: string, eventId: string, confirmedAt: int, messages: seq<PendingMessage>)
      returns (current: Option<Payment>, transitioned: bool)
      modifies `payments
      ensures transitioned == (id in old(payments) && CanSettle(old(payments)[id]))
      ensures payments == if transitioned
                          then old(payments)[id := WithMessages(MarkedCompleted(old(payments)[id], eventId, confirmedAt), messages)]
                          else old(payments)
    {
      current, transitioned := Transition(id, messages, CanSettle, p => MarkedCompleted(p, eventId, confirmedAt));
    }

    method MarkDelivery(id: string, status: DeliveryStatus, reason: string, messages: seq<PendingMessage>)
      returns (current: Option<Payment>, transitioned: bool)
      modifies `payments
      ensures transitioned == (id in old(payments) && CanDeliver(old(payments)[id]))
      ensures payments == if transitioned
                          then old(payments)[id := WithMessages(MarkedDelivery(old(payments)[id], status, reason), messages)]
                          else old(payments)
    {
      current, transitioned := Transition(id, messages, CanDeliver, p => MarkedDelivery(p, status, reason));
    }

    /**
     Stamps and returns min(limit, eligible) distinct eligible messages, each with a token of its own,
     and leaves every other message as it is.  A limit of zero is never met: it takes all.
     */
    method ClaimPendingPublishes(before: int, claimUntil: int, limit: nat)
      returns (result: seq<PendingPublish>, ghost taken: seq<Position>)
      requires uuids.Valid()
      modifies `payments, uuids
      ensures uuids.Valid() && old(uuids.issued) <= uuids.issued
      ensures HasClaimed(old(payments), payments, taken, result, before, claimUntil)
      ensures TokensAreNew(result, old(uuids.issued), uuids.issued)
      ensures |result| == if limit == 0 then |EligibleAt(old(payments), before)|
                          else Min(limit, |EligibleAt(old(payments), before)|)
    {
      result, taken := [], [];
      NothingClaimed(payments, before, claimUntil);
      var remaining := payments.Keys;
      while remaining != {}
        invariant uuids.Valid() && old(uuids.issued) <= uuids.issued
        invariant remaining <= old(payments).Keys
        invariant HasClaimed(old(payments), payments, taken, result, before, claimUntil)
        invariant TokensAreNew(result, old(uuids.issued), uuids.issued)
        invariant TookAll(old(payments), before, taken, old(payments).Keys - remaining, "", 0)
        invariant limit > 0 ==> |result| < limit
        decreases |remaining|
      {
        var id :| id in remaining;
        result, taken := ClaimFrom(id, before, claimUntil, limit, result, old(payments), taken,
                                   old(payments).Keys - remaining, old(uuids.issued));
        if limit > 0 && |result| == limit {
          HowManyAreClaimed(old(payments), payments, taken, result, before, claimUntil, limit);
          return;
        }
        remaining := remaining - {id};
      }
      HowManyAreClaimed(old(payments), payments, taken, result, before, claimUntil, limit);
    }

    /** The inner loop: claims from one document until the limit is met. */
    method ClaimFrom(id: string, before: int, claimUntil: int, limit: nat, soFar: seq<PendingPublish>,
                     ghost first: Payments, ghost takenSoFar: seq<Position>, ghost done: set<string>, ghost issued: set<string>)
      returns (result: seq<PendingPublish>, ghost taken: seq<Position>)
      requires uuids.Valid() && issued <= uuids.issued && id in first && id !in done
      requires HasClaimed(first, payments, takenSoFar, soFar, before, claimUntil)
      requires TokensAreNew(soFar, issued, uuids.issued)
      requires TookAll(first, before, takenSoFar, done, "", 0) && (limit > 0 ==> |soFar| < limit)
      modifies `payments, uuids
      ensures uuids.Valid() && old(uuids.issued) <= uuids.issued
      ensures HasClaimed(first, payments, taken, result, before, claimUntil)
      ensures TokensAreNew(result, issued, uuids.issued)
      ensures limit > 0 ==> |result| <= limit
      ensures (limit > 0 && |result| == limit) || TookAll(first, before, taken, done + {id}, "", 0)
    {
      result, taken := soFar, takenSoFar;
      var index := 0;
      ShapeIsKept(first, payments, taken, result, before, claimUntil);
      while index < |payments[id].pendingMessages|
        invariant uuids.Valid() && old(uuids.issued) <= uuids.issued
        invariant id in payments && index <= |payments[id].pendingMessages| == |first[id].pendingMessages|
        invariant HasClaimed(first, payments, taken, result, before, claimUntil)
        invariant TokensAreNew(result, issued, uuids.issued)
        invariant TookAll(first, before, taken, done, id, index)
        invariant limit > 0 ==> |result| < limit
      {
        ghost var p := Position(id, index);
        var pending := payments[id].pendingMessages[index];
        UntakenIsUntouched(first, payments, taken, result, before, claimUntil, p);
        if pending.nextAttemptAt <= before && !IsClaimed(pending, before) {
          var claimToken := uuids.NewString();
          OneMoreClaimed(first, payments, taken, result, before, claimUntil, p, claimToken);
          pending := pending.(claimToken := claimToken, claimedUntil := Some(claimUntil));
          payments := payments[id := payments[id].(pendingMessages := payments[id].pendingMessages[index := pending])];
          result := result + [PendingPublish(id, pending)];
          taken := taken + [p];
          if |result| == limit {
            return;
          }
        }
        index := index + 1;
      }
    }

    method AcknowledgePendingPublish(id: string, messageId: string, claimToken: string)
      requires id in payments
      modifies `payments
      ensures payments == old(payments)[id := old(payments)[id].(pendingMessages :=
                            Acknowledged(old(payments)[id].pendingMessages, messageId, claimToken))]
    {
      var filtered := Filtered(payments[id].pendingMessages, messageId, claimToken);
      payments := payments[id := payments[id].(pendingMessages := filtered)];
    }

    /** Postpones the first message that carries both the id and the token; it is an error if there is none. */
    method RetryPendingPublish(id: string, messageId: string, claimToken: string, nextAttemptAt: int, attempts: nat)
      returns (found: bool)
      requires id in payments
      modifies `payments
      ensures payments == old(payments)[id := old(payments)[id].(pendingMessages :=
                            Retried(old(payments)[id].pendingMessages, messageId, claimToken, nextAttemptAt, attempts))]
      ensures found <==> exists m :: m in old(payments)[id].pendingMessages && m.id == messageId && m.claimToken == claimToken
    {
      var messages;
      messages, found := Rescheduled(payments[id].pendingMessages, messageId, claimToken, nextAttemptAt, attempts);
      payments := payments[id := payments[id].(pendingMessages := messages)];
    }
  }
}
