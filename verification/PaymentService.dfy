/**
 The handlers of the payment service over its store.

 Whatever the service does to its store, call by call, is a run of module PaymentRun; what happens
 between the calls when others run as well is the subject of that module.
 */
module PaymentService {
  import opened Wrappers
  import opened Contracts
  import opened Text
  import opened Int64
  import opened PaymentStore
  import opened PaymentRun
  import opened PaymentTheorems
  import opened PaymentHistory
  import opened PaymentSteps
  import opened ClaimLoops
  import opened MemoryRepository
  import opened Uuids
  import opened Retry
  import opened PaymentOutcomes
  import opened PublishBatch
  import Ledger = PaymentLedger

  /** The history is a run that ends in the store, and in ids that were drawn. */
  ghost predicate Mirrors(config: Config, history: seq<World>, payments: Payments, issued: set<string>) {
    |history| > 0 && forall run :: run == history ==>
      && IsRun(config, run) && Last(run).payments == payments
      && Last(run).uuids <= issued && IdsWereDrawn(payments, issued)
  }

  lemma InTheMirror(config: Config, history: seq<World>, payments: Payments, issued: set<string>)
    requires Mirrors(config, history, payments, issued)
    ensures Runs(config, history) && Last(history).payments == payments
    ensures Last(history).uuids <= issued && IdsWereDrawn(payments, issued)
  {
    assert IsRun(config, history);
  }

  lemma ToTheMirror(config: Config, history: seq<World>, payments: Payments, issued: set<string>)
    requires Runs(config, history) && Last(history).payments == payments
    requires Last(history).uuids <= issued && IdsWereDrawn(payments, issued)
    ensures Mirrors(config, history, payments, issued)
  {
    assert IsRun(config, history);
  }

  /** Every stored payment has ids that were drawn from the source, and is stored under its own. */
  predicate IdsWereDrawn(payments: Payments, issued: set<string>) {
    forall id :: id in payments ==>
      payments[id].id == id && id in issued && payments[id].paymentReference in issued
  }

  /** Payments are stored under their ids, and no two of them have the same reference. */
  ghost predicate AreUnique(payments: Payments) {
    && (forall id :: id in payments ==> payments[id].id == id)
    && forall a, b :: a in payments && b in payments && a != b ==>
         payments[a].paymentReference != payments[b].paymentReference
  }

  /** In a run no two payments have the same reference. */
  lemma ReferencesAreUnique(config: Config, history: seq<World>, payments: Payments)
    requires Runs(config, history) && payments == Last(history).payments
    ensures AreUnique(payments)
  {
    assert IsRun(config, history);
    ReachedWorldsAreOk(config, history, |history| - 1);
    Ledger.Inside(Last(history));
  }

  lemma DrawnIdsStay(payments: Payments, payments': Payments, taken: seq<Position>, result: seq<PendingPublish>,
                     before: int, until: int, issued: set<string>)
    requires HasClaimed(payments, payments', taken, result, before, until) && IdsWereDrawn(payments, issued)
    ensures IdsWereDrawn(payments', issued)
    ensures forall k :: 0 <= k < |result| ==> result[k].paymentId in payments'
  {
    assert Claims(payments, payments', taken, result, before, until);
  }

  /** Nobody else's message is touched. */
  ghost predicate OneHolderActs(w: World, w': World, h: nat) {
    forall k :: k in w.holdings && k != h ==> k in w'.holdings && w'.holdings[k] == w.holdings[k]
  }

  lemma OneHolderActsOn(w: World, between: World, w': World, h: nat)
    requires h in w.holdings && h in between.holdings && between.holdings == w.holdings[h := between.holdings[h]]
    requires OneHolderActs(between, w', h)
    ensures OneHolderActs(w, w', h)
  {
  }

  lemma NextHolder(w: World, result: seq<PendingPublish>, holders: seq<nat>, n: nat)
    requires HoldTheRest(w, result, holders, n) && n < |result|
    ensures holders[n] in w.holdings
    ensures w.holdings[holders[n]] == Holding(result[n].paymentId, result[n].message, Held)
  {
    assert AreHeld(w, result, holders, n);
  }

  lemma OthersAreHeld(w: World, w': World, result: seq<PendingPublish>, holders: seq<nat>, n: nat)
    requires HoldTheRest(w, result, holders, n) && n < |result| && OneHolderActs(w, w', holders[n])
    ensures HoldTheRest(w', result, holders, n + 1)
  {
    assert AreHeld(w, result, holders, n);
  }

  /** The reserved payment says that it is processing. */
  ghost predicate HasBegun(before: Payments, payments: Payments, p: Payment, now: int) {
    && CanFail(p) && p.id in payments
    && payments[p.id] == p.(pendingMessages := payments[p.id].pendingMessages)
    && Becomes(before, payments, p, [StatusEvent(p, PaymentStatus.Processing, p.deliveryStatus)], now)
  }

  lemma HasAnnounced(before: Payments, reserved: Payments, p: Payment, entries: seq<Entry>, messageId: string, now: int)
    requires CanFail(p) && entries == [StatusEntry(p, PaymentStatus.Processing, p.deliveryStatus, messageId)]
    requires reserved == before[p.id := p]
    ensures HasBegun(before, reserved[p.id := WithMessages(p, Pendings(entries, now))], p, now)
  {
    StoringBecomes(before, p, entries, [StatusEvent(p, PaymentStatus.Processing, p.deliveryStatus)], now);
    assert reserved[p.id := WithMessages(p, Pendings(entries, now))] == before[p.id := WithMessages(p, Pendings(entries, now))];
  }

  lemma HasDelivered(payments: Payments, p: Payment, statusId: string, confirmedId: string, now: int)
    ensures var stored := WithMessages(MarkedDelivery(p, Delivered, ""), Pendings(DeliveryEntries(p, statusId, confirmedId), now));
            IsDelivered(payments, payments[p.id := stored], p, now)
  {
    StoringBecomes(payments, MarkedDelivery(p, Delivered, ""), DeliveryEntries(p, statusId, confirmedId),
                   [StatusEvent(p, Completed, Delivered), PaymentConfirmed(p.id, p.userId, p.confirmedAt)], now);
  }

  lemma HasExpired(payments: Payments, p: Payment, messageId: string, now: int)
    ensures var stored := WithMessages(MarkedExpired(p), Pendings(ExpiryEntries(p, messageId), now));
            IsExpired(payments, payments[p.id := stored], p, now)
  {
    StoringBecomes(payments, MarkedExpired(p), ExpiryEntries(p, messageId), [StatusEvent(p, Expired, p.deliveryStatus)], now);
  }

  lemma HasCompleted(payments: Payments, p: Payment, callback: Callback, statusId: string, deliveryId: string, now: int)
    requires callback.occurredAt.Some?
    ensures var completed := PaymentStore.MarkedCompleted(p, callback.eventId, callback.occurredAt.value);
            var stored := WithMessages(completed, Pendings(CompletionEntries(p, callback, statusId, deliveryId), now));
            IsCompleted(payments, payments[p.id := stored], p, callback, now)
  {
    var completed := PaymentStore.MarkedCompleted(p, callback.eventId, callback.occurredAt.value);
    StoringBecomes(payments, completed, CompletionEntries(p, callback, statusId, deliveryId),
                   [StatusEvent(p.(confirmedAt := callback.occurredAt), Completed, p.deliveryStatus),
                    DeliveryRequested(p.id, p.userId)], now);
  }

  lemma BeginningGoesOn(before: Payments, between: Payments, payments: Payments, p: Payment, q: Payment,
                        entries: seq<Entry>, events: seq<Event>, now: int)
    requires HasBegun(before, between, p, now) && q.id == p.id && q.pendingMessages == p.pendingMessages
    requires payments == between[p.id := WithMessages(q.(pendingMessages := between[p.id].pendingMessages), Pendings(entries, now))]
    requires |entries| == |events| && forall i :: 0 <= i < |entries| ==> entries[i].body.event == events[i]
    ensures Becomes(before, payments, q,
                    [StatusEvent(p, PaymentStatus.Processing, p.deliveryStatus)] + events, now)
  {
    StoringBecomes(between, q.(pendingMessages := between[p.id].pendingMessages), entries, events, now);
    BecomesTwice(before, between, payments, p, q, [StatusEvent(p, PaymentStatus.Processing, p.deliveryStatus)], events, now);
  }

  /** Letting go of a message, as the store sees it. */
  lemma ReleasedIsLetGo(w: World, publish: PendingPublish, h: nat, stage: HoldStage, sent: bool, nextAttemptAt: int)
    requires h in w.holdings && w.holdings[h] == Holding(publish.paymentId, publish.message, stage)
    requires publish.paymentId in w.payments
    ensures var messages := OutboxAfter(PendingOf(w, publish.paymentId), publish, sent, nextAttemptAt);
            && WithPending(w, publish.paymentId, messages).payments == Released(w.payments, publish, sent, nextAttemptAt)
            && Released(w.payments, publish, sent, nextAttemptAt)
               == w.payments[publish.paymentId := w.payments[publish.paymentId].(pendingMessages := messages)]
  {
  }

  lemma BatchLeaves(config: Config, history: seq<World>, payments: Payments, issued: set<string>, issued': set<string>,
                    claimed: Payments, taken: seq<Position>, result: seq<PendingPublish>, s: PublisherSurroundings)
    requires Runs(config, history) && Last(history).payments == payments && Last(history).uuids <= issued
    requires HasClaimed(payments, claimed, taken, result, s.now, s.now + s.lease) && TokensAreNew(result, issued, issued')
    ensures var left := ReleasedUpTo(claimed, result, s, |result|);
            forall id :: id in payments ==> id in left && Leaves(payments, taken, result, s, id, left[id].pendingMessages)
  {
    assert IsRun(config, history);
    var left := ReleasedUpTo(claimed, result, s, |result|);
    forall id | id in payments
      ensures id in left && Leaves(payments, taken, result, s, id, left[id].pendingMessages)
    {
      WhatARunPublishes(config, history, |history| - 1, claimed, taken, result, s.now, s.now + s.lease, s, id);
    }
  }

  class PaymentService {
    const config: Config
    const repo: MemoryRepository
    const uuids: UuidSource
    ghost var history: seq<World>

    ghost predicate Valid()
      reads this, repo, uuids
    {
      history != [] && repo.uuids == uuids && uuids.Valid() && Mirrors(config, history, repo.payments, uuids.issued)
    }

    constructor (config: Config, repo: MemoryRepository, uuids: UuidSource)
      requires repo.payments == map[] && repo.uuids == uuids && uuids.Valid() && "" in uuids.issued
      ensures Valid() && history == [EMPTY]
      ensures this.config == config && this.repo == repo && this.uuids == uuids
    {
      this.config := config;
      this.repo := repo;
      this.uuids := uuids;
      history := [EMPTY];
      new;
      assert Runs(config, history);
      ToTheMirror(config, history, repo.payments, uuids.issued);
    }

    ghost method Take(step: Step, w': World)
      requires Runs(config, history) && Leads(config, Last(history), step, w')
      modifies `history
      ensures Runs(config, history) && history == old(history) + [w']
    {
      RunGoesOn(config, history, step, w');
      history := history + [w'];
    }

    /** A step that only moves its handler on. */
    ghost method Move(step: Step, h: nat, next: Stage)
      requires Valid() && Leads(config, Last(history), step, Moved(Last(history), h, next))
      modifies `history
      ensures Valid() && history == old(history) + [Moved(Last(old(history)), h, next)]
    {
      InTheMirror(config, history, repo.payments, uuids.issued);
      Take(step, Moved(Last(history), h, next));
      ToTheMirror(config, history, repo.payments, uuids.issued);
    }

    /** A handler with a number that nobody has begins. */
    ghost method Begin(step: Step) returns (h: nat)
      requires Valid() && Begins(step) && !step.BeginCallback? && step.h == Fresh(Last(history).handlers.Keys)
      modifies `history
      ensures Valid() && h in Last(history).handlers && Last(history).handlers[h] == FirstStage(step)
      ensures old(history) <= history && Last(history).payments == Last(old(history)).payments
    {
      h := step.h;
      BeginningMoves(config, Last(history), step);
      Move(step, h, FirstStage(step));
    }

    /** A guarded transition, which ends its handler, after the store has made it. */
    ghost method EndWith(step: Step, h: nat, allowed: bool, p: Payment, entries: seq<Entry>, now: int)
      requires Runs(config, history) && h in Last(history).handlers
      requires Leads(config, Last(history), step, Transitioned(Last(history), h, allowed, p, entries, now))
      requires repo.uuids == uuids && uuids.Valid() && Last(history).uuids <= uuids.issued
      requires IdsWereDrawn(Last(history).payments, uuids.issued)
      requires forall i :: 0 <= i < |entries| ==> entries[i].id in uuids.issued
      requires p.id in Last(history).payments ==> p.paymentReference == Last(history).payments[p.id].paymentReference
      requires repo.payments == if p.id in Last(history).payments && allowed
                                then Last(history).payments[p.id := WithMessages(p, Pendings(entries, now))]
                                else Last(history).payments
      modifies `history
      ensures Valid() && old(history) <= history
    {
      Take(step, Transitioned(Last(history), h, allowed, p, entries, now));
      ToTheMirror(config, history, repo.payments, uuids.issued);
    }

    /** A step that stores a document and does not end its handler, after the store has made it. */
    ghost method StoreWith(step: Step, h: nat, next: Stage, p: Payment, entries: seq<Entry>, now: int)
      requires Runs(config, history) && h in Last(history).handlers
      requires Leads(config, Last(history), step, Stored(Last(history), h, next, p, entries, now))
      requires repo.uuids == uuids && uuids.Valid() && Last(history).uuids <= uuids.issued
      requires IdsWereDrawn(Last(history).payments, uuids.issued)
      requires forall i :: 0 <= i < |entries| ==> entries[i].id in uuids.issued
      requires p.id in Last(history).payments && p.paymentReference == Last(history).payments[p.id].paymentReference
      requires repo.payments == Last(history).payments[p.id := WithMessages(p, Pendings(entries, now))]
      modifies `history
      ensures Valid() && old(history) <= history
      ensures h in Last(history).handlers && Last(history).handlers[h] == next
    {
      Take(step, Stored(Last(history), h, next, p, entries, now));
      ToTheMirror(config, history, repo.payments, uuids.issued);
    }

    /** payment.intent.create */
    method CreatePayment(request: PaymentCreate, now: int, intent: Option<string>) returns (reply: RpcOutcome<PaymentIntent>)
      requires Valid()
      modifies this, repo, uuids
      ensures Valid() && old(history) <= history
      ensures RpcReply(request, reply) in Last(history).replies
      ensures Answers(config, old(repo.payments), repo.payments, request, now, intent, reply)
    {
      InTheMirror(config, history, repo.payments, uuids.issued);
      ghost var h := Begin(BeginCreate(Fresh(Last(history).handlers.Keys), request));
      var existing := repo.FindByIdempotencyKey(request.idempotencyKey);
      if existing.Some? {
        reply := ReplayPayment(h, request, existing.value, now);
        return;
      }
      var currency := ToUpper(request.currency);
      if currency !in config.allowedCurrencies {
        reply := Refused(Problem(400, UnsupportedCurrency));
        CurrencyIsRefused(config, Last(history), h, request, now);
        Reply(LookUpKey(h, None, "", "", "", now), h, request, reply);
        return;
      }
      reply := InsertPayment(h, request, now, intent);
    }

    /** The answer of a payment that is there already. */
    method ReplayPayment(ghost h: nat, request: PaymentCreate, existing: Payment, ghost now: int)
      returns (reply: RpcOutcome<PaymentIntent>)
      requires Valid() && h in Last(history).handlers && Last(history).handlers[h] == Stage.LookingUpKey(request)
      requires existing.idempotencyKey == request.idempotencyKey
      requires existing.id in repo.payments && repo.payments[existing.id] == existing
      modifies `history
      ensures Valid() && old(history) <= history && RpcReply(request, reply) in Last(history).replies
      ensures Replays(repo.payments, request, reply)
    {
      reply := if existing.requestHash != request.requestHash then Refused(Problem(409, IdempotencyKeyReused))
               else Data(ToIntent(existing, "", true));
      assert FoundByKey(repo.payments, request.idempotencyKey, Some(existing.id));
      InTheMirror(config, history, repo.payments, uuids.issued);
      KeyIsKnown(config, Last(history), h, request, existing.id, now);
      Reply(LookUpKey(h, Some(existing.id), "", "", "", now), h, request, reply);
    }

    /** A step that replies and ends its handler. */
    ghost method Reply(step: Step, h: nat, request: PaymentCreate, reply: RpcOutcome<PaymentIntent>)
      requires Valid() && h in Last(history).handlers
      requires Leads(config, Last(history), step, Replied(Last(history), h, request, reply))
      modifies `history
      ensures Valid() && old(history) <= history && RpcReply(request, reply) in Last(history).replies
    {
      InTheMirror(config, history, repo.payments, uuids.issued);
      Take(step, Replied(Last(history), h, request, reply));
      ToTheMirror(config, history, repo.payments, uuids.issued);
    }

    /** The part of CreatePayment that creates; None stands for an error of the gateway. */
    method InsertPayment(ghost h: nat, request: PaymentCreate, now: int, intent: Option<string>)
      returns (reply: RpcOutcome<PaymentIntent>)
      requires Valid() && h in Last(history).handlers && Last(history).handlers[h] == Stage.LookingUpKey(request)
      requires FoundByKey(repo.payments, request.idempotencyKey, None)
      requires ToUpper(request.currency) in config.allowedCurrencies
      modifies this, repo, uuids
      ensures Valid() && old(history) <= history
      ensures RpcReply(request, reply) in Last(history).replies
      ensures Answers(config, old(repo.payments), repo.payments, request, now, intent, reply)
    {
      var payment, qrCode := DrawPayment(h, request, now, intent);
      if intent.None? {
        reply := Refused(Problem(502, PaymentIntentNotCreated));
        GatewayBreaks(config, Last(history), h, request, payment, qrCode);
        Reply(Breaks(h, true), h, request, reply);
        return;
      }
      reply := StorePayment(h, request, payment, qrCode, now);
    }

    method DrawPayment(ghost h: nat, request: PaymentCreate, now: int, intent: Option<string>)
      returns (payment: Payment, qrCode: string)
      requires Valid() && h in Last(history).handlers && Last(history).handlers[h] == Stage.LookingUpKey(request)
      requires FoundByKey(repo.payments, request.idempotencyKey, None)
      requires ToUpper(request.currency) in config.allowedCurrencies
      modifies this, uuids
      ensures Valid() && old(history) <= history
      ensures h in Last(history).handlers && Last(history).handlers[h] == Inserting(request, payment, qrCode)
      ensures payment == NewPayment(config, request, payment.id, payment.paymentReference, now)
      ensures IsUnique(repo.payments, payment)
      ensures payment.id in uuids.issued && payment.paymentReference in uuids.issued
      ensures intent.Some? ==> qrCode == intent.value
    {
      InTheMirror(config, history, repo.payments, uuids.issued);
      var id := uuids.NewString();
      var reference := uuids.NewString();
      payment := NewPayment(config, request, id, reference, now);
      qrCode := if intent.Some? then intent.value else "";
      ToTheMirror(config, history, repo.payments, uuids.issued);
      PaymentIsDrawn(config, Last(history), h, request, id, reference, qrCode, now);
      Move(LookUpKey(h, None, id, reference, qrCode, now), h, Inserting(request, payment, qrCode));
    }

    method StorePayment(ghost h: nat, request: PaymentCreate, payment: Payment, qrCode: string, now: int)
      returns (reply: RpcOutcome<PaymentIntent>)
      requires Valid() && h in Last(history).handlers && Last(history).handlers[h] == Inserting(request, payment, qrCode)
      requires IsUnique(repo.payments, payment) && payment.pendingMessages == []
      requires payment.id in uuids.issued && payment.paymentReference in uuids.issued
      modifies this, repo, uuids
      ensures Valid() && old(history) <= history
      ensures reply == Data(ToIntent(payment, qrCode, false)) && RpcReply(request, reply) in Last(history).replies
      ensures Becomes(old(repo.payments), repo.payments, payment,
                      [ProcessRequested(payment.id, payment.paymentReference)], now)
    {
      InTheMirror(config, history, repo.payments, uuids.issued);
      var messageId := uuids.NewString();
      var entry := NewEntry(payment, Request, messageId, ProcessRequested(payment.id, payment.paymentReference));
      ghost var payments := repo.payments;
      assert [] + Pendings([entry], now) == [ToPending(entry, now)];
      var created := repo.Create(payment.(pendingMessages := [ToPending(entry, now)]));
      reply := Data(ToIntent(created, qrCode, false));
      ghost var w' := InsertLeads(config, Last(history), h, request, payment, qrCode, messageId, now);
      Take(Insert(h, messageId, now), w');
      StoringBecomes(payments, payment, [entry], [ProcessRequested(payment.id, payment.paymentReference)], now);
      ToTheMirror(config, history, repo.payments, uuids.issued);
    }

    /** payment.delivery.requested */
    method HandleDeliveryRequested(paymentId: string, now: int)
      requires Valid()
      modifies this, repo, uuids
      ensures Valid() && old(history) <= history
      ensures Delivers(old(repo.payments), repo.payments, paymentId, now)
    {
      InTheMirror(config, history, repo.payments, uuids.issued);
      ghost var h := Begin(BeginDelivery(Fresh(Last(history).handlers.Keys), paymentId));
      var found := repo.FindByID(paymentId);
      TakeLookUp(h, paymentId);
      if found.None? || found.value.paymentStatus != Completed || found.value.deliveryStatus == Delivered {
        return;
      }
      MarkDelivered(h, found.value, now);
    }

    ghost method TakeLookUp(h: nat, paymentId: string)
      requires Valid() && h in Last(history).handlers && Last(history).handlers[h] == Stage.LookingUpPayment(paymentId)
      modifies `history
      ensures Valid() && old(history) <= history && h in Last(history).handlers
      ensures paymentId in repo.payments && repo.payments[paymentId].paymentStatus == Completed
              && repo.payments[paymentId].deliveryStatus != Delivered
              ==> Last(history).handlers[h] == Delivering(repo.payments[paymentId])
    {
      InTheMirror(config, history, repo.payments, uuids.issued);
      PaymentLooksUp(config, Last(history), h, paymentId);
      Move(LookUpPayment(h), h,
           if paymentId in repo.payments && repo.payments[paymentId].paymentStatus == Completed
              && repo.payments[paymentId].deliveryStatus != Delivered
           then Delivering(repo.payments[paymentId]) else Finished);
    }

    method MarkDelivered(ghost h: nat, payment: Payment, now: int)
      requires Valid() && h in Last(history).handlers && Last(history).handlers[h] == Delivering(payment)
      requires payment.id in repo.payments && repo.payments[payment.id] == payment
      modifies this, repo, uuids
      ensures Valid() && old(history) <= history
      ensures if CanDeliver(payment) then IsDelivered(old(repo.payments), repo.payments, payment, now)
              else repo.payments == old(repo.payments)
    {
      InTheMirror(config, history, repo.payments, uuids.issued);
      var statusId := uuids.NewString();
      var confirmedId := uuids.NewString();
      var entries := DeliveryEntries(payment, statusId, confirmedId);
      var _, _ := repo.MarkDelivery(payment.id, Delivered, "", Pendings(entries, now));
      HasDelivered(Last(history).payments, payment, statusId, confirmedId, now);
      DeliverLeads(config, Last(history), h, payment, statusId, confirmedId, now);
      EndWith(Deliver(h, statusId, confirmedId, now), h, CanDeliver(payment), MarkedDelivery(payment, Delivered, ""),
              entries, now);
    }

    /** payment.callback.confirmed */
    method HandleCallbackConfirmed(callback: Callback, now: int)
      requires Valid()
      modifies this, repo, uuids
      ensures Valid() && old(history) <= history
      ensures (forall id :: id in old(repo.payments) ==> !IsTaken(config, old(repo.payments)[id], callback, now)) ==>
                repo.payments == old(repo.payments)
      ensures forall id :: id in old(repo.payments) && IsTaken(config, old(repo.payments)[id], callback, now) ==>
                IsSettled(old(repo.payments), repo.payments, old(repo.payments)[id], callback, now)
    {
      ghost var payments := repo.payments;
      assert AreUnique(payments) by {
        InTheMirror(config, history, repo.payments, uuids.issued);
        ReferencesAreUnique(config, history, repo.payments);
      }
      ghost var h := BeginCallbackConfirmed(callback);
      var found := repo.FindByReference(callback.paymentReference);
      if found.None? || callback.occurredAt.None? {
        CallbackEnds(h, callback, None, now);
        return;
      }
      TakeCallback(h, found.value, callback, now);
    }

    /** The callback names the payment. */
    method TakeCallback(ghost h: nat, payment: Payment, callback: Callback, now: int)
      requires Valid() && h in Last(history).handlers && Last(history).handlers[h] == Stage.LookingUpReference(callback)
      requires payment.id in repo.payments && repo.payments[payment.id] == payment
      requires payment.paymentReference == callback.paymentReference && callback.occurredAt.Some?
      modifies this, repo, uuids
      ensures Valid() && old(history) <= history
      ensures if IsTaken(config, payment, callback, now)
              then IsSettled(old(repo.payments), repo.payments, payment, callback, now)
              else repo.payments == old(repo.payments)
    {
      var eventTime := callback.occurredAt.value;
      if AbsDuration(Saturated(now - eventTime)) > config.tolerance
         || payment.amount != callback.amount || payment.currency != callback.currency {
        CallbackEnds(h, callback, Some(payment.id), now);
        return;
      }
      CallbackMatches(h, payment, callback, now);
      SettlePayment(h, payment, callback, now);
    }

    /** The end of HandleCallbackConfirmed: the payment expires or is completed. */
    method SettlePayment(ghost h: nat, payment: Payment, callback: Callback, now: int)
      requires Valid() && h in Last(history).handlers && callback.occurredAt.Some?
      requires Last(history).handlers[h] == if payment.expiresAt < callback.occurredAt.value then Expiring(payment)
                                            else Completing(payment, callback)
      requires payment.id in repo.payments && repo.payments[payment.id] == payment
      modifies this, repo, uuids
      ensures Valid() && old(history) <= history
      ensures if CanSettle(payment) then IsSettled(old(repo.payments), repo.payments, payment, callback, now)
              else repo.payments == old(repo.payments)
    {
      InTheMirror(config, history, repo.payments, uuids.issued);
      if payment.expiresAt < callback.occurredAt.value {
        MarkExpired(h, payment, now);
        return;
      }
      MarkCompleted(h, payment, callback, now);
    }

    /** A callback that agrees with the payment it names. */
    ghost method CallbackMatches(h: nat, payment: Payment, callback: Callback, now: int)
      requires Valid() && h in Last(history).handlers && Last(history).handlers[h] == Stage.LookingUpReference(callback)
      requires payment.id in repo.payments && repo.payments[payment.id] == payment
      requires payment.paymentReference == callback.paymentReference && callback.occurredAt.Some?
      requires AbsDuration(Saturated(now - callback.occurredAt.value)) <= config.tolerance
      requires payment.amount == callback.amount && payment.currency == callback.currency
      modifies `history
      ensures Valid() && old(history) <= history && h in Last(history).handlers
      ensures Last(history).handlers[h] == if payment.expiresAt < callback.occurredAt.value then Expiring(payment)
                                           else Completing(payment, callback)
    {
      InTheMirror(config, history, repo.payments, uuids.issued);
      ReferenceLooksUp(config, Last(history), h, callback, Some(payment.id), now);
      Move(LookUpReference(h, Some(payment.id), now), h,
           if payment.expiresAt < callback.occurredAt.value then Expiring(payment) else Completing(payment, callback));
    }

    ghost method BeginCallbackConfirmed(callback: Callback) returns (h: nat)
      requires Valid()
      modifies `history
      ensures Valid() && h in Last(history).handlers && Last(history).handlers[h] == Stage.LookingUpReference(callback)
      ensures old(history) <= history && Last(history).payments == Last(old(history)).payments
    {
      InTheMirror(config, history, repo.payments, uuids.issued);
      h := Fresh(Last(history).handlers.Keys);
      CallbackBegins(config, Last(history), h, callback);
      Take(BeginCallback(h, callback),
           Moved(Last(history).(callbacks := Last(history).callbacks + {callback}), h, Stage.LookingUpReference(callback)));
      ToTheMirror(config, history, repo.payments, uuids.issued);
    }

    /** A callback that is ignored. */
    ghost method CallbackEnds(h: nat, callback: Callback, found: Option<string>, now: int)
      requires Valid() && h in Last(history).handlers && Last(history).handlers[h] == Stage.LookingUpReference(callback)
      requires found.Some? ==>
                 found.value in repo.payments && repo.payments[found.value].paymentReference == callback.paymentReference
      requires found.Some? && callback.occurredAt.Some? ==>
                 || AbsDuration(Saturated(now - callback.occurredAt.value)) > config.tolerance
                 || repo.payments[found.value].amount != callback.amount
                 || repo.payments[found.value].currency != callback.currency
      requires found.None? ==>
                 FoundByReference(repo.payments, callback.paymentReference, None) || callback.occurredAt.None?
      modifies `history
      ensures Valid() && old(history) <= history
    {
      InTheMirror(config, history, repo.payments, uuids.issued);
      ghost var which := found;
      if found.None? && !FoundByReference(repo.payments, callback.paymentReference, None) {
        var id :| id in repo.payments && repo.payments[id].paymentReference == callback.paymentReference;
        which := Some(id);
      }
      ReferenceLooksUp(config, Last(history), h, callback, which, now);
      Move(LookUpReference(h, which, now), h, Finished);
    }

    method MarkExpired(ghost h: nat, payment: Payment, now: int)
      requires Valid() && h in Last(history).handlers && Last(history).handlers[h] == Expiring(payment)
      requires payment.id in repo.payments && repo.payments[payment.id] == payment
      modifies this, repo, uuids
      ensures Valid() && old(history) <= history
      ensures if CanSettle(payment) then IsExpired(old(repo.payments), repo.payments, payment, now)
              else repo.payments == old(repo.payments)
    {
      InTheMirror(config, history, repo.payments, uuids.issued);
      var messageId := uuids.NewString();
      var entries := ExpiryEntries(payment, messageId);
      var _, _ := repo.MarkExpired(payment.id, Pendings(entries, now));
      HasExpired(Last(history).payments, payment, messageId, now);
      ExpireLeads(config, Last(history), h, payment, messageId, now);
      EndWith(Expire(h, messageId, now), h, CanSettle(payment), MarkedExpired(payment), entries, now);
    }

    method MarkCompleted(ghost h: nat, payment: Payment, callback: Callback, now: int)
      requires Valid() && h in Last(history).handlers && Last(history).handlers[h] == Completing(payment, callback)
      requires payment.id in repo.payments && repo.payments[payment.id] == payment && callback.occurredAt.Some?
      modifies this, repo, uuids
      ensures Valid() && old(history) <= history
      ensures if CanSettle(payment) then IsCompleted(old(repo.payments), repo.payments, payment, callback, now)
              else repo.payments == old(repo.payments)
    {
      InTheMirror(config, history, repo.payments, uuids.issued);
      var eventTime := callback.occurredAt.value;
      var statusId := uuids.NewString();
      var deliveryId := uuids.NewString();
      var entries := CompletionEntries(payment, callback, statusId, deliveryId);
      var _, _ := repo.MarkCompleted(payment.id, callback.eventId, eventTime, Pendings(entries, now));
      HasCompleted(Last(history).payments, payment, callback, statusId, deliveryId, now);
      CompleteLeads(config, Last(history), h, payment, callback, statusId, deliveryId, now);
      EndWith(Complete(h, statusId, deliveryId, now), h, CanSettle(payment),
              PaymentStore.MarkedCompleted(payment, callback.eventId, eventTime), entries, now);
    }

    /** payment.process.requested */
    method HandleProcessRequested(paymentId: string, now: int, gateway: Gateway)
      requires Valid()
      modifies this, repo, uuids
      ensures Valid() && old(history) <= history
      ensures Processes(config, old(repo.payments), repo.payments, paymentId, now, gateway)
    {
      InTheMirror(config, history, repo.payments, uuids.issued);
      ghost var h := Begin(BeginProcess(Fresh(Last(history).handlers.Keys), paymentId));
      ghost var payments := repo.payments;
      var reserved := repo.ReserveForProcessing(paymentId, now);
      if reserved.None? {
        NotReserved(h, paymentId, now);
        return;
      }
      TakeReserve(h, paymentId, now);
      ProcessReserved(h, reserved.value, now, gateway, payments);
    }

    /** One branch: the payment was not there to be reserved. */
    method NotReserved(ghost h: nat, paymentId: string, now: int)
      requires Valid() && h in Last(history).handlers && Last(history).handlers[h] == Reserving(paymentId)
      requires paymentId in repo.payments ==> !CanReserve(repo.payments[paymentId], now)
      modifies this, repo, uuids
      ensures Valid() && old(history) <= history
      ensures ExpiresIfLate(old(repo.payments), repo.payments, paymentId, now)
    {
      InTheMirror(config, history, repo.payments, uuids.issued);
      ReserveFails(h, paymentId, now);
      ExpireIfLate(h, paymentId, now);
    }

    /** The other branch: what follows a reservation. */
    method ProcessReserved(ghost h: nat, payment: Payment, now: int, gateway: Gateway, ghost before: Payments)
      requires Valid() && h in Last(history).handlers && Last(history).handlers[h] == Announcing(payment)
      requires payment.id in repo.payments && repo.payments[payment.id] == payment && CanFail(payment)
      requires before.Keys == repo.payments.Keys && repo.payments == before[payment.id := payment]
      modifies this, repo, uuids
      ensures Valid() && old(history) <= history
      ensures IsCharged(config, before, repo.payments, payment, now, gateway)
    {
      InTheMirror(config, history, repo.payments, uuids.issued);
      EnqueueProcessing(h, payment, now, before);
      ChargePayment(h, payment, now, gateway, before);
    }

    /** The charge, retried, and what follows from it. */
    method ChargePayment(ghost h: nat, payment: Payment, now: int, gateway: Gateway, ghost before: Payments)
      requires Valid() && h in Last(history).handlers && Last(history).handlers[h] == Charging(payment)
      requires HasBegun(before, repo.payments, payment, now)
      modifies this, repo, uuids
      ensures Valid() && old(history) <= history
      ensures IsCharged(config, before, repo.payments, payment, now, gateway)
    {
      InTheMirror(config, history, repo.payments, uuids.issued);
      var error, _, _ := Run(gateway.attempts, gateway.delay, gateway.backoff, gateway.operation);
      if error.Some? {
        ChargeEnds(h, payment, NotCharged(gateway.reason), Failing(payment, gateway.reason));
        MarkFailed(h, payment, gateway.reason, now, before);
        return;
      }
      var result := if gateway.attempts >= 1 then gateway.result else GatewayResult("", ZERO_TIME);
      if !config.simulateWebhook {
        ChargeEnds(h, payment, Charged(result), Finished);
        return;
      }
      ChargeEnds(h, payment, Charged(result), CallingBack(payment, result));
      EnqueueCallback(h, payment, result, now, before);
    }

    ghost method ChargeEnds(h: nat, payment: Payment, charge: Charge, next: Stage)
      requires Valid() && h in Last(history).handlers && Last(history).handlers[h] == Charging(payment)
      requires next == AfterCharge(config, payment, charge)
      modifies `history
      ensures Valid() && old(history) <= history
      ensures h in Last(history).handlers && Last(history).handlers[h] == next
    {
      ChargeLeads(config, Last(history), h, payment, charge);
      Move(DoCharge(h, charge), h, next);
    }

    ghost method ReserveFails(h: nat, paymentId: string, now: int)
      requires Valid() && h in Last(history).handlers && Last(history).handlers[h] == Reserving(paymentId)
      requires paymentId in repo.payments ==> !CanReserve(repo.payments[paymentId], now)
      modifies `history
      ensures Valid() && old(history) <= history
      ensures h in Last(history).handlers && Last(history).handlers[h] == LookingAgain(paymentId, now)
    {
      InTheMirror(config, history, repo.payments, uuids.issued);
      ReserveFailing(config, Last(history), h, paymentId, now);
      Move(Reserve(h, now), h, LookingAgain(paymentId, now));
    }

    ghost method TakeReserve(h: nat, paymentId: string, now: int)
      requires repo.uuids == uuids && uuids.Valid() && Runs(config, history)
      requires h in Last(history).handlers && Last(history).handlers[h] == Reserving(paymentId)
      requires Last(history).uuids <= uuids.issued && IdsWereDrawn(Last(history).payments, uuids.issued)
      requires paymentId in Last(history).payments && CanReserve(Last(history).payments[paymentId], now)
      requires repo.payments == Last(history).payments[paymentId := Reserved(Last(history).payments[paymentId], now)]
      modifies `history
      ensures Valid() && old(history) <= history
      ensures h in Last(history).handlers && Last(history).handlers[h] == Announcing(repo.payments[paymentId])
    {
      var p := Reserved(Last(history).payments[paymentId], now);
      assert p.pendingMessages + Pendings([], now) == p.pendingMessages;
      ReserveLeads(config, Last(history), h, paymentId, now);
      Take(Reserve(h, now), Stored(Last(history), h, Announcing(p), p, [], now));
      ToTheMirror(config, history, repo.payments, uuids.issued);
    }

    /** A payment that nobody has begun to process in time expires. */
    method ExpireIfLate(ghost h: nat, paymentId: string, now: int)
      requires Valid() && h in Last(history).handlers && Last(history).handlers[h] == LookingAgain(paymentId, now)
      modifies this, repo, uuids
      ensures Valid() && old(history) <= history
      ensures ExpiresIfLate(old(repo.payments), repo.payments, paymentId, now)
    {
      InTheMirror(config, history, repo.payments, uuids.issued);
      var existing := repo.FindByID(paymentId);
      LookingAgainLeads(config, Last(history), h, paymentId, now);
      if existing.Some? && existing.value.paymentStatus == Pending && existing.value.expiresAt < now {
        Move(LookAgain(h), h, Expiring(existing.value));
        MarkExpired(h, existing.value, now);
        return;
      }
      Move(LookAgain(h), h, Finished);
    }

    method EnqueueProcessing(ghost h: nat, payment: Payment, now: int, ghost before: Payments)
      requires Valid() && h in Last(history).handlers && Last(history).handlers[h] == Announcing(payment)
      requires payment.id in repo.payments && repo.payments[payment.id] == payment && CanFail(payment)
      requires repo.payments == before[payment.id := payment]
      modifies this, repo, uuids
      ensures Valid() && old(history) <= history
      ensures h in Last(history).handlers && Last(history).handlers[h] == Charging(payment)
      ensures HasBegun(before, repo.payments, payment, now)
    {
      InTheMirror(config, history, repo.payments, uuids.issued);
      var messageId := uuids.NewString();
      var entries := [StatusEntry(payment, PaymentStatus.Processing, payment.deliveryStatus, messageId)];
      repo.EnqueueMessages(payment.id, Pendings(entries, now));
      HasAnnounced(before, Last(history).payments, payment, entries, messageId, now);
      Announces(config, Last(history), h, payment, messageId, now);
      StoreWith(Announce(h, messageId, now), h, Charging(payment), payment, entries, now);
    }

    method MarkFailed(ghost h: nat, payment: Payment, reason: string, now: int, ghost before: Payments)
      requires Valid() && h in Last(history).handlers && Last(history).handlers[h] == Failing(payment, reason)
      requires HasBegun(before, repo.payments, payment, now)
      modifies this, repo, uuids
      ensures Valid() && old(history) <= history
      ensures Becomes(before, repo.payments, PaymentStore.MarkedFailed(payment, reason),
                      [StatusEvent(payment, PaymentStatus.Processing, payment.deliveryStatus)]
                      + [StatusEvent(payment, Failed, payment.deliveryStatus)], now)
    {
      InTheMirror(config, history, repo.payments, uuids.issued);
      var messageId := uuids.NewString();
      var entries := [StatusEntry(payment, Failed, payment.deliveryStatus, messageId)];
      ghost var between := repo.payments;
      ghost var failed := PaymentStore.MarkedFailed(between[payment.id], reason);
      var _, _ := repo.MarkFailed(payment.id, reason, Pendings(entries, now));
      FailLeads(config, Last(history), h, payment, reason, messageId, now);
      BeginningGoesOn(before, between, repo.payments, payment, PaymentStore.MarkedFailed(payment, reason), entries,
                      [StatusEvent(payment, Failed, payment.deliveryStatus)], now);
      EndWith(Fail(h, messageId, now), h, true, failed, entries, now);
    }

    method EnqueueCallback(ghost h: nat, payment: Payment, result: GatewayResult, now: int, ghost before: Payments)
      requires Valid() && h in Last(history).handlers && Last(history).handlers[h] == CallingBack(payment, result)
      requires HasBegun(before, repo.payments, payment, now)
      modifies this, repo, uuids
      ensures Valid() && old(history) <= history
      ensures Becomes(before, repo.payments, payment,
                      [StatusEvent(payment, PaymentStatus.Processing, payment.deliveryStatus)]
                      + [CallbackConfirmed(SimulatedCallback(payment, result))], now)
    {
      InTheMirror(config, history, repo.payments, uuids.issued);
      var messageId := uuids.NewString();
      var callback := SimulatedCallback(payment, result);
      var entries := [NewEntry(payment, CallbackKind, messageId, CallbackConfirmed(callback))];
      ghost var between := repo.payments;
      repo.EnqueueMessages(payment.id, Pendings(entries, now));
      CallBackLeads(config, Last(history), h, payment, result, messageId, now);
      BeginningGoesOn(before, between, repo.payments, payment, payment, entries, [CallbackConfirmed(callback)], now);
      EndWith(CallBack(h, messageId, now), h, true, between[payment.id], entries, now);
    }

    /**
     PublishPending: claims at most a hundred messages, publishes each of them once, and lets go of
     each, the ones that were not taken to be tried again later.
     */
    method PublishPending(surroundings: PublisherSurroundings)
      returns (result: seq<PendingPublish>, ghost claimed: Payments, ghost taken: seq<Position>)
      requires Valid() && surroundings.lease > 0
      modifies this, repo, uuids
      ensures Valid() && old(history) <= history
      ensures |result| == Min(100, |EligibleAt(old(repo.payments), surroundings.now)|)
      ensures HasClaimed(old(repo.payments), claimed, taken, result, surroundings.now, surroundings.now + surroundings.lease)
      ensures TokensAreNew(result, old(uuids.issued), uuids.issued)
      ensures repo.payments == ReleasedUpTo(claimed, result, surroundings, |result|)
      ensures forall id :: id in old(repo.payments) ==>
                id in repo.payments
                && Leaves(old(repo.payments), taken, result, surroundings, id, repo.payments[id].pendingMessages)
      ensures Last(history).bus == old(Last(history).bus) + SentOf(result, surroundings.publishes, |result|)
    {
      InTheMirror(config, history, repo.payments, uuids.issued);
      var before := surroundings.now;
      var until := surroundings.now + surroundings.lease;
      ghost var payments, issued := repo.payments, uuids.issued;
      result, taken := repo.ClaimPendingPublishes(before, until, 100);
      claimed := repo.payments;
      ghost var holders := TakeClaims(payments, taken, result, issued, before, until);
      PublishAll(result, holders, surroundings);
      BatchLeaves(config, old(history), payments, issued, uuids.issued, claimed, taken, result, surroundings);
    }

    /** The loop over the claimed messages. */
    method PublishAll(result: seq<PendingPublish>, ghost holders: seq<nat>, surroundings: PublisherSurroundings)
      requires Valid() && HoldTheRest(Last(history), result, holders, 0)
      requires forall i :: 0 <= i < |result| ==> result[i].paymentId in repo.payments
      modifies this, repo
      ensures Valid() && old(history) <= history
      ensures repo.payments == ReleasedUpTo(old(repo.payments), result, surroundings, |result|)
      ensures Last(history).bus == Last(old(history)).bus + SentOf(result, surroundings.publishes, |result|)
    {
      for n := 0 to |result|
        invariant Valid() && old(history) <= history
        invariant HoldTheRest(Last(history), result, holders, n)
        invariant repo.payments.Keys == old(repo.payments).Keys
        invariant repo.payments == ReleasedUpTo(old(repo.payments), result, surroundings, n)
        invariant Last(history).bus == Last(old(history)).bus + SentOf(result, surroundings.publishes, n)
      {
        OneMoreSent(Last(old(history)).bus, result, surroundings.publishes, n);
        PublishNext(result, holders, n, surroundings);
      }
    }

    method PublishNext(result: seq<PendingPublish>, ghost holders: seq<nat>, n: nat, surroundings: PublisherSurroundings)
      requires Valid() && n < |result| && HoldTheRest(Last(history), result, holders, n)
      requires result[n].paymentId in repo.payments
      modifies this, repo
      ensures Valid() && old(history) <= history && repo.payments.Keys == old(repo.payments).Keys
      ensures HoldTheRest(Last(history), result, holders, n + 1)
      ensures repo.payments == Released(old(repo.payments), result[n], surroundings.publishes(n),
                                        NextAttemptAt(result[n].message, surroundings, n))
      ensures Last(history).bus == Last(old(history)).bus
                + if surroundings.publishes(n) then [EntryOf(result[n].paymentId, result[n].message)] else []
    {
      ghost var w := Last(history);
      NextHolder(w, result, holders, n);
      PublishOne(result[n], holders[n], surroundings.publishes(n), NextAttemptAt(result[n].message, surroundings, n));
      OthersAreHeld(w, Last(history), result, holders, n);
    }

    /** The claims of the store, taken one by one. */
    ghost method TakeClaims(payments: Payments, taken: seq<Position>, result: seq<PendingPublish>, issued: set<string>,
                            before: int, until: int)
      returns (holders: seq<nat>)
      requires repo.uuids == uuids && uuids.Valid() && Runs(config, history) && issued <= uuids.issued && until > before
      requires payments == Last(history).payments && IdsWereDrawn(payments, uuids.issued) && Last(history).uuids <= issued
      requires HasClaimed(payments, repo.payments, taken, result, before, until) && TokensAreNew(result, issued, uuids.issued)
      modifies `history
      ensures Valid() && old(history) <= history && Last(history).bus == old(Last(history).bus)
      ensures HoldTheRest(Last(history), result, holders, 0)
      ensures forall i :: 0 <= i < |result| ==> result[i].paymentId in repo.payments
    {
      history, holders := ClaimsAreARun(config, history, repo.payments, taken, result, before, until);
      DrawnIdsStay(payments, repo.payments, taken, result, before, until, uuids.issued);
      ToTheMirror(config, history, repo.payments, uuids.issued);
    }

    /** The body of the loop: one message, published or not, and let go of. */
    method PublishOne(publish: PendingPublish, ghost h: nat, sent: bool, nextAttemptAt: int)
      requires Valid() && h in Last(history).holdings && publish.paymentId in repo.payments
      requires Last(history).holdings[h] == Holding(publish.paymentId, publish.message, Held)
      modifies this, repo
      ensures Valid() && old(history) <= history && repo.payments.Keys == old(repo.payments).Keys
      ensures repo.payments == Released(old(repo.payments), publish, sent, nextAttemptAt)
      ensures Last(history).bus == old(Last(history).bus)
                + if sent then [EntryOf(publish.paymentId, publish.message)] else []
      ensures OneHolderActs(Last(old(history)), Last(history), h)
    {
      ghost var w := Last(history);
      TakePublish(h, sent);
      ghost var between := Last(history);
      if !sent {
        Reschedule(publish, h, nextAttemptAt);
      } else {
        Settle(publish, h);
      }
      OneHolderActsOn(w, between, Last(history), h);
    }

    /** The publisher did not take the message. */
    method Reschedule(publish: PendingPublish, ghost h: nat, nextAttemptAt: int)
      requires Valid() && h in Last(history).holdings && publish.paymentId in repo.payments
      requires Last(history).holdings[h] == Holding(publish.paymentId, publish.message, Unpublished)
      modifies this, repo
      ensures Valid() && old(history) <= history && repo.payments.Keys == old(repo.payments).Keys
      ensures repo.payments == Released(old(repo.payments), publish, false, nextAttemptAt)
      ensures Last(history).bus == Last(old(history)).bus && OneHolderActs(Last(old(history)), Last(history), h)
    {
      InTheMirror(config, history, repo.payments, uuids.issued);
      var _ := repo.RetryPendingPublish(publish.paymentId, publish.message.id, publish.message.claimToken, nextAttemptAt,
                                        publish.message.attempts + 1);
      EndRetry(publish, h, nextAttemptAt);
    }

    /** The step of a retry, after the store has made it. */
    ghost method EndRetry(publish: PendingPublish, h: nat, nextAttemptAt: int)
      requires repo.uuids == uuids && uuids.Valid() && Runs(config, history) && h in Last(history).holdings
      requires Last(history).uuids <= uuids.issued && IdsWereDrawn(Last(history).payments, uuids.issued)
      requires Last(history).holdings[h] == Holding(publish.paymentId, publish.message, Unpublished)
      requires publish.paymentId in Last(history).payments
      requires var p := Last(history).payments[publish.paymentId];
               repo.payments == Last(history).payments[publish.paymentId :=
                 p.(pendingMessages := OutboxAfter(p.pendingMessages, publish, false, nextAttemptAt))]
      modifies `history
      ensures Valid() && old(history) <= history && Last(history).bus == Last(old(history)).bus
      ensures repo.payments == Released(Last(old(history)).payments, publish, false, nextAttemptAt)
      ensures OneHolderActs(Last(old(history)), Last(history), h)
    {
      ReleasedIsLetGo(Last(history), publish, h, Unpublished, false, nextAttemptAt);
      RetryLeads(config, Last(history), h, nextAttemptAt);
      EndHolding(RetryLater(h, nextAttemptAt), h,
                 OutboxAfter(PendingOf(Last(history), publish.paymentId), publish, false, nextAttemptAt));
    }

    /** The publisher took the message. */
    method Settle(publish: PendingPublish, ghost h: nat)
      requires Valid() && h in Last(history).holdings && publish.paymentId in repo.payments
      requires Last(history).holdings[h] == Holding(publish.paymentId, publish.message, Published)
      modifies this, repo
      ensures Valid() && old(history) <= history && repo.payments.Keys == old(repo.payments).Keys
      ensures repo.payments == Released(old(repo.payments), publish, true, 0)
      ensures Last(history).bus == Last(old(history)).bus && OneHolderActs(Last(old(history)), Last(history), h)
    {
      InTheMirror(config, history, repo.payments, uuids.issued);
      repo.AcknowledgePendingPublish(publish.paymentId, publish.message.id, publish.message.claimToken);
      ReleasedIsLetGo(Last(history), publish, h, Published, true, 0);
      AcknowledgeLeads(config, Last(history), h);
      EndHolding(Acknowledge(h), h, OutboxAfter(PendingOf(Last(history), publish.paymentId), publish, true, 0));
    }

    ghost method TakePublish(h: nat, sent: bool)
      requires Valid() && h in Last(history).holdings && Last(history).holdings[h].stage == Held
      modifies `history
      ensures Valid() && old(history) <= history
      ensures var held := Last(old(history)).holdings[h];
              && Last(history).bus == Last(old(history)).bus + (if sent then [EntryOf(held.paymentId, held.message)] else [])
              && Last(history).holdings == Last(old(history)).holdings[h := held.(stage := if sent then Published else Unpublished)]
    {
      InTheMirror(config, history, repo.payments, uuids.issued);
      PublishLeads(config, Last(history), h, sent);
      Take(Publish(h, sent), PublishedWorld(Last(history), h, sent));
      ToTheMirror(config, history, repo.payments, uuids.issued);
    }

    /** The holder lets go of the message, after the store has rewritten the outbox. */
    ghost method EndHolding(step: Step, h: nat, messages: seq<PendingMessage>)
      requires repo.uuids == uuids && uuids.Valid() && Runs(config, history) && h in Last(history).holdings
      requires Last(history).uuids <= uuids.issued && IdsWereDrawn(Last(history).payments, uuids.issued)
      requires Last(history).holdings[h].paymentId in Last(history).payments
      requires Leads(config, Last(history), step, LetGo(Last(history), h, messages))
      requires repo.payments == WithPending(Last(history), Last(history).holdings[h].paymentId, messages).payments
      modifies `history
      ensures Valid() && old(history) <= history && Last(history).bus == Last(old(history)).bus
      ensures Last(history).holdings == Last(old(history)).holdings[h := Last(old(history)).holdings[h].(stage := Dropped)]
    {
      Take(step, LetGo(Last(history), h, messages));
      ToTheMirror(config, history, repo.payments, uuids.issued);
    }
  }
}
