/**
 What is enqueued when: the ledger of the payment service, and why a payment is completed.
 */
module PaymentLedger {
  import opened Wrappers
  import opened Contracts
  import opened PaymentStore
  import opened Text
  import opened PaymentRun

  /** How often a kind of message has been enqueued for a payment. */
  function Count(log: seq<Entry>, id: string, kind: Kind): nat {
    if log == [] then 0
    else
      var last := log[|log| - 1];
      Count(log[..|log| - 1], id, kind) + (if last.paymentId == id && last.kind == kind then 1 else 0)
  }

  lemma {:induction false} CountOfMore(log: seq<Entry>, more: seq<Entry>, id: string, kind: Kind)
    ensures Count(log + more, id, kind) == Count(log, id, kind) + Count(more, id, kind)
  {
    if more == [] {
      assert log + more == log;
    } else {
      var front := more[..|more| - 1];
      CountOfMore(log, front, id, kind);
      assert (log + more)[..|log + more| - 1] == log + front;
    }
  }

  lemma CountsOfMore(log: seq<Entry>, more: seq<Entry>)
    ensures forall id, kind :: Count(log + more, id, kind) == Count(log, id, kind) + Count(more, id, kind)
  {
    forall id, kind
      ensures Count(log + more, id, kind) == Count(log, id, kind) + Count(more, id, kind)
    {
      CountOfMore(log, more, id, kind);
    }
  }

  lemma CountsOfFew(a: Entry, b: Entry)
    ensures forall id, kind :: Count([a], id, kind) == (if a.paymentId == id && a.kind == kind then 1 else 0)
    ensures forall id, kind :: Count([a, b], id, kind) == Count([a], id, kind) + Count([b], id, kind)
  {
    assert [a][..0] == [];
    CountsOfMore([a], [b]);
    assert [a] + [b] == [a, b];
  }

  lemma {:induction false} CountElsewhere(log: seq<Entry>, id: string, kind: Kind)
    requires forall i :: 0 <= i < |log| ==> log[i].paymentId != id
    ensures Count(log, id, kind) == 0
  {
    if log != [] {
      CountElsewhere(log[..|log| - 1], id, kind);
    }
  }

  /** What every later version of a document keeps of an earlier one. */
  ghost predicate Evolves(earlier: Payment, later: Payment) {
    && later.id == earlier.id && later.idempotencyKey == earlier.idempotencyKey
    && later.requestHash == earlier.requestHash && later.userId == earlier.userId
    && later.paymentReference == earlier.paymentReference && later.amount == earlier.amount
    && later.currency == earlier.currency && later.expiresAt == earlier.expiresAt
    && (earlier.paymentStatus == Completed ==>
        && later.paymentStatus == Completed && later.confirmedAt == earlier.confirmedAt
        && later.webhookEventIds == earlier.webhookEventIds)
    && (earlier.paymentStatus == Expired ==> later.paymentStatus == Expired)
    && (earlier.deliveryStatus == Delivered ==> later.deliveryStatus == Delivered)
  }

  /** The states of a document: it is processed at most once, and delivered only when completed. */
  ghost predicate DocumentOk(p: Payment) {
    && p.processingAttempts <= 1
    && (p.paymentStatus == Pending ==> p.processingAttempts == 0)
    && p.deliveryStatus != DeliveryFailed
    && (p.deliveryStatus == Delivered ==> p.paymentStatus == Completed)
  }

  /** A completed payment was confirmed in time by a delivered callback that matches it. */
  ghost predicate Justified(p: Payment, callbacks: set<Callback>) {
    if p.paymentStatus == Completed then
      exists callback :: Matches(p, callback) && callback in callbacks
        && p.confirmedAt == callback.occurredAt && p.webhookEventIds == EventIds(callback.eventId)
    else p.confirmedAt == None && p.webhookEventIds == []
  }

  ghost predicate Matches(p: Payment, callback: Callback) {
    && callback.paymentReference == p.paymentReference
    && callback.amount == p.amount && callback.currency == p.currency
    && callback.occurredAt.Some? && callback.occurredAt.value <= p.expiresAt
  }

  /** The number of times each message of the payment has been enqueued, from the document alone. */
  ghost predicate CountsOk(p: Payment, log: seq<Entry>) {
    && Count(log, p.id, Request) == 1
    && Count(log, p.id, Delivery) == (if p.paymentStatus == Completed then 1 else 0)
    && Count(log, p.id, Confirmation) == (if p.deliveryStatus == Delivered then 1 else 0)
    && Count(log, p.id, CallbackKind) <= p.processingAttempts
    && (forall status, delivery :: Count(log, p.id, Status(status, delivery)) <= MostOf(p, status, delivery))
    && Count(log, p.id, Status(Expired, DeliveryPending)) == MostOf(p, Expired, DeliveryPending)
    && Count(log, p.id, Status(Completed, DeliveryPending)) == MostOf(p, Completed, DeliveryPending)
    && Count(log, p.id, Status(Completed, Delivered)) == MostOf(p, Completed, Delivered)
  }

  /** The most status-updated messages there can be for a pair of states. */
  function MostOf(p: Payment, status: PaymentStatus, delivery: DeliveryStatus): nat {
    match (status, delivery)
    case (Processing, DeliveryPending) => p.processingAttempts
    case (Failed, DeliveryPending) => if p.paymentStatus in {Pending, Processing} then 0 else 1
    case (Expired, DeliveryPending) => if p.paymentStatus == Expired then 1 else 0
    case (Completed, DeliveryPending) => if p.paymentStatus == Completed then 1 else 0
    case (Completed, Delivered) => if p.deliveryStatus == Delivered then 1 else 0
    case (_, _) => 0
  }

  ghost predicate PaymentOk(p: Payment, id: string, log: seq<Entry>, callbacks: set<Callback>) {
    p.id == id && DocumentOk(p) && Justified(p, callbacks) && CountsOk(p, log)
  }

  /** A handler between its reservation of the payment and its end. */
  predicate InCharge(stage: Stage) {
    stage.Announcing? || stage.Charging? || stage.Failing? || stage.CallingBack?
  }

  predicate HasSeen(stage: Stage) {
    InCharge(stage) || stage.Expiring? || stage.Completing? || stage.Delivering?
  }

  ghost predicate StageSuits(stage: Stage, payments: Payments, callbacks: set<Callback>, log: seq<Entry>) {
    && (HasSeen(stage) ==>
        && stage.seen.id in payments && Evolves(stage.seen, payments[stage.seen.id])
        && stage.seen.deliveryStatus != DeliveryFailed)
    && (InCharge(stage) ==>
        && stage.seen.deliveryStatus == DeliveryPending
        && payments[stage.seen.id].processingAttempts == 1
        && Count(log, stage.seen.id, CallbackKind) == 0)
    && (stage.Announcing? ==> Count(log, stage.seen.id, Status(Processing, DeliveryPending)) == 0)
    && (stage.Completing? ==> Matches(stage.seen, stage.callback) && stage.callback in callbacks)
    && (stage.Delivering? ==> stage.seen.paymentStatus == Completed && stage.seen.confirmedAt.Some?)
    && (stage.LookingUpReference? ==> stage.callback in callbacks)
    && (stage.Inserting? ==>
        && stage.payment.paymentStatus == Pending && stage.payment.processingAttempts == 0
        && stage.payment.deliveryStatus == DeliveryPending && stage.payment.confirmedAt == None
        && stage.payment.webhookEventIds == [] && stage.payment.pendingMessages == [])
  }

  ghost predicate StageOk(stage: Stage, w: World, log: seq<Entry>) {
    StageSuits(stage, w.payments, w.callbacks, log)
  }

  /** A message that was enqueued for the document: logical id and content are those of its kind. */
  ghost predicate EntryOk(e: Entry, p: Payment) {
    && e.paymentId == p.id && e.kind == KindOf(e.body.event)
    && e.body.messageId == MessageId(e.kind, p.id, p.paymentReference)
    && (e.kind == Confirmation ==> ConfirmationOk(e.body.event, p))
  }

  /** payment.confirmed names the user of a payment that is completed and delivered. */
  ghost predicate ConfirmationOk(event: Event, p: Payment)
    requires event.PaymentConfirmed?
  {
    && event.paymentId == p.id && event.userId == p.userId
    && p.paymentStatus == Completed && p.deliveryStatus == Delivered
    && p.confirmedAt.Some? && event.confirmedAt == p.confirmedAt
  }

  ghost predicate DocumentsOk(w: World) {
    && (forall id :: id in w.payments ==> IsSoundAt(w.payments[id], id, w.log, w.callbacks))
    && KeysAreUnique(w.payments)
  }

  /** The unique indexes of the collection. */
  ghost predicate KeysAreUnique(payments: Payments) {
    forall a, b :: a in payments && b in payments && a != b ==>
      && payments[a].paymentReference != payments[b].paymentReference
      && payments[a].idempotencyKey != payments[b].idempotencyKey
  }

  ghost predicate IsSoundAt(p: Payment, id: string, log: seq<Entry>, callbacks: set<Callback>) {
    p.id == id && IsSound(p, log, callbacks)
  }

  ghost predicate HandlersOk(w: World) {
    && (forall h :: h in w.handlers ==> StageOk(w.handlers[h], w, w.log))
    && (forall a, b :: a in w.handlers && b in w.handlers && a != b && InCharge(w.handlers[a]) && InCharge(w.handlers[b])
          ==> w.handlers[a].seen.id != w.handlers[b].seen.id)
  }

  ghost predicate LogOk(w: World) {
    forall i :: 0 <= i < |w.log| ==>
      w.log[i].paymentId in w.payments && EntryOk(w.log[i], w.payments[w.log[i].paymentId])
  }

  ghost predicate Consistent(w: World) {
    DocumentsOk(w) && HandlersOk(w) && LogOk(w)
  }

  /** The invariant of the ledger; a step lemma looks inside it only where it says so. */
  ghost predicate Inv(w: World) {
    forall v :: v == w ==> Consistent(v)
  }

  lemma InvHoldsAtFirst()
    ensures Inv(EMPTY)
  {
  }

  lemma Inside(w: World)
    requires Inv(w)
    ensures DocumentsOk(w) && HandlersOk(w) && LogOk(w)
  {
    assert Consistent(w);
  }

  lemma EvolvesIsTransitive(a: Payment, b: Payment, c: Payment)
    requires Evolves(a, b) && Evolves(b, c)
    ensures Evolves(a, c)
  {
  }

  // --- Steps that store a document -------------------------------------------------------

  ghost predicate OnlyOf(entries: seq<Entry>, id: string) {
    forall i :: 0 <= i < |entries| ==> entries[i].paymentId == id
  }

  /** Nobody but the handler itself is in charge of the payment. */
  ghost predicate AloneInCharge(w: World, h: nat, id: string) {
    forall other :: other in w.handlers && other != h && InCharge(w.handlers[other]) ==> w.handlers[other].seen.id != id
  }

  /** The outbox of a document has no part in its ledger, nor do messages of other payments. */
  lemma PaymentStaysOk(p: Payment, id: string, log: seq<Entry>, callbacks: set<Callback>,
                       p': Payment, log': seq<Entry>, callbacks': set<Callback>)
    requires PaymentOk(p, id, log, callbacks) && callbacks <= callbacks'
    requires p' == p.(pendingMessages := p'.pendingMessages)
    requires forall kind :: Count(log', id, kind) == Count(log, id, kind)
    ensures PaymentOk(p', id, log', callbacks')
  {
    assert forall status, delivery :: MostOf(p', status, delivery) == MostOf(p, status, delivery);
    if p.paymentStatus == Completed {
      var callback :| Matches(p, callback) && callback in callbacks
        && p.confirmedAt == callback.occurredAt && p.webhookEventIds == EventIds(callback.eventId);
      assert Matches(p', callback);
    }
  }

  /** p is a later version of the document with its id. */
  ghost predicate Succeeds(payments: Payments, p: Payment) {
    forall id :: id == p.id && id in payments ==> Evolves(payments[id], p)
  }

  /** p is in order, whatever is stored. */
  ghost predicate IsSound(p: Payment, log: seq<Entry>, callbacks: set<Callback>) {
    forall id :: id == p.id ==> PaymentOk(p, id, log, callbacks)
  }

  /** A handler may stand at the stage. */
  ghost predicate IsFit(stage: Stage, w: World, log: seq<Entry>) {
    forall next :: next == stage ==> StageOk(next, w, log)
  }

  /** w' stores p in place of the document with its id, and the log has grown by entries for it. */
  ghost predicate Replaced(w: World, w': World, p: Payment, entries: seq<Entry>) {
    && p.id in w.payments && w'.payments.Keys == w.payments.Keys
    && (forall id :: id in w.payments && id != p.id ==> w'.payments[id] == w.payments[id])
    && w'.payments[p.id] == p.(pendingMessages := w'.payments[p.id].pendingMessages)
    && w'.log == w.log + entries && OnlyOf(entries, p.id)
    && w'.callbacks == w.callbacks
  }

  lemma PaymentStaysSound(p: Payment, log: seq<Entry>, callbacks: set<Callback>,
                          p': Payment, log': seq<Entry>, callbacks': set<Callback>)
    requires IsSound(p, log, callbacks) && callbacks <= callbacks'
    requires p' == p.(pendingMessages := p'.pendingMessages)
    requires forall kind :: Count(log', p.id, kind) == Count(log, p.id, kind)
    ensures IsSound(p', log', callbacks')
  {
    assert PaymentOk(p, p.id, log, callbacks);
    PaymentStaysOk(p, p.id, log, callbacks, p', log', callbacks');
  }

  lemma StoringKeepsOtherDocument(w: World, w': World, p: Payment, entries: seq<Entry>, id: string)
    requires Replaced(w, w', p, entries) && id in w.payments && id != p.id
    requires IsSoundAt(w.payments[id], id, w.log, w.callbacks)
    ensures IsSoundAt(w'.payments[id], id, w'.log, w'.callbacks)
  {
    CountsOfMore(w.log, entries);
    CountsElsewhere(entries, p.id);
    PaymentStaysSound(w.payments[id], w.log, w.callbacks, w'.payments[id], w'.log, w'.callbacks);
  }

  lemma StoringKeepsDocuments(w: World, w': World, p: Payment, entries: seq<Entry>)
    requires DocumentsOk(w) && Replaced(w, w', p, entries)
    requires IsSound(p, w'.log, w.callbacks) && Succeeds(w.payments, p)
    ensures DocumentsOk(w')
  {
    assert Evolves(w.payments[p.id], p);
    PaymentStaysSound(p, w'.log, w.callbacks, w'.payments[p.id], w'.log, w'.callbacks);
    forall id | id in w.payments && id != p.id
      ensures IsSoundAt(w'.payments[id], id, w'.log, w'.callbacks)
    {
      StoringKeepsOtherDocument(w, w', p, entries, id);
    }
  }

  lemma CountsElsewhere(entries: seq<Entry>, id: string)
    requires OnlyOf(entries, id)
    ensures forall other, kind :: other != id ==> Count(entries, other, kind) == 0
  {
    forall other, kind | other != id
      ensures Count(entries, other, kind) == 0
    {
      CountElsewhere(entries, other, kind);
    }
  }

  /** A stage survives a step that only lets its document evolve and enqueues nothing it forbids. */
  lemma StageStaysOk(stage: Stage, w: World, log: seq<Entry>, w': World, log': seq<Entry>)
    requires StageOk(stage, w, log) && w.callbacks <= w'.callbacks
    requires HasSeen(stage) ==>
               && stage.seen.id in w'.payments
               && Evolves(w.payments[stage.seen.id], w'.payments[stage.seen.id])
    requires InCharge(stage) ==>
               && w'.payments[stage.seen.id].processingAttempts == w.payments[stage.seen.id].processingAttempts
               && Count(log', stage.seen.id, CallbackKind) == Count(log, stage.seen.id, CallbackKind)
               && Count(log', stage.seen.id, Status(Processing, DeliveryPending))
                  == Count(log, stage.seen.id, Status(Processing, DeliveryPending))
    ensures StageOk(stage, w', log')
  {
    if HasSeen(stage) {
      EvolvesIsTransitive(stage.seen, w.payments[stage.seen.id], w'.payments[stage.seen.id]);
    }
  }

  lemma StoringKeepsOtherHandler(w: World, w': World, h: nat, p: Payment, entries: seq<Entry>, other: nat)
    requires other in w.handlers && other != h && StageOk(w.handlers[other], w, w.log)
    requires Replaced(w, w', p, entries) && Succeeds(w.payments, p)
    requires Undisturbed(w, h, p, entries)
    ensures StageOk(w.handlers[other], w', w'.log)
  {
    CountsOfMore(w.log, entries);
    CountsElsewhere(entries, p.id);
    StageStaysOk(w.handlers[other], w, w.log, w', w'.log);
  }

  lemma EntryStaysOk(e: Entry, p: Payment, p': Payment)
    requires EntryOk(e, p) && Evolves(p, p')
    ensures EntryOk(e, p')
  {
  }

  lemma StoringKeepsLog(w: World, w': World, p: Payment, entries: seq<Entry>)
    requires LogOk(w) && Replaced(w, w', p, entries) && Succeeds(w.payments, p)
    requires forall i :: 0 <= i < |entries| ==> EntryOk(entries[i], p)
    ensures LogOk(w')
  {
    assert Evolves(w.payments[p.id], p);
    forall i | 0 <= i < |w'.log|
      ensures w'.log[i].paymentId in w'.payments && EntryOk(w'.log[i], w'.payments[w'.log[i].paymentId])
    {
      if i < |w.log| {
        var id := w.log[i].paymentId;
        EntryStaysOk(w.log[i], w.payments[id], w'.payments[id]);
      } else {
        assert w'.log[i] == entries[i - |w.log|];
        EntryStaysOk(w'.log[i], p, w'.payments[p.id]);
      }
    }
  }

  /** Others in charge of the payment are not disturbed by what is stored, or there are none. */
  ghost predicate Undisturbed(w: World, h: nat, p: Payment, entries: seq<Entry>)
    requires p.id in w.payments
  {
    || AloneInCharge(w, h, p.id)
    || (&& p.processingAttempts == w.payments[p.id].processingAttempts
        && Count(entries, p.id, CallbackKind) == 0
        && Count(entries, p.id, Status(Processing, DeliveryPending)) == 0)
  }

  lemma FinishingKeepsHandlers(w: World, w': World, h: nat, p: Payment, entries: seq<Entry>)
    requires HandlersOk(w) && Replaced(w, w', p, entries) && Succeeds(w.payments, p)
    requires w'.handlers == w.handlers[h := Finished] && Undisturbed(w, h, p, entries)
    ensures HandlersOk(w')
  {
    forall a | a in w.handlers && a != h
      ensures StageOk(w'.handlers[a], w', w'.log)
    {
      StoringKeepsOtherHandler(w, w', h, p, entries, a);
    }
  }

  lemma StoringKeepsHandlers(w: World, w': World, h: nat, next: Stage, p: Payment, entries: seq<Entry>)
    requires HandlersOk(w) && Replaced(w, w', p, entries) && Succeeds(w.payments, p)
    requires w'.handlers == w.handlers[h := next]
    requires IsFit(next, w', w'.log) && (InCharge(next) ==> AloneInCharge(w, h, next.seen.id))
    requires Undisturbed(w, h, p, entries)
    ensures HandlersOk(w')
  {
    assert StageOk(next, w', w'.log);
    forall a | a in w.handlers && a != h
      ensures StageOk(w'.handlers[a], w', w'.log)
    {
      StoringKeepsOtherHandler(w, w', h, p, entries, a);
    }
  }

  /** A handler that stores a later version of a document, with messages that suit it, keeps the ledger. */
  lemma StoringKeepsInv(w: World, w': World, h: nat, next: Stage, p: Payment, entries: seq<Entry>)
    requires Inv(w) && Replaced(w, w', p, entries) && Succeeds(w.payments, p)
    requires IsSound(p, w'.log, w.callbacks)
    requires w'.handlers == w.handlers[h := next]
    requires forall i :: 0 <= i < |entries| ==> EntryOk(entries[i], p)
    requires IsFit(next, w', w'.log) && (InCharge(next) ==> AloneInCharge(w, h, next.seen.id))
    requires Undisturbed(w, h, p, entries)
    ensures Inv(w')
  {
    Inside(w);
    StoringKeepsDocuments(w, w', p, entries);
    StoringKeepsHandlers(w, w', h, next, p, entries);
    StoringKeepsLog(w, w', p, entries);
  }

  // --- The transitions, one by one -------------------------------------------------------

  lemma StoredReplaces(w: World, h: nat, next: Stage, p: Payment, entries: seq<Entry>, now: int)
    requires p.id in w.payments && OnlyOf(entries, p.id)
    ensures Replaced(w, Stored(w, h, next, p, entries, now), p, entries)
    ensures Stored(w, h, next, p, entries, now).handlers == w.handlers[h := next]
    ensures forall q :: q in w.payments && Evolves(w.payments[p.id], p) ==>
              Evolves(w.payments[q], Stored(w, h, next, p, entries, now).payments[q])
  {
  }

  /** Nothing else is counted when one message is enqueued. */
  lemma CountsAfterOne(log: seq<Entry>, a: Entry)
    ensures forall id, kind :: Count(log + [a], id, kind)
              == Count(log, id, kind) + (if a.paymentId == id && a.kind == kind then 1 else 0)
  {
    CountsOfMore(log, [a]);
    CountsOfFew(a, a);
  }

  lemma CountsAfterTwo(log: seq<Entry>, a: Entry, b: Entry)
    ensures forall id, kind :: Count(log + [a, b], id, kind)
              == Count(log, id, kind) + (if a.paymentId == id && a.kind == kind then 1 else 0)
                 + (if b.paymentId == id && b.kind == kind then 1 else 0)
  {
    CountsOfMore(log, [a, b]);
    CountsOfFew(a, b);
    CountsOfFew(b, a);
  }

  lemma ReserveOk(p: Payment, id: string, log: seq<Entry>, callbacks: set<Callback>, now: int)
    requires IsSound(p, log, callbacks) && p.id == id && CanReserve(p, now)
    ensures IsSound(Reserved(p, now), log, callbacks) && Evolves(p, Reserved(p, now))
    ensures Count(log, id, CallbackKind) == 0 && Count(log, id, Status(Processing, DeliveryPending)) == 0
  {
    assert PaymentOk(p, id, log, callbacks);
    assert Count(log, id, Status(Processing, DeliveryPending)) <= MostOf(p, Processing, DeliveryPending);
    assert forall status, delivery :: MostOf(p, status, delivery) <= MostOf(Reserved(p, now), status, delivery);
  }

  lemma AnnounceOk(p: Payment, id: string, log: seq<Entry>, callbacks: set<Callback>, e: Entry)
    requires IsSound(p, log, callbacks) && p.id == id && p.processingAttempts == 1
    requires Count(log, id, Status(Processing, DeliveryPending)) == 0
    requires e.paymentId == id && e.kind == Status(Processing, DeliveryPending)
    ensures IsSound(p, log + [e], callbacks)
  {
    assert PaymentOk(p, id, log, callbacks);
    CountsAfterOne(log, e);
  }

  lemma FailOk(p: Payment, id: string, log: seq<Entry>, callbacks: set<Callback>, e: Entry, reason: string)
    requires IsSound(p, log, callbacks) && p.id == id && CanFail(p)
    requires e.paymentId == id && e.kind == Status(Failed, DeliveryPending)
    ensures IsSound(MarkedFailed(p, reason), log + [e], callbacks) && Evolves(p, MarkedFailed(p, reason))
  {
    assert PaymentOk(p, id, log, callbacks);
    CountsAfterOne(log, e);
    assert Count(log, id, Status(Failed, DeliveryPending)) <= MostOf(p, Failed, DeliveryPending);
    assert forall status, delivery :: MostOf(p, status, delivery) <= MostOf(MarkedFailed(p, reason), status, delivery);
  }

  lemma CallBackOk(p: Payment, id: string, log: seq<Entry>, callbacks: set<Callback>, e: Entry)
    requires IsSound(p, log, callbacks) && p.id == id && p.processingAttempts == 1 && Count(log, id, CallbackKind) == 0
    requires e.paymentId == id && e.kind == CallbackKind
    ensures IsSound(p, log + [e], callbacks)
  {
    assert PaymentOk(p, id, log, callbacks);
    CountsAfterOne(log, e);
  }

  lemma ExpireOk(p: Payment, id: string, log: seq<Entry>, callbacks: set<Callback>, e: Entry)
    requires IsSound(p, log, callbacks) && p.id == id && CanSettle(p)
    requires e.paymentId == id && e.kind == Status(Expired, DeliveryPending)
    ensures IsSound(MarkedExpired(p), log + [e], callbacks) && Evolves(p, MarkedExpired(p))
  {
    assert PaymentOk(p, id, log, callbacks);
    CountsAfterOne(log, e);
    assert forall status, delivery :: MostOf(p, status, delivery) <= MostOf(MarkedExpired(p), status, delivery);
  }

  lemma CompleteOk(p: Payment, id: string, log: seq<Entry>, callbacks: set<Callback>, a: Entry, b: Entry, callback: Callback)
    requires IsSound(p, log, callbacks) && p.id == id && CanSettle(p)
    requires Matches(p, callback) && callback in callbacks
    requires a.paymentId == id && a.kind == Status(Completed, DeliveryPending)
    requires b.paymentId == id && b.kind == Delivery
    ensures var p' := MarkedCompleted(p, callback.eventId, callback.occurredAt.value);
            IsSound(p', log + [a, b], callbacks) && Evolves(p, p')
  {
    assert PaymentOk(p, id, log, callbacks);
    var p' := MarkedCompleted(p, callback.eventId, callback.occurredAt.value);
    CountsAfterTwo(log, a, b);
    assert Matches(p', callback);
    assert forall status, delivery :: MostOf(p, status, delivery) <= MostOf(p', status, delivery);
  }

  lemma DeliverOk(p: Payment, id: string, log: seq<Entry>, callbacks: set<Callback>, a: Entry, b: Entry)
    requires IsSound(p, log, callbacks) && p.id == id && CanDeliver(p)
    requires a.paymentId == id && a.kind == Status(Completed, Delivered)
    requires b.paymentId == id && b.kind == Confirmation
    ensures var p' := MarkedDelivery(p, Delivered, "");
            IsSound(p', log + [a, b], callbacks) && Evolves(p, p')
  {
    assert PaymentOk(p, id, log, callbacks);
    var p' := MarkedDelivery(p, Delivered, "");
    CountsAfterTwo(log, a, b);
    var callback :| Matches(p, callback) && callback in callbacks
      && p.confirmedAt == callback.occurredAt && p.webhookEventIds == EventIds(callback.eventId);
    assert Matches(p', callback);
    assert forall status, delivery :: MostOf(p, status, delivery) <= MostOf(p', status, delivery);
  }

  // --- Every step keeps the ledger -------------------------------------------------------

  lemma MovingKeepsInv(w: World, h: nat, next: Stage)
    requires Inv(w) && IsFit(next, w, w.log) && (InCharge(next) ==> AloneInCharge(w, h, next.seen.id))
    ensures Inv(Moved(w, h, next))
  {
    Inside(w);
    MovingKeepsHandlers(w, Moved(w, h, next), h, next);
  }

  lemma MovingKeepsHandlers(w: World, w': World, h: nat, next: Stage)
    requires HandlersOk(w) && IsFit(next, w, w.log) && (InCharge(next) ==> AloneInCharge(w, h, next.seen.id))
    requires w' == Moved(w, h, next)
    ensures HandlersOk(w')
  {
    assert StageOk(next, w, w.log);
  }

  lemma NobodyInChargeYet(w: World, h: nat, id: string)
    requires Inv(w) && id in w.payments && w.payments[id].processingAttempts == 0
    ensures AloneInCharge(w, h, id)
  {
    Inside(w);
    forall other | other in w.handlers && other != h && InCharge(w.handlers[other])
      ensures w.handlers[other].seen.id != id
    {
      assert StageOk(w.handlers[other], w, w.log);
    }
  }

  lemma Document(w: World, id: string)
    requires Inv(w) && id in w.payments
    ensures w.payments[id].id == id && IsSound(w.payments[id], w.log, w.callbacks)
  {
    Inside(w);
  }

  lemma ReservedIsSound(w: World, h: nat, id: string, now: int)
    requires Inv(w) && id in w.payments && CanReserve(w.payments[id], now)
    ensures var p := Reserved(w.payments[id], now);
            && p.id == id && p.processingAttempts == 1 && p.deliveryStatus == DeliveryPending
            && IsSound(p, w.log, w.callbacks) && Succeeds(w.payments, p) && AloneInCharge(w, h, id)
    ensures Count(w.log, id, CallbackKind) == 0 && Count(w.log, id, Status(Processing, DeliveryPending)) == 0
  {
    Document(w, id);
    assert PaymentOk(w.payments[id], id, w.log, w.callbacks);
    ReserveOk(w.payments[id], id, w.log, w.callbacks, now);
    NobodyInChargeYet(w, h, id);
  }

  lemma ReservedFits(w: World, w': World, h: nat, id: string, now: int)
    requires Inv(w) && id in w.payments && CanReserve(w.payments[id], now)
    requires Replaced(w, w', Reserved(w.payments[id], now), [])
    ensures IsFit(Announcing(Reserved(w.payments[id], now)), w', w'.log)
  {
    ReservedIsSound(w, h, id, now);
    assert w'.log == w.log;
  }

  /** What a handler that ends with a guarded transition stores, together with the messages. */
  ghost predicate Suits(w: World, h: nat, p: Payment, entries: seq<Entry>) {
    && p.id in w.payments && Succeeds(w.payments, p)
    && IsSound(p, w.log + entries, w.callbacks)
    && OnlyOf(entries, p.id)
    && (forall i :: 0 <= i < |entries| ==> EntryOk(entries[i], p))
    && Undisturbed(w, h, p, entries)
  }

  lemma AnnounceSuits(w: World, h: nat, e: Entry)
    requires Inv(w) && h in w.handlers && w.handlers[h].Announcing? && w.handlers[h].seen.id in w.payments
    requires var seen := w.handlers[h].seen; exists id :: e == StatusEntry(seen, Processing, seen.deliveryStatus, id)
    ensures Suits(w, h, w.payments[w.handlers[h].seen.id], [e])
  {
    SeenDocument(w, h);
    var p := w.payments[w.handlers[h].seen.id];
    AnnounceOk(p, p.id, w.log, w.callbacks, e);
  }

  lemma ChargingFits(w: World, w': World, h: nat, e: Entry)
    requires Inv(w) && h in w.handlers && w.handlers[h].Announcing? && w.handlers[h].seen.id in w.payments
    requires e.paymentId == w.handlers[h].seen.id && e.kind == Status(Processing, DeliveryPending)
    requires Replaced(w, w', w.payments[w.handlers[h].seen.id], [e])
    ensures IsFit(Charging(w.handlers[h].seen), w', w'.log)
  {
    SeenDocument(w, h);
    CountsAfterOne(w.log, e);
  }

  lemma EndingKeepsInv(w: World, w': World, h: nat, p: Payment, entries: seq<Entry>)
    requires Inv(w) && Replaced(w, w', p, entries) && Succeeds(w.payments, p)
    requires w'.handlers == w.handlers[h := Finished] && Undisturbed(w, h, p, entries)
    requires IsSound(p, w'.log, w.callbacks)
    requires forall i :: 0 <= i < |entries| ==> EntryOk(entries[i], p)
    ensures Inv(w')
  {
    Inside(w);
    StoringKeepsDocuments(w, w', p, entries);
    FinishingKeepsHandlers(w, w', h, p, entries);
    StoringKeepsLog(w, w', p, entries);
  }

  lemma FinishingKeepsInv(w: World, w': World, h: nat, p: Payment, entries: seq<Entry>, now: int)
    requires Inv(w) && Suits(w, h, p, entries)
    requires w' == Stored(w, h, Finished, p, entries, now)
    ensures Inv(w')
  {
    StoredReplaces(w, h, Finished, p, entries, now);
    EndingKeepsInv(w, w', h, p, entries);
  }

  /** What is known of the document that a handler has seen. */
  lemma SeenDocument(w: World, h: nat)
    requires Inv(w) && h in w.handlers && HasSeen(w.handlers[h])
    ensures StageOk(w.handlers[h], w, w.log)
    ensures var id := w.handlers[h].seen.id;
            id in w.payments && w.payments[id].id == id && IsSound(w.payments[id], w.log, w.callbacks)
    ensures InCharge(w.handlers[h]) ==> AloneInCharge(w, h, w.handlers[h].seen.id)
  {
    Inside(w);
  }

  lemma CallBackSuits(w: World, h: nat, e: Entry)
    requires Inv(w) && h in w.handlers && w.handlers[h].CallingBack?
    requires e.paymentId == w.handlers[h].seen.id && e.kind == CallbackKind == KindOf(e.body.event)
    requires e.body.messageId == MessageId(CallbackKind, w.handlers[h].seen.id, w.handlers[h].seen.paymentReference)
    ensures w.handlers[h].seen.id in w.payments && Suits(w, h, w.payments[w.handlers[h].seen.id], [e])
  {
    SeenDocument(w, h);
    var p := w.payments[w.handlers[h].seen.id];
    CallBackOk(p, p.id, w.log, w.callbacks, e);
  }

  lemma FailSuits(w: World, h: nat, e: Entry)
    requires Inv(w) && h in w.handlers && w.handlers[h].Failing?
    requires w.handlers[h].seen.id in w.payments && CanFail(w.payments[w.handlers[h].seen.id])
    requires var seen := w.handlers[h].seen; exists id :: e == StatusEntry(seen, Failed, seen.deliveryStatus, id)
    ensures Suits(w, h, MarkedFailed(w.payments[w.handlers[h].seen.id], w.handlers[h].reason), [e])
  {
    SeenDocument(w, h);
    var p := w.payments[w.handlers[h].seen.id];
    FailOk(p, p.id, w.log, w.callbacks, e, w.handlers[h].reason);
  }

  lemma ExpireSuits(w: World, h: nat, e: Entry)
    requires Inv(w) && h in w.handlers && w.handlers[h].Expiring?
    requires w.handlers[h].seen.id in w.payments && CanSettle(w.payments[w.handlers[h].seen.id])
    requires var seen := w.handlers[h].seen; exists id :: e == StatusEntry(seen, Expired, seen.deliveryStatus, id)
    ensures Suits(w, h, MarkedExpired(w.payments[w.handlers[h].seen.id]), [e])
  {
    Inside(w);
    SeenDocument(w, h);
    var p := w.payments[w.handlers[h].seen.id];
    assert PaymentOk(p, p.id, w.log, w.callbacks);
    ExpireOk(p, p.id, w.log, w.callbacks, e);
    CountsOfFew(e, e);
  }

  /** The document that the callback was matched with still matches it. */
  lemma CompletingStillMatches(w: World, h: nat)
    requires Inv(w) && h in w.handlers && w.handlers[h].Completing?
    ensures var seen := w.handlers[h].seen;
            && seen.id in w.payments && IsSound(w.payments[seen.id], w.log, w.callbacks)
            && Matches(w.payments[seen.id], w.handlers[h].callback) && w.handlers[h].callback in w.callbacks
            && w.payments[seen.id].id == seen.id && w.payments[seen.id].userId == seen.userId
            && w.payments[seen.id].paymentReference == seen.paymentReference
            && (CanSettle(w.payments[seen.id]) ==> seen.deliveryStatus == DeliveryPending)
  {
    Inside(w);
    SeenDocument(w, h);
    assert PaymentOk(w.payments[w.handlers[h].seen.id], w.handlers[h].seen.id, w.log, w.callbacks);
  }

  lemma CompleteSuits(w: World, h: nat, a: Entry, b: Entry)
    requires Inv(w) && h in w.handlers && w.handlers[h].Completing? && w.handlers[h].callback.occurredAt.Some?
    requires w.handlers[h].seen.id in w.payments && CanSettle(w.payments[w.handlers[h].seen.id])
    requires var seen := w.handlers[h].seen.(confirmedAt := w.handlers[h].callback.occurredAt);
             exists id :: a == StatusEntry(seen, Completed, seen.deliveryStatus, id)
    requires var seen := w.handlers[h].seen;
             exists id :: b == NewEntry(seen, Delivery, id, DeliveryRequested(seen.id, seen.userId))
    ensures var callback := w.handlers[h].callback;
            Suits(w, h, MarkedCompleted(w.payments[w.handlers[h].seen.id], callback.eventId, callback.occurredAt.value), [a, b])
  {
    CompletingStillMatches(w, h);
    var p := w.payments[w.handlers[h].seen.id];
    CompleteOk(p, p.id, w.log, w.callbacks, a, b, w.handlers[h].callback);
    CountsOfFew(a, b);
    CountsOfFew(b, a);
  }

  lemma DeliverSuits(w: World, h: nat, a: Entry, b: Entry)
    requires Inv(w) && h in w.handlers && w.handlers[h].Delivering?
    requires w.handlers[h].seen.id in w.payments && CanDeliver(w.payments[w.handlers[h].seen.id])
    requires var seen := w.handlers[h].seen; exists id :: a == StatusEntry(seen, Completed, Delivered, id)
    requires var seen := w.handlers[h].seen;
             exists id :: b == NewEntry(seen, Confirmation, id, PaymentConfirmed(seen.id, seen.userId, seen.confirmedAt))
    ensures Suits(w, h, MarkedDelivery(w.payments[w.handlers[h].seen.id], Delivered, ""), [a, b])
  {
    SeenDocument(w, h);
    var p := w.payments[w.handlers[h].seen.id];
    DeliverOk(p, p.id, w.log, w.callbacks, a, b);
    CountsOfFew(a, b);
    CountsOfFew(b, a);
  }

  // --- A new payment, and steps that leave the documents alone ---------------------------

  lemma NothingLoggedYet(w: World, id: string)
    requires LogOk(w) && id !in w.payments
    ensures forall kind :: Count(w.log, id, kind) == 0
  {
    forall kind
      ensures Count(w.log, id, kind) == 0
    {
      CountElsewhere(w.log, id, kind);
    }
  }

  lemma InsertedIsOk(w: World, h: nat, e: Entry)
    requires LogOk(w) && HandlersOk(w) && h in w.handlers && w.handlers[h].Inserting?
    requires w.handlers[h].payment.id !in w.payments
    requires e.paymentId == w.handlers[h].payment.id && e.kind == Request
    ensures IsSound(w.handlers[h].payment, w.log + [e], w.callbacks)
  {
    var p := w.handlers[h].payment;
    NothingLoggedYet(w, p.id);
    CountsAfterOne(w.log, e);
    assert StageOk(w.handlers[h], w, w.log);
    assert PaymentOk(p, p.id, w.log + [e], w.callbacks);
  }

  /** w' holds p besides the documents of w. */
  ghost predicate Added(w: World, w': World, h: nat, p: Payment, e: Entry) {
    && IsUnique(w.payments, p) && w'.payments.Keys == w.payments.Keys + {p.id}
    && (forall id :: id in w.payments ==> w'.payments[id] == w.payments[id])
    && w'.payments[p.id] == p.(pendingMessages := w'.payments[p.id].pendingMessages)
    && w'.log == w.log + [e] && EntryOk(e, p)
    && w'.callbacks == w.callbacks && w'.handlers == w.handlers[h := Finished]
  }

  lemma AddingKeepsDocuments(w: World, w': World, h: nat, p: Payment, e: Entry)
    requires DocumentsOk(w) && Added(w, w', h, p, e) && IsSound(p, w'.log, w.callbacks)
    ensures DocumentsOk(w')
  {
    CountsAfterOne(w.log, e);
    PaymentStaysSound(p, w'.log, w.callbacks, w'.payments[p.id], w'.log, w'.callbacks);
    forall id | id in w.payments
      ensures IsSoundAt(w'.payments[id], id, w'.log, w'.callbacks)
    {
      PaymentStaysSound(w.payments[id], w.log, w.callbacks, w'.payments[id], w'.log, w'.callbacks);
    }
  }

  lemma AddingKeepsStage(w: World, w': World, h: nat, p: Payment, e: Entry, a: nat)
    requires HandlersOk(w) && Added(w, w', h, p, e) && a in w.handlers && a != h
    ensures StageOk(w.handlers[a], w', w'.log)
  {
    CountsAfterOne(w.log, e);
    assert StageOk(w.handlers[a], w, w.log);
    StageStaysOk(w.handlers[a], w, w.log, w', w'.log);
  }

  lemma AddingKeepsHandlers(w: World, w': World, h: nat, p: Payment, e: Entry)
    requires HandlersOk(w) && Added(w, w', h, p, e)
    ensures HandlersOk(w')
  {
    forall a | a in w'.handlers
      ensures StageOk(w'.handlers[a], w', w'.log)
    {
      if a != h {
        AddingKeepsStage(w, w', h, p, e, a);
      }
    }
  }

  lemma AddingKeepsLog(w: World, w': World, h: nat, p: Payment, e: Entry)
    requires LogOk(w) && Added(w, w', h, p, e)
    ensures LogOk(w')
  {
    EntryStaysOk(e, p, w'.payments[p.id]);
    assert forall i :: 0 <= i < |w.log| ==> w'.log[i] == w.log[i];
  }

  /** w' differs from w in the outboxes, the callbacks received and what the ledger does not speak of. */
  ghost predicate SameDocuments(w: World, w': World) {
    && w'.payments.Keys == w.payments.Keys && w'.log == w.log && w'.handlers == w.handlers
    && w.callbacks <= w'.callbacks
    && forall id :: id in w.payments ==>
         w'.payments[id] == w.payments[id].(pendingMessages := w'.payments[id].pendingMessages)
  }

  lemma SameDocumentsKeepDocuments(w: World, w': World)
    requires DocumentsOk(w) && SameDocuments(w, w')
    ensures DocumentsOk(w')
  {
    forall id | id in w.payments
      ensures IsSoundAt(w'.payments[id], id, w'.log, w'.callbacks)
    {
      PaymentStaysSound(w.payments[id], w.log, w.callbacks, w'.payments[id], w'.log, w'.callbacks);
    }
  }

  lemma SameDocumentsKeepHandlers(w: World, w': World)
    requires HandlersOk(w) && SameDocuments(w, w')
    ensures HandlersOk(w')
  {
    forall a | a in w.handlers
      ensures StageOk(w'.handlers[a], w', w'.log)
    {
      StageStaysOk(w.handlers[a], w, w.log, w', w'.log);
    }
  }

  lemma SameDocumentsKeepInv(w: World, w': World)
    requires Inv(w) && SameDocuments(w, w')
    ensures Inv(w')
  {
    Inside(w);
    SameDocumentsKeepDocuments(w, w');
    SameDocumentsKeepHandlers(w, w');
    forall i | 0 <= i < |w'.log|
      ensures w'.log[i].paymentId in w'.payments && EntryOk(w'.log[i], w'.payments[w'.log[i].paymentId])
    {
      var id := w.log[i].paymentId;
      EntryStaysOk(w.log[i], w.payments[id], w'.payments[id]);
    }
  }

  // --- Every step ------------------------------------------------------------------------

  lemma ReplyingKeepsInv(w: World, h: nat, request: PaymentCreate, outcome: RpcOutcome<PaymentIntent>)
    requires Inv(w)
    ensures Inv(Replied(w, h, request, outcome))
  {
    MovingKeepsInv(w, h, Finished);
    SameDocumentsKeepInv(Moved(w, h, Finished), Replied(w, h, request, outcome));
  }

  lemma InsertedKeepsInv(w: World, h: nat, messageId: string, now: int)
    requires Inv(w) && h in w.handlers && w.handlers[h].Inserting? && IsUnique(w.payments, w.handlers[h].payment)
    ensures var p := w.handlers[h].payment;
            var e := NewEntry(p, Request, messageId, ProcessRequested(p.id, p.paymentReference));
            Inv(Stored(w, h, Finished, p, [e], now))
  {
    Inside(w);
    var p := w.handlers[h].payment;
    var e := NewEntry(p, Request, messageId, ProcessRequested(p.id, p.paymentReference));
    var w' := Stored(w, h, Finished, p, [e], now);
    InsertedIsOk(w, h, e);
    AddingKeepsDocuments(w, w', h, p, e);
    AddingKeepsHandlers(w, w', h, p, e);
    AddingKeepsLog(w, w', h, p, e);
  }

  lemma InsertKeepsInv(w: World, h: nat, messageId: string, now: int)
    requires Inv(w) && h in w.handlers && w.handlers[h].Inserting?
    ensures Inv(Inserted(w, h, w.handlers[h].request, w.handlers[h].payment, w.handlers[h].qrCode, messageId, now))
  {
    var p := w.handlers[h].payment;
    var request := w.handlers[h].request;
    if IsUnique(w.payments, p) {
      var e := NewEntry(p, Request, messageId, ProcessRequested(p.id, p.paymentReference));
      InsertedKeepsInv(w, h, messageId, now);
      ReplyingKeepsInv(Stored(w, h, Finished, p, [e], now), h, request, Data(ToIntent(p, w.handlers[h].qrCode, false)));
    } else {
      ReplyingKeepsInv(w, h, request, Refused(Problem(500, PaymentNotSaved)));
    }
  }

  lemma CreateStepKeepsInv(config: Config, w: World, step: Step)
    requires Inv(w) && Enabled(w, step) && (step.BeginCreate? || step.LookUpKey? || step.Insert?)
    ensures Inv(Apply(config, w, step))
  {
    match step
    case BeginCreate(h, request) => MovingKeepsInv(w, h, Stage.LookingUpKey(request));
    case LookUpKey(h, found, id, reference, qrCode, now) =>
      var request := w.handlers[h].request;
      if found.Some? {
        var existing := w.payments[found.value];
        ReplyingKeepsInv(w, h, request,
                         if existing.requestHash != request.requestHash then Refused(Problem(409, IdempotencyKeyReused))
                         else Data(ToIntent(existing, "", true)));
      } else if ToUpper(request.currency) !in config.allowedCurrencies {
        ReplyingKeepsInv(w, h, request, Refused(Problem(400, UnsupportedCurrency)));
      } else {
        MovingKeepsInv(w, h, Inserting(request, NewPayment(config, request, id, reference, now), qrCode));
      }
    case Insert(h, messageId, now) => InsertKeepsInv(w, h, messageId, now);
  }

  lemma ReservingKeepsInv(w: World, w': World, h: nat, id: string, now: int)
    requires Inv(w) && id in w.payments && CanReserve(w.payments[id], now)
    requires var p := Reserved(w.payments[id], now); w' == Stored(w, h, Announcing(p), p, [], now)
    ensures Inv(w')
  {
    var p := Reserved(w.payments[id], now);
    ReservedIsSound(w, h, id, now);
    StoredReplaces(w, h, Announcing(p), p, [], now);
    ReservedFits(w, w', h, id, now);
    assert w'.log == w.log;
    StoringKeepsInv(w, w', h, Announcing(p), p, []);
  }

  lemma ExpiringFits(w: World, id: string)
    requires Inv(w) && id in w.payments
    ensures IsFit(Expiring(w.payments[id]), w, w.log)
  {
    Inside(w);
    assert PaymentOk(w.payments[id], id, w.log, w.callbacks);
  }

  lemma BeginningKeepsInv(config: Config, w: World, step: Step)
    requires Inv(w) && Enabled(w, step) && (step.BeginProcess? || step.BeginDelivery?)
    ensures Inv(Apply(config, w, step))
  {
    var next := if step.BeginProcess? then Reserving(step.paymentId) else Stage.LookingUpPayment(step.paymentId);
    assert Apply(config, w, step) == Moved(w, step.h, next);
    MovingKeepsInv(w, step.h, next);
  }

  lemma ReserveStepKeepsInv(config: Config, w: World, step: Step)
    requires Inv(w) && Enabled(w, step) && step.Reserve?
    ensures Inv(Apply(config, w, step))
  {
    var id := w.handlers[step.h].paymentId;
    if id in w.payments && CanReserve(w.payments[id], step.now) {
      ReservingKeepsInv(w, Apply(config, w, step), step.h, id, step.now);
    } else {
      MovingKeepsInv(w, step.h, LookingAgain(id, step.now));
    }
  }

  lemma LookAgainStepKeepsInv(config: Config, w: World, step: Step)
    requires Inv(w) && Enabled(w, step) && step.LookAgain?
    ensures Inv(Apply(config, w, step))
  {
    var id := w.handlers[step.h].paymentId;
    if Apply(config, w, step) == Moved(w, step.h, Finished) {
      MovingKeepsInv(w, step.h, Finished);
    } else {
      ExpiringFits(w, id);
      MovingKeepsInv(w, step.h, Expiring(w.payments[id]));
    }
  }

  lemma ChargeStepKeepsInv(config: Config, w: World, h: nat, charge: Charge)
    requires Inv(w) && h in w.handlers && w.handlers[h].Charging?
    ensures Inv(Apply(config, w, DoCharge(h, charge)))
  {
    SeenDocument(w, h);
    var seen := w.handlers[h].seen;
    if charge.NotCharged? {
      MovingKeepsInv(w, h, Failing(seen, charge.reason));
    } else if config.simulateWebhook {
      MovingKeepsInv(w, h, CallingBack(seen, charge.result));
    } else {
      MovingKeepsInv(w, h, Finished);
    }
  }

  lemma AnnounceStepKeepsInv(config: Config, w: World, step: Step)
    requires Inv(w) && Enabled(w, step) && step.Announce?
    ensures Inv(Apply(config, w, step))
  {
    var seen := w.handlers[step.h].seen;
    SeenDocument(w, step.h);
    var p := w.payments[seen.id];
    var e := StatusEntry(seen, Processing, seen.deliveryStatus, step.messageId);
    var w' := Stored(w, step.h, Charging(seen), p, [e], step.now);
    AnnounceSuits(w, step.h, e);
    StoredReplaces(w, step.h, Charging(seen), p, [e], step.now);
    ChargingFits(w, w', step.h, e);
    StoringKeepsInv(w, w', step.h, Charging(seen), p, [e]);
  }

  /** A guarded transition that is allowed only when what it stores suits keeps the ledger. */
  lemma TransitionKeepsInv(w: World, h: nat, allowed: bool, p: Payment, entries: seq<Entry>, now: int)
    requires Inv(w) && (p.id in w.payments && allowed ==> Suits(w, h, p, entries))
    ensures Inv(Transitioned(w, h, allowed, p, entries, now))
  {
    if p.id in w.payments && allowed {
      FinishingKeepsInv(w, Stored(w, h, Finished, p, entries, now), h, p, entries, now);
    } else {
      MovingKeepsInv(w, h, Finished);
    }
  }

  lemma FailStepKeepsInv(config: Config, w: World, step: Step)
    requires Inv(w) && Enabled(w, step) && (step.Fail? || step.CallBack?)
    ensures Inv(Apply(config, w, step))
  {
    var h := step.h;
    var seen := w.handlers[h].seen;
    SeenDocument(w, h);
    var p := w.payments[seen.id];
    match step
    case Fail(_, messageId, now) =>
      var e := StatusEntry(seen, Failed, seen.deliveryStatus, messageId);
      if CanFail(p) {
        FailSuits(w, h, e);
      }
      TransitionKeepsInv(w, h, CanFail(p), MarkedFailed(p, w.handlers[h].reason), [e], now);
    case CallBack(_, messageId, now) =>
      var callback := SimulatedCallback(seen, w.handlers[h].result);
      var e := NewEntry(seen, CallbackKind, messageId, CallbackConfirmed(callback));
      CallBackSuits(w, h, e);
      TransitionKeepsInv(w, h, true, p, [e], now);
  }

  lemma SettleStepKeepsInv(config: Config, w: World, step: Step)
    requires Inv(w) && Enabled(w, step) && (step.Expire? || step.Complete?)
    ensures Inv(Apply(config, w, step))
  {
    var h := step.h;
    var seen := w.handlers[h].seen;
    SeenDocument(w, h);
    var p := w.payments[seen.id];
    match step
    case Expire(_, messageId, now) =>
      var e := StatusEntry(seen, Expired, seen.deliveryStatus, messageId);
      if CanSettle(p) {
        ExpireSuits(w, h, e);
      }
      TransitionKeepsInv(w, h, CanSettle(p), MarkedExpired(p), [e], now);
    case Complete(_, statusId, deliveryId, now) =>
      var callback := w.handlers[h].callback;
      if callback.occurredAt.Some? {
        var time := callback.occurredAt.value;
        var a := StatusEntry(seen.(confirmedAt := Some(time)), Completed, seen.deliveryStatus, statusId);
        var b := NewEntry(seen, Delivery, deliveryId, DeliveryRequested(seen.id, seen.userId));
        if CanSettle(p) {
          CompleteSuits(w, h, a, b);
        }
        TransitionKeepsInv(w, h, CanSettle(p), MarkedCompleted(p, callback.eventId, time), [a, b], now);
      } else {
        MovingKeepsInv(w, h, Finished);
      }
  }

  lemma CompletingFits(w: World, h: nat, id: string, callback: Callback)
    requires Inv(w) && id in w.payments && callback in w.callbacks
    requires Matches(w.payments[id], callback)
    ensures IsFit(Completing(w.payments[id], callback), w, w.log)
  {
    Inside(w);
    assert PaymentOk(w.payments[id], id, w.log, w.callbacks);
  }

  lemma BeginCallbackKeepsInv(config: Config, w: World, step: Step)
    requires Inv(w) && Enabled(w, step) && step.BeginCallback?
    ensures Inv(Apply(config, w, step))
  {
    var w' := w.(callbacks := w.callbacks + {step.callback});
    SameDocumentsKeepInv(w, w');
    MovingKeepsInv(w', step.h, Stage.LookingUpReference(step.callback));
  }

  /** Where a callback leads: to the document it names when it is late, or when it matches and is in time. */
  ghost predicate LeadsTo(w: World, callback: Callback, found: Option<string>, next: Stage) {
    || next == Finished
    || (found.Some? && found.value in w.payments && next == Expiring(w.payments[found.value]))
    || (found.Some? && found.value in w.payments && Matches(w.payments[found.value], callback)
        && next == Completing(w.payments[found.value], callback))
  }

  lemma CallbackMoves(config: Config, w: World, h: nat, callback: Callback, found: Option<string>, now: int)
    returns (next: Stage)
    requires FoundByReference(w.payments, callback.paymentReference, found)
    ensures CallbackLookedUp(config, w, h, callback, found, now) == Moved(w, h, next)
    ensures LeadsTo(w, callback, found, next)
  {
    next := if CallbackLookedUp(config, w, h, callback, found, now) == Moved(w, h, Finished) then Finished
            else if w.payments[found.value].expiresAt < callback.occurredAt.value then Expiring(w.payments[found.value])
            else Completing(w.payments[found.value], callback);
  }

  lemma CallbackMovesFit(w: World, h: nat, found: Option<string>, next: Stage)
    requires Inv(w) && h in w.handlers && w.handlers[h].LookingUpReference?
    requires LeadsTo(w, w.handlers[h].callback, found, next)
    ensures IsFit(next, w, w.log) && !InCharge(next)
  {
    Inside(w);
    assert StageOk(w.handlers[h], w, w.log);
    if next.Expiring? {
      ExpiringFits(w, found.value);
    } else if next.Completing? {
      CompletingFits(w, h, found.value, w.handlers[h].callback);
    }
  }

  lemma LookUpReferenceKeepsInv(config: Config, w: World, step: Step)
    requires Inv(w) && Enabled(w, step) && step.LookUpReference?
    ensures Inv(Apply(config, w, step))
  {
    var callback := w.handlers[step.h].callback;
    var next := CallbackMoves(config, w, step.h, callback, step.found, step.now);
    CallbackMovesFit(w, step.h, step.found, next);
    MovingKeepsInv(w, step.h, next);
  }

  lemma DeliveringFits(w: World, id: string)
    requires Inv(w) && id in w.payments && w.payments[id].paymentStatus == Completed
    ensures IsFit(Delivering(w.payments[id]), w, w.log)
  {
    Inside(w);
    assert PaymentOk(w.payments[id], id, w.log, w.callbacks);
  }

  lemma LookUpPaymentKeepsInv(config: Config, w: World, step: Step)
    requires Inv(w) && Enabled(w, step) && step.LookUpPayment?
    ensures Inv(Apply(config, w, step))
  {
    var id := w.handlers[step.h].paymentId;
    if Apply(config, w, step) == Moved(w, step.h, Finished) {
      MovingKeepsInv(w, step.h, Finished);
    } else {
      DeliveringFits(w, id);
      MovingKeepsInv(w, step.h, Delivering(w.payments[id]));
    }
  }

  lemma DeliverStepKeepsInv(config: Config, w: World, step: Step)
    requires Inv(w) && Enabled(w, step) && step.Deliver?
    ensures Inv(Apply(config, w, step))
  {
    var h := step.h;
    var seen := w.handlers[h].seen;
    SeenDocument(w, h);
    var p := w.payments[seen.id];
    var a := StatusEntry(seen, Completed, Delivered, step.statusId);
    var b := NewEntry(seen, Confirmation, step.confirmedId, PaymentConfirmed(seen.id, seen.userId, seen.confirmedAt));
    if CanDeliver(p) {
      DeliverSuits(w, h, a, b);
    }
    TransitionKeepsInv(w, h, CanDeliver(p), MarkedDelivery(p, Delivered, ""), [a, b], step.now);
  }

  lemma BreakKeepsInv(config: Config, w: World, step: Step)
    requires Inv(w) && Enabled(w, step) && step.Breaks?
    ensures Inv(Apply(config, w, step))
  {
    var stage := w.handlers[step.h];
    if stage.LookingUpKey? {
      ReplyingKeepsInv(w, step.h, stage.request, Refused(Problem(500, PaymentStateNotLoaded)));
    } else if stage.Inserting? {
      ReplyingKeepsInv(w, step.h, stage.request,
                       Refused(if step.atGateway then Problem(502, PaymentIntentNotCreated)
                               else Problem(500, PaymentNotSaved)));
    } else {
      MovingKeepsInv(w, step.h, Finished);
    }
  }

  lemma ClaimsLeaveDocuments(w: World, step: Step)
    requires Enabled(w, step) && step.Claim?
    ensures SameDocuments(w, Claimed(w, step.k, step.paymentId, step.index, step.token, step.until))
  {
  }

  lemma RewritingAnOutboxLeavesDocuments(w: World, w': World, id: string, messages: seq<PendingMessage>)
    requires w'.payments == WithPending(w, id, messages).payments
    requires w'.log == w.log && w'.handlers == w.handlers && w'.callbacks == w.callbacks
    ensures SameDocuments(w, w')
  {
  }

  lemma OutboxStepsLeaveDocuments(config: Config, w: World, step: Step)
    requires Enabled(w, step) && OfOutbox(step)
    ensures SameDocuments(w, Apply(config, w, step))
  {
    if step.Claim? {
      ClaimsLeaveDocuments(w, step);
    } else if step.Acknowledge? || step.RetryLater? {
      var held := w.holdings[step.k];
      var messages := PendingOf(w, held.paymentId);
      RewritingAnOutboxLeavesDocuments(
        w, Apply(config, w, step), held.paymentId,
        if step.Acknowledge? then Acknowledged(messages, held.message.id, held.message.claimToken)
        else Retried(messages, held.message.id, held.message.claimToken, step.nextAttemptAt, held.message.attempts + 1));
    }
  }

  /** Every step of every handler, publisher and consumer keeps the ledger. */
  lemma StepKeepsInv(config: Config, w: World, step: Step)
    requires Inv(w) && Enabled(w, step)
    ensures Inv(Apply(config, w, step))
  {
    if OfOutbox(step) {
      OutboxStepsLeaveDocuments(config, w, step);
      SameDocumentsKeepInv(w, Apply(config, w, step));
    } else if step.BeginCreate? || step.LookUpKey? || step.Insert? {
      CreateStepKeepsInv(config, w, step);
    } else if step.BeginProcess? || step.BeginDelivery? {
      BeginningKeepsInv(config, w, step);
    } else if step.Reserve? {
      ReserveStepKeepsInv(config, w, step);
    } else if step.LookAgain? {
      LookAgainStepKeepsInv(config, w, step);
    } else if step.DoCharge? {
      ChargeStepKeepsInv(config, w, step.h, step.charge);
    } else if step.Announce? {
      AnnounceStepKeepsInv(config, w, step);
    } else if step.Fail? || step.CallBack? {
      FailStepKeepsInv(config, w, step);
    } else if step.Expire? || step.Complete? {
      SettleStepKeepsInv(config, w, step);
    } else if step.BeginCallback? {
      BeginCallbackKeepsInv(config, w, step);
    } else if step.LookUpReference? {
      LookUpReferenceKeepsInv(config, w, step);
    } else if step.LookUpPayment? {
      LookUpPaymentKeepsInv(config, w, step);
    } else if step.Deliver? {
      DeliverStepKeepsInv(config, w, step);
    } else {
      BreakKeepsInv(config, w, step);
    }
  }
}
