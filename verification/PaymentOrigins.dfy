/**
 Where payments and replies come from: each document and each refusal goes back to a request.
 */
module PaymentOrigins {
  import opened Wrappers
  import opened Contracts
  import opened PaymentStore
  import opened Text
  import opened PaymentRun
  import Ledger = PaymentLedger
  import opened PaymentTheorems

  /** The document that a request with a supported currency makes. */
  predicate MadeBy(config: Config, p: Payment, request: PaymentCreate) {
    && p.idempotencyKey == request.idempotencyKey && p.requestHash == request.requestHash
    && p.userId == request.userId && ToUpper(request.currency) in config.allowedCurrencies
  }

  ghost predicate MadeBySome(config: Config, p: Payment, sent: set<PaymentCreate>) {
    exists request :: request in sent && MadeBy(config, p, request)
  }

  /** What is stored, when the reply is given and for ever after. */
  ghost predicate ReplyOk(config: Config, payments: Payments, reply: RpcReply) {
    match reply.outcome
    case Data(intent) => Names(payments, reply.request.idempotencyKey, intent.id, intent.paymentReference)
    case Refused(problem) =>
      && (problem.status == 400 ==> ToUpper(reply.request.currency) !in config.allowedCurrencies)
      && (problem.status == 409 ==>
            exists id :: id in payments && payments[id].idempotencyKey == reply.request.idempotencyKey
              && payments[id].requestHash != reply.request.requestHash)
    case Unavailable => true
  }

  /** The payment stored under the key has the id and the reference. */
  predicate Names(payments: Payments, key: string, id: string, reference: string) {
    id in payments && payments[id].idempotencyKey == key && payments[id].paymentReference == reference
  }

  ghost predicate HandlerOk(config: Config, stage: Stage, sent: set<PaymentCreate>) {
    && (stage.LookingUpKey? ==> stage.request in sent)
    && (stage.Inserting? ==> stage.request in sent && MadeBy(config, stage.payment, stage.request))
  }

  ghost predicate Consistent(config: Config, w: World, sent: set<PaymentCreate>) {
    && (forall id :: id in w.payments ==> MadeBySome(config, w.payments[id], sent))
    && (forall h :: h in w.handlers ==> HandlerOk(config, w.handlers[h], sent))
    && (forall reply :: reply in w.replies ==> ReplyOk(config, w.payments, reply))
  }

  ghost predicate OriginsOk(config: Config, w: World, sent: set<PaymentCreate>) {
    forall v :: v == w ==> Consistent(config, v, sent)
  }

  lemma InsideOrigins(config: Config, w: World, sent: set<PaymentCreate>)
    requires OriginsOk(config, w, sent)
    ensures forall id :: id in w.payments ==> MadeBySome(config, w.payments[id], sent)
    ensures forall h :: h in w.handlers ==> HandlerOk(config, w.handlers[h], sent)
    ensures forall reply :: reply in w.replies ==> ReplyOk(config, w.payments, reply)
  {
    assert Consistent(config, w, sent);
  }

  lemma RepliesStayOk(config: Config, payments: Payments, payments': Payments, reply: RpcReply)
    requires ReplyOk(config, payments, reply) && Grows(payments, payments')
    ensures ReplyOk(config, payments', reply)
  {
  }

  lemma DocumentsStayMade(config: Config, p: Payment, p': Payment, sent: set<PaymentCreate>, sent': set<PaymentCreate>)
    requires MadeBySome(config, p, sent) && Ledger.Evolves(p, p') && sent <= sent'
    ensures MadeBySome(config, p', sent')
  {
  }

  // --- What a step adds ------------------------------------------------------------------

  lemma OnlyInsertAdds(config: Config, w: World, step: Step)
    requires OwnIds(w.payments) && Enabled(w, step) && !step.Insert?
    ensures Apply(config, w, step).payments.Keys == w.payments.Keys
  {
    if OfOutbox(step) {
      Ledger.OutboxStepsLeaveDocuments(config, w, step);
    } else if OnlyLooks(step) {
      LookingStoresNothing(config, w, step);
    } else if Begins(step) {
      BeginningStoresNothing(config, w, step);
    }
  }

  predicate OfCreate(step: Step) {
    step.BeginCreate? || step.LookUpKey? || step.Insert? || step.Breaks?
  }

  predicate Creating(stage: Stage) {
    stage.LookingUpKey? || stage.Inserting?
  }

  /** Only the steps of CreatePayment reply, and only they move a handler into CreatePayment. */
  ghost predicate LeavesCreateAlone(w: World, w': World) {
    && w'.replies == w.replies
    && forall h :: h in w'.handlers && Creating(w'.handlers[h]) ==> h in w.handlers && w'.handlers[h] == w.handlers[h]
  }

  lemma OthersLeaveCreateAlone(config: Config, w: World, step: Step)
    requires Enabled(w, step) && !OfCreate(step)
    ensures LeavesCreateAlone(w, Apply(config, w, step))
  {
    if OfOutbox(step) {
      Ledger.OutboxStepsLeaveDocuments(config, w, step);
      OutboxRepliesNothing(config, w, step);
    } else if Begins(step) {
      BeginningsLeaveCreateAlone(config, w, step);
    } else if OnlyLooks(step) {
      LooksLeaveCreateAlone(config, w, step);
    } else if step.Expire? || step.Complete? || step.Deliver? {
      SettlingLeavesCreateAlone(config, w, step);
    } else {
      ProcessingLeavesCreateAlone(config, w, step);
    }
  }

  lemma OutboxRepliesNothing(config: Config, w: World, step: Step)
    requires Enabled(w, step) && OfOutbox(step)
    ensures Apply(config, w, step).replies == w.replies
  {
  }

  lemma BeginningsLeaveCreateAlone(config: Config, w: World, step: Step)
    requires Enabled(w, step) && !OfCreate(step) && Begins(step)
    ensures LeavesCreateAlone(w, Apply(config, w, step))
  {
  }

  lemma LooksLeaveCreateAlone(config: Config, w: World, step: Step)
    requires Enabled(w, step) && !OfCreate(step) && OnlyLooks(step)
    ensures LeavesCreateAlone(w, Apply(config, w, step))
  {
  }

  lemma ProcessingLeavesCreateAlone(config: Config, w: World, step: Step)
    requires Enabled(w, step) && (step.Reserve? || step.Announce? || step.Fail? || step.CallBack?)
    ensures LeavesCreateAlone(w, Apply(config, w, step))
  {
  }

  lemma SettlingLeavesCreateAlone(config: Config, w: World, step: Step)
    requires Enabled(w, step) && (step.Expire? || step.Complete? || step.Deliver?)
    ensures LeavesCreateAlone(w, Apply(config, w, step))
  {
  }

  // --- Every step keeps the origins ------------------------------------------------------

  lemma OthersKeepOrigins(config: Config, w: World, w': World, sent: set<PaymentCreate>)
    requires OriginsOk(config, w, sent) && Grows(w.payments, w'.payments)
    requires w'.payments.Keys == w.payments.Keys && LeavesCreateAlone(w, w')
    ensures OriginsOk(config, w', sent)
  {
    InsideOrigins(config, w, sent);
    forall id | id in w'.payments
      ensures MadeBySome(config, w'.payments[id], sent)
    {
      DocumentsStayMade(config, w.payments[id], w'.payments[id], sent, sent);
    }
    forall h | h in w'.handlers
      ensures HandlerOk(config, w'.handlers[h], sent)
    {
      if Creating(w'.handlers[h]) {
        assert HandlerOk(config, w.handlers[h], sent);
      }
    }
    forall reply | reply in w'.replies
      ensures ReplyOk(config, w'.payments, reply)
    {
      RepliesStayOk(config, w.payments, w'.payments, reply);
    }
  }

  /** A handler that moves on, or replies, without storing anything. */
  lemma MovingKeepsOrigins(config: Config, w: World, w': World, h: nat, next: Stage, replies: set<RpcReply>,
                           sent: set<PaymentCreate>)
    requires OriginsOk(config, w, sent) && HandlerOk(config, next, sent)
    requires forall reply :: reply in replies ==> ReplyOk(config, w.payments, reply)
    requires w' == w.(handlers := w.handlers[h := next], replies := w.replies + replies)
    ensures OriginsOk(config, w', sent)
  {
    InsideOrigins(config, w, sent);
  }

  lemma ReplyingKeepsOrigins(config: Config, w: World, h: nat, request: PaymentCreate,
                             outcome: RpcOutcome<PaymentIntent>, sent: set<PaymentCreate>)
    requires OriginsOk(config, w, sent) && ReplyOk(config, w.payments, RpcReply(request, outcome))
    ensures OriginsOk(config, Replied(w, h, request, outcome), sent)
  {
    MovingKeepsOrigins(config, w, Replied(w, h, request, outcome), h, Finished, {RpcReply(request, outcome)}, sent);
  }

  lemma LookUpKeyKeepsOrigins(config: Config, w: World, step: Step, sent: set<PaymentCreate>)
    requires OwnIds(w.payments) && OriginsOk(config, w, sent) && Enabled(w, step) && step.LookUpKey?
    ensures OriginsOk(config, Apply(config, w, step), sent)
  {
    var h := step.h;
    var request := w.handlers[h].request;
    InsideOrigins(config, w, sent);
    assert HandlerOk(config, w.handlers[h], sent);
    if step.found.Some? {
      var existing := w.payments[step.found.value];
      if existing.requestHash != request.requestHash {
        ReplyingKeepsOrigins(config, w, h, request, Refused(Problem(409, IdempotencyKeyReused)), sent);
      } else {
        ReplyingKeepsOrigins(config, w, h, request, Data(ToIntent(existing, "", true)), sent);
      }
    } else if ToUpper(request.currency) !in config.allowedCurrencies {
      ReplyingKeepsOrigins(config, w, h, request, Refused(Problem(400, UnsupportedCurrency)), sent);
    } else {
      var next := Inserting(request, NewPayment(config, request, step.id, step.reference, step.now), step.qrCode);
      MovingKeepsOrigins(config, w, Moved(w, h, next), h, next, {}, sent);
    }
  }

  lemma InsertKeepsOrigins(config: Config, w: World, step: Step, sent: set<PaymentCreate>)
    requires OwnIds(w.payments) && OriginsOk(config, w, sent) && Enabled(w, step) && step.Insert?
    ensures OriginsOk(config, Apply(config, w, step), sent)
  {
    var h := step.h;
    var request := w.handlers[h].request;
    var p := w.handlers[h].payment;
    InsideOrigins(config, w, sent);
    assert HandlerOk(config, w.handlers[h], sent);
    if IsUnique(w.payments, p) {
      var w' := Stored(w, h, Finished, p, [NewEntry(p, Request, step.messageId, ProcessRequested(p.id, p.paymentReference))],
                       step.now);
      StoringKeepsOrigins(config, w, w', h, p, sent);
      ReplyingKeepsOrigins(config, w', h, request, Data(ToIntent(p, w.handlers[h].qrCode, false)), sent);
    } else {
      ReplyingKeepsOrigins(config, w, h, request, Refused(Problem(500, PaymentNotSaved)), sent);
    }
  }

  lemma StoringKeepsOrigins(config: Config, w: World, w': World, h: nat, p: Payment, sent: set<PaymentCreate>)
    requires OriginsOk(config, w, sent) && h in w.handlers && w.handlers[h].Inserting? && w.handlers[h].payment == p
    requires p.id !in w.payments && p.id in w'.payments
    requires w'.payments == w.payments[p.id := p.(pendingMessages := w'.payments[p.id].pendingMessages)]
    requires w'.handlers == w.handlers[h := Finished] && w'.replies == w.replies
    ensures OriginsOk(config, w', sent)
  {
    InsideOrigins(config, w, sent);
    assert HandlerOk(config, w.handlers[h], sent);
    assert MadeBy(config, w'.payments[p.id], w.handlers[h].request);
    forall reply | reply in w'.replies
      ensures ReplyOk(config, w'.payments, reply)
    {
      RepliesStayOk(config, w.payments, w'.payments, reply);
    }
  }

  lemma BreakKeepsOrigins(config: Config, w: World, step: Step, sent: set<PaymentCreate>)
    requires OriginsOk(config, w, sent) && Enabled(w, step) && step.Breaks?
    ensures OriginsOk(config, Apply(config, w, step), sent)
  {
    var stage := w.handlers[step.h];
    if stage.LookingUpKey? {
      ReplyingKeepsOrigins(config, w, step.h, stage.request, Refused(Problem(500, PaymentStateNotLoaded)), sent);
    } else if stage.Inserting? {
      ReplyingKeepsOrigins(config, w, step.h, stage.request,
                           Refused(if step.atGateway then Problem(502, PaymentIntentNotCreated)
                                   else Problem(500, PaymentNotSaved)), sent);
    } else {
      MovingKeepsOrigins(config, w, Moved(w, step.h, Finished), step.h, Finished, {}, sent);
    }
  }

  /** Payments are made only by requests that were sent, and each refusal has its reason in the store. */
  lemma StepKeepsOrigins(config: Config, w: World, step: Step, sent: set<PaymentCreate>)
    requires OwnIds(w.payments) && OriginsOk(config, w, sent) && Enabled(w, step)
    requires step.BeginCreate? ==> step.request in sent
    ensures OriginsOk(config, Apply(config, w, step), sent)
  {
    if step.LookUpKey? {
      LookUpKeyKeepsOrigins(config, w, step, sent);
    } else if step.Insert? {
      InsertKeepsOrigins(config, w, step, sent);
    } else if step.Breaks? {
      BreakKeepsOrigins(config, w, step, sent);
    } else if step.BeginCreate? {
      var next := Stage.LookingUpKey(step.request);
      MovingKeepsOrigins(config, w, Moved(w, step.h, next), step.h, next, {}, sent);
    } else {
      StepsGrow(config, w, step);
      OnlyInsertAdds(config, w, step);
      OthersLeaveCreateAlone(config, w, step);
      OthersKeepOrigins(config, w, Apply(config, w, step), sent);
    }
  }

  lemma MoreRequestsKeepOrigins(config: Config, w: World, sent: set<PaymentCreate>, sent': set<PaymentCreate>)
    requires OriginsOk(config, w, sent) && sent <= sent'
    ensures OriginsOk(config, w, sent')
  {
    InsideOrigins(config, w, sent);
    forall id | id in w.payments
      ensures MadeBySome(config, w.payments[id], sent')
    {
      DocumentsStayMade(config, w.payments[id], w.payments[id], sent, sent');
    }
    forall h | h in w.handlers
      ensures HandlerOk(config, w.handlers[h], sent')
    {
      assert HandlerOk(config, w.handlers[h], sent);
    }
  }
}
