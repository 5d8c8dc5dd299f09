/**
 Onboarding and payment together: all workers on all keys, all handlers of the payment service,
 and a network between them that may duplicate, delay, reorder and drop requests and replies.
 */
module Composition {
  import opened Wrappers
  import opened Contracts
  import Row = SagaRow
  import opened SagaWorker
  import Saga = SagaRun
  import SagaTheorems
  import PaymentStore
  import Pay = PaymentRun
  import Ledger = PaymentLedger
  import PaymentTheorems
  import opened PaymentOrigins

  /** sent holds every payment request that any worker ever sent. */
  datatype System = System(sagas: map<string, Saga.KeyState>, payments: Pay.World, sent: set<PaymentCreate>)

  const EMPTY := System(map[], Pay.EMPTY, {})

  datatype Step =
    | OfSaga(key: string, sagaStep: Saga.KeyStep)
    | OfPayment(paymentStep: Pay.Step)

  function SagaOf(s: System, key: string): Saga.KeyState {
    if key in s.sagas then s.sagas[key] else Saga.UNTOUCHED
  }

  /** The request of the session that awaits a reply from the payment service. */
  function AwaitedRequest(session: Session): PaymentCreate
    requires session.current.user.Some?
  {
    PaymentRequest(session.command, session.current.user.value.id)
  }

  /** A reply that a worker takes is one that the payment service once gave to its request. */
  ghost predicate Delivered(s: System, session: Session, event: Event) {
    event.PaymentReply? && !event.intent.Unavailable? ==>
      session.current.user.Some? && Pay.RpcReply(AwaitedRequest(session), event.intent) in s.payments.replies
  }

  ghost predicate Enabled(s: System, step: Step) {
    match step
    case OfSaga(key, sagaStep) =>
      && Saga.Enabled(key, SagaOf(s, key), sagaStep)
      && (sagaStep.Progress? ==> Delivered(s, SagaOf(s, key).sessions[sagaStep.worker], sagaStep.event))
    case OfPayment(paymentStep) =>
      && Pay.Enabled(s.payments, paymentStep)
      && (paymentStep.BeginCreate? ==> paymentStep.request in s.sent)
  }

  ghost function Apply(config: Pay.Config, s: System, step: Step): System
    requires Enabled(s, step)
  {
    match step
    case OfSaga(key, sagaStep) =>
      var saga := Saga.Apply(key, SagaOf(s, key), sagaStep);
      s.(sagas := s.sagas[key := saga], sent := s.sent + saga.paymentRequests)
    case OfPayment(paymentStep) => s.(payments := Pay.Apply(config, s.payments, paymentStep))
  }

  ghost predicate Next(config: Pay.Config, s: System, s': System) {
    exists step :: Enabled(s, step) && s' == Apply(config, s, step)
  }

  ghost predicate Follows(config: Pay.Config, s: System, s': System) {
    forall t, t' :: t == s && t' == s' ==> Next(config, t, t')
  }

  ghost predicate IsRun(config: Pay.Config, run: seq<System>) {
    && |run| > 0 && run[0] == EMPTY
    && forall i, j :: 0 <= i < j < |run| && j == i + 1 ==> Follows(config, run[i], run[j])
  }

  // --- The invariant ---------------------------------------------------------------------

  /** Each refusal that a key has seen was given to the request of its row. */
  ghost predicate RefusalsOk(key: string, saga: Saga.KeyState, payments: Pay.World) {
    forall refusal :: refusal in saga.refusals ==>
      && saga.row.Some? && saga.row.value.user.Some?
      && Pay.RpcReply(Saga.RowPaymentRequest(key, saga.row.value), Refused(refusal)) in payments.replies
  }

  /** A payment snapshot names the payment stored under the step's key. */
  ghost predicate SnapshotOk(key: string, payment: PublicPayment, payments: Pay.World) {
    Names(payments.payments, PaymentStepKey(key), payment.id, payment.paymentReference)
  }

  ghost predicate SnapshotsOk(key: string, saga: Saga.KeyState, payments: Pay.World) {
    && (saga.row.Some? && saga.row.value.payment.Some? ==> SnapshotOk(key, saga.row.value.payment.value, payments))
    && forall worker :: worker in saga.sessions && saga.sessions[worker].stage.SavingPayment? ==>
         SnapshotOk(key, saga.sessions[worker].stage.payment, payments)
  }

  ghost predicate KeyOk(key: string, saga: Saga.KeyState, payments: Pay.World) {
    Saga.Inv(key, saga) && RefusalsOk(key, saga, payments) && SnapshotsOk(key, saga, payments)
  }

  /** Every request that was sent belongs to the row of its key. */
  ghost predicate SentOk(s: System) {
    forall request :: request in s.sent ==>
      exists key :: key in s.sagas && request in s.sagas[key].paymentRequests
  }

  ghost predicate Consistent(config: Pay.Config, s: System) {
    && Ledger.Inv(s.payments) && OriginsOk(config, s.payments, s.sent) && SentOk(s)
    && forall key :: key in s.sagas ==> KeyOk(key, s.sagas[key], s.payments)
  }

  ghost predicate Inv(config: Pay.Config, s: System) {
    forall t :: t == s ==> Consistent(config, t)
  }

  lemma InsideSystem(config: Pay.Config, s: System)
    requires Inv(config, s)
    ensures Ledger.Inv(s.payments) && OriginsOk(config, s.payments, s.sent) && SentOk(s)
    ensures forall key :: key in s.sagas ==> KeyOk(key, s.sagas[key], s.payments)
  {
    assert Consistent(config, s);
  }

  lemma InvHoldsAtFirst(config: Pay.Config)
    ensures Inv(config, EMPTY)
  {
    Ledger.InvHoldsAtFirst();
    assert PaymentOrigins.Consistent(config, Pay.EMPTY, {});
    assert Consistent(config, EMPTY);
  }

  // --- Steps of the payment service ------------------------------------------------------

  lemma PaymentStepKeepsKey(key: string, saga: Saga.KeyState, payments: Pay.World, payments': Pay.World)
    requires KeyOk(key, saga, payments)
    requires payments.replies <= payments'.replies && PaymentTheorems.Grows(payments.payments, payments'.payments)
    ensures KeyOk(key, saga, payments')
  {
  }

  lemma RepliesOnlyGrow(config: Pay.Config, w: Pay.World, step: Pay.Step)
    requires Pay.Enabled(w, step)
    ensures w.replies <= Pay.Apply(config, w, step).replies
  {
    if !OfCreate(step) {
      OthersLeaveCreateAlone(config, w, step);
    }
  }

  lemma PaymentStepKeepsInv(config: Pay.Config, s: System, step: Step)
    requires Inv(config, s) && Enabled(s, step) && step.OfPayment?
    ensures Inv(config, Apply(config, s, step))
  {
    InsideSystem(config, s);
    var w := s.payments;
    var w' := Pay.Apply(config, w, step.paymentStep);
    assert PaymentTheorems.OwnIds(w.payments) by {
      Ledger.Inside(w);
    }
    Ledger.StepKeepsInv(config, w, step.paymentStep);
    StepKeepsOrigins(config, w, step.paymentStep, s.sent);
    PaymentTheorems.StepsGrow(config, w, step.paymentStep);
    RepliesOnlyGrow(config, w, step.paymentStep);
    forall key | key in s.sagas
      ensures KeyOk(key, s.sagas[key], w')
    {
      PaymentStepKeepsKey(key, s.sagas[key], w, w');
    }
  }

  // --- Steps of the workers --------------------------------------------------------------

  /** A session that is about to save a payment has just been told of it, and a row's payment was saved. */
  lemma PaymentsAreTold(key: string, s: Saga.KeyState, step: Saga.KeyStep)
    requires Saga.Enabled(key, s, step)
    ensures var s' := Saga.Apply(key, s, step);
            && (forall worker :: worker in s'.sessions && s'.sessions[worker].stage.SavingPayment? ==>
                  || (worker in s.sessions && s'.sessions[worker].stage == s.sessions[worker].stage)
                  || (&& step.Progress? && step.worker == worker && step.event.PaymentReply? && step.event.intent.Data?
                      && s'.sessions[worker].stage.payment == ToPublicPayment(step.event.intent.data)))
            && (s'.row.Some? && s'.row.value.payment.Some? ==>
                  || (s.row.Some? && s'.row.value.payment == s.row.value.payment)
                  || (&& step.Save? && step.worker in s.sessions && s.sessions[step.worker].stage.SavingPayment?
                      && s'.row.value.payment.value == s.sessions[step.worker].stage.payment))
  {
  }

  lemma RefusalsAreTold(key: string, s: Saga.KeyState, step: Saga.KeyStep)
    requires Saga.Enabled(key, s, step)
    ensures forall refusal :: refusal in Saga.Apply(key, s, step).refusals ==>
              || refusal in s.refusals
              || (step.Progress? && step.event == PaymentReply(Refused(refusal)))
  {
  }

  /** The request of a session that awaits a reply is that of the row. */
  lemma AwaitedRequestIsTheRows(key: string, s: Saga.KeyState, worker: Row.WorkerId)
    requires Saga.Inv(key, s) && worker in s.sessions && s.sessions[worker].current.user.Some?
    ensures s.row.Some? && s.row.value.user.Some?
    ensures AwaitedRequest(s.sessions[worker]) == Saga.RowPaymentRequest(key, s.row.value)
  {
    Saga.Inside(key, s);
    Saga.TheRowIsOk(key, s);
    var session := s.sessions[worker];
    assert Saga.SessionOk(key, worker, session, s.row.value, s.refusals);
    Saga.SentMessagesAreTheRows(key, worker, session, s.row.value, s.refusals);
  }

  lemma RequestIsKept(key: string, row: Row.Row, row': Row.Row)
    requires Saga.Evolves(row, row') && row.user.Some?
    ensures row'.user.Some? && Saga.RowPaymentRequest(key, row') == Saga.RowPaymentRequest(key, row)
  {
  }

  lemma SagaGrows(key: string, s: Saga.KeyState, step: Saga.KeyStep)
    requires Saga.Inv(key, s) && Saga.Enabled(key, s, step)
    ensures SagaTheorems.Grows(s, Saga.Apply(key, s, step))
  {
    if s.row.Some? {
      SagaTheorems.StepEvolvesRow(key, s, step);
    }
  }

  lemma SagaStepKeepsRefusals(s: System, step: Step)
    requires Enabled(s, step) && step.OfSaga?
    requires Saga.Inv(step.key, SagaOf(s, step.key)) && RefusalsOk(step.key, SagaOf(s, step.key), s.payments)
    ensures RefusalsOk(step.key, Saga.Apply(step.key, SagaOf(s, step.key), step.sagaStep), s.payments)
  {
    var key := step.key;
    var saga := SagaOf(s, key);
    var saga' := Saga.Apply(key, saga, step.sagaStep);
    SagaGrows(key, saga, step.sagaStep);
    RefusalsAreTold(key, saga, step.sagaStep);
    forall refusal | refusal in saga'.refusals
      ensures saga'.row.Some? && saga'.row.value.user.Some?
              && Pay.RpcReply(Saga.RowPaymentRequest(key, saga'.row.value), Refused(refusal)) in s.payments.replies
    {
      if refusal !in saga.refusals {
        AwaitedRequestIsTheRows(key, saga, step.sagaStep.worker);
      }
      RequestIsKept(key, saga.row.value, saga'.row.value);
    }
  }

  lemma SagaStepKeepsSnapshots(config: Pay.Config, s: System, step: Step)
    requires Enabled(s, step) && step.OfSaga? && OriginsOk(config, s.payments, s.sent)
    requires Saga.Inv(step.key, SagaOf(s, step.key)) && SnapshotsOk(step.key, SagaOf(s, step.key), s.payments)
    ensures SnapshotsOk(step.key, Saga.Apply(step.key, SagaOf(s, step.key), step.sagaStep), s.payments)
  {
    var key := step.key;
    var saga := SagaOf(s, key);
    var saga' := Saga.Apply(key, saga, step.sagaStep);
    PaymentsAreTold(key, saga, step.sagaStep);
    forall worker | worker in saga'.sessions && saga'.sessions[worker].stage.SavingPayment?
      ensures SnapshotOk(key, saga'.sessions[worker].stage.payment, s.payments)
    {
      if worker !in saga.sessions || saga'.sessions[worker].stage != saga.sessions[worker].stage {
        ToldPaymentIsStored(config, s, key, worker, step.sagaStep.event);
      }
    }
  }

  lemma ToldPaymentIsStored(config: Pay.Config, s: System, key: string, worker: Row.WorkerId, event: Event)
    requires OriginsOk(config, s.payments, s.sent) && Saga.Inv(key, SagaOf(s, key)) && worker in SagaOf(s, key).sessions
    requires event.PaymentReply? && event.intent.Data? && Delivered(s, SagaOf(s, key).sessions[worker], event)
    ensures SnapshotOk(key, ToPublicPayment(event.intent.data), s.payments)
  {
    AwaitedRequestIsTheRows(key, SagaOf(s, key), worker);
    InsideOrigins(config, s.payments, s.sent);
    var request := AwaitedRequest(SagaOf(s, key).sessions[worker]);
    assert ReplyOk(config, s.payments.payments, Pay.RpcReply(request, event.intent));
  }

  lemma SagaStepKeepsInv(config: Pay.Config, s: System, step: Step)
    requires Inv(config, s) && Enabled(s, step) && step.OfSaga?
    ensures Inv(config, Apply(config, s, step))
  {
    InsideSystem(config, s);
    var key := step.key;
    var saga := SagaOf(s, key);
    var s' := Apply(config, s, step);
    Saga.InvHoldsAtFirst(key);
    assert KeyOk(key, saga, s.payments);
    Saga.StepKeepsInv(key, saga, step.sagaStep);
    SagaStepKeepsRefusals(s, step);
    SagaStepKeepsSnapshots(config, s, step);
    MoreRequestsKeepOrigins(config, s.payments, s.sent, s'.sent);
    SagaStepKeepsSent(config, s, step);
  }

  lemma SagaStepKeepsSent(config: Pay.Config, s: System, step: Step)
    requires SentOk(s) && Enabled(s, step) && step.OfSaga?
    ensures SentOk(Apply(config, s, step))
  {
    var s' := Apply(config, s, step);
    RequestsAreKept(step.key, SagaOf(s, step.key), step.sagaStep);
    forall request | request in s'.sent
      ensures exists key :: key in s'.sagas && request in s'.sagas[key].paymentRequests
    {
      if request in s'.sagas[step.key].paymentRequests {
      } else {
        var key :| key in s.sagas && request in s.sagas[key].paymentRequests;
        assert key in s'.sagas && request in s'.sagas[key].paymentRequests;
      }
    }
  }

  lemma RequestsAreKept(key: string, s: Saga.KeyState, step: Saga.KeyStep)
    requires Saga.Enabled(key, s, step)
    ensures s.paymentRequests <= Saga.Apply(key, s, step).paymentRequests
    ensures s.compensations <= Saga.Apply(key, s, step).compensations
  {
  }

  // --- Runs ------------------------------------------------------------------------------

  ghost predicate SystemGrows(s: System, s': System) {
    && PaymentTheorems.Grows(s.payments.payments, s'.payments.payments)
    && forall key :: SagaOf(s, key).compensations <= SagaOf(s', key).compensations
  }

  lemma StepGrows(config: Pay.Config, s: System, step: Step)
    requires Inv(config, s) && Enabled(s, step)
    ensures SystemGrows(s, Apply(config, s, step))
  {
    if step.OfSaga? {
      RequestsAreKept(step.key, SagaOf(s, step.key), step.sagaStep);
    } else {
      InsideSystem(config, s);
      assert PaymentTheorems.OwnIds(s.payments.payments) by {
        Ledger.Inside(s.payments);
      }
      PaymentTheorems.StepsGrow(config, s.payments, step.paymentStep);
    }
  }

  lemma NextKeepsInv(config: Pay.Config, s: System, s': System)
    requires Inv(config, s) && Follows(config, s, s')
    ensures Inv(config, s') && SystemGrows(s, s')
  {
    assert Next(config, s, s');
    var step :| Enabled(s, step) && s' == Apply(config, s, step);
    if step.OfSaga? {
      SagaStepKeepsInv(config, s, step);
    } else {
      PaymentStepKeepsInv(config, s, step);
    }
    StepGrows(config, s, step);
  }

  lemma {:induction false} ReachedSystemsAreOk(config: Pay.Config, run: seq<System>, i: nat)
    requires IsRun(config, run) && i < |run|
    ensures Inv(config, run[i])
  {
    if i == 0 {
      InvHoldsAtFirst(config);
    } else {
      ReachedSystemsAreOk(config, run, i - 1);
      NextKeepsInv(config, run[i - 1], run[i]);
    }
  }

  lemma {:induction false} SystemsGrow(config: Pay.Config, run: seq<System>, i: nat, j: nat)
    requires IsRun(config, run) && i <= j < |run|
    ensures SystemGrows(run[i], run[j])
  {
    if i < j {
      SystemsGrow(config, run, i, j - 1);
      ReachedSystemsAreOk(config, run, j - 1);
      NextKeepsInv(config, run[j - 1], run[j]);
    }
  }

  // --- The theorems ----------------------------------------------------------------------

  /** A payment under the step's key was made by the request of the key's row. */
  lemma PaymentsOfAKeyAreItsRows(config: Pay.Config, s: System, key: string, id: string)
    requires Inv(config, s) && id in s.payments.payments
    requires s.payments.payments[id].idempotencyKey == PaymentStepKey(key)
    ensures key in s.sagas && s.sagas[key].row.Some? && s.sagas[key].row.value.user.Some?
    ensures MadeBy(config, s.payments.payments[id], Saga.RowPaymentRequest(key, s.sagas[key].row.value))
  {
    InsideSystem(config, s);
    InsideOrigins(config, s.payments, s.sent);
    var p := s.payments.payments[id];
    assert MadeBySome(config, p, s.sent);
    var request :| request in s.sent && MadeBy(config, p, request);
    var other :| other in s.sagas && request in s.sagas[other].paymentRequests;
    assert KeyOk(other, s.sagas[other], s.payments);
    Saga.Inside(other, s.sagas[other]);
    assert request == Saga.RowPaymentRequest(other, s.sagas[other].row.value);
    assert PaymentStepKey(key)[8..] == key && PaymentStepKey(other)[8..] == other;
  }

  /** Once a payment request of a key was refused for good, there is no payment under its step's key. */
  lemma RefusedForGoodMeansNoPayment(config: Pay.Config, s: System, key: string, refusal: Problem, id: string)
    requires Inv(config, s) && key in s.sagas && refusal in s.sagas[key].refusals && refusal.status in {400, 409}
    requires id in s.payments.payments
    ensures s.payments.payments[id].idempotencyKey != PaymentStepKey(key)
  {
    InsideSystem(config, s);
    InsideOrigins(config, s.payments, s.sent);
    var saga := s.sagas[key];
    assert KeyOk(key, saga, s.payments);
    var request := Saga.RowPaymentRequest(key, saga.row.value);
    var payments := s.payments.payments;
    assert ReplyOk(config, payments, Pay.RpcReply(request, Refused(refusal)));
    if payments[id].idempotencyKey == PaymentStepKey(key) {
      PaymentsOfAKeyAreItsRows(config, s, key, id);
      var other :| other in payments && payments[other].idempotencyKey == PaymentStepKey(key)
        && payments[other].requestHash != request.requestHash;
      PaymentsOfAKeyAreItsRows(config, s, key, other);
      assert false;
    }
  }

  lemma CompensatedMeansNoPayment(config: Pay.Config, s: System, key: string, id: string)
    requires Inv(config, s) && SagaOf(s, key).compensations != {} && id in s.payments.payments
    ensures s.payments.payments[id].idempotencyKey != PaymentStepKey(key)
  {
    InsideSystem(config, s);
    assert key in s.sagas && KeyOk(key, s.sagas[key], s.payments);
    var saga := s.sagas[key];
    Saga.Inside(key, saga);
    var request :| request in saga.compensations;
    assert Saga.RefusedFor(saga.row.value.error.value, saga.refusals);
    var refusal :| refusal in saga.refusals && refusal.status in {400, 409};
    RefusedForGoodMeansNoPayment(config, s, key, refusal, id);
  }

  /**
   If a compensation is ever sent for a root key, then no payment exists under the key of its
   payment step, neither before nor then nor later, whatever the workers, the handlers and the
   network do.
   */
  lemma NoPaymentBesideACompensation(config: Pay.Config, run: seq<System>, i: nat, j: nat, key: string, id: string)
    requires IsRun(config, run) && i < |run| && j < |run|
    requires SagaOf(run[i], key).compensations != {} && id in run[j].payments.payments
    ensures run[j].payments.payments[id].idempotencyKey != PaymentStepKey(key)
  {
    var last := if i < j then j else i;
    ReachedSystemsAreOk(config, run, last);
    SystemsGrow(config, run, i, last);
    SystemsGrow(config, run, j, last);
    CompensatedMeansNoPayment(config, run[last], key, id);
  }

  /** The payment that a completed onboarding answers with is the one stored for it, and is the user's. */
  lemma CompletedOnboardingsHaveTheirPayment(config: Pay.Config, run: seq<System>, i: nat, key: string)
    requires IsRun(config, run) && i < |run| && SagaOf(run[i], key).row.Some?
    requires SagaOf(run[i], key).row.value.status == Row.COMPLETED
    ensures var row := SagaOf(run[i], key).row.value; var payments := run[i].payments.payments;
            && row.payment.Some? && row.user.Some? && row.payment.value.id in payments
            && payments[row.payment.value.id].idempotencyKey == PaymentStepKey(key)
            && payments[row.payment.value.id].paymentReference == row.payment.value.paymentReference
            && payments[row.payment.value.id].userId == row.user.value.id
  {
    ReachedSystemsAreOk(config, run, i);
    InsideSystem(config, run[i]);
    assert KeyOk(key, run[i].sagas[key], run[i].payments);
    Saga.TheRowIsOk(key, run[i].sagas[key]);
    PaymentsOfAKeyAreItsRows(config, run[i], key, run[i].sagas[key].row.value.payment.value.id);
  }
}
