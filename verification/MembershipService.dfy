/**
 MembershipApplicationService: premium is what confirmed payments make of a user.
 */
module MembershipService {
  import opened Wrappers
  import opened Contracts
  import opened PaymentStore
  import opened PaymentRun
  import Ledger = PaymentLedger
  import opened PaymentTheorems
  import opened OutboxRun
  import opened OutboxTheorems

  const ROUTING_KEYS := {"membership.premium-activated", "user.premium-updated"}

  /** The tables of the service; a user's entry says whether they are premium. */
  class MembershipApplicationService {
    var users: map<string, bool>
    var receipts: set<string>
    var outbox: seq<OutboxRow>

    constructor ()
      ensures State() == Membership({}, {}, [])
    {
      users := map[];
      receipts := {};
      outbox := [];
    }

    function State(): Membership
      reads this
    {
      Membership((set user | user in users && users[user]), receipts, outbox)
    }

    /** An inbox table with an assigned key may take a duplicate as an update: rejects says that it does not. */
    method RegisterConsumedMessage(receipt: string, rejects: bool) returns (isNew: bool)
      modifies `receipts
      ensures isNew == !(rejects && receipt in old(receipts))
      ensures receipts == if isNew then old(receipts) + {receipt} else old(receipts)
    {
      if rejects && receipt in receipts {
        return false;
      }
      receipts := receipts + {receipt};
      return true;
    }

    method HandlePaymentConfirmed(paymentId: string, userId: string, rejects: bool)
      modifies this
      ensures State() == MemberActivated(old(State()), paymentId, userId, rejects)
    {
      var isNew := RegisterConsumedMessage("payment-confirmed:" + paymentId, rejects);
      if !isNew {
        return;
      }
      if userId in users && users[userId] {
        return;
      }
      ghost var before := State().premium;
      users := users[userId := true];
      assert State().premium == before + {userId};
      PublishOutboxEvent("membership.premium-activated", userId);
      PublishOutboxEvent("user.premium-updated", userId);
      assert outbox == old(outbox) + [OutboxRow("membership.premium-activated", userId),
                                      OutboxRow("user.premium-updated", userId)];
    }

    method PublishOutboxEvent(routingKey: string, userId: string)
      modifies `outbox
      ensures outbox == old(outbox) + [OutboxRow(routingKey, userId)]
    {
      outbox := outbox + [OutboxRow(routingKey, userId)];
    }
  }

  // --- The invariant ---------------------------------------------------------------------

  function RowsOf(outbox: seq<OutboxRow>, row: OutboxRow): nat {
    if outbox == [] then 0
    else RowsOf(outbox[..|outbox| - 1], row) + (if outbox[|outbox| - 1] == row then 1 else 0)
  }

  lemma RowsAfterTwo(outbox: seq<OutboxRow>, a: OutboxRow, b: OutboxRow, row: OutboxRow)
    ensures RowsOf(outbox + [a, b], row)
            == RowsOf(outbox, row) + (if a == row then 1 else 0) + (if b == row then 1 else 0)
  {
    assert (outbox + [a, b])[..|outbox| + 1] == outbox + [a];
    assert (outbox + [a])[..|outbox|] == outbox;
  }

  ghost predicate HasPaid(payments: Payments, id: string, user: string) {
    && id in payments && payments[id].userId == user
    && payments[id].paymentStatus == Completed && payments[id].deliveryStatus == Delivered
    && payments[id].confirmedAt.Some?
  }

  /** One outbox row for each routing key of a premium user, and no other. */
  ghost predicate OneRowEach(m: Membership) {
    forall row :: RowsOf(m.outbox, row) == if row.userId in m.premium && row.routingKey in ROUTING_KEYS then 1 else 0
  }

  ghost predicate MembersOk(m: Membership, payments: Payments) {
    && (forall user :: user in m.premium ==> exists id :: HasPaid(payments, id, user))
    && (forall receipt :: receipt in m.receipts ==>
          exists id :: receipt == "payment-confirmed:" + id && id in payments && payments[id].userId in m.premium)
    && OneRowEach(m)
  }

  lemma ActivatingKeepsRows(m: Membership, paymentId: string, userId: string, rejects: bool)
    requires OneRowEach(m)
    ensures OneRowEach(MemberActivated(m, paymentId, userId, rejects))
  {
    var m' := MemberActivated(m, paymentId, userId, rejects);
    var a, b := OutboxRow("membership.premium-activated", userId), OutboxRow("user.premium-updated", userId);
    assert a.routingKey[0] != b.routingKey[0];
    forall row
      ensures RowsOf(m'.outbox, row) == if row.userId in m'.premium && row.routingKey in ROUTING_KEYS then 1 else 0
    {
      RowsAfterTwo(m.outbox, a, b, row);
    }
  }

  lemma ActivatingKeepsMembers(m: Membership, payments: Payments, paymentId: string, userId: string, rejects: bool)
    requires MembersOk(m, payments) && HasPaid(payments, paymentId, userId)
    ensures MembersOk(MemberActivated(m, paymentId, userId, rejects), payments)
    ensures userId in MemberActivated(m, paymentId, userId, rejects).premium
  {
    var receipt := "payment-confirmed:" + paymentId;
    ActivatingKeepsRows(m, paymentId, userId, rejects);
    if receipt in m.receipts {
      var id :| receipt == "payment-confirmed:" + id && id in payments && payments[id].userId in m.premium;
      assert receipt[18..] == id && receipt[18..] == paymentId;
    }
  }

  lemma GrowingKeepsMembers(m: Membership, payments: Payments, payments': Payments)
    requires MembersOk(m, payments) && Grows(payments, payments')
    ensures MembersOk(m, payments')
  {
    forall user | user in m.premium
      ensures exists id :: HasPaid(payments', id, user)
    {
      var id :| HasPaid(payments, id, user);
      assert HasPaid(payments', id, user);
    }
  }

  // --- Runs ------------------------------------------------------------------------------

  /** What consumers see on the bus is what the ledger says of completed and delivered payments. */
  lemma ConfirmedHavePaid(w: World, index: nat)
    requires Ledger.Inv(w) && OutboxOk(w) && index < |w.bus| && w.bus[index].body.event.PaymentConfirmed?
    ensures HasPaid(w.payments, w.bus[index].body.event.paymentId, w.bus[index].body.event.userId)
  {
    Inside(w);
    Ledger.Inside(w);
    assert w.bus[index] in w.bus;
    var i :| 0 <= i < |w.log| && w.log[i] == w.bus[index];
    var id := w.log[i].paymentId;
    assert id in w.payments && Ledger.EntryOk(w.log[i], w.payments[id]) && w.payments[id].id == id;
  }

  lemma PublishersActivateNobody(config: Config, w: World, step: Step)
    requires Enabled(w, step) && OfOutbox(step) && !step.Consume?
    ensures Apply(config, w, step).membership == w.membership
  {
  }

  lemma StoringActivatesNobody(config: Config, w: World, step: Step)
    requires Enabled(w, step) && !OfOutbox(step) && !OnlyLooks(step) && !Begins(step)
    ensures Apply(config, w, step).membership == w.membership
  {
  }

  lemma OnlyConsumersActivate(config: Config, w: World, step: Step)
    requires Enabled(w, step) && !step.Consume?
    ensures Apply(config, w, step).membership == w.membership
  {
    if OfOutbox(step) {
      PublishersActivateNobody(config, w, step);
    } else if OnlyLooks(step) {
      LookingStoresNothing(config, w, step);
    } else if Begins(step) {
      BeginningStoresNothing(config, w, step);
    } else {
      StoringActivatesNobody(config, w, step);
    }
  }

  lemma NextKeepsMembers(config: Config, w: World, w': World)
    requires Ledger.Inv(w) && OutboxOk(w) && Next(config, w, w')
    requires MembersOk(w.membership, w.payments)
    ensures MembersOk(w'.membership, w'.payments)
  {
    var step :| Enabled(w, step) && w' == Apply(config, w, step);
    if step.Consume? {
      var event := w.bus[step.index].body.event;
      ConfirmedHavePaid(w, step.index);
      ActivatingKeepsMembers(w.membership, w.payments, event.paymentId, event.userId, step.rejectsDuplicate);
    } else {
      OnlyConsumersActivate(config, w, step);
      NextKeepsInv(config, w, w');
      GrowingKeepsMembers(w.membership, w.payments, w'.payments);
    }
  }

  lemma {:induction false} ReachedMembersAreOk(config: Config, run: seq<World>, i: nat)
    requires IsRun(config, run) && i < |run|
    ensures MembersOk(run[i].membership, run[i].payments)
  {
    if i > 0 {
      ReachedMembersAreOk(config, run, i - 1);
      ReachedWorldsAreOk(config, run, i - 1);
      ReachedOutboxesAreOk(config, run, i - 1);
      assert Follows(config, run[i - 1], run[i]);
      assert Next(config, run[i - 1], run[i]);
      NextKeepsMembers(config, run[i - 1], run[i]);
    }
  }

  /**
   End to end, over a network that duplicates, reorders and drops: every premium user has a payment
   of theirs that is COMPLETED and DELIVERED with a confirmation time; a premium user owns exactly
   one outbox row for each premium routing key, everybody else none, and there are no other rows.
   */
  lemma EveryPremiumUserHasPaid(config: Config, run: seq<World>, i: nat, user: string)
    requires IsRun(config, run) && i < |run|
    ensures user in run[i].membership.premium ==> exists id :: HasPaid(run[i].payments, id, user)
    ensures forall key :: RowsOf(run[i].membership.outbox, OutboxRow(key, user))
              == if user in run[i].membership.premium && key in ROUTING_KEYS then 1 else 0
  {
    ReachedMembersAreOk(config, run, i);
  }

  /** Whoever takes a confirmation from the bus, first or repeated, leaves its user premium. */
  lemma ConsumedConfirmationsMakePremium(config: Config, run: seq<World>, i: nat, index: nat, rejects: bool)
    requires IsRun(config, run) && i < |run| && Enabled(run[i], Consume(index, rejects))
    ensures run[i].bus[index].body.event.userId in Apply(config, run[i], Consume(index, rejects)).membership.premium
  {
    ReachedMembersAreOk(config, run, i);
    ReachedWorldsAreOk(config, run, i);
    ReachedOutboxesAreOk(config, run, i);
    var event := run[i].bus[index].body.event;
    ConfirmedHavePaid(run[i], index);
    ActivatingKeepsMembers(run[i].membership, run[i].payments, event.paymentId, event.userId, rejects);
  }
}
