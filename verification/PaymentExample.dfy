/**
 A run in which a payment is created, confirmed by a callback, delivered and published, and its
 user becomes premium.
 */
module PaymentExample {
  import opened Wrappers
  import opened Contracts
  import opened Text
  import opened Int64
  import opened ClaimLoops
  import opened PaymentStore
  import opened PaymentRun
  import opened PaymentTheorems
  import opened PaymentHistory
  import opened PaymentSteps

  const CONFIG := Config({"BRL"}, 100, 50, true)
  const DIGEST := RootDigest(Fields("ada@example.org", "Ada", "1", "2", 10.0, "BRL"))
  const REQUEST := PaymentCreate("k", DIGEST, "u", "Ada", "ada@example.org", "1", "2", 10.0, "BRL")
  const CALLBACK := Callback("e", "r", 10.0, "BRL", Some(10))

  lemma GoesOn(run: seq<World>, step: Step, w: World) returns (longer: seq<World>)
    requires Runs(CONFIG, run) && Leads(CONFIG, Last(run), step, w)
    ensures Runs(CONFIG, longer) && Last(longer) == w
  {
    RunGoesOn(CONFIG, run, step, w);
    longer := run + [w];
  }

  predicate IsOurs(p: Payment) {
    && p.id == "p" && p.userId == "u" && p.paymentReference == "r" && p.amount == 10.0 && p.currency == "BRL"
    && p.expiresAt == 100
  }

  /** One payment, at the status, with as many messages in its outbox, none of them claimed. */
  ghost predicate Stands(run: seq<World>, handlers: nat, status: PaymentStatus, delivery: DeliveryStatus,
                         confirmedAt: Option<int>, messages: nat)
  {
    && Runs(CONFIG, run) && Last(run).payments.Keys == {"p"}
    && (forall h :: h in Last(run).handlers ==> h < handlers) && Last(run).holdings == map[]
    && Last(run).bus == [] && Last(run).membership == Membership({}, {}, [])
    && (forall id :: id in Last(run).uuids ==> |id| <= messages)
    && var p := Last(run).payments["p"];
    && IsOurs(p) && p.paymentStatus == status && p.deliveryStatus == delivery && p.confirmedAt == confirmedAt
    && |p.pendingMessages| == messages
    && forall m :: m in p.pendingMessages ==> m.nextAttemptAt == 0 && m.claimToken == ""
  }

  /** Each is longer than the ones before. */
  const ID1: string := "1"
  const ID2: string := "22"
  const ID3: string := "333"
  const ID4: string := "4444"
  const ID5: string := "55555"
  const ID6: string := "666666"

  /** A transition of the payment that sends two messages. */
  lemma TwoMoreMessages(before: seq<World>, run: seq<World>, handlers: nat, status: PaymentStatus, delivery: DeliveryStatus,
                        confirmedAt: Option<int>, messages: nat, h: nat, q: Payment, entries: seq<Entry>)
    requires Stands(before, handlers, status, delivery, confirmedAt, messages) && Runs(CONFIG, run)
    requires Last(run) == Transitioned(Last(before), h, true, q, entries, 0) && h in Last(before).handlers
    requires IsOurs(q) && q.pendingMessages == Last(before).payments["p"].pendingMessages
    requires |entries| == 2 && |entries[0].id| <= messages + 2 && |entries[1].id| <= messages + 2
    ensures Stands(run, handlers, q.paymentStatus, q.deliveryStatus, q.confirmedAt, messages + 2)
    ensures Last(run).payments["p"].pendingMessages[messages + 1] == ToPending(entries[1], 0)
  {
    var w, w' := Last(before), Last(run);
    assert Pendings(entries, 0) == [ToPending(entries[0], 0), ToPending(entries[1], 0)];
    assert w'.payments["p"] == WithMessages(q, Pendings(entries, 0));
    assert w'.uuids == w.uuids + {entries[0].id, entries[1].id};
  }

  lemma PaymentIsDrawnUp() returns (run: seq<World>, p: Payment)
    ensures Runs(CONFIG, run) && Last(run) == EMPTY.(handlers := map[0 := Inserting(REQUEST, p, "")])
    ensures IsOurs(p) && p.paymentStatus == Pending && p.deliveryStatus == DeliveryPending && p.confirmedAt == None
    ensures p.pendingMessages == []
  {
    UpperCaseStays(REQUEST.currency);
    p := NewPayment(CONFIG, REQUEST, "p", "r", 0);
    run := [EMPTY];
    BeginningMoves(CONFIG, EMPTY, BeginCreate(0, REQUEST));
    run := GoesOn(run, BeginCreate(0, REQUEST), Moved(EMPTY, 0, Stage.LookingUpKey(REQUEST)));
    PaymentIsDrawn(CONFIG, Last(run), 0, REQUEST, "p", "r", "", 0);
    run := GoesOn(run, LookUpKey(0, None, "p", "r", "", 0), Moved(Last(run), 0, Inserting(REQUEST, p, "")));
  }

  lemma PaymentIsCreated() returns (run: seq<World>)
    ensures Stands(run, 1, Pending, DeliveryPending, None, 1)
  {
    var p;
    run, p := PaymentIsDrawnUp();
    var w := InsertLeads(CONFIG, Last(run), 0, REQUEST, p, "", ID1, 0);
    run := GoesOn(run, Insert(0, ID1, 0), w);
    assert w.uuids == {"", ID1};
  }

  lemma CallbackIsTaken() returns (run: seq<World>)
    ensures Stands(run, 2, Pending, DeliveryPending, None, 1)
    ensures 1 in Last(run).handlers && Last(run).handlers[1] == Completing(Last(run).payments["p"], CALLBACK)
  {
    run := PaymentIsCreated();
    CallbackBegins(CONFIG, Last(run), 1, CALLBACK);
    run := GoesOn(run, BeginCallback(1, CALLBACK), Started(Last(run), 1, CALLBACK));
    ReferenceLooksUp(CONFIG, Last(run), 1, CALLBACK, Some("p"), 10);
    run := GoesOn(run, LookUpReference(1, Some("p"), 10), Moved(Last(run), 1, Completing(Last(run).payments["p"], CALLBACK)));
  }

  lemma PaymentIsCompleted() returns (run: seq<World>)
    ensures Stands(run, 2, Completed, DeliveryPending, Some(10), 3)
  {
    var before := CallbackIsTaken();
    var w := Last(before);
    var p, entries := w.payments["p"], CompletionEntries(w.payments["p"], CALLBACK, ID2, ID3);
    CompleteLeads(CONFIG, w, 1, p, CALLBACK, ID2, ID3, 0);
    run := GoesOn(before, Complete(1, ID2, ID3, 0), Transitioned(w, 1, true, MarkedCompleted(p, "e", 10), entries, 0));
    TwoMoreMessages(before, run, 2, Pending, DeliveryPending, None, 1, 1, MarkedCompleted(p, "e", 10), entries);
  }

  lemma PaymentIsDelivered() returns (run: seq<World>)
    ensures Stands(run, 3, Completed, Delivered, Some(10), 5)
    ensures Last(run).payments["p"].pendingMessages[4].body.event == PaymentConfirmed("p", "u", Some(10))
  {
    run := PaymentIsCompleted();
    BeginningMoves(CONFIG, Last(run), BeginDelivery(2, "p"));
    run := GoesOn(run, BeginDelivery(2, "p"), Moved(Last(run), 2, Stage.LookingUpPayment("p")));
    PaymentLooksUp(CONFIG, Last(run), 2, "p");
    run := GoesOn(run, LookUpPayment(2), Moved(Last(run), 2, Delivering(Last(run).payments["p"])));
    run := DeliveryIsMade(run);
  }

  lemma DeliveryIsMade(before: seq<World>) returns (run: seq<World>)
    requires Stands(before, 3, Completed, DeliveryPending, Some(10), 3)
    requires 2 in Last(before).handlers && Last(before).handlers[2] == Delivering(Last(before).payments["p"])
    ensures Stands(run, 3, Completed, Delivered, Some(10), 5)
    ensures Last(run).payments["p"].pendingMessages[4].body.event == PaymentConfirmed("p", "u", Some(10))
  {
    var w := Last(before);
    var p, entries := w.payments["p"], DeliveryEntries(w.payments["p"], ID4, ID5);
    DeliverLeads(CONFIG, w, 2, p, ID4, ID5, 0);
    run := GoesOn(before, Deliver(2, ID4, ID5, 0), Transitioned(w, 2, true, MarkedDelivery(p, Delivered, ""), entries, 0));
    TwoMoreMessages(before, run, 3, Completed, DeliveryPending, Some(10), 3, 2, MarkedDelivery(p, Delivered, ""), entries);
  }

  lemma ConfirmationIsPublished() returns (run: seq<World>)
    ensures Runs(CONFIG, run) && Last(run).membership == Membership({}, {}, [])
    ensures |Last(run).bus| == 1 && Last(run).bus[0].body.event == PaymentConfirmed("p", "u", Some(10))
  {
    run := PaymentIsDelivered();
    ClaimLeads(CONFIG, Last(run), 0, Position("p", 4), ID6, 0, 1);
    run := GoesOn(run, Claim(0, "p", 4, ID6, 0, 1), Claimed(Last(run), 0, "p", 4, ID6, 1));
    PublishLeads(CONFIG, Last(run), 0, true);
    run := GoesOn(run, Publish(0, true), PublishedWorld(Last(run), 0, true));
  }

  lemma ConfirmationIsConsumed(before: seq<World>) returns (run: seq<World>)
    requires Runs(CONFIG, before) && |Last(before).bus| == 1
    requires Last(before).bus[0].body.event == PaymentConfirmed("p", "u", Some(10))
    ensures Runs(CONFIG, run) && Last(run) == Consumed(Last(before), Last(before).bus[0].body.event, false)
  {
    ConsumeLeads(CONFIG, Last(before), 0, false);
    run := GoesOn(before, Consume(0, false), Consumed(Last(before), Last(before).bus[0].body.event, false));
  }

  /** Premium is reached, and the confirmation may come in twice. */
  lemma UserBecomesPremium() returns (run: seq<World>)
    ensures IsRun(CONFIG, run) && Last(run).membership.premium == {"u"} && |Last(run).membership.outbox| == 2
  {
    run := ConfirmationIsPublished();
    run := ConfirmationIsConsumed(run);
    run := ConfirmationIsConsumed(run);
    assert Runs(CONFIG, run);
  }
}
