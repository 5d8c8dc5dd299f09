/**
 Webhooks registered and relayed: any number of handlers and relays, each of which may stop anywhere.
 */
module RelayRun {
  import opened Wrappers
  import opened Text
  import opened PaymentStore
  import opened ReceiptStore
  import opened WebhookHandler

  /** What became of one claimed receipt in the hands of the relay that claimed it. */
  datatype Stage = Claimed | Sent | NotSent | Settled

  /** One tick of a relay, under the lock owner it drew, and one of the receipts it claimed. */
  datatype Hold = Hold(owner: string, key: string)

  /** A webhook, and what the handler registers for it. */
  datatype Webhook = Webhook(payload: WebhookPayload, registration: Registration)

  /** accepted holds the webhooks whose registration was accepted, published the keys sent, in order. */
  datatype World = World(receipts: Receipts, holds: map<Hold, Stage>, owners: set<string>,
                         accepted: seq<Webhook>, published: seq<string>)

  const EMPTY := World(map[], map[], {}, [], [])

  datatype Step =
    | Register(webhook: Webhook, now: int)
    | Claim(owner: string, keys: set<string>, until: int, now: int)
    | Publish(hold: Hold, sent: bool)
    | Mark(hold: Hold)
    | Retry(hold: Hold, nextAttemptAt: int)

  /** The handler decides to record the webhook; for proofs that need not look inside the decision. */
  ghost predicate IsRecorded(webhook: Webhook) {
    forall payload :: payload == webhook.payload ==> Decide(payload) == Recorded(webhook.registration)
  }

  ghost predicate Enabled(w: World, step: Step) {
    match step
    case Register(webhook, _) => IsRecorded(webhook)
    case Claim(owner, keys, _, now) => owner !in w.owners && keys <= Candidates(w.receipts, {}, now)
    case Publish(hold, _) => hold in w.holds && w.holds[hold] == Claimed
    case Mark(hold) => hold in w.holds && w.holds[hold] == Sent
    case Retry(hold, _) => hold in w.holds && w.holds[hold] == NotSent
  }

  ghost function Apply(w: World, step: Step): World
    requires Enabled(w, step)
  {
    match step
    case Register(webhook, now) =>
      w.(receipts := Registered(w.receipts, webhook.registration, now),
         accepted := if RegisterResult(w.receipts, webhook.registration).Accepted? then w.accepted + [webhook]
                     else w.accepted)
    case Claim(owner, keys, until, _) =>
      w.(receipts := ClaimedBy(w.receipts, keys, owner, until),
         holds := w.holds + map key | key in keys :: Hold(owner, key) := Claimed,
         owners := w.owners + {owner})
    case Publish(hold, sent) =>
      w.(holds := w.holds[hold := if sent then Sent else NotSent],
         published := if sent then w.published + [hold.key] else w.published)
    case Mark(hold) =>
      w.(receipts := MarkedPublished(w.receipts, hold.key, hold.owner), holds := w.holds[hold := Settled])
    case Retry(hold, nextAttemptAt) =>
      w.(receipts := Rescheduled(w.receipts, hold.key, hold.owner, nextAttemptAt), holds := w.holds[hold := Settled])
  }

  // --- The invariant ---------------------------------------------------------------------

  /** In flight exactly when the row has an owner; a row that waits is not locked. */
  predicate RowOk(receipt: Receipt) {
    && (receipt.publishStatus == IN_FLIGHT <==> receipt.lockedBy.Some?)
    && (receipt.lockedBy.Some? <==> receipt.lockedUntil.Some?)
  }

  function CountOf(published: seq<string>, key: string): nat {
    if published == [] then 0
    else CountOf(published[..|published| - 1], key) + (if published[|published| - 1] == key then 1 else 0)
  }

  /** How often the receipt has been sent, from the row and the hold of its owner alone. */
  ghost predicate SentOk(w: World, key: string)
    requires key in w.receipts
  {
    var receipt := w.receipts[key];
    match receipt.publishStatus
    case PENDING => CountOf(w.published, key) == 0
    case PUBLISHED => CountOf(w.published, key) == 1
    case IN_FLIGHT =>
      && receipt.lockedBy.Some? && Hold(receipt.lockedBy.value, key) in w.holds
      && CountOf(w.published, key) == (if w.holds[Hold(receipt.lockedBy.value, key)] == Sent then 1 else 0)
  }

  /** A relay that has not settled a receipt still owns it. */
  ghost predicate HoldsOk(w: World) {
    forall hold :: hold in w.holds ==>
      hold.owner in w.owners && (w.holds[hold] != Settled ==> OwnedBy(w.receipts, hold.key, hold.owner))
  }

  ghost predicate AcceptedOk(w: World) {
    && (forall i :: 0 <= i < |w.accepted| ==>
          IsRecorded(w.accepted[i]) && w.accepted[i].registration.dedupeKey in w.receipts)
    && (forall i, j :: 0 <= i < j < |w.accepted| ==>
          w.accepted[i].registration.dedupeKey != w.accepted[j].registration.dedupeKey)
  }

  ghost predicate RowsOk(w: World) {
    && (forall key :: key in w.receipts ==> RowOk(w.receipts[key]) && SentOk(w, key))
    && (forall key :: key !in w.receipts ==> CountOf(w.published, key) == 0)
  }

  ghost predicate Consistent(w: World) {
    RowsOk(w) && HoldsOk(w) && AcceptedOk(w)
  }

  ghost predicate Inv(w: World) {
    forall v :: v == w ==> Consistent(v)
  }

  lemma Inside(w: World)
    requires Inv(w)
    ensures RowsOk(w) && HoldsOk(w) && AcceptedOk(w)
  {
    assert Consistent(w);
  }

  lemma InvHoldsAtFirst()
    ensures Inv(EMPTY)
  {
  }

  lemma RegisterKeepsRows(w: World, step: Step)
    requires Inv(w) && Enabled(w, step) && step.Register?
    ensures RowsOk(Apply(w, step)) && HoldsOk(Apply(w, step))
  {
    Inside(w);
    var key := step.webhook.registration.dedupeKey;
    var w' := Apply(w, step);
    assert forall other :: other in w.receipts && other != key ==> w'.receipts[other] == w.receipts[other];
    forall other | other in w'.receipts
      ensures RowOk(w'.receipts[other]) && SentOk(w', other)
    {
      if other in w.receipts {
        assert SentOk(w, other);
      }
    }
  }

  lemma RegisterKeepsInv(w: World, step: Step)
    requires Inv(w) && Enabled(w, step) && step.Register?
    ensures Inv(Apply(w, step))
  {
    Inside(w);
    RegisterKeepsRows(w, step);
    var w' := Apply(w, step);
    assert w.receipts.Keys <= w'.receipts.Keys;
  }

  lemma ClaimKeepsInv(w: World, step: Step)
    requires Inv(w) && Enabled(w, step) && step.Claim?
    ensures Inv(Apply(w, step))
  {
    Inside(w);
    var w' := Apply(w, step);
    forall key | key in w'.receipts
      ensures RowOk(w'.receipts[key]) && SentOk(w', key)
    {
      assert SentOk(w, key);
      assert key in step.keys ==> Hold(step.owner, key) in w'.holds;
    }
    forall hold | hold in w'.holds
      ensures hold.owner in w'.owners && (w'.holds[hold] != Settled ==> OwnedBy(w'.receipts, hold.key, hold.owner))
    {
      if hold in w.holds && w.holds[hold] != Settled {
        assert OwnedBy(w.receipts, hold.key, hold.owner);
        assert hold.key !in step.keys;
      }
    }
  }

  lemma CountOfMore(published: seq<string>, more: string, key: string)
    ensures CountOf(published + [more], key) == CountOf(published, key) + (if more == key then 1 else 0)
  {
  }

  lemma PublishKeepsInv(w: World, step: Step)
    requires Inv(w) && Enabled(w, step) && step.Publish?
    ensures Inv(Apply(w, step))
  {
    Inside(w);
    var w' := Apply(w, step);
    assert OwnedBy(w.receipts, step.hold.key, step.hold.owner);
    forall key
      ensures CountOf(w'.published, key) == CountOf(w.published, key) + (if step.sent && step.hold.key == key then 1 else 0)
    {
      CountOfMore(w.published, step.hold.key, key);
    }
    forall key | key in w'.receipts
      ensures RowOk(w'.receipts[key]) && SentOk(w', key)
    {
      assert SentOk(w, key);
    }
  }

  lemma SettlingKeepsInv(w: World, step: Step)
    requires Inv(w) && Enabled(w, step) && (step.Mark? || step.Retry?)
    ensures Inv(Apply(w, step))
  {
    Inside(w);
    var w' := Apply(w, step);
    var hold := step.hold;
    assert OwnedBy(w.receipts, hold.key, hold.owner);
    forall key | key in w'.receipts
      ensures RowOk(w'.receipts[key]) && SentOk(w', key)
    {
      assert SentOk(w, key);
    }
    forall other | other in w'.holds && w'.holds[other] != Settled
      ensures OwnedBy(w'.receipts, other.key, other.owner)
    {
      assert OwnedBy(w.receipts, other.key, other.owner);
      assert other.key == hold.key ==> other == hold;
    }
  }

  lemma StepKeepsInv(w: World, step: Step)
    requires Inv(w) && Enabled(w, step)
    ensures Inv(Apply(w, step))
  {
    match step
    case Register(_, _) => RegisterKeepsInv(w, step);
    case Claim(_, _, _, _) => ClaimKeepsInv(w, step);
    case Publish(_, _) => PublishKeepsInv(w, step);
    case Mark(_) => SettlingKeepsInv(w, step);
    case Retry(_, _) => SettlingKeepsInv(w, step);
  }

  // --- Runs ------------------------------------------------------------------------------

  ghost predicate Next(w: World, w': World) {
    exists step :: Enabled(w, step) && w' == Apply(w, step)
  }

  ghost predicate Follows(w: World, w': World) {
    forall v, v' :: v == w && v' == w' ==> Next(v, v')
  }

  ghost predicate IsRun(run: seq<World>) {
    && |run| > 0 && run[0] == EMPTY
    && forall i, j :: 0 <= i < j < |run| && j == i + 1 ==> Follows(run[i], run[j])
  }

  /** Rows stay, a published row is as it was but for its duplicates, and acceptances are never taken back. */
  ghost predicate Grows(w: World, w': World) {
    && (forall key :: key in w.receipts ==>
          && key in w'.receipts
          && (w.receipts[key].publishStatus == PUBLISHED ==>
                w'.receipts[key] == w.receipts[key].(duplicates := w'.receipts[key].duplicates)))
    && w.accepted <= w'.accepted && w.published <= w'.published
  }

  lemma NextKeepsInv(w: World, w': World)
    requires Inv(w) && Follows(w, w')
    ensures Inv(w') && Grows(w, w')
  {
    assert Next(w, w');
    var step :| Enabled(w, step) && w' == Apply(w, step);
    StepKeepsInv(w, step);
    StepGrows(w, step);
  }

  lemma StepGrows(w: World, step: Step)
    requires Inv(w) && Enabled(w, step)
    ensures Grows(w, Apply(w, step))
  {
  }

  lemma {:induction false} ReachedWorldsAreOk(run: seq<World>, i: nat)
    requires IsRun(run) && i < |run|
    ensures Inv(run[i])
  {
    if i == 0 {
      InvHoldsAtFirst();
    } else {
      ReachedWorldsAreOk(run, i - 1);
      NextKeepsInv(run[i - 1], run[i]);
    }
  }

  lemma {:induction false} WorldsGrow(run: seq<World>, i: nat, j: nat)
    requires IsRun(run) && i <= j < |run|
    ensures Grows(run[i], run[j])
  {
    if i < j {
      WorldsGrow(run, i, j - 1);
      ReachedWorldsAreOk(run, j - 1);
      NextKeepsInv(run[j - 1], run[j]);
    }
  }

  /** However often it is repeated, at most one webhook is ever accepted for a trimmed payment reference. */
  lemma OneAcceptancePerReference(run: seq<World>, i: nat, a: nat, b: nat)
    requires IsRun(run) && i < |run| && a < |run[i].accepted| && b < |run[i].accepted|
    requires TrimSpace(run[i].accepted[a].payload.paymentReference)
             == TrimSpace(run[i].accepted[b].payload.paymentReference)
    ensures a == b
  {
    ReachedWorldsAreOk(run, i);
    Inside(run[i]);
    if a != b {
      var one, two := run[i].accepted[a], run[i].accepted[b];
      assert Decide(one.payload) == Recorded(one.registration) && Decide(two.payload) == Recorded(two.registration);
      KeysNameTrimmedReferences(one.payload, two.payload);
    }
  }

  /** PUBLISHED is absorbing, and a row is in flight exactly when it has an owner. */
  lemma PublishedIsFinal(run: seq<World>, i: nat, j: nat, key: string)
    requires IsRun(run) && i <= j < |run| && key in run[i].receipts
    ensures key in run[j].receipts
    ensures run[i].receipts[key].publishStatus == PUBLISHED ==> run[j].receipts[key].publishStatus == PUBLISHED
    ensures run[j].receipts[key].publishStatus == IN_FLIGHT <==> run[j].receipts[key].lockedBy.Some?
  {
    WorldsGrow(run, i, j);
    ReachedWorldsAreOk(run, j);
    Inside(run[j]);
  }

  /** With any number of relays a receipt is published at most once, and exactly once if it says so. */
  lemma PublishedOnce(run: seq<World>, i: nat, key: string)
    requires IsRun(run) && i < |run|
    ensures CountOf(run[i].published, key) <= 1
    ensures key in run[i].receipts && run[i].receipts[key].publishStatus == PUBLISHED ==>
              CountOf(run[i].published, key) == 1
    ensures CountOf(run[i].published, key) == 1 ==> key in run[i].receipts && run[i].receipts[key].publishStatus != PENDING
  {
    ReachedWorldsAreOk(run, i);
    Inside(run[i]);
    if key in run[i].receipts {
      assert SentOk(run[i], key);
    }
  }

  /** A receipt whose relay stopped after sending it stays in flight: no other relay can claim it. */
  lemma StrandedReceiptsAreNotClaimed(run: seq<World>, i: nat, hold: Hold, now: int)
    requires IsRun(run) && i < |run| && hold in run[i].holds && run[i].holds[hold] != Settled
    ensures hold.key in run[i].receipts && hold.key !in Candidates(run[i].receipts, {}, now)
  {
    ReachedWorldsAreOk(run, i);
    Inside(run[i]);
  }
}
