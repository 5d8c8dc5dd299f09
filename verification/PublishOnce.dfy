/**
 Holders that act strictly before their claims end publish every message at most once.
 */
module PublishOnce {
  import opened Wrappers
  import opened Contracts
  import opened PaymentStore
  import opened PaymentRun
  import Ledger = PaymentLedger
  import opened PaymentTheorems
  import opened OutboxRun
  import opened OutboxTheorems

  /** The holder has published and not yet acknowledged, and its claim has not ended. */
  ghost predicate Punctual(w: World) {
    forall k :: k in w.holdings && w.holdings[k].stage == Published && w.holdings[k].message.claimedUntil.Some? ==>
      w.clock < w.holdings[k].message.claimedUntil.value
  }

  /** Claims are made by the clock, and a message is published strictly before its claim ends. */
  ghost predicate InTime(w: World, step: Step)
    requires Enabled(w, step)
  {
    && (step.Claim? ==> step.before == w.clock)
    && (step.Publish? && w.holdings[step.k].message.claimedUntil.Some? ==>
          w.clock < w.holdings[step.k].message.claimedUntil.value)
  }

  ghost predicate TimelyNext(config: Config, w: World, w': World) {
    exists step :: Enabled(w, step) && InTime(w, step) && w' == Apply(config, w, step)
  }

  ghost predicate TimelyFollows(config: Config, w: World, w': World) {
    forall v, v' :: v == w && v' == w' ==> TimelyNext(config, v, v') && Punctual(v')
  }

  /** A run in which every holder acts, and acknowledges what it has published, before its claim ends. */
  ghost predicate IsTimelyRun(config: Config, run: seq<World>) {
    && |run| > 0 && run[0] == EMPTY
    && forall i, j :: 0 <= i < j < |run| && j == i + 1 ==> TimelyFollows(config, run[i], run[j])
  }

  // --- The invariant ---------------------------------------------------------------------

  ghost predicate OnBusOnce(bus: seq<Entry>) {
    forall i, j :: 0 <= i < j < |bus| ==> bus[i].id != bus[j].id
  }

  ghost predicate PublishedBy(w: World, k: nat, id: string, m: PendingMessage) {
    k in w.holdings && w.holdings[k] == Holding(id, m, Published)
  }

  /** A message that is on the bus and still pending is in the hands of the holder who published it. */
  ghost predicate PendingIsHeld(w: World) {
    forall id, m :: m in PendingOf(w, id) && EntryOf(id, m) in w.bus ==> exists k :: PublishedBy(w, k, id, m)
  }

  predicate HasTime(held: Holding, clock: int) {
    held.stage == Held && held.message.claimedUntil.Some? && clock < held.message.claimedUntil.value
  }

  /** Nobody takes a message away from a holder whose claim has not ended. */
  ghost predicate HeldIsPending(w: World) {
    forall k :: k in w.holdings && HasTime(w.holdings[k], w.clock) ==>
      w.holdings[k].message in PendingOf(w, w.holdings[k].paymentId)
  }

  ghost predicate Consistent(w: World) {
    OnBusOnce(w.bus) && PendingIsHeld(w) && HeldIsPending(w) && Punctual(w)
  }

  ghost predicate OnceOk(w: World) {
    forall v :: v == w ==> Consistent(v)
  }

  lemma InsideOnce(w: World)
    requires OnceOk(w)
    ensures OnBusOnce(w.bus) && PendingIsHeld(w) && HeldIsPending(w) && Punctual(w)
  {
    assert Consistent(w);
  }

  lemma OnceIsOkAtFirst()
    ensures OnceOk(EMPTY)
  {
    assert forall id :: PendingOf(EMPTY, id) == [];
    assert Consistent(EMPTY);
  }

  lemma EnqueuedIsNotOnTheBus(w: World, w': World, id: string, entries: seq<Entry>, now: int, m: PendingMessage)
    requires OutboxOk(w) && Enqueued(w, w', id, entries, now) && m in Pendings(entries, now)
    ensures EntryOf(id, m) !in w.bus
  {
    Inside(w);
    var i :| 0 <= i < |entries| && m == Pendings(entries, now)[i];
    assert EntryOf(id, m).id == entries[i].id;
    assert EntryOf(id, m) !in w.log;
  }

  lemma EnqueuingKeepsPendingHeld(w: World, w': World, id: string, entries: seq<Entry>, now: int)
    requires OutboxOk(w) && OnceOk(w) && Enqueued(w, w', id, entries, now)
    ensures PendingIsHeld(w')
  {
    assert PendingIsHeld(w) by {
      InsideOnce(w);
    }
    forall other, m | m in PendingOf(w', other) && EntryOf(other, m) in w'.bus
      ensures exists k :: PublishedBy(w', k, other, m)
    {
      assert m in PendingOf(w, other) by {
        if m !in PendingOf(w, other) {
          EnqueuedIsNotOnTheBus(w, w', id, entries, now, m);
        }
      }
      var k :| PublishedBy(w, k, other, m);
      assert PublishedBy(w', k, other, m);
    }
  }

  lemma EnqueuingKeepsHeldPending(w: World, w': World, id: string, entries: seq<Entry>, now: int)
    requires HeldIsPending(w) && Enqueued(w, w', id, entries, now)
    ensures HeldIsPending(w')
  {
    forall k | k in w'.holdings && HasTime(w'.holdings[k], w'.clock)
      ensures w'.holdings[k].message in PendingOf(w', w'.holdings[k].paymentId)
    {
      assert w.holdings[k].message in PendingOf(w, w.holdings[k].paymentId);
    }
  }

  lemma EnqueuingKeepsOnce(w: World, w': World)
    requires OutboxOk(w) && OnceOk(w) && OnlyEnqueues(w, w')
    ensures OnceOk(w')
  {
    var id, entries, now :| Enqueued(w, w', id, entries, now);
    EnqueuingKeepsPendingHeld(w, w', id, entries, now);
    assert OnBusOnce(w.bus) && HeldIsPending(w) && Punctual(w) by {
      InsideOnce(w);
    }
    EnqueuingKeepsHeldPending(w, w', id, entries, now);
    assert Consistent(w');
  }

  /** A message that somebody has published, or holds, before the claim ends is not eligible. */
  lemma HeldIsNotEligible(w: World, k: nat, id: string, m: PendingMessage)
    requires OutboxOk(w) && k in w.holdings && w.holdings[k].paymentId == id && w.holdings[k].message == m
    requires m.claimedUntil.Some? ==> w.clock < m.claimedUntil.value
    ensures !Eligible(m, w.clock)
  {
    Inside(w);
    assert HoldingOk(w.holdings[k], w);
  }

  lemma EligibleIsNotOnTheBus(w: World, id: string, m: PendingMessage)
    requires OutboxOk(w) && OnceOk(w) && m in PendingOf(w, id) && Eligible(m, w.clock)
    ensures EntryOf(id, m) !in w.bus
  {
    InsideOnce(w);
    forall k
      ensures !PublishedBy(w, k, id, m)
    {
      if k in w.holdings && w.holdings[k] == Holding(id, m, Published) {
        HeldIsNotEligible(w, k, id, m);
      }
    }
  }

  lemma ClaimKeepsPendingHeld(config: Config, w: World, step: Step)
    requires OutboxOk(w) && OnceOk(w) && Enabled(w, step) && step.Claim? && step.before == w.clock
    ensures PendingIsHeld(Apply(config, w, step))
  {
    InsideOnce(w);
    var w' := Apply(config, w, step);
    var id := step.paymentId;
    var m := PendingOf(w, id)[step.index];
    EligibleIsNotOnTheBus(w, id, m);
    assert EntryOf(id, Stamped(m, step.token, step.until)) == EntryOf(id, m);
    forall other, m' | m' in PendingOf(w', other) && EntryOf(other, m') in w'.bus
      ensures exists k :: PublishedBy(w', k, other, m')
    {
      assert m' in PendingOf(w, other);
      var k :| PublishedBy(w, k, other, m');
      assert PublishedBy(w', k, other, m');
    }
  }

  lemma ClaimKeepsOnce(config: Config, w: World, step: Step)
    requires OutboxOk(w) && OnceOk(w) && Enabled(w, step) && step.Claim? && step.before == w.clock
    ensures OnceOk(Apply(config, w, step))
  {
    InsideOnce(w);
    var w' := Apply(config, w, step);
    ClaimKeepsPendingHeld(config, w, step);
    var before := PendingOf(w, step.paymentId);
    var after := PendingOf(w', step.paymentId);
    assert after == before[step.index := Stamped(before[step.index], step.token, step.until)];
    assert after[step.index] in after;
    forall k | k in w.holdings && HasTime(w.holdings[k], w.clock)
      ensures w.holdings[k].message in PendingOf(w', w.holdings[k].paymentId)
    {
      var m := w.holdings[k].message;
      if w.holdings[k].paymentId == step.paymentId {
        var i :| 0 <= i < |before| && before[i] == m;
        if i == step.index {
          HeldIsNotEligible(w, k, step.paymentId, m);
        } else {
          assert after[i] == m;
        }
      }
    }
  }

  lemma HeldIsNotOnTheBus(w: World, k: nat)
    requires OutboxOk(w) && OnceOk(w) && k in w.holdings && HasTime(w.holdings[k], w.clock)
    ensures w.holdings[k].message in PendingOf(w, w.holdings[k].paymentId)
    ensures EntryOf(w.holdings[k].paymentId, w.holdings[k].message) !in w.bus
  {
    Inside(w);
    InsideOnce(w);
    var held := w.holdings[k];
    forall other
      ensures !PublishedBy(w, other, held.paymentId, held.message)
    {
      assert other in w.holdings && other != k ==>
        w.holdings[other].message.claimToken != held.message.claimToken;
    }
  }

  lemma IdsOnTheBusDiffer(w: World, e: Entry, i: nat)
    requires OutboxOk(w) && e in w.log && e !in w.bus && i < |w.bus|
    ensures w.bus[i].id != e.id
  {
    Inside(w);
    assert w.bus[i] in w.bus;
    var a :| 0 <= a < |w.log| && w.log[a] == e;
    var b :| 0 <= b < |w.log| && w.log[b] == w.bus[i];
  }

  /** Whoever holds a message in time goes on holding it, as the clock and the outboxes are as before. */
  lemma PublishKeepsTime(w: World, w': World, k: nat, stage: HoldStage)
    requires OnceOk(w) && k in w.holdings && HasTime(w.holdings[k], w.clock) && stage != Held
    requires w'.payments == w.payments && w'.clock == w.clock
    requires w'.holdings == w.holdings[k := w.holdings[k].(stage := stage)]
    ensures HeldIsPending(w') && Punctual(w')
  {
    assert HeldIsPending(w) && Punctual(w) by {
      InsideOnce(w);
    }
    forall a | a in w'.holdings && HasTime(w'.holdings[a], w'.clock)
      ensures w'.holdings[a].message in PendingOf(w', w'.holdings[a].paymentId)
    {
      assert a != k && HasTime(w.holdings[a], w.clock);
    }
  }

  lemma PublishKeepsBus(w: World, k: nat)
    requires OutboxOk(w) && OnceOk(w) && k in w.holdings && HasTime(w.holdings[k], w.clock)
    ensures OnBusOnce(w.bus + [EntryOf(w.holdings[k].paymentId, w.holdings[k].message)])
  {
    var held := w.holdings[k];
    var e := EntryOf(held.paymentId, held.message);
    assert e in w.log by {
      Inside(w);
      assert HoldingOk(held, w);
    }
    assert OnBusOnce(w.bus) by {
      InsideOnce(w);
    }
    HeldIsNotOnTheBus(w, k);
    forall i | 0 <= i < |w.bus|
      ensures w.bus[i].id != e.id
    {
      IdsOnTheBusDiffer(w, e, i);
    }
  }

  lemma HeldHasTime(w: World, step: Step)
    requires OutboxOk(w) && Enabled(w, step) && step.Publish? && InTime(w, step)
    ensures HasTime(w.holdings[step.k], w.clock)
  {
    Inside(w);
    assert HoldingOk(w.holdings[step.k], w);
  }

  lemma PublishKeepsOnce(config: Config, w: World, step: Step)
    requires OutboxOk(w) && OnceOk(w) && Enabled(w, step) && step.Publish? && InTime(w, step)
    ensures OnceOk(Apply(config, w, step))
  {
    var w' := PublishedWorld(w, step.k, step.sent);
    var stage := if step.sent then Published else Unpublished;
    HeldHasTime(w, step);
    assert OnBusOnce(w'.bus) by {
      PublishKeepsBus(w, step.k);
      InsideOnce(w);
    }
    PublishKeepsPendingHeld(w, w', step.k, stage);
    PublishKeepsTime(w, w', step.k, stage);
    assert Consistent(w');
  }

  lemma PendingIdsDiffer(w: World, id: string, m: PendingMessage, n: PendingMessage)
    requires OutboxOk(w) && m in PendingOf(w, id) && n in PendingOf(w, id) && m.id == n.id
    ensures m == n
  {
    assert DistinctIds(PendingOf(w, id)) by {
      Inside(w);
    }
  }

  lemma PublishKeepsPendingHeld(w: World, w': World, k: nat, stage: HoldStage)
    requires OutboxOk(w) && OnceOk(w) && k in w.holdings && HasTime(w.holdings[k], w.clock)
    requires w'.payments == w.payments && w'.holdings == w.holdings[k := w.holdings[k].(stage := stage)]
    requires w'.bus == w.bus + (if stage == Published then [EntryOf(w.holdings[k].paymentId, w.holdings[k].message)] else [])
    ensures PendingIsHeld(w')
  {
    var held := w.holdings[k];
    assert PendingIsHeld(w) by {
      InsideOnce(w);
    }
    HeldIsNotOnTheBus(w, k);
    forall id, m | m in PendingOf(w', id) && EntryOf(id, m) in w'.bus
      ensures exists a :: PublishedBy(w', a, id, m)
    {
      assert PendingOf(w', id) == PendingOf(w, id);
      if EntryOf(id, m) in w.bus {
        var a :| PublishedBy(w, a, id, m);
        assert a != k;
        assert PublishedBy(w', a, id, m);
      } else {
        assert id == held.paymentId && m.id == held.message.id;
        PendingIdsDiffer(w, id, m, held.message);
        assert PublishedBy(w', k, id, m);
      }
    }
  }

  lemma LettingGoKeepsPendingHeld(w: World, w': World, k: nat, messages: seq<PendingMessage>)
    requires PendingIsHeld(w) && k in w.holdings && Rewritten(w, w', w.holdings[k].paymentId, messages)
    requires w'.holdings == w.holdings[k := w.holdings[k].(stage := Dropped)]
    requires w'.bus == w.bus && Undisturbed(w, k, messages)
    ensures PendingIsHeld(w')
  {
    forall other, m | m in PendingOf(w', other) && EntryOf(other, m) in w'.bus
      ensures exists a :: PublishedBy(w', a, other, m)
    {
      var a :| PublishedBy(w, a, other, m) && a != k;
      assert PublishedBy(w', a, other, m);
    }
  }

  /** A holder that lets go disturbs only what carries its own token. */
  lemma LettingGoKeepsHeldPending(w: World, w': World, k: nat, messages: seq<PendingMessage>)
    requires HeldIsPending(w) && HoldingsOk(w) && k in w.holdings && Rewritten(w, w', w.holdings[k].paymentId, messages)
    requires w'.holdings == w.holdings[k := w.holdings[k].(stage := Dropped)]
    requires w'.clock == w.clock && Undisturbed(w, k, messages)
    ensures HeldIsPending(w')
  {
    forall a | a in w'.holdings && HasTime(w'.holdings[a], w'.clock)
      ensures w'.holdings[a].message in PendingOf(w', w'.holdings[a].paymentId)
    {
      assert a != k && w.holdings[a].message in PendingOf(w, w.holdings[a].paymentId);
      assert w.holdings[a].message.claimToken != w.holdings[k].message.claimToken;
    }
  }

  lemma LettingGoKeepsOnce(w: World, w': World, k: nat, messages: seq<PendingMessage>)
    requires OutboxOk(w) && OnceOk(w) && k in w.holdings && (w.holdings[k].paymentId !in w.payments ==> messages == [])
    requires w'.payments == WithPending(w, w.holdings[k].paymentId, messages).payments
    requires w'.holdings == w.holdings[k := w.holdings[k].(stage := Dropped)]
    requires w'.log == w.log && w'.uuids == w.uuids && w'.bus == w.bus && w'.clock == w.clock
    requires Undisturbed(w, k, messages)
    ensures OnceOk(w')
  {
    LettingGoRewrites(w, w', w.holdings[k].paymentId, messages);
    assert OnBusOnce(w.bus) && PendingIsHeld(w) && HeldIsPending(w) && Punctual(w) by {
      InsideOnce(w);
    }
    LettingGoKeepsPendingHeld(w, w', k, messages);
    assert HoldingsOk(w) by {
      Inside(w);
    }
    LettingGoKeepsHeldPending(w, w', k, messages);
    assert Punctual(w');
    assert Consistent(w');
  }

  /** Messages with other tokens stay, and what stays was published by others if at all. */
  ghost predicate Undisturbed(w: World, k: nat, messages: seq<PendingMessage>)
    requires k in w.holdings
  {
    var held := w.holdings[k];
    && (forall m :: m in PendingOf(w, held.paymentId) && m.claimToken != held.message.claimToken ==> m in messages)
    && (forall m :: m in messages && EntryOf(held.paymentId, m) in w.bus ==>
          m in PendingOf(w, held.paymentId) && m != held.message)
  }

  lemma AcknowledgingDisturbsNobody(w: World, k: nat)
    requires OutboxOk(w) && k in w.holdings
    ensures var held := w.holdings[k];
            Undisturbed(w, k, Acknowledged(PendingOf(w, held.paymentId), held.message.id, held.message.claimToken))
  {
  }

  lemma RetriedKeepsOthers(before: seq<PendingMessage>, id: string, token: string, next: int, attempts: nat,
                           m: PendingMessage)
    requires m in before && m.claimToken != token
    ensures m in Retried(before, id, token, next, attempts)
  {
    var i :| 0 <= i < |before| && before[i] == m;
    RetryingPointwise(before, id, token, next, attempts, i);
  }

  lemma RetriedIsNotOnTheBus(w: World, k: nat, next: int, attempts: nat, m': PendingMessage)
    requires OutboxOk(w) && OnceOk(w) && k in w.holdings && w.holdings[k].stage == Unpublished
    requires var held := w.holdings[k];
             m' in Retried(PendingOf(w, held.paymentId), held.message.id, held.message.claimToken, next, attempts)
    requires EntryOf(w.holdings[k].paymentId, m') in w.bus
    ensures m' in PendingOf(w, w.holdings[k].paymentId) && m' != w.holdings[k].message
  {
    Inside(w);
    InsideOnce(w);
    var held := w.holdings[k];
    var before := PendingOf(w, held.paymentId);
    var after := Retried(before, held.message.id, held.message.claimToken, next, attempts);
    var i :| 0 <= i < |after| && after[i] == m';
    RetryingPointwise(before, held.message.id, held.message.claimToken, next, attempts, i);
    var m := before[i];
    assert m in before && EntryOf(held.paymentId, m) == EntryOf(held.paymentId, m');
    var a :| PublishedBy(w, a, held.paymentId, m);
    assert a != k && m.claimToken != held.message.claimToken;
  }

  lemma RetryingDisturbsNobody(w: World, k: nat, next: int, attempts: nat)
    requires OutboxOk(w) && OnceOk(w) && k in w.holdings && w.holdings[k].stage == Unpublished
    ensures var held := w.holdings[k];
            Undisturbed(w, k, Retried(PendingOf(w, held.paymentId), held.message.id, held.message.claimToken, next, attempts))
  {
    var held := w.holdings[k];
    var before := PendingOf(w, held.paymentId);
    var after := Retried(before, held.message.id, held.message.claimToken, next, attempts);
    forall m | m in before && m.claimToken != held.message.claimToken
      ensures m in after
    {
      RetriedKeepsOthers(before, held.message.id, held.message.claimToken, next, attempts, m);
    }
    forall m' | m' in after && EntryOf(held.paymentId, m') in w.bus
      ensures m' in before && m' != held.message
    {
      RetriedIsNotOnTheBus(w, k, next, attempts, m');
    }
  }

  lemma TickKeepsOnce(w: World, now: int)
    requires OnceOk(w) && now > w.clock && Punctual(w.(clock := now))
    ensures OnceOk(w.(clock := now))
  {
    InsideOnce(w);
    var w' := w.(clock := now);
    assert forall id :: PendingOf(w', id) == PendingOf(w, id);
    assert forall k, id, m :: PublishedBy(w, k, id, m) ==> PublishedBy(w', k, id, m);
  }

  lemma StepKeepsOnce(config: Config, w: World, step: Step)
    requires Ledger.Inv(w) && OutboxOk(w) && OnceOk(w)
    requires Enabled(w, step) && InTime(w, step) && Punctual(Apply(config, w, step))
    ensures OnceOk(Apply(config, w, step))
  {
    if step.Claim? {
      ClaimKeepsOnce(config, w, step);
    } else if step.Publish? {
      PublishKeepsOnce(config, w, step);
    } else if step.Acknowledge? {
      var held := w.holdings[step.k];
      AcknowledgingDisturbsNobody(w, step.k);
      LettingGoKeepsOnce(w, Apply(config, w, step), step.k,
                         Acknowledged(PendingOf(w, held.paymentId), held.message.id, held.message.claimToken));
    } else if step.RetryLater? {
      var held := w.holdings[step.k];
      RetryingDisturbsNobody(w, step.k, step.nextAttemptAt, held.message.attempts + 1);
      LettingGoKeepsOnce(w, Apply(config, w, step), step.k,
                         Retried(PendingOf(w, held.paymentId), held.message.id, held.message.claimToken,
                                 step.nextAttemptAt, held.message.attempts + 1));
    } else if step.Tick? {
      TickKeepsOnce(w, step.now);
    } else {
      HandlersOnlyEnqueue(config, w, step);
      EnqueuingKeepsOnce(w, Apply(config, w, step));
    }
  }

  lemma TimelyNextKeepsOnce(config: Config, w: World, w': World)
    requires Ledger.Inv(w) && OutboxOk(w) && OnceOk(w) && TimelyFollows(config, w, w')
    ensures Ledger.Inv(w') && OutboxOk(w') && OnceOk(w')
  {
    assert TimelyNext(config, w, w') && Punctual(w');
    var step :| Enabled(w, step) && InTime(w, step) && w' == Apply(config, w, step);
    Ledger.StepKeepsInv(config, w, step);
    StepKeepsOutbox(config, w, step);
    StepKeepsOnce(config, w, step);
  }

  lemma {:induction false} TimelyWorldsAreOk(config: Config, run: seq<World>, i: nat)
    requires IsTimelyRun(config, run) && i < |run|
    ensures Ledger.Inv(run[i]) && OutboxOk(run[i]) && OnceOk(run[i])
  {
    if i == 0 {
      Ledger.InvHoldsAtFirst();
      OutboxIsOkAtFirst();
      OnceIsOkAtFirst();
    } else {
      TimelyWorldsAreOk(config, run, i - 1);
      TimelyNextKeepsOnce(config, run[i - 1], run[i]);
    }
  }

  /**
   If every holder publishes and acknowledges strictly before its claim ends, no message is ever
   published twice.
   */
  lemma TimelyHoldersPublishOnce(config: Config, run: seq<World>, i: nat, a: nat, b: nat)
    requires IsTimelyRun(config, run) && i < |run| && a < b < |run[i].bus|
    ensures run[i].bus[a].id != run[i].bus[b].id && run[i].bus[a] != run[i].bus[b]
  {
    TimelyWorldsAreOk(config, run, i);
    InsideOnce(run[i]);
  }
}
