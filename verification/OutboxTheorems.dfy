/**
 What every run guarantees about the outbox: nothing enqueued is lost, stale holders change
 nothing, and holders that act before their claim ends publish each message at most once.
 */
module OutboxTheorems {
  import opened Wrappers
  import opened Contracts
  import opened PaymentStore
  import opened PaymentRun
  import opened OutboxRun
  import Ledger = PaymentLedger
  import opened PaymentTheorems

  // --- The publisher's steps keep the outbox ---------------------------------------------

  /** w' differs from w in the outbox of one payment, the holdings, the bus and the tokens. */
  ghost predicate Rewritten(w: World, w': World, id: string, messages: seq<PendingMessage>) {
    && (forall other :: PendingOf(w', other) == if other == id then messages else PendingOf(w, other))
    && w'.log == w.log && w.uuids <= w'.uuids
  }

  /** Every message of the new outbox is one of the old, perhaps stamped anew. */
  ghost predicate Restamped(before: seq<PendingMessage>, after: seq<PendingMessage>, id: string, uuids: set<string>) {
    DistinctIds(after) && forall m' :: m' in after ==>
      StampedOk(m', uuids) && exists m :: m in before && EntryOf(id, m) == EntryOf(id, m')
  }

  lemma RewritingKeepsIds(w: World, w': World, id: string, messages: seq<PendingMessage>)
    requires IdsOk(w) && PendingOk(w) && Rewritten(w, w', id, messages)
    requires Restamped(PendingOf(w, id), messages, id, w'.uuids)
    ensures IdsOk(w') && PendingOk(w')
  {
  }

  /** An entry whose message is taken out of the outbox must be on the bus. */
  ghost predicate NoneLost(w: World, w': World, id: string, messages: seq<PendingMessage>) {
    forall m :: m in PendingOf(w, id) ==>
      EntryOf(id, m) in w'.bus || exists m' :: m' in messages && EntryOf(id, m') == EntryOf(id, m)
  }

  lemma RewritingConserves(w: World, w': World, id: string, messages: seq<PendingMessage>)
    requires Conserved(w) && Rewritten(w, w', id, messages) && NoneLost(w, w', id, messages)
    requires w'.bus == w.bus
    ensures Conserved(w')
  {
    forall e | e in w'.log
      ensures Waits(w', e) || e in w'.bus
    {
      if Waits(w, e) {
        var m :| m in PendingOf(w, e.paymentId) && EntryOf(e.paymentId, m) == e;
        if e.paymentId == id && e !in w'.bus {
          var m' :| m' in messages && EntryOf(id, m') == EntryOf(id, m);
          assert m' in PendingOf(w', id);
        } else {
          assert e.paymentId != id ==> m in PendingOf(w', e.paymentId);
        }
      }
    }
  }

  lemma ClaimingRestamps(w: World, id: string, index: nat, token: string, until: int)
    requires PendingOk(w) && IdsOk(w) && index < |PendingOf(w, id)| && token !in w.uuids
    ensures var before := PendingOf(w, id);
            var after := before[index := Stamped(before[index], token, until)];
            && Restamped(before, after, id, w.uuids + {token})
            && forall m :: m in before ==> exists m' :: m' in after && EntryOf(id, m') == EntryOf(id, m)
  {
    var before := PendingOf(w, id);
    var stamped := Stamped(before[index], token, until);
    var after := before[index := stamped];
    assert token != "";
    assert EntryOf(id, stamped) == EntryOf(id, before[index]);
    forall m' | m' in after
      ensures StampedOk(m', w.uuids + {token}) && exists m :: m in before && EntryOf(id, m) == EntryOf(id, m')
    {
      if m' == stamped {
        assert before[index] in before;
      } else {
        assert m' in before && StampedOk(m', w.uuids);
      }
    }
    forall m | m in before
      ensures exists m' :: m' in after && EntryOf(id, m') == EntryOf(id, m)
    {
      var i :| 0 <= i < |before| && before[i] == m;
      assert after[i] in after && EntryOf(id, after[i]) == EntryOf(id, m);
    }
  }

  lemma ClaimKeepsHoldings(w: World, w': World, k: nat, id: string, m: PendingMessage, token: string, until: int)
    requires HoldingsOk(w) && PendingOk(w) && IdsOk(w) && m in PendingOf(w, id)
    requires k !in w.holdings && token !in w.uuids
    requires w'.log == w.log && w'.bus == w.bus && w'.uuids == w.uuids + {token}
    requires w'.holdings == w.holdings[k := Holding(id, Stamped(m, token, until), Held)]
    ensures HoldingsOk(w')
  {
    assert EntryOf(id, Stamped(m, token, until)) == EntryOf(id, m);
  }

  lemma ClaimKeepsOutbox(config: Config, w: World, step: Step)
    requires OutboxOk(w) && Enabled(w, step) && step.Claim?
    ensures OutboxOk(Apply(config, w, step))
  {
    Inside(w);
    var id := step.paymentId;
    var before := PendingOf(w, id);
    var w' := Apply(config, w, step);
    var after := before[step.index := Stamped(before[step.index], step.token, step.until)];
    ClaimingRestamps(w, id, step.index, step.token, step.until);
    RewritingKeepsIds(w, w', id, after);
    RewritingConserves(w, w', id, after);
    ClaimKeepsHoldings(w, w', step.k, id, before[step.index], step.token, step.until);
  }

  lemma ChangingStageKeepsHoldings(w: World, w': World, k: nat, stage: HoldStage)
    requires HoldingsOk(w) && k in w.holdings
    requires stage == Published ==> EntryOf(w.holdings[k].paymentId, w.holdings[k].message) in w'.bus
    requires w'.holdings == w.holdings[k := w.holdings[k].(stage := stage)]
    requires w'.log == w.log && w'.uuids == w.uuids && w.bus <= w'.bus
    ensures HoldingsOk(w')
  {
    forall a | a in w'.holdings
      ensures HoldingOk(w'.holdings[a], w')
    {
      assert HoldingOk(w.holdings[a], w);
    }
  }

  lemma PublishKeepsOutbox(config: Config, w: World, step: Step)
    requires OutboxOk(w) && Enabled(w, step) && step.Publish?
    ensures OutboxOk(Apply(config, w, step))
  {
    Inside(w);
    var w' := Apply(config, w, step);
    assert HoldingOk(w.holdings[step.k], w);
    SamePendingKeepsRest(w, w');
    ChangingStageKeepsHoldings(w, w', step.k, if step.sent then Published else Unpublished);
  }

  lemma SamePendingKeepsRest(w: World, w': World)
    requires IdsOk(w) && PendingOk(w) && Conserved(w)
    requires w'.payments == w.payments && w'.log == w.log && w'.uuids == w.uuids && w.bus <= w'.bus
    requires forall e :: e in w'.bus ==> e in w.log
    ensures IdsOk(w') && PendingOk(w') && Conserved(w')
  {
    assert forall id :: PendingOf(w', id) == PendingOf(w, id);
    assert forall e :: Waits(w, e) ==> Waits(w', e);
  }

  lemma AcknowledgingLosesNothing(w: World, k: nat)
    requires OutboxOk(w) && k in w.holdings && w.holdings[k].stage == Published
    ensures var held := w.holdings[k]; var before := PendingOf(w, held.paymentId);
            var after := Acknowledged(before, held.message.id, held.message.claimToken);
            && Restamped(before, after, held.paymentId, w.uuids)
            && NoneLost(w, w, held.paymentId, after)
  {
    Inside(w);
    var held := w.holdings[k];
    var id := held.paymentId;
    var before := PendingOf(w, id);
    var after := Acknowledged(before, held.message.id, held.message.claimToken);
    AcknowledgingKeepsIdsDistinct(before, held.message.id, held.message.claimToken);
    forall m | m in before
      ensures EntryOf(id, m) in w.bus || exists m' :: m' in after && EntryOf(id, m') == EntryOf(id, m)
    {
      if m in after {
        assert EntryOf(id, m) == EntryOf(id, m);
      } else {
        assert EntryOf(id, m) in w.log && EntryOf(id, held.message) in w.log;
        assert EntryOf(id, m).id == EntryOf(id, held.message).id;
      }
    }
  }

  lemma LettingGoRewrites(w: World, w': World, id: string, messages: seq<PendingMessage>)
    requires w'.payments == WithPending(w, id, messages).payments && (id !in w.payments ==> messages == [])
    requires w'.log == w.log && w'.uuids == w.uuids
    ensures Rewritten(w, w', id, messages)
  {
  }

  lemma LettingGoKeepsOutbox(w: World, w': World, k: nat, messages: seq<PendingMessage>)
    requires OutboxOk(w) && k in w.holdings && (w.holdings[k].paymentId !in w.payments ==> messages == [])
    requires w'.payments == WithPending(w, w.holdings[k].paymentId, messages).payments
    requires w'.holdings == w.holdings[k := w.holdings[k].(stage := Dropped)]
    requires w'.log == w.log && w'.uuids == w.uuids && w'.bus == w.bus
    requires Restamped(PendingOf(w, w.holdings[k].paymentId), messages, w.holdings[k].paymentId, w.uuids)
    requires NoneLost(w, w, w.holdings[k].paymentId, messages)
    ensures OutboxOk(w')
  {
    Inside(w);
    var id := w.holdings[k].paymentId;
    LettingGoRewrites(w, w', id, messages);
    RewritingKeepsIds(w, w', id, messages);
    RewritingConserves(w, w', id, messages);
    ChangingStageKeepsHoldings(w, w', k, Dropped);
  }

  lemma AcknowledgeKeepsOutbox(config: Config, w: World, step: Step)
    requires OutboxOk(w) && Enabled(w, step) && step.Acknowledge?
    ensures OutboxOk(Apply(config, w, step))
  {
    var held := w.holdings[step.k];
    AcknowledgingLosesNothing(w, step.k);
    LettingGoKeepsOutbox(w, Apply(config, w, step), step.k,
                         Acknowledged(PendingOf(w, held.paymentId), held.message.id, held.message.claimToken));
  }

  lemma RetryingRestamps(w: World, id: string, mid: string, token: string, next: int, attempts: nat)
    requires OutboxOk(w)
    ensures var before := PendingOf(w, id); var after := Retried(before, mid, token, next, attempts);
            && Restamped(before, after, id, w.uuids) && NoneLost(w, w, id, after)
  {
    var before := PendingOf(w, id);
    var after := Retried(before, mid, token, next, attempts);
    Inside(w);
    forall i | 0 <= i < |before|
      ensures EntryOf(id, after[i]) == EntryOf(id, before[i]) && StampedOk(after[i], w.uuids)
    {
      RetryingPointwise(before, mid, token, next, attempts, i);
      assert before[i] in before;
    }
    forall i, j | 0 <= i < j < |after|
      ensures after[i].id != after[j].id
    {
      assert after[i].id == EntryOf(id, after[i]).id && after[j].id == EntryOf(id, after[j]).id;
    }
    forall m' | m' in after
      ensures StampedOk(m', w.uuids) && exists m :: m in before && EntryOf(id, m) == EntryOf(id, m')
    {
      var i :| 0 <= i < |after| && after[i] == m';
      assert before[i] in before;
    }
    forall m | m in before
      ensures exists m' :: m' in after && EntryOf(id, m') == EntryOf(id, m)
    {
      var i :| 0 <= i < |before| && before[i] == m;
      assert after[i] in after;
    }
  }

  lemma RetryKeepsOutbox(config: Config, w: World, step: Step)
    requires OutboxOk(w) && Enabled(w, step) && step.RetryLater?
    ensures OutboxOk(Apply(config, w, step))
  {
    var held := w.holdings[step.k];
    RetryingRestamps(w, held.paymentId, held.message.id, held.message.claimToken, step.nextAttemptAt,
                     held.message.attempts + 1);
    LettingGoKeepsOutbox(w, Apply(config, w, step), step.k,
                         Retried(PendingOf(w, held.paymentId), held.message.id, held.message.claimToken,
                                 step.nextAttemptAt, held.message.attempts + 1));
  }

  lemma StepKeepsOutbox(config: Config, w: World, step: Step)
    requires Ledger.Inv(w) && OutboxOk(w) && Enabled(w, step)
    ensures OutboxOk(Apply(config, w, step))
  {
    if step.Claim? {
      ClaimKeepsOutbox(config, w, step);
    } else if step.Publish? {
      PublishKeepsOutbox(config, w, step);
    } else if step.Acknowledge? {
      AcknowledgeKeepsOutbox(config, w, step);
    } else if step.RetryLater? {
      RetryKeepsOutbox(config, w, step);
    } else if step.Tick? {
      TickKeepsOutbox(w, step.now);
    } else {
      HandlersOnlyEnqueue(config, w, step);
      EnqueuingKeepsOutbox(w, Apply(config, w, step));
    }
  }

  lemma TickKeepsOutbox(w: World, now: int)
    requires OutboxOk(w)
    ensures OutboxOk(w.(clock := now))
  {
    Inside(w);
    SamePendingKeepsRest(w, w.(clock := now));
    assert forall h :: HoldingOk(h, w) ==> HoldingOk(h, w.(clock := now));
  }

  // --- Runs ------------------------------------------------------------------------------

  lemma NextKeepsOutbox(config: Config, w: World, w': World)
    requires Ledger.Inv(w) && OutboxOk(w) && Next(config, w, w')
    ensures OutboxOk(w') && w.bus <= w'.bus
  {
    var step :| Enabled(w, step) && w' == Apply(config, w, step);
    StepKeepsOutbox(config, w, step);
    TheBusOnlyGrows(config, w, step);
  }

  lemma TheBusOnlyGrows(config: Config, w: World, step: Step)
    requires Ledger.Inv(w) && Enabled(w, step)
    ensures w.bus <= Apply(config, w, step).bus
  {
    if !OfPublisher(step) {
      HandlersOnlyEnqueue(config, w, step);
    }
  }

  lemma {:induction false} ReachedOutboxesAreOk(config: Config, run: seq<World>, i: nat)
    requires IsRun(config, run) && i < |run|
    ensures OutboxOk(run[i])
  {
    if i == 0 {
      OutboxIsOkAtFirst();
    } else {
      ReachedOutboxesAreOk(config, run, i - 1);
      ReachedWorldsAreOk(config, run, i - 1);
      assert Follows(config, run[i - 1], run[i]);
      assert Next(config, run[i - 1], run[i]);
      NextKeepsOutbox(config, run[i - 1], run[i]);
    }
  }

  /**
   Conservation: whatever publishers do, and wherever they stop, every message ever enqueued is
   still pending in its document or has been published, and only such messages are published.
   */
  lemma NothingEnqueuedIsLost(config: Config, run: seq<World>, i: nat, e: Entry)
    requires IsRun(config, run) && i < |run|
    ensures e in run[i].log <==> (e in run[i].bus || Waits(run[i], e))
  {
    ReachedOutboxesAreOk(config, run, i);
    Inside(run[i]);
    if Waits(run[i], e) {
      var m :| m in PendingOf(run[i], e.paymentId) && EntryOf(e.paymentId, m) == e;
      assert EntryOf(e.paymentId, m) in run[i].log;
    }
  }

  // --- Stale holders ---------------------------------------------------------------------

  /** No message in the outbox is the holder's any more. */
  ghost predicate NothingIsLeft(w: World, k: nat)
    requires k in w.holdings
  {
    forall m :: m in PendingOf(w, w.holdings[k].paymentId) ==>
      !Carries(m, w.holdings[k].message.id, w.holdings[k].message.claimToken)
  }

  /** NothingIsLeft, for proofs that need not look inside it. */
  ghost predicate IsStale(w: World, k: nat) {
    k in w.holdings && forall h :: h == k ==> NothingIsLeft(w, h)
  }

  /** A message of the new outbox that is not in the old one has no token, or a new one. */
  ghost predicate NoOldTokens(w: World, w': World) {
    forall id, m :: m in PendingOf(w', id) ==> m in PendingOf(w, id) || m.claimToken == "" || m.claimToken !in w.uuids
  }

  lemma EnqueuingGivesNoTokens(w: World, w': World)
    requires OnlyEnqueues(w, w')
    ensures NoOldTokens(w, w') && w'.holdings == w.holdings
  {
  }

  lemma RetryingGivesNoTokens(messages: seq<PendingMessage>, id: string, token: string, next: int, attempts: nat,
                              m: PendingMessage)
    requires m in Retried(messages, id, token, next, attempts)
    ensures m in messages || m.claimToken == ""
  {
    var i :| 0 <= i < |messages| && Retried(messages, id, token, next, attempts)[i] == m;
    RetryingPointwise(messages, id, token, next, attempts, i);
  }

  lemma ClaimingGivesNoOldTokens(w: World, k: nat, paymentId: string, index: nat, token: string, until: int)
    requires paymentId in w.payments && index < |w.payments[paymentId].pendingMessages| && token !in w.uuids
    ensures NoOldTokens(w, Claimed(w, k, paymentId, index, token, until))
  {
  }

  lemma AcknowledgingGivesNoOldTokens(w: World, k: nat)
    requires k in w.holdings
    ensures NoOldTokens(w, AcknowledgedWorld(w, k))
  {
  }

  lemma RetryingGivesNoOldTokens(w: World, k: nat, nextAttemptAt: int)
    requires k in w.holdings
    ensures NoOldTokens(w, RetriedWorld(w, k, nextAttemptAt))
  {
    var held := w.holdings[k];
    forall id, m | m in PendingOf(RetriedWorld(w, k, nextAttemptAt), id)
      ensures m in PendingOf(w, id) || m.claimToken == ""
    {
      if id == held.paymentId {
        RetryingGivesNoTokens(PendingOf(w, id), held.message.id, held.message.claimToken, nextAttemptAt,
                              held.message.attempts + 1, m);
      }
    }
  }

  lemma PublishersGiveNoOldTokens(config: Config, w: World, step: Step)
    requires Enabled(w, step) && OfPublisher(step)
    ensures NoOldTokens(w, Apply(config, w, step))
  {
    if step.Claim? {
      ClaimingGivesNoOldTokens(w, step.k, step.paymentId, step.index, step.token, step.until);
    } else if step.Acknowledge? {
      AcknowledgingGivesNoOldTokens(w, step.k);
    } else if step.RetryLater? {
      RetryingGivesNoOldTokens(w, step.k, step.nextAttemptAt);
    }
  }

  /** Holdings keep their message. */
  lemma HoldingsStay(config: Config, w: World, step: Step, k: nat)
    requires Ledger.Inv(w) && Enabled(w, step) && k in w.holdings
    ensures var w' := Apply(config, w, step);
            && k in w'.holdings
            && w'.holdings[k].paymentId == w.holdings[k].paymentId && w'.holdings[k].message == w.holdings[k].message
  {
    if !OfPublisher(step) {
      HandlersOnlyEnqueue(config, w, step);
    }
  }

  lemma NextKeepsStale(config: Config, w: World, w': World, k: nat)
    requires Ledger.Inv(w) && OutboxOk(w) && Next(config, w, w') && IsStale(w, k)
    ensures IsStale(w', k)
  {
    var step :| Enabled(w, step) && w' == Apply(config, w, step);
    HoldingsStay(config, w, step, k);
    assert NoOldTokens(w, w') by {
      if OfPublisher(step) {
        PublishersGiveNoOldTokens(config, w, step);
      } else {
        HandlersOnlyEnqueue(config, w, step);
        EnqueuingGivesNoTokens(w, w');
      }
    }
    assert HoldingOk(w.holdings[k], w) by {
      Inside(w);
    }
    assert NothingIsLeft(w, k);
    assert NothingIsLeft(w', k);
  }

  lemma StaleGoesOn(config: Config, run: seq<World>, i: nat, k: nat)
    requires IsRun(config, run) && i + 1 < |run| && IsStale(run[i], k)
    ensures IsStale(run[i + 1], k)
  {
    var w, w' := run[i], run[i + 1];
    assert OutboxOk(w) by {
      ReachedOutboxesAreOk(config, run, i);
    }
    assert Ledger.Inv(w) by {
      ReachedWorldsAreOk(config, run, i);
    }
    assert Next(config, w, w') by {
      assert Follows(config, w, w');
    }
    NextKeepsStale(config, w, w', k);
  }

  lemma {:induction false} StaleHoldersStayStale(config: Config, run: seq<World>, i: nat, j: nat, k: nat)
    requires IsRun(config, run) && i <= j < |run| && IsStale(run[i], k)
    ensures IsStale(run[j], k)
  {
    if i < j {
      StaleHoldersStayStale(config, run, i, j - 1, k);
      StaleGoesOn(config, run, j - 1, k);
    }
  }

  lemma StaleOutboxStays(w: World, k: nat, nextAttemptAt: int)
    requires IsStale(w, k)
    ensures AcknowledgedWorld(w, k).payments == w.payments && RetriedWorld(w, k, nextAttemptAt).payments == w.payments
  {
    assert NothingIsLeft(w, k);
    var held := w.holdings[k];
    StaleTokensChangeNothing(PendingOf(w, held.paymentId), held.message.id, held.message.claimToken, nextAttemptAt,
                             held.message.attempts + 1);
  }

  lemma StaleNowChangesNothing(config: Config, w: World, k: nat, nextAttemptAt: int)
    requires IsStale(w, k)
    ensures Enabled(w, Acknowledge(k)) ==> Apply(config, w, Acknowledge(k)).payments == w.payments
    ensures Enabled(w, RetryLater(k, nextAttemptAt)) ==> Apply(config, w, RetryLater(k, nextAttemptAt)).payments == w.payments
  {
    StaleOutboxStays(w, k, nextAttemptAt);
  }

  /**
   Once the outbox has no message with its token, a holder neither removes nor postpones anything,
   at any later time of the run.
   */
  lemma StaleHoldersChangeNothing(config: Config, run: seq<World>, i: nat, j: nat, k: nat, nextAttemptAt: int)
    requires IsRun(config, run) && i <= j < |run| && IsStale(run[i], k)
    ensures Enabled(run[j], Acknowledge(k)) ==> Apply(config, run[j], Acknowledge(k)).payments == run[j].payments
    ensures Enabled(run[j], RetryLater(k, nextAttemptAt)) ==>
              Apply(config, run[j], RetryLater(k, nextAttemptAt)).payments == run[j].payments
  {
    StaleHoldersStayStale(config, run, i, j, k);
    StaleNowChangesNothing(config, run[j], k, nextAttemptAt);
  }

  /** A holder is stale from the moment that somebody else claims its message. */
  lemma TakenOverHoldersAreStale(config: Config, run: seq<World>, i: nat, k: nat, step: Step)
    requires IsRun(config, run) && i < |run| && k in run[i].holdings && step.Claim? && Enabled(run[i], step)
    requires step.paymentId == run[i].holdings[k].paymentId
    requires PendingOf(run[i], step.paymentId)[step.index].id == run[i].holdings[k].message.id
    ensures IsStale(Apply(config, run[i], step), k)
  {
    var w := run[i];
    var before := PendingOf(w, step.paymentId);
    ReachedOutboxesAreOk(config, run, i);
    assert DistinctIds(before) && HoldingOk(w.holdings[k], w) by {
      Inside(w);
    }
    assert PendingOf(Apply(config, w, step), step.paymentId)
        == before[step.index := Stamped(before[step.index], step.token, step.until)];
    assert NothingIsLeft(Apply(config, w, step), k);
  }
}
