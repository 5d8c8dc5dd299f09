/**
 The two claim loops agree, on every store that the payment service can reach.
 */
module ClaimAgreement {
  import opened Wrappers
  import opened Contracts
  import opened PaymentStore
  import opened ClaimLoops
  import opened MongoRepository
  import opened PaymentHistory
  import PaymentRun
  import PaymentTheorems
  import OutboxRun
  import OutboxTheorems

  /** What either loop promises of a positive limit and a claim that lasts. */
  ghost predicate Promised(payments: Payments, payments': Payments, taken: seq<Position>, result: seq<PendingPublish>,
                           before: int, until: int, limit: nat) {
    && HasClaimed(payments, payments', taken, result, before, until)
    && |result| == Min(limit, |EligibleAt(payments, before)|)
    && forall k :: 0 <= k < |result| ==> result[k].message.claimToken != ""
  }

  lemma EqualSubset(a: set<Position>, b: set<Position>)
    requires a <= b && |a| == |b|
    ensures a == b
  {
    assert b == a + (b - a) && |b| == |a| + |b - a|;
  }

  /**
   Whatever the two loops scan first, they claim equally many distinct eligible messages and leave
   equally many; if the limit does not cut them short they claim the same messages.
   */
  lemma ClaimLoopsAgree(payments: Payments, before: int, until: int, limit: nat,
                        one: Payments, takenOne: seq<Position>, resultOne: seq<PendingPublish>,
                        two: Payments, takenTwo: seq<Position>, resultTwo: seq<PendingPublish>)
    requires limit >= 1 && until > before
    requires Promised(payments, one, takenOne, resultOne, before, until, limit)
    requires Promised(payments, two, takenTwo, resultTwo, before, until, limit)
    ensures |resultOne| == |resultTwo| == |Elements(takenOne)| == |Elements(takenTwo)|
    ensures EligibleAt(one, before) == EligibleAt(payments, before) - Elements(takenOne)
    ensures EligibleAt(two, before) == EligibleAt(payments, before) - Elements(takenTwo)
    ensures |EligibleAt(one, before)| == |EligibleAt(two, before)|
    ensures limit >= |EligibleAt(payments, before)| ==>
              Elements(takenOne) == Elements(takenTwo) == EligibleAt(payments, before)
  {
    TakenAreEligible(payments, one, takenOne, resultOne, before, until);
    TakenAreEligible(payments, two, takenTwo, resultTwo, before, until);
    WhatIsLeft(payments, one, takenOne, resultOne, before, until);
    WhatIsLeft(payments, two, takenTwo, resultTwo, before, until);
    if limit >= |EligibleAt(payments, before)| {
      EqualSubset(Elements(takenOne), EligibleAt(payments, before));
      EqualSubset(Elements(takenTwo), EligibleAt(payments, before));
    }
  }

  /** In every reachable store the filter of the document store picks just the eligible messages. */
  lemma FiltersAgreeInEveryRun(config: PaymentRun.Config, run: seq<PaymentRun.World>, i: nat, before: int)
    requires PaymentTheorems.IsRun(config, run) && i < |run|
    ensures AllStamped(run[i].payments, run[i].uuids)
    ensures forall p :: IsPosition(run[i].payments, p) ==>
              (MongoRepository.Matches(MessageAt(run[i].payments, p), before) <==> p in EligibleAt(run[i].payments, before))
  {
    OutboxTheorems.ReachedOutboxesAreOk(config, run, i);
    OutboxRun.Inside(run[i]);
    forall p | IsPosition(run[i].payments, p)
      ensures WellStamped(MessageAt(run[i].payments, p)) && MessageAt(run[i].payments, p).claimToken in run[i].uuids
    {
      var m := MessageAt(run[i].payments, p);
      assert m in PaymentRun.PendingOf(run[i], p.paymentId);
      assert OutboxRun.StampedOk(m, run[i].uuids);
    }
    MatchesAreEligible(run[i].payments, before, run[i].uuids);
  }

  /**
   The document store's loop, called on the store that ends a run: the whole call is a sequence of
   claim steps of that run, one for each message claimed.
   */
  method ClaimInARun(store: Repository, config: PaymentRun.Config, ghost history: seq<PaymentRun.World>, before: int,
                     claimUntil: int, limit: nat)
    returns (result: seq<PendingPublish>, ghost longer: seq<PaymentRun.World>)
    requires store.Valid() && Runs(config, history) && claimUntil > before
    requires Last(history).payments == store.payments && Last(history).uuids <= store.uuids.issued
    modifies store, store.uuids
    ensures store.Valid() && Runs(config, longer) && history <= longer && OnlyClaims(config, longer, |history| - 1)
    ensures |longer| == |history| + |result| && |result| == Min(limit, |EligibleAt(old(store.payments), before)|)
    ensures Last(longer).payments == store.payments && Last(longer).uuids <= store.uuids.issued
    ensures Last(longer).bus == Last(history).bus
  {
    ghost var taken, holders;
    result, taken := store.ClaimPendingPublishes(before, claimUntil, limit);
    longer, holders := ClaimsAreARun(config, history, store.payments, taken, result, before, claimUntil);
  }
}
