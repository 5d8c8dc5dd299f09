/**
 The relay's tick and the webhook handler's registration, over the receipt store.
 */
module Relay {
  import opened Wrappers
  import opened Selection
  import opened ReceiptStore
  import opened WebhookHandler
  import opened Retry
  import opened Uuids

  datatype RelayConfig = RelayConfig(lease: int, batchSize: nat, publishDelay: int, publishBackoff: int)

  /** What the publisher answers to the n-th message of a tick, and what the clock says then. */
  datatype Surroundings = Surroundings(ready: bool, now: int, publishes: nat -> bool, clock: nat -> int, skipped: set<string>)

  /** The keys that were sent among the first n. */
  function SentAmong(keys: seq<string>, publishes: nat -> bool, n: nat): seq<string>
    requires n <= |keys|
  {
    if n == 0 then []
    else SentAmong(keys, publishes, n - 1) + if publishes(n - 1) then [keys[n - 1]] else []
  }

  /** The row of the n-th claimed receipt after the tick has dealt with it. */
  function Relayed(receipt: Receipt, config: RelayConfig, surroundings: Surroundings, n: nat): Receipt {
    if surroundings.publishes(n) then
      receipt.(publishStatus := PUBLISHED, lockedBy := None, lockedUntil := None)
    else
      receipt.(publishStatus := PENDING, attempts := receipt.attempts + 1, lockedBy := None, lockedUntil := None,
               nextAttemptAt := surroundings.clock(n)
                                + Delay(receipt.attempts + 1, config.publishDelay, config.publishBackoff))
  }

  /** The first n of the keys are dealt with, the others are in flight, and no other row has changed. */
  ghost predicate DealtWith(before: Receipts, after: Receipts, keys: seq<string>, n: nat, owner: string, until: int,
                            config: RelayConfig, surroundings: Surroundings)
  {
    && after.Keys == before.Keys
    && (forall i :: 0 <= i < |keys| ==>
          && keys[i] in before
          && after[keys[i]] == (if i < n then Relayed(before[keys[i]], config, surroundings, i)
                                else InFlight(before[keys[i]], owner, until)))
    && forall key :: key in before && key !in keys ==> after[key] == before[key]
  }

  /** DealtWith, for proofs that need not look inside it. */
  ghost predicate IsDealtWith(before: Receipts, after: Receipts, keys: seq<string>, n: nat, owner: string, until: int,
                              config: RelayConfig, surroundings: Surroundings)
  {
    forall rows :: rows == after ==> DealtWith(before, rows, keys, n, owner, until, config, surroundings)
  }

  /** What the store is told of the n-th key. */
  function Told(rows: Receipts, keys: seq<string>, n: nat, owner: string, config: RelayConfig, surroundings: Surroundings): Receipts
    requires n < |keys| && keys[n] in rows
  {
    if surroundings.publishes(n) then MarkedPublished(rows, keys[n], owner)
    else Rescheduled(rows, keys[n], owner,
                     surroundings.clock(n)
                     + Delay(rows[keys[n]].attempts + 1, config.publishDelay, config.publishBackoff))
  }

  ghost predicate Distinct(keys: seq<string>) {
    forall i, j :: 0 <= i < j < |keys| ==> keys[i] != keys[j]
  }

  lemma ClaimedAreInFlight(before: Receipts, keys: seq<string>, owner: string, until: int, config: RelayConfig,
                           surroundings: Surroundings)
    requires Distinct(keys) && forall i :: 0 <= i < |keys| ==> keys[i] in before
    ensures IsDealtWith(before, ClaimedBy(before, SetOf(keys), owner, until), keys, 0, owner, until, config, surroundings)
  {
  }

  lemma OneMoreIsDealtWith(before: Receipts, rows: Receipts, keys: seq<string>, n: nat, owner: string, until: int,
                           config: RelayConfig, surroundings: Surroundings)
    requires n < |keys| && Distinct(keys) && IsDealtWith(before, rows, keys, n, owner, until, config, surroundings)
    ensures keys[n] in rows
    ensures IsDealtWith(before, Told(rows, keys, n, owner, config, surroundings), keys, n + 1, owner, until, config,
                        surroundings)
  {
    assert DealtWith(before, rows, keys, n, owner, until, config, surroundings);
    var after := Told(rows, keys, n, owner, config, surroundings);
    assert OwnedBy(rows, keys[n], owner) && after.Keys == before.Keys;
    assert after[keys[n]] == Relayed(before[keys[n]], config, surroundings, n);
    forall i | 0 <= i < |keys|
      ensures keys[i] in before
      ensures after[keys[i]] == (if i < n + 1 then Relayed(before[keys[i]], config, surroundings, i)
                                 else InFlight(before[keys[i]], owner, until))
    {
      assert i != n ==> after[keys[i]] == rows[keys[i]];
    }
    assert DealtWith(before, after, keys, n + 1, owner, until, config, surroundings);
  }

  lemma AllAreDealtWith(before: Receipts, rows: Receipts, keys: seq<string>, owner: string, until: int,
                        config: RelayConfig, surroundings: Surroundings)
    requires IsDealtWith(before, rows, keys, |keys|, owner, until, config, surroundings)
    ensures DealtWith(before, rows, keys, |keys|, "", 0, config, surroundings)
  {
    assert DealtWith(before, rows, keys, |keys|, owner, until, config, surroundings);
  }

  class Relay {
    const store: ReceiptStore
    const uuids: UuidSource
    const config: RelayConfig

    constructor (store: ReceiptStore, uuids: UuidSource, config: RelayConfig)
      ensures this.store == store && this.uuids == uuids && this.config == config
    {
      this.store := store;
      this.uuids := uuids;
      this.config := config;
    }

    /**
     One tick: of the claimable receipts the oldest are claimed, each is published once, and each
     ends up published or waiting for its next attempt; nothing else changes.
     */
    method Tick(surroundings: Surroundings) returns (keys: seq<string>, sent: seq<string>)
      requires uuids.Valid()
      modifies store, uuids
      ensures uuids.Valid()
      ensures !surroundings.ready ==> keys == sent == [] && store.receipts == old(store.receipts)
      ensures surroundings.ready ==>
                var candidates := Candidates(old(store.receipts), surroundings.skipped, surroundings.now);
                && |keys| == Min(config.batchSize, |candidates|)
                && Selected(CreationTimes(old(store.receipts)), candidates, keys)
                && sent == SentAmong(keys, surroundings.publishes, |keys|)
                && DealtWith(old(store.receipts), store.receipts, keys, |keys|, "", 0, config, surroundings)
    {
      keys, sent := [], [];
      if !surroundings.ready {
        return;
      }
      ghost var before := store.receipts;
      var id := uuids.NewString();
      var owner := "relay:" + id;
      var until := surroundings.now + config.lease;
      keys := store.ClaimPending(owner, until, config.batchSize, surroundings.skipped, surroundings.now);
      ClaimedAreInFlight(before, keys, owner, until, config, surroundings);
      sent := RelayAll(keys, owner, surroundings, before, until);
      AllAreDealtWith(before, store.receipts, keys, owner, until, config, surroundings);
    }

    /** The loop over the claimed receipts. */
    method RelayAll(keys: seq<string>, owner: string, surroundings: Surroundings, ghost before: Receipts, ghost until: int)
      returns (sent: seq<string>)
      requires Distinct(keys) && IsDealtWith(before, store.receipts, keys, 0, owner, until, config, surroundings)
      modifies store
      ensures IsDealtWith(before, store.receipts, keys, |keys|, owner, until, config, surroundings)
      ensures sent == SentAmong(keys, surroundings.publishes, |keys|)
    {
      sent := [];
      for n := 0 to |keys|
        invariant IsDealtWith(before, store.receipts, keys, n, owner, until, config, surroundings)
        invariant sent == SentAmong(keys, surroundings.publishes, n)
      {
        OneMoreIsDealtWith(before, store.receipts, keys, n, owner, until, config, surroundings);
        RelayOne(keys, n, owner, surroundings);
        if surroundings.publishes(n) {
          sent := sent + [keys[n]];
        }
      }
    }

    /** The body of the loop over the claimed receipts. */
    method RelayOne(keys: seq<string>, n: nat, owner: string, surroundings: Surroundings)
      requires n < |keys| && keys[n] in store.receipts
      modifies store
      ensures store.receipts == Told(old(store.receipts), keys, n, owner, config, surroundings)
    {
      var receipt := store.receipts[keys[n]];
      if !surroundings.publishes(n) {
        var pause := BackoffDelay(receipt.attempts + 1, config.publishDelay, config.publishBackoff);
        store.RetryPending(keys[n], owner, surroundings.clock(n) + pause);
        return;
      }
      store.MarkPublished(keys[n], owner);
    }
  }

  /** The handler after the signature was found valid; a refusal of the store is a bad gateway. */
  method HandleWebhook(store: ReceiptStore, payload: WebhookPayload, now: int) returns (decision: Decision, answer: Option<Answer>)
    modifies store
    ensures decision == Decide(payload) && (answer.Some? <==> decision.Recorded?)
    ensures !decision.Recorded? ==> store.receipts == old(store.receipts)
    ensures decision.Recorded? ==>
              var key := decision.registration.dedupeKey;
              && answer == Some(AnswerTo(RegisterResult(old(store.receipts), decision.registration)))
              && (answer == Some(AcceptedAnswer) <==>
                    key !in old(store.receipts) && !Violates(old(store.receipts), decision.registration))
              && (answer == Some(DuplicateAnswer(Replayed)) <==>
                    key in old(store.receipts) && old(store.receipts)[key].publishStatus == PUBLISHED)
              && (answer == Some(NotRecorded) ==> store.receipts == old(store.receipts))
              && store.receipts == Registered(old(store.receipts), decision.registration, now)
  {
    decision := Decide(payload);
    answer := None;
    if decision.Recorded? {
      var result := store.Register(decision.registration, now);
      answer := Some(AnswerTo(result));
    }
  }
}
