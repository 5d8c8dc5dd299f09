/**
 Repository: the payment store as a document collection, each call one find-and-update.
 */
module MongoRepository {
  import opened Wrappers
  import opened Contracts
  import opened PaymentStore
  import opened ClaimLoops
  import opened Uuids

  /** The filter of the claim loop looks at the end of the claim only, not at the token. */
  predicate Matches(m: PendingMessage, before: int) {
    m.nextAttemptAt <= before && (m.claimedUntil.None? || m.claimedUntil.value <= before)
  }

  predicate WellStamped(m: PendingMessage) {
    m.claimToken == "" <==> m.claimedUntil == None
  }

  ghost predicate AllStamped(payments: Payments, issued: set<string>) {
    forall p :: IsPosition(payments, p) ==>
      WellStamped(MessageAt(payments, p)) && MessageAt(payments, p).claimToken in issued
  }

  lemma MatchesAreEligible(payments: Payments, before: int, issued: set<string>)
    requires AllStamped(payments, issued)
    ensures forall p :: IsPosition(payments, p) ==>
              (Matches(MessageAt(payments, p), before) <==> p in EligibleAt(payments, before))
  {
  }

  lemma StampingKeepsStamps(payments: Payments, p: Position, token: string, until: int, issued: set<string>)
    requires AllStamped(payments, issued) && IsPosition(payments, p) && token !in issued && "" in issued
    ensures AllStamped(StampAt(payments, p, token, until), issued + {token})
    ensures forall m :: m in StampAt(payments, p, token, until)[p.paymentId].pendingMessages && m.claimToken == token ==>
              m == Stamped(MessageAt(payments, p), token, until)
    ensures Stamped(MessageAt(payments, p), token, until) in StampAt(payments, p, token, until)[p.paymentId].pendingMessages
  {
    var after := StampAt(payments, p, token, until);
    assert token != "";
    forall q | IsPosition(after, q)
      ensures WellStamped(MessageAt(after, q)) && MessageAt(after, q).claimToken in issued + {token}
      ensures MessageAt(after, q).claimToken == token ==> q == p
    {
      assert IsPosition(payments, q);
    }
    var messages := after[p.paymentId].pendingMessages;
    assert messages[p.index] == Stamped(MessageAt(payments, p), token, until);
    forall m | m in messages && m.claimToken == token
      ensures m == Stamped(MessageAt(payments, p), token, until)
    {
      var i :| 0 <= i < |messages| && messages[i] == m;
      assert IsPosition(after, Position(p.paymentId, i));
      assert MessageAt(after, Position(p.paymentId, i)) == m;
    }
  }

  /** The state of the loop: claims that last are as specified, claims that end at once leave some eligible. */
  ghost predicate LoopOk(first: Payments, payments: Payments, taken: seq<Position>, result: seq<PendingPublish>,
                         before: int, until: int) {
    if until > before then
      && HasClaimed(first, payments, taken, result, before, until)
      && forall k :: 0 <= k < |result| ==> result[k].message.claimToken != ""
    else if result == [] then payments == first
    else EligibleAt(payments, before) != {} && EligibleAt(first, before) != {}
  }

  lemma LoopTakesOneMore(first: Payments, payments: Payments, taken: seq<Position>, result: seq<PendingPublish>,
                         before: int, until: int, p: Position, token: string, issued: set<string>)
    requires LoopOk(first, payments, taken, result, before, until)
    requires AllStamped(payments, issued) && IsPosition(payments, p) && Matches(MessageAt(payments, p), before)
    requires token !in issued && "" in issued && forall k :: 0 <= k < |result| ==> result[k].message.claimToken in issued
    ensures LoopOk(first, StampAt(payments, p, token, until), taken + [p],
                   result + [PendingPublish(p.paymentId, Stamped(MessageAt(payments, p), token, until))], before, until)
  {
    MatchesAreEligible(payments, before, issued);
    assert p in EligibleAt(payments, before) && token != "";
    if until > before {
      WhatIsLeft(first, payments, taken, result, before, until);
      OneMoreClaimed(first, payments, taken, result, before, until, p, token);
    } else {
      assert p in EligibleAt(StampAt(payments, p, token, until), before);
    }
  }

  lemma NothingBesides(whole: set<Position>, part: set<Position>)
    requires part <= whole && whole - part == {}
    ensures whole == part
  {
    assert whole == part + (whole - part);
  }

  lemma LastingLoopEnds(first: Payments, payments: Payments, taken: seq<Position>, result: seq<PendingPublish>,
                        before: int, until: int, limit: nat, issued: set<string>)
    requires LoopOk(first, payments, taken, result, before, until) && AllStamped(payments, issued) && until > before
    requires |result| == limit
             || (|result| < limit && forall p :: IsPosition(payments, p) ==> !Matches(MessageAt(payments, p), before))
    ensures |result| == Min(limit, |EligibleAt(first, before)|)
  {
    TakenAreEligible(first, payments, taken, result, before, until);
    if |result| < limit {
      MatchesAreEligible(payments, before, issued);
      forall p
        ensures p !in EligibleAt(payments, before)
      {
        assert p in EligibleAt(payments, before) ==> IsPosition(payments, p);
      }
      assert EligibleAt(payments, before) == {};
      WhatIsLeft(first, payments, taken, result, before, until);
      NothingBesides(EligibleAt(first, before), Elements(taken));
    }
  }

  lemma LoopEnds(first: Payments, payments: Payments, taken: seq<Position>, result: seq<PendingPublish>,
                 before: int, until: int, limit: nat, issued: set<string>)
    requires LoopOk(first, payments, taken, result, before, until) && AllStamped(payments, issued)
    requires |result| == limit
             || (|result| < limit && forall p :: IsPosition(payments, p) ==> !Matches(MessageAt(payments, p), before))
    ensures until > before ==> |result| == Min(limit, |EligibleAt(first, before)|)
    ensures until <= before ==> |result| == if EligibleAt(first, before) == {} then 0 else limit
  {
    if until > before {
      LastingLoopEnds(first, payments, taken, result, before, until, limit, issued);
    } else if limit == 0 {
      assert result == [];
    } else {
      MatchesAreEligible(payments, before, issued);
    }
  }

  /** The first element that a positional update of the filter touches. */
  method FirstMatch(messages: seq<PendingMessage>, before: int) returns (index: Option<nat>)
    ensures index.None? ==> forall m :: m in messages ==> !Matches(m, before)
    ensures index.Some? ==>
              && index.value < |messages| && Matches(messages[index.value], before)
              && forall m :: m in messages[..index.value] ==> !Matches(m, before)
  {
    for i := 0 to |messages|
      invariant forall m :: m in messages[..i] ==> !Matches(m, before)
    {
      if Matches(messages[i], before) {
        return Some(i);
      }
      assert messages[..i + 1] == messages[..i] + [messages[i]];
    }
    return None;
  }

  class Repository {
    var payments: Payments
    const uuids: UuidSource

    constructor (uuids: UuidSource)
      ensures payments == map[] && this.uuids == uuids
    {
      payments := map[];
      this.uuids := uuids;
    }

    ghost predicate Valid()
      reads this, uuids
    {
      uuids.Valid() && AllStamped(payments, uuids.issued)
    }

    /** The collection has unique indexes on the key and on the reference. */
    method Create(p: Payment) returns (created: bool)
      requires Valid() && (forall m :: m in p.pendingMessages ==> WellStamped(m) && m.claimToken in uuids.issued)
      modifies `payments
      ensures Valid()
      ensures created == (p.id !in old(payments)
                          && forall id :: id in old(payments) ==>
                               && old(payments)[id].idempotencyKey != p.idempotencyKey
                               && old(payments)[id].paymentReference != p.paymentReference)
      ensures payments == if created then old(payments)[p.id := p] else old(payments)
    {
      created := p.id !in payments
                 && forall id | id in payments ::
                      payments[id].idempotencyKey != p.idempotencyKey && payments[id].paymentReference != p.paymentReference;
      if created {
        payments := payments[p.id := p];
        assert forall q :: IsPosition(payments, q) && q.paymentId != p.id ==> IsPosition(old(payments), q);
      }
    }

    /** The filter of a find-and-update: some document has a message that matches. */
    method FindMatch(before: int) returns (found: Option<Position>)
      ensures found.None? <==> forall p :: IsPosition(payments, p) ==> !Matches(MessageAt(payments, p), before)
      ensures found.Some? ==> IsPosition(payments, found.value) && Matches(MessageAt(payments, found.value), before)
    {
      var remaining := payments.Keys;
      while remaining != {}
        invariant remaining <= payments.Keys
        invariant forall p :: IsPosition(payments, p) && p.paymentId !in remaining ==> !Matches(MessageAt(payments, p), before)
        decreases |remaining|
      {
        var id :| id in remaining;
        var index := FirstMatch(payments[id].pendingMessages, before);
        if index.Some? {
          assert IsPosition(payments, Position(id, index.value));
          return Some(Position(id, index.value));
        }
        remaining := remaining - {id};
      }
      return None;
    }

    /** The loop over the updated document: the message that carries the new token. */
    method FindStamped(id: string, claimToken: string) returns (found: Option<PendingMessage>)
      requires id in payments
      ensures found.None? ==> forall m :: m in payments[id].pendingMessages ==> m.claimToken != claimToken
      ensures found.Some? ==> found.value in payments[id].pendingMessages && found.value.claimToken == claimToken
    {
      var messages := payments[id].pendingMessages;
      for i := 0 to |messages|
        invariant forall m :: m in messages[..i] ==> m.claimToken != claimToken
      {
        if messages[i].claimToken == claimToken {
          return Some(messages[i]);
        }
        assert messages[..i + 1] == messages[..i] + [messages[i]];
      }
      return None;
    }

    /**
     Claims one message at a time.  Claims that last take min(limit, eligible) distinct messages;
     claims that end at once are taken again and again until the limit is met.
     */
    method ClaimPendingPublishes(before: int, claimUntil: int, limit: nat)
      returns (result: seq<PendingPublish>, ghost taken: seq<Position>)
      requires Valid()
      modifies `payments, uuids
      ensures Valid() && old(uuids.issued) <= uuids.issued
      ensures forall k :: 0 <= k < |result| ==> result[k].message.claimToken in uuids.issued - old(uuids.issued)
      ensures claimUntil > before ==>
                && HasClaimed(old(payments), payments, taken, result, before, claimUntil)
                && |result| == Min(limit, |EligibleAt(old(payments), before)|)
      ensures claimUntil <= before ==> |result| == if EligibleAt(old(payments), before) == {} then 0 else limit
    {
      result, taken := [], [];
      NothingClaimed(payments, before, claimUntil);
      while |result| < limit
        invariant Valid() && old(uuids.issued) <= uuids.issued
        invariant forall k :: 0 <= k < |result| ==> result[k].message.claimToken in uuids.issued - old(uuids.issued)
        invariant |result| <= limit
        invariant LoopOk(old(payments), payments, taken, result, before, claimUntil)
      {
        ghost var issued := uuids.issued;
        var claimToken := uuids.NewString();
        var found := FindMatch(before);
        if found.None? {
          break;
        }
        LoopTakesOneMore(old(payments), payments, taken, result, before, claimUntil, found.value, claimToken, issued);
        var publish := UpdateOne(found.value, claimUntil, claimToken, issued);
        taken := taken + [found.value];
        if publish.Some? {
          result := result + [publish.value];
        }
      }
      LoopEnds(old(payments), payments, taken, result, before, claimUntil, limit, uuids.issued);
    }

    /** The update of one find-and-update, and the message that carries the new token afterwards. */
    method UpdateOne(p: Position, claimUntil: int, claimToken: string, ghost issued: set<string>)
      returns (publish: Option<PendingPublish>)
      requires uuids.Valid() && "" in issued && claimToken !in issued && uuids.issued == issued + {claimToken}
      requires AllStamped(payments, issued) && IsPosition(payments, p)
      modifies `payments
      ensures Valid() && payments == StampAt(old(payments), p, claimToken, claimUntil)
      ensures publish == Some(PendingPublish(p.paymentId, Stamped(MessageAt(old(payments), p), claimToken, claimUntil)))
    {
      StampingKeepsStamps(payments, p, claimToken, claimUntil, issued);
      payments := StampAt(payments, p, claimToken, claimUntil);
      var message := FindStamped(p.paymentId, claimToken);
      if message.Some? {
        return Some(PendingPublish(p.paymentId, message.value));
      }
      return None;
    }
  }
}
