/**
 What the claim loops of both payment stores do to the outboxes, whatever order they scan in.
 */
module ClaimLoops {
  import opened Wrappers
  import opened Contracts
  import opened PaymentStore

  /** Where a message stands: in the outbox of a payment, at an index. */
  datatype Position = Position(paymentId: string, index: nat)

  datatype PendingPublish = PendingPublish(paymentId: string, message: PendingMessage)

  predicate IsPosition(payments: Payments, p: Position) {
    p.paymentId in payments && p.index < |payments[p.paymentId].pendingMessages|
  }

  function MessageAt(payments: Payments, p: Position): PendingMessage
    requires IsPosition(payments, p)
  {
    payments[p.paymentId].pendingMessages[p.index]
  }

  ghost function EligibleAt(payments: Payments, before: int): set<Position> {
    set id, i | id in payments && 0 <= i < |payments[id].pendingMessages|
                && Eligible(payments[id].pendingMessages[i], before) :: Position(id, i)
  }

  function StampAt(payments: Payments, p: Position, token: string, until: int): Payments
    requires IsPosition(payments, p)
  {
    var document := payments[p.paymentId];
    var stamped := Stamped(document.pendingMessages[p.index], token, until);
    payments[p.paymentId := document.(pendingMessages := document.pendingMessages[p.index := stamped])]
  }

  /** The same documents with outboxes of the same lengths. */
  ghost predicate SameShape(payments: Payments, payments': Payments) {
    && payments'.Keys == payments.Keys
    && forall id :: id in payments ==>
         && payments'[id] == payments[id].(pendingMessages := payments'[id].pendingMessages)
         && |payments'[id].pendingMessages| == |payments[id].pendingMessages|
  }

  /** Exactly the messages at the positions taken are stamped, each with a token of its own. */
  ghost predicate Claims(payments: Payments, payments': Payments, taken: seq<Position>,
                         result: seq<PendingPublish>, before: int, until: int) {
    && SameShape(payments, payments')
    && |taken| == |result|
    && (forall k :: 0 <= k < |taken| ==>
          && IsPosition(payments, taken[k]) && IsPosition(payments', taken[k])
          && Eligible(MessageAt(payments, taken[k]), before)
          && result[k].paymentId == taken[k].paymentId
          && result[k].message == MessageAt(payments', taken[k])
             == Stamped(MessageAt(payments, taken[k]), result[k].message.claimToken, until))
    && (forall k, l :: 0 <= k < l < |taken| ==>
          taken[k] != taken[l] && result[k].message.claimToken != result[l].message.claimToken)
    && forall p :: IsPosition(payments, p) && p !in taken ==>
         IsPosition(payments', p) && MessageAt(payments', p) == MessageAt(payments, p)
  }

  /** Claims, for proofs that need not look inside it. */
  ghost predicate HasClaimed(payments: Payments, payments': Payments, taken: seq<Position>,
                             result: seq<PendingPublish>, before: int, until: int) {
    forall t :: t == taken ==> Claims(payments, payments', t, result, before, until)
  }

  lemma NothingClaimed(payments: Payments, before: int, until: int)
    ensures HasClaimed(payments, payments, [], [], before, until)
  {
  }

  lemma ShapeIsKept(payments: Payments, payments': Payments, taken: seq<Position>, result: seq<PendingPublish>,
                    before: int, until: int)
    requires HasClaimed(payments, payments', taken, result, before, until)
    ensures |taken| == |result| && payments'.Keys == payments.Keys
    ensures forall id :: id in payments ==> |payments'[id].pendingMessages| == |payments[id].pendingMessages|
  {
    assert Claims(payments, payments', taken, result, before, until);
  }

  lemma UntakenIsUntouched(payments: Payments, payments': Payments, taken: seq<Position>, result: seq<PendingPublish>,
                           before: int, until: int, p: Position)
    requires HasClaimed(payments, payments', taken, result, before, until) && p !in taken && IsPosition(payments', p)
    ensures IsPosition(payments, p) && MessageAt(payments', p) == MessageAt(payments, p)
    ensures p in EligibleAt(payments, before) <==> Eligible(MessageAt(payments', p), before)
  {
    assert Claims(payments, payments', taken, result, before, until);
    assert IsPosition(payments, p);
  }

  lemma StampingKeepsTheRest(payments: Payments, payments': Payments, p: Position, token: string, until: int)
    requires SameShape(payments, payments') && IsPosition(payments', p)
    ensures var after := StampAt(payments', p, token, until);
            && SameShape(payments, after) && IsPosition(after, p)
            && MessageAt(after, p) == Stamped(MessageAt(payments', p), token, until)
            && forall q :: IsPosition(payments, q) && q != p ==>
                 IsPosition(after, q) && MessageAt(after, q) == MessageAt(payments', q)
  {
  }

  lemma EarlierClaimStays(payments: Payments, payments': Payments, taken: seq<Position>, result: seq<PendingPublish>,
                          before: int, until: int, p: Position, token: string, k: nat)
    requires HasClaimed(payments, payments', taken, result, before, until)
    requires IsPosition(payments', p) && p !in taken && k < |taken|
    ensures |taken| == |result|
    ensures var after := StampAt(payments', p, token, until);
            && IsPosition(payments, taken[k]) && IsPosition(after, taken[k]) && Eligible(MessageAt(payments, taken[k]), before)
            && result[k].paymentId == taken[k].paymentId
            && result[k].message == MessageAt(after, taken[k])
               == Stamped(MessageAt(payments, taken[k]), result[k].message.claimToken, until)
  {
    assert Claims(payments, payments', taken, result, before, until);
    assert taken[k] != p;
    StampingKeepsTheRest(payments, payments', p, token, until);
  }

  lemma OthersStayUntouched(payments: Payments, payments': Payments, taken: seq<Position>, result: seq<PendingPublish>,
                            before: int, until: int, p: Position, token: string, q: Position)
    requires HasClaimed(payments, payments', taken, result, before, until)
    requires IsPosition(payments', p) && IsPosition(payments, q) && q !in taken && q != p
    ensures var after := StampAt(payments', p, token, until);
            IsPosition(after, q) && MessageAt(after, q) == MessageAt(payments, q)
  {
    assert Claims(payments, payments', taken, result, before, until);
    StampingKeepsTheRest(payments, payments', p, token, until);
  }

  lemma ClaimsAreDistinct(payments: Payments, payments': Payments, taken: seq<Position>, result: seq<PendingPublish>,
                          before: int, until: int, k: nat, l: nat)
    requires HasClaimed(payments, payments', taken, result, before, until) && k < l < |taken|
    ensures |taken| == |result|
    ensures taken[k] != taken[l] && result[k].message.claimToken != result[l].message.claimToken
  {
    assert Claims(payments, payments', taken, result, before, until);
  }

  /** A message that was not taken yet is stamped with a token that was not used yet. */
  lemma OneMoreClaimed(payments: Payments, payments': Payments, taken: seq<Position>, result: seq<PendingPublish>,
                       before: int, until: int, p: Position, token: string)
    requires HasClaimed(payments, payments', taken, result, before, until)
    requires IsPosition(payments', p) && p !in taken && Eligible(MessageAt(payments', p), before)
    requires forall k :: 0 <= k < |result| ==> result[k].message.claimToken != token
    ensures HasClaimed(payments, StampAt(payments', p, token, until), taken + [p],
                       result + [PendingPublish(p.paymentId, Stamped(MessageAt(payments', p), token, until))],
                       before, until)
  {
    UntakenIsUntouched(payments, payments', taken, result, before, until, p);
    ShapeIsKept(payments, payments', taken, result, before, until);
    var after := StampAt(payments', p, token, until);
    var more := taken + [p];
    var published := result + [PendingPublish(p.paymentId, Stamped(MessageAt(payments', p), token, until))];
    assert SameShape(payments, after) by {
      assert Claims(payments, payments', taken, result, before, until);
    }
    forall k | 0 <= k < |more|
      ensures IsPosition(payments, more[k]) && IsPosition(after, more[k]) && Eligible(MessageAt(payments, more[k]), before)
      ensures published[k].paymentId == more[k].paymentId
      ensures published[k].message == MessageAt(after, more[k])
              == Stamped(MessageAt(payments, more[k]), published[k].message.claimToken, until)
    {
      if k < |taken| {
        EarlierClaimStays(payments, payments', taken, result, before, until, p, token, k);
      }
    }
    forall k, l | 0 <= k < l < |more|
      ensures more[k] != more[l] && published[k].message.claimToken != published[l].message.claimToken
    {
      if l < |taken| {
        ClaimsAreDistinct(payments, payments', taken, result, before, until, k, l);
      }
    }
    forall q | IsPosition(payments, q) && q !in more
      ensures IsPosition(after, q) && MessageAt(after, q) == MessageAt(payments, q)
    {
      assert q !in taken && q != p;
      OthersStayUntouched(payments, payments', taken, result, before, until, p, token, q);
    }
    assert Claims(payments, after, more, published, before, until);
  }

  function Elements(taken: seq<Position>): set<Position> {
    set p | p in taken
  }

  lemma {:induction false} DistinctElements(taken: seq<Position>)
    requires forall k, l :: 0 <= k < l < |taken| ==> taken[k] != taken[l]
    ensures |Elements(taken)| == |taken|
  {
    if taken != [] {
      var front := taken[..|taken| - 1];
      DistinctElements(front);
      assert Elements(taken) == Elements(front) + {taken[|taken| - 1]};
    }
  }

  lemma {:induction false} SubsetsAreSmaller(a: set<Position>, b: set<Position>)
    requires a <= b
    ensures |a| <= |b|
  {
    assert b == a + (b - a);
  }

  lemma TakenAreEligible(payments: Payments, payments': Payments, taken: seq<Position>, result: seq<PendingPublish>,
                         before: int, until: int)
    requires HasClaimed(payments, payments', taken, result, before, until)
    ensures Elements(taken) <= EligibleAt(payments, before)
    ensures |result| == |taken| == |Elements(taken)| <= |EligibleAt(payments, before)|
  {
    assert Claims(payments, payments', taken, result, before, until);
    DistinctElements(taken);
    SubsetsAreSmaller(Elements(taken), EligibleAt(payments, before));
  }

  /** A scan that stops when the limit is met, or when nothing eligible is left, has claimed the right number. */
  lemma HowManyAreClaimed(payments: Payments, payments': Payments, taken: seq<Position>, result: seq<PendingPublish>,
                          before: int, until: int, limit: nat)
    requires HasClaimed(payments, payments', taken, result, before, until)
    requires |result| == limit > 0
             || ((limit > 0 ==> |result| < limit) && forall p :: p in EligibleAt(payments, before) ==> p in taken)
    ensures |result| == if limit == 0 then |EligibleAt(payments, before)| else Min(limit, |EligibleAt(payments, before)|)
  {
    TakenAreEligible(payments, payments', taken, result, before, until);
    if forall p :: p in EligibleAt(payments, before) ==> p in taken {
      assert Elements(taken) == EligibleAt(payments, before);
    }
  }

  /** A claim that lasts: the messages taken are not eligible again, the others are as before. */
  lemma WhatIsLeft(payments: Payments, payments': Payments, taken: seq<Position>, result: seq<PendingPublish>,
                   before: int, until: int)
    requires HasClaimed(payments, payments', taken, result, before, until) && until > before
    requires forall k :: 0 <= k < |result| ==> result[k].message.claimToken != ""
    ensures EligibleAt(payments', before) == EligibleAt(payments, before) - Elements(taken)
  {
    assert Claims(payments, payments', taken, result, before, until);
    forall p
      ensures p in EligibleAt(payments', before) <==> p in EligibleAt(payments, before) && p !in taken
    {
      if IsPosition(payments, p) {
        if p in taken {
          var k :| 0 <= k < |taken| && taken[k] == p;
          assert MessageAt(payments', p) == Stamped(MessageAt(payments, p), result[k].message.claimToken, until);
          assert !Eligible(MessageAt(payments', p), before);
        } else {
          assert MessageAt(payments', p) == MessageAt(payments, p);
        }
      }
    }
  }

  /** Taking the same messages with the same tokens leaves the same store. */
  lemma ClaimsDetermineTheStore(payments: Payments, one: Payments, two: Payments, taken: seq<Position>,
                                result: seq<PendingPublish>, before: int, until: int)
    requires HasClaimed(payments, one, taken, result, before, until)
    requires HasClaimed(payments, two, taken, result, before, until)
    ensures one == two
  {
    assert Claims(payments, one, taken, result, before, until) && Claims(payments, two, taken, result, before, until);
    forall id | id in payments
      ensures one[id] == two[id]
    {
      forall i | 0 <= i < |payments[id].pendingMessages|
        ensures one[id].pendingMessages[i] == two[id].pendingMessages[i]
      {
        var p := Position(id, i);
        assert IsPosition(payments, p);
        if p in taken {
          var k :| 0 <= k < |taken| && taken[k] == p;
          assert result[k].message == MessageAt(one, p) && result[k].message == MessageAt(two, p);
        } else {
          assert MessageAt(one, p) == MessageAt(two, p);
        }
      }
      assert one[id].pendingMessages == two[id].pendingMessages;
    }
  }

  /** The messages taken are claimed one after the other, each while it is still as it was. */
  lemma NextClaim(payments: Payments, final: Payments, now: Payments, taken: seq<Position>,
                  result: seq<PendingPublish>, k: nat, before: int, until: int)
    requires HasClaimed(payments, final, taken, result, before, until) && k < |taken| == |result|
    requires HasClaimed(payments, now, taken[..k], result[..k], before, until)
    ensures IsPosition(now, taken[k]) && Eligible(MessageAt(now, taken[k]), before)
    ensures result[k] == PendingPublish(taken[k].paymentId, Stamped(MessageAt(now, taken[k]), result[k].message.claimToken, until))
    ensures HasClaimed(payments, StampAt(now, taken[k], result[k].message.claimToken, until), taken[..k + 1],
                       result[..k + 1], before, until)
  {
    assert Claims(payments, final, taken, result, before, until);
    var p := taken[k];
    ShapeIsKept(payments, now, taken[..k], result[..k], before, until);
    assert IsPosition(now, p);
    UntakenIsUntouched(payments, now, taken[..k], result[..k], before, until, p);
    OneMoreClaimed(payments, now, taken[..k], result[..k], before, until, p, result[k].message.claimToken);
    assert taken[..k + 1] == taken[..k] + [p] && result[..k + 1] == result[..k] + [result[k]];
  }
}
