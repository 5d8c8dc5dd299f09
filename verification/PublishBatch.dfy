/**
 What one call of PublishPending leaves in the outbox: whatever the broker took is gone, whatever it
 did not take waits for its next attempt, and everything else is as it was.
 */
module PublishBatch {
  import opened Wrappers
  import opened PaymentStore
  import opened PaymentRun
  import opened OutboxRun
  import opened PaymentTheorems
  import OutboxTheorems
  import opened ClaimLoops
  import opened Retry

  /** What the clock says and the broker answers during one call of PublishPending. */
  datatype PublisherSurroundings = PublisherSurroundings(now: int, lease: int, publishes: nat -> bool, clock: nat -> int,
                                                         delay: int, backoff: int)

  function NextAttemptAt(message: PendingMessage, s: PublisherSurroundings, n: nat): int {
    s.clock(n) + Delay(message.attempts + 1, s.delay, s.backoff)
  }

  function OutboxAfter(messages: seq<PendingMessage>, publish: PendingPublish, sent: bool, nextAttemptAt: int)
    : seq<PendingMessage>
  {
    var m := publish.message;
    if sent then Acknowledged(messages, m.id, m.claimToken)
    else Retried(messages, m.id, m.claimToken, nextAttemptAt, m.attempts + 1)
  }

  /** The store after a claimed message was let go of. */
  function Released(payments: Payments, publish: PendingPublish, sent: bool, nextAttemptAt: int): Payments {
    if publish.paymentId !in payments then payments
    else
      var p := payments[publish.paymentId];
      payments[publish.paymentId :=
                 p.(pendingMessages := OutboxAfter(p.pendingMessages, publish, sent, nextAttemptAt))]
  }

  /** The store after the first n claimed messages were let go of. */
  function ReleasedUpTo(payments: Payments, result: seq<PendingPublish>, s: PublisherSurroundings, n: nat): Payments
    requires n <= |result|
  {
    if n == 0 then payments
    else Released(ReleasedUpTo(payments, result, s, n - 1), result[n - 1], s.publishes(n - 1),
                  NextAttemptAt(result[n - 1].message, s, n - 1))
  }

  /** The tokens of the messages. */
  function TokensOf(result: seq<PendingPublish>): set<string> {
    set m | m in result :: m.message.claimToken
  }

  /** What was published: the claimed messages that the broker took. */
  function SentOf(result: seq<PendingPublish>, publishes: nat -> bool, n: nat): seq<Entry>
    requires n <= |result|
  {
    if n == 0 then []
    else SentOf(result, publishes, n - 1)
         + if publishes(n - 1) then [EntryOf(result[n - 1].paymentId, result[n - 1].message)] else []
  }

  lemma OneMoreSent(bus: seq<Entry>, result: seq<PendingPublish>, publishes: nat -> bool, n: nat)
    requires n < |result|
    ensures bus + SentOf(result, publishes, n + 1)
            == (bus + SentOf(result, publishes, n))
               + if publishes(n) then [EntryOf(result[n].paymentId, result[n].message)] else []
  {
  }

  // --- How often a token occurs ----------------------------------------------------------

  function TokenCount(messages: seq<PendingMessage>, token: string): nat {
    if messages == [] then 0
    else (if messages[0].claimToken == token then 1 else 0) + TokenCount(messages[1..], token)
  }

  lemma {:induction false} MissingIsNotCounted(messages: seq<PendingMessage>, token: string)
    requires forall i :: 0 <= i < |messages| ==> messages[i].claimToken != token
    ensures TokenCount(messages, token) == 0
  {
    if messages != [] {
      MissingIsNotCounted(messages[1..], token);
    }
  }

  lemma {:induction false} ThereIsCounted(messages: seq<PendingMessage>, m: PendingMessage)
    requires m in messages
    ensures TokenCount(messages, m.claimToken) > 0
  {
    if messages[0] != m {
      ThereIsCounted(messages[1..], m);
    }
  }

  lemma {:induction false} DistinctTokensCountOnce(messages: seq<PendingMessage>, token: string)
    requires forall i, j :: 0 <= i < j < |messages| ==> !(messages[i].claimToken == messages[j].claimToken == token)
    ensures TokenCount(messages, token) <= 1
  {
    if messages != [] {
      DistinctTokensCountOnce(messages[1..], token);
      if messages[0].claimToken == token {
        forall i | 0 <= i < |messages[1..]|
          ensures messages[1..][i].claimToken != token
        {
          assert messages[1..][i] == messages[i + 1];
        }
        MissingIsNotCounted(messages[1..], token);
      }
    }
  }

  lemma {:induction false} AcknowledgingCounts(messages: seq<PendingMessage>, id: string, token: string, other: string)
    ensures TokenCount(Acknowledged(messages, id, token), other) <= TokenCount(messages, other)
  {
    if messages != [] {
      AcknowledgingCounts(messages[1..], id, token, other);
      var rest := Acknowledged(messages[1..], id, token);
      assert ([messages[0]] + rest)[1..] == rest;
    }
  }

  /** A retry takes the token from the first message that carries it together with the id. */
  lemma {:induction false} RetryingCounts(messages: seq<PendingMessage>, id: string, token: string, at: int, attempts: nat,
                                          other: string)
    requires other != ""
    ensures TokenCount(Retried(messages, id, token, at, attempts), other) <= TokenCount(messages, other)
    ensures other == token && (exists m :: m in messages && m.id == id && m.claimToken == token) ==>
              TokenCount(Retried(messages, id, token, at, attempts), other) < TokenCount(messages, other)
  {
    if messages != [] {
      var rest := Retried(messages[1..], id, token, at, attempts);
      if messages[0].id == id && messages[0].claimToken == token {
        assert ([Postponed(messages[0], at, attempts)] + messages[1..])[1..] == messages[1..];
      } else {
        RetryingCounts(messages[1..], id, token, at, attempts, other);
        assert ([messages[0]] + rest)[1..] == rest;
      }
    }
  }

  /** What is in the outbox after a retry. */
  lemma {:induction false} RetryingPostpones(messages: seq<PendingMessage>, target: PendingMessage, at: int, attempts: nat)
    requires target in messages
    requires forall m :: m in messages && m.claimToken == target.claimToken ==> m == target
    ensures var after := Retried(messages, target.id, target.claimToken, at, attempts);
            && Postponed(target, at, attempts) in after
            && (forall m :: m in messages && m.claimToken != target.claimToken ==> m in after)
            && forall m :: m in after ==> m in messages || m == Postponed(target, at, attempts)
  {
    var rest := messages[1..];
    assert messages == [messages[0]] + rest;
    if messages[0] != target {
      RetryingPostpones(rest, target, at, attempts);
    }
  }

  // --- The loop over the claimed messages --------------------------------------------------

  /** No two messages of the batch carry the same token, and none carries the empty one. */
  predicate AreTellable(result: seq<PendingPublish>) {
    && (forall k :: 0 <= k < |result| ==> result[k].message.claimToken != "")
    && forall k, l :: 0 <= k < l < |result| ==> result[k].message.claimToken != result[l].message.claimToken
  }

  /** Whatever carries a token of the batch is one of its messages, and is not let go of yet. */
  predicate OnlyTheRestCarry(messages: seq<PendingMessage>, id: string, result: seq<PendingPublish>, n: nat) {
    forall m, k :: m in messages && 0 <= k < |result| && m.claimToken == result[k].message.claimToken ==>
      k >= n && result[k] == PendingPublish(id, m)
  }

  predicate TokensOccurOnce(messages: seq<PendingMessage>, result: seq<PendingPublish>) {
    forall k :: 0 <= k < |result| ==> TokenCount(messages, result[k].message.claimToken) <= 1
  }

  predicate TheRestIsThere(messages: seq<PendingMessage>, id: string, result: seq<PendingPublish>, n: nat) {
    forall k :: n <= k < |result| && result[k].paymentId == id ==> result[k].message in messages
  }

  function PostponedAt(result: seq<PendingPublish>, s: PublisherSurroundings, k: nat): PendingMessage
    requires k < |result|
  {
    Postponed(result[k].message, NextAttemptAt(result[k].message, s, k), result[k].message.attempts + 1)
  }

  predicate UnsentAreThere(messages: seq<PendingMessage>, id: string, result: seq<PendingPublish>,
                           s: PublisherSurroundings, n: nat)
  {
    forall k :: 0 <= k < n && k < |result| && result[k].paymentId == id && !s.publishes(k) ==>
      PostponedAt(result, s, k) in messages
  }

  predicate OthersAreThere(claimed: seq<PendingMessage>, messages: seq<PendingMessage>, result: seq<PendingPublish>) {
    forall m :: m in claimed && m.claimToken !in TokensOf(result) ==> m in messages
  }

  /** Where the outbox of a payment stands after the first n messages of the batch. */
  ghost predicate Standing(claimed: seq<PendingMessage>, messages: seq<PendingMessage>, id: string,
                           result: seq<PendingPublish>, s: PublisherSurroundings, n: nat)
  {
    && OnlyTheRestCarry(messages, id, result, n) && TokensOccurOnce(messages, result)
    && TheRestIsThere(messages, id, result, n) && UnsentAreThere(messages, id, result, s, n)
    && OthersAreThere(claimed, messages, result)
  }

  /** Standing, for proofs that need not look inside it. */
  ghost predicate Stands(claimed: seq<PendingMessage>, messages: seq<PendingMessage>, id: string,
                         result: seq<PendingPublish>, s: PublisherSurroundings, n: nat)
  {
    forall m :: m == messages ==> Standing(claimed, m, id, result, s, n)
  }

  lemma OthersStand(claimed: seq<PendingMessage>, messages: seq<PendingMessage>, id: string, result: seq<PendingPublish>,
                    s: PublisherSurroundings, n: nat)
    requires n < |result| && Stands(claimed, messages, id, result, s, n) && result[n].paymentId != id
    ensures Stands(claimed, messages, id, result, s, n + 1)
  {
    assert Standing(claimed, messages, id, result, s, n);
  }

  lemma {:induction false} TokenIsGone(messages: seq<PendingMessage>, token: string)
    requires TokenCount(messages, token) == 0
    ensures forall m :: m in messages ==> m.claimToken != token
  {
    forall m | m in messages
      ensures m.claimToken != token
    {
      ThereIsCounted(messages, m);
    }
  }

  lemma BatchGoesOn(claimed: seq<PendingMessage>, messages: seq<PendingMessage>, id: string, result: seq<PendingPublish>,
                    s: PublisherSurroundings, n: nat)
    requires n < |result| && AreTellable(result) && Stands(claimed, messages, id, result, s, n)
    ensures result[n].paymentId != id ==> Stands(claimed, messages, id, result, s, n + 1)
    ensures result[n].paymentId == id ==>
              Stands(claimed, OutboxAfter(messages, result[n], s.publishes(n), NextAttemptAt(result[n].message, s, n)),
                     id, result, s, n + 1)
  {
    if result[n].paymentId != id {
      OthersStand(claimed, messages, id, result, s, n);
    } else if s.publishes(n) {
      SentGoes(claimed, messages, id, result, s, n);
    } else {
      UnsentStays(claimed, messages, id, result, s, n);
    }
  }

  /** The target has lost its token, and whatever does not carry it has stayed. */
  predicate LetsGoOf(messages: seq<PendingMessage>, after: seq<PendingMessage>, target: PendingMessage) {
    && (forall m :: m in after ==> m.claimToken != target.claimToken && (m in messages || m.claimToken == ""))
    && forall m :: m in messages && m.claimToken != target.claimToken ==> m in after
  }

  lemma LettingGoStands(claimed: seq<PendingMessage>, messages: seq<PendingMessage>, after: seq<PendingMessage>, id: string,
                        result: seq<PendingPublish>, s: PublisherSurroundings, n: nat)
    requires n < |result| && AreTellable(result) && Stands(claimed, messages, id, result, s, n)
    requires result[n].paymentId == id && LetsGoOf(messages, after, result[n].message) && TokensOccurOnce(after, result)
    requires !s.publishes(n) ==> PostponedAt(result, s, n) in after
    ensures Stands(claimed, after, id, result, s, n + 1)
  {
    assert Standing(claimed, messages, id, result, s, n);
    forall m, k | m in after && 0 <= k < |result| && m.claimToken == result[k].message.claimToken
      ensures k >= n + 1 && result[k] == PendingPublish(id, m)
    {
      assert m.claimToken != "" && m in messages;
    }
    assert TheRestIsThere(after, id, result, n + 1);
    forall k | 0 <= k < n + 1 && k < |result| && result[k].paymentId == id && !s.publishes(k)
      ensures PostponedAt(result, s, k) in after
    {
      assert k < n ==> PostponedAt(result, s, k) in messages;
    }
    assert result[n].message.claimToken in TokensOf(result);
    assert Standing(claimed, after, id, result, s, n + 1);
  }

  lemma SentGoes(claimed: seq<PendingMessage>, messages: seq<PendingMessage>, id: string, result: seq<PendingPublish>,
                 s: PublisherSurroundings, n: nat)
    requires n < |result| && AreTellable(result) && Stands(claimed, messages, id, result, s, n)
    requires result[n].paymentId == id && s.publishes(n)
    ensures Stands(claimed, Acknowledged(messages, result[n].message.id, result[n].message.claimToken), id, result, s, n + 1)
  {
    assert Standing(claimed, messages, id, result, s, n);
    var target := result[n].message;
    var after := Acknowledged(messages, target.id, target.claimToken);
    forall k | 0 <= k < |result|
      ensures TokenCount(after, result[k].message.claimToken) <= 1
    {
      AcknowledgingCounts(messages, target.id, target.claimToken, result[k].message.claimToken);
    }
    assert forall m :: m in messages && m.claimToken == target.claimToken ==> m == target;
    LettingGoStands(claimed, messages, after, id, result, s, n);
  }

  lemma UnsentStays(claimed: seq<PendingMessage>, messages: seq<PendingMessage>, id: string, result: seq<PendingPublish>,
                    s: PublisherSurroundings, n: nat)
    requires n < |result| && AreTellable(result) && Stands(claimed, messages, id, result, s, n)
    requires result[n].paymentId == id && !s.publishes(n)
    ensures Stands(claimed, Retried(messages, result[n].message.id, result[n].message.claimToken,
                                    NextAttemptAt(result[n].message, s, n), result[n].message.attempts + 1),
                   id, result, s, n + 1)
  {
    assert Standing(claimed, messages, id, result, s, n);
    var target := result[n].message;
    var at, attempts := NextAttemptAt(target, s, n), target.attempts + 1;
    var after := Retried(messages, target.id, target.claimToken, at, attempts);
    assert target in messages && forall m :: m in messages && m.claimToken == target.claimToken ==> m == target;
    assert TokensOccurOnce(after, result) by {
      forall k | 0 <= k < |result|
        ensures TokenCount(after, result[k].message.claimToken) <= 1
      {
        RetryingCounts(messages, target.id, target.claimToken, at, attempts, result[k].message.claimToken);
      }
    }
    assert forall m :: m in after ==> m.claimToken != target.claimToken by {
      RetryingCounts(messages, target.id, target.claimToken, at, attempts, target.claimToken);
      TokenIsGone(after, target.claimToken);
    }
    assert LetsGoOf(messages, after, target) && PostponedAt(result, s, n) in after by {
      RetryingPostpones(messages, target, at, attempts);
    }
    LettingGoStands(claimed, messages, after, id, result, s, n);
  }

  ghost predicate HasCome(claimed: Payments, payments: Payments, id: string, result: seq<PendingPublish>,
                          s: PublisherSurroundings, n: nat)
  {
    && id in claimed && id in payments
    && Stands(claimed[id].pendingMessages, payments[id].pendingMessages, id, result, s, n)
  }

  lemma OneMoreReleased(claimed: Payments, payments: Payments, id: string, result: seq<PendingPublish>,
                        s: PublisherSurroundings, n: nat)
    requires n < |result| && AreTellable(result) && HasCome(claimed, payments, id, result, s, n)
    ensures HasCome(claimed, Released(payments, result[n], s.publishes(n), NextAttemptAt(result[n].message, s, n)),
                    id, result, s, n + 1)
  {
    BatchGoesOn(claimed[id].pendingMessages, payments[id].pendingMessages, id, result, s, n);
  }

  lemma {:induction false} BatchStands(claimed: Payments, id: string, result: seq<PendingPublish>, s: PublisherSurroundings,
                                       n: nat)
    requires n <= |result| && AreTellable(result) && HasCome(claimed, claimed, id, result, s, 0)
    ensures HasCome(claimed, ReleasedUpTo(claimed, result, s, n), id, result, s, n)
  {
    if n > 0 {
      BatchStands(claimed, id, result, s, n - 1);
      OneMoreReleased(claimed, ReleasedUpTo(claimed, result, s, n - 1), id, result, s, n - 1);
    }
  }

  // --- What was sent is gone -------------------------------------------------------------

  /** The messages are told apart by their ids, and none of the first n that were sent is among them. */
  ghost predicate SentAreGone(messages: seq<PendingMessage>, id: string, result: seq<PendingPublish>,
                              s: PublisherSurroundings, n: nat)
  {
    && DistinctIds(messages)
    && forall k, m :: 0 <= k < n && k < |result| && result[k].paymentId == id && s.publishes(k) && m in messages ==>
         m.id != result[k].message.id
  }

  lemma RetryingKeepsIds(messages: seq<PendingMessage>, id: string, token: string, at: int, attempts: nat)
    requires DistinctIds(messages)
    ensures DistinctIds(Retried(messages, id, token, at, attempts))
    ensures forall m :: m in Retried(messages, id, token, at, attempts) ==> exists b :: b in messages && b.id == m.id
  {
    var after := Retried(messages, id, token, at, attempts);
    forall i | 0 <= i < |after|
      ensures after[i].id == messages[i].id
    {
      RetryingPointwise(messages, id, token, at, attempts, i);
    }
    forall m | m in after
      ensures exists b :: b in messages && b.id == m.id
    {
      var i :| 0 <= i < |after| && after[i] == m;
      assert messages[i] in messages;
    }
  }

  lemma AcknowledgingRemoves(messages: seq<PendingMessage>, target: PendingMessage)
    requires DistinctIds(messages) && target in messages
    ensures forall m :: m in Acknowledged(messages, target.id, target.claimToken) ==> m.id != target.id
  {
    forall m | m in messages && m.id == target.id
      ensures m == target
    {
      var i :| 0 <= i < |messages| && messages[i] == m;
      var j :| 0 <= j < |messages| && messages[j] == target;
    }
  }

  lemma SentIsGone(messages: seq<PendingMessage>, id: string, result: seq<PendingPublish>, s: PublisherSurroundings, n: nat)
    requires n < |result| && SentAreGone(messages, id, result, s, n)
    requires result[n].paymentId == id && result[n].message in messages
    ensures SentAreGone(Acknowledged(messages, result[n].message.id, result[n].message.claimToken), id, result, s, n + 1)
  {
    AcknowledgingKeepsIdsDistinct(messages, result[n].message.id, result[n].message.claimToken);
    AcknowledgingRemoves(messages, result[n].message);
  }

  lemma UnsentIsKept(messages: seq<PendingMessage>, id: string, result: seq<PendingPublish>, s: PublisherSurroundings, n: nat,
                     at: int, attempts: nat)
    requires n < |result| && SentAreGone(messages, id, result, s, n) && !s.publishes(n)
    ensures SentAreGone(Retried(messages, result[n].message.id, result[n].message.claimToken, at, attempts), id, result, s,
                        n + 1)
  {
    var after := Retried(messages, result[n].message.id, result[n].message.claimToken, at, attempts);
    RetryingKeepsIds(messages, result[n].message.id, result[n].message.claimToken, at, attempts);
    forall k, m | 0 <= k < n && result[k].paymentId == id && s.publishes(k) && m in after
      ensures m.id != result[k].message.id
    {
      var b :| b in messages && b.id == m.id;
    }
  }

  lemma SentGoOn(messages: seq<PendingMessage>, id: string, result: seq<PendingPublish>, s: PublisherSurroundings, n: nat)
    requires n < |result| && SentAreGone(messages, id, result, s, n)
    requires result[n].paymentId == id ==> result[n].message in messages
    ensures result[n].paymentId != id ==> SentAreGone(messages, id, result, s, n + 1)
    ensures result[n].paymentId == id ==>
              SentAreGone(OutboxAfter(messages, result[n], s.publishes(n), NextAttemptAt(result[n].message, s, n)),
                          id, result, s, n + 1)
  {
    if result[n].paymentId == id {
      if s.publishes(n) {
        SentIsGone(messages, id, result, s, n);
      } else {
        UnsentIsKept(messages, id, result, s, n, NextAttemptAt(result[n].message, s, n), result[n].message.attempts + 1);
      }
    }
  }

  /** SentAreGone, for proofs that need not look inside it. */
  ghost predicate HasLost(payments: Payments, id: string, result: seq<PendingPublish>, s: PublisherSurroundings, n: nat) {
    id in payments && forall m :: m == payments[id].pendingMessages ==> SentAreGone(m, id, result, s, n)
  }

  lemma OneMoreIsLost(claimed: Payments, payments: Payments, id: string, result: seq<PendingPublish>,
                      s: PublisherSurroundings, n: nat)
    requires n < |result| && HasCome(claimed, payments, id, result, s, n) && HasLost(payments, id, result, s, n)
    ensures HasLost(Released(payments, result[n], s.publishes(n), NextAttemptAt(result[n].message, s, n)), id, result, s,
                    n + 1)
  {
    var messages := payments[id].pendingMessages;
    assert SentAreGone(messages, id, result, s, n);
    assert result[n].paymentId == id ==> result[n].message in messages by {
      assert Standing(claimed[id].pendingMessages, messages, id, result, s, n);
    }
    SentGoOn(messages, id, result, s, n);
  }

  lemma {:induction false} BatchIsLost(claimed: Payments, id: string, result: seq<PendingPublish>, s: PublisherSurroundings,
                                       n: nat)
    requires n <= |result| && AreTellable(result) && HasCome(claimed, claimed, id, result, s, 0)
    requires HasLost(claimed, id, result, s, 0)
    ensures HasLost(ReleasedUpTo(claimed, result, s, n), id, result, s, n)
  {
    if n > 0 {
      BatchIsLost(claimed, id, result, s, n - 1);
      BatchStands(claimed, id, result, s, n - 1);
      OneMoreIsLost(claimed, ReleasedUpTo(claimed, result, s, n - 1), id, result, s, n - 1);
    }
  }

  lemma ClaimsKeepIds(payments: Payments, claimed: Payments, taken: seq<Position>, result: seq<PendingPublish>,
                      before: int, until: int, id: string)
    requires HasClaimed(payments, claimed, taken, result, before, until) && id in payments && id in claimed
    requires DistinctIds(payments[id].pendingMessages)
    ensures DistinctIds(claimed[id].pendingMessages)
  {
    assert Claims(payments, claimed, taken, result, before, until);
    forall i | 0 <= i < |claimed[id].pendingMessages|
      ensures claimed[id].pendingMessages[i].id == payments[id].pendingMessages[i].id
    {
      var p := Position(id, i);
      assert IsPosition(payments, p);
      if p in taken {
        var l :| 0 <= l < |taken| && taken[l] == p;
        assert result[l].message == MessageAt(claimed, p);
      } else {
        assert MessageAt(claimed, p) == MessageAt(payments, p);
      }
    }
  }

  lemma ClaimsStand(payments: Payments, claimed: Payments, taken: seq<Position>, result: seq<PendingPublish>,
                    before: int, until: int, s: PublisherSurroundings, id: string)
    requires HasClaimed(payments, claimed, taken, result, before, until) && id in payments && id in claimed
    requires forall k, m :: 0 <= k < |result| && m in payments[id].pendingMessages ==>
               m.claimToken != result[k].message.claimToken
    ensures HasCome(claimed, claimed, id, result, s, 0)
  {
    assert Claims(payments, claimed, taken, result, before, until);
    var messages := claimed[id].pendingMessages;
    forall i, k | 0 <= i < |messages| && 0 <= k < |result| && messages[i].claimToken == result[k].message.claimToken
      ensures taken[k] == Position(id, i) && result[k] == PendingPublish(id, messages[i])
    {
      CarrierIsTaken(payments, claimed, taken, result, before, until, id, i, k);
    }
    forall k | 0 <= k < |result|
      ensures TokenCount(messages, result[k].message.claimToken) <= 1
    {
      DistinctTokensCountOnce(messages, result[k].message.claimToken);
    }
    assert Standing(messages, messages, id, result, s, 0);
  }

  /** After a claim, a message with a token of the batch is the one that the token was given to. */
  lemma CarrierIsTaken(payments: Payments, claimed: Payments, taken: seq<Position>, result: seq<PendingPublish>,
                       before: int, until: int, id: string, i: nat, k: nat)
    requires HasClaimed(payments, claimed, taken, result, before, until) && id in payments && id in claimed
    requires i < |claimed[id].pendingMessages| && k < |result|
    requires claimed[id].pendingMessages[i].claimToken == result[k].message.claimToken
    requires forall m :: m in payments[id].pendingMessages ==> m.claimToken != result[k].message.claimToken
    ensures |taken| == |result| && taken[k] == Position(id, i)
    ensures result[k] == PendingPublish(id, claimed[id].pendingMessages[i])
  {
    UntakenIsAsBefore(payments, claimed, taken, result, before, until, id, i);
    assert Claims(payments, claimed, taken, result, before, until);
    var l :| 0 <= l < |taken| && taken[l] == Position(id, i);
    assert result[l].message.claimToken == result[k].message.claimToken;
  }

  lemma UntakenIsAsBefore(payments: Payments, claimed: Payments, taken: seq<Position>, result: seq<PendingPublish>,
                          before: int, until: int, id: string, i: nat)
    requires HasClaimed(payments, claimed, taken, result, before, until) && id in claimed
    requires i < |claimed[id].pendingMessages|
    ensures id in payments
    ensures Position(id, i) !in taken ==> claimed[id].pendingMessages[i] in payments[id].pendingMessages
  {
    assert Claims(payments, claimed, taken, result, before, until);
    var p := Position(id, i);
    if p !in taken {
      assert IsPosition(payments, p);
      assert MessageAt(claimed, p) == MessageAt(payments, p);
    }
  }

  /** What the first n of the batch leave in the outbox of a payment that had the messages before. */
  ghost predicate Leaves(payments: Payments, taken: seq<Position>, result: seq<PendingPublish>, s: PublisherSurroundings,
                         id: string, left: seq<PendingMessage>)
    requires id in payments
  {
    && (forall k, m :: 0 <= k < |result| && m in left ==> m.claimToken != result[k].message.claimToken)
    && (forall k, m :: 0 <= k < |result| && result[k].paymentId == id && s.publishes(k) && m in left ==>
          m.id != result[k].message.id)
    && (forall k :: 0 <= k < |result| && result[k].paymentId == id && !s.publishes(k) ==> PostponedAt(result, s, k) in left)
    && forall p :: IsPosition(payments, p) && p.paymentId == id && p !in taken ==> MessageAt(payments, p) in left
  }

  lemma UntakenAreLeft(payments: Payments, claimed: Payments, taken: seq<Position>, result: seq<PendingPublish>,
                       before: int, until: int, id: string, p: Position, left: seq<PendingMessage>)
    requires HasClaimed(payments, claimed, taken, result, before, until) && id in payments && id in claimed
    requires forall k, m :: 0 <= k < |result| && m in payments[id].pendingMessages ==>
               m.claimToken != result[k].message.claimToken
    requires OthersAreThere(claimed[id].pendingMessages, left, result)
    requires IsPosition(payments, p) && p.paymentId == id && p !in taken
    ensures MessageAt(payments, p) in left
  {
    assert Claims(payments, claimed, taken, result, before, until);
    assert MessageAt(claimed, p) == MessageAt(payments, p);
    assert MessageAt(claimed, p) in claimed[id].pendingMessages;
    assert MessageAt(payments, p) in payments[id].pendingMessages;
    assert MessageAt(payments, p).claimToken !in TokensOf(result);
  }

  /**
   What a call of PublishPending took to the broker is gone, and what the broker refused waits for
   its next attempt, unclaimed; what the call did not claim is as it was.
   */
  lemma WhatPublishingLeaves(payments: Payments, claimed: Payments, taken: seq<Position>, result: seq<PendingPublish>,
                             before: int, until: int, s: PublisherSurroundings, id: string)
    requires HasClaimed(payments, claimed, taken, result, before, until) && id in payments && AreTellable(result)
    requires DistinctIds(payments[id].pendingMessages)
    requires forall k, m :: 0 <= k < |result| && m in payments[id].pendingMessages ==>
               m.claimToken != result[k].message.claimToken
    ensures id in ReleasedUpTo(claimed, result, s, |result|)
    ensures Leaves(payments, taken, result, s, id, ReleasedUpTo(claimed, result, s, |result|)[id].pendingMessages)
  {
    var after := ReleasedUpTo(claimed, result, s, |result|);
    ShapeIsKept(payments, claimed, taken, result, before, until);
    ClaimsStand(payments, claimed, taken, result, before, until, s, id);
    ClaimsKeepIds(payments, claimed, taken, result, before, until, id);
    BatchStands(claimed, id, result, s, |result|);
    BatchIsLost(claimed, id, result, s, |result|);
    var left := after[id].pendingMessages;
    assert Standing(claimed[id].pendingMessages, left, id, result, s, |result|);
    assert SentAreGone(left, id, result, s, |result|);
    forall p | IsPosition(payments, p) && p.paymentId == id && p !in taken
      ensures MessageAt(payments, p) in left
    {
      UntakenAreLeft(payments, claimed, taken, result, before, until, id, p, left);
    }
  }

  /** In every reachable store the messages of a payment have ids of their own, and the tokens of a new claim are new. */
  lemma WhatARunPublishes(config: Config, run: seq<World>, i: nat, claimed: Payments, taken: seq<Position>,
                          result: seq<PendingPublish>, before: int, until: int, s: PublisherSurroundings, id: string)
    requires IsRun(config, run) && i < |run| && id in run[i].payments
    requires HasClaimed(run[i].payments, claimed, taken, result, before, until)
    requires forall k :: 0 <= k < |result| ==> result[k].message.claimToken !in run[i].uuids
    ensures id in ReleasedUpTo(claimed, result, s, |result|)
    ensures Leaves(run[i].payments, taken, result, s, id, ReleasedUpTo(claimed, result, s, |result|)[id].pendingMessages)
  {
    OutboxTheorems.ReachedOutboxesAreOk(config, run, i);
    Inside(run[i]);
    var messages := PendingOf(run[i], id);
    assert DistinctIds(messages);
    forall k, m | 0 <= k < |result| && m in messages
      ensures m.claimToken != result[k].message.claimToken
    {
      assert StampedOk(m, run[i].uuids);
    }
    assert AreTellable(result) by {
      assert Claims(run[i].payments, claimed, taken, result, before, until);
    }
    WhatPublishingLeaves(run[i].payments, claimed, taken, result, before, until, s, id);
  }
}
