/**
 Histories of the payment store: runs that are extended step by step.
 */
module PaymentHistory {
  import opened Wrappers
  import opened Contracts
  import opened PaymentStore
  import opened PaymentRun
  import opened PaymentTheorems
  import opened ClaimLoops
  import opened PublishBatch

  ghost function Last(history: seq<World>): World
    requires history != []
  {
    history[|history| - 1]
  }

  /** The step may be taken and leads to the world, for proofs that need not look inside it. */
  ghost predicate Leads(config: Config, w: World, step: Step, w': World) {
    forall s :: s == step ==> Enabled(w, s) && Apply(config, w, s) == w'
  }

  lemma Bounded(numbers: set<nat>) returns (bound: nat)
    ensures forall n :: n in numbers ==> n < bound
  {
    if numbers == {} {
      bound := 0;
    } else {
      var n :| n in numbers;
      var rest := Bounded(numbers - {n});
      bound := if rest <= n then n + 1 else rest;
      assert forall m :: m in numbers ==> m in numbers - {n} || m == n;
    }
  }

  lemma SomethingIsFresh(numbers: set<nat>)
    ensures exists n: nat :: n !in numbers
  {
    var bound := Bounded(numbers);
    assert bound !in numbers;
  }

  /** A number that is not taken. */
  ghost function Fresh(numbers: set<nat>): (n: nat)
    ensures n !in numbers
  {
    SomethingIsFresh(numbers);
    var n: nat :| n !in numbers;
    n
  }

  /** IsRun, for proofs that need not look inside it. */
  ghost predicate Runs(config: Config, history: seq<World>) {
    |history| > 0 && forall run :: run == history ==> IsRun(config, run)
  }

  lemma LeadingFollows(config: Config, w: World, step: Step, w': World)
    requires Leads(config, w, step, w')
    ensures Follows(config, w, w')
  {
    assert Enabled(w, step);
    assert Next(config, w, w');
  }

  /** One world more of a run. */
  lemma RunGoesOn(config: Config, history: seq<World>, step: Step, w': World)
    requires Runs(config, history) && Leads(config, Last(history), step, w')
    ensures Runs(config, history + [w'])
  {
    assert IsRun(config, history);
    var longer := history + [w'];
    LeadingFollows(config, Last(history), step, w');
    forall i, j | 0 <= i < j < |longer| && j == i + 1
      ensures Follows(config, longer[i], longer[j])
    {
      if j < |history| {
        assert Follows(config, history[i], history[j]);
      }
    }
  }

  // --- The claims of a call, one after the other -----------------------------------------

  /** The messages from the n-th on are in the hands of their holders. */
  ghost predicate AreHeld(w: World, result: seq<PendingPublish>, holders: seq<nat>, n: nat) {
    && |holders| == |result|
    && (forall i, j :: 0 <= i < j < |holders| ==> holders[i] != holders[j])
    && forall i :: n <= i < |holders| ==>
         holders[i] in w.holdings && w.holdings[holders[i]] == Holding(result[i].paymentId, result[i].message, Held)
  }

  /** AreHeld, for proofs that need not look inside it. */
  ghost predicate HoldTheRest(w: World, result: seq<PendingPublish>, holders: seq<nat>, n: nat) {
    |holders| == |result| && forall hs :: hs == holders ==> AreHeld(w, result, hs, n)
  }

  lemma OneMoreHolder(w: World, w': World, result: seq<PendingPublish>, k: nat, holders: seq<nat>, h: nat)
    requires k < |result| && AreHeld(w, result[..k], holders, 0) && h !in w.holdings
    requires w'.holdings == w.holdings[h := Holding(result[k].paymentId, result[k].message, Held)]
    ensures AreHeld(w', result[..k + 1], holders + [h], 0)
  {
    var more := holders + [h];
    forall i | 0 <= i < |more|
      ensures more[i] in w'.holdings
      ensures w'.holdings[more[i]] == Holding(result[..k + 1][i].paymentId, result[..k + 1][i].message, Held)
    {
      if i < k {
        assert holders[i] in w.holdings && result[..k][i] == result[..k + 1][i];
      }
    }
  }

  /** The tokens of a claim are all different. */
  lemma FreshToken(payments: Payments, payments': Payments, taken: seq<Position>, result: seq<PendingPublish>, k: nat,
                   before: int, until: int)
    requires HasClaimed(payments, payments', taken, result, before, until) && k < |result|
    ensures result[k].message.claimToken !in TokensOf(result[..k])
  {
    assert Claims(payments, payments', taken, result, before, until);
  }

  /** From the n-th world on, every step is a claim. */
  ghost predicate OnlyClaims(config: Config, history: seq<World>, n: nat) {
    forall i, j :: n <= i < j < |history| && j == i + 1 ==> ClaimFollows(config, history[i], history[j])
  }

  ghost predicate ClaimFollows(config: Config, w: World, w': World) {
    exists step: Step :: step.Claim? && Leads(config, w, step, w')
  }

  /** The first k messages are claimed, in as many steps. */
  ghost predicate ClaimedUpTo(config: Config, first: seq<World>, history: seq<World>, taken: seq<Position>,
                              result: seq<PendingPublish>, holders: seq<nat>, before: int, until: int, k: nat)
    requires k <= |result| == |taken|
  {
    && Runs(config, first) && Runs(config, history) && first <= history && |history| == |first| + k
    && OnlyClaims(config, history, |first| - 1)
    && HasClaimed(Last(first).payments, Last(history).payments, taken[..k], result[..k], before, until)
    && Last(history).uuids == Last(first).uuids + TokensOf(result[..k]) && Last(history).bus == Last(first).bus
    && AreHeld(Last(history), result[..k], holders, 0)
  }

  lemma ClaimLeads(config: Config, w: World, h: nat, p: Position, token: string, before: int, until: int)
    requires h !in w.holdings && IsPosition(w.payments, p) && Eligible(MessageAt(w.payments, p), before)
    requires token !in w.uuids && until > before
    ensures Leads(config, w, Claim(h, p.paymentId, p.index, token, before, until),
                  Claimed(w, h, p.paymentId, p.index, token, until))
    ensures ClaimFollows(config, w, Claimed(w, h, p.paymentId, p.index, token, until))
    ensures Claimed(w, h, p.paymentId, p.index, token, until).payments == StampAt(w.payments, p, token, until)
  {
    assert Enabled(w, Claim(h, p.paymentId, p.index, token, before, until));
  }

  lemma ClaimedOneMore(config: Config, history: seq<World>, n: nat, w': World)
    requires OnlyClaims(config, history, n) && history != [] && ClaimFollows(config, Last(history), w')
    ensures OnlyClaims(config, history + [w'], n)
  {
    var longer := history + [w'];
    forall i, j | n <= i < j < |longer| && j == i + 1
      ensures ClaimFollows(config, longer[i], longer[j])
    {
      if j < |history| {
        assert ClaimFollows(config, history[i], history[j]);
      }
    }
  }

  lemma OneMoreClaim(config: Config, first: seq<World>, history: seq<World>, final: Payments, taken: seq<Position>,
                     result: seq<PendingPublish>, holders: seq<nat>, before: int, until: int, k: nat)
    returns (longer: seq<World>, more: seq<nat>)
    requires k < |result| == |taken| && until > before
    requires ClaimedUpTo(config, first, history, taken, result, holders, before, until, k)
    requires HasClaimed(Last(first).payments, final, taken, result, before, until)
    requires result[k].message.claimToken !in Last(first).uuids
    ensures ClaimedUpTo(config, first, longer, taken, result, more, before, until, k + 1)
  {
    var w, token := Last(history), result[k].message.claimToken;
    var h := Fresh(w.holdings.Keys);
    NextClaim(Last(first).payments, final, w.payments, taken, result, k, before, until);
    FreshToken(Last(first).payments, final, taken, result, k, before, until);
    ClaimLeads(config, w, h, taken[k], token, before, until);
    var w' := Claimed(w, h, taken[k].paymentId, taken[k].index, token, until);
    RunGoesOn(config, history, Claim(h, taken[k].paymentId, taken[k].index, token, before, until), w');
    ClaimedOneMore(config, history, |first| - 1, w');
    longer, more := history + [w'], holders + [h];
    OneMoreHolder(w, w', result, k, holders, h);
    assert TokensOf(result[..k + 1]) == TokensOf(result[..k]) + {token} by {
      assert result[..k + 1] == result[..k] + [result[k]];
    }
  }

  /** Whatever a call that lasts has claimed of the store that ends a run, is a sequence of claim steps of the run. */
  lemma ClaimsAreARun(config: Config, history: seq<World>, final: Payments, taken: seq<Position>,
                      result: seq<PendingPublish>, before: int, until: int)
    returns (longer: seq<World>, holders: seq<nat>)
    requires Runs(config, history) && until > before
    requires HasClaimed(Last(history).payments, final, taken, result, before, until)
    requires forall k :: 0 <= k < |result| ==> result[k].message.claimToken !in Last(history).uuids
    ensures Runs(config, longer) && history <= longer && |longer| == |history| + |result|
    ensures OnlyClaims(config, longer, |history| - 1)
    ensures Last(longer).payments == final && Last(longer).bus == Last(history).bus
    ensures Last(longer).uuids == Last(history).uuids + TokensOf(result)
    ensures HoldTheRest(Last(longer), result, holders, 0)
  {
    var payments := Last(history).payments;
    ShapeIsKept(payments, final, taken, result, before, until);
    longer, holders := history, [];
    NothingClaimed(payments, before, until);
    assert taken[..0] == [] && result[..0] == [];
    for k := 0 to |result|
      invariant ClaimedUpTo(config, history, longer, taken, result, holders, before, until, k)
    {
      longer, holders := OneMoreClaim(config, history, longer, final, taken, result, holders, before, until, k);
    }
    assert taken[..|taken|] == taken && result[..|result|] == result;
    ClaimsDetermineTheStore(payments, final, Last(longer).payments, taken, result, before, until);
  }
}
