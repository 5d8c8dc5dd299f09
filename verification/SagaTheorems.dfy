/**
 What every run of every set of workers on one idempotency key guarantees.
 */
module SagaTheorems {
  import opened Wrappers
  import opened Contracts
  import opened SagaRow
  import opened SagaWorker
  import opened SagaRun

  ghost predicate Next(key: string, s: KeyState, s': KeyState) {
    exists step :: Enabled(key, s, step) && s' == Apply(key, s, step)
  }

  /** Next, for proofs that need not look inside it. */
  ghost predicate Follows(key: string, s: KeyState, s': KeyState) {
    forall t, t' :: t == s && t' == s' ==> Next(key, t, t')
  }

  ghost predicate IsRun(key: string, run: seq<KeyState>) {
    && |run| > 0 && run[0] == UNTOUCHED
    && forall i, j :: 0 <= i < j < |run| && j == i + 1 ==> Follows(key, run[i], run[j])
  }

  lemma NextKeepsInv(key: string, s: KeyState, s': KeyState)
    requires Inv(key, s) && Next(key, s, s')
    ensures Inv(key, s') && Grows(s, s')
  {
    var step :| Enabled(key, s, step) && s' == Apply(key, s, step);
    StepKeepsInv(key, s, step);
    if s.row.Some? {
      StepEvolvesRow(key, s, step);
    }
  }

  lemma EachStepOfARun(key: string, run: seq<KeyState>, i: nat)
    requires IsRun(key, run) && i + 1 < |run| && Inv(key, run[i])
    ensures Inv(key, run[i + 1]) && Grows(run[i], run[i + 1])
  {
    assert Follows(key, run[i], run[i + 1]);
    assert Next(key, run[i], run[i + 1]);
    NextKeepsInv(key, run[i], run[i + 1]);
  }

  lemma {:induction false} ReachedStatesAreOk(key: string, run: seq<KeyState>, i: nat)
    requires IsRun(key, run) && i < |run|
    ensures Inv(key, run[i])
  {
    if i == 0 {
      InvHoldsAtFirst(key);
    } else {
      ReachedStatesAreOk(key, run, i - 1);
      EachStepOfARun(key, run, i - 1);
    }
  }

  lemma ReachedStatesAreConsistent(key: string, run: seq<KeyState>, i: nat)
    requires IsRun(key, run) && i < |run|
    ensures (run[i].row.Some? ==> RowOk(key, run[i].row.value)) && SessionsOk(key, run[i]) && LockOk(run[i])
            && MessagesOk(key, run[i]) && RepliesOk(run[i])
  {
    ReachedStatesAreOk(key, run, i);
    Inside(key, run[i]);
  }

  /** With no assumption about clocks: whoever holds the lock has the row itself in memory. */
  lemma LockHolderHasTheRow(key: string, run: seq<KeyState>, i: nat, worker: WorkerId)
    requires IsRun(key, run) && i < |run| && Holds(run[i], worker)
    ensures worker in run[i].sessions && run[i].sessions[worker].current == run[i].row.value
    ensures forall other :: Holds(run[i], other) ==> other == worker
  {
    ReachedStatesAreConsistent(key, run, i);
  }

  /** The row evolves, and replies are never taken back. */
  ghost predicate Grows(s: KeyState, s': KeyState) {
    s.row.Some? ==> s'.row.Some? && Evolves(s.row.value, s'.row.value) && s.replies <= s'.replies
  }

  lemma SavesGrow(key: string, s: KeyState, step: KeyStep)
    requires Inv(key, s) && Enabled(key, s, step) && step.Save? && s.row.Some?
    ensures Grows(s, Apply(key, s, step))
  {
    if Holds(s, step.worker) {
      Inside(key, s);
      var session := s.sessions[step.worker];
      assert SessionOk(key, step.worker, session, s.row.value, s.refusals);
      SaveEvolvesRow(key, step.worker, session, s.row.value, s.refusals, step.retryAt, step.now);
    }
  }

  lemma TakingGrows(key: string, s: KeyState, step: KeyStep)
    requires Inv(key, s) && Enabled(key, s, step) && step.TakeCommand? && s.row.Some?
    ensures Grows(s, Apply(key, s, step))
  {
    TheRowIsOk(key, s);
    LockingEvolves(key, s.row.value, step.worker, step.until, step.now);
  }

  lemma StepEvolvesRow(key: string, s: KeyState, step: KeyStep)
    requires Inv(key, s) && Enabled(key, s, step) && s.row.Some?
    ensures Grows(s, Apply(key, s, step))
  {
    TheRowIsOk(key, s);
    if step.Save? {
      SavesGrow(key, s, step);
    } else if step.TakeCommand? {
      TakingGrows(key, s, step);
    } else if step.Recover? {
      LockingEvolves(key, s.row.value, step.worker, step.until, step.now);
    }
  }

  lemma {:induction false} RowsEvolve(key: string, run: seq<KeyState>, i: nat, j: nat)
    requires IsRun(key, run) && i <= j < |run| && run[i].row.Some?
    ensures run[j].row.Some? && Evolves(run[i].row.value, run[j].row.value) && run[i].replies <= run[j].replies
  {
    if i < j {
      RowsEvolve(key, run, i, j - 1);
      ReachedStatesAreOk(key, run, j - 1);
      EachStepOfARun(key, run, j - 1);
      EvolvesIsTransitive(run[i].row.value, run[j - 1].row.value, run[j].row.value);
    }
  }

  /**
   The user payload, the payment payload and the response are written at most once, the request
   never changes, and COMPLETED is absorbing and carries the response composed of the payloads.
   */
  lemma PayloadsAreWrittenOnce(key: string, run: seq<KeyState>, i: nat, j: nat)
    requires IsRun(key, run) && i <= j < |run| && run[i].row.Some?
    ensures run[j].row.Some?
    ensures var then_ := run[i].row.value; var now := run[j].row.value;
            && now.requestHash == then_.requestHash && now.rootCorrelationId == then_.rootCorrelationId
            && (then_.user.Some? ==> now.user == then_.user)
            && (then_.payment.Some? ==> now.payment == then_.payment)
            && (then_.response.Some? ==> now.response == then_.response)
            && (then_.status == COMPLETED ==> now.status == COMPLETED)
            && (now.status == COMPLETED <==> now.response.Some?)
            && (now.status == COMPLETED ==>
                && now.user.Some? && now.payment.Some? && now.response == Some(ComposedResponse(now)))
  {
    RowsEvolve(key, run, i, j);
    ReachedStatesAreConsistent(key, run, j);
  }

  /**
   All successes that create, replays and waiting requests ever got for a key agree but for the
   replay flag, at most one of them was the original, and only the digest of the row succeeds.
   */
  lemma SuccessesAgree(key: string, run: seq<KeyState>, i: nat, a: nat, b: nat)
    requires IsRun(key, run) && i < |run| && a < b < |run[i].replies|
    requires run[i].replies[a].answer.Success? && run[i].replies[b].answer.Success?
    ensures var one := run[i].replies[a].answer.response; var two := run[i].replies[b].answer.response;
            && one.user == two.user && one.payment == two.payment
            && one.correlationId == two.correlationId && one.idempotencyKey == two.idempotencyKey == key
            && (one.replayed || two.replayed)
    ensures run[i].row.Some? && run[i].row.value.requestHash == run[i].replies[a].requestHash
            == run[i].replies[b].requestHash
  {
    ReachedStatesAreConsistent(key, run, i);
    assert !(FirstSuccess(run[i].replies[a]) && FirstSuccess(run[i].replies[b]));
  }

  /** A request whose digest differs from that of the row never succeeds, before or after. */
  lemma OtherDigestsNeverSucceed(key: string, run: seq<KeyState>, i: nat, j: nat, a: nat)
    requires IsRun(key, run) && i < |run| && j < |run| && run[i].row.Some? && a < |run[j].replies|
    requires run[j].replies[a].requestHash != run[i].row.value.requestHash
    ensures run[j].replies[a].answer.Failure?
  {
    ReachedStatesAreConsistent(key, run, j);
    if run[j].replies[a].answer.Success? {
      if i <= j {
        RowsEvolve(key, run, i, j);
      } else {
        RowsEvolve(key, run, j, i);
      }
    }
  }

  /** A step moves at most one session, by one event; a new session starts from the locked row. */
  lemma StepMovesOneSession(key: string, s: KeyState, step: KeyStep, worker: WorkerId)
    requires Enabled(key, s, step) && worker in Apply(key, s, step).sessions
    ensures var session' := Apply(key, s, step).sessions[worker];
            if worker in s.sessions then
              || session' == s.sessions[worker]
              || exists event :: Accepts(s.sessions[worker], event) && session' == Advance(s.sessions[worker], event)
            else
              s.row.Some? ==> exists until, now :: session'.claimed == Locked(s.row.value, worker, until, now)
  {
    if worker in s.sessions && Apply(key, s, step).sessions[worker] != s.sessions[worker] {
      var event :=
        match step
        case Progress(_, event) => event
        case Save(_, retryAt, now) =>
          if Holds(s, worker) then Saved(Changed(s.row.value, Request(s.sessions[worker], retryAt).value, now))
          else NotSaved(LockLost)
        case StoreFails(_) => NotSaved(StoreFailed)
        case _ => Finish;
      assert Accepts(s.sessions[worker], event);
      assert Apply(key, s, step).sessions[worker] == Advance(s.sessions[worker], event);
    }
  }

  ghost predicate RepeatsFailure(claimed: Row, failed: Row) {
    IsTerminalFailure(claimed) && claimed.error == failed.error
  }

  lemma LateSessionStep(key: string, s: KeyState, s': KeyState, worker: WorkerId, failed: Row)
    requires Next(key, s, s') && worker in s'.sessions
    requires IsTerminalFailure(failed) && s.row.Some? && Evolves(failed, s.row.value)
    requires worker in s.sessions ==> RepeatsFailure(s.sessions[worker].claimed, failed)
    ensures RepeatsFailure(s'.sessions[worker].claimed, failed)
  {
    var step :| Enabled(key, s, step) && s' == Apply(key, s, step);
    StepMovesOneSession(key, s, step, worker);
    var session' := s'.sessions[worker];
    if worker in s.sessions {
      if session' != s.sessions[worker] {
        var event :| Accepts(s.sessions[worker], event) && session' == Advance(s.sessions[worker], event);
        assert session'.claimed == s.sessions[worker].claimed;
      }
    } else {
      var until, now :| session'.claimed == Locked(s.row.value, worker, until, now);
    }
  }

  /** Sessions opened after a permanent failure start from that failure. */
  lemma {:induction false} LateSessionsStartFromTheFailure(key: string, run: seq<KeyState>, i: nat, j: nat, worker: WorkerId)
    requires IsRun(key, run) && i <= j < |run|
    requires run[i].row.Some? && IsTerminalFailure(run[i].row.value)
    requires worker !in run[i].sessions && worker in run[j].sessions
    ensures RepeatsFailure(run[j].sessions[worker].claimed, run[i].row.value)
  {
    assert i < j;
    RowsEvolve(key, run, i, j - 1);
    assert Follows(key, run[j - 1], run[j]);
    assert Next(key, run[j - 1], run[j]);
    if worker in run[j - 1].sessions {
      LateSessionsStartFromTheFailure(key, run, i, j - 1, worker);
    }
    LateSessionStep(key, run[j - 1], run[j], worker, run[i].row.value);
  }

  /**
   A permanent failure is final: error and payloads never change, no request for the key ever
   succeeds, and every later claim and every later poll with the digest answers the stored problem.
   */
  lemma PermanentFailureIsFinal(key: string, run: seq<KeyState>, i: nat, j: nat)
    requires IsRun(key, run) && i <= j < |run|
    requires run[i].row.Some? && IsTerminalFailure(run[i].row.value)
    ensures run[j].row.Some?
    ensures var failed := run[i].row.value; var row := run[j].row.value;
            && row.status == FAILED && !row.retryable && row.error == failed.error
            && row.user == failed.user && row.payment == failed.payment == None && row.response == None
    ensures forall a :: 0 <= a < |run[j].replies| ==> run[j].replies[a].answer.Failure?
    ensures PollAnswer(run[j].row, run[i].row.value.requestHash)
            == Some(Failure(ToException(run[i].row.value.error.value)))
    ensures forall worker :: worker in run[j].sessions && worker !in run[i].sessions ==>
              var stage := run[j].sessions[worker].stage;
              && (stage.Opening? || stage.Closing? || stage.Closed?)
              && (!stage.Opening? ==> stage.answer == Failure(ToException(run[i].row.value.error.value)))
  {
    RowsEvolve(key, run, i, j);
    ReachedStatesAreConsistent(key, run, i);
    ReachedStatesAreConsistent(key, run, j);
    forall worker | worker in run[j].sessions && worker !in run[i].sessions
      ensures var stage := run[j].sessions[worker].stage;
              && (stage.Opening? || stage.Closing? || stage.Closed?)
              && (!stage.Opening? ==> stage.answer == Failure(ToException(run[i].row.value.error.value)))
    {
      LateSessionsStartFromTheFailure(key, run, i, j, worker);
      assert SessionOk(key, worker, run[j].sessions[worker], run[j].row.value, run[j].refusals);
    }
  }

  /** A permanent failure is stored only after a payment refusal with status 400 or 409. */
  lemma PermanentFailuresWereRefused(key: string, run: seq<KeyState>, i: nat)
    requires IsRun(key, run) && i < |run| && run[i].row.Some? && IsTerminalFailure(run[i].row.value)
    ensures exists refusal :: refusal in run[i].refusals && refusal.status in {400, 409}
              && run[i].row.value.error == Some(ToProblem(ToException(refusal)))
  {
    ReachedStatesAreConsistent(key, run, i);
    assert RefusedFor(run[i].row.value.error.value, run[i].refusals);
  }

  /** How many more events a session can accept. */
  function EventsLeft(s: Session): nat
    requires s.rounds <= 3
  {
    match s.stage
    case Opening => 19
    case Dispatching => 18 - 4 * s.rounds
    case AwaitingUser => 21 - 4 * s.rounds
    case AwaitingPayment => 21 - 4 * s.rounds
    case AwaitingCompensation => 21 - 4 * s.rounds
    case SavingFailure(_) => 19 - 4 * s.rounds
    case Closing(_) => 1
    case Closed(_) => 0
    case _ => 20 - 4 * s.rounds
  }

  lemma SessionsAreShort(key: string, s: KeyState, worker: WorkerId)
    requires Inv(key, s) && worker in s.sessions
    ensures s.sessions[worker].rounds <= 3 && s.sessions[worker].rpcs <= 3
  {
    assert SessionsOk(key, s) by {
      Inside(key, s);
    }
    assert SessionOk(key, worker, s.sessions[worker], s.row.value, s.refusals);
  }

  lemma NextIsProgress(key: string, s: KeyState, s': KeyState, worker: WorkerId)
    requires Inv(key, s) && Inv(key, s') && Next(key, s, s') && worker in s.sessions
    ensures worker in s'.sessions && s.sessions[worker].rounds <= 3 && s'.sessions[worker].rounds <= 3
            && (s'.sessions[worker] == s.sessions[worker] || EventsLeft(s'.sessions[worker]) < EventsLeft(s.sessions[worker]))
  {
    SessionsAreShort(key, s, worker);
    var step :| Enabled(key, s, step) && s' == Apply(key, s, step);
    assert worker in s'.sessions;
    SessionsAreShort(key, s', worker);
    StepMovesOneSession(key, s, step, worker);
    if s'.sessions[worker] != s.sessions[worker] {
      var event :| Accepts(s.sessions[worker], event) && s'.sessions[worker] == Advance(s.sessions[worker], event);
      EachEventIsProgress(s.sessions[worker], event);
    }
  }

  /**
   executeStateMachine terminates: whatever is replied and whenever the lock is lost, the loop
   turns at most three times, sends at most three RPCs, and every step of a session leaves it
   fewer events to come.
   */
  lemma TheLoopTerminates(key: string, run: seq<KeyState>, i: nat, worker: WorkerId)
    requires IsRun(key, run) && i < |run| && worker in run[i].sessions
    ensures run[i].sessions[worker].rounds <= 3 && run[i].sessions[worker].rpcs <= 3
    ensures i + 1 < |run| ==>
              && worker in run[i + 1].sessions && run[i + 1].sessions[worker].rounds <= 3
              && (run[i + 1].sessions[worker] == run[i].sessions[worker]
                  || EventsLeft(run[i + 1].sessions[worker]) < EventsLeft(run[i].sessions[worker]))
  {
    ReachedStatesAreOk(key, run, i);
    SessionsAreShort(key, run[i], worker);
    if i + 1 < |run| {
      ReachedStatesAreOk(key, run, i + 1);
      assert Next(key, run[i], run[i + 1]) by {
        assert Follows(key, run[i], run[i + 1]);
      }
      NextIsProgress(key, run[i], run[i + 1], worker);
      SessionsAreShort(key, run[i + 1], worker);
    }
  }

  lemma EachEventIsProgress(s: Session, event: Event)
    requires Accepts(s, event) && s.rounds <= 3 && Advance(s, event).rounds <= 3
    ensures EventsLeft(Advance(s, event)) < EventsLeft(s)
  {
  }

  /** The branches for an incomplete snapshot and for an unexpected state are never taken. */
  lemma DefensiveBranchesAreDead(key: string, run: seq<KeyState>, i: nat, worker: WorkerId)
    requires IsRun(key, run) && i < |run| && worker in run[i].sessions
    requires run[i].sessions[worker].stage.Dispatching?
    ensures var saga := run[i].sessions[worker].current;
            && saga.nextAction != NOOP
            && (saga.nextAction in {PROCESS_PAYMENT, COMPENSATE_USER} ==> saga.user.Some?)
            && (saga.nextAction == COMPLETE ==> saga.user.Some? && saga.payment.Some?)
  {
    ReachedStatesAreConsistent(key, run, i);
    assert SessionOk(key, worker, run[i].sessions[worker], run[i].row.value, run[i].refusals);
  }

  /**
   COMPENSATED is never recorded: markFailed has given the lock back by the time the compensation
   is sent, so that the attempt to record it fails, and the caller is not told the stored problem.
   */
  lemma CompensationIsNeverRecorded(key: string, run: seq<KeyState>, i: nat, worker: WorkerId, retryAt: int, now: int)
    requires IsRun(key, run) && i < |run|
    ensures run[i].row.Some? ==> run[i].row.value.status != COMPENSATED
    ensures worker in run[i].sessions && run[i].sessions[worker].stage.SavingCompensation? ==>
              && !Holds(run[i], worker)
              && Apply(key, run[i], Save(worker, retryAt, now)).row == run[i].row
              && Apply(key, run[i], Save(worker, retryAt, now)).sessions[worker].stage == Closing(Failure(LockLost))
  {
    ReachedStatesAreConsistent(key, run, i);
    if worker in run[i].sessions {
      assert SessionOk(key, worker, run[i].sessions[worker], run[i].row.value, run[i].refusals);
    }
  }
}
