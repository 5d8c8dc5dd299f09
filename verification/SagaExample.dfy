/**
 A run in which payment refuses an account for good: the compensation is sent and succeeds, and
 is not recorded all the same.
 */
module SagaExample {
  import opened Wrappers
  import opened Contracts
  import opened SagaRow
  import opened SagaWorker
  import opened SagaRun
  import opened SagaTheorems

  const FIELDS := Fields("ada@example.org", "Ada", "1", "2", 10.0, "XXX")
  const COMMAND := Command("m", "c", "k", RootDigest(FIELDS), FIELDS)
  const USER := User("u", "ada@example.org", "Ada", false)
  const REFUSAL := Problem(400, UnsupportedCurrency)

  ghost function Last(run: seq<KeyState>): KeyState
    requires run != []
  {
    run[|run| - 1]
  }

  lemma RunGoesOn(run: seq<KeyState>, step: KeyStep) returns (longer: seq<KeyState>)
    requires IsRun("k", run) && Enabled("k", Last(run), step)
    ensures IsRun("k", longer) && Last(longer) == Apply("k", Last(run), step)
  {
    longer := run + [Apply("k", Last(run), step)];
    forall i, j | 0 <= i < j < |longer| && j == i + 1
      ensures Follows("k", longer[i], longer[j])
    {
      if j < |run| {
        assert Follows("k", run[i], run[j]);
      } else {
        assert Next("k", longer[i], longer[j]);
      }
    }
  }

  /** The only worker holds the lock, and stands at the stage with the row in memory. */
  ghost predicate WorkerIsAt(run: seq<KeyState>, status: Status, stage: Stage) {
    && IsRun("k", run) && Last(run).row.Some? && Last(run).sessions.Keys == {"w"}
    && var row := Last(run).row.value; var session := Last(run).sessions["w"];
    && session.current == row && session.stage == stage && session.command == COMMAND
    && row.idempotencyKey == "k" && row.status == status
    && row.lockedBy == (if status == FAILED then None else Some("w"))
    && row.user == (if status == STARTED then None else Some(USER))
  }

  lemma CommandIsTaken() returns (run: seq<KeyState>)
    ensures WorkerIsAt(run, STARTED, Dispatching) && Last(run).row.value.nextAction == PROCESS_USER
  {
    run := [UNTOUCHED];
    run := RunGoesOn(run, TakeCommand(COMMAND, "w", 30, 0));
    run := RunGoesOn(run, Progress("w", Inspect));
  }

  lemma UserIsAnswered() returns (run: seq<KeyState>)
    ensures WorkerIsAt(run, STARTED, SavingUser(USER)) && Last(run).row.value.nextAction == PROCESS_USER
  {
    run := CommandIsTaken();
    run := RunGoesOn(run, Progress("w", Dispatch));
    run := RunGoesOn(run, Progress("w", UserReply(Data(USER))));
  }

  lemma UserIsCreated() returns (run: seq<KeyState>)
    ensures WorkerIsAt(run, USER_CREATED, Dispatching) && Last(run).row.value.nextAction == PROCESS_PAYMENT
  {
    run := UserIsAnswered();
    run := RunGoesOn(run, Save("w", 0, 1));
  }

  lemma PaymentIsRefused() returns (run: seq<KeyState>)
    ensures WorkerIsAt(run, USER_CREATED, SavingFailure(REFUSAL))
  {
    run := UserIsCreated();
    run := RunGoesOn(run, Progress("w", Dispatch));
    run := RunGoesOn(run, Progress("w", PaymentReply(Refused(REFUSAL))));
  }

  lemma FailureIsRecorded() returns (run: seq<KeyState>)
    ensures WorkerIsAt(run, FAILED, Dispatching) && Last(run).row.value.error == Some(REFUSAL)
    ensures Last(run).row.value.nextAction == COMPENSATE_USER
  {
    run := PaymentIsRefused();
    run := RunGoesOn(run, Save("w", 2, 2));
  }

  lemma CompensationIsSent() returns (run: seq<KeyState>)
    ensures WorkerIsAt(run, FAILED, AwaitingCompensation) && Last(run).row.value.error == Some(REFUSAL)
    ensures CompensationRequest(COMMAND, "u") in Last(run).compensations
  {
    run := FailureIsRecorded();
    run := RunGoesOn(run, Progress("w", Dispatch));
  }

  /** The compensation has been sent and answered, the row says FAILED, and the caller gets another error. */
  lemma CompensationGoesUnrecorded() returns (run: seq<KeyState>)
    ensures WorkerIsAt(run, FAILED, Closing(Failure(LockLost))) && Last(run).row.value.error == Some(REFUSAL)
    ensures CompensationRequest(COMMAND, "u") in Last(run).compensations
  {
    run := CompensationIsSent();
    run := RunGoesOn(run, Progress("w", CompensationReply(Data(true))));
    run := RunGoesOn(run, Save("w", 3, 3));
  }
}
