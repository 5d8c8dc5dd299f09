/**
 The row of account_creation_sagas, and what each statement of the repository makes of it.
 */
module SagaRow {
  import opened Wrappers
  import opened Contracts
  import opened Int64

  type WorkerId = string

  datatype Status = STARTED | USER_CREATED | PAYMENT_CREATED | COMPLETED | FAILED | COMPENSATED

  datatype Action = PROCESS_USER | PROCESS_PAYMENT | COMPENSATE_USER | COMPLETE | NOOP

  datatype Response = Response(user: User, payment: PublicPayment,
                               correlationId: string, idempotencyKey: string, replayed: bool)
  {
    function WithReplayFlag(flag: bool): Response {
      this.(replayed := flag)
    }
  }

  datatype Row = Row(
    idempotencyKey: string,
    requestHash: Digest,
    requestPayload: Fields,
    rootCorrelationId: string,
    status: Status,
    nextAction: Action,
    user: Option<User>,
    payment: Option<PublicPayment>,
    response: Option<Response>,
    error: Option<Problem>,
    retryable: bool,
    attempts: nat,
    lastErrorAt: Option<int>,
    nextRetryAt: Option<int>,
    lockedBy: Option<WorkerId>,
    lockedUntil: Option<int>,
    updatedAt: int)

  function Inserted(command: Command, now: int): Row {
    Row(command.idempotencyKey, command.requestHash, command.fields, command.correlationId,
        STARTED, PROCESS_USER, None, None, None, None, false, 0, None, Some(now), None, None, now)
  }

  function Locked(row: Row, worker: WorkerId, until: int, now: int): Row {
    row.(lockedBy := Some(worker), lockedUntil := Some(until), updatedAt := now)
  }

  datatype Acquisition = HashConflict | Busy | Acquired(saga: Row)

  predicate HeldByAnother(row: Row, worker: WorkerId, now: int) {
    row.lockedUntil.Some? && row.lockedUntil.value > now && row.lockedBy.Some? && row.lockedBy.value != worker
  }

  /** What tryAcquire answers, given the row of the key if there is one. */
  function Acquire(row: Option<Row>, command: Command, worker: WorkerId, until: int, now: int): Acquisition {
    var existing := if row.Some? then row.value else Inserted(command, now);
    if existing.requestHash != command.requestHash then HashConflict
    else if HeldByAnother(existing, worker, now) then Busy
    else Acquired(Locked(existing, worker, until, now))
  }

  predicate Recoverable(row: Row, now: int) {
    && row.status in {STARTED, USER_CREATED, PAYMENT_CREATED, FAILED}
    && (row.status != FAILED || row.retryable)
    && (row.nextRetryAt.Some? ==> row.nextRetryAt.value <= now)
    && (row.lockedUntil.Some? ==> row.lockedUntil.value < now)
  }

  function Released(row: Row, worker: WorkerId, now: int): Row {
    if row.lockedBy == Some(worker) then row.(lockedBy := None, lockedUntil := None, updatedAt := now) else row
  }

  /** What a worker asks transition to record. */
  datatype Change =
    | MarkUserCreated(user: User)
    | MarkPaymentCreated(payment: PublicPayment)
    | MarkCompleted(response: Response)
    | MarkFailed(error: Problem, retryable: bool, nextAction: Action, nextRetryAt: int)
    | MarkCompensated(error: Problem)

  /** The row that a change leaves behind. */
  function Changed(row: Row, change: Change, now: int): Row {
    match change
    case MarkUserCreated(user) =>
      row.(status := USER_CREATED, nextAction := PROCESS_PAYMENT, user := Some(user), error := None,
           retryable := false, nextRetryAt := None, response := None, updatedAt := now)
    case MarkPaymentCreated(payment) =>
      row.(status := PAYMENT_CREATED, nextAction := COMPLETE, payment := Some(payment), error := None,
           retryable := false, nextRetryAt := None, response := None, updatedAt := now)
    case MarkCompleted(response) =>
      row.(status := COMPLETED, nextAction := NOOP, response := Some(response), error := None,
           retryable := false, nextRetryAt := None, lockedBy := None, lockedUntil := None, updatedAt := now)
    case MarkFailed(error, retryable, nextAction, nextRetryAt) =>
      row.(status := FAILED, nextAction := nextAction, error := Some(error), retryable := retryable,
           attempts := row.attempts + 1, lastErrorAt := Some(now), nextRetryAt := Some(nextRetryAt),
           lockedBy := None, lockedUntil := None, updatedAt := now)
    case MarkCompensated(error) =>
      row.(status := COMPENSATED, nextAction := NOOP, error := Some(error), retryable := false,
           attempts := row.attempts + 1, lastErrorAt := Some(now), nextRetryAt := None,
           lockedBy := None, lockedUntil := None, updatedAt := now)
  }

  /** nextRetryAt: 2, 4, 8, 16, then 30 seconds. */
  function RetrySeconds(attempt: nat): int {
    Min(30, Pow(2, Min(attempt, 5)))
  }
}
