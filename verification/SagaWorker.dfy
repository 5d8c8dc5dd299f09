/**
 What one worker does with one claimed saga: executeStateMachine, cut at its awaits.

 A session advances by events.  Everything it learns from outside comes in with an event, so
 that any interleaving with other workers is a sequence of events of several sessions.
 */
module SagaWorker {
  import opened Wrappers
  import opened Contracts
  import opened SagaRow

  datatype HttpKind = BadRequest | Conflict | BadGateway

  datatype Exception =
    | Http(kind: HttpKind, body: Problem)
    | LockLost
    | StoreFailed
    | SnapshotIncomplete
    | NoUserSnapshot

  datatype Answer = Success(response: Response) | Failure(exception: Exception)

  function ToException(problem: Problem): Exception {
    if problem.status == 400 then Http(BadRequest, problem)
    else if problem.status == 409 then Http(Conflict, problem)
    else Http(BadGateway, problem)
  }

  function StatusOf(kind: HttpKind): int {
    match kind
    case BadRequest => 400
    case Conflict => 409
    case BadGateway => 502
  }

  const DOWNSTREAM_PROBLEM := Problem(502, DownstreamUnavailable)

  const STATE_INVALID := Http(BadGateway, Problem(502, SagaStateInvalid))

  const KEY_REUSED := Http(Conflict, Problem(409, IdempotencyKeyReused))

  const IN_PROGRESS := Http(Conflict, Problem(409, SagaInProgress))

  /** toProblem: the status is that of the exception, not the one in its body. */
  function ToProblem(exception: Exception): Problem {
    match exception
    case Http(kind, body) => Problem(StatusOf(kind), body.reason)
    case _ => DOWNSTREAM_PROBLEM
  }

  predicate IsRetryable(problem: Problem) {
    problem.status >= 500
  }

  function RpcException<T>(outcome: RpcOutcome<T>): Exception
    requires !outcome.Data?
  {
    match outcome
    case Refused(problem) => ToException(problem)
    case Unavailable => Http(BadGateway, DOWNSTREAM_PROBLEM)
  }

  function ToPublicPayment(intent: PaymentIntent): PublicPayment {
    PublicPayment(intent.id, intent.paymentReference, intent.amount, intent.currency, intent.paymentStatus,
                  intent.deliveryStatus, intent.expiresAt, intent.qrCode)
  }

  function UserStepKey(key: string): string { "user:" + key }

  function PaymentStepKey(key: string): string { "payment:" + key }

  function CompensationStepKey(key: string): string { "compensate:user:" + key }

  function UserRequest(command: Command): UserCreate {
    UserCreate(UserStepKey(command.idempotencyKey), UserStepDigest(command.requestHash), command.fields.email,
               command.fields.name, command.fields.cellphone, command.fields.taxId)
  }

  function PaymentRequest(command: Command, userId: string): PaymentCreate {
    var fields := command.fields;
    PaymentCreate(PaymentStepKey(command.idempotencyKey),
                  PaymentStepDigest(command.requestHash, userId, fields.amount, fields.currency), userId,
                  fields.name, fields.email, fields.cellphone, fields.taxId, fields.amount, fields.currency)
  }

  function CompensationRequest(command: Command, userId: string): UserCompensate {
    UserCompensate(CompensationStepKey(command.idempotencyKey), userId)
  }

  function CompletedReplay(saga: Row): Option<Response> {
    if saga.status == COMPLETED then saga.response else None
  }

  predicate IsTerminalFailure(saga: Row) {
    saga.status in {FAILED, COMPENSATED} && !saga.retryable && saga.error.Some?
  }

  /** How far a session has come; each constructor is a point where other workers can run. */
  datatype Stage =
    | Opening
    | Dispatching
    | AwaitingUser
    | SavingUser(user: User)
    | AwaitingPayment
    | SavingPayment(payment: PublicPayment)
    | SavingFailure(problem: Problem)
    | AwaitingCompensation
    | SavingCompensation
    | SavingResponse(response: Response)
    | Closing(answer: Answer)
    | Closed(answer: Answer)

  /** claimed is the row as it was when the lock was taken; current is the snapshot in memory. */
  datatype Session = Session(command: Command, claimed: Row, current: Row, stage: Stage, rounds: nat, rpcs: nat)

  function Opened(command: Command, saga: Row): Session {
    Session(command, saga, saga, Opening, 0, 0)
  }

  datatype Event =
    | Inspect
    | Dispatch
    | UserReply(user: RpcOutcome<User>)
    | PaymentReply(intent: RpcOutcome<PaymentIntent>)
    | CompensationReply(compensated: RpcOutcome<bool>)
    | Saved(row: Row)
    | NotSaved(exception: Exception)
    | Finish

  /** The opening checks: replay a completed saga, repeat a permanent failure. */
  function Inspected(s: Session): Session {
    if CompletedReplay(s.current).Some? then
      s.(stage := Closing(Success(CompletedReplay(s.current).value.WithReplayFlag(true))))
    else if IsTerminalFailure(s.current) then
      s.(stage := Closing(Failure(ToException(s.current.error.value))))
    else
      s.(stage := Dispatching)
  }

  /** One turn of the switch up to its first await. */
  function Dispatched(s: Session): Session {
    var turn := s.(rounds := s.rounds + 1);
    match s.current.nextAction
    case PROCESS_USER =>
      turn.(stage := AwaitingUser, rpcs := s.rpcs + 1)
    case PROCESS_PAYMENT =>
      if s.current.user.None? then turn.(stage := SavingFailure(ToProblem(NoUserSnapshot)))
      else turn.(stage := AwaitingPayment, rpcs := s.rpcs + 1)
    case COMPENSATE_USER =>
      if s.current.user.None? then turn.(stage := Closing(Failure(NoUserSnapshot)))
      else turn.(stage := AwaitingCompensation, rpcs := s.rpcs + 1)
    case COMPLETE =>
      if s.current.user.None? || s.current.payment.None? then turn.(stage := Closing(Failure(SnapshotIncomplete)))
      else turn.(stage := SavingResponse(ComposedResponse(s.current)))
    case NOOP =>
      if CompletedReplay(s.current).Some? then
        turn.(stage := Closing(Success(CompletedReplay(s.current).value.WithReplayFlag(s.current.status == COMPLETED))))
      else if s.current.error.Some? then
        turn.(stage := Closing(Failure(ToException(s.current.error.value))))
      else
        turn.(stage := Closing(Failure(STATE_INVALID)))
  }

  function ComposedResponse(saga: Row): Response
    requires saga.user.Some? && saga.payment.Some?
  {
    Response(saga.user.value, saga.payment.value, saga.rootCorrelationId, saga.idempotencyKey, false)
  }

  /** What the stage asks the repository to record. */
  function Request(s: Session, retryAt: int): Option<Change> {
    match s.stage
    case SavingUser(user) => Some(MarkUserCreated(user))
    case SavingPayment(payment) => Some(MarkPaymentCreated(payment))
    case SavingFailure(problem) =>
      Some(MarkFailed(problem, IsRetryable(problem),
                      if IsRetryable(problem) then PROCESS_PAYMENT else COMPENSATE_USER, retryAt))
    case SavingCompensation =>
      Some(MarkCompensated(if s.current.error.Some? then s.current.error.value
                           else Problem(502, CompensatedAfterFailure)))
    case SavingResponse(response) => Some(MarkCompleted(response))
    case _ => None
  }

  /** The session after the repository has returned the changed row. */
  function AfterSave(s: Session, row: Row): Session {
    var next := s.(current := row);
    match s.stage
    case SavingFailure(_) =>
      if row.status == COMPENSATED && row.error.Some? then
        next.(stage := Closing(Failure(ToException(row.error.value))))
      else next.(stage := Dispatching)
    case SavingCompensation =>
      next.(stage := Closing(Failure(if row.error.Some? then ToException(row.error.value) else STATE_INVALID)))
    case SavingResponse(response) => next.(stage := Closing(Success(response)))
    case _ => next.(stage := Dispatching)
  }

  /** The session after the repository has thrown: only the payment step catches it. */
  function AfterFailedSave(s: Session, exception: Exception): Session {
    match s.stage
    case SavingPayment(_) => s.(stage := SavingFailure(ToProblem(exception)))
    case _ => s.(stage := Closing(Failure(exception)))
  }

  predicate Accepts(s: Session, event: Event) {
    match event
    case Inspect => s.stage.Opening?
    case Dispatch => s.stage.Dispatching?
    case UserReply(_) => s.stage.AwaitingUser?
    case PaymentReply(_) => s.stage.AwaitingPayment?
    case CompensationReply(_) => s.stage.AwaitingCompensation?
    case Saved(_) => Request(s, 0).Some?
    case NotSaved(exception) => Request(s, 0).Some? && exception in {LockLost, StoreFailed}
    case Finish => s.stage.Closing?
  }

  function Advance(s: Session, event: Event): Session
    requires Accepts(s, event)
  {
    match event
    case Inspect => Inspected(s)
    case Dispatch => Dispatched(s)
    case UserReply(outcome) =>
      s.(stage := if outcome.Data? then SavingUser(outcome.data) else Closing(Failure(RpcException(outcome))))
    case PaymentReply(outcome) =>
      s.(stage := if outcome.Data? then SavingPayment(ToPublicPayment(outcome.data))
                  else SavingFailure(ToProblem(RpcException(outcome))))
    case CompensationReply(outcome) =>
      s.(stage := if outcome.Data? then SavingCompensation else Closing(Failure(RpcException(outcome))))
    case Saved(row) => AfterSave(s, row)
    case NotSaved(exception) => AfterFailedSave(s, exception)
    case Finish => s.(stage := Closed(s.stage.answer))
  }

  /** A payment refusal is permanent exactly on the statuses 400 and 409. */
  lemma PermanentExactlyOn400And409(outcome: RpcOutcome<PaymentIntent>)
    requires !outcome.Data?
    ensures !IsRetryable(ToProblem(RpcException(outcome)))
            <==> outcome.Refused? && outcome.problem.status in {400, 409}
  {
    if outcome.Refused? {
      assert RpcException(outcome) == ToException(outcome.problem);
    }
  }
}
