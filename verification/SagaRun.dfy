/**
 All workers on the row of one idempotency key: claims, RPC replies, saves, releases and polls
 in any order, with any clock readings.  A worker id is used for one claim of the key.
 */
module SagaRun {
  import opened Wrappers
  import opened Contracts
  import opened SagaRow
  import opened SagaWorker

  datatype Reply = Reply(requestHash: Digest, answer: Answer)

  /** The row and the sessions, and everything ever sent, refused and answered for the key. */
  datatype KeyState = KeyState(
    row: Option<Row>,
    sessions: map<WorkerId, Session>,
    paymentRequests: set<PaymentCreate>,
    refusals: set<Problem>,
    compensations: set<UserCompensate>,
    replies: seq<Reply>)

  const UNTOUCHED := KeyState(None, map[], {}, {}, {}, [])

  datatype KeyStep =
    | TakeCommand(command: Command, worker: WorkerId, until: int, now: int)
    | Recover(messageId: string, worker: WorkerId, until: int, now: int)
    | Progress(worker: WorkerId, event: Event)
    | Save(worker: WorkerId, retryAt: int, now: int)
    | StoreFails(worker: WorkerId)
    | Release(worker: WorkerId, now: int)
    | ReleaseFails(worker: WorkerId)
    | Poll(requestHash: Digest)
    | PollTimesOut(requestHash: Digest)

  predicate IsLocal(event: Event) {
    !event.Saved? && !event.NotSaved? && !event.Finish?
  }

  ghost predicate Enabled(key: string, s: KeyState, step: KeyStep) {
    match step
    case TakeCommand(command, worker, _, _) =>
      command.idempotencyKey == key && command.Digested() && worker !in s.sessions
    case Recover(_, worker, _, now) => s.row.Some? && Recoverable(s.row.value, now) && worker !in s.sessions
    case Progress(worker, event) => worker in s.sessions && Accepts(s.sessions[worker], event) && IsLocal(event)
    case Save(worker, _, _) => worker in s.sessions && Request(s.sessions[worker], 0).Some?
    case StoreFails(worker) => worker in s.sessions && Request(s.sessions[worker], 0).Some?
    case Release(worker, _) => worker in s.sessions && s.sessions[worker].stage.Closing?
    case ReleaseFails(worker) => worker in s.sessions && s.sessions[worker].stage.Closing?
    case Poll(_) => true
    case PollTimesOut(_) => true
  }

  function RecoveryCommand(messageId: string, saga: Row): Command {
    Command(messageId, saga.rootCorrelationId, saga.idempotencyKey, saga.requestHash, saga.requestPayload)
  }

  /** Puts the session's new form in place and records what this step sent and answered. */
  function WithSession(s: KeyState, worker: WorkerId, session: Session): KeyState {
    s.(sessions := s.sessions[worker := session],
       paymentRequests := s.paymentRequests +
         (if session.stage.AwaitingPayment? && session.current.user.Some?
          then {PaymentRequest(session.command, session.current.user.value.id)} else {}),
       compensations := s.compensations +
         (if session.stage.AwaitingCompensation? && session.current.user.Some?
          then {CompensationRequest(session.command, session.current.user.value.id)} else {}),
       replies := s.replies +
         (if session.stage.Closing? then [Reply(session.command.requestHash, session.stage.answer)] else []))
  }

  function Claimed(s: KeyState, command: Command, worker: WorkerId, saga: Row): KeyState {
    WithSession(s.(row := Some(saga)), worker, Opened(command, saga))
  }

  /** One look of waitForSettledSaga; None means that it goes on waiting. */
  function PollAnswer(row: Option<Row>, requestHash: Digest): Option<Answer> {
    if row.None? then Some(Failure(IN_PROGRESS))
    else if row.value.requestHash != requestHash then Some(Failure(KEY_REUSED))
    else if CompletedReplay(row.value).Some? then
      Some(Success(CompletedReplay(row.value).value.WithReplayFlag(true)))
    else if IsTerminalFailure(row.value) then Some(Failure(ToException(row.value.error.value)))
    else None
  }

  function RefusalOf(event: Event): set<Problem> {
    if event.PaymentReply? && event.intent.Refused? then {event.intent.problem} else {}
  }

  predicate Holds(s: KeyState, worker: WorkerId) {
    s.row.Some? && s.row.value.lockedBy == Some(worker)
  }

  ghost function Apply(key: string, s: KeyState, step: KeyStep): KeyState
    requires Enabled(key, s, step)
  {
    match step
    case TakeCommand(command, worker, until, now) =>
      (match Acquire(s.row, command, worker, until, now)
       case HashConflict => s.(replies := s.replies + [Reply(command.requestHash, Failure(KEY_REUSED))])
       case Busy => s
       case Acquired(saga) => Claimed(s, command, worker, saga))
    case Recover(messageId, worker, until, now) =>
      Claimed(s, RecoveryCommand(messageId, s.row.value), worker, Locked(s.row.value, worker, until, now))
    case Progress(worker, event) =>
      WithSession(s.(refusals := s.refusals + RefusalOf(event)), worker, Advance(s.sessions[worker], event))
    case Save(worker, retryAt, now) =>
      var session := s.sessions[worker];
      if Holds(s, worker) then
        var row := Changed(s.row.value, Request(session, retryAt).value, now);
        WithSession(s.(row := Some(row)), worker, Advance(session, Saved(row)))
      else
        WithSession(s, worker, Advance(session, NotSaved(LockLost)))
    case StoreFails(worker) =>
      WithSession(s, worker, Advance(s.sessions[worker], NotSaved(StoreFailed)))
    case Release(worker, now) =>
      WithSession(if s.row.Some? then s.(row := Some(Released(s.row.value, worker, now))) else s,
                  worker, Advance(s.sessions[worker], Finish))
    case ReleaseFails(worker) =>
      WithSession(s, worker, Advance(s.sessions[worker], Finish))
    case Poll(requestHash) =>
      var answer := PollAnswer(s.row, requestHash);
      if answer.Some? then s.(replies := s.replies + [Reply(requestHash, answer.value)]) else s
    case PollTimesOut(requestHash) =>
      s.(replies := s.replies + [Reply(requestHash, Failure(IN_PROGRESS))])
  }

  // ---------------------------------------------------------------------------------------
  // The invariant
  // ---------------------------------------------------------------------------------------

  /** The shapes a row can have; COMPENSATED is not among them. */
  ghost predicate RowOk(key: string, r: Row) {
    && r.idempotencyKey == key
    && r.requestHash == RootDigest(r.requestPayload)
    && r.user.Some? == (r.status != STARTED)
    && r.payment.Some? == (r.status in {PAYMENT_CREATED, COMPLETED})
    && r.error.Some? == (r.status == FAILED)
    && match r.status
       case STARTED => r.nextAction == PROCESS_USER && r.response.None?
       case USER_CREATED => r.nextAction == PROCESS_PAYMENT && r.response.None?
       case PAYMENT_CREATED => r.nextAction == COMPLETE && r.response.None?
       case COMPLETED => r.nextAction == NOOP && r.response == Some(ComposedResponse(r))
       case FAILED =>
         && r.response.None? && r.retryable == IsRetryable(r.error.value)
         && r.nextAction == (if r.retryable then PROCESS_PAYMENT else COMPENSATE_USER)
       case COMPENSATED => false
  }

  /** What later rows of a key keep of an earlier one. */
  ghost predicate Evolves(earlier: Row, later: Row) {
    && later.idempotencyKey == earlier.idempotencyKey
    && later.requestHash == earlier.requestHash
    && later.requestPayload == earlier.requestPayload
    && later.rootCorrelationId == earlier.rootCorrelationId
    && (earlier.user.Some? ==> later.user == earlier.user)
    && (earlier.payment.Some? ==> later.payment == earlier.payment)
    && (earlier.response.Some? ==> later.response == earlier.response)
    && (earlier.status == COMPLETED ==> later.status == COMPLETED)
    && (IsTerminalFailure(earlier) ==>
        && later.status == earlier.status && !later.retryable && later.error == earlier.error
        && later.user == earlier.user && later.payment == earlier.payment)
  }

  /** The turns of the loop a session can still take when it is about to dispatch. */
  function TurnsLeft(saga: Row): nat {
    if saga.lockedBy.None? then 1
    else match saga.nextAction
      case PROCESS_USER => 3
      case PROCESS_PAYMENT => 2
      case COMPLETE => 1
      case _ => 1
  }

  predicate InLoop(stage: Stage) {
    !stage.Opening? && !stage.Closing? && !stage.Closed?
  }

  /** A problem that toProblem made of a refusal with status 400 or 409. */
  ghost predicate RefusedFor(problem: Problem, refusals: set<Problem>) {
    exists refusal :: refusal in refusals && refusal.status in {400, 409} && problem == ToProblem(ToException(refusal))
  }

  ghost predicate StageOk(s: Session, refusals: set<Problem>) {
    match s.stage
    case Opening => s.rounds == 0 && s.current == s.claimed
    case Dispatching => s.rounds + TurnsLeft(s.current) <= 3
    case AwaitingUser => s.current.nextAction == PROCESS_USER
    case SavingUser(_) => s.current.nextAction == PROCESS_USER
    case AwaitingPayment => s.current.nextAction == PROCESS_PAYMENT
    case SavingPayment(_) => s.current.nextAction == PROCESS_PAYMENT
    case SavingFailure(problem) =>
      s.current.nextAction == PROCESS_PAYMENT && (IsRetryable(problem) || RefusedFor(problem, refusals))
    case AwaitingCompensation => s.current.nextAction == COMPENSATE_USER
    case SavingCompensation => s.current.nextAction == COMPENSATE_USER
    case SavingResponse(response) =>
      && s.current.nextAction == COMPLETE && s.current.user.Some? && s.current.payment.Some?
      && response == ComposedResponse(s.current)
    case Closing(_) => true
    case Closed(_) => true
  }

  ghost predicate SessionOk(key: string, worker: WorkerId, s: Session, row: Row, refusals: set<Problem>) {
    && s.command.idempotencyKey == key && s.command.Digested() && s.command.requestHash == row.requestHash
    && RowOk(key, s.claimed) && RowOk(key, s.current)
    && Evolves(s.claimed, s.current) && Evolves(s.current, row)
    && s.claimed.lockedBy == Some(worker)
    && s.current.lockedBy in {Some(worker), None}
    && s.rounds <= 3 && s.rpcs <= s.rounds
    && StageOk(s, refusals)
    && (InLoop(s.stage) ==>
        && s.claimed.status != COMPLETED && !IsTerminalFailure(s.claimed)
        && s.current.status != COMPLETED
        && (s.current.lockedBy.Some? ==> !IsTerminalFailure(s.current))
        && (!s.stage.Dispatching? ==> s.rounds + TurnsLeft(s.current) <= 4))
    && (s.stage.Closing? || s.stage.Closed? ==>
        IsTerminalFailure(s.claimed) ==> s.stage.answer == Failure(ToException(s.claimed.error.value)))
  }

  /** SessionOk, for proofs that need not look inside it. */
  ghost predicate IsSound(key: string, worker: WorkerId, s: Session, row: Row, refusals: set<Problem>) {
    forall t :: t == s ==> SessionOk(key, worker, t, row, refusals)
  }

  ghost predicate SessionsOk(key: string, s: KeyState) {
    && (s.row.None? ==> s.sessions == map[])
    && forall worker :: worker in s.sessions && s.row.Some? ==>
         IsSound(key, worker, s.sessions[worker], s.row.value, s.refusals)
  }

  /** Whoever holds the lock has the row itself in memory. */
  ghost predicate LockOk(s: KeyState) {
    forall worker :: Holds(s, worker) ==> worker in s.sessions && s.sessions[worker].current == s.row.value
  }

  ghost predicate MessagesOk(key: string, s: KeyState) {
    && (forall request :: request in s.paymentRequests ==>
          s.row.Some? && s.row.value.user.Some? && request == RowPaymentRequest(key, s.row.value))
    && (forall request :: request in s.compensations ==>
          s.row.Some? && IsTerminalFailure(s.row.value) && s.row.value.user.Some?
          && request == UserCompensate(CompensationStepKey(key), s.row.value.user.value.id))
    && (s.row.Some? && IsTerminalFailure(s.row.value) ==> RefusedFor(s.row.value.error.value, s.refusals))
  }

  function RowPaymentRequest(key: string, saga: Row): PaymentCreate
    requires saga.user.Some?
  {
    PaymentRequest(Command("", "", key, saga.requestHash, saga.requestPayload), saga.user.value.id)
  }

  ghost predicate FirstSuccess(reply: Reply) {
    reply.answer.Success? && !reply.answer.response.replayed
  }

  ghost predicate RepliesOk(s: KeyState) {
    && (forall i :: 0 <= i < |s.replies| && s.replies[i].answer.Success? ==>
          && s.row.Some? && s.row.value.status == COMPLETED
          && s.replies[i].requestHash == s.row.value.requestHash
          && s.row.value.response == Some(s.replies[i].answer.response.WithReplayFlag(false)))
    && (forall i, j :: 0 <= i < j < |s.replies| ==> !(FirstSuccess(s.replies[i]) && FirstSuccess(s.replies[j])))
    && (forall worker :: worker in s.sessions && (s.sessions[worker].stage.Closing? || s.sessions[worker].stage.Closed?)
          ==> Reply(s.sessions[worker].command.requestHash, s.sessions[worker].stage.answer) in s.replies)
  }

  ghost predicate Consistent(key: string, s: KeyState) {
    && (s.row.Some? ==> RowOk(key, s.row.value))
    && SessionsOk(key, s)
    && LockOk(s)
    && MessagesOk(key, s)
    && RepliesOk(s)
  }

  /** The invariant of a key; a step lemma looks inside it only where it says so. */
  ghost predicate Inv(key: string, s: KeyState) {
    forall t :: t == s ==> Consistent(key, t)
  }

  lemma Inside(key: string, s: KeyState)
    requires Inv(key, s)
    ensures (s.row.Some? ==> RowOk(key, s.row.value)) && SessionsOk(key, s) && LockOk(s) && MessagesOk(key, s) && RepliesOk(s)
  {
    assert Consistent(key, s);
  }

  lemma InvHoldsAtFirst(key: string)
    ensures Inv(key, UNTOUCHED)
  {
  }

  lemma EvolvesIsTransitive(a: Row, b: Row, c: Row)
    requires Evolves(a, b) && Evolves(b, c)
    ensures Evolves(a, c)
  {
  }

  // ---------------------------------------------------------------------------------------
  // Every step keeps the invariant
  // ---------------------------------------------------------------------------------------

  lemma SessionStaysOk(key: string, worker: WorkerId, s: Session, row: Row, refusals: set<Problem>,
                       row': Row, refusals': set<Problem>)
    requires SessionOk(key, worker, s, row, refusals)
    requires Evolves(row, row') && refusals <= refusals'
    ensures SessionOk(key, worker, s, row', refusals')
  {
  }

  /** Taking the lock changes nothing that Evolves looks at. */
  lemma LockingEvolves(key: string, row: Row, worker: WorkerId, until: int, now: int)
    requires RowOk(key, row)
    ensures RowOk(key, Locked(row, worker, until, now)) && Evolves(row, Locked(row, worker, until, now))
  {
  }

  lemma ClaimKeepsSessions(key: string, s: KeyState, before: Row, command: Command, worker: WorkerId, until: int, now: int)
    requires Inv(key, s) && worker !in s.sessions
    requires s.row.Some? ==> s.row.value == before
    requires s.row.None? ==> before == Inserted(command, now)
    requires command.idempotencyKey == key && command.Digested() && command.requestHash == before.requestHash
    ensures SessionsOk(key, Claimed(s, command, worker, Locked(before, worker, until, now)))
  {
    assert SessionsOk(key, s) && (s.row.Some? ==> RowOk(key, before)) by {
      Inside(key, s);
    }
    var saga := Locked(before, worker, until, now);
    var s' := Claimed(s, command, worker, saga);
    LockingEvolves(key, before, worker, until, now);
    forall w | w in s'.sessions
      ensures SessionOk(key, w, s'.sessions[w], saga, s'.refusals)
    {
      if w != worker {
        SessionStaysOk(key, w, s.sessions[w], before, s.refusals, saga, s'.refusals);
      }
    }
  }

  lemma ClaimKeepsInv(key: string, s: KeyState, before: Row, command: Command, worker: WorkerId, until: int, now: int)
    requires Inv(key, s) && worker !in s.sessions
    requires s.row.Some? ==> s.row.value == before
    requires s.row.None? ==> before == Inserted(command, now)
    requires command.idempotencyKey == key && command.Digested() && command.requestHash == before.requestHash
    ensures Inv(key, Claimed(s, command, worker, Locked(before, worker, until, now)))
  {
    Inside(key, s);
    LockingEvolves(key, before, worker, until, now);
    ClaimKeepsSessions(key, s, before, command, worker, until, now);
  }

  lemma DispatchKeepsSession(key: string, worker: WorkerId, s: Session, row: Row, refusals: set<Problem>)
    requires SessionOk(key, worker, s, row, refusals) && s.stage.Dispatching?
    ensures IsSound(key, worker, Dispatched(s), row, refusals)
  {
  }

  lemma InspectKeepsSession(key: string, worker: WorkerId, s: Session, row: Row, refusals: set<Problem>)
    requires SessionOk(key, worker, s, row, refusals) && s.stage.Opening?
    ensures IsSound(key, worker, Inspected(s), row, refusals)
  {
  }

  lemma ReplyKeepsSession(key: string, worker: WorkerId, s: Session, row: Row, refusals: set<Problem>, event: Event)
    requires SessionOk(key, worker, s, row, refusals) && Accepts(s, event)
    requires event.UserReply? || event.PaymentReply? || event.CompensationReply?
    ensures IsSound(key, worker, Advance(s, event), row, refusals + RefusalOf(event))
  {
  }

  lemma EndKeepsSession(key: string, worker: WorkerId, s: Session, row: Row, refusals: set<Problem>, event: Event)
    requires SessionOk(key, worker, s, row, refusals) && Accepts(s, event) && (event.NotSaved? || event.Finish?)
    requires event.NotSaved? && event.exception == LockLost ==> row.lockedBy != Some(worker)
    ensures IsSound(key, worker, Advance(s, event), row, refusals)
  {
  }

  /** A session that only moves on in memory: the row stays as it is. */
  lemma LocalEventKeepsSession(key: string, worker: WorkerId, s: Session, row: Row, refusals: set<Problem>, event: Event)
    requires SessionOk(key, worker, s, row, refusals)
    requires Accepts(s, event) && (IsLocal(event) || event.Finish? || event.NotSaved?)
    requires event.NotSaved? && event.exception == LockLost ==> row.lockedBy != Some(worker)
    ensures IsSound(key, worker, Advance(s, event), row, refusals + RefusalOf(event))
  {
    if event.Dispatch? {
      DispatchKeepsSession(key, worker, s, row, refusals);
    } else if event.Inspect? {
      InspectKeepsSession(key, worker, s, row, refusals);
    } else if event.NotSaved? || event.Finish? {
      EndKeepsSession(key, worker, s, row, refusals, event);
    } else {
      ReplyKeepsSession(key, worker, s, row, refusals, event);
    }
    assert !event.PaymentReply? ==> refusals + RefusalOf(event) == refusals;
  }

  /** Messages sent by a session that sends: they are those of the row. */
  lemma SentMessagesAreTheRows(key: string, worker: WorkerId, s: Session, row: Row, refusals: set<Problem>)
    requires SessionOk(key, worker, s, row, refusals) && s.current.user.Some?
    ensures row.user.Some?
    ensures PaymentRequest(s.command, s.current.user.value.id) == RowPaymentRequest(key, row)
    ensures CompensationRequest(s.command, s.current.user.value.id)
            == UserCompensate(CompensationStepKey(key), row.user.value.id)
    ensures s.stage.AwaitingCompensation? ==> IsTerminalFailure(row)
  {
  }

  /** A reply that may be given while the row is as it is: a success repeats the stored response. */
  ghost predicate ReplyFits(row: Row, reply: Reply) {
    reply.answer.Success? ==>
      && row.status == COMPLETED && reply.requestHash == row.requestHash
      && row.response == Some(reply.answer.response.WithReplayFlag(false))
      && reply.answer.response.replayed
  }

  function ReplyOf(s: Session): Reply
    requires s.stage.Closing? || s.stage.Closed?
  {
    Reply(s.command.requestHash, s.stage.answer)
  }

  /** A session that moves on without touching the row, and answers only what fits. */
  ghost predicate Moves(s: KeyState, worker: WorkerId, session: Session, refusals: set<Problem>, key: string) {
    && s.row.Some? && worker in s.sessions && s.refusals <= refusals
    && IsSound(key, worker, session, s.row.value, refusals)
    && session.current == s.sessions[worker].current
    && (session.stage.Closing? ==> ReplyFits(s.row.value, ReplyOf(session)))
    && (session.stage.Closed? ==> ReplyOf(session) in s.replies)
  }

  lemma LocalEventMoves(key: string, s: KeyState, worker: WorkerId, event: Event)
    requires Inv(key, s) && worker in s.sessions && Accepts(s.sessions[worker], event)
    requires IsLocal(event) || event.Finish? || event.NotSaved?
    requires event == NotSaved(LockLost) ==> !Holds(s, worker)
    ensures Moves(s, worker, Advance(s.sessions[worker], event), s.refusals + RefusalOf(event), key)
  {
    Inside(key, s);
    var session := s.sessions[worker];
    assert SessionOk(key, worker, session, s.row.value, s.refusals);
    LocalEventKeepsSession(key, worker, session, s.row.value, s.refusals, event);
    if event.Finish? {
      assert Reply(session.command.requestHash, session.stage.answer) in s.replies;
    }
  }

  lemma MovingKeepsSessions(key: string, s: KeyState, worker: WorkerId, session: Session, refusals: set<Problem>)
    requires Inv(key, s) && Moves(s, worker, session, refusals, key)
    ensures SessionsOk(key, WithSession(s.(refusals := refusals), worker, session))
    ensures LockOk(WithSession(s.(refusals := refusals), worker, session))
  {
    Inside(key, s);
    var s' := WithSession(s.(refusals := refusals), worker, session);
    forall w | w in s'.sessions
      ensures SessionOk(key, w, s'.sessions[w], s.row.value, refusals)
    {
      if w != worker {
        SessionStaysOk(key, w, s.sessions[w], s.row.value, s.refusals, s.row.value, refusals);
      }
    }
  }

  lemma MovingKeepsMessages(key: string, s: KeyState, worker: WorkerId, session: Session, refusals: set<Problem>)
    requires Inv(key, s) && Moves(s, worker, session, refusals, key)
    ensures MessagesOk(key, WithSession(s.(refusals := refusals), worker, session))
  {
    Inside(key, s);
    if session.current.user.Some? {
      SentMessagesAreTheRows(key, worker, session, s.row.value, refusals);
    }
  }

  lemma MovingKeepsReplies(key: string, s: KeyState, worker: WorkerId, session: Session, refusals: set<Problem>)
    requires Inv(key, s) && Moves(s, worker, session, refusals, key)
    ensures RepliesOk(WithSession(s.(refusals := refusals), worker, session))
  {
    Inside(key, s);
    var s' := WithSession(s.(refusals := refusals), worker, session);
    if session.stage.Closing? {
      assert s'.replies[|s.replies|] == ReplyOf(session);
    }
    forall w | w in s'.sessions && (s'.sessions[w].stage.Closing? || s'.sessions[w].stage.Closed?)
      ensures ReplyOf(s'.sessions[w]) in s'.replies
    {
      if w != worker {
        assert Reply(s.sessions[w].command.requestHash, s.sessions[w].stage.answer) in s.replies;
      }
    }
  }

  lemma MovingKeepsInv(key: string, s: KeyState, worker: WorkerId, session: Session, refusals: set<Problem>)
    requires Inv(key, s) && Moves(s, worker, session, refusals, key)
    ensures Inv(key, WithSession(s.(refusals := refusals), worker, session))
  {
    Inside(key, s);
    MovingKeepsSessions(key, s, worker, session, refusals);
    MovingKeepsMessages(key, s, worker, session, refusals);
    MovingKeepsReplies(key, s, worker, session, refusals);
  }

  /** What a save makes of the row, when the session that holds the lock asks for it. */
  lemma SaveEvolvesRow(key: string, worker: WorkerId, s: Session, row: Row, refusals: set<Problem>, retryAt: int, now: int)
    requires SessionOk(key, worker, s, row, refusals) && RowOk(key, row)
    requires s.current == row && row.lockedBy == Some(worker) && Request(s, 0).Some?
    ensures RowOk(key, Changed(row, Request(s, retryAt).value, now))
    ensures Evolves(row, Changed(row, Request(s, retryAt).value, now))
    ensures Changed(row, Request(s, retryAt).value, now).lockedBy in {Some(worker), None}
  {
    if s.stage.SavingFailure? && !IsRetryable(s.stage.problem) {
      assert RefusedFor(s.stage.problem, refusals);
    }
  }

  lemma SaveKeepsSession(key: string, worker: WorkerId, s: Session, row: Row, refusals: set<Problem>, retryAt: int, now: int)
    requires SessionOk(key, worker, s, row, refusals) && RowOk(key, row)
    requires s.current == row && row.lockedBy == Some(worker) && Request(s, 0).Some?
    ensures var row' := Changed(row, Request(s, retryAt).value, now);
            SessionOk(key, worker, Advance(s, Saved(row')), row', refusals)
  {
    SaveEvolvesRow(key, worker, s, row, refusals, retryAt, now);
    EvolvesIsTransitive(s.claimed, s.current, Changed(row, Request(s, retryAt).value, now));
  }

  /** A session that moves on and replaces the row by one that evolves from it. */
  ghost predicate Replaces(key: string, s: KeyState, worker: WorkerId, session: Session, row: Row) {
    && s.row.Some? && worker in s.sessions
    && RowOk(key, row) && Evolves(s.row.value, row)
    && IsSound(key, worker, session, row, s.refusals)
    && (row.lockedBy.Some? ==> row.lockedBy == Some(worker) || row == s.row.value)
    && (row.lockedBy == Some(worker) ==> session.current == row)
    && (IsTerminalFailure(row) ==> RefusedFor(row.error.value, s.refusals))
    && (session.stage.Closing? ==>
        || ReplyFits(row, ReplyOf(session))
        || (&& s.row.value.status != COMPLETED && row.status == COMPLETED
            && session.command.requestHash == row.requestHash
            && session.stage.answer.Success? && row.response == Some(session.stage.answer.response)
            && !session.stage.answer.response.replayed))
    && (session.stage.Closed? ==> ReplyOf(session) in s.replies)
  }

  lemma ReplacingKeepsSessions(key: string, s: KeyState, worker: WorkerId, session: Session, row: Row)
    requires Inv(key, s) && Replaces(key, s, worker, session, row)
    ensures SessionsOk(key, WithSession(s.(row := Some(row)), worker, session))
    ensures LockOk(WithSession(s.(row := Some(row)), worker, session))
  {
    Inside(key, s);
    var s' := WithSession(s.(row := Some(row)), worker, session);
    forall w | w in s'.sessions
      ensures SessionOk(key, w, s'.sessions[w], row, s.refusals)
    {
      if w != worker {
        SessionStaysOk(key, w, s.sessions[w], s.row.value, s.refusals, row, s.refusals);
      }
    }
    assert forall w :: Holds(s', w) && w != worker ==> Holds(s, w) && row == s.row.value;
  }

  lemma ReplacingKeepsMessages(key: string, s: KeyState, worker: WorkerId, session: Session, row: Row)
    requires Inv(key, s) && Replaces(key, s, worker, session, row)
    ensures MessagesOk(key, WithSession(s.(row := Some(row)), worker, session))
  {
    Inside(key, s);
    if session.current.user.Some? {
      SentMessagesAreTheRows(key, worker, session, row, s.refusals);
    }
  }

  lemma ReplacingKeepsReplies(key: string, s: KeyState, worker: WorkerId, session: Session, row: Row)
    requires Inv(key, s) && Replaces(key, s, worker, session, row)
    ensures RepliesOk(WithSession(s.(row := Some(row)), worker, session))
  {
    Inside(key, s);
    var s' := WithSession(s.(row := Some(row)), worker, session);
    if session.stage.Closing? {
      assert s'.replies[|s.replies|] == ReplyOf(session);
    }
    assert forall i :: 0 <= i < |s.replies| ==> s'.replies[i] == s.replies[i];
    forall w | w in s'.sessions && (s'.sessions[w].stage.Closing? || s'.sessions[w].stage.Closed?)
      ensures ReplyOf(s'.sessions[w]) in s'.replies
    {
      if w != worker {
        assert Reply(s.sessions[w].command.requestHash, s.sessions[w].stage.answer) in s.replies;
      }
    }
  }

  lemma ReplacingKeepsInv(key: string, s: KeyState, worker: WorkerId, session: Session, row: Row)
    requires Inv(key, s) && Replaces(key, s, worker, session, row)
    ensures Inv(key, WithSession(s.(row := Some(row)), worker, session))
  {
    Inside(key, s);
    ReplacingKeepsSessions(key, s, worker, session, row);
    ReplacingKeepsMessages(key, s, worker, session, row);
    ReplacingKeepsReplies(key, s, worker, session, row);
  }

  lemma SaveReplaces(key: string, s: KeyState, worker: WorkerId, retryAt: int, now: int)
    requires Inv(key, s) && worker in s.sessions && Request(s.sessions[worker], 0).Some? && Holds(s, worker)
    ensures var row := Changed(s.row.value, Request(s.sessions[worker], retryAt).value, now);
            Replaces(key, s, worker, Advance(s.sessions[worker], Saved(row)), row)
  {
    Inside(key, s);
    var session := s.sessions[worker];
    assert SessionOk(key, worker, session, s.row.value, s.refusals);
    assert session.current == s.row.value;
    SaveEvolvesRow(key, worker, session, s.row.value, s.refusals, retryAt, now);
    SaveKeepsSession(key, worker, session, s.row.value, s.refusals, retryAt, now);
  }

  lemma ReleaseReplaces(key: string, s: KeyState, worker: WorkerId, now: int)
    requires Inv(key, s) && s.row.Some? && worker in s.sessions && s.sessions[worker].stage.Closing?
    ensures Replaces(key, s, worker, Advance(s.sessions[worker], Finish), Released(s.row.value, worker, now))
  {
    Inside(key, s);
    var session := s.sessions[worker];
    var row := Released(s.row.value, worker, now);
    assert SessionOk(key, worker, session, s.row.value, s.refusals);
    assert Evolves(s.row.value, row);
    LocalEventKeepsSession(key, worker, session, s.row.value, s.refusals, Finish);
    assert s.refusals + RefusalOf(Finish) == s.refusals;
    SessionStaysOk(key, worker, Advance(session, Finish), s.row.value, s.refusals, row, s.refusals);
    assert Reply(session.command.requestHash, session.stage.answer) in s.replies;
  }

  lemma ReplyingKeepsInv(key: string, s: KeyState, reply: Reply)
    requires Inv(key, s)
    requires reply.answer.Success? ==> s.row.Some? && ReplyFits(s.row.value, reply)
    ensures Inv(key, s.(replies := s.replies + [reply]))
  {
    Inside(key, s);
    var s' := s.(replies := s.replies + [reply]);
    forall w | w in s'.sessions && (s'.sessions[w].stage.Closing? || s'.sessions[w].stage.Closed?)
      ensures Reply(s'.sessions[w].command.requestHash, s'.sessions[w].stage.answer) in s'.replies
    {
      assert Reply(s.sessions[w].command.requestHash, s.sessions[w].stage.answer) in s.replies;
    }
  }

  lemma TheRowIsOk(key: string, s: KeyState)
    requires Inv(key, s)
    ensures s.sessions != map[] ==> s.row.Some?
    ensures s.row.Some? ==> RowOk(key, s.row.value)
  {
    Inside(key, s);
  }

  /** Every step of every worker keeps the invariant. */
  lemma StepKeepsInv(key: string, s: KeyState, step: KeyStep)
    requires Inv(key, s) && Enabled(key, s, step)
    ensures Inv(key, Apply(key, s, step))
  {
    match step
    case TakeCommand(command, worker, until, now) =>
      var outcome := Acquire(s.row, command, worker, until, now);
      if outcome.HashConflict? {
        ReplyingKeepsInv(key, s, Reply(command.requestHash, Failure(KEY_REUSED)));
      } else if outcome.Acquired? {
        var before := if s.row.Some? then s.row.value else Inserted(command, now);
        ClaimKeepsInv(key, s, before, command, worker, until, now);
      }
    case Recover(messageId, worker, until, now) =>
      TheRowIsOk(key, s);
      ClaimKeepsInv(key, s, s.row.value, RecoveryCommand(messageId, s.row.value), worker, until, now);
    case Progress(worker, event) =>
      LocalEventMoves(key, s, worker, event);
      MovingKeepsInv(key, s, worker, Advance(s.sessions[worker], event), s.refusals + RefusalOf(event));
    case Save(worker, retryAt, now) =>
      if Holds(s, worker) {
        SaveReplaces(key, s, worker, retryAt, now);
        var row := Changed(s.row.value, Request(s.sessions[worker], retryAt).value, now);
        ReplacingKeepsInv(key, s, worker, Advance(s.sessions[worker], Saved(row)), row);
      } else {
        NotSavingKeepsInv(key, s, worker, LockLost);
      }
    case StoreFails(worker) => NotSavingKeepsInv(key, s, worker, StoreFailed);
    case Release(worker, now) =>
      TheRowIsOk(key, s);
      ReleaseReplaces(key, s, worker, now);
      ReplacingKeepsInv(key, s, worker, Advance(s.sessions[worker], Finish), Released(s.row.value, worker, now));
    case ReleaseFails(worker) =>
      LocalEventMoves(key, s, worker, Finish);
      assert s.refusals + RefusalOf(Finish) == s.refusals;
      MovingKeepsInv(key, s, worker, Advance(s.sessions[worker], Finish), s.refusals);
    case Poll(requestHash) =>
      var answer := PollAnswer(s.row, requestHash);
      if answer.Some? {
        TheRowIsOk(key, s);
        ReplyingKeepsInv(key, s, Reply(requestHash, answer.value));
      }
    case PollTimesOut(requestHash) =>
      ReplyingKeepsInv(key, s, Reply(requestHash, Failure(IN_PROGRESS)));
  }

  lemma NotSavingKeepsInv(key: string, s: KeyState, worker: WorkerId, exception: Exception)
    requires Inv(key, s) && worker in s.sessions && Request(s.sessions[worker], 0).Some?
    requires exception in {LockLost, StoreFailed} && (exception == LockLost ==> !Holds(s, worker))
    ensures Inv(key, WithSession(s, worker, Advance(s.sessions[worker], NotSaved(exception))))
  {
    LocalEventMoves(key, s, worker, NotSaved(exception));
    assert s.refusals + RefusalOf(NotSaved(exception)) == s.refusals;
    MovingKeepsInv(key, s, worker, Advance(s.sessions[worker], NotSaved(exception)), s.refusals);
  }
}
