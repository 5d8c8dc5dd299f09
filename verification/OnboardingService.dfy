/**
 The service loops: executeStateMachine, create, waitForSettledSaga and recoverPendingSagas.

 At every await the other workers may run any statements of their own.  Each execution of the
 loop is shown to be a sequence of events of one session, the unit of which the runs of module
 SagaRun are made.
 */
module OnboardingService {
  import opened Wrappers
  import opened Contracts
  import opened SagaRow
  import opened SagaWorker
  import opened SagaRun
  import opened SagaRepository
  import opened Selection

  /** What the surroundings do at the n-th await: replies to requests, statements of others, faults, the clock. */
  datatype Surroundings = Surroundings(
    userReply: (nat, UserCreate) -> RpcOutcome<User>,
    paymentReply: (nat, PaymentCreate) -> RpcOutcome<PaymentIntent>,
    compensationReply: (nat, UserCompensate) -> RpcOutcome<bool>,
    others: nat -> seq<RowStep>,
    storeFails: nat -> bool,
    clock: nat -> int)

  /** When a failed payment is to be tried again. */
  function RetryAt(s: Session, now: int): int {
    if s.stage.SavingFailure? && IsRetryable(s.stage.problem) then now + RetrySeconds(s.current.attempts + 1) * 1000
    else now
  }

  /**
   The event is what the surroundings answer at that tick to what the session asks of them: a reply
   to the request of its step, or the row with the change of its stage.
   */
  predicate Comes(world: Surroundings, s: Session, event: Event, tick: nat) {
    && Accepts(s, event)
    && match event
       case UserReply(reply) => reply == world.userReply(tick, UserRequest(s.command))
       case PaymentReply(reply) =>
         s.current.user.Some?
         && reply == world.paymentReply(tick, PaymentRequest(s.command, s.current.user.value.id))
       case CompensationReply(reply) =>
         s.current.user.Some?
         && reply == world.compensationReply(tick, CompensationRequest(s.command, s.current.user.value.id))
       case Saved(row) =>
         var change := Request(s, RetryAt(s, world.clock(tick)));
         change.Some? && row == Changed(s.current, change.value, world.clock(tick))
       case NotSaved(exception) => exception == StoreFailed <==> world.storeFails(tick)
       case _ => true
  }

  /** The session after a sequence of events, if they come to it one after the other. */
  ghost function After(world: Surroundings, s: Session, events: seq<Event>): Option<Session> {
    if events == [] then Some(s)
    else
      var earlier := After(world, s, events[..|events| - 1]);
      var event := events[|events| - 1];
      if earlier.Some? && exists tick :: Comes(world, earlier.value, event, tick)
      then Some(Advance(earlier.value, event)) else None
  }

  lemma AfterOneMore(world: Surroundings, s: Session, events: seq<Event>, event: Event, tick: nat)
    requires After(world, s, events).Some? && Comes(world, After(world, s, events).value, event, tick)
    ensures After(world, s, events + [event]) == Some(Advance(After(world, s, events).value, event))
  {
    assert (events + [event])[..|events|] == events;
  }

  /** A session in the loop whose snapshot is the row for as long as its worker holds the lock. */
  ghost predicate InStep(key: string, worker: WorkerId, s: Session, rows: map<string, Row>) {
    && RowOk(key, s.current) && s.command.idempotencyKey == key
    && s.current.lockedBy in {Some(worker), None}
    && s.current.status != COMPLETED
    && (s.current.lockedBy.Some? ==> !IsTerminalFailure(s.current))
    && (s.current.lockedBy.None? ==> s.current.status == FAILED)
    && (key in rows && rows[key].lockedBy == Some(worker) ==> rows[key] == s.current)
  }

  lemma InterferenceKeepsStep(key: string, worker: WorkerId, s: Session, before: map<string, Row>, after: map<string, Row>)
    requires InStep(key, worker, s, before) && LeavesHeldRowsAlone(worker, before, after)
    ensures InStep(key, worker, s, after)
  {
  }

  lemma {:induction false} AfterBoth(world: Surroundings, s: Session, first: seq<Event>, second: seq<Event>)
    requires After(world, s, first).Some? && After(world, After(world, s, first).value, second).Some?
    ensures After(world, s, first + second) == After(world, After(world, s, first).value, second)
  {
    if second == [] {
      assert first + second == first;
    } else {
      var front := second[..|second| - 1];
      AfterBoth(world, s, first, front);
      assert (first + second)[..|first + second| - 1] == first + front;
    }
  }

  lemma AfterOne(world: Surroundings, s: Session, event: Event, tick: nat)
    requires Comes(world, s, event, tick)
    ensures After(world, s, [event]) == Some(Advance(s, event))
  {
    AfterOneMore(world, s, [], event, tick);
    assert [] + [event] == [event];
  }

  lemma AfterDispatch(world: Surroundings, s: Session, event: Event, tick: nat)
    requires Accepts(s, Dispatch) && Comes(world, Advance(s, Dispatch), event, tick)
    ensures After(world, s, [Dispatch, event]) == Some(Advance(Advance(s, Dispatch), event))
  {
    AfterOne(world, s, Dispatch, tick);
    AfterOneMore(world, s, [Dispatch], event, tick);
    assert [Dispatch] + [event] == [Dispatch, event];
  }

  /** The rows of other keys that the worker holds are as they were. */
  ghost predicate OthersKept(worker: WorkerId, key: string, before: map<string, Row>, after: map<string, Row>) {
    forall k :: k != key && k in after && after[k].lockedBy == Some(worker) ==> k in before && after[k] == before[k]
  }

  // --- What one turn of the loop does ----------------------------------------------------

  /** The row was in the table after one of the statements from the given one on. */
  ghost predicate WasStored(tables: seq<map<string, Row>>, from: nat, key: string, row: Row) {
    exists i :: from <= i < |tables| && Lookup(tables[i], key) == Some(row)
  }

  /** The statements go on from earlier to later, and every row saved was in the table at the time. */
  ghost predicate SavesStored(key: string, events: seq<Event>, earlier: seq<map<string, Row>>, later: seq<map<string, Row>>) {
    earlier <= later && forall row :: Saved(row) in events ==> WasStored(later, |earlier|, key, row)
  }

  ghost predicate NoSaves(events: seq<Event>) {
    forall event :: event in events ==> !event.Saved?
  }

  lemma NothingIsSaved(key: string, events: seq<Event>, earlier: seq<map<string, Row>>, later: seq<map<string, Row>>)
    requires NoSaves(events) && earlier <= later
    ensures SavesStored(key, events, earlier, later)
  {
  }

  lemma LastIsSaved(key: string, past: seq<Event>, row: Row, earlier: seq<map<string, Row>>, later: seq<map<string, Row>>)
    requires NoSaves(past) && earlier <= later && |earlier| < |later|
    requires Lookup(later[|later| - 1], key) == Some(row)
    ensures SavesStored(key, past + [Saved(row)], earlier, later)
  {
    assert WasStored(later, |earlier|, key, row);
  }

  lemma SavesAddUp(key: string, first: seq<Event>, second: seq<Event>, a: seq<map<string, Row>>, b: seq<map<string, Row>>,
                   c: seq<map<string, Row>>)
    requires SavesStored(key, first, a, b) && SavesStored(key, second, b, c)
    ensures SavesStored(key, first + second, a, c)
  {
    forall row | Saved(row) in first + second
      ensures WasStored(c, |a|, key, row)
    {
      if Saved(row) in first {
        var i :| |a| <= i < |b| && Lookup(b[i], key) == Some(row);
        assert Lookup(c[i], key) == Some(row);
      } else {
        var i :| |b| <= i < |c| && Lookup(c[i], key) == Some(row);
        assert Lookup(c[i], key) == Some(row);
      }
    }
  }

  lemma SavesExtend(key: string, events: seq<Event>, a: seq<map<string, Row>>, b: seq<map<string, Row>>,
                    c: seq<map<string, Row>>, d: seq<map<string, Row>>)
    requires a <= b && SavesStored(key, events, b, c) && c <= d
    ensures SavesStored(key, events, a, d)
  {
    NothingIsSaved(key, [], a, b);
    SavesAddUp(key, [], events, a, b, c);
    assert [] + events == events;
    NothingIsSaved(key, [], c, d);
    SavesAddUp(key, events, [], a, c, d);
    assert events + [] == events;
  }

  /** The session has come from s to the point where its turn saves. */
  ghost predicate IsToSave(world: Surroundings, s: Session, past: seq<Event>, at: Session) {
    && After(world, s, past) == Some(at) && NoSaves(past)
    && Request(at, 0).Some? && at.current == s.current
    && at.rounds == s.rounds + 1 && s.rpcs <= at.rpcs <= s.rpcs + 1
    && at.command == s.command && at.claimed == s.claimed
  }

  /** What one turn of the loop leaves: the next snapshot to dispatch on, or the answer. */
  ghost predicate Turned(world: Surroundings, key: string, worker: WorkerId, s: Session, events: seq<Event>,
                         next: Option<Row>, answer: Answer, rows: map<string, Row>)
  {
    && After(world, s, events).Some?
    && var s' := After(world, s, events).value;
    && s'.rounds == s.rounds + 1 && s.rpcs <= s'.rpcs <= s.rpcs + 1
    && s'.command == s.command && s'.claimed == s.claimed
    && (key in rows && rows[key].lockedBy == Some(worker) ==> rows[key] == s'.current)
    && match next
       case None => s'.stage == Closing(answer)
       case Some(row) =>
         && s'.stage == Dispatching && s'.current == row
         && InStep(key, worker, s', rows) && TurnsLeft(row) < TurnsLeft(s.current)
  }

  /** Turned, for proofs that need not look inside it. */
  ghost predicate TurnDone(world: Surroundings, key: string, worker: WorkerId, s: Session, events: seq<Event>,
                           next: Option<Row>, answer: Answer, rows: map<string, Row>)
  {
    forall e :: e == events ==> Turned(world, key, worker, s, e, next, answer, rows)
  }

  predicate IsAtDispatch(s: Session, key: string, current: Row, command: Command, saga: Row) {
    && s.stage == Dispatching && s.current == current && s.command == command && s.claimed == saga
    && current.idempotencyKey == key
  }

  lemma TurnOpens(world: Surroundings, key: string, worker: WorkerId, s: Session, events: seq<Event>,
                  next: Option<Row>, answer: Answer, rows: map<string, Row>)
    requires TurnDone(world, key, worker, s, events, next, answer, rows)
    ensures After(world, s, events).Some?
    ensures var s' := After(world, s, events).value;
            && s'.rounds == s.rounds + 1 && s.rpcs <= s'.rpcs <= s.rpcs + 1
            && (key in rows && rows[key].lockedBy == Some(worker) ==> rows[key] == s'.current)
            && (next.None? ==> s'.stage == Closing(answer))
            && (next.Some? ==>
                  && IsAtDispatch(s', key, next.value, s.command, s.claimed)
                  && Steps(key, worker, s', rows) && TurnsLeft(next.value) < TurnsLeft(s.current))
  {
    assert Turned(world, key, worker, s, events, next, answer, rows);
  }

  function FailureChange(problem: Problem, retryAt: int): Change {
    MarkFailed(problem, IsRetryable(problem), if IsRetryable(problem) then PROCESS_PAYMENT else COMPENSATE_USER, retryAt)
  }

  /** The row that the stage of the session leaves behind. */
  ghost predicate IsChangeOf(at: Session, world: Surroundings, tick: nat, row: Row) {
    var change := Request(at, RetryAt(at, world.clock(tick)));
    change.Some? && row == Changed(at.current, change.value, world.clock(tick))
  }

  lemma ReplyEndsTurn(world: Surroundings, key: string, worker: WorkerId, s: Session, event: Event, tick: nat,
                      answer: Answer, rows: map<string, Row>)
    requires InStep(key, worker, s, rows) && Accepts(s, Dispatch) && Comes(world, Advance(s, Dispatch), event, tick)
    requires !event.Saved? && Advance(Advance(s, Dispatch), event).stage == Closing(answer)
    ensures TurnDone(world, key, worker, s, [Dispatch, event], None, answer, rows)
  {
    AfterDispatch(world, s, event, tick);
  }

  lemma DispatchMoves(s: Session)
    requires Accepts(s, Dispatch)
    ensures var turn := Advance(s, Dispatch);
            && turn.current == s.current && turn.command == s.command && turn.claimed == s.claimed
            && turn.rounds == s.rounds + 1 && s.rpcs <= turn.rpcs <= s.rpcs + 1
  {
  }

  lemma ReplyMoves(turn: Session, event: Event)
    requires Accepts(turn, event) && !event.Saved? && !event.Dispatch?
    ensures var at := Advance(turn, event);
            && at.current == turn.current && at.command == turn.command && at.claimed == turn.claimed
            && at.rounds == turn.rounds && at.rpcs == turn.rpcs
  {
  }

  lemma ReplyIsToSave(world: Surroundings, s: Session, event: Event, tick: nat)
    requires Accepts(s, Dispatch) && Comes(world, Advance(s, Dispatch), event, tick) && !event.Saved? && !event.Dispatch?
    requires Request(Advance(Advance(s, Dispatch), event), 0).Some?
    ensures After(world, s, [Dispatch, event]) == Some(Advance(Advance(s, Dispatch), event))
    ensures IsToSave(world, s, [Dispatch, event], Advance(Advance(s, Dispatch), event))
  {
    AfterDispatch(world, s, event, tick);
    var turn := Advance(s, Dispatch);
    DispatchMoves(s);
    ReplyMoves(turn, event);
  }

  /** What a save that goes on leaves in the row. */
  lemma SavedRow(world: Surroundings, key: string, worker: WorkerId, s: Session, at: Session, tick: nat,
                 before: map<string, Row>, row: Row)
    requires InStep(key, worker, s, before) && s.current.lockedBy == Some(worker) && at.current == s.current
    requires IsChangeOf(at, world, tick, row)
    requires match at.stage
             case SavingUser(_) => s.current.nextAction == PROCESS_USER
             case SavingPayment(_) => s.current.nextAction == PROCESS_PAYMENT
             case SavingFailure(_) => s.current.nextAction == PROCESS_PAYMENT
             case _ => false
    ensures RowOk(key, row) && row.status != COMPLETED && TurnsLeft(row) < TurnsLeft(s.current)
    ensures row.lockedBy == (if row.status == FAILED then None else Some(worker))
  {
  }

  lemma SaveGoesOn(world: Surroundings, key: string, worker: WorkerId, s: Session, past: seq<Event>, at: Session,
                   tick: nat, before: map<string, Row>, row: Row, answer: Answer, after: map<string, Row>)
    requires InStep(key, worker, s, before) && s.stage == Dispatching && IsToSave(world, s, past, at)
    requires s.current.lockedBy == Some(worker) && IsChangeOf(at, world, tick, row) && Lookup(after, key) == Some(row)
    requires match at.stage
             case SavingUser(_) => s.current.nextAction == PROCESS_USER
             case SavingPayment(_) => s.current.nextAction == PROCESS_PAYMENT
             case SavingFailure(_) => s.current.nextAction == PROCESS_PAYMENT
             case _ => false
    ensures TurnDone(world, key, worker, s, past + [Saved(row)], Some(row), answer, after)
  {
    AfterOneMore(world, s, past, Saved(row), tick);
    SavedRow(world, key, worker, s, at, tick, before, row);
    assert Turned(world, key, worker, s, past + [Saved(row)], Some(row), answer, after);
  }

  lemma SaveEnds(world: Surroundings, key: string, worker: WorkerId, s: Session, past: seq<Event>, at: Session,
                 tick: nat, before: map<string, Row>, row: Row, response: Response, after: map<string, Row>)
    requires InStep(key, worker, s, before) && IsToSave(world, s, past, at) && at.stage == SavingResponse(response)
    requires s.current.lockedBy == Some(worker) && IsChangeOf(at, world, tick, row) && Lookup(after, key) == Some(row)
    ensures TurnDone(world, key, worker, s, past + [Saved(row)], None, Success(response), after)
  {
    AfterOneMore(world, s, past, Saved(row), tick);
  }

  lemma NoSaveEnds(world: Surroundings, key: string, worker: WorkerId, s: Session, past: seq<Event>, at: Session,
                   tick: nat, before: map<string, Row>, exception: Exception, after: map<string, Row>)
    requires InStep(key, worker, s, before) && IsToSave(world, s, past, at) && !at.stage.SavingPayment?
    requires LeavesHeldRowsAlone(worker, before, after)
    requires exception == if world.storeFails(tick) then StoreFailed else LockLost
    ensures TurnDone(world, key, worker, s, past + [NotSaved(exception)], None, Failure(exception), after)
  {
    AfterOneMore(world, s, past, NotSaved(exception), tick);
  }

  lemma NoPaymentIsToFail(world: Surroundings, s: Session, past: seq<Event>, at: Session, tick: nat, exception: Exception)
    requires IsToSave(world, s, past, at) && at.stage.SavingPayment?
    requires exception == if world.storeFails(tick) then StoreFailed else LockLost
    ensures IsToSave(world, s, past + [NotSaved(exception)], at.(stage := SavingFailure(ToProblem(exception))))
  {
    AfterOneMore(world, s, past, NotSaved(exception), tick);
  }

  /** A row that was compensated for would have had to be held, and it is not. */
  lemma CompensatingWithoutLock(key: string, worker: WorkerId, s: Session, rows: map<string, Row>)
    requires InStep(key, worker, s, rows) && s.current.nextAction == COMPENSATE_USER
    ensures !(key in rows && rows[key].lockedBy == Some(worker))
  {
  }

  lemma UserIsThere(key: string, worker: WorkerId, s: Session, rows: map<string, Row>)
    requires InStep(key, worker, s, rows)
    ensures s.current.idempotencyKey == key
    ensures s.current.nextAction in {PROCESS_PAYMENT, COMPENSATE_USER, COMPLETE} ==> s.current.user.Some?
    ensures s.current.nextAction == COMPLETE ==> s.current.payment.Some?
    ensures s.current.nextAction != NOOP
    ensures key in rows && rows[key].lockedBy == Some(worker) ==> rows[key] == s.current
  {
  }

  /** InStep, for proofs that need not look inside it. */
  ghost predicate Steps(key: string, worker: WorkerId, s: Session, rows: map<string, Row>) {
    forall t :: t == s ==> InStep(key, worker, t, rows)
  }

  /** The session is about to take a turn with the action. */
  predicate IsAbout(s: Session, key: string, current: Row, command: Command, action: Action) {
    && s.stage == Dispatching && s.current == current && s.command == command && current.idempotencyKey == key
    && current.nextAction == action
  }

  /** Only the last of the looks settled the matter, or none did and there were as many as fit before the deadline. */
  ghost predicate Waited(seen: seq<Option<Row>>, requestHash: Digest, looks: nat, answer: Answer) {
    && |seen| <= looks
    && (forall i :: 0 <= i < |seen| - 1 ==> PollAnswer(seen[i], requestHash) == None)
    && if |seen| > 0 && PollAnswer(seen[|seen| - 1], requestHash).Some?
       then answer == PollAnswer(seen[|seen| - 1], requestHash).value
       else answer == Failure(IN_PROGRESS) && |seen| == looks
  }

  /** Each look found the row as some statement had left it. */
  ghost predicate Looked(seen: seq<Option<Row>>, key: string, earlier: seq<map<string, Row>>, later: seq<map<string, Row>>) {
    earlier <= later && forall look :: look in seen ==> WasFound(look, key, |earlier|, later)
  }

  ghost predicate WasFound(look: Option<Row>, key: string, from: nat, tables: seq<map<string, Row>>) {
    exists i :: from <= i < |tables| && look == Lookup(tables[i], key)
  }

  lemma LooksExtend(seen: seq<Option<Row>>, key: string, a: seq<map<string, Row>>, b: seq<map<string, Row>>,
                    c: seq<map<string, Row>>)
    requires a <= b && Looked(seen, key, b, c)
    ensures Looked(seen, key, a, c)
  {
    forall look | look in seen
      ensures WasFound(look, key, |a|, c)
    {
      assert WasFound(look, key, |b|, c);
    }
  }

  lemma OneMoreLook(seen: seq<Option<Row>>, look: Option<Row>, key: string, earlier: seq<map<string, Row>>,
                    between: seq<map<string, Row>>, later: seq<map<string, Row>>)
    requires Looked(seen, key, earlier, between) && between <= later && |between| < |later|
    requires look == Lookup(later[|later| - 1], key)
    ensures Looked(seen + [look], key, earlier, later)
  {
    forall former | former in seen
      ensures WasFound(former, key, |earlier|, later)
    {
      var i :| |earlier| <= i < |between| && former == Lookup(between[i], key);
      assert former == Lookup(later[i], key);
    }
    assert WasFound(look, key, |earlier|, later);
  }

  /** The events come to the session, and the last of them leaves it with the answer. */
  ghost predicate Ends(world: Surroundings, s: Session, events: seq<Event>, answer: Answer) {
    && After(world, s, events).Some? && After(world, s, events).value.stage == Closing(answer)
  }

  /** The first sagas were each driven to an answer by a session of their own. */
  ghost predicate AreDriven(sagas: seq<Row>, answers: seq<Answer>, runs: seq<seq<Event>>, messageIds: nat -> string,
                            worlds: nat -> Surroundings)
  {
    && |answers| == |runs| <= |sagas|
    && forall i :: 0 <= i < |runs| ==>
         Ends(worlds(i), Opened(RecoveryCommand(messageIds(i), sagas[i]), sagas[i]), runs[i], answers[i])
  }

  lemma OneMoreIsDriven(sagas: seq<Row>, answers: seq<Answer>, runs: seq<seq<Event>>, messageIds: nat -> string,
                        worlds: nat -> Surroundings, answer: Answer, events: seq<Event>)
    requires AreDriven(sagas, answers, runs, messageIds, worlds) && |runs| < |sagas|
    requires var i := |runs|; Ends(worlds(i), Opened(RecoveryCommand(messageIds(i), sagas[i]), sagas[i]), events, answer)
    ensures AreDriven(sagas, answers + [answer], runs + [events], messageIds, worlds)
  {
  }

  lemma AcquiredIsOk(row: Option<Row>, command: Command, worker: WorkerId, until: int, now: int)
    requires command.Digested() && (row.Some? ==> RowOk(command.idempotencyKey, row.value))
    ensures Acquire(row, command, worker, until, now).Acquired? ==>
              var saga := Acquire(row, command, worker, until, now).saga;
              RowOk(command.idempotencyKey, saga) && saga.lockedBy == Some(worker)
  {
  }

  class OnboardingService {
    const repository: OnboardingRepository
    var recoveryInFlight: bool

    constructor (repository: OnboardingRepository)
      ensures this.repository == repository && !recoveryInFlight
    {
      this.repository := repository;
      recoveryInFlight := false;
    }

    /** Lets the others run, then saves for the worker: None if the row is not locked or the store fails. */
    method TransitionAmidOthers(key: string, worker: WorkerId, change: Change, world: Surroundings, tick: nat)
      returns (saga: Option<Row>, exception: Exception)
      modifies repository
      ensures saga.None? ==> exception == if world.storeFails(tick) then StoreFailed else LockLost
      ensures saga.None? ==> LeavesHeldRowsAlone(worker, old(repository.rows), repository.rows)
      ensures saga.Some? ==>
                && key in old(repository.rows) && old(repository.rows)[key].lockedBy == Some(worker)
                && saga.value == Changed(old(repository.rows)[key], change, world.clock(tick))
                && Lookup(repository.rows, key) == saga
                && |old(repository.tables)| < |repository.tables|
                && repository.tables[|repository.tables| - 1] == repository.rows
      ensures OthersKept(worker, key, old(repository.rows), repository.rows)
      ensures old(repository.tables) <= repository.tables
    {
      Interfere(repository, worker, world.others(tick));
      exception := LockLost;
      if world.storeFails(tick) {
        return None, StoreFailed;
      }
      saga := repository.Transition(key, worker, change, world.clock(tick));
    }

    method UserTurn(key: string, worker: WorkerId, world: Surroundings, tick: nat, current: Row, command: Command,
                    ghost s: Session)
      returns (next: Option<Row>, answer: Answer, ghost events: seq<Event>)
      requires IsAbout(s, key, current, command, PROCESS_USER) && Steps(key, worker, s, repository.rows)
      modifies repository
      ensures TurnDone(world, key, worker, s, events, next, answer, repository.rows)
      ensures OthersKept(worker, key, old(repository.rows), repository.rows)
      ensures SavesStored(key, events, old(repository.tables), repository.tables)
    {
      var reply := world.userReply(tick, UserRequest(command));
      assert InStep(key, worker, s, repository.rows);
      events := [Dispatch, UserReply(reply)];
      if !reply.Data? {
        ReplyEndsTurn(world, key, worker, s, UserReply(reply), tick, Failure(RpcException(reply)), repository.rows);
        NothingIsSaved(key, events, repository.tables, repository.tables);
        return None, Failure(RpcException(reply)), events;
      }
      ReplyIsToSave(world, s, UserReply(reply), tick);
      next, answer, events := SaveTurn(key, worker, world, tick, current, MarkUserCreated(reply.data), s, events,
                                       After(world, s, events).value);
    }

    /** The end of a turn that saves and, if that succeeds, goes on. */
    method SaveTurn(key: string, worker: WorkerId, world: Surroundings, tick: nat, current: Row, change: Change,
                    ghost s: Session, ghost past: seq<Event>, ghost at: Session)
      returns (next: Option<Row>, answer: Answer, ghost events: seq<Event>)
      requires s.current == current && s.stage == Dispatching && Steps(key, worker, s, repository.rows)
      requires IsToSave(world, s, past, at) && Request(at, RetryAt(at, world.clock(tick))) == Some(change)
      requires (at.stage.SavingUser? && current.nextAction == PROCESS_USER)
               || (at.stage.SavingFailure? && current.nextAction == PROCESS_PAYMENT)
      modifies repository
      ensures TurnDone(world, key, worker, s, events, next, answer, repository.rows)
      ensures OthersKept(worker, key, old(repository.rows), repository.rows)
      ensures SavesStored(key, events, old(repository.tables), repository.tables)
      ensures next.None? ==> answer.Failure?
      ensures events == past + [if next.Some? then Saved(next.value) else NotSaved(answer.exception)]
      ensures next.Some? ==> next.value == Changed(current, change, world.clock(tick))
    {
      answer := Failure(LockLost);
      ghost var before, earlier := repository.rows, repository.tables;
      assert InStep(key, worker, s, before);
      UserIsThere(key, worker, s, before);
      var saga, exception := TransitionAmidOthers(key, worker, change, world, tick);
      if saga.None? {
        NoSaveEnds(world, key, worker, s, past, at, tick, before, exception, repository.rows);
        NothingIsSaved(key, past + [NotSaved(exception)], earlier, repository.tables);
        return None, Failure(exception), past + [NotSaved(exception)];
      }
      SaveGoesOn(world, key, worker, s, past, at, tick, before, saga.value, answer, repository.rows);
      LastIsSaved(key, past, saga.value, earlier, repository.tables);
      return saga, answer, past + [Saved(saga.value)];
    }

    /** handlePaymentFailure: records the problem as retryable or permanent and gives the lock back. */
    method HandlePaymentFailure(key: string, worker: WorkerId, world: Surroundings, tick: nat, current: Row,
                                problem: Problem, ghost s: Session, ghost past: seq<Event>, ghost at: Session)
      returns (next: Option<Row>, answer: Answer, ghost events: seq<Event>)
      requires s.current == current && s.stage == Dispatching && Steps(key, worker, s, repository.rows)
      requires IsToSave(world, s, past, at) && at.stage == SavingFailure(problem) && current.nextAction == PROCESS_PAYMENT
      modifies repository
      ensures TurnDone(world, key, worker, s, events, next, answer, repository.rows)
      ensures OthersKept(worker, key, old(repository.rows), repository.rows)
      ensures SavesStored(key, events, old(repository.tables), repository.tables)
      ensures next.None? ==> answer.Failure?
      ensures events == past + [if next.Some? then Saved(next.value) else NotSaved(answer.exception)]
      ensures next.Some? ==>
                var now := world.clock(tick);
                var wait := if IsRetryable(problem) then RetrySeconds(current.attempts + 1) * 1000 else 0;
                next.value == Changed(current, FailureChange(problem, now + wait), now)
    {
      var retryable := IsRetryable(problem);
      var retryAt := world.clock(tick) + (if retryable then RetrySeconds(current.attempts + 1) * 1000 else 0);
      var change := MarkFailed(problem, retryable, if retryable then PROCESS_PAYMENT else COMPENSATE_USER, retryAt);
      next, answer, events := SaveTurn(key, worker, world, tick, current, change, s, past, at);
    }

    method PaymentTurn(key: string, worker: WorkerId, world: Surroundings, tick: nat, current: Row, command: Command,
                       ghost s: Session)
      returns (next: Option<Row>, answer: Answer, ghost events: seq<Event>)
      requires IsAbout(s, key, current, command, PROCESS_PAYMENT) && Steps(key, worker, s, repository.rows)
      modifies repository
      ensures TurnDone(world, key, worker, s, events, next, answer, repository.rows)
      ensures OthersKept(worker, key, old(repository.rows), repository.rows)
      ensures SavesStored(key, events, old(repository.tables), repository.tables)
    {
      UserIsThere(key, worker, s, repository.rows);
      var reply := world.paymentReply(tick, PaymentRequest(command, current.user.value.id));
      ReplyIsToSave(world, s, PaymentReply(reply), tick);
      if !reply.Data? {
        next, answer, events :=
          HandlePaymentFailure(key, worker, world, tick, current, ToProblem(RpcException(reply)), s,
                               [Dispatch, PaymentReply(reply)], After(world, s, [Dispatch, PaymentReply(reply)]).value);
        return;
      }
      next, answer, events :=
        SavePayment(key, worker, world, tick, current, ToPublicPayment(reply.data), s, [Dispatch, PaymentReply(reply)],
                    After(world, s, [Dispatch, PaymentReply(reply)]).value);
    }

    /** The second half of the payment turn, whose exceptions are payment failures as well. */
    method SavePayment(key: string, worker: WorkerId, world: Surroundings, tick: nat, current: Row, payment: PublicPayment,
                       ghost s: Session, ghost past: seq<Event>, ghost at: Session)
      returns (next: Option<Row>, answer: Answer, ghost events: seq<Event>)
      requires s.current == current && s.stage == Dispatching && Steps(key, worker, s, repository.rows)
      requires IsToSave(world, s, past, at) && at.stage == SavingPayment(payment) && current.nextAction == PROCESS_PAYMENT
      modifies repository
      ensures TurnDone(world, key, worker, s, events, next, answer, repository.rows)
      ensures OthersKept(worker, key, old(repository.rows), repository.rows)
      ensures SavesStored(key, events, old(repository.tables), repository.tables)
    {
      answer := Failure(LockLost);
      ghost var before, earlier := repository.rows, repository.tables;
      assert InStep(key, worker, s, before);
      UserIsThere(key, worker, s, before);
      var saga, exception := TransitionAmidOthers(key, worker, MarkPaymentCreated(payment), world, tick);
      if saga.Some? {
        SaveGoesOn(world, key, worker, s, past, at, tick, before, saga.value, answer, repository.rows);
        LastIsSaved(key, past, saga.value, earlier, repository.tables);
        return saga, answer, past + [Saved(saga.value)];
      }
      next, answer, events := PaymentNotSaved(key, worker, world, tick, current, exception, s, past, at, before, earlier);
    }

    method PaymentNotSaved(key: string, worker: WorkerId, world: Surroundings, tick: nat, current: Row,
                           exception: Exception, ghost s: Session, ghost past: seq<Event>, ghost at: Session,
                           ghost before: map<string, Row>, ghost earlier: seq<map<string, Row>>)
      returns (next: Option<Row>, answer: Answer, ghost events: seq<Event>)
      requires s.current == current && s.stage == Dispatching && Steps(key, worker, s, before)
      requires IsToSave(world, s, past, at) && at.stage.SavingPayment? && current.nextAction == PROCESS_PAYMENT
      requires exception == if world.storeFails(tick) then StoreFailed else LockLost
      requires LeavesHeldRowsAlone(worker, before, repository.rows) && earlier <= repository.tables
      modifies repository
      ensures TurnDone(world, key, worker, s, events, next, answer, repository.rows)
      ensures OthersKept(worker, key, old(repository.rows), repository.rows)
      ensures SavesStored(key, events, earlier, repository.tables)
    {
      assert Steps(key, worker, s, repository.rows) by {
        assert InStep(key, worker, s, before);
        InterferenceKeepsStep(key, worker, s, before, repository.rows);
      }
      ghost var between := repository.tables;
      NoPaymentIsToFail(world, s, past, at, tick, exception);
      NothingIsSaved(key, [], earlier, between);
      next, answer, events :=
        HandlePaymentFailure(key, worker, world, tick + 1, current, ToProblem(exception), s, past + [NotSaved(exception)],
                             at.(stage := SavingFailure(ToProblem(exception))));
      SavesAddUp(key, [], events, earlier, between, repository.tables);
      assert [] + events == events;
    }

    method CompensationTurn(key: string, worker: WorkerId, world: Surroundings, tick: nat, current: Row, command: Command,
                            ghost s: Session)
      returns (answer: Answer, ghost events: seq<Event>)
      requires IsAbout(s, key, current, command, COMPENSATE_USER) && Steps(key, worker, s, repository.rows)
      modifies repository
      ensures TurnDone(world, key, worker, s, events, None, answer, repository.rows)
      ensures OthersKept(worker, key, old(repository.rows), repository.rows)
      ensures SavesStored(key, events, old(repository.tables), repository.tables)
    {
      ghost var before, earlier := repository.rows, repository.tables;
      assert InStep(key, worker, s, before);
      UserIsThere(key, worker, s, before);
      CompensatingWithoutLock(key, worker, s, before);
      var reply := world.compensationReply(tick, CompensationRequest(command, current.user.value.id));
      events := [Dispatch, CompensationReply(reply)];
      if !reply.Data? {
        ReplyEndsTurn(world, key, worker, s, CompensationReply(reply), tick, Failure(RpcException(reply)), before);
        NothingIsSaved(key, events, earlier, earlier);
        return Failure(RpcException(reply)), events;
      }
      ReplyIsToSave(world, s, CompensationReply(reply), tick);
      ghost var at := After(world, s, events).value;
      var error := if current.error.Some? then current.error.value else Problem(502, CompensatedAfterFailure);
      var saga, exception := TransitionAmidOthers(key, worker, MarkCompensated(error), world, tick);
      if saga.Some? {
        // The lock went back with markFailed, so that the row cannot be held here.
        assert false;
      }
      NoSaveEnds(world, key, worker, s, events, at, tick, before, exception, repository.rows);
      NothingIsSaved(key, events + [NotSaved(exception)], earlier, repository.tables);
      return Failure(exception), events + [NotSaved(exception)];
    }

    method CompletionTurn(key: string, worker: WorkerId, world: Surroundings, tick: nat, current: Row, command: Command,
                          ghost s: Session)
      returns (answer: Answer, ghost events: seq<Event>)
      requires IsAbout(s, key, current, command, COMPLETE) && Steps(key, worker, s, repository.rows)
      modifies repository
      ensures TurnDone(world, key, worker, s, events, None, answer, repository.rows)
      ensures OthersKept(worker, key, old(repository.rows), repository.rows)
      ensures SavesStored(key, events, old(repository.tables), repository.tables)
    {
      ghost var before, earlier := repository.rows, repository.tables;
      assert InStep(key, worker, s, before);
      UserIsThere(key, worker, s, before);
      var response := ComposedResponse(current);
      events := [Dispatch];
      AfterOne(world, s, Dispatch, tick);
      ghost var at := After(world, s, events).value;
      var saga, exception := TransitionAmidOthers(key, worker, MarkCompleted(response), world, tick);
      if saga.None? {
        NoSaveEnds(world, key, worker, s, events, at, tick, before, exception, repository.rows);
        NothingIsSaved(key, events + [NotSaved(exception)], earlier, repository.tables);
        return Failure(exception), events + [NotSaved(exception)];
      }
      SaveEnds(world, key, worker, s, events, at, tick, before, saga.value, response, repository.rows);
      LastIsSaved(key, events, saga.value, earlier, repository.tables);
      return Success(response), events + [Saved(saga.value)];
    }

    method Turn(key: string, worker: WorkerId, world: Surroundings, tick: nat, current: Row, command: Command,
                ghost s: Session)
      returns (next: Option<Row>, answer: Answer, ghost events: seq<Event>)
      requires s.stage == Dispatching && s.current == current && s.command == command && current.idempotencyKey == key
      requires Steps(key, worker, s, repository.rows)
      modifies repository
      ensures TurnDone(world, key, worker, s, events, next, answer, repository.rows)
      ensures OthersKept(worker, key, old(repository.rows), repository.rows)
      ensures SavesStored(key, events, old(repository.tables), repository.tables)
    {
      next := None;
      UserIsThere(key, worker, s, repository.rows);
      match current.nextAction {
        case PROCESS_USER => next, answer, events := UserTurn(key, worker, world, tick, current, command, s);
        case PROCESS_PAYMENT => next, answer, events := PaymentTurn(key, worker, world, tick, current, command, s);
        case COMPENSATE_USER => answer, events := CompensationTurn(key, worker, world, tick, current, command, s);
        case COMPLETE => answer, events := CompletionTurn(key, worker, world, tick, current, command, s);
        case NOOP => assert false;
      }
    }

    /**
     executeStateMachine.  The loop needs no escape for an incomplete snapshot or an unexpected
     state, it turns at most three times, and every execution is a sequence of session events that
     ends in the answer.  Every row it says it has saved was in the table at the time.
     */
    method ExecuteStateMachine(command: Command, saga: Row, worker: WorkerId, world: Surroundings)
      returns (answer: Answer, rounds: nat, ghost events: seq<Event>)
      requires RowOk(command.idempotencyKey, saga) && saga.lockedBy == Some(worker)
      requires saga.idempotencyKey in repository.rows && repository.rows[saga.idempotencyKey].lockedBy == Some(worker) ==>
                 repository.rows[saga.idempotencyKey] == saga
      modifies repository
      ensures Ends(world, Opened(command, saga), events, answer)
      ensures var s := After(world, Opened(command, saga), events).value;
              && s.rounds == rounds <= 3 && s.rpcs <= rounds
              && (saga.idempotencyKey in repository.rows && repository.rows[saga.idempotencyKey].lockedBy == Some(worker)
                  ==> repository.rows[saga.idempotencyKey] == s.current)
      ensures SavesStored(saga.idempotencyKey, events, old(repository.tables), repository.tables)
      ensures saga.status == COMPLETED ==> rounds == 0 && answer == Success(saga.response.value.WithReplayFlag(true))
      ensures IsTerminalFailure(saga) ==> rounds == 0 && answer == Failure(ToException(saga.error.value))
      ensures OthersKept(worker, saga.idempotencyKey, old(repository.rows), repository.rows)
    {
      ghost var first := Opened(command, saga);
      rounds := 0;
      events := [Inspect];
      AfterOne(world, first, Inspect, 0);
      NothingIsSaved(saga.idempotencyKey, events, repository.tables, repository.tables);
      var completed := CompletedReplay(saga);
      if completed.Some? {
        return Success(completed.value.WithReplayFlag(true)), 0, events;
      }
      if IsTerminalFailure(saga) {
        return Failure(ToException(saga.error.value)), 0, events;
      }
      var key, current := saga.idempotencyKey, saga;
      ghost var s := Inspected(first);
      assert InStep(key, worker, s, repository.rows);
      while true
        invariant After(world, first, events) == Some(s) && IsAtDispatch(s, key, current, command, saga)
        invariant s.rounds == rounds && s.rpcs <= rounds && rounds + TurnsLeft(current) <= 3
        invariant Steps(key, worker, s, repository.rows)
        invariant OthersKept(worker, key, old(repository.rows), repository.rows)
        invariant SavesStored(key, events, old(repository.tables), repository.tables)
        decreases 3 - rounds
      {
        ghost var between := repository.tables;
        var next;
        ghost var turn;
        next, answer, turn := Turn(key, worker, world, 3 * rounds, current, command, s);
        rounds := rounds + 1;
        TurnOpens(world, key, worker, s, turn, next, answer, repository.rows);
        AfterBoth(world, first, events, turn);
        SavesAddUp(key, events, turn, old(repository.tables), between, repository.tables);
        s := After(world, s, turn).value;
        events := events + turn;
        if next.None? {
          return;
        }
        current := next.value;
      }
    }
    /**
     waitForSettledSaga: answers by the first look that settles the matter, and gives up at the
     deadline.  looks counts the polls that fit before it.
     */
    method WaitForSettledSaga(key: string, requestHash: Digest, worker: WorkerId, world: Surroundings, looks: nat)
      returns (answer: Answer, ghost seen: seq<Option<Row>>)
      modifies repository
      ensures Waited(seen, requestHash, looks, answer)
      ensures Looked(seen, key, old(repository.tables), repository.tables)
      ensures seen != [] ==> seen[|seen| - 1] == Lookup(repository.rows, key)
      ensures LeavesHeldRowsAlone(worker, old(repository.rows), repository.rows)
    {
      seen := [];
      for look := 0 to looks
        invariant |seen| == look
        invariant forall i :: 0 <= i < |seen| ==> PollAnswer(seen[i], requestHash) == None
        invariant Looked(seen, key, old(repository.tables), repository.tables)
        invariant seen != [] ==> seen[|seen| - 1] == Lookup(repository.rows, key)
        invariant LeavesHeldRowsAlone(worker, old(repository.rows), repository.rows)
      {
        ghost var between := repository.tables;
        Interfere(repository, worker, world.others(look));
        var saga := repository.FindByIdempotencyKey(key);
        OneMoreLook(seen, saga, key, old(repository.tables), between, repository.tables);
        seen := seen + [saga];
        if saga.None? {
          break;
        }
        if saga.value.requestHash != requestHash {
          return Failure(KEY_REUSED), seen;
        }
        var replay := CompletedReplay(saga.value);
        if replay.Some? {
          return Success(replay.value.WithReplayFlag(true)), seen;
        }
        if IsTerminalFailure(saga.value) {
          return Failure(ToException(saga.value.error.value)), seen;
        }
      }
      answer := Failure(IN_PROGRESS);
    }

    /** create: the lock taken for the command is given back whatever happens in between. */
    method Create(command: Command, worker: WorkerId, until: int, now: int, world: Surroundings, looks: nat)
      returns (answer: Answer, ghost events: seq<Event>, ghost seen: seq<Option<Row>>)
      requires command.Digested() && forall key :: key in repository.rows ==> RowOk(key, repository.rows[key])
      requires forall key :: key in repository.rows ==> repository.rows[key].lockedBy != Some(worker)
      modifies repository
      ensures forall key :: key in repository.rows ==> repository.rows[key].lockedBy != Some(worker)
      ensures var before := old(Lookup(repository.rows, command.idempotencyKey));
              var outcome := Acquire(before, command, worker, until, now);
              match outcome
              case HashConflict => answer == Failure(KEY_REUSED)
              case Busy =>
                && Waited(seen, command.requestHash, looks, answer)
                && Looked(seen, command.idempotencyKey, old(repository.tables), repository.tables)
                && (seen != [] ==> seen[|seen| - 1] == Lookup(repository.rows, command.idempotencyKey))
              case Acquired(saga) =>
                && Ends(world, Opened(command, saga), events, answer)
                && SavesStored(command.idempotencyKey, events, old(repository.tables), repository.tables)
    {
      ghost var first := repository.tables;
      var acquired := repository.TryAcquire(command, worker, until, now);
      ghost var between := repository.tables;
      match acquired
      case HashConflict =>
        return Failure(KEY_REUSED), [], [];
      case Busy =>
        events := [];
        answer, seen := WaitForSettledSaga(command.idempotencyKey, command.requestHash, worker, world, looks);
        LooksExtend(seen, command.idempotencyKey, first, between, repository.tables);
      case Acquired(saga) =>
        seen := [];
        AcquiredIsOk(old(Lookup(repository.rows, command.idempotencyKey)), command, worker, until, now);
        answer, events := ExecuteAndRelease(command, saga, worker, world);
        SavesExtend(command.idempotencyKey, events, first, between, repository.tables, repository.tables);
    }

    /** The saga is driven and its row given back, whatever happens in between. */
    method ExecuteAndRelease(command: Command, saga: Row, worker: WorkerId, world: Surroundings)
      returns (answer: Answer, ghost events: seq<Event>)
      requires RowOk(command.idempotencyKey, saga) && saga.lockedBy == Some(worker)
      requires saga.idempotencyKey in repository.rows && repository.rows[saga.idempotencyKey].lockedBy == Some(worker) ==>
                 repository.rows[saga.idempotencyKey] == saga
      modifies repository
      ensures Ends(world, Opened(command, saga), events, answer)
      ensures SavesStored(saga.idempotencyKey, events, old(repository.tables), repository.tables)
      ensures forall key :: key in repository.rows && repository.rows[key].lockedBy == Some(worker) ==>
                key != saga.idempotencyKey && key in old(repository.rows) && repository.rows[key] == old(repository.rows)[key]
    {
      var rounds;
      ghost var first := repository.tables;
      answer, rounds, events := ExecuteStateMachine(command, saga, worker, world);
      ghost var between := repository.tables;
      repository.Release(saga.idempotencyKey, worker, world.clock(12));
      SavesExtend(saga.idempotencyKey, events, first, first, between, repository.tables);
    }

    /**
     recoverPendingSagas: every claimed saga is driven once, failures of one do not stop the
     others, and in the end the worker holds no row.
     */
    method RecoverPendingSagas(worker: WorkerId, until: int, limit: nat, skipped: set<string>, now: int,
                               busReady: bool, messageIds: nat -> string, worlds: nat -> Surroundings)
      returns (sagas: seq<Row>, answers: seq<Answer>, ghost runs: seq<seq<Event>>)
      requires forall key :: key in repository.rows ==> RowOk(key, repository.rows[key])
      requires forall key :: key in repository.rows ==> repository.rows[key].lockedBy != Some(worker)
      modifies this, repository
      ensures recoveryInFlight == old(recoveryInFlight)
      ensures forall key :: key in repository.rows ==> repository.rows[key].lockedBy != Some(worker)
      ensures if old(recoveryInFlight) || !busReady then sagas == []
              else |sagas| == Min(limit, |Candidates(old(repository.rows), skipped, now)|)
      ensures forall i :: 0 <= i < |sagas| ==>
                sagas[i].idempotencyKey in Candidates(old(repository.rows), skipped, now)
                && sagas[i] == Locked(old(repository.rows)[sagas[i].idempotencyKey], worker, until, now)
      ensures AreDriven(sagas, answers, runs, messageIds, worlds) && |answers| == |sagas|
    {
      sagas, answers, runs := [], [], [];
      if recoveryInFlight || !busReady {
        return;
      }
      recoveryInFlight := true;
      sagas := repository.ClaimRecoverable(worker, until, limit, skipped, now);
      ClaimedSagasAreOk(old(repository.rows), Candidates(old(repository.rows), skipped, now), worker, until, now, sagas,
                        repository.rows);
      answers, runs := DriveAll(sagas, worker, messageIds, worlds);
      recoveryInFlight := false;
    }

    /** The loop over the claimed sagas. */
    method DriveAll(sagas: seq<Row>, worker: WorkerId, messageIds: nat -> string, worlds: nat -> Surroundings)
      returns (answers: seq<Answer>, ghost runs: seq<seq<Event>>)
      requires forall i :: 0 <= i < |sagas| ==>
                 RowOk(sagas[i].idempotencyKey, sagas[i]) && sagas[i].lockedBy == Some(worker)
      requires forall i, j :: 0 <= i < j < |sagas| ==> sagas[i].idempotencyKey != sagas[j].idempotencyKey
      requires HeldAreIn(repository.rows, worker, sagas)
      modifies repository
      ensures forall key :: key in repository.rows ==> repository.rows[key].lockedBy != Some(worker)
      ensures AreDriven(sagas, answers, runs, messageIds, worlds) && |answers| == |sagas|
    {
      answers, runs := [], [];
      assert sagas[0..] == sagas;
      for i := 0 to |sagas|
        invariant |answers| == i
        invariant HeldAreIn(repository.rows, worker, sagas[i..])
        invariant AreDriven(sagas, answers, runs, messageIds, worlds)
      {
        assert sagas[i..][0] == sagas[i] && sagas[i..][1..] == sagas[i + 1..];
        var answer;
        ghost var events;
        answer, events := ExecuteAndRelease(RecoveryCommand(messageIds(i), sagas[i]), sagas[i], worker, worlds(i));
        OneMoreIsDriven(sagas, answers, runs, messageIds, worlds, answer, events);
        answers, runs := answers + [answer], runs + [events];
      }
    }
  }

  /** The rows that the worker still holds are those of the sagas still to be driven. */
  ghost predicate HeldAreIn(rows: map<string, Row>, worker: WorkerId, sagas: seq<Row>) {
    forall key :: key in rows && rows[key].lockedBy == Some(worker) ==>
      rows[key] in sagas && rows[key].idempotencyKey == key
  }

  lemma ClaimedSagasAreOk(before: map<string, Row>, candidates: set<string>, worker: WorkerId, until: int, now: int,
                          sagas: seq<Row>, after: map<string, Row>)
    requires forall key :: key in before ==> RowOk(key, before[key]) && before[key].lockedBy != Some(worker)
    requires candidates <= before.Keys
    requires exists keys: seq<string> :: Selected(Ages(before), candidates, keys)
               && Claims(before, keys, worker, until, now, sagas, after)
    ensures forall i :: 0 <= i < |sagas| ==>
              RowOk(sagas[i].idempotencyKey, sagas[i]) && sagas[i].lockedBy == Some(worker)
    ensures forall i, j :: 0 <= i < j < |sagas| ==> sagas[i].idempotencyKey != sagas[j].idempotencyKey
    ensures forall i :: 0 <= i < |sagas| ==>
              sagas[i].idempotencyKey in candidates && sagas[i] == Locked(before[sagas[i].idempotencyKey], worker, until, now)
    ensures HeldAreIn(after, worker, sagas)
  {
    var keys: seq<string> :| Selected(Ages(before), candidates, keys) && Claims(before, keys, worker, until, now, sagas, after);
    forall i | 0 <= i < |sagas|
      ensures RowOk(sagas[i].idempotencyKey, sagas[i]) && sagas[i].lockedBy == Some(worker)
      ensures sagas[i].idempotencyKey == keys[i]
    {
      LockingEvolves(keys[i], before[keys[i]], worker, until, now);
    }
    forall key | key in after && after[key].lockedBy == Some(worker)
      ensures after[key] in sagas && after[key].idempotencyKey == key
    {
      var i :| 0 <= i < |keys| && keys[i] == key;
      assert after[key] == sagas[i];
    }
  }
}
