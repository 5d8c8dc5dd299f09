/**
 IdentityApplicationService: idempotent creation of users, and its undoing.
 */
module IdentityService {
  import opened Wrappers
  import opened Contracts
  import opened Uuids

  datatype UserEntity = UserEntity(email: string, name: string, cellphone: string, taxId: string, premium: bool)

  datatype OnboardingRequest = OnboardingRequest(requestHash: Digest, correlationId: string, userId: string)

  /** The tables: users by id, requests by idempotency key, and the user that each receipt compensated. */
  datatype Tables = Tables(users: map<string, UserEntity>, requests: map<string, OnboardingRequest>,
                           receipts: map<string, string>)

  datatype Conflict = KeyReused | EmailExists | TaxIdExists | OtherTarget | AlreadyPremium

  datatype Created = Created(user: User, replayed: bool) | NotCreated(conflict: Conflict)

  datatype Compensated = Compensated(replayed: bool) | NotCompensated(conflict: Conflict)

  function ToPayload(id: string, user: UserEntity): User {
    User(id, user.email, user.name, user.premium)
  }

  predicate EmailTaken(users: map<string, UserEntity>, email: string) {
    exists id :: id in users && users[id].email == email
  }

  predicate TaxIdTaken(users: map<string, UserEntity>, taxId: string) {
    exists id :: id in users && users[id].taxId == taxId
  }

  /** What createUser answers when it stores nothing; None when it creates. */
  function CreateAnswer(t: Tables, command: UserCreate): Option<Created>
    requires RequestsHaveUsers(t)
  {
    if command.idempotencyKey in t.requests then
      var request := t.requests[command.idempotencyKey];
      if request.requestHash != command.requestHash then Some(NotCreated(KeyReused))
      else Some(Created(ToPayload(request.userId, t.users[request.userId]), true))
    else if EmailTaken(t.users, command.email) then Some(NotCreated(EmailExists))
    else if TaxIdTaken(t.users, command.taxId) then Some(NotCreated(TaxIdExists))
    else None
  }

  function WithUser(t: Tables, command: UserCreate, correlationId: string, id: string): Tables {
    t.(users := t.users[id := UserEntity(command.email, command.name, command.cellphone, command.taxId, false)],
       requests := t.requests[command.idempotencyKey := OnboardingRequest(command.requestHash, correlationId, id)])
  }

  /** What compensateUser answers when it stores nothing; None when it compensates. */
  function CompensationAnswer(t: Tables, command: UserCompensate): Option<Compensated> {
    if command.idempotencyKey in t.receipts then
      if t.receipts[command.idempotencyKey] != command.userId then Some(NotCompensated(OtherTarget))
      else Some(Compensated(true))
    else if command.userId in t.users && t.users[command.userId].premium then Some(NotCompensated(AlreadyPremium))
    else None
  }

  function RequestsOfOthers(requests: map<string, OnboardingRequest>, userId: string): map<string, OnboardingRequest> {
    map key | key in requests && requests[key].userId != userId :: requests[key]
  }

  function WithoutUser(t: Tables, command: UserCompensate): Tables {
    Tables(t.users - {command.userId}, RequestsOfOthers(t.requests, command.userId),
           t.receipts[command.idempotencyKey := command.userId])
  }

  /** The foreign key from requests to users. */
  predicate RequestsHaveUsers(t: Tables) {
    forall key :: key in t.requests ==> t.requests[key].userId in t.users
  }

  class IdentityApplicationService {
    var users: map<string, UserEntity>
    var requests: map<string, OnboardingRequest>
    var receipts: map<string, string>
    const uuids: UuidSource

    constructor (uuids: UuidSource)
      ensures State() == NO_ROWS && this.uuids == uuids
    {
      users := map[];
      requests := map[];
      receipts := map[];
      this.uuids := uuids;
    }

    function State(): Tables
      reads this
    {
      Tables(users, requests, receipts)
    }

    ghost predicate Valid()
      reads this, uuids
    {
      uuids.Valid() && users.Keys <= uuids.issued && RequestsHaveUsers(State())
    }

    method CreateUser(command: UserCreate, correlationId: string) returns (result: Created)
      requires Valid()
      modifies `users, `requests, uuids
      ensures Valid() && old(uuids.issued) <= uuids.issued
      ensures var answer := CreateAnswer(old(State()), command);
              if answer.Some? then result == answer.value && State() == old(State())
              else
                && result.Created? && !result.replayed && result.user.id !in old(uuids.issued)
                && result.user == User(result.user.id, command.email, command.name, false)
                && State() == WithUser(old(State()), command, correlationId, result.user.id)
    {
      if command.idempotencyKey in requests {
        var request := requests[command.idempotencyKey];
        if request.requestHash != command.requestHash {
          return NotCreated(KeyReused);
        }
        return Created(ToPayload(request.userId, users[request.userId]), true);
      }
      var emailTaken := exists id | id in users :: users[id].email == command.email;
      if emailTaken {
        return NotCreated(EmailExists);
      }
      var taxIdTaken := exists id | id in users :: users[id].taxId == command.taxId;
      if taxIdTaken {
        return NotCreated(TaxIdExists);
      }
      var id := uuids.NewString();
      var user := UserEntity(command.email, command.name, command.cellphone, command.taxId, false);
      users := users[id := user];
      requests := requests[command.idempotencyKey := OnboardingRequest(command.requestHash, correlationId, id)];
      return Created(ToPayload(id, user), false);
    }

    method CompensateUser(command: UserCompensate) returns (result: Compensated)
      requires Valid()
      modifies `users, `requests, `receipts
      ensures Valid()
      ensures var answer := CompensationAnswer(old(State()), command);
              if answer.Some? then result == answer.value && State() == old(State())
              else result == Compensated(false) && State() == WithoutUser(old(State()), command)
    {
      if command.idempotencyKey in receipts {
        if receipts[command.idempotencyKey] != command.userId {
          return NotCompensated(OtherTarget);
        }
        return Compensated(true);
      }
      var userId := command.userId;
      if userId in users && users[userId].premium {
        return NotCompensated(AlreadyPremium);
      }
      receipts := receipts[command.idempotencyKey := userId];
      requests := RequestsOfOthers(requests, userId);
      if userId in users {
        users := users - {userId};
      }
      assert users == old(users) - {userId};
      return Compensated(false);
    }
  }

  const NO_ROWS := Tables(map[], map[], map[])

  // --- Runs ------------------------------------------------------------------------------

  /** seen holds every id that was ever drawn or named by a compensation. */
  datatype Identity = Identity(tables: Tables, seen: set<string>)

  datatype Step =
    | Create(command: UserCreate, correlationId: string, id: string)
    | Compensate(compensation: UserCompensate)
    | Activate(userId: string)

  ghost predicate Enabled(s: Identity, step: Step) {
    && RequestsHaveUsers(s.tables)
    && (step.Create? ==> step.id !in s.seen)
    && (step.Activate? ==> step.userId in s.tables.users)
  }

  ghost function Apply(s: Identity, step: Step): Identity
    requires Enabled(s, step)
  {
    match step
    case Create(command, correlationId, id) =>
      if CreateAnswer(s.tables, command).Some? then s
      else Identity(WithUser(s.tables, command, correlationId, id), s.seen + {id})
    case Compensate(command) =>
      if CompensationAnswer(s.tables, command).Some? then s
      else Identity(WithoutUser(s.tables, command), s.seen + {command.userId})
    case Activate(userId) =>
      s.(tables := s.tables.(users := s.tables.users[userId := s.tables.users[userId].(premium := true)]))
  }

  ghost predicate Next(s: Identity, s': Identity) {
    exists step :: Enabled(s, step) && s' == Apply(s, step)
  }

  /** Next, for proofs that need not look inside it. */
  ghost predicate Follows(s: Identity, s': Identity) {
    forall t, t' :: t == s && t' == s' ==> Next(t, t')
  }

  ghost predicate IsRun(run: seq<Identity>) {
    && |run| > 0 && run[0] == Identity(NO_ROWS, {})
    && forall i, j :: 0 <= i < j < |run| && j == i + 1 ==> Follows(run[i], run[j])
  }

  predicate NamesUser(t: Tables, key: string, id: string) {
    key in t.requests && t.requests[key].userId == id
  }

  /** Every request names a user, and every user is named by exactly one request. */
  ghost predicate Bijection(t: Tables) {
    && RequestsHaveUsers(t)
    && (forall id :: id in t.users ==> exists key :: NamesUser(t, key, id))
    && (forall k1, k2 :: k1 in t.requests && k2 in t.requests && k1 != k2 ==>
          t.requests[k1].userId != t.requests[k2].userId)
  }

  ghost predicate DistinctIdentities(users: map<string, UserEntity>) {
    forall a, b :: a in users && b in users && a != b ==>
      users[a].email != users[b].email && users[a].taxId != users[b].taxId
  }

  ghost predicate Inv(s: Identity) {
    && Bijection(s.tables) && DistinctIdentities(s.tables.users)
    && s.tables.users.Keys <= s.seen && s.tables.receipts.Values <= s.seen
    && s.tables.users.Keys !! s.tables.receipts.Values
  }

  lemma CreatingKeepsBijection(t: Tables, command: UserCreate, correlationId: string, id: string)
    requires Bijection(t) && CreateAnswer(t, command).None? && id !in t.users
    ensures Bijection(WithUser(t, command, correlationId, id))
  {
    var t' := WithUser(t, command, correlationId, id);
    forall other | other in t'.users
      ensures exists key :: NamesUser(t', key, other)
    {
      if other == id {
        assert NamesUser(t', command.idempotencyKey, id);
      } else {
        var key :| NamesUser(t, key, other);
        assert key != command.idempotencyKey;
        assert NamesUser(t', key, other);
      }
    }
  }

  lemma CreatingKeepsIdentities(t: Tables, command: UserCreate, correlationId: string, id: string)
    requires RequestsHaveUsers(t) && DistinctIdentities(t.users) && CreateAnswer(t, command).None?
    ensures DistinctIdentities(WithUser(t, command, correlationId, id).users)
  {
  }

  lemma CreatingKeepsInv(s: Identity, step: Step)
    requires Inv(s) && Enabled(s, step) && step.Create? && CreateAnswer(s.tables, step.command).None?
    ensures Inv(Apply(s, step))
  {
    CreatingKeepsBijection(s.tables, step.command, step.correlationId, step.id);
    CreatingKeepsIdentities(s.tables, step.command, step.correlationId, step.id);
  }

  lemma CompensatingKeepsInv(s: Identity, step: Step)
    requires Inv(s) && Enabled(s, step) && step.Compensate? && CompensationAnswer(s.tables, step.compensation).None?
    ensures Inv(Apply(s, step))
  {
    var t, t' := s.tables, Apply(s, step).tables;
    forall id | id in t'.users
      ensures exists key :: NamesUser(t', key, id)
    {
      var key :| NamesUser(t, key, id);
      assert NamesUser(t', key, id);
    }
    assert t'.receipts.Values <= t.receipts.Values + {step.compensation.userId};
  }

  lemma ActivatingKeepsInv(s: Identity, step: Step)
    requires Inv(s) && Enabled(s, step) && step.Activate?
    ensures Inv(Apply(s, step))
  {
    var t, t' := s.tables, Apply(s, step).tables;
    assert t'.users.Keys == t.users.Keys && t'.requests == t.requests && t'.receipts == t.receipts;
    forall id | id in t'.users
      ensures t'.users[id].email == t.users[id].email && t'.users[id].taxId == t.users[id].taxId
      ensures exists key :: NamesUser(t', key, id)
    {
      var key :| NamesUser(t, key, id);
      assert NamesUser(t', key, id);
    }
  }

  lemma StepKeepsInv(s: Identity, step: Step)
    requires Inv(s) && Enabled(s, step)
    ensures Inv(Apply(s, step))
  {
    if step.Create? && CreateAnswer(s.tables, step.command).None? {
      CreatingKeepsInv(s, step);
    } else if step.Compensate? && CompensationAnswer(s.tables, step.compensation).None? {
      CompensatingKeepsInv(s, step);
    } else if step.Activate? {
      ActivatingKeepsInv(s, step);
    }
  }

  lemma NextKeepsInv(s: Identity, s': Identity)
    requires Inv(s) && Follows(s, s')
    ensures Inv(s') && Evolves(s, s')
  {
    assert Next(s, s');
    var step :| Enabled(s, step) && s' == Apply(s, step);
    StepKeepsInv(s, step);
    StepEvolves(s, step);
  }

  lemma {:induction false} ReachedTablesAreOk(run: seq<Identity>, i: nat)
    requires IsRun(run) && i < |run|
    ensures Inv(run[i])
  {
    if i > 0 {
      ReachedTablesAreOk(run, i - 1);
      NextKeepsInv(run[i - 1], run[i]);
    }
  }

  // --- The theorems ----------------------------------------------------------------------

  /** Users and onboarding requests are in bijection; emails and tax ids are distinct. */
  lemma UsersAndRequestsAreInBijection(run: seq<Identity>, i: nat, id: string)
    requires IsRun(run) && i < |run| && id in run[i].tables.users
    ensures exists key :: NamesUser(run[i].tables, key, id)
              && forall other :: NamesUser(run[i].tables, other, id) ==> other == key
    ensures forall key :: key in run[i].tables.requests ==> run[i].tables.requests[key].userId in run[i].tables.users
    ensures forall other :: other in run[i].tables.users && other != id ==>
              && run[i].tables.users[other].email != run[i].tables.users[id].email
              && run[i].tables.users[other].taxId != run[i].tables.users[id].taxId
  {
    ReachedTablesAreOk(run, i);
    var key :| NamesUser(run[i].tables, key, id);
    assert forall other :: NamesUser(run[i].tables, other, id) ==> other == key;
  }

  /** A compensation removes the user and the one request that names them, and nothing else. */
  lemma CompensationRemovesOneUser(run: seq<Identity>, i: nat, command: UserCompensate, key: string)
    requires IsRun(run) && i < |run| && CompensationAnswer(run[i].tables, command).None?
    requires NamesUser(run[i].tables, key, command.userId)
    ensures var t := run[i].tables; var t' := WithoutUser(t, command);
            && t'.users == t.users - {command.userId} && t'.requests == t.requests - {key}
            && |t'.users| == |t.users| - 1
            && t'.receipts == t.receipts[command.idempotencyKey := command.userId]
  {
    ReachedTablesAreOk(run, i);
    var t := run[i].tables;
    assert RequestsOfOthers(t.requests, command.userId) == t.requests - {key};
    RemovingOneKey(t.users, command.userId);
  }

  lemma RemovingOneKey<V>(m: map<string, V>, key: string)
    requires key in m
    ensures |m - {key}| == |m| - 1
  {
  }

  lemma UndoingRestores(t: Tables, created: Tables, command: UserCreate, correlationId: string, id: string)
    requires RequestsHaveUsers(t) && id !in t.users && command.idempotencyKey !in t.requests
    requires created == WithUser(t, command, correlationId, id)
    ensures RequestsOfOthers(created.requests, id) == t.requests && created.users - {id} == t.users
  {
    assert forall key :: key in t.requests ==> t.requests[key].userId != id;
  }

  /** Compensating a user who has just been created undoes the creation, but for the receipt. */
  lemma CompensationUndoesCreation(run: seq<Identity>, i: nat, command: UserCreate, correlationId: string, id: string,
                                   compensation: UserCompensate)
    requires IsRun(run) && i < |run| && id !in run[i].seen
    requires RequestsHaveUsers(run[i].tables) && CreateAnswer(run[i].tables, command).None?
    requires compensation.userId == id && compensation.idempotencyKey !in run[i].tables.receipts
    ensures var created := WithUser(run[i].tables, command, correlationId, id);
            && CompensationAnswer(created, compensation).None?
            && WithoutUser(created, compensation)
               == run[i].tables.(receipts := run[i].tables.receipts[compensation.idempotencyKey := id])
  {
    var t := run[i].tables;
    var created := WithUser(t, command, correlationId, id);
    assert Bijection(t) && id !in t.users && command.idempotencyKey !in t.requests by {
      ReachedTablesAreOk(run, i);
    }
    UndoingRestores(t, created, command, correlationId, id);
  }

  /** Keeps, for proofs that need not look inside it. */
  ghost predicate Evolves(s: Identity, s': Identity) {
    forall t, t' :: t == s && t' == s' ==> Keeps(t, t')
  }

  /** What later tables keep of earlier ones. */
  ghost predicate Keeps(s: Identity, s': Identity) {
    && s.seen <= s'.seen
    && (forall key :: key in s.tables.receipts ==> key in s'.tables.receipts && s'.tables.receipts[key] == s.tables.receipts[key])
    && (forall id :: id in s.seen && id in s'.tables.users ==> id in s.tables.users)
    && (forall key :: key in s.tables.requests ==>
          var id := s.tables.requests[key].userId;
          if id in s'.tables.users then key in s'.tables.requests && s'.tables.requests[key] == s.tables.requests[key]
          else id in s'.tables.receipts.Values)
  }

  lemma CompensatingEvolves(s: Identity, step: Step)
    requires Inv(s) && Enabled(s, step) && step.Compensate? && CompensationAnswer(s.tables, step.compensation).None?
    ensures Evolves(s, Apply(s, step))
  {
    var command, s' := step.compensation, Apply(s, step);
    assert s'.tables.receipts[command.idempotencyKey] == command.userId;
    assert command.userId in s'.tables.receipts.Values;
    forall key | key in s.tables.requests
      ensures var id := s.tables.requests[key].userId;
              if id in s'.tables.users then key in s'.tables.requests && s'.tables.requests[key] == s.tables.requests[key]
              else id in s'.tables.receipts.Values
    {
      assert s.tables.requests[key].userId in s.tables.users;
    }
    assert Keeps(s, s');
  }

  lemma CreatingEvolves(s: Identity, step: Step)
    requires Inv(s) && Enabled(s, step) && step.Create?
    ensures Evolves(s, Apply(s, step))
  {
    assert Keeps(s, Apply(s, step));
  }

  lemma ActivatingEvolves(s: Identity, step: Step)
    requires Inv(s) && Enabled(s, step) && step.Activate?
    ensures Evolves(s, Apply(s, step))
  {
    assert Keeps(s, Apply(s, step));
  }

  lemma StepEvolves(s: Identity, step: Step)
    requires Inv(s) && Enabled(s, step)
    ensures Evolves(s, Apply(s, step))
  {
    match step
    case Create(command, correlationId, id) => CreatingEvolves(s, step);
    case Compensate(command) =>
      if CompensationAnswer(s.tables, command).None? {
        CompensatingEvolves(s, step);
      } else {
        assert Keeps(s, s);
      }
    case Activate(userId) => ActivatingEvolves(s, step);
  }

  lemma EvolvesIsTransitive(a: Identity, b: Identity, c: Identity)
    requires Inv(a) && Evolves(a, b) && Evolves(b, c)
    ensures Evolves(a, c)
  {
    assert Keeps(a, b) && Keeps(b, c);
    forall key | key in a.tables.requests
      ensures var id := a.tables.requests[key].userId;
              if id in c.tables.users then key in c.tables.requests && c.tables.requests[key] == a.tables.requests[key]
              else id in c.tables.receipts.Values
    {
      var id := a.tables.requests[key].userId;
      assert id in a.tables.users && id in a.seen;
      if id !in b.tables.users {
        var receipt :| receipt in b.tables.receipts && b.tables.receipts[receipt] == id;
        assert c.tables.receipts[receipt] == id;
        assert id in c.tables.receipts.Values;
      }
    }
  }

  lemma {:induction false} TablesEvolve(run: seq<Identity>, i: nat, j: nat)
    requires IsRun(run) && i <= j < |run|
    ensures Evolves(run[i], run[j])
  {
    ReachedTablesAreOk(run, i);
    if i == j {
      assert Keeps(run[i], run[i]);
    } else {
      TablesEvolve(run, i, j - 1);
      ReachedTablesAreOk(run, j - 1);
      NextKeepsInv(run[j - 1], run[j]);
      EvolvesIsTransitive(run[i], run[j - 1], run[j]);
    }
  }

  /**
   Creates repeated with a key and its digest answer the same user as long as the user is not
   compensated; once compensated, the user is gone.
   */
  lemma RepeatedCreatesNameTheSameUser(run: seq<Identity>, i: nat, j: nat, command: UserCreate)
    requires IsRun(run) && i <= j < |run| && command.idempotencyKey in run[i].tables.requests
    requires run[i].tables.requests[command.idempotencyKey].requestHash == command.requestHash
    ensures var id := run[i].tables.requests[command.idempotencyKey].userId;
            && (id in run[j].tables.users <==> id !in run[j].tables.receipts.Values)
            && (id in run[j].tables.users ==>
                  RequestsHaveUsers(run[j].tables)
                  && CreateAnswer(run[j].tables, command)
                     == Some(Created(ToPayload(id, run[j].tables.users[id]), true)))
  {
    ReachedTablesAreOk(run, j);
    TablesEvolve(run, i, j);
    assert Keeps(run[i], run[j]);
  }

  /** A user who is gone, compensated or not, never returns under the same id. */
  lemma CompensatedUsersNeverReturn(run: seq<Identity>, i: nat, j: nat, id: string)
    requires IsRun(run) && i <= j < |run| && id in run[i].seen && id !in run[i].tables.users
    ensures id !in run[j].tables.users
    ensures forall key :: key in run[j].tables.requests ==> run[j].tables.requests[key].userId != id
  {
    ReachedTablesAreOk(run, j);
    TablesEvolve(run, i, j);
    assert Keeps(run[i], run[j]);
  }

  /** Premium users are never compensated: whoever has a receipt was not premium, and is gone. */
  lemma PremiumUsersStay(run: seq<Identity>, i: nat, command: UserCompensate)
    requires IsRun(run) && i < |run|
    requires command.userId in run[i].tables.users && run[i].tables.users[command.userId].premium
    ensures CompensationAnswer(run[i].tables, command).Some?
    ensures CompensationAnswer(run[i].tables, command) != Some(Compensated(true))
    ensures Enabled(run[i], Compensate(command)) && Apply(run[i], Compensate(command)) == run[i]
  {
    ReachedTablesAreOk(run, i);
    if command.idempotencyKey in run[i].tables.receipts {
      assert run[i].tables.receipts[command.idempotencyKey] in run[i].tables.receipts.Values;
    }
  }
}
