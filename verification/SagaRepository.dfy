/**
 OnboardingRepository: the saga table, one transaction a method.
 */
module SagaRepository {
  import opened Wrappers
  import opened Contracts
  import opened SagaRow
  import opened Selection

  function Lookup(rows: map<string, Row>, key: string): Option<Row> {
    if key in rows then Some(rows[key]) else None
  }

  /** The rows that claimRecoverable may take: SKIP LOCKED passes over rows of open transactions. */
  function Candidates(rows: map<string, Row>, skipped: set<string>, now: int): set<string> {
    set key | key in rows && key !in skipped && Recoverable(rows[key], now)
  }

  function Ages(rows: map<string, Row>): map<string, int> {
    map key | key in rows :: rows[key].updatedAt
  }

  /** The rows under the keys are locked and handed out; the others are as before. */
  ghost predicate Claims(before: map<string, Row>, keys: seq<string>, worker: WorkerId, until: int, now: int,
                         claimed: seq<Row>, after: map<string, Row>)
  {
    && |claimed| == |keys|
    && (forall i :: 0 <= i < |keys| ==> keys[i] in before && claimed[i] == Locked(before[keys[i]], worker, until, now))
    && after.Keys == before.Keys
    && (forall key :: key in before ==>
          after[key] == if key in keys then Locked(before[key], worker, until, now) else before[key])
  }

  lemma ClaimsOneMore(before: map<string, Row>, keys: seq<string>, i: nat, worker: WorkerId, until: int, now: int,
                      claimed: seq<Row>, rows: map<string, Row>)
    requires i < |keys| && keys[i] in before && forall j :: 0 <= j < i ==> keys[j] != keys[i]
    requires Claims(before, keys[..i], worker, until, now, claimed, rows)
    ensures keys[i] in rows
    ensures var row := Locked(rows[keys[i]], worker, until, now);
            Claims(before, keys[..i + 1], worker, until, now, claimed + [row], rows[keys[i] := row])
  {
    assert keys[..i + 1] == keys[..i] + [keys[i]];
    assert keys[i] !in keys[..i];
  }

  /** What others do leaves a row alone for as long as the worker holds it. */
  ghost predicate LeavesHeldRowsAlone(worker: WorkerId, before: map<string, Row>, after: map<string, Row>) {
    forall key :: key in after && after[key].lockedBy == Some(worker) ==> key in before && after[key] == before[key]
  }

  /** tables holds the table as each statement has left it, queries included. */
  class OnboardingRepository {
    var rows: map<string, Row>
    ghost var tables: seq<map<string, Row>>

    constructor ()
      ensures rows == map[] && tables == []
    {
      rows := map[];
      tables := [];
    }

    method TryAcquire(command: Command, worker: WorkerId, until: int, now: int) returns (outcome: Acquisition)
      modifies this
      ensures outcome == Acquire(old(Lookup(rows, command.idempotencyKey)), command, worker, until, now)
      ensures rows == if outcome.Acquired? then old(rows)[command.idempotencyKey := outcome.saga] else old(rows)
      ensures tables == old(tables) + [rows]
    {
      var key := command.idempotencyKey;
      if key !in rows {
        rows := rows[key := Inserted(command, now)];
      }
      var existing := rows[key];
      if existing.requestHash != command.requestHash {
        tables := tables + [rows];
        return HashConflict;
      }
      if HeldByAnother(existing, worker, now) {
        tables := tables + [rows];
        return Busy;
      }
      var claimed := Locked(existing, worker, until, now);
      rows := rows[key := claimed];
      tables := tables + [rows];
      return Acquired(claimed);
    }

    method FindByIdempotencyKey(key: string) returns (found: Option<Row>)
      modifies `tables
      ensures found == Lookup(rows, key) && tables == old(tables) + [rows]
    {
      found := if key in rows then Some(rows[key]) else None;
      tables := tables + [rows];
    }

    /** Locks for the worker as many candidates as allowed, the longest untouched first; nothing else changes. */
    method ClaimRecoverable(worker: WorkerId, until: int, limit: nat, skipped: set<string>, now: int)
      returns (claimed: seq<Row>)
      modifies this
      ensures |claimed| == Min(limit, |Candidates(old(rows), skipped, now)|)
      ensures exists keys: seq<string> :: Selected(Ages(old(rows)), Candidates(old(rows), skipped, now), keys)
                && Claims(old(rows), keys, worker, until, now, claimed, rows)
      ensures tables == old(tables) + [rows]
    {
      var before := rows;
      var keys := SelectOldest(Ages(rows), Candidates(rows, skipped, now), limit);
      claimed := [];
      for i := 0 to |keys|
        invariant Claims(before, keys[..i], worker, until, now, claimed, rows) && tables == old(tables)
      {
        ClaimsOneMore(before, keys, i, worker, until, now, claimed, rows);
        var row := Locked(rows[keys[i]], worker, until, now);
        rows := rows[keys[i] := row];
        claimed := claimed + [row];
      }
      assert keys[..|keys|] == keys;
      tables := tables + [rows];
    }

    /** transition: None stands for the exception that the saga is not locked by the worker. */
    method Transition(key: string, worker: WorkerId, change: Change, now: int) returns (saga: Option<Row>)
      modifies this
      ensures var held := key in old(rows) && old(rows)[key].lockedBy == Some(worker);
              && saga == (if held then Some(Changed(old(rows)[key], change, now)) else None)
              && rows == (if held then old(rows)[key := saga.value] else old(rows))
      ensures tables == old(tables) + [rows]
    {
      if key !in rows || rows[key].lockedBy != Some(worker) {
        tables := tables + [rows];
        return None;
      }
      var updated := Changed(rows[key], change, now);
      rows := rows[key := updated];
      tables := tables + [rows];
      return Some(updated);
    }

    method Release(key: string, worker: WorkerId, now: int)
      modifies this
      ensures rows.Keys == old(rows).Keys
      ensures forall k :: k in rows ==> rows[k] == if k == key then Released(old(rows)[k], worker, now) else old(rows)[k]
      ensures tables == old(tables) + [rows]
    {
      if key in rows && rows[key].lockedBy == Some(worker) {
        rows := rows[key := rows[key].(lockedBy := None, lockedUntil := None, updatedAt := now)];
      }
      tables := tables + [rows];
    }
  }

  /** One statement of another worker. */
  datatype RowStep =
    | OtherTakes(command: Command, worker: WorkerId, until: int, now: int)
    | OtherRecovers(key: string, worker: WorkerId, until: int, now: int)
    | OtherSaves(key: string, worker: WorkerId, change: Change, now: int)
    | OtherReleases(key: string, worker: WorkerId, now: int)

  /** Runs statements of other workers; those in the name of the worker itself are passed over. */
  method Interfere(repository: OnboardingRepository, worker: WorkerId, steps: seq<RowStep>)
    modifies repository
    ensures LeavesHeldRowsAlone(worker, old(repository.rows), repository.rows)
    ensures old(repository.rows).Keys <= repository.rows.Keys && old(repository.tables) <= repository.tables
  {
    for i := 0 to |steps|
      invariant LeavesHeldRowsAlone(worker, old(repository.rows), repository.rows)
      invariant old(repository.rows).Keys <= repository.rows.Keys && old(repository.tables) <= repository.tables
    {
      var step := steps[i];
      if step.worker != worker {
        match step
        case OtherTakes(command, other, until, now) =>
          var _ := repository.TryAcquire(command, other, until, now);
        case OtherRecovers(key, other, until, now) =>
          if key in repository.rows && Recoverable(repository.rows[key], now) {
            var _ := repository.ClaimRecoverable(other, until, 1, repository.rows.Keys - {key}, now);
          }
        case OtherSaves(key, other, change, now) =>
          var _ := repository.Transition(key, other, change, now);
        case OtherReleases(key, other, now) =>
          repository.Release(key, other, now);
      }
    }
  }
}
