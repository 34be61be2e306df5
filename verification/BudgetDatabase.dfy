/** The database object: four tables with their constraints, statements that change them in place,
    and transactions of which only the outermost one is real. */
module BudgetDatabase {
  import opened Wrappers
  import opened BudgetTypes
  import opened Ledger

  // ---------- constraints, table by table ----------

  ghost predicate AccountsConstrained(accounts: Accounts) {
    UniqueScopes(accounts) && ScopeChecked(accounts)
  }

  ghost predicate RowsConstrained(accounts: Accounts, reservations: Reservations) {
    && UniqueKeys(reservations)
    && forall r | r in reservations :: reservations[r].accountId in accounts
  }

  lemma FindByKeyIsUnique(reservations: Reservations, id: Id)
    requires UniqueKeys(reservations) && id in reservations
    ensures FindByKey(reservations, reservations[id].idempotencyKey) == Some(id)
  {
  }

  lemma FindGlobalIsUnique(accounts: Accounts, a: Id)
    requires AccountsConstrained(accounts) && a in accounts && accounts[a].kind.Global?
    ensures FindGlobal(accounts) == Some(a)
  {
    var g := FindGlobal(accounts).value;
    assert accounts[g].projectId.None? && accounts[a].projectId.None?;
  }

  /** What a call answers and leaves behind, given the transaction it performs. Inside an outer transaction a
      failed call may leave its writes for the outer rollback; on its own it leaves nothing. */
  ghost predicate Performs<T>(
    outcome: Outcome<T>, before: Tables, answer: Result<T, BudgetError>, after: Tables, nested: bool)
  {
    match outcome
    case Ok((t, value)) => answer == Ok(value) && after == t
    case Err(e) => answer == Err(e) && (!nested ==> after == before)
  }

  /** An operation without a result of its own. */
  function Silent(r: Result<Tables, BudgetError>): Outcome<()> {
    match r
    case Ok(t) => Ok((t, ()))
    case Err(e) => Err(e)
  }

  class BudgetDatabase {
    var accounts: Accounts
    var reservations: Reservations
    var idempotency: Idempotency
    var outbox: seq<Event>
    var inTransactionLevel: nat
    /** What ROLLBACK brings back. */
    var savepoint: Tables

    ghost predicate Valid()
      reads this
    {
      && AccountsConstrained(accounts) && RowsConstrained(accounts, reservations)
      && inTransactionLevel <= 1
      && AccountsConstrained(savepoint.accounts) && RowsConstrained(savepoint.accounts, savepoint.reservations)
    }

    ghost function Contents(): Tables
      reads this
    {
      Tables(accounts, reservations, idempotency, outbox)
    }

    constructor ()
      ensures Valid() && Contents() == EMPTY && inTransactionLevel == 0
    {
      accounts, reservations, idempotency, outbox := map[], map[], map[], [];
      inTransactionLevel, savepoint := 0, EMPTY;
    }

    // ---------- transactions ----------

    /** A nested transaction joins the outer one. */
    method Begin() returns (outermost: bool)
      requires Valid()
      modifies `inTransactionLevel, `savepoint
      ensures Valid() && inTransactionLevel == 1
      ensures outermost <==> old(inTransactionLevel) == 0
      ensures savepoint == if outermost then Contents() else old(savepoint)
    {
      outermost := inTransactionLevel == 0;
      if outermost {
        savepoint := Tables(accounts, reservations, idempotency, outbox);
        inTransactionLevel := inTransactionLevel + 1;
      }
    }

    /** COMMIT after a normal return of the outermost transaction, ROLLBACK after a throw. */
    method End(outermost: bool, committed: bool)
      requires Valid() && inTransactionLevel == 1
      modifies this
      ensures Valid() && savepoint == old(savepoint)
      ensures inTransactionLevel == if outermost then 0 else 1
      ensures Contents() == if outermost && !committed then savepoint else old(Contents())
    {
      if outermost {
        if !committed {
          accounts, reservations := savepoint.accounts, savepoint.reservations;
          idempotency, outbox := savepoint.idempotency, savepoint.outbox;
        }
        inTransactionLevel := inTransactionLevel - 1;
      }
    }

    // ---------- accounts ----------

    method UpsertAccount(id: Id, projectId: Option<string>, limit: int) returns (r: Result<(), BudgetError>)
      requires Valid()
      modifies `accounts
      ensures Valid()
      ensures match CreateAccount(old(Contents()), id, projectId, limit)
              case Ok(t) => r == Ok(()) && accounts == t.accounts
              case Err(e) => r == Err(e) && accounts == old(accounts)
    {
      var kind := if projectId.None? then Global else Project;
      if limit < 0 {
        return Err(ConstraintViolation);
      }
      if id in accounts {
        accounts := accounts[id := accounts[id].(limit := limit, state := Active)];
      } else if exists a | a in accounts :: accounts[a].kind == kind && accounts[a].projectId == projectId {
        return Err(ConstraintViolation);
      } else {
        accounts := accounts[id := Account(kind, projectId, limit, 0, 0, Active)];
      }
      return Ok(());
    }

    method GetGlobalAccount() returns (r: Option<Id>)
      requires Valid()
      ensures r == FindGlobal(accounts)
    {
      if a :| a in accounts && accounts[a].kind.Global? {
        FindGlobalIsUnique(accounts, a);
        return Some(a);
      }
      return None;
    }

    method UpdateAccountBalances(id: Id, reserved: Option<nat>, committed: Option<nat>, state: Option<AccountState>)
      returns (r: Result<(), BudgetError>)
      requires Valid()
      modifies `accounts
      ensures Valid()
      ensures r == if id in old(accounts) then Ok(()) else Err(InvalidAccount)
      ensures accounts ==
                if id in old(accounts) then
                  var current := old(accounts)[id];
                  old(accounts)[id := current.(reserved := reserved.GetOr(current.reserved),
                                               committed := committed.GetOr(current.committed),
                                               state := state.GetOr(current.state))]
                else old(accounts)
    {
      if id !in accounts {
        return Err(InvalidAccount);
      }
      var current := accounts[id];
      accounts := accounts[id := current.(reserved := reserved.GetOr(current.reserved),
                                          committed := committed.GetOr(current.committed),
                                          state := state.GetOr(current.state))];
      return Ok(());
    }

    method UpdateAccountLimit(id: Id, limit: int) returns (r: Result<(), BudgetError>)
      requires Valid()
      modifies `accounts
      ensures Valid()
      ensures match UpdateLimit(old(Contents()), Some(id), limit)
              case Ok(t) => r == Ok(()) && accounts == t.accounts
              case Err(e) => r == Err(e) && accounts == old(accounts)
    {
      if id !in accounts {
        return Err(InvalidAccount);
      }
      var current := accounts[id];
      var state := if current.committed > limit then LimitOverrun
                   else if current.state.LimitOverrun? then Active
                   else current.state;
      if limit < 0 {
        return Err(ConstraintViolation);
      }
      accounts := accounts[id := current.(limit := limit, state := state)];
      return Ok(());
    }

    method ResetCommittedSpend(id: Id, newLimit: Option<int>) returns (r: Result<nat, BudgetError>)
      requires Valid()
      modifies `accounts
      ensures Valid()
      ensures r.Err? ==> accounts == old(accounts)
      ensures id !in old(accounts) ==> r == Err(InvalidAccount)
      ensures id in old(accounts) ==>
                var current := old(accounts)[id];
                var limit := newLimit.GetOr(current.limit);
                if limit < 0 then r == Err(ConstraintViolation)
                else
                  && r == Ok(limit)
                  && accounts == old(accounts)[id := current.(limit := limit, committed := 0,
                                                 state := if current.state.LimitOverrun? then Active else current.state)]
    {
      if id !in accounts {
        return Err(InvalidAccount);
      }
      var current := accounts[id];
      var limit := newLimit.GetOr(current.limit);
      var state := if current.state.LimitOverrun? then Active else current.state;
      if limit < 0 {
        return Err(ConstraintViolation);
      }
      accounts := accounts[id := current.(committed := 0, limit := limit, state := state)];
      return Ok(limit);
    }

    // ---------- reservations ----------

    method CreateReservation(id: Id, row: Reservation) returns (r: Result<(), BudgetError>)
      requires Valid()
      modifies `reservations
      ensures Valid()
      ensures r.Ok? <==> id !in old(reservations) && row.accountId in accounts
                         && FindByKey(old(reservations), row.idempotencyKey).None?
      ensures r == if r.Ok? then Ok(()) else Err(ConstraintViolation)
      ensures reservations == if r.Ok? then old(reservations)[id := row] else old(reservations)
    {
      if id in reservations || row.accountId !in accounts
         || exists other | other in reservations :: reservations[other].idempotencyKey == row.idempotencyKey {
        return Err(ConstraintViolation);
      }
      reservations := reservations[id := row];
      return Ok(());
    }

    method GetReservationByIdempotencyKey(key: Id) returns (r: Option<Id>)
      requires Valid()
      ensures r == FindByKey(reservations, key)
    {
      if id :| id in reservations && reservations[id].idempotencyKey == key {
        FindByKeyIsUnique(reservations, id);
        return Some(id);
      }
      return None;
    }

    method UpdateReservationState(id: Id, state: ReservationState, settled: Option<nat>)
      requires Valid()
      modifies `reservations
      ensures Valid()
      ensures reservations ==
                if id in old(reservations) then
                  var row := old(reservations)[id];
                  old(reservations)[id := row.(state := state, settled := settled.GetOr(row.settled))]
                else old(reservations)
    {
      if id in reservations {
        var row := reservations[id];
        reservations := reservations[id := row.(state := state, settled := settled.GetOr(row.settled))];
      }
    }

    /** The pending rows, each once, in the order of their creation times, which the model leaves open. */
    method ListPendingReservations() returns (pending: seq<Id>)
      ensures forall id :: id in pending <==> id in reservations && reservations[id].IsPending()
      ensures forall i, j | 0 <= i < j < |pending| :: pending[i] != pending[j]
    {
      pending := [];
      var rest := set id | id in reservations && reservations[id].IsPending();
      while rest != {}
        invariant forall id :: id in pending || id in rest <==> id in reservations && reservations[id].IsPending()
        invariant forall id :: id in pending ==> id !in rest
        invariant forall i, j | 0 <= i < j < |pending| :: pending[i] != pending[j]
        decreases |rest|
      {
        var id :| id in rest;
        rest := rest - {id};
        pending := pending + [id];
      }
    }

    /** Checks the claim, and stores it with the one UPDATE whose WHERE clause repeats every condition. */
    method ClaimReservationForDispatch(c: ClaimRequest) returns (r: Result<Reservation, BudgetError>)
      requires Valid()
      modifies this
      ensures Valid() && inTransactionLevel == old(inTransactionLevel)
      ensures (old(inTransactionLevel) == 1 ==> savepoint == old(savepoint))
      ensures match Claim(old(Contents()), c)
              case Ok(t) => Contents() == t && c.id in reservations && r == Ok(reservations[c.id])
              case Err(e) => Contents() == old(Contents()) && r == Err(e)
    {
      var outermost := Begin();
      r := Consume(c);
      End(outermost, r.Ok?);
    }

    method Consume(c: ClaimRequest) returns (r: Result<Reservation, BudgetError>)
      requires Valid()
      modifies `reservations
      ensures Valid()
      ensures match Claim(old(Contents()), c)
              case Ok(t) => Contents() == t && c.id in reservations && r == Ok(reservations[c.id])
              case Err(e) => Contents() == old(Contents()) && r == Err(e)
    {
      var row :- VerifyReservation(Tables(accounts, reservations, idempotency, outbox), c);
      if !c.Bound() {
        return Err(BudgetRequired);
      }
      if row.dispatchCount > 0 || row.claimId.Some? {
        return Err(AlreadyConsumed);
      }
      var claimId := if c.claimId.Some? then c.claimId.value else c.freshId;
      var changes := 0;
      if ClaimGuard(Tables(accounts, reservations, idempotency, outbox), c) {
        reservations := reservations[c.id := Claimed(reservations[c.id], claimId)];
        changes := 1;
      }
      if changes == 0 {
        return Err(AlreadyConsumed);
      }
      return Ok(reservations[c.id]);
    }

    // ---------- idempotency and outbox ----------

    method SaveIdempotencyRecord(key: Id, record: IdempotencyRecord) returns (r: Result<(), BudgetError>)
      requires Valid()
      modifies `idempotency
      ensures Valid()
      ensures r == if key in old(idempotency) then Err(ConstraintViolation) else Ok(())
      ensures idempotency == if r.Ok? then old(idempotency)[key := record] else old(idempotency)
    {
      if key in idempotency {
        return Err(ConstraintViolation);
      }
      idempotency := idempotency[key := record];
      return Ok(());
    }

    method AddOutboxRecord(e: Event)
      requires Valid()
      modifies `outbox
      ensures Valid() && outbox == old(outbox) + [e]
    {
      outbox := outbox + [e];
    }
  }
}
