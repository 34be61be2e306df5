/** The checks before a dispatch, and the engine that creates and dispatches reservations. */
module ReservationEngine {
  import opened Wrappers
  import opened BudgetTypes
  import opened Ledger
  import P = PricingEngine
  import D = BudgetDatabase

  class PreDispatchValidator {
    const db: D.BudgetDatabase
    const pricing: P.PricingEngine

    constructor (db: D.BudgetDatabase, pricing: P.PricingEngine)
      ensures this.db == db && this.pricing == pricing
    {
      this.db, this.pricing := db, pricing;
    }

    method CheckDispatch(q: ReserveRequest) returns (r: Result<(Id, nat), BudgetError>)
      requires db.Valid()
      ensures r == Validate(db.Contents(), pricing.rates, q)
    {
      if q.auditFault.Some? {
        return Err(q.auditFault.value);
      }
      var target := q.accountId;
      if target.None? {
        target := db.GetGlobalAccount();
      }
      if target.None? || target.value !in db.accounts {
        return Err(InvalidAccount);
      }
      var account := db.accounts[target.value];
      if !account.state.Active? {
        return Err(BudgetOverrun);
      }
      var cost :- P.EstimateCost(pricing.rates, q.estimate, q.providerId, q.modelId);
      if account.Available() < cost {
        return Err(BudgetExceeded);
      }
      return Ok((target.value, cost));
    }
  }

  // The tables a new reservation leaves, written part by part.
  lemma ReservationWritten(t: Tables, q: ReserveRequest, key: Id, accountId: Id, cost: nat, t': Tables)
    requires accountId in t.accounts
    requires var account := t.accounts[accountId];
             && t'.accounts == t.accounts[accountId := account.(reserved := account.reserved + cost)]
             && t'.reservations == t.reservations[q.id := NewRow(q, key, accountId, cost)]
             && t'.idempotency == t.idempotency[key := ReserveRecord(q.id, accountId, cost)]
             && t'.outbox == t.outbox
    ensures t' == AddReservation(t, q, key, accountId, cost)
  {
  }

  class BudgetReservationEngine {
    const db: D.BudgetDatabase
    const validator: PreDispatchValidator

    constructor (db: D.BudgetDatabase, validator: PreDispatchValidator)
      ensures this.db == db && this.validator == validator
    {
      this.db, this.validator := db, validator;
    }

    method PrepareReservation(q: ReserveRequest) returns (r: Result<Id, BudgetError>)
      requires db.Valid() && validator.db == db
      modifies db
      ensures db.Valid() && db.inTransactionLevel == old(db.inTransactionLevel)
      ensures old(db.inTransactionLevel) == 1 ==> db.savepoint == old(db.savepoint)
      ensures D.Performs(Ledger.PrepareReservation(old(db.Contents()), validator.pricing.rates, q),
                         old(db.Contents()), r, db.Contents(), old(db.inTransactionLevel) == 1)
    {
      if q.key.None? {
        return Err(IdempotencyConflict);
      }
      var outermost := db.Begin();
      r := Insert(q, q.key.value);
      db.End(outermost, r.Ok?);
    }

    method Insert(q: ReserveRequest, key: Id) returns (r: Result<Id, BudgetError>)
      requires db.Valid() && validator.db == db && q.key == Some(key)
      modifies db`accounts, db`reservations, db`idempotency
      ensures db.Valid()
      ensures D.Performs(Ledger.PrepareReservation(old(db.Contents()), validator.pricing.rates, q),
                         old(db.Contents()), r, db.Contents(), true)
    {
      var existing := db.GetReservationByIdempotencyKey(key);
      if existing.Some? {
        return Ok(existing.value);
      }
      var admitted :- validator.CheckDispatch(q);
      r := Write(q, key, admitted.0, admitted.1);
    }

    /** The writes, in order: the balance, the row, the idempotency record. A violated key stops them half-way. */
    method Write(q: ReserveRequest, key: Id, accountId: Id, cost: nat) returns (r: Result<Id, BudgetError>)
      requires db.Valid() && accountId in db.accounts && FindByKey(db.reservations, key).None?
      modifies db`accounts, db`reservations, db`idempotency
      ensures db.Valid()
      ensures r == if q.id in old(db.reservations) || key in old(db.idempotency) then Err(ConstraintViolation) else Ok(q.id)
      ensures r.Ok? ==> db.Contents() == AddReservation(old(db.Contents()), q, key, accountId, cost)
    {
      var account := db.accounts[accountId];
      var updated := db.UpdateAccountBalances(accountId, Some(account.reserved + cost), None, None);
      assert updated.Ok?;
      var _ :- db.CreateReservation(q.id, NewRow(q, key, accountId, cost));
      var _ :- db.SaveIdempotencyRecord(key, ReserveRecord(q.id, accountId, cost));
      ReservationWritten(old(db.Contents()), q, key, accountId, cost, db.Contents());
      return Ok(q.id);
    }

    method MarkDispatched(id: Id) returns (r: Result<(), BudgetError>)
      requires db.Valid()
      modifies db
      ensures db.Valid() && db.inTransactionLevel == old(db.inTransactionLevel)
      ensures old(db.inTransactionLevel) == 1 ==> db.savepoint == old(db.savepoint)
      ensures D.Performs(D.Silent(PrepareDispatch(old(db.Contents()), id)),
                         old(db.Contents()), r, db.Contents(), old(db.inTransactionLevel) == 1)
    {
      var outermost := db.Begin();
      if id !in db.reservations {
        r := Err(ReservationNotFound);
      } else if db.reservations[id].state.Dispatched? {
        r := Ok(());
      } else if !db.reservations[id].state.Prepared? {
        r := Err(InvalidReservationState);
      } else {
        db.UpdateReservationState(id, Dispatched, None);
        r := Ok(());
      }
      db.End(outermost, r.Ok?);
    }
  }
}
