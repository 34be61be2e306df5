/** Settlement, release and the unknown outcome of a dispatched reservation. */
module ReconciliationEngine {
  import opened Wrappers
  import opened BudgetTypes
  import opened Ledger
  import P = PricingEngine
  import D = BudgetDatabase

  // The tables a first settlement leaves, written part by part.
  lemma SettlementWritten(t: Tables, id: Id, key: Id, cost: nat, t': Tables, r: SettlementResult, account': Account)
    requires id in t.reservations && t.reservations[id].accountId in t.accounts
    requires var row := t.reservations[id];
             var account := t.accounts[row.accountId];
             && account' == account.(reserved := Lowered(account.reserved, row.held), committed := account.committed + cost,
                                     state := if account.committed + cost > account.limit then LimitOverrun else account.state)
             && t'.accounts == t.accounts[row.accountId := account']
             && t'.reservations == t.reservations[id := row.(state := Settled, settled := cost)]
             && t'.idempotency
                == t.idempotency[key := SettleRecord(id, row.accountId, row.held, cost, Overdraft(cost, row.held))]
             && t'.outbox == t.outbox
             && r == SettlementResult(id, row.accountId, row.held, cost, Overdraft(cost, row.held), account'.state,
                                      account.committed + cost > account.limit)
    ensures SettleAt(t, id, key, cost) == (t', r)
  {
  }

  class ReconciliationEngine {
    const db: D.BudgetDatabase
    const pricing: P.PricingEngine

    constructor (db: D.BudgetDatabase, pricing: P.PricingEngine)
      ensures this.db == db && this.pricing == pricing
    {
      this.db, this.pricing := db, pricing;
    }

    method Settle(q: SettleRequest) returns (r: Result<SettlementResult, BudgetError>)
      requires db.Valid()
      modifies db
      ensures db.Valid() && db.inTransactionLevel == old(db.inTransactionLevel)
      ensures old(db.inTransactionLevel) == 1 ==> db.savepoint == old(db.savepoint)
      ensures D.Performs(SettleReservation(old(db.Contents()), pricing.rates, q),
                         old(db.Contents()), r, db.Contents(), old(db.inTransactionLevel) == 1)
    {
      if q.key.None? {
        return Err(IdempotencyConflict);
      }
      var outermost := db.Begin();
      r := SettleOnce(q, q.key.value);
      db.End(outermost, r.Ok?);
    }

    method SettleOnce(q: SettleRequest, key: Id) returns (r: Result<SettlementResult, BudgetError>)
      requires db.Valid() && q.key == Some(key)
      modifies db`accounts, db`reservations, db`idempotency
      ensures db.Valid()
      ensures D.Performs(SettleReservation(old(db.Contents()), pricing.rates, q),
                         old(db.Contents()), r, db.Contents(), true)
    {
      if key in db.idempotency {
        r := Replay(q, db.idempotency[key]);
        return;
      }
      if q.id !in db.reservations {
        return Err(ReservationNotFound);
      }
      var row := db.reservations[q.id];
      if row.state.Settled? || row.state.Released? {
        return Err(InvalidReservationState);
      }
      var rate :- P.GetRate(pricing.rates, q.providerId, row.modelId, q.usage.serviceTier);
      var cost :- P.CalculateCost(q.usage, rate);
      if row.accountId !in db.accounts {
        return Err(InvalidAccount);
      }
      r := MoveHold(q.id, key, cost);
    }

    /** The first settlement's figures with the account's present state. Reading `actualCostNanoUsd` of a
        record that a reservation left under the same key throws. */
    method Replay(q: SettleRequest, record: IdempotencyRecord) returns (r: Result<SettlementResult, BudgetError>)
      ensures q.key.Some? && q.key.value in db.idempotency && record == db.idempotency[q.key.value] ==>
                D.Performs(ReplaySettlement(db.Contents(), q, q.key.value), db.Contents(), r, db.Contents(), true)
    {
      if q.id !in db.reservations {
        return Err(TypeFault);
      }
      var row := db.reservations[q.id];
      if row.accountId !in db.accounts {
        return Err(TypeFault);
      }
      var account := db.accounts[row.accountId];
      match record
      case ReserveRecord(_, _, _) => return Err(TypeFault);
      case SettleRecord(id, accountId, held, cost, overdraft) =>
        return Ok(SettlementResult(id, accountId, held, cost, overdraft, account.state, account.state.LimitOverrun?));
    }

    /** Takes the hold off the reserved spend, adds the cost to the committed spend and closes the row. */
    method MoveHold(id: Id, key: Id, cost: nat) returns (r: Result<SettlementResult, BudgetError>)
      requires db.Valid() && id in db.reservations && db.reservations[id].accountId in db.accounts
      requires key !in db.idempotency
      modifies db`accounts, db`reservations, db`idempotency
      ensures db.Valid()
      ensures D.Performs(Ok(SettleAt(old(db.Contents()), id, key, cost)), old(db.Contents()), r, db.Contents(), true)
    {
      var row := db.reservations[id];
      var account := db.accounts[row.accountId];
      var newReserved := if account.reserved >= row.held then account.reserved - row.held else 0;
      var newCommitted := account.committed + cost;
      var newState := account.state;
      var isOverrun := newCommitted > account.limit;
      if isOverrun {
        newState := LimitOverrun;
      }
      var updated := db.UpdateAccountBalances(row.accountId, Some(newReserved), Some(newCommitted), Some(newState));
      ghost var account' := account.(reserved := newReserved, committed := newCommitted, state := newState);
      assert db.accounts == old(db.accounts)[row.accountId := account'];
      db.UpdateReservationState(id, Settled, Some(cost));
      assert db.reservations == old(db.reservations)[id := row.(state := Settled, settled := cost)];
      var overdraft := if cost > row.held then cost - row.held else 0;
      var saved := db.SaveIdempotencyRecord(key, SettleRecord(id, row.accountId, row.held, cost, overdraft));
      assert updated.Ok? && saved.Ok?;
      r := Ok(SettlementResult(id, row.accountId, row.held, cost, overdraft, newState, isOverrun));
      SettlementWritten(old(db.Contents()), id, key, cost, db.Contents(), r.value, account');
    }

    method Release(id: Id) returns (r: Result<(), BudgetError>)
      requires db.Valid()
      modifies db
      ensures db.Valid() && db.inTransactionLevel == old(db.inTransactionLevel)
      ensures old(db.inTransactionLevel) == 1 ==> db.savepoint == old(db.savepoint)
      ensures D.Performs(D.Silent(ReleaseReservation(old(db.Contents()), id)),
                         old(db.Contents()), r, db.Contents(), old(db.inTransactionLevel) == 1)
    {
      var outermost := db.Begin();
      r := GiveBack(id);
      db.End(outermost, r.Ok?);
    }

    method GiveBack(id: Id) returns (r: Result<(), BudgetError>)
      requires db.Valid()
      modifies db`accounts, db`reservations
      ensures db.Valid()
      ensures D.Performs(D.Silent(ReleaseReservation(old(db.Contents()), id)), old(db.Contents()), r, db.Contents(), true)
    {
      if id !in db.reservations {
        return Err(ReservationNotFound);
      }
      var row := db.reservations[id];
      if row.state.Released? {
        return Ok(());
      }
      if row.state.Settled? || row.state.Unknown? {
        return Err(InvalidReservationState);
      }
      if row.accountId !in db.accounts {
        return Err(InvalidAccount);
      }
      var account := db.accounts[row.accountId];
      var newReserved := if account.reserved >= row.held then account.reserved - row.held else 0;
      var updated := db.UpdateAccountBalances(row.accountId, Some(newReserved), None, None);
      assert updated.Ok?;
      db.UpdateReservationState(id, Released, None);
      return Ok(());
    }

    method RecordUnknown(id: Id) returns (r: Result<(), BudgetError>)
      requires db.Valid()
      modifies db
      ensures db.Valid() && db.inTransactionLevel == old(db.inTransactionLevel)
      ensures old(db.inTransactionLevel) == 1 ==> db.savepoint == old(db.savepoint)
      ensures D.Performs(D.Silent(HoldUnknown(old(db.Contents()), id)),
                         old(db.Contents()), r, db.Contents(), old(db.inTransactionLevel) == 1)
    {
      var outermost := db.Begin();
      if id !in db.reservations {
        r := Err(ReservationNotFound);
      } else if db.reservations[id].state.Settled? || db.reservations[id].state.Released? {
        r := Err(InvalidReservationState);
      } else {
        db.UpdateReservationState(id, Unknown, None);
        r := Ok(());
      }
      db.End(outermost, r.Ok?);
    }
  }
}
