/** The public operations of the ledger: each joins an engine's step and its outbox events in one transaction,
    and the object's state is at all times that of a run of the ledger. */
module BudgetManager {
  import opened Wrappers
  import opened BudgetTypes
  import opened Ledger
  import opened LedgerRuns
  import opened LedgerInvariant
  import opened LedgerSteps
  import P = PricingEngine
  import D = BudgetDatabase
  import V = ReservationEngine
  import C = ReconciliationEngine
  import R = RecoveryEngine

  class BudgetManager {
    const db: D.BudgetDatabase
    const pricing: P.PricingEngine
    const validator: V.PreDispatchValidator
    const reservationEngine: V.BudgetReservationEngine
    const reconciliationEngine: C.ReconciliationEngine
    const recoveryEngine: R.BudgetRecoveryEngine
    /** Every operation called so far. */
    ghost var calls: seq<Request>

    ghost predicate Valid()
      reads this, db
    {
      && db.Valid() && db.inTransactionLevel == 0 && db.Contents() == Run(EMPTY, calls)
      && validator.db == reservationEngine.db == reconciliationEngine.db == recoveryEngine.db == db
      && validator.pricing == reconciliationEngine.pricing == pricing && reservationEngine.validator == validator
    }

    ghost function Contents(): Tables
      reads this, db
    {
      db.Contents()
    }

    constructor ()
      ensures Valid() && Contents() == EMPTY && fresh(db) && fresh(pricing)
    {
      var database := new D.BudgetDatabase();
      var engine := new P.PricingEngine();
      var checks := new V.PreDispatchValidator(database, engine);
      db, pricing, validator := database, engine, checks;
      reservationEngine := new V.BudgetReservationEngine(database, checks);
      reconciliationEngine := new C.ReconciliationEngine(database, engine);
      recoveryEngine := new R.BudgetRecoveryEngine(database);
      calls := [];
    }

    /** Adds a finished operation to the history. */
    ghost method Remember(q: Request)
      modifies `calls
      ensures calls == old(calls) + [q]
      ensures Run(EMPTY, calls) == Exec(Run(EMPTY, old(calls)), q)
    {
      RunAppend(EMPTY, calls, [q]);
      calls := calls + [q];
    }

    /** So every law of the ledger's runs holds of this object at any time. */
    lemma Reachable()
      requires Valid()
      ensures Inv(Contents())
    {
      ReachableInv(calls);
    }

    method CreateGlobalAccount(limit: int) returns (r: Result<(), BudgetError>)
      requires Valid()
      modifies db, `calls
      ensures Valid() && calls == old(calls) + [CreateGlobalRequest(limit)]
      ensures Contents() == Exec(old(Contents()), CreateGlobalRequest(limit))
      ensures r == Answer(old(Contents()), CreateGlobalRequest(limit))
    {
      r := CreateGlobalAccountTransaction(limit);
      Remember(CreateGlobalRequest(limit));
    }

    method CreateGlobalAccountTransaction(limit: int) returns (r: Result<(), BudgetError>)
      requires db.Valid() && db.inTransactionLevel == 0
      modifies db
      ensures db.Valid() && db.inTransactionLevel == 0
      ensures D.Performs(D.Silent(CreateAccount(old(Contents()), GLOBAL_ID, None, limit)),
                         old(Contents()), r, Contents(), false)
    {
      var outermost := db.Begin();
      r := db.UpsertAccount(GLOBAL_ID, None, limit);
      if r.Ok? {
        db.AddOutboxRecord(AccountCreated(GLOBAL_ID, limit));
      }
      db.End(outermost, r.Ok?);
    }

    method CreateProjectAccount(projectId: string, limit: int) returns (r: Result<(), BudgetError>)
      requires Valid()
      modifies db, `calls
      ensures Valid() && calls == old(calls) + [CreateProjectRequest(projectId, limit)]
      ensures Contents() == Exec(old(Contents()), CreateProjectRequest(projectId, limit))
      ensures r == Answer(old(Contents()), CreateProjectRequest(projectId, limit))
    {
      r := CreateProjectAccountTransaction(projectId, limit);
      Remember(CreateProjectRequest(projectId, limit));
    }

    method CreateProjectAccountTransaction(projectId: string, limit: int) returns (r: Result<(), BudgetError>)
      requires db.Valid() && db.inTransactionLevel == 0
      modifies db
      ensures db.Valid() && db.inTransactionLevel == 0
      ensures D.Performs(D.Silent(CreateAccount(old(Contents()), ProjectAccountId(projectId), Some(projectId), limit)),
                         old(Contents()), r, Contents(), false)
    {
      var id := ProjectAccountId(projectId);
      var outermost := db.Begin();
      r := db.UpsertAccount(id, Some(projectId), limit);
      if r.Ok? {
        db.AddOutboxRecord(AccountCreated(id, limit));
      }
      db.End(outermost, r.Ok?);
    }

    method UpdateBudgetLimit(newLimit: int, accountId: Option<Id>) returns (r: Result<(), BudgetError>)
      requires Valid()
      modifies db, `calls
      ensures Valid() && calls == old(calls) + [UpdateLimitRequest(accountId, newLimit)]
      ensures Contents() == Exec(old(Contents()), UpdateLimitRequest(accountId, newLimit))
      ensures r == Answer(old(Contents()), UpdateLimitRequest(accountId, newLimit))
    {
      r := UpdateBudgetLimitTransaction(newLimit, accountId);
      Remember(UpdateLimitRequest(accountId, newLimit));
    }

    method UpdateBudgetLimitTransaction(newLimit: int, accountId: Option<Id>) returns (r: Result<(), BudgetError>)
      requires db.Valid() && db.inTransactionLevel == 0
      modifies db
      ensures db.Valid() && db.inTransactionLevel == 0
      ensures D.Performs(D.Silent(UpdateLimit(old(Contents()), accountId, newLimit)), old(Contents()), r, Contents(), false)
    {
      var target := accountId;
      if target.None? {
        target := db.GetGlobalAccount();
      }
      if target.None? {
        return Err(InvalidAccount);
      }
      var outermost := db.Begin();
      r := db.UpdateAccountLimit(target.value, newLimit);
      if r.Ok? {
        db.AddOutboxRecord(LimitUpdated(target.value, newLimit));
      }
      db.End(outermost, r.Ok?);
    }

    method RolloverBudgetPeriod(accountId: Option<Id>, newLimit: Option<int>) returns (r: Result<(), BudgetError>)
      requires Valid()
      modifies db, `calls
      ensures Valid() && calls == old(calls) + [RolloverRequest(accountId, newLimit)]
      ensures Contents() == Exec(old(Contents()), RolloverRequest(accountId, newLimit))
      ensures r == Answer(old(Contents()), RolloverRequest(accountId, newLimit))
    {
      r := RolloverBudgetPeriodTransaction(accountId, newLimit);
      Remember(RolloverRequest(accountId, newLimit));
    }

    method RolloverBudgetPeriodTransaction(accountId: Option<Id>, newLimit: Option<int>) returns (r: Result<(), BudgetError>)
      requires db.Valid() && db.inTransactionLevel == 0
      modifies db
      ensures db.Valid() && db.inTransactionLevel == 0
      ensures D.Performs(D.Silent(Rollover(old(Contents()), accountId, newLimit)), old(Contents()), r, Contents(), false)
    {
      var target := accountId;
      if target.None? {
        target := db.GetGlobalAccount();
      }
      if target.None? || target.value == Id("") {
        return Err(InvalidAccount);
      }
      var outermost := db.Begin();
      if target.value !in db.accounts {
        r := Err(TypeFault);
      } else {
        var priorCommitted := db.accounts[target.value].committed;
        var reset := db.ResetCommittedSpend(target.value, newLimit);
        if reset.Ok? {
          db.AddOutboxRecord(PeriodReset(target.value, priorCommitted, reset.value));
          r := Ok(());
        } else {
          r := Err(reset.error);
        }
      }
      db.End(outermost, r.Ok?);
    }

    method Reserve(q: ReserveRequest) returns (r: Result<Id, BudgetError>)
      requires Valid()
      modifies db, `calls
      ensures Valid() && calls == old(calls) + [ReserveCall(pricing.rates, q)]
      ensures Contents() == Exec(old(Contents()), ReserveCall(pricing.rates, q))
      ensures D.Performs(Ledger.Reserve(old(Contents()), pricing.rates, q), old(Contents()), r, Contents(), false)
    {
      r := ReserveTransaction(q);
      Remember(ReserveCall(pricing.rates, q));
    }

    method ReserveTransaction(q: ReserveRequest) returns (r: Result<Id, BudgetError>)
      requires db.Valid() && db.inTransactionLevel == 0
      requires reservationEngine.db == reservationEngine.validator.db == db && reservationEngine.validator.pricing == pricing
      modifies db
      ensures db.Valid() && db.inTransactionLevel == 0
      ensures D.Performs(Ledger.Reserve(old(Contents()), pricing.rates, q), old(Contents()), r, Contents(), false)
    {
      var outermost := db.Begin();
      r := reservationEngine.PrepareReservation(q);
      if r.Ok? {
        var row := db.reservations[r.value];
        db.AddOutboxRecord(ReservedEvent(r.value, row.accountId, row.held));
      }
      db.End(outermost, r.Ok?);
    }

    method MarkDispatched(id: Id) returns (r: Result<(), BudgetError>)
      requires Valid()
      modifies db, `calls
      ensures Valid() && calls == old(calls) + [MarkDispatchedCall(id)]
      ensures Contents() == Exec(old(Contents()), MarkDispatchedCall(id))
      ensures r == Answer(old(Contents()), MarkDispatchedCall(id))
    {
      r := MarkDispatchedTransaction(id);
      Remember(MarkDispatchedCall(id));
    }

    method MarkDispatchedTransaction(id: Id) returns (r: Result<(), BudgetError>)
      requires db.Valid() && db.inTransactionLevel == 0
      requires reservationEngine.db == db
      modifies db
      ensures db.Valid() && db.inTransactionLevel == 0
      ensures D.Performs(D.Silent(Ledger.MarkDispatched(old(Contents()), id)), old(Contents()), r, Contents(), false)
    {
      var outermost := db.Begin();
      r := reservationEngine.MarkDispatched(id);
      if r.Ok? {
        db.AddOutboxRecord(DispatchedEvent(id));
      }
      db.End(outermost, r.Ok?);
    }

    method ClaimReservationForDispatch(c: ClaimRequest) returns (r: Result<Reservation, BudgetError>)
      requires Valid()
      modifies db, `calls
      ensures Valid() && calls == old(calls) + [ClaimCall(c)]
      ensures Contents() == Exec(old(Contents()), ClaimCall(c))
      ensures r.Ok? ==> c.id in Contents().reservations && r.value == Contents().reservations[c.id]
      ensures r.Ok? <==> Claim(old(Contents()), c).Ok?
      ensures r.Err? ==> Claim(old(Contents()), c) == Err(r.error)
    {
      r := db.ClaimReservationForDispatch(c);
      Remember(ClaimCall(c));
    }

    method Settle(q: SettleRequest) returns (r: Result<SettlementResult, BudgetError>)
      requires Valid()
      modifies db, `calls
      ensures Valid() && calls == old(calls) + [SettleCall(pricing.rates, q)]
      ensures Contents() == Exec(old(Contents()), SettleCall(pricing.rates, q))
      ensures D.Performs(Ledger.Settle(old(Contents()), pricing.rates, q), old(Contents()), r, Contents(), false)
    {
      r := SettleTransaction(q);
      Remember(SettleCall(pricing.rates, q));
    }

    method SettleTransaction(q: SettleRequest) returns (r: Result<SettlementResult, BudgetError>)
      requires db.Valid() && db.inTransactionLevel == 0
      requires reconciliationEngine.db == db && reconciliationEngine.pricing == pricing
      modifies db
      ensures db.Valid() && db.inTransactionLevel == 0
      ensures D.Performs(Ledger.Settle(old(Contents()), pricing.rates, q), old(Contents()), r, Contents(), false)
    {
      var outermost := db.Begin();
      r := reconciliationEngine.Settle(q);
      if r.Ok? {
        RecordSettlement(r.value);
      }
      db.End(outermost, r.Ok?);
    }

    method RecordSettlement(r: SettlementResult)
      requires db.Valid()
      modifies db`outbox
      ensures db.Valid() && db.outbox == old(db.outbox) + SettlementEvents(r)
    {
      db.AddOutboxRecord(SettledEvent(r.reservationId, r.accountId, r.held, r.cost, r.overdraft));
      if r.isOverrun {
        db.AddOutboxRecord(OverrunEvent(r.accountId, r.overdraft));
      }
    }

    method Release(id: Id) returns (r: Result<(), BudgetError>)
      requires Valid()
      modifies db, `calls
      ensures Valid() && calls == old(calls) + [ReleaseCall(id)]
      ensures Contents() == Exec(old(Contents()), ReleaseCall(id))
      ensures r == Answer(old(Contents()), ReleaseCall(id))
    {
      r := ReleaseTransaction(id);
      Remember(ReleaseCall(id));
    }

    method ReleaseTransaction(id: Id) returns (r: Result<(), BudgetError>)
      requires db.Valid() && db.inTransactionLevel == 0
      requires reconciliationEngine.db == db
      modifies db
      ensures db.Valid() && db.inTransactionLevel == 0
      ensures D.Performs(D.Silent(Ledger.Release(old(Contents()), id)), old(Contents()), r, Contents(), false)
    {
      var outermost := db.Begin();
      r := reconciliationEngine.Release(id);
      if r.Ok? {
        db.AddOutboxRecord(ReleasedEvent(id));
      }
      db.End(outermost, r.Ok?);
    }

    method RecordUnknown(id: Id) returns (r: Result<(), BudgetError>)
      requires Valid()
      modifies db, `calls
      ensures Valid() && calls == old(calls) + [RecordUnknownCall(id)]
      ensures Contents() == Exec(old(Contents()), RecordUnknownCall(id))
      ensures r == Answer(old(Contents()), RecordUnknownCall(id))
    {
      r := RecordUnknownTransaction(id);
      Remember(RecordUnknownCall(id));
    }

    method RecordUnknownTransaction(id: Id) returns (r: Result<(), BudgetError>)
      requires db.Valid() && db.inTransactionLevel == 0
      requires reconciliationEngine.db == db
      modifies db
      ensures db.Valid() && db.inTransactionLevel == 0
      ensures D.Performs(D.Silent(Ledger.RecordUnknown(old(Contents()), id)), old(Contents()), r, Contents(), false)
    {
      var outermost := db.Begin();
      r := reconciliationEngine.RecordUnknown(id);
      if r.Ok? {
        db.AddOutboxRecord(UnknownEvent(id));
      }
      db.End(outermost, r.Ok?);
    }

    method Recover() returns (report: RecoveryReport)
      requires Valid()
      modifies db, `calls
      ensures Valid() && calls == old(calls) + [RecoverCall]
      ensures Contents() == Exec(old(Contents()), RecoverCall) && report == ReportOf(old(Contents()))
    {
      report := RecoverTransaction();
      Remember(RecoverCall);
    }

    method RecoverTransaction() returns (report: RecoveryReport)
      requires db.Valid() && db.inTransactionLevel == 0
      requires recoveryEngine.db == db
      modifies db
      ensures db.Valid() && db.inTransactionLevel == 0
      ensures Contents() == LedgerRuns.Recover(old(Contents())) && report == ReportOf(old(Contents()))
    {
      var outermost := db.Begin();
      report := recoveryEngine.Recover();
      db.AddOutboxRecord(RecoveryCompleted(report));
      db.End(outermost, true);
    }
  }
}
