/** The laws of the ledger over whole runs: conservation of holds, exposure, exactly-once spend,
    agreement of the audit trail, retries, recovery and single dispatch. */
module LedgerLaws {
  import opened Wrappers
  import opened PricingEngine
  import opened Ledger
  import opened LedgerRuns
  import opened AuditTrail
  import opened LedgerInvariant
  import opened LedgerSteps
  import opened LifeCycle
  import opened TableSum

  // ---------- holds ----------

  ghost predicate NeverRecovered(es: seq<Event>) {
    forall i | 0 <= i < |es| :: !es[i].RecoveryCompleted?
  }

  lemma {:induction false} RecoveredIsTold(es: seq<Event>, a: Id)
    requires NeverRecovered(es)
    ensures !TrailOf(es, a).recovered
  {
    if es != [] {
      RecoveredIsTold(es[..|es| - 1], a);
    }
  }

  lemma ApplyTellsRecovery(t: Tables, q: Request, t': Tables)
    requires Apply(t, q) == Ok(t') && !q.RecoverCall? && NeverRecovered(t.outbox)
    ensures NeverRecovered(t'.outbox)
  {
    match q
    case ReserveCall(rates, reserve) =>
      var (t1, id) := PrepareReservation(t, rates, reserve).value;
      ReservationShape(t, rates, reserve, t1, id);
    case SettleCall(rates, settle) =>
      var (t1, r) := SettleReservation(t, rates, settle).value;
      SettlementShape(t, rates, settle, t1, r);
    case _ =>
  }

  lemma {:induction false} RunTellsRecovery(t: Tables, calls: seq<Request>)
    requires NeverRecovered(t.outbox) && RecoverCall !in calls
    ensures NeverRecovered(Run(t, calls).outbox)
    decreases |calls|
  {
    if calls != [] {
      if Apply(t, calls[0]).Ok? {
        ApplyTellsRecovery(t, calls[0], Apply(t, calls[0]).value);
      }
      RunTellsRecovery(Exec(t, calls[0]), calls[1..]);
    }
  }

  /** In every reachable ledger an account's reserved spend covers the holds of its pending reservations,
      exactly so for the global account, and for every account as long as recovery was never run. */
  lemma HoldsAreConserved(calls: seq<Request>, a: Id)
    requires a in Run(EMPTY, calls).accounts
    ensures var t := Run(EMPTY, calls);
            && t.accounts[a].reserved >= Holds(t.reservations, a)
            && (t.accounts[a].kind.Global? || RecoverCall !in calls ==>
                  t.accounts[a].reserved == Holds(t.reservations, a))
  {
    var t := Run(EMPTY, calls);
    ReachableInv(calls);
    assert AccountOk(t.accounts[a], t.reservations, t.outbox, a);
    if RecoverCall !in calls {
      RunTellsRecovery(EMPTY, calls);
      RecoveredIsTold(t.outbox, a);
    }
  }

  // ---------- exposure ----------

  /** Committed plus reserved spend never exceeds the highest limit the account ever had plus all settlement
      overdrafts; the bound is the current limit when no limit was ever lowered. An account created once
      is LIMIT_OVERRUN exactly when its committed spend exceeds its limit. */
  lemma ExposureIsBounded(calls: seq<Request>, a: Id)
    requires a in Run(EMPTY, calls).accounts
    ensures var t := Run(EMPTY, calls);
            var account, trail := t.accounts[a], TrailOf(t.outbox, a);
            && account.committed + account.reserved <= trail.peak + Overdrafts(t.reservations, a)
            && (!trail.lowered ==> account.committed + account.reserved <= account.limit + Overdrafts(t.reservations, a))
            && (trail.creations == 1 ==>
                  (account.state.LimitOverrun? <==> account.committed > account.limit)
                  && (account.state.Active? <==> account.committed <= account.limit))
  {
    var t := Run(EMPTY, calls);
    ReachableInv(calls);
    assert AccountOk(t.accounts[a], t.reservations, t.outbox, a);
  }

  /** An account whose settlements all fit their holds, and whose limit is never lowered, never overruns. */
  lemma FittingSettlementsNeverOverrun(calls: seq<Request>, a: Id)
    requires a in Run(EMPTY, calls).accounts
    requires var t := Run(EMPTY, calls);
             && !TrailOf(t.outbox, a).lowered && TrailOf(t.outbox, a).creations == 1
             && forall r | r in t.reservations && t.reservations[r].accountId == a && t.reservations[r].state.Settled? ::
                  t.reservations[r].settled <= t.reservations[r].held
    ensures Run(EMPTY, calls).accounts[a].state.Active?
  {
    var t := Run(EMPTY, calls);
    ExposureIsBounded(calls, a);
    SumZero(t.reservations, OverdraftFor(a));
  }

  // ---------- exactly once ----------

  /** What an account has committed, together with what earlier period resets carried out, is the sum of
      the amounts of its SETTLED reservations: every settlement counts once, whatever was retried. */
  lemma SpendIsExactlyOnce(calls: seq<Request>, a: Id)
    requires a in Run(EMPTY, calls).accounts
    ensures var t := Run(EMPTY, calls);
            t.accounts[a].committed + TrailOf(t.outbox, a).prior == SettledSpend(t.reservations, a)
  {
    var t := Run(EMPTY, calls);
    ReachableInv(calls);
    assert AccountOk(t.accounts[a], t.reservations, t.outbox, a);
  }

  lemma BillsSum(rows: Reservations, bills: Bills, a: Id)
    requires BillsOk(rows, bills)
    ensures Sum(bills, BilledTo(a)) == SettledSpend(rows, a)
  {
    SumRestrict(rows, SettledFor(a), bills.Keys);
    var settled := map r | r in rows && r in bills.Keys :: rows[r];
    SumCongruent(bills, BilledTo(a), settled, SettledFor(a));
  }

  /** The settlement events, counted once for each reservation, sum to the lifetime committed spend of the
      account, and repeated events of one reservation all carry the same account and cost. */
  lemma AuditTrailAgrees(calls: seq<Request>, a: Id)
    requires a in Run(EMPTY, calls).accounts
    ensures var t := Run(EMPTY, calls);
            && Sum(BillsOf(t.outbox), BilledTo(a)) == t.accounts[a].committed + TrailOf(t.outbox, a).prior
            && EventsAgree(t.reservations, t.outbox)
  {
    var t := Run(EMPTY, calls);
    ReachableInv(calls);
    SpendIsExactlyOnce(calls, a);
    BillsSum(t.reservations, BillsOf(t.outbox), a);
  }

  /** After a settlement has succeeded, a later settlement with the same key, however different the rest of the
      call and whatever happened in between, moves no balance, row or record. It reports the first settlement's
      reservation, account, hold, cost and overdraft, or it fails because it names an unknown reservation. */
  lemma RetriedSettlementIsInert(t: Tables, rates: RateTable, q: SettleRequest, t1: Tables, r: SettlementResult,
                                 t2: Tables, rates': RateTable, q': SettleRequest)
    requires Inv(t) && SettleReservation(t, rates, q) == Ok((t1, r))
    requires Inv(t2) && RecordsGrow(t1.idempotency, t2.idempotency)
    requires q'.key == q.key
    ensures match SettleReservation(t2, rates', q')
            case Ok((t3, r')) =>
              && t3 == t2 && q'.id in t2.reservations
              && (r'.reservationId, r'.accountId, r'.held, r'.cost, r'.overdraft)
                 == (r.reservationId, r.accountId, r.held, r.cost, r.overdraft)
            case Err(e) => e.TypeFault? && q'.id !in t2.reservations
  {
    SettlementLeavesRecord(t, rates, q, t1, r);
    ReplayOfRecord(t2, rates', q', r);
  }

  lemma SettlementLeavesRecord(t: Tables, rates: RateTable, q: SettleRequest, t1: Tables, r: SettlementResult)
    requires SettleReservation(t, rates, q) == Ok((t1, r))
    ensures q.key.Some? && q.key.value in t1.idempotency
    ensures t1.idempotency[q.key.value] == SettleRecord(r.reservationId, r.accountId, r.held, r.cost, r.overdraft)
  {
    SettlementShape(t, rates, q, t1, r);
  }

  lemma ReplayOfRecord(t: Tables, rates: RateTable, q: SettleRequest, r: SettlementResult)
    requires RowsOk(t.accounts, t.reservations) && q.key.Some? && q.key.value in t.idempotency
    requires t.idempotency[q.key.value] == SettleRecord(r.reservationId, r.accountId, r.held, r.cost, r.overdraft)
    ensures match SettleReservation(t, rates, q)
            case Ok((t', r')) =>
              && t' == t && q.id in t.reservations
              && (r'.reservationId, r'.accountId, r'.held, r'.cost, r'.overdraft)
                 == (r.reservationId, r.accountId, r.held, r.cost, r.overdraft)
            case Err(e) => e.TypeFault? && q.id !in t.reservations
  {
    assert SettleReservation(t, rates, q) == ReplaySettlement(t, q, q.key.value);
    if q.id in t.reservations {
      assert t.reservations[q.id].accountId in t.accounts;
    }
  }

  /** A reservation retried under the same key, at any later time, returns the first reservation and changes nothing. */
  lemma RetriedReservationIsInert(t: Tables, rates: RateTable, q: ReserveRequest, t1: Tables, id: Id,
                                  t2: Tables, rates': RateTable, q': ReserveRequest)
    requires PrepareReservation(t, rates, q) == Ok((t1, id))
    requires UniqueKeys(t2.reservations) && RowsAdvance(t1.reservations, t2.reservations)
    requires q'.key == q.key
    ensures PrepareReservation(t2, rates', q') == Ok((t2, id))
  {
    ReservationShape(t, rates, q, t1, id);
    assert t1.reservations[id].idempotencyKey == q.key.value;
    assert Advances(t1.reservations[id], t2.reservations[id]);
    assert FindByKey(t2.reservations, q.key.value) == Some(id);
  }

  lemma KeysAreUnique(rows: Reservations, records: Idempotency)
    requires RecordsOk(rows, records)
    ensures UniqueKeys(rows)
  {
    forall r, r' | r in rows && r' in rows && rows[r].idempotencyKey == rows[r'].idempotencyKey
      ensures r == r'
    {
      assert IsReserveRecord(rows[r].idempotencyKey, records, r);
      assert IsReserveRecord(rows[r'].idempotencyKey, records, r');
    }
  }

  // ---------- recovery ----------

  /** After recovery the reserved spend of an account is the sum of its UNKNOWN holds if and only if recovery
      looked at the account or the account had nothing reserved. */
  lemma RecoveryIsExact(t: Tables, a: Id)
    requires a in t.accounts
    ensures var t' := RecoverTables(t);
            t'.accounts[a].reserved == Holds(t'.reservations, a) <==> Revisited(t, a) || t.accounts[a].reserved == 0
  {
    RecoveredReservedIsExact(t, a);
  }

  /** After recovery no reservation is PREPARED or DISPATCHED, and the reported total is the sum of the UNKNOWN holds. */
  lemma RecoveryClearsInFlight(t: Tables)
    ensures forall r | r in RecoverTables(t).reservations ::
              !RecoverTables(t).reservations[r].state.Prepared? && !RecoverTables(t).reservations[r].state.Dispatched?
    ensures ReportOf(t).totalReserved == Sum(RecoverTables(t).reservations, AnySurvivor())
  {
    NothingInFlight(t.reservations);
    SumCongruent(RecoveredRows(t.reservations), AnySurvivor(), t.reservations, AnySurvivor());
  }

  lemma NothingInFlight(rows: Reservations)
    ensures forall r | r in RecoveredRows(rows) ::
              !RecoveredRows(rows)[r].state.Prepared? && !RecoveredRows(rows)[r].state.Dispatched?
  {
  }

  lemma RecoveredReservedIsExact(t: Tables, a: Id)
    requires a in t.accounts
    ensures RecoveredAccount(t, a).reserved == Holds(RecoveredRows(t.reservations), a)
            <==> Revisited(t, a) || t.accounts[a].reserved == 0
  {
    RecoveredSums(t.reservations, a);
    if !HasSurvivor(t.reservations, a) {
      NoSurvivors(t.reservations, a);
    }
  }

  lemma RecoveredRowsAreStable(rows: Reservations)
    ensures RecoveredRows(RecoveredRows(rows)) == RecoveredRows(rows)
  {
    var once := RecoveredRows(rows);
    assert forall r | r in rows :: RecoveredRow(once[r]) == once[r];
  }

  lemma SurvivorsRemain(rows: Reservations, a: Id)
    ensures HasSurvivor(RecoveredRows(rows), a) == HasSurvivor(rows, a)
    ensures SurvivingHolds(RecoveredRows(rows), a) == SurvivingHolds(rows, a)
  {
    var once := RecoveredRows(rows);
    assert forall r | r in rows :: once[r].accountId == rows[r].accountId && Survives(once[r]) == Survives(rows[r]);
    if HasSurvivor(rows, a) {
      var r :| r in rows && rows[r].accountId == a && Survives(rows[r]);
      assert Survives(once[r]);
    }
    SumCongruent(once, SurvivorFor(a), rows, SurvivorFor(a));
  }

  lemma RecoveredAccountIsStable(t: Tables, a: Id)
    requires a in t.accounts
    ensures RecoveredAccount(RecoverTables(t), a) == RecoveredAccount(t, a)
  {
    SurvivorsRemain(t.reservations, a);
  }

  /** A second recovery changes no balance, state or hold, and releases and moves nothing. */
  lemma RecoveryIsIdempotent(t: Tables)
    ensures RecoverTables(RecoverTables(t)) == RecoverTables(t)
    ensures ReportOf(RecoverTables(t)).releasedPrepared == 0
    ensures ReportOf(RecoverTables(t)).movedToUnknown == 0
    ensures ReportOf(RecoverTables(t)).totalReserved == ReportOf(t).totalReserved
  {
    var t' := RecoverTables(t);
    RecoveredRowsAreStable(t.reservations);
    forall a | a in t.accounts ensures RecoveredAccounts(t')[a] == t'.accounts[a] {
      RecoveredAccountIsStable(t, a);
    }
    assert RecoveredAccounts(t') == t'.accounts;
    assert RowsIn(t'.reservations, Prepared) == {};
    assert RowsIn(t'.reservations, Dispatched) == {};
    SumCongruent(t'.reservations, AnySurvivor(), t.reservations, AnySurvivor());
  }

  /** The documented recalibration of every account to its UNKNOWN holds does not reach a project account whose
      only pending row is PREPARED: in every run that reserves for a project account without pending rows and
      then recovers, the row is released, nothing is held any more, and the account keeps its reserved spend. */
  lemma StrandedReservedSpend(calls: seq<Request>, rates: RateTable, q: ReserveRequest)
    requires var t := Run(EMPTY, calls);
             && PrepareReservation(t, rates, q).Ok? && FindByKey(t.reservations, q.key.value).None?
             && var a := Validate(t, rates, q).value.0;
             && t.accounts[a].kind.Project?
             && forall r | r in t.reservations && t.reservations[r].accountId == a :: !t.reservations[r].IsPending()
    ensures var t, t' := Run(EMPTY, calls), Run(EMPTY, calls + [ReserveCall(rates, q)] + [RecoverCall]);
            var (a, cost) := Validate(t, rates, q).value;
            && q.id in t'.reservations && t'.reservations[q.id].state.Released?
            && a in t'.accounts && t'.accounts[a] == t.accounts[a].(reserved := t.accounts[a].reserved + cost)
            && Holds(t'.reservations, a) == 0
  {
    var t := Run(EMPTY, calls);
    var t2 := ReservedAlone(t, rates, q);
    RunStep(calls, ReserveCall(rates, q), t, t2);
    RunRecovers(calls + [ReserveCall(rates, q)], t2);
    RecoveryStrands(t2, Validate(t, rates, q).value.0, q.id);
  }

  lemma RunRecovers(calls: seq<Request>, t: Tables)
    requires Run(EMPTY, calls) == t
    ensures Run(EMPTY, calls + [RecoverCall]) == Recover(t)
  {
    RunStep(calls, RecoverCall, t, Recover(t));
  }

  // A fresh reservation for an account without pending rows.
  lemma ReservedAlone(t: Tables, rates: RateTable, q: ReserveRequest) returns (t': Tables)
    requires PrepareReservation(t, rates, q).Ok? && FindByKey(t.reservations, q.key.value).None?
    requires var a := Validate(t, rates, q).value.0;
             forall r | r in t.reservations && t.reservations[r].accountId == a :: !t.reservations[r].IsPending()
    ensures Apply(t, ReserveCall(rates, q)) == Ok(t')
    ensures var (a, cost) := Validate(t, rates, q).value;
            && a in t.accounts && a in t'.accounts && !HasSurvivor(t'.reservations, a)
            && t'.accounts[a] == t.accounts[a].(reserved := t.accounts[a].reserved + cost)
    ensures q.id in t'.reservations && t'.reservations[q.id].state.Prepared?
  {
    var (a, cost) := Validate(t, rates, q).value;
    var (t1, id) := PrepareReservation(t, rates, q).value;
    ReservationShape(t, rates, q, t1, id);
    t' := Record(t1, [ReservedEvent(id, a, cost)]);
  }

  lemma RecoveryStrands(t: Tables, a: Id, r: Id)
    requires a in t.accounts && t.accounts[a].kind.Project? && !HasSurvivor(t.reservations, a)
    requires r in t.reservations && t.reservations[r].state.Prepared?
    ensures r in Recover(t).reservations && Recover(t).reservations[r].state.Released?
    ensures Recover(t).accounts[a] == t.accounts[a] && Holds(Recover(t).reservations, a) == 0
  {
    RecoveredSums(t.reservations, a);
    NoSurvivors(t.reservations, a);
  }

  /** Marking a reservation dispatched decides what a crash does to it: from then on recovery keeps its hold as
      UNKNOWN, while a reservation still PREPARED is released. */
  lemma DispatchDecidesRecovery(t: Tables, id: Id, t': Tables)
    requires MarkDispatched(t, id) == Ok(t')
    ensures id in t.reservations && id in t'.reservations
    ensures t.reservations[id].state.Prepared? ==> RecoverTables(t).reservations[id].state.Released?
    ensures RecoverTables(t').reservations[id] == t.reservations[id].(state := Unknown)
  {
  }

  // ---------- undoing a reservation ----------

  /** Releasing a fresh reservation before dispatch gives every account its old balances back. */
  lemma ReleaseUndoesReservation(t: Tables, rates: RateTable, q: ReserveRequest, t1: Tables, id: Id)
    requires PrepareReservation(t, rates, q) == Ok((t1, id)) && FindByKey(t.reservations, q.key.value).None?
    ensures ReleaseReservation(t1, id).Ok?
    ensures var t2 := ReleaseReservation(t1, id).value;
            t2.accounts == t.accounts && t2.reservations[id].state.Released? && t2.reservations - {id} == t.reservations
  {
    ReservationShape(t, rates, q, t1, id);
    var (a, cost) := Validate(t, rates, q).value;
    var t2 := ReleaseHold(t1, id);
    assert ReleaseReservation(t1, id) == Ok(t2);
    assert t2.accounts[a] == t.accounts[a];
    assert t2.accounts == t.accounts;
    assert t2.reservations - {id} == t.reservations;
  }

  // ---------- single dispatch ----------

  /** In every reachable ledger a reservation was dispatched under at most one claim, and its count is 1
      exactly when a claim is stored. */
  lemma SingleDispatch(calls: seq<Request>, r: Id)
    requires r in Run(EMPTY, calls).reservations
    ensures var row := Run(EMPTY, calls).reservations[r];
            row.dispatchCount <= 1 && (row.dispatchCount == 1 <==> row.claimId.Some?)
  {
    ReachableInv(calls);
  }

  /** Once a claim is stored, every further claim of the reservation is refused, and the first claim stays. */
  lemma ClaimOnlyOnce(t: Tables, c: ClaimRequest, t': Tables, calls: seq<Request>, c': ClaimRequest)
    requires Claim(t, c) == Ok(t') && c'.id == c.id
    ensures var later := Run(t', calls);
            && Claim(later, c').Err?
            && c.id in later.reservations
            && later.reservations[c.id].claimId == Some(c.claimId.GetOr(c.freshId))
            && later.reservations[c.id].dispatchCount == 1
  {
    ClaimShape(t, c, t');
    RunFollows(t', calls);
    var later := Run(t', calls);
    assert Advances(t'.reservations[c.id], later.reservations[c.id]);
    if Claim(later, c').Ok? {
      ClaimShape(later, c', Claim(later, c').value);
    }
  }

  /** For an unclaimed row and a fully bound request the guard of the claiming UPDATE and the preceding checks
      agree, if and only if the row has a provider and its project account a project name. */
  lemma VerifyMeetsGuard(t: Tables, c: ClaimRequest)
    requires Constrained(t) && c.id in t.reservations && c.Bound()
    requires t.reservations[c.id].dispatchCount == 0 && t.reservations[c.id].claimId.None?
    ensures ClaimGuard(t, c) ==> VerifyReservation(t, c).Ok?
    ensures var row := t.reservations[c.id];
            VerifyReservation(t, c).Ok? ==>
              (ClaimGuard(t, c) <==> row.providerId.GetOr("") != "" && t.accounts[row.accountId].projectId != Some(""))
  {
  }
}
