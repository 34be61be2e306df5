/** What every public operation does to the tables, written out field by field. */
module LedgerMeaning {
  import opened Wrappers
  import opened BudgetTypes
  import opened PricingEngine
  import opened Ledger
  import opened LedgerRuns
  import LedgerSteps

  /** Only the entry under one key is new or different. */
  predicate ChangesOnly<V(==)>(m: map<Id, V>, m': map<Id, V>, k: Id) {
    k in m' && m' == m[k := m'[k]]
  }

  /** No reservation has the key, and no record is kept under it. */
  ghost predicate Unused(t: Tables, key: Id) {
    key !in t.idempotency && forall r | r in t.reservations :: t.reservations[r].idempotencyKey != key
  }

  /** The account a request is charged to: the one it names, or the global one. */
  ghost predicate ChargedTo(t: Tables, named: Option<Id>, a: Id) {
    a in t.accounts && if named.Some? then named.value == a else t.accounts[a].kind.Global?
  }

  // ---------- reserve ----------

  /** A first reservation holds the price of the whole estimate, at the rate of its provider, model and the
      estimate's own service tier, on the account it is charged to, and changes nothing else. */
  lemma ReservationHoldsThePrice(t: Tables, rates: RateTable, q: ReserveRequest, t': Tables, id: Id)
    requires Reserve(t, rates, q) == Ok((t', id)) && q.key.Some? && Unused(t, q.key.value)
    ensures id == q.id && id !in t.reservations && ChangesOnly(t.reservations, t'.reservations, id)
    ensures var row := t'.reservations[id];
            && row == Reservation(row.accountId, Some(q.providerId), q.modelId, row.held, 0, Prepared, q.key.value, 0, None)
            && (var rate := GetRate(rates, q.providerId, q.modelId, q.estimate.serviceTier);
                rate.Ok? && CalculateCost(q.estimate, rate.value) == Ok(row.held))
            && ChargedTo(t, q.accountId, row.accountId)
            && (var account := t.accounts[row.accountId];
                && account.state.Active?
                && (row.held == 0 || account.committed + account.reserved + row.held <= account.limit)
                && t'.accounts == t.accounts[row.accountId := account.(reserved := account.reserved + row.held)])
            && t'.idempotency == t.idempotency[q.key.value := ReserveRecord(id, row.accountId, row.held)]
            && t'.outbox == t.outbox + [ReservedEvent(id, row.accountId, row.held)]
  {
  }

  /** The check before a call passes exactly for an ACTIVE account that can pay the price of the whole estimate. */
  lemma CheckPassesExactly(t: Tables, rates: RateTable, q: ReserveRequest, a: Id)
    requires Constrained(t) && ChargedTo(t, q.accountId, a)
    ensures var account, rate := t.accounts[a], GetRate(rates, q.providerId, q.modelId, q.estimate.serviceTier);
            && (Validate(t, rates, q).Ok? <==>
                && q.auditFault.None? && account.state.Active?
                && rate.Ok? && CalculateCost(q.estimate, rate.value).Ok?
                && var cost := CalculateCost(q.estimate, rate.value).value;
                (cost == 0 || account.committed + account.reserved + cost <= account.limit))
            && (Validate(t, rates, q).Ok? ==> Validate(t, rates, q).value == (a, CalculateCost(q.estimate, rate.value).value))
  {
    assert Target(t, q.accountId) == Some(a);
  }

  /** A request that meets every other condition is refused exactly when its price exceeds what is available. */
  lemma RefusedForFundsExactly(t: Tables, rates: RateTable, q: ReserveRequest, a: Id, rate: PricingRate, cost: nat)
    requires Constrained(t) && ChargedTo(t, q.accountId, a) && t.accounts[a].state.Active?
    requires q.auditFault.None? && q.key.Some? && Unused(t, q.key.value) && q.id !in t.reservations
    requires GetRate(rates, q.providerId, q.modelId, q.estimate.serviceTier) == Ok(rate)
    requires CalculateCost(q.estimate, rate) == Ok(cost)
    ensures var account := t.accounts[a];
            var tooMuch := cost > 0 && account.committed + account.reserved + cost > account.limit;
            && (Reserve(t, rates, q) == Err(BudgetExceeded) <==> tooMuch)
            && (Reserve(t, rates, q).Ok? <==> !tooMuch)
  {
    assert Target(t, q.accountId) == Some(a);
    assert FindByKey(t.reservations, q.key.value).None?;
  }

  /** Settling the estimate itself, at the rate it was reserved at, never overdraws. */
  lemma EstimateSettlesWithinHold(t: Tables, rates: RateTable, q: ReserveRequest, t1: Tables, id: Id,
                                  t2: Tables, key: Id, t3: Tables, r: SettlementResult)
    requires Reserve(t, rates, q) == Ok((t1, id)) && q.key.Some? && Unused(t, q.key.value)
    requires id in t2.reservations && t2.reservations[id].held == t1.reservations[id].held
    requires t2.reservations[id].modelId == q.modelId && key !in t2.idempotency
    requires SettleReservation(t2, rates, SettleRequest(id, q.estimate, Some(key), q.providerId)) == Ok((t3, r))
    ensures r.overdraft == 0 && r.cost == r.held == t1.reservations[id].held
  {
    ReservationHoldsThePrice(t, rates, q, t1, id);
  }

  lemma ChargedIsTarget(t: Tables, named: Option<Id>, a: Id)
    requires Constrained(t) && ChargedTo(t, named, a)
    ensures Target(t, named) == Some(a)
  {
  }

  /** Why a reservation is refused: the first reason in this order. A used key is no reason but a retry. */
  lemma ReservationRefusedFor(t: Tables, rates: RateTable, q: ReserveRequest, e: BudgetError, a: Id)
    requires Constrained(t) && Reserve(t, rates, q) == Err(e) && ChargedTo(t, q.accountId, a)
    ensures q.key.Some? ==> forall r | r in t.reservations :: t.reservations[r].idempotencyKey != q.key.value
    ensures var rate := GetRate(rates, q.providerId, q.modelId, q.estimate.serviceTier);
            if q.key.None? then e == IdempotencyConflict
            else if q.auditFault.Some? then e == q.auditFault.value
            else if !t.accounts[a].state.Active? then e == BudgetOverrun
            else if rate.Err? then e == rate.error
            else if CalculateCost(q.estimate, rate.value).Err? then e == CalculateCost(q.estimate, rate.value).error
            else
              var cost := CalculateCost(q.estimate, rate.value).value;
              if cost > 0 && t.accounts[a].committed + t.accounts[a].reserved + cost > t.accounts[a].limit
              then e == BudgetExceeded
              else e == ConstraintViolation && (q.id in t.reservations || q.key.value in t.idempotency)
  {
    ChargedIsTarget(t, q.accountId, a);
  }

  /** Without an account to charge nothing but a retry succeeds. */
  lemma NoAccountNoReservation(t: Tables, rates: RateTable, q: ReserveRequest)
    requires !exists a :: ChargedTo(t, q.accountId, a)
    requires q.key.Some? && Unused(t, q.key.value) && q.auditFault.None?
    ensures Reserve(t, rates, q) == Err(InvalidAccount)
  {
    var target := Target(t, q.accountId);
    assert target.Some? ==> !ChargedTo(t, q.accountId, target.value);
  }

  // ---------- dispatch and claim ----------

  /** A PREPARED row becomes DISPATCHED, a DISPATCHED one stays, any other is refused; nothing else changes. */
  lemma DispatchMeaning(t: Tables, id: Id)
    ensures MarkDispatched(t, id).Ok? <==>
            id in t.reservations && (t.reservations[id].state == Prepared || t.reservations[id].state == Dispatched)
    ensures match MarkDispatched(t, id)
            case Ok(t') => t' == t.(reservations := t.reservations[id := t.reservations[id].(state := Dispatched)],
                                    outbox := t.outbox + [DispatchedEvent(id)])
            case Err(e) => e == if id in t.reservations then InvalidReservationState else ReservationNotFound
  {
    if id in t.reservations && t.reservations[id].state.Dispatched? {
      assert t.reservations[id := t.reservations[id].(state := Dispatched)] == t.reservations;
    }
  }

  /** A claim leaves the row DISPATCHED with count 1 and the claim id, and changes no other row, account or record. */
  lemma ClaimMeaning(t: Tables, c: ClaimRequest, t': Tables)
    requires Claim(t, c) == Ok(t')
    ensures c.id in t.reservations && t'.accounts == t.accounts && t'.idempotency == t.idempotency && t'.outbox == t.outbox
    ensures ChangesOnly(t.reservations, t'.reservations, c.id)
    ensures var claim := if c.claimId.Some? then c.claimId.value else c.freshId;
            t'.reservations[c.id] == t.reservations[c.id].(state := Dispatched, dispatchCount := 1, claimId := Some(claim))
  {
  }

  /** A claim succeeds exactly for an unclaimed row in flight whose account, model and provider it names, together
      with the project of the account unless that is the global one. */
  lemma ClaimSucceedsExactly(t: Tables, c: ClaimRequest)
    requires Constrained(t)
    ensures Claim(t, c).Ok? <==>
            && c.id in t.reservations
            && var row := t.reservations[c.id];
            && (row.state == Prepared || row.state == Dispatched) && row.dispatchCount == 0 && row.claimId == None
            && c.accountId == Some(row.accountId)
            && c.modelId == row.modelId && c.modelId != ""
            && Some(c.providerId) == row.providerId && c.providerId != ""
            && c.projectId != ""
            && (t.accounts[row.accountId].kind.Project? ==> t.accounts[row.accountId].projectId == Some(c.projectId))
  {
  }

  /** Why a claim is refused: the first reason in this order. */
  lemma ClaimRefusedFor(t: Tables, c: ClaimRequest, e: BudgetError)
    requires Constrained(t) && Claim(t, c) == Err(e)
    ensures if c.id !in t.reservations then e == ReservationNotFound
            else
              var row := t.reservations[c.id];
              var account := t.accounts[row.accountId];
              if row.state != Prepared && row.state != Dispatched then e == InvalidReservationState
              else if c.accountId.Some? && c.accountId.value != row.accountId then e == AccountMismatch
              else if c.projectId != "" && account.kind.Project? && account.projectId != Some("")
                      && account.projectId != Some(c.projectId) then e == AccountMismatch
              else if c.modelId != "" && c.modelId != row.modelId then e == ModelMismatch
              else if c.providerId != "" && row.providerId.Some? && row.providerId.value != ""
                      && row.providerId.value != c.providerId then e == ModelMismatch
              else if c.accountId.None? || c.projectId == "" || c.providerId == "" || c.modelId == "" then e == BudgetRequired
              else e == AlreadyConsumed
  {
  }

  /** A claimed row survives a crash as UNKNOWN and is counted as moved. */
  lemma ClaimSurvivesCrash(t: Tables, c: ClaimRequest, t': Tables)
    requires Claim(t, c) == Ok(t')
    ensures c.id in t'.reservations && Recover(t').reservations[c.id] == t'.reservations[c.id].(state := Unknown)
    ensures c.id in RowsIn(t'.reservations, Dispatched) && ReportOf(t').movedToUnknown >= 1
  {
    var moved := RowsIn(t'.reservations, Dispatched);
    assert c.id in moved;
    assert moved == {c.id} + (moved - {c.id});
  }

  /** A claimed row can still be released, which gives its hold back. */
  lemma ClaimCanBeReleased(t: Tables, c: ClaimRequest, t': Tables)
    requires Claim(t, c) == Ok(t') && c.id in t.reservations && t.reservations[c.id].accountId in t.accounts
    ensures ReleaseReservation(t', c.id).Ok?
    ensures var row, t'' := t.reservations[c.id], ReleaseReservation(t', c.id).value;
            var account := t.accounts[row.accountId];
            && t''.accounts == t.accounts[row.accountId := account.(reserved := Minus(account.reserved, row.held))]
            && c.id in t''.reservations && t''.reservations[c.id].state == Released
  {
    ClaimMeaning(t, c, t');
  }

  // ---------- settle, release, unknown ----------

  /** What is left of the reserved spend; `LedgerInvariant.ClampNeverFires` shows that it covers every open hold. */
  function Minus(reserved: nat, held: nat): nat {
    if held <= reserved then reserved - held else 0
  }

  /** The row a settlement finds is open. */
  predicate IsOpen(row: Reservation) {
    row.state == Prepared || row.state == Dispatched || row.state == Unknown
  }

  /** A first settlement takes the hold off the reserved spend, adds the price of the usage to the committed spend,
      overruns the account exactly when that exceeds the limit, closes the row at the price, keeps the result under
      the key, and tells it; the overrun is told exactly when committed spend exceeds the limit afterwards. */
  lemma SettlementMeaning(t: Tables, rates: RateTable, q: SettleRequest, t': Tables, r: SettlementResult)
    requires Settle(t, rates, q) == Ok((t', r)) && q.key.Some? && q.key.value !in t.idempotency
    ensures q.id in t.reservations && IsOpen(t.reservations[q.id]) && t.reservations[q.id].accountId in t.accounts
    ensures var row := t.reservations[q.id];
            var account := t.accounts[row.accountId];
            var rate := GetRate(rates, q.providerId, row.modelId, q.usage.serviceTier);
            && rate.Ok? && CalculateCost(q.usage, rate.value) == Ok(r.cost)
            && var committed := account.committed + r.cost;
            var state := if committed > account.limit then LimitOverrun else account.state;
            var overdraft := if r.cost > row.held then r.cost - row.held else 0;
            && t'.accounts == t.accounts[row.accountId := account.(
                                           reserved := Minus(account.reserved, row.held), committed := committed, state := state)]
            && t'.reservations == t.reservations[q.id := row.(state := Settled, settled := r.cost)]
            && t'.idempotency == t.idempotency[q.key.value := SettleRecord(q.id, row.accountId, row.held, r.cost, overdraft)]
            && r == SettlementResult(q.id, row.accountId, row.held, r.cost, overdraft, state, committed > account.limit)
            && t'.outbox == t.outbox + [SettledEvent(q.id, row.accountId, row.held, r.cost, overdraft)]
                            + (if committed > account.limit then [OverrunEvent(row.accountId, overdraft)] else [])
  {
  }

  /** A retried settlement tells the overrun again exactly when the account of the named row is overrun. */
  lemma RetriedSettlementTells(t: Tables, rates: RateTable, q: SettleRequest, t': Tables, r: SettlementResult)
    requires Settle(t, rates, q) == Ok((t', r)) && q.key.Some? && q.key.value in t.idempotency
    ensures q.id in t.reservations && t.reservations[q.id].accountId in t.accounts
    ensures t'.accounts == t.accounts && t'.reservations == t.reservations && t'.idempotency == t.idempotency
    ensures var overrun := t.accounts[t.reservations[q.id].accountId].state == LimitOverrun;
            && r.isOverrun == overrun
            && t'.outbox == t.outbox + [SettledEvent(r.reservationId, r.accountId, r.held, r.cost, r.overdraft)]
                            + (if overrun then [OverrunEvent(r.accountId, r.overdraft)] else [])
  {
  }

  /** Why a settlement is refused. */
  lemma SettlementRefusedFor(t: Tables, rates: RateTable, q: SettleRequest, e: BudgetError)
    requires Constrained(t) && Settle(t, rates, q) == Err(e)
    ensures if q.key.None? then e == IdempotencyConflict
            else if q.key.value in t.idempotency then
              e == TypeFault && (q.id !in t.reservations || t.idempotency[q.key.value].ReserveRecord?)
            else if q.id !in t.reservations then e == ReservationNotFound
            else if !IsOpen(t.reservations[q.id]) then e == InvalidReservationState
            else
              var rate := GetRate(rates, q.providerId, t.reservations[q.id].modelId, q.usage.serviceTier);
              if rate.Err? then e == rate.error
              else CalculateCost(q.usage, rate.value) == Err(e)
  {
  }

  /** A release gives the hold of a PREPARED or DISPATCHED row back; a RELEASED row stays; others are refused. */
  lemma ReleaseMeaning(t: Tables, id: Id)
    requires Constrained(t)
    ensures Release(t, id).Ok? <==>
            id in t.reservations && t.reservations[id].state in {Prepared, Dispatched, Released}
    ensures match Release(t, id)
            case Ok(t') =>
              && t'.idempotency == t.idempotency && t'.outbox == t.outbox + [ReleasedEvent(id)]
              && var row := t.reservations[id];
              if row.state == Released then t'.accounts == t.accounts && t'.reservations == t.reservations
              else
                && t'.reservations == t.reservations[id := row.(state := Released)]
                && var account := t.accounts[row.accountId];
                t'.accounts == t.accounts[row.accountId := account.(reserved := Minus(account.reserved, row.held))]
            case Err(e) => e == if id in t.reservations then InvalidReservationState else ReservationNotFound
  {
  }

  /** Any row that is not terminal becomes UNKNOWN and keeps its hold; nothing else changes. */
  lemma UnknownMeaning(t: Tables, id: Id)
    ensures RecordUnknown(t, id).Ok? <==> id in t.reservations && IsOpen(t.reservations[id])
    ensures match RecordUnknown(t, id)
            case Ok(t') => t' == t.(reservations := t.reservations[id := t.reservations[id].(state := Unknown)],
                                    outbox := t.outbox + [UnknownEvent(id)])
            case Err(e) => e == if id in t.reservations then InvalidReservationState else ReservationNotFound
  {
  }

  // ---------- accounts ----------

  /** The account that a request without an account means is the global one. */
  ghost predicate Means(t: Tables, named: Option<Id>, a: Id) {
    if named.Some? then named.value == a else a in t.accounts && t.accounts[a].kind.Global?
  }

  /** The one id of the global account, and the id of a project's account. */
  function CreatedId(q: Request): Id
    requires q.CreateGlobalRequest? || q.CreateProjectRequest?
  {
    if q.CreateGlobalRequest? then Id("acc_global") else Id("acc_proj_" + q.projectId)
  }

  function CreatedFor(q: Request): Option<string>
    requires q.CreateGlobalRequest? || q.CreateProjectRequest?
  {
    if q.CreateGlobalRequest? then None else Some(q.projectId)
  }

  /** Creating an account sets its limit and makes it ACTIVE; a new one has no balances, an old one keeps its own. */
  lemma CreationMeaning(t: Tables, q: Request, t': Tables)
    requires (q.CreateGlobalRequest? || q.CreateProjectRequest?) && Apply(t, q) == Ok(t')
    ensures var id, projectId := CreatedId(q), CreatedFor(q);
            && q.limit >= 0 && t'.reservations == t.reservations && t'.idempotency == t.idempotency
            && t'.outbox == t.outbox + [AccountCreated(id, q.limit)] && ChangesOnly(t.accounts, t'.accounts, id)
            && t'.accounts[id] == if id in t.accounts then t.accounts[id].(limit := q.limit, state := Active)
                                  else Account(if projectId.None? then Global else Project, projectId, q.limit, 0, 0, Active)
  {
  }

  /** A negative limit is refused, and so is a second account of one scope under another id. */
  lemma CreationRefusedExactly(t: Tables, q: Request)
    requires ScopeChecked(t.accounts) && (q.CreateGlobalRequest? || q.CreateProjectRequest?)
    ensures Apply(t, q).Err? <==>
            || q.limit < 0
            || (CreatedId(q) !in t.accounts && exists a | a in t.accounts :: t.accounts[a].projectId == CreatedFor(q))
    ensures Apply(t, q).Err? ==> Apply(t, q).error == ConstraintViolation
  {
  }

  /** A new limit is refused for an account that does not exist and when it is negative. */
  lemma LimitRefusedExactly(t: Tables, q: Request)
    requires q.UpdateLimitRequest?
    ensures Apply(t, q).Err? <==> !(exists a :: a in t.accounts && Means(t, q.accountId, a)) || q.limit < 0
  {
    var target := Target(t, q.accountId);
    assert target.Some? && target.value in t.accounts ==> Means(t, q.accountId, target.value);
  }

  /** A period reset is refused for an account that does not exist or has the empty id, and for a negative new limit. */
  lemma RolloverRefusedExactly(t: Tables, q: Request)
    requires q.RolloverRequest? && Constrained(t)
    ensures Apply(t, q).Err? <==>
            || !(exists a :: a in t.accounts && Means(t, q.accountId, a) && a != Id(""))
            || (q.newLimit.Some? && q.newLimit.value < 0)
  {
    var target := Target(t, q.accountId);
    assert target.Some? && target.value in t.accounts ==> Means(t, q.accountId, target.value);
  }

  /** A new limit is the limit given; the account is overrun exactly when its committed spend exceeds it, and an
      overrun lifted otherwise; balances, rows and records stay. */
  lemma LimitMeaning(t: Tables, q: Request, t': Tables)
    requires q.UpdateLimitRequest? && Apply(t, q) == Ok(t')
    ensures q.limit >= 0 && t'.reservations == t.reservations && t'.idempotency == t.idempotency
    ensures exists a | a in t.accounts && Means(t, q.accountId, a) ::
              && t'.outbox == t.outbox + [LimitUpdated(a, q.limit)]
              && var account := t.accounts[a];
              t'.accounts == t.accounts[a := account.(
                                          limit := q.limit,
                                          state := if account.committed > q.limit then LimitOverrun
                                                   else if account.state == LimitOverrun then Active else account.state)]
  {
    assert Target(t, q.accountId).value in t.accounts && Means(t, q.accountId, Target(t, q.accountId).value);
  }

  /** A period reset carries committed spend into its event, sets it to zero, takes the new limit if one is given and
      lifts an overrun; reserved spend, rows and records stay. */
  lemma RolloverMeaning(t: Tables, q: Request, t': Tables)
    requires q.RolloverRequest? && Apply(t, q) == Ok(t')
    ensures t'.reservations == t.reservations && t'.idempotency == t.idempotency
    ensures exists a | a in t.accounts && Means(t, q.accountId, a) ::
              && var account := t.accounts[a];
              var limit := if q.newLimit.Some? then q.newLimit.value else account.limit;
              && limit >= 0 && t'.outbox == t.outbox + [PeriodReset(a, account.committed, limit)]
              && t'.accounts == t.accounts[a := account.(
                                             limit := limit, committed := 0,
                                             state := if account.state == LimitOverrun then Active else account.state)]
  {
    assert Target(t, q.accountId).value in t.accounts && Means(t, q.accountId, Target(t, q.accountId).value);
  }

  // ---------- recovery ----------

  /** What recovery does to each row. */
  lemma RecoveredRowMeaning(t: Tables, r: Id)
    requires r in t.reservations
    ensures Recover(t).reservations.Keys == t.reservations.Keys && Recover(t).idempotency == t.idempotency
    ensures var row, row' := t.reservations[r], Recover(t).reservations[r];
            row' == row.(state := if row.state == Prepared then Released
                                  else if row.state == Dispatched then Unknown else row.state)
  {
  }

  /** The account is the global one, or a DISPATCHED or UNKNOWN row is charged to it. */
  ghost predicate HasOpenDispatch(t: Tables, a: Id) {
    exists r | r in t.reservations ::
      t.reservations[r].accountId == a && (t.reservations[r].state == Dispatched || t.reservations[r].state == Unknown)
  }

  /** What recovery does to each account: the accounts it visits reserve their UNKNOWN holds afterwards and get the
      overrun state of their committed spend; the others stay. */
  lemma RecoveredAccountMeaning(t: Tables, a: Id)
    requires a in t.accounts
    ensures Recover(t).accounts.Keys == t.accounts.Keys
    ensures var account, account' := t.accounts[a], Recover(t).accounts[a];
            if account.kind.Global? || HasOpenDispatch(t, a) then
              account' == account.(
                reserved := Holds(Recover(t).reservations, a),
                state := if account.committed > account.limit then LimitOverrun
                         else if account.state == LimitOverrun then Active else account.state)
            else account' == account
  {
    LedgerSteps.RecoveredSums(t.reservations, a);
    assert HasOpenDispatch(t, a) == HasSurvivor(t.reservations, a);
  }

  /** The report counts the rows by the state recovery found them in. */
  lemma RecoveryReportMeaning(t: Tables)
    ensures var report := ReportOf(t);
            && Recover(t).outbox == t.outbox + [RecoveryCompleted(report)]
            && report.releasedPrepared == |set r | r in t.reservations && t.reservations[r].state == Prepared|
            && report.movedToUnknown == |set r | r in t.reservations && t.reservations[r].state == Dispatched|
            && report.retainedUnknown == |set r | r in t.reservations && t.reservations[r].state == Unknown|
            && report.accountsReconciled
               == |set a | a in t.accounts && (t.accounts[a].kind.Global? || HasOpenDispatch(t, a))|
  {
    assert (set a | a in t.accounts && (t.accounts[a].kind.Global? || HasOpenDispatch(t, a))) == RevisitedIds(t) by {
      forall a | a in t.accounts ensures HasOpenDispatch(t, a) == HasSurvivor(t.reservations, a) {
      }
    }
  }
}
