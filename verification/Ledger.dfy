/** The ledger's tables as values, and the effect of every public operation on them.
    Each operation is one database transaction: it returns the new tables or an error. */
module Ledger {
  import opened Wrappers
  import opened BudgetTypes
  import opened PricingEngine

  /** The text of an account id, reservation id, idempotency key or claim id. Where the source tests
      such a text for truth, the empty and the missing text are `None`. */
  datatype Id = Id(text: string)

  datatype AccountType = Global | Project

  datatype AccountState = Active | LimitOverrun | Suspended | Closed

  datatype Account = Account(
    kind: AccountType, projectId: Option<string>,
    limit: nat, reserved: nat, committed: nat, state: AccountState)
  {
    function Available(): nat {
      if limit >= committed + reserved then limit - committed - reserved else 0
    }
  }

  datatype ReservationState = Prepared | Dispatched | Unknown | Settled | Released

  datatype Reservation = Reservation(
    accountId: Id, providerId: Option<string>, modelId: string,
    held: nat, settled: nat, state: ReservationState, idempotencyKey: Id,
    dispatchCount: nat, claimId: Option<Id>)
  {
    predicate IsPending() {
      state.Prepared? || state.Dispatched? || state.Unknown?
    }
  }

  /** What a retried call gets back. */
  datatype IdempotencyRecord =
    | ReserveRecord(reservationId: Id, accountId: Id, held: nat)
    | SettleRecord(reservationId: Id, accountId: Id, held: nat, cost: nat, overdraft: nat)

  datatype RecoveryReport = RecoveryReport(
    releasedPrepared: nat, movedToUnknown: nat, retainedUnknown: nat,
    totalReserved: nat, accountsReconciled: nat)

  /** The outbox: one event per successful public operation, in order. */
  datatype Event =
    | AccountCreated(accountId: Id, limit: nat)
    | LimitUpdated(accountId: Id, limit: nat)
    | PeriodReset(accountId: Id, prior: nat, limit: nat)
    | ReservedEvent(reservationId: Id, accountId: Id, held: nat)
    | DispatchedEvent(reservationId: Id)
    | SettledEvent(reservationId: Id, accountId: Id, held: nat, cost: nat, overdraft: nat)
    | OverrunEvent(accountId: Id, overdraft: nat)
    | ReleasedEvent(reservationId: Id)
    | UnknownEvent(reservationId: Id)
    | RecoveryCompleted(report: RecoveryReport)

  type Accounts = map<Id, Account>
  type Reservations = map<Id, Reservation>
  type Idempotency = map<Id, IdempotencyRecord>

  datatype Tables = Tables(
    accounts: Accounts, reservations: Reservations, idempotency: Idempotency, outbox: seq<Event>)

  const EMPTY := Tables(map[], map[], map[], [])

  type Outcome<T> = Result<(Tables, T), BudgetError>

  // ---------- unique indexes ----------

  /** idempotency_key UNIQUE. */
  ghost predicate UniqueKeys(reservations: Reservations) {
    forall r, r' | r in reservations && r' in reservations
                   && reservations[r].idempotencyKey == reservations[r'].idempotencyKey :: r == r'
  }

  /** At most one GLOBAL account, and at most one account for each project. */
  ghost predicate UniqueScopes(accounts: Accounts) {
    forall a, a' | a in accounts && a' in accounts
                   && accounts[a].kind == accounts[a'].kind
                   && accounts[a].projectId == accounts[a'].projectId :: a == a'
  }

  ghost predicate ScopeChecked(accounts: Accounts) {
    forall a | a in accounts :: accounts[a].kind.Global? <==> accounts[a].projectId.None?
  }

  ghost predicate Constrained(t: Tables) {
    && UniqueKeys(t.reservations) && UniqueScopes(t.accounts) && ScopeChecked(t.accounts)
    && forall r | r in t.reservations :: t.reservations[r].accountId in t.accounts
  }

  ghost function FindByKey(reservations: Reservations, key: Id): (r: Option<Id>)
    ensures r.Some? ==> r.value in reservations && reservations[r.value].idempotencyKey == key
    ensures r.None? ==> forall id | id in reservations :: reservations[id].idempotencyKey != key
  {
    if id :| id in reservations && reservations[id].idempotencyKey == key then Some(id) else None
  }

  ghost function FindGlobal(accounts: Accounts): (r: Option<Id>)
    ensures r.Some? ==> r.value in accounts && accounts[r.value].kind.Global?
    ensures r.None? ==> forall a | a in accounts :: !accounts[a].kind.Global?
  {
    if a :| a in accounts && accounts[a].kind.Global? then Some(a) else None
  }

  function Record(t: Tables, events: seq<Event>): Tables {
    t.(outbox := t.outbox + events)
  }

  // ---------- accounts ----------

  /** INSERT ... ON CONFLICT(account_id) DO UPDATE: an existing account keeps its balances
      but takes the given limit and becomes ACTIVE again. */
  ghost function CreateAccount(t: Tables, id: Id, projectId: Option<string>, limit: int): Result<Tables, BudgetError> {
    var kind := if projectId.None? then Global else Project;
    if limit < 0 then Err(ConstraintViolation)
    else if id in t.accounts then
      var account := t.accounts[id].(limit := limit, state := Active);
      Ok(Record(t.(accounts := t.accounts[id := account]), [AccountCreated(id, limit)]))
    else if exists a | a in t.accounts :: t.accounts[a].kind == kind && t.accounts[a].projectId == projectId then
      Err(ConstraintViolation)
    else
      var account := Account(kind, projectId, limit, 0, 0, Active);
      Ok(Record(t.(accounts := t.accounts[id := account]), [AccountCreated(id, limit)]))
  }

  const GLOBAL_ID := Id("acc_global")

  function ProjectAccountId(projectId: string): Id {
    Id("acc_proj_" + projectId)
  }

  ghost function Target(t: Tables, accountId: Option<Id>): Option<Id> {
    if accountId.Some? then accountId else FindGlobal(t.accounts)
  }

  function StateUnderLimit(account: Account, limit: nat): AccountState {
    if account.committed > limit then LimitOverrun
    else if account.state.LimitOverrun? then Active
    else account.state
  }

  ghost function UpdateLimit(t: Tables, accountId: Option<Id>, limit: int): Result<Tables, BudgetError> {
    var target := Target(t, accountId);
    if target.None? || target.value !in t.accounts then Err(InvalidAccount)
    else if limit < 0 then Err(ConstraintViolation)
    else
      var account := t.accounts[target.value];
      var account' := account.(limit := limit, state := StateUnderLimit(account, limit));
      Ok(Record(t.(accounts := t.accounts[target.value := account']), [LimitUpdated(target.value, limit)]))
  }

  ghost function Rollover(t: Tables, accountId: Option<Id>, newLimit: Option<int>): Result<Tables, BudgetError> {
    var target := Target(t, accountId);
    if target.None? || target.value == Id("") then Err(InvalidAccount)
    else if target.value !in t.accounts then Err(TypeFault)
    else
      var account := t.accounts[target.value];
      var limit := newLimit.GetOr(account.limit);
      if limit < 0 then Err(ConstraintViolation)
      else
        var state := if account.state.LimitOverrun? then Active else account.state;
        var account' := account.(limit := limit, committed := 0, state := state);
        Ok(Record(t.(accounts := t.accounts[target.value := account']),
                  [PeriodReset(target.value, account.committed, limit)]))
  }

  // ---------- reserve ----------

  /** `auditFault` is the endpoint audit's refusal,
      if any. `id` is the requested reservation id, or the fresh one generated for the call. */
  datatype ReserveRequest = ReserveRequest(
    accountId: Option<Id>, providerId: string, modelId: string, estimate: TokenUsage,
    key: Option<Id>, id: Id, auditFault: Option<BudgetError>)

  /** The account to charge and the estimated cost, or the reason not to dispatch. */
  ghost function Validate(t: Tables, rates: RateTable, q: ReserveRequest): (r: Result<(Id, nat), BudgetError>)
    ensures r.Ok? ==> r.value.0 in t.accounts && r.value.1 <= t.accounts[r.value.0].Available()
  {
    var target := Target(t, q.accountId);
    if q.auditFault.Some? then Err(q.auditFault.value)
    else if target.None? || target.value !in t.accounts then Err(InvalidAccount)
    else
      var account := t.accounts[target.value];
      if !account.state.Active? then Err(BudgetOverrun)
      else
        var cost :- EstimateCost(rates, q.estimate, q.providerId, q.modelId);
        if account.Available() < cost then Err(BudgetExceeded) else Ok((target.value, cost))
  }

  ghost function PrepareReservation(t: Tables, rates: RateTable, q: ReserveRequest): Outcome<Id> {
    if q.key.None? then Err(IdempotencyConflict)
    else
      var key := q.key.value;
      var existing := FindByKey(t.reservations, key);
      if existing.Some? then Ok((t, existing.value))
      else
        var (accountId, cost) :- Validate(t, rates, q);
        if q.id in t.reservations || key in t.idempotency then Err(ConstraintViolation)
        else Ok((AddReservation(t, q, key, accountId, cost), q.id))
  }

  function NewRow(q: ReserveRequest, key: Id, accountId: Id, cost: nat): Reservation {
    Reservation(accountId, Some(q.providerId), q.modelId, cost, 0, Prepared, key, 0, None)
  }

  /** Raises the account's reserved spend, inserts the PREPARED row and stores its idempotency record. */
  function AddReservation(t: Tables, q: ReserveRequest, key: Id, accountId: Id, cost: nat): Tables
    requires accountId in t.accounts
  {
    var account := t.accounts[accountId];
    t.(accounts := t.accounts[accountId := account.(reserved := account.reserved + cost)],
       reservations := t.reservations[q.id := NewRow(q, key, accountId, cost)],
       idempotency := t.idempotency[key := ReserveRecord(q.id, accountId, cost)])
  }

  ghost function Reserve(t: Tables, rates: RateTable, q: ReserveRequest): Outcome<Id> {
    var (t', id) :- PrepareReservation(t, rates, q);
    var row := t'.reservations[id];
    Ok((Record(t', [ReservedEvent(id, row.accountId, row.held)]), id))
  }

  // ---------- dispatch ----------

  function WithState(t: Tables, id: Id, state: ReservationState): Tables
    requires id in t.reservations
  {
    t.(reservations := t.reservations[id := t.reservations[id].(state := state)])
  }

  function PrepareDispatch(t: Tables, id: Id): Result<Tables, BudgetError> {
    if id !in t.reservations then Err(ReservationNotFound)
    else if t.reservations[id].state.Dispatched? then Ok(t)
    else if !t.reservations[id].state.Prepared? then Err(InvalidReservationState)
    else Ok(WithState(t, id, Dispatched))
  }

  function MarkDispatched(t: Tables, id: Id): Result<Tables, BudgetError> {
    var t' :- PrepareDispatch(t, id);
    Ok(Record(t', [DispatchedEvent(id)]))
  }

  /** Project, provider and model are "" when not given. Without a `claimId` the fresh one is used. */
  datatype ClaimRequest = ClaimRequest(
    id: Id, claimId: Option<Id>, freshId: Id,
    accountId: Option<Id>, projectId: string, providerId: string, modelId: string)
  {
    predicate Bound() {
      accountId.Some? && projectId != "" && providerId != "" && modelId != ""
    }
  }

  function VerifyReservation(t: Tables, c: ClaimRequest): (r: Result<Reservation, BudgetError>)
    ensures r.Ok? ==> c.id in t.reservations && r.value == t.reservations[c.id]
                      && (r.value.state.Prepared? || r.value.state.Dispatched?)
  {
    if c.id !in t.reservations then Err(ReservationNotFound)
    else
      var row := t.reservations[c.id];
      if !row.state.Prepared? && !row.state.Dispatched? then Err(InvalidReservationState)
      else if c.accountId.Some? && row.accountId != c.accountId.value then Err(AccountMismatch)
      else if c.projectId != "" && row.accountId in t.accounts && OtherProject(t.accounts[row.accountId], c.projectId)
        then Err(AccountMismatch)
      else if c.modelId != "" && row.modelId != c.modelId then Err(ModelMismatch)
      else if c.providerId != "" && row.providerId.GetOr("") != "" && row.providerId.value != c.providerId
        then Err(ModelMismatch)
      else Ok(row)
  }

  predicate OtherProject(account: Account, projectId: string) {
    account.kind.Project? && account.projectId.GetOr("") != "" && account.projectId.value != projectId
  }

  /** The WHERE clause of the claiming UPDATE. */
  predicate ClaimGuard(t: Tables, c: ClaimRequest) {
    && c.id in t.reservations
    && var row := t.reservations[c.id];
    && row.dispatchCount == 0 && row.claimId.None?
    && (row.state.Prepared? || row.state.Dispatched?)
    && Some(row.accountId) == c.accountId && row.modelId == c.modelId && row.providerId == Some(c.providerId)
    && row.accountId in t.accounts
    && (t.accounts[row.accountId].kind.Global? || t.accounts[row.accountId].projectId == Some(c.projectId))
  }

  function Claimed(row: Reservation, claim: Id): Reservation {
    row.(dispatchCount := row.dispatchCount + 1, claimId := Some(claim), state := Dispatched)
  }

  function Claim(t: Tables, c: ClaimRequest): Result<Tables, BudgetError> {
    var row :- VerifyReservation(t, c);
    if !c.Bound() then Err(BudgetRequired)
    else if row.dispatchCount > 0 || row.claimId.Some? then Err(AlreadyConsumed)
    else if !ClaimGuard(t, c) then Err(AlreadyConsumed)
    else
      Ok(t.(reservations := t.reservations[c.id := Claimed(row, c.claimId.GetOr(c.freshId))]))
  }

  // ---------- settle, release, unknown ----------

  datatype SettlementResult = SettlementResult(
    reservationId: Id, accountId: Id, held: nat, cost: nat, overdraft: nat,
    accountState: AccountState, isOverrun: bool)

  datatype SettleRequest = SettleRequest(id: Id, usage: TokenUsage, key: Option<Id>, providerId: string)

  function Overdraft(cost: nat, held: nat): nat {
    if cost > held then cost - held else 0
  }

  /** Subtraction that stops at zero. */
  function Lowered(reserved: nat, held: nat): nat {
    if reserved >= held then reserved - held else 0
  }

  function ReplaySettlement(t: Tables, q: SettleRequest, key: Id): Outcome<SettlementResult>
    requires key in t.idempotency
  {
    if q.id !in t.reservations || t.reservations[q.id].accountId !in t.accounts then Err(TypeFault)
    else if t.idempotency[key].ReserveRecord? then Err(TypeFault)
    else
      var record := t.idempotency[key];
      var state := t.accounts[t.reservations[q.id].accountId].state;
      Ok((t, SettlementResult(record.reservationId, record.accountId, record.held, record.cost, record.overdraft,
                              state, state.LimitOverrun?)))
  }

  function SettleReservation(t: Tables, rates: RateTable, q: SettleRequest): Outcome<SettlementResult> {
    if q.key.None? then Err(IdempotencyConflict)
    else if q.key.value in t.idempotency then ReplaySettlement(t, q, q.key.value)
    else if q.id !in t.reservations then Err(ReservationNotFound)
    else
      var row := t.reservations[q.id];
      if row.state.Settled? || row.state.Released? then Err(InvalidReservationState)
      else
        var rate :- GetRate(rates, q.providerId, row.modelId, q.usage.serviceTier);
        var cost :- CalculateCost(q.usage, rate);
        if row.accountId !in t.accounts then Err(InvalidAccount)
        else Ok(SettleAt(t, q.id, q.key.value, cost))
  }

  /** Moves the hold of a row into committed spend at the actual cost. */
  function SettleAt(t: Tables, id: Id, key: Id, cost: nat): (Tables, SettlementResult)
    requires id in t.reservations && t.reservations[id].accountId in t.accounts
  {
    var row := t.reservations[id];
    var account := t.accounts[row.accountId];
    var committed := account.committed + cost;
    var isOverrun := committed > account.limit;
    var state := if isOverrun then LimitOverrun else account.state;
    var account' := account.(reserved := Lowered(account.reserved, row.held), committed := committed, state := state);
    var overdraft := Overdraft(cost, row.held);
    (t.(accounts := t.accounts[row.accountId := account'],
        reservations := t.reservations[id := row.(state := Settled, settled := cost)],
        idempotency := t.idempotency[key := SettleRecord(id, row.accountId, row.held, cost, overdraft)]),
     SettlementResult(id, row.accountId, row.held, cost, overdraft, state, isOverrun))
  }

  function SettlementEvents(r: SettlementResult): seq<Event> {
    [SettledEvent(r.reservationId, r.accountId, r.held, r.cost, r.overdraft)]
    + if r.isOverrun then [OverrunEvent(r.accountId, r.overdraft)] else []
  }

  function Settle(t: Tables, rates: RateTable, q: SettleRequest): Outcome<SettlementResult> {
    var (t', r) :- SettleReservation(t, rates, q);
    Ok((Record(t', SettlementEvents(r)), r))
  }

  /** Gives a hold back. */
  function ReleaseHold(t: Tables, id: Id): Tables
    requires id in t.reservations && t.reservations[id].accountId in t.accounts
  {
    var row := t.reservations[id];
    var account := t.accounts[row.accountId];
    t.(accounts := t.accounts[row.accountId := account.(reserved := Lowered(account.reserved, row.held))],
       reservations := t.reservations[id := row.(state := Released)])
  }

  function ReleaseReservation(t: Tables, id: Id): Result<Tables, BudgetError> {
    if id !in t.reservations then Err(ReservationNotFound)
    else
      var row := t.reservations[id];
      if row.state.Released? then Ok(t)
      else if row.state.Settled? || row.state.Unknown? then Err(InvalidReservationState)
      else if row.accountId !in t.accounts then Err(InvalidAccount)
      else
        Ok(ReleaseHold(t, id))
  }

  function Release(t: Tables, id: Id): Result<Tables, BudgetError> {
    var t' :- ReleaseReservation(t, id);
    Ok(Record(t', [ReleasedEvent(id)]))
  }

  function HoldUnknown(t: Tables, id: Id): Result<Tables, BudgetError> {
    if id !in t.reservations then Err(ReservationNotFound)
    else if t.reservations[id].state.Settled? || t.reservations[id].state.Released? then Err(InvalidReservationState)
    else Ok(WithState(t, id, Unknown))
  }

  function RecordUnknown(t: Tables, id: Id): Result<Tables, BudgetError> {
    var t' :- HoldUnknown(t, id);
    Ok(Record(t', [UnknownEvent(id)]))
  }
}
