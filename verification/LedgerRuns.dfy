/** Sums over the tables, crash recovery, and runs of the whole ledger. */
module LedgerRuns {
  import opened Wrappers
  import opened BudgetTypes
  import opened PricingEngine
  import opened Ledger
  import opened TableSum

  // ---------- amounts of one account ----------

  /** What a row blocks on the account: its hold while PREPARED, DISPATCHED or UNKNOWN. */
  function HoldFor(a: Id): Reservation -> nat {
    (row: Reservation) => if row.accountId == a && row.IsPending() then row.held else 0
  }

  /** What a row still blocks after a crash: a DISPATCHED or UNKNOWN hold. */
  function SurvivorFor(a: Id): Reservation -> nat {
    (row: Reservation) => if row.accountId == a && Survives(row) then row.held else 0
  }

  function SettledFor(a: Id): Reservation -> nat {
    (row: Reservation) => if row.accountId == a && row.state.Settled? then row.settled else 0
  }

  function OverdraftFor(a: Id): Reservation -> nat {
    (row: Reservation) => if row.accountId == a && row.state.Settled? then Overdraft(row.settled, row.held) else 0
  }

  predicate Survives(row: Reservation) {
    row.state.Dispatched? || row.state.Unknown?
  }

  function AnySurvivor(): Reservation -> nat {
    (row: Reservation) => if Survives(row) then row.held else 0
  }

  ghost function Holds(rows: Reservations, a: Id): nat {
    Sum(rows, HoldFor(a))
  }

  ghost function SettledSpend(rows: Reservations, a: Id): nat {
    Sum(rows, SettledFor(a))
  }

  ghost function Overdrafts(rows: Reservations, a: Id): nat {
    Sum(rows, OverdraftFor(a))
  }

  ghost function SurvivingHolds(rows: Reservations, a: Id): nat {
    Sum(rows, SurvivorFor(a))
  }

  // ---------- recovery ----------

  function RecoveredRow(row: Reservation): Reservation {
    if row.state.Prepared? then row.(state := Released)
    else if row.state.Dispatched? then row.(state := Unknown)
    else row
  }

  ghost function RecoveredRows(rows: Reservations): (rows': Reservations)
    ensures rows'.Keys == rows.Keys
  {
    map r | r in rows :: RecoveredRow(rows[r])
  }

  ghost predicate HasSurvivor(rows: Reservations, a: Id) {
    exists r :: r in rows && rows[r].accountId == a && Survives(rows[r])
  }

  /** Recovery looks again only at the global account and at accounts with a surviving hold. */
  ghost predicate Revisited(t: Tables, a: Id) {
    a in t.accounts && (t.accounts[a].kind.Global? || HasSurvivor(t.reservations, a))
  }

  ghost function RecoveredAccount(t: Tables, a: Id): Account
    requires a in t.accounts
  {
    var account := t.accounts[a];
    if Revisited(t, a) then
      account.(reserved := SurvivingHolds(t.reservations, a), state := StateUnderLimit(account, account.limit))
    else account
  }

  ghost function RecoveredAccounts(t: Tables): (accounts': Accounts)
    ensures accounts'.Keys == t.accounts.Keys
  {
    map a | a in t.accounts :: RecoveredAccount(t, a)
  }

  ghost function RowsIn(rows: Reservations, state: ReservationState): set<Id> {
    set r | r in rows && rows[r].state == state
  }

  ghost function RevisitedIds(t: Tables): set<Id> {
    set a | a in t.accounts && Revisited(t, a)
  }

  ghost function ReportOf(t: Tables): RecoveryReport {
    RecoveryReport(|RowsIn(t.reservations, Prepared)|, |RowsIn(t.reservations, Dispatched)|,
                   |RowsIn(t.reservations, Unknown)|, Sum(t.reservations, AnySurvivor()), |RevisitedIds(t)|)
  }

  ghost function RecoverTables(t: Tables): Tables {
    t.(reservations := RecoveredRows(t.reservations), accounts := RecoveredAccounts(t))
  }

  ghost function Recover(t: Tables): Tables {
    Record(RecoverTables(t), [RecoveryCompleted(ReportOf(t))])
  }

  // ---------- runs ----------

  /** One public call by any client of the ledger. */
  datatype Request =
    | CreateGlobalRequest(limit: int)
    | CreateProjectRequest(projectId: string, limit: int)
    | UpdateLimitRequest(accountId: Option<Id>, limit: int)
    | RolloverRequest(accountId: Option<Id>, newLimit: Option<int>)
    | ReserveCall(rates: RateTable, reserve: ReserveRequest)
    | MarkDispatchedCall(id: Id)
    | ClaimCall(claim: ClaimRequest)
    | SettleCall(rates: RateTable, settle: SettleRequest)
    | ReleaseCall(id: Id)
    | RecordUnknownCall(id: Id)
    | RecoverCall

  function First<T>(r: Outcome<T>): Result<Tables, BudgetError> {
    match r
    case Ok((t, _)) => Ok(t)
    case Err(e) => Err(e)
  }

  ghost function Apply(t: Tables, q: Request): Result<Tables, BudgetError> {
    match q
    case CreateGlobalRequest(limit) => CreateAccount(t, GLOBAL_ID, None, limit)
    case CreateProjectRequest(projectId, limit) => CreateAccount(t, ProjectAccountId(projectId), Some(projectId), limit)
    case UpdateLimitRequest(accountId, limit) => UpdateLimit(t, accountId, limit)
    case RolloverRequest(accountId, newLimit) => Rollover(t, accountId, newLimit)
    case ReserveCall(rates, reserve) => First(Reserve(t, rates, reserve))
    case MarkDispatchedCall(id) => MarkDispatched(t, id)
    case ClaimCall(claim) => Claim(t, claim)
    case SettleCall(rates, settle) => First(Settle(t, rates, settle))
    case ReleaseCall(id) => Release(t, id)
    case RecordUnknownCall(id) => RecordUnknown(t, id)
    case RecoverCall => Ok(Recover(t))
  }

  /** What the caller of an operation without a result learns. */
  ghost function Answer(t: Tables, q: Request): Result<(), BudgetError> {
    match Apply(t, q)
    case Ok(_) => Ok(())
    case Err(e) => Err(e)
  }

  /** A call that throws changes nothing. */
  ghost function Exec(t: Tables, q: Request): Tables {
    match Apply(t, q)
    case Ok(t') => t'
    case Err(_) => t
  }

  /** Any interleaving of any clients is a sequence of calls; a crash is a client that stops calling. */
  ghost function Run(t: Tables, calls: seq<Request>): Tables
    decreases |calls|
  {
    if calls == [] then t else Run(Exec(t, calls[0]), calls[1..])
  }

  lemma {:induction false} RunAppend(t: Tables, calls: seq<Request>, more: seq<Request>)
    ensures Run(t, calls + more) == Run(Run(t, calls), more)
    decreases |calls|
  {
    if calls == [] {
      assert calls + more == more;
    } else {
      assert (calls + more)[1..] == calls[1..] + more;
      RunAppend(Exec(t, calls[0]), calls[1..], more);
    }
  }

  lemma RunOne(t: Tables, q: Request)
    ensures Run(t, [q]) == Exec(t, q)
  {
    assert [q][1..] == [];
    assert Run(Exec(t, q), []) == Exec(t, q);
  }

  /** A run grows by one successful call. */
  lemma RunStep(calls: seq<Request>, q: Request, t: Tables, t': Tables)
    requires Run(EMPTY, calls) == t && Apply(t, q) == Ok(t')
    ensures Run(EMPTY, calls + [q]) == t'
  {
    RunAppend(EMPTY, calls, [q]);
    RunOne(t, q);
  }
}
