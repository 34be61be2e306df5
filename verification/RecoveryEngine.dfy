/** Crash recovery as it runs: one pass over the pending rows that collects a map of surviving holds, one over
    that map, and one over the accounts to look at again. */
module RecoveryEngine {
  import opened Wrappers
  import opened Ledger
  import opened LedgerRuns
  import opened LedgerSteps
  import opened TableSum
  import D = BudgetDatabase

  /** Only the rows in `done` have been recovered so far. */
  ghost function PartlyRecovered(rows: Reservations, done: set<Id>): (rows': Reservations)
    ensures rows'.Keys == rows.Keys
  {
    map r | r in rows :: if r in done then RecoveredRow(rows[r]) else rows[r]
  }

  ghost predicate HoldsCollected(holds: map<Id, nat>, seen: Reservations) {
    && (forall a: Id :: a in holds <==> HasSurvivor(seen, a))
    && (forall a | a in holds :: holds[a] == SurvivingHolds(seen, a))
  }

  ghost predicate Counted(report: RecoveryReport, seen: Reservations) {
    && report.releasedPrepared == |RowsIn(seen, Prepared)|
    && report.movedToUnknown == |RowsIn(seen, Dispatched)|
    && report.retainedUnknown == |RowsIn(seen, Unknown)|
    && report.totalReserved == Sum(seen, AnySurvivor())
  }

  lemma RowsInAfter(seen: Reservations, r: Id, row: Reservation, state: ReservationState)
    requires r !in seen
    ensures |RowsIn(seen[r := row], state)| == |RowsIn(seen, state)| + if row.state == state then 1 else 0
  {
    assert RowsIn(seen[r := row], state) == RowsIn(seen, state) + if row.state == state then {r} else {};
  }

  lemma HasSurvivorAfter(seen: Reservations, r: Id, row: Reservation, a: Id)
    requires r !in seen
    ensures HasSurvivor(seen[r := row], a) <==> HasSurvivor(seen, a) || (row.accountId == a && Survives(row))
  {
    var after := seen[r := row];
    if HasSurvivor(seen, a) {
      var other :| other in seen && seen[other].accountId == a && Survives(seen[other]);
      assert after[other] == seen[other];
    }
    if row.accountId == a && Survives(row) {
      assert after[r] == row;
    }
  }

  function HoldsAfter(holds: map<Id, nat>, row: Reservation): map<Id, nat> {
    if Survives(row) then
      holds[row.accountId := (if row.accountId in holds then holds[row.accountId] else 0) + row.held]
    else holds
  }

  lemma HoldsCollectedAfter(holds: map<Id, nat>, seen: Reservations, r: Id, row: Reservation)
    requires HoldsCollected(holds, seen) && r !in seen
    ensures HoldsCollected(HoldsAfter(holds, row), seen[r := row])
  {
    forall a: Id
      ensures a in HoldsAfter(holds, row) <==> HasSurvivor(seen[r := row], a)
      ensures a in HoldsAfter(holds, row) ==> HoldsAfter(holds, row)[a] == SurvivingHolds(seen[r := row], a)
    {
      HasSurvivorAfter(seen, r, row, a);
      SumInsert(seen, SurvivorFor(a), r, row);
      if !HasSurvivor(seen, a) {
        NoSurvivors(seen, a);
      }
    }
  }

  function Tallied(report: RecoveryReport, row: Reservation): RecoveryReport {
    if row.state.Prepared? then report.(releasedPrepared := report.releasedPrepared + 1)
    else if row.state.Dispatched? then
      report.(movedToUnknown := report.movedToUnknown + 1, totalReserved := report.totalReserved + row.held)
    else if row.state.Unknown? then
      report.(retainedUnknown := report.retainedUnknown + 1, totalReserved := report.totalReserved + row.held)
    else report
  }

  lemma CountedAfter(report: RecoveryReport, seen: Reservations, r: Id, row: Reservation)
    requires Counted(report, seen) && r !in seen
    ensures Counted(Tallied(report, row), seen[r := row])
  {
    RowsInAfter(seen, r, row, Prepared);
    RowsInAfter(seen, r, row, Dispatched);
    RowsInAfter(seen, r, row, Unknown);
    SumInsert(seen, AnySurvivor(), r, row);
  }

  ghost predicate SeenSoFar(rows: Reservations, seen: Reservations, ids: seq<Id>) {
    && (forall r :: r in seen <==> r in ids)
    && (forall r | r in seen :: r in rows && seen[r] == rows[r])
  }

  lemma SeenAfter(rows: Reservations, seen: Reservations, ids: seq<Id>, id: Id)
    requires SeenSoFar(rows, seen, ids) && id in rows && id !in ids
    ensures SeenSoFar(rows, seen[id := rows[id]], ids + [id]) && id !in seen
    ensures PartlyRecovered(rows, seen[id := rows[id]].Keys)
            == PartlyRecovered(rows, seen.Keys)[id := RecoveredRow(rows[id])]
  {
  }

  lemma NextIsNew(ids: seq<Id>, i: nat)
    requires Distinct(ids) && i < |ids|
    ensures ids[i] !in ids[..i] && ids[..i + 1] == ids[..i] + [ids[i]]
  {
  }

  ghost function Pending(rows: Reservations): Reservations {
    map r | r in rows && rows[r].IsPending() :: rows[r]
  }

  // Rows that are not pending contribute to none of the figures.
  lemma PendingIsEnough(rows: Reservations)
    ensures forall a: Id :: HasSurvivor(Pending(rows), a) <==> HasSurvivor(rows, a)
    ensures forall a: Id :: SurvivingHolds(Pending(rows), a) == SurvivingHolds(rows, a)
    ensures forall state: ReservationState | state.Prepared? || state.Dispatched? || state.Unknown? ::
              RowsIn(Pending(rows), state) == RowsIn(rows, state)
    ensures Sum(Pending(rows), AnySurvivor()) == Sum(rows, AnySurvivor())
    ensures PartlyRecovered(rows, Pending(rows).Keys) == RecoveredRows(rows)
  {
    var kept := map r | r in rows && r in Pending(rows).Keys :: rows[r];
    assert kept == Pending(rows);
    forall a: Id
      ensures HasSurvivor(Pending(rows), a) <==> HasSurvivor(rows, a)
      ensures SurvivingHolds(Pending(rows), a) == SurvivingHolds(rows, a)
    {
      SumRestrict(rows, SurvivorFor(a), Pending(rows).Keys);
      if HasSurvivor(rows, a) {
        var r :| r in rows && rows[r].accountId == a && Survives(rows[r]);
        assert Pending(rows)[r] == rows[r];
      }
    }
    SumRestrict(rows, AnySurvivor(), Pending(rows).Keys);
  }

  lemma AllSeen(rows: Reservations, seen: Reservations, pending: seq<Id>)
    requires SeenSoFar(rows, seen, pending[..|pending|])
    requires forall id :: id in pending <==> id in rows && rows[id].IsPending()
    ensures seen == Pending(rows) && PartlyRecovered(rows, seen.Keys) == RecoveredRows(rows)
    ensures forall holds: map<Id, nat> :: HoldsCollected(holds, seen) ==> HoldsCollected(holds, rows)
    ensures forall report: RecoveryReport :: Counted(report, seen) ==> Counted(report, rows)
  {
    assert pending[..|pending|] == pending;
    PendingIsEnough(rows);
  }

  /** The account as recovery writes it back. */
  function Recalibrated(account: Account, holds: map<Id, nat>, a: Id): Account {
    account.(reserved := if a in holds then holds[a] else 0, state := StateUnderLimit(account, account.limit))
  }

  predicate NeedsUpdate(accounts: Accounts, holds: map<Id, nat>, a: Id) {
    a in accounts && (accounts[a].kind.Global? || a in holds)
  }

  ghost predicate Distinct(ids: seq<Id>) {
    forall i, j | 0 <= i < j < |ids| :: ids[i] != ids[j]
  }

  /** What the list holds while the accounts in `rest` are still to come. */
  ghost predicate Listed(accounts: Accounts, holds: map<Id, nat>, global: Option<Id>, rest: set<Id>, ids: seq<Id>) {
    && rest <= holds.Keys
    && forall a :: a in ids <==> a in accounts && (Some(a) == global || (a in holds && a !in rest))
  }

  lemma OnlyGlobal(accounts: Accounts, global: Option<Id>)
    requires D.AccountsConstrained(accounts) && global == FindGlobal(accounts)
    ensures forall a | a in accounts :: accounts[a].kind.Global? <==> Some(a) == global
  {
    forall a | a in accounts && accounts[a].kind.Global? ensures Some(a) == global {
      D.FindGlobalIsUnique(accounts, a);
    }
  }

  lemma {:induction false} DistinctCount(ids: seq<Id>)
    requires Distinct(ids)
    ensures |ids| == |set a | a in ids|
  {
    if ids != [] {
      var init, last := ids[..|ids| - 1], ids[|ids| - 1];
      DistinctCount(init);
      assert (set a | a in ids) == (set a | a in init) + {last};
    }
  }

  ghost predicate WrittenBack(accounts: Accounts, holds: map<Id, nat>, accounts': Accounts) {
    && accounts'.Keys == accounts.Keys
    && forall a | a in accounts ::
         accounts'[a] == if NeedsUpdate(accounts, holds, a) then Recalibrated(accounts[a], holds, a) else accounts[a]
  }

  // The accounts written back are those of the specification.
  lemma RecalibratedAll(t: Tables, holds: map<Id, nat>, ids: seq<Id>, accounts': Accounts)
    requires HoldsCollected(holds, t.reservations) && WrittenBack(t.accounts, holds, accounts')
    requires Distinct(ids) && forall a :: a in ids <==> NeedsUpdate(t.accounts, holds, a)
    ensures |ids| == |RevisitedIds(t)| && accounts' == RecoveredAccounts(t)
  {
    DistinctCount(ids);
    assert (set a | a in ids) == RevisitedIds(t);
    forall a | a in t.accounts ensures accounts'[a] == RecoveredAccount(t, a) {
      if a !in holds {
        NoSurvivors(t.reservations, a);
      }
    }
  }

  lemma ReportComplete(t: Tables, report: RecoveryReport)
    requires Counted(report, t.reservations) && report.accountsReconciled == |RevisitedIds(t)|
    ensures report == ReportOf(t)
  {
  }

  class BudgetRecoveryEngine {
    const db: D.BudgetDatabase

    constructor (db: D.BudgetDatabase)
      ensures this.db == db
    {
      this.db := db;
    }

    method Recover() returns (report: RecoveryReport)
      requires db.Valid()
      modifies db
      ensures db.Valid() && db.inTransactionLevel == old(db.inTransactionLevel)
      ensures old(db.inTransactionLevel) == 1 ==> db.savepoint == old(db.savepoint)
      ensures db.Contents() == RecoverTables(old(db.Contents())) && report == ReportOf(old(db.Contents()))
    {
      var outermost := db.Begin();
      report := Reconcile();
      db.End(outermost, true);
    }

    method Reconcile() returns (report: RecoveryReport)
      requires db.Valid()
      modifies db`accounts, db`reservations
      ensures db.Valid()
      ensures db.Contents() == RecoverTables(old(db.Contents())) && report == ReportOf(old(db.Contents()))
    {
      ghost var t := db.Contents();
      var pending := db.ListPendingReservations();
      var holds;
      report, holds := MovePending(pending);
      var ids := AccountsToUpdate(holds);
      Recalibrate(ids, holds);
      report := report.(accountsReconciled := |ids|);
      RecalibratedAll(t, holds, ids, db.accounts);
      ReportComplete(t, report);
    }

    /** The pass over the pending rows, as they were read before the first update. */
    method MovePending(pending: seq<Id>) returns (report: RecoveryReport, holds: map<Id, nat>)
      requires db.Valid() && Distinct(pending)
      requires forall id :: id in pending <==> id in db.reservations && db.reservations[id].IsPending()
      modifies db`reservations
      ensures db.Valid() && db.reservations == RecoveredRows(old(db.reservations))
      ensures HoldsCollected(holds, old(db.reservations)) && Counted(report, old(db.reservations))
    {
      var rows := db.reservations;
      holds, report := map[], RecoveryReport(0, 0, 0, 0, 0);
      ghost var seen: Reservations := map[];
      for i := 0 to |pending|
        invariant db.Valid() && db.reservations == PartlyRecovered(rows, seen.Keys)
        invariant SeenSoFar(rows, seen, pending[..i])
        invariant HoldsCollected(holds, seen) && Counted(report, seen)
      {
        var id := pending[i];
        NextIsNew(pending, i);
        SeenAfter(rows, seen, pending[..i], id);
        HoldsCollectedAfter(holds, seen, id, rows[id]);
        CountedAfter(report, seen, id, rows[id]);
        report, holds := MoveRow(id, rows[id], report, holds);
        seen := seen[id := rows[id]];
      }
      AllSeen(rows, seen, pending);
    }

    method MoveRow(id: Id, row: Reservation, report: RecoveryReport, holds: map<Id, nat>)
      returns (report': RecoveryReport, holds': map<Id, nat>)
      requires db.Valid() && id in db.reservations && db.reservations[id] == row
      modifies db`reservations
      ensures db.Valid() && db.reservations == old(db.reservations)[id := RecoveredRow(row)]
      ensures report' == Tallied(report, row) && holds' == HoldsAfter(holds, row)
    {
      report', holds' := report, holds;
      if row.state.Prepared? {
        db.UpdateReservationState(id, Released, None);
        report' := report'.(releasedPrepared := report'.releasedPrepared + 1);
      } else if row.state.Dispatched? {
        db.UpdateReservationState(id, Unknown, None);
        report' := report'.(movedToUnknown := report'.movedToUnknown + 1);
        var current := if row.accountId in holds then holds[row.accountId] else 0;
        holds' := holds[row.accountId := current + row.held];
        report' := report'.(totalReserved := report'.totalReserved + row.held);
      } else if row.state.Unknown? {
        report' := report'.(retainedUnknown := report'.retainedUnknown + 1);
        var current := if row.accountId in holds then holds[row.accountId] else 0;
        holds' := holds[row.accountId := current + row.held];
        report' := report'.(totalReserved := report'.totalReserved + row.held);
      }
    }

    /** The global account first, then every account with a surviving hold. */
    method AccountsToUpdate(holds: map<Id, nat>) returns (ids: seq<Id>)
      requires db.Valid()
      ensures Distinct(ids) && forall a :: a in ids <==> NeedsUpdate(db.accounts, holds, a)
    {
      var global := db.GetGlobalAccount();
      ids := if global.Some? then [global.value] else [];
      var rest := holds.Keys;
      while rest != {}
        invariant Listed(db.accounts, holds, global, rest, ids) && Distinct(ids)
        decreases |rest|
      {
        var a :| a in rest;
        rest := rest - {a};
        if Some(a) != global && a in db.accounts {
          ids := ids + [a];
        }
      }
      OnlyGlobal(db.accounts, global);
    }

    method Recalibrate(ids: seq<Id>, holds: map<Id, nat>)
      requires db.Valid() && Distinct(ids) && forall a :: a in ids <==> NeedsUpdate(db.accounts, holds, a)
      modifies db`accounts
      ensures db.Valid() && WrittenBack(old(db.accounts), holds, db.accounts)
    {
      var accounts := db.accounts;
      for i := 0 to |ids|
        invariant db.Valid() && db.accounts.Keys == accounts.Keys
        invariant forall a | a in accounts ::
                    db.accounts[a] == if a in ids[..i] then Recalibrated(accounts[a], holds, a) else accounts[a]
      {
        var a := ids[i];
        NextIsNew(ids, i);
        assert NeedsUpdate(accounts, holds, a);
        var account := accounts[a];
        var correctReserved := if a in holds then holds[a] else 0;
        var isOverrun := account.committed > account.limit;
        var newState := if isOverrun then LimitOverrun
                        else if account.state.LimitOverrun? then Active
                        else account.state;
        var updated := db.UpdateAccountBalances(a, Some(correctReserved), None, Some(newState));
        assert updated.Ok?;
      }
      assert ids[..|ids|] == ids;
    }
  }
}
