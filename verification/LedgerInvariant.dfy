/** The invariant of every reachable ledger, one lemma for each operation. */
module LedgerInvariant {
  import opened Wrappers
  import opened Ledger
  import opened LedgerRuns
  import opened AuditTrail
  import opened TableSum

  ghost predicate BalanceOk(account: Account, trail: Trail, holds: nat, settled: nat, overdrafts: nat) {
    // Reserved spend covers the holds, exactly so where recovery leaves nothing behind.
    && account.reserved >= holds
    && (account.kind.Global? || !trail.recovered ==> account.reserved == holds)
    // Every settled amount was committed once.
    && account.committed + trail.prior == settled
    // Exposure.
    && account.committed + account.reserved <= trail.peak + overdrafts
    && trail.limit == Some(account.limit) && account.limit <= trail.peak
    && (!trail.lowered ==> account.limit == trail.peak)
    // Overrun state.
    && trail.creations >= 1
    && (trail.creations == 1 ==>
          account.state == if account.committed > account.limit then LimitOverrun else Active)
  }

  ghost predicate AccountOk(account: Account, rows: Reservations, es: seq<Event>, a: Id) {
    BalanceOk(account, TrailOf(es, a), Holds(rows, a), SettledSpend(rows, a), Overdrafts(rows, a))
  }

  /** Nothing is on record about an account that does not exist. */
  ghost predicate Untold(trail: Trail) {
    trail.(recovered := false) == NO_TRAIL
  }

  ghost predicate AccountsOk(accounts: Accounts, rows: Reservations, es: seq<Event>) {
    && (forall a | a in accounts :: AccountOk(accounts[a], rows, es, a))
    && (forall a: Id | a !in accounts :: Untold(TrailOf(es, a)))
  }

  predicate RowOk(row: Reservation) {
    && (!row.state.Settled? ==> row.settled == 0)
    && row.dispatchCount <= 1
    && (row.dispatchCount == 1 <==> row.claimId.Some?)
    && (row.claimId.Some? ==> !row.state.Prepared?)
  }

  ghost predicate RowsOk(accounts: Accounts, rows: Reservations) {
    forall r | r in rows :: rows[r].accountId in accounts && RowOk(rows[r])
  }

  predicate IsSettledAt(row: Reservation, a: Id, cost: nat) {
    row.state.Settled? && row.accountId == a && row.settled == cost
  }

  /** What a stored idempotency record promises about its reservation. */
  ghost predicate RecordOk(record: IdempotencyRecord, rows: Reservations, key: Id) {
    && record.reservationId in rows
    && var row := rows[record.reservationId];
    match record
    case ReserveRecord(id, a, held) => row.idempotencyKey == key && row.accountId == a && row.held == held
    case SettleRecord(id, a, held, cost, overdraft) =>
      IsSettledAt(row, a, cost) && row.held == held && overdraft == Overdraft(cost, held)
  }

  ghost predicate RecordsOk(rows: Reservations, records: Idempotency) {
    && (forall key | key in records :: RecordOk(records[key], rows, key))
    && (forall r | r in rows :: IsReserveRecord(rows[r].idempotencyKey, records, r))
  }

  predicate IsReserveRecord(key: Id, records: Idempotency, r: Id) {
    key in records && records[key].ReserveRecord? && records[key].reservationId == r
  }

  /** The de-duplicated settlement bills are exactly the SETTLED rows. */
  ghost predicate BillsOk(rows: Reservations, bills: Bills) {
    && (forall r | r in bills :: r in rows && IsSettledAt(rows[r], bills[r].accountId, bills[r].cost))
    && (forall r | r in rows && rows[r].state.Settled? :: r in bills)
  }

  /** Repeated settlement events of one reservation all name the same account and cost. */
  ghost predicate EventsAgree(rows: Reservations, es: seq<Event>) {
    forall i | 0 <= i < |es| && es[i].SettledEvent? ::
      es[i].reservationId in rows && IsSettledAt(rows[es[i].reservationId], es[i].accountId, es[i].cost)
  }

  ghost predicate Inv(t: Tables) {
    && RowsOk(t.accounts, t.reservations)
    && AccountsOk(t.accounts, t.reservations, t.outbox)
    && RecordsOk(t.reservations, t.idempotency)
    && BillsOk(t.reservations, BillsOf(t.outbox))
    && EventsAgree(t.reservations, t.outbox)
  }

  // ---------- how the sums move ----------

  lemma RowUpdated(rows: Reservations, r: Id, row': Reservation, a: Id)
    requires r in rows
    ensures var row, rows' := rows[r], rows[r := row'];
            && Holds(rows', a) + HoldFor(a)(row) == Holds(rows, a) + HoldFor(a)(row')
            && SettledSpend(rows', a) + SettledFor(a)(row) == SettledSpend(rows, a) + SettledFor(a)(row')
            && Overdrafts(rows', a) + OverdraftFor(a)(row) == Overdrafts(rows, a) + OverdraftFor(a)(row')
  {
    SumUpdate(rows, HoldFor(a), r, row');
    SumUpdate(rows, SettledFor(a), r, row');
    SumUpdate(rows, OverdraftFor(a), r, row');
  }

  lemma RowInserted(rows: Reservations, r: Id, row': Reservation, a: Id)
    requires r !in rows
    ensures var rows' := rows[r := row'];
            && Holds(rows', a) == Holds(rows, a) + HoldFor(a)(row')
            && SettledSpend(rows', a) == SettledSpend(rows, a) + SettledFor(a)(row')
            && Overdrafts(rows', a) == Overdrafts(rows, a) + OverdraftFor(a)(row')
  {
    SumInsert(rows, HoldFor(a), r, row');
    SumInsert(rows, SettledFor(a), r, row');
    SumInsert(rows, OverdraftFor(a), r, row');
  }

  lemma HoldCounted(rows: Reservations, r: Id)
    requires r in rows && rows[r].IsPending()
    ensures rows[r].held <= Holds(rows, rows[r].accountId)
  {
    SumAtLeast(rows, HoldFor(rows[r].accountId), r);
  }

  // ---------- parts of the invariant, one at a time ----------

  /** What never changes on a row, and what a settlement fixes for good. */
  predicate SameTerms(row: Reservation, row': Reservation) {
    && row'.accountId == row.accountId && row'.held == row.held && row'.idempotencyKey == row.idempotencyKey
    && row'.providerId == row.providerId && row'.modelId == row.modelId
    && (row.state.Settled? ==> row'.state.Settled? && row'.settled == row.settled)
  }

  ghost predicate RowsKeepTerms(rows: Reservations, rows': Reservations) {
    rows'.Keys == rows.Keys && forall r | r in rows :: SameTerms(rows[r], rows'[r])
  }

  lemma RowsFollow(accounts: Accounts, rows: Reservations, accounts': Accounts, rows': Reservations)
    requires RowsOk(accounts, rows) && accounts.Keys <= accounts'.Keys && RowsKeepTerms(rows, rows')
    requires forall r | r in rows' :: RowOk(rows'[r])
    ensures RowsOk(accounts', rows')
  {
    forall r | r in rows' ensures rows'[r].accountId in accounts' {
      assert SameTerms(rows[r], rows'[r]);
    }
  }

  lemma RecordsFollow(rows: Reservations, rows': Reservations, records: Idempotency)
    requires RecordsOk(rows, records) && RowsKeepTerms(rows, rows')
    ensures RecordsOk(rows', records)
  {
    forall key | key in records ensures RecordOk(records[key], rows', key) {
      assert RecordOk(records[key], rows, key);
      assert SameTerms(rows[records[key].reservationId], rows'[records[key].reservationId]);
    }
    forall r | r in rows' ensures IsReserveRecord(rows'[r].idempotencyKey, records, r) {
      assert SameTerms(rows[r], rows'[r]);
    }
  }

  lemma EventsFollow(rows: Reservations, rows': Reservations, es: seq<Event>)
    requires EventsAgree(rows, es)
    requires forall r | r in rows :: r in rows' && SameTerms(rows[r], rows'[r])
    ensures EventsAgree(rows', es)
  {
    forall i | 0 <= i < |es| && es[i].SettledEvent?
      ensures es[i].reservationId in rows' && IsSettledAt(rows'[es[i].reservationId], es[i].accountId, es[i].cost)
    {
      assert SameTerms(rows[es[i].reservationId], rows'[es[i].reservationId]);
    }
  }

  lemma BillsFollow(rows: Reservations, rows': Reservations, bills: Bills)
    requires BillsOk(rows, bills) && RowsKeepTerms(rows, rows')
    requires forall r | r in rows && rows'[r].state.Settled? :: rows[r].state.Settled?
    ensures BillsOk(rows', bills)
  {
    forall r | r in bills ensures r in rows' && IsSettledAt(rows'[r], bills[r].accountId, bills[r].cost) {
      assert SameTerms(rows[r], rows'[r]);
    }
  }

  /** The trail and the sums of one account are the same in two states. */
  ghost predicate SameFigures(rows: Reservations, es: seq<Event>, rows': Reservations, es': seq<Event>, a: Id) {
    && TrailOf(es', a) == TrailOf(es, a)
    && Holds(rows', a) == Holds(rows, a)
    && SettledSpend(rows', a) == SettledSpend(rows, a)
    && Overdrafts(rows', a) == Overdrafts(rows, a)
  }

  // Only account id moves; it stays in balance.
  lemma AccountsFollow(accounts: Accounts, rows: Reservations, es: seq<Event>,
                       id: Id, account': Account, rows': Reservations, es': seq<Event>)
    requires AccountsOk(accounts, rows, es)
    requires forall a: Id | a != id :: SameFigures(rows, es, rows', es', a)
    requires AccountOk(account', rows', es', id)
    ensures AccountsOk(accounts[id := account'], rows', es')
  {
    var accounts' := accounts[id := account'];
    forall a | a in accounts' ensures AccountOk(accounts'[a], rows', es', a) {
      if a != id {
        assert AccountOk(accounts[a], rows, es, a);
        assert SameFigures(rows, es, rows', es', a);
      }
    }
    forall a: Id | a !in accounts' ensures Untold(TrailOf(es', a)) {
      assert SameFigures(rows, es, rows', es', a);
    }
  }

  lemma FiguresElsewhere(rows: Reservations, r: Id, row': Reservation, rows': Reservations, es: seq<Event>)
    requires r in rows ==> rows[r].accountId == row'.accountId
    requires rows' == rows[r := row']
    ensures forall a: Id | a != row'.accountId :: SameFigures(rows, es, rows', es, a)
  {
    forall a: Id | a != row'.accountId ensures SameFigures(rows, es, rows', es, a) {
      if r in rows {
        RowUpdated(rows, r, row', a);
      } else {
        RowInserted(rows, r, row', a);
      }
    }
  }

  /** The clamps of settle and release never take effect. */
  lemma ClampNeverFires(t: Tables, r: Id)
    requires Inv(t) && r in t.reservations && t.reservations[r].IsPending()
    ensures t.reservations[r].accountId in t.accounts
    ensures var row := t.reservations[r];
            Lowered(t.accounts[row.accountId].reserved, row.held) == t.accounts[row.accountId].reserved - row.held
  {
    var a := t.reservations[r].accountId;
    HoldCounted(t.reservations, r);
    assert AccountOk(t.accounts[a], t.reservations, t.outbox, a);
  }

  /** An event that tells nothing about any account or settlement. */
  predicate IsNeutral(e: Event) {
    e.ReservedEvent? || e.DispatchedEvent? || e.OverrunEvent? || e.ReleasedEvent? || e.UnknownEvent?
  }

  lemma RecordNeutral(t: Tables, e: Event)
    requires Inv(t) && IsNeutral(e)
    ensures Inv(Record(t, [e]))
  {
    forall a: Id ensures TrailOf(t.outbox + [e], a) == TrailOf(t.outbox, a) {
      TrailAppend(t.outbox, e, a);
    }
    BillsAppend(t.outbox, e);
    forall a | a in t.accounts ensures AccountOk(t.accounts[a], t.reservations, t.outbox + [e], a) {
      assert AccountOk(t.accounts[a], t.reservations, t.outbox, a);
    }
  }
}
