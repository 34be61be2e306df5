/** Every public operation keeps the ledger invariant. */
module LedgerSteps {
  import opened Wrappers
  import opened PricingEngine
  import opened Ledger
  import opened LedgerRuns
  import opened AuditTrail
  import opened LedgerInvariant
  import opened TableSum

  // A row and its account change; every other account keeps its figures.
  lemma AccountsAfterRow(accounts: Accounts, rows: Reservations, es: seq<Event>, r: Id, row': Reservation, account': Account)
    requires AccountsOk(accounts, rows, es)
    requires r in rows ==> rows[r].accountId == row'.accountId
    requires AccountOk(account', rows[r := row'], es, row'.accountId)
    ensures AccountsOk(accounts[row'.accountId := account'], rows[r := row'], es)
  {
    FiguresElsewhere(rows, r, row', rows[r := row'], es);
    AccountsFollow(accounts, rows, es, row'.accountId, account', rows[r := row'], es);
  }

  // A row that is not a settlement changes.
  lemma RowsAfterRow(accounts: Accounts, rows: Reservations, r: Id, row': Reservation, accounts': Accounts)
    requires RowsOk(accounts, rows) && accounts.Keys <= accounts'.Keys
    requires r in rows && SameTerms(rows[r], row') && RowOk(row')
    ensures RowsOk(accounts', rows[r := row']) && RowsKeepTerms(rows, rows[r := row'])
  {
  }

  lemma TrailsAfterRow(rows: Reservations, r: Id, row': Reservation, records: Idempotency, es: seq<Event>)
    requires RecordsOk(rows, records) && BillsOk(rows, BillsOf(es)) && EventsAgree(rows, es)
    requires r in rows && RowsKeepTerms(rows, rows[r := row']) && !rows[r].state.Settled? && !row'.state.Settled?
    ensures RecordsOk(rows[r := row'], records) && BillsOk(rows[r := row'], BillsOf(es)) && EventsAgree(rows[r := row'], es)
  {
    RecordsFollow(rows, rows[r := row'], records);
    BillsFollow(rows, rows[r := row'], BillsOf(es));
    EventsFollow(rows, rows[r := row'], es);
  }

  // A row that is not a settlement changes together with its account.
  lemma RowMoves(t: Tables, r: Id, row': Reservation, account': Account, t': Tables)
    requires Inv(t) && r in t.reservations && t.reservations[r].accountId in t.accounts
    requires SameTerms(t.reservations[r], row') && RowOk(row')
    requires !t.reservations[r].state.Settled? && !row'.state.Settled?
    requires AccountOk(account', t.reservations[r := row'], t.outbox, row'.accountId)
    requires t' == t.(accounts := t.accounts[row'.accountId := account'], reservations := t.reservations[r := row'])
    ensures Inv(t')
  {
    AccountsAfterRow(t.accounts, t.reservations, t.outbox, r, row', account');
    RowsAfterRow(t.accounts, t.reservations, r, row', t'.accounts);
    TrailsAfterRow(t.reservations, r, row', t.idempotency, t.outbox);
  }

  lemma PendingBalance(accounts: Accounts, rows: Reservations, es: seq<Event>, r: Id, row': Reservation)
    requires AccountsOk(accounts, rows, es) && r in rows && rows[r].accountId in accounts
    requires rows[r].IsPending() && row'.IsPending() && SameTerms(rows[r], row')
    ensures AccountOk(accounts[row'.accountId], rows[r := row'], es, row'.accountId)
  {
    RowUpdated(rows, r, row', row'.accountId);
    assert AccountOk(accounts[row'.accountId], rows, es, row'.accountId);
  }

  // A pending row that stays pending: dispatch, claim, unknown.
  lemma PendingRowMoves(t: Tables, r: Id, row': Reservation, t': Tables)
    requires Inv(t) && r in t.reservations && t.reservations[r].accountId in t.accounts
    requires t.reservations[r].IsPending() && row'.IsPending()
    requires SameTerms(t.reservations[r], row') && RowOk(row')
    requires t' == t.(reservations := t.reservations[r := row'])
    ensures Inv(t')
  {
    var account := t.accounts[row'.accountId];
    PendingBalance(t.accounts, t.reservations, t.outbox, r, row');
    SameAccounts(t.accounts, row'.accountId);
    RowMoves(t, r, row', account, t');
  }

  lemma SameAccounts(accounts: Accounts, a: Id)
    requires a in accounts
    ensures accounts[a := accounts[a]] == accounts
  {
  }

  lemma RowFacts(t: Tables, r: Id)
    requires Inv(t) && r in t.reservations
    ensures RowOk(t.reservations[r]) && t.reservations[r].accountId in t.accounts
  {
  }

  lemma PrepareDispatchKeeps(t: Tables, id: Id, t': Tables)
    requires Inv(t) && PrepareDispatch(t, id) == Ok(t')
    ensures Inv(t')
  {
    RowFacts(t, id);
    if t.reservations[id].state.Prepared? {
      PendingRowMoves(t, id, t.reservations[id].(state := Dispatched), t');
    }
  }

  lemma HoldUnknownKeeps(t: Tables, id: Id, t': Tables)
    requires Inv(t) && HoldUnknown(t, id) == Ok(t')
    ensures Inv(t')
  {
    RowFacts(t, id);
    PendingRowMoves(t, id, t.reservations[id].(state := Unknown), t');
  }

  lemma ClaimShape(t: Tables, c: ClaimRequest, t': Tables)
    requires Claim(t, c) == Ok(t')
    ensures c.id in t.reservations && t.reservations[c.id].dispatchCount == 0
    ensures t.reservations[c.id].state.Prepared? || t.reservations[c.id].state.Dispatched?
    ensures t.reservations[c.id].claimId.None?
    ensures t' == t.(reservations := t.reservations[c.id := Claimed(t.reservations[c.id], c.claimId.GetOr(c.freshId))])
  {
  }

  lemma ClaimKeeps(t: Tables, c: ClaimRequest, t': Tables)
    requires Inv(t) && Claim(t, c) == Ok(t')
    ensures Inv(t')
  {
    ClaimShape(t, c, t');
    RowFacts(t, c.id);
    PendingRowMoves(t, c.id, Claimed(t.reservations[c.id], c.claimId.GetOr(c.freshId)), t');
  }

  lemma ReleasedBalance(accounts: Accounts, rows: Reservations, es: seq<Event>, r: Id)
    requires AccountsOk(accounts, rows, es) && r in rows && rows[r].IsPending() && rows[r].accountId in accounts
    ensures var row, account := rows[r], accounts[rows[r].accountId];
            AccountOk(account.(reserved := Lowered(account.reserved, row.held)), rows[r := row.(state := Released)],
                      es, row.accountId)
  {
    var row := rows[r];
    HoldCounted(rows, r);
    RowUpdated(rows, r, row.(state := Released), row.accountId);
    assert AccountOk(accounts[row.accountId], rows, es, row.accountId);
  }

  lemma ReleaseReservationKeeps(t: Tables, id: Id, t': Tables)
    requires Inv(t) && ReleaseReservation(t, id) == Ok(t')
    ensures Inv(t')
  {
    if !t.reservations[id].state.Released? {
      assert t' == ReleaseHold(t, id);
      RowFacts(t, id);
      ReleasedBalance(t.accounts, t.reservations, t.outbox, id);
      RowMoves(t, id, t'.reservations[id], t'.accounts[t.reservations[id].accountId], t');
    }
  }

  // ---------- reserve ----------

  // A new PREPARED row with its hold, its account and its idempotency record.
  lemma RowAdded(t: Tables, r: Id, row: Reservation, account': Account, t': Tables)
    requires Inv(t) && r !in t.reservations && row.accountId in t.accounts
    requires row.state.Prepared? && RowOk(row)
    requires row.idempotencyKey !in t.idempotency
    requires AccountOk(account', t.reservations[r := row], t.outbox, row.accountId)
    requires t' == t.(accounts := t.accounts[row.accountId := account'],
                      reservations := t.reservations[r := row],
                      idempotency := t.idempotency[row.idempotencyKey := ReserveRecord(r, row.accountId, row.held)])
    ensures Inv(t')
  {
    AccountsAfterRow(t.accounts, t.reservations, t.outbox, r, row, account');
    RowsAfterInsert(t.accounts, t.reservations, r, row, t'.accounts);
    EventsUntouched(t.reservations, r, row, t.outbox);
    RecordAdded(t.reservations, r, row, t.idempotency);
    BillsUntouched(t.reservations, r, row, BillsOf(t.outbox));
  }

  lemma RowsAfterInsert(accounts: Accounts, rows: Reservations, r: Id, row: Reservation, accounts': Accounts)
    requires RowsOk(accounts, rows) && accounts.Keys <= accounts'.Keys
    requires row.accountId in accounts' && RowOk(row)
    ensures RowsOk(accounts', rows[r := row])
  {
  }

  lemma EventsUntouched(rows: Reservations, r: Id, row: Reservation, es: seq<Event>)
    requires EventsAgree(rows, es) && r !in rows
    ensures EventsAgree(rows[r := row], es)
  {
  }

  lemma BillsUntouched(rows: Reservations, r: Id, row: Reservation, bills: Bills)
    requires BillsOk(rows, bills) && r !in rows && !row.state.Settled?
    ensures BillsOk(rows[r := row], bills)
  {
  }

  lemma RecordAdded(rows: Reservations, r: Id, row: Reservation, records: Idempotency)
    requires RecordsOk(rows, records) && r !in rows && row.idempotencyKey !in records
    ensures RecordsOk(rows[r := row], records[row.idempotencyKey := ReserveRecord(r, row.accountId, row.held)])
  {
    var rows' := rows[r := row];
    forall key | key in records ensures RecordOk(records[key], rows', key) {
      assert RecordOk(records[key], rows, key);
    }
  }

  lemma AddedBalance(accounts: Accounts, rows: Reservations, es: seq<Event>, r: Id, row: Reservation)
    requires AccountsOk(accounts, rows, es) && r !in rows && row.state.Prepared?
    requires row.accountId in accounts && row.held <= accounts[row.accountId].Available()
    ensures var account := accounts[row.accountId];
            AccountOk(account.(reserved := account.reserved + row.held), rows[r := row], es, row.accountId)
  {
    RowInserted(rows, r, row, row.accountId);
    assert AccountOk(accounts[row.accountId], rows, es, row.accountId);
  }

  lemma AddReservationKeeps(t: Tables, q: ReserveRequest, key: Id, a: Id, cost: nat, t': Tables)
    requires Inv(t) && a in t.accounts && cost <= t.accounts[a].Available()
    requires q.id !in t.reservations && key !in t.idempotency
    requires t' == AddReservation(t, q, key, a, cost)
    ensures Inv(t')
  {
    AddedBalance(t.accounts, t.reservations, t.outbox, q.id, NewRow(q, key, a, cost));
    RowAdded(t, q.id, NewRow(q, key, a, cost), t'.accounts[a], t');
  }

  // A reservation that is not a retry adds a row at a cost the account could afford.
  lemma ReservationShape(t: Tables, rates: RateTable, q: ReserveRequest, t': Tables, id: Id)
    requires PrepareReservation(t, rates, q) == Ok((t', id))
    ensures q.key.Some? && id in t'.reservations && t'.outbox == t.outbox
    ensures FindByKey(t.reservations, q.key.value).Some? ==> t' == t && Some(id) == FindByKey(t.reservations, q.key.value)
    ensures FindByKey(t.reservations, q.key.value).None? ==>
              && Validate(t, rates, q).Ok? && id == q.id && id !in t.reservations && q.key.value !in t.idempotency
              && var (a, cost) := Validate(t, rates, q).value;
              a in t.accounts && cost <= t.accounts[a].Available() && t' == AddReservation(t, q, q.key.value, a, cost)
  {
  }

  lemma PrepareReservationKeeps(t: Tables, rates: RateTable, q: ReserveRequest, t': Tables, id: Id)
    requires Inv(t) && PrepareReservation(t, rates, q) == Ok((t', id))
    ensures Inv(t')
  {
    ReservationShape(t, rates, q, t', id);
    if FindByKey(t.reservations, q.key.value).None? {
      var (a, cost) := Validate(t, rates, q).value;
      AddReservationKeeps(t, q, q.key.value, a, cost, t');
    }
  }

  // ---------- settle ----------

  lemma TrailUnmovedBySettlement(es: seq<Event>, e: Event)
    requires e.SettledEvent?
    ensures forall a: Id :: TrailOf(es + [e], a) == TrailOf(es, a)
  {
    forall a: Id ensures TrailOf(es + [e], a) == TrailOf(es, a) {
      TrailAppend(es, e, a);
    }
  }

  function SettledRow(row: Reservation, cost: nat): Reservation {
    row.(state := Settled, settled := cost)
  }

  lemma SettledKeepsTerms(rows: Reservations, r: Id, cost: nat)
    requires r in rows && rows[r].IsPending()
    ensures RowsKeepTerms(rows, rows[r := SettledRow(rows[r], cost)])
  {
  }

  lemma SettlementKept(rows: Reservations, records: Idempotency, key: Id, record: IdempotencyRecord)
    requires RecordsOk(rows, records) && key !in records && RecordOk(record, rows, key)
    ensures RecordsOk(rows, records[key := record])
  {
    var records' := records[key := record];
    forall k | k in records' ensures RecordOk(records'[k], rows, k) {
      if k != key {
        assert RecordOk(records[k], rows, k);
      }
    }
    forall r | r in rows ensures IsReserveRecord(rows[r].idempotencyKey, records', r) {
      assert IsReserveRecord(rows[r].idempotencyKey, records, r);
    }
  }

  // The row becomes SETTLED and its record is kept.
  lemma RecordsAfterSettling(rows: Reservations, r: Id, cost: nat, records: Idempotency, key: Id)
    requires r in rows && rows[r].IsPending() && key !in records && RecordsOk(rows, records)
    ensures var row := rows[r];
            RecordsOk(rows[r := SettledRow(row, cost)],
                      records[key := SettleRecord(r, row.accountId, row.held, cost, Overdraft(cost, row.held))])
  {
    var row := rows[r];
    SettledKeepsTerms(rows, r, cost);
    RecordsFollow(rows, rows[r := SettledRow(row, cost)], records);
    SettlementKept(rows[r := SettledRow(row, cost)], records, key,
                   SettleRecord(r, row.accountId, row.held, cost, Overdraft(cost, row.held)));
  }

  // The row becomes SETTLED and its bill is issued.
  lemma BillsAfterSettling(rows: Reservations, r: Id, cost: nat, bills: Bills)
    requires r in rows && rows[r].IsPending() && BillsOk(rows, bills)
    ensures BillsOk(rows[r := SettledRow(rows[r], cost)], bills[r := Bill(rows[r].accountId, cost)])
  {
    var rows', bills' := rows[r := SettledRow(rows[r], cost)], bills[r := Bill(rows[r].accountId, cost)];
    forall k | k in bills' ensures k in rows' && IsSettledAt(rows'[k], bills'[k].accountId, bills'[k].cost) {
      if k != r {
        assert k in bills && IsSettledAt(rows[k], bills[k].accountId, bills[k].cost);
      }
    }
  }

  // The row becomes SETTLED and its event is told.
  lemma EventsAfterSettling(rows: Reservations, r: Id, e: Event, es: seq<Event>)
    requires r in rows && rows[r].IsPending() && EventsAgree(rows, es)
    requires e.SettledEvent? && e.reservationId == r && e.accountId == rows[r].accountId
    ensures EventsAgree(rows[r := SettledRow(rows[r], e.cost)], es + [e])
  {
    var rows' := rows[r := SettledRow(rows[r], e.cost)];
    SettledKeepsTerms(rows, r, e.cost);
    EventsFollow(rows, rows', es);
    EventAgrees(rows', es, e);
  }

  lemma EventAgrees(rows: Reservations, es: seq<Event>, e: Event)
    requires EventsAgree(rows, es)
    requires e.SettledEvent? ==> e.reservationId in rows && IsSettledAt(rows[e.reservationId], e.accountId, e.cost)
    ensures EventsAgree(rows, es + [e])
  {
  }

  function SettlementEvent(r: SettlementResult): Event {
    SettledEvent(r.reservationId, r.accountId, r.held, r.cost, r.overdraft)
  }

  lemma SettledBalance(t: Tables, id: Id, key: Id, cost: nat, t': Tables, r: SettlementResult)
    requires AccountsOk(t.accounts, t.reservations, t.outbox)
    requires id in t.reservations && t.reservations[id].IsPending() && t.reservations[id].accountId in t.accounts
    requires (t', r) == SettleAt(t, id, key, cost)
    ensures AccountOk(t'.accounts[r.accountId], t'.reservations, t.outbox, r.accountId)
  {
    var row, a := t.reservations[id], r.accountId;
    HoldCounted(t.reservations, id);
    RowUpdated(t.reservations, id, SettledRow(row, cost), a);
    assert AccountOk(t.accounts[a], t.reservations, t.outbox, a);
  }

  lemma SettleAtKeepsAccounts(t: Tables, id: Id, key: Id, cost: nat, t': Tables, r: SettlementResult)
    requires AccountsOk(t.accounts, t.reservations, t.outbox)
    requires id in t.reservations && t.reservations[id].IsPending() && t.reservations[id].accountId in t.accounts
    requires (t', r) == SettleAt(t, id, key, cost)
    ensures AccountsOk(t'.accounts, t'.reservations, t.outbox + [SettlementEvent(r)])
  {
    SettledBalance(t, id, key, cost, t', r);
    AccountsAfterRow(t.accounts, t.reservations, t.outbox, id, SettledRow(t.reservations[id], cost), t'.accounts[r.accountId]);
    SettlementEventKeepsAccounts(t'.accounts, t'.reservations, t.outbox, SettlementEvent(r));
  }

  lemma SettledRowOk(accounts: Accounts, rows: Reservations, id: Id, cost: nat, accounts': Accounts)
    requires RowsOk(accounts, rows) && id in rows && rows[id].IsPending() && accounts.Keys <= accounts'.Keys
    ensures RowsOk(accounts', rows[id := SettledRow(rows[id], cost)])
  {
    RowsAfterRow(accounts, rows, id, SettledRow(rows[id], cost), accounts');
  }

  /** A first settlement together with its event. */
  lemma SettleAtKeeps(t: Tables, id: Id, key: Id, cost: nat, t': Tables, r: SettlementResult)
    requires Inv(t) && key !in t.idempotency
    requires id in t.reservations && t.reservations[id].IsPending() && t.reservations[id].accountId in t.accounts
    requires (t', r) == SettleAt(t, id, key, cost)
    ensures Inv(Record(t', [SettlementEvent(r)]))
  {
    SettleAtKeepsAccounts(t, id, key, cost, t', r);
    SettledRowOk(t.accounts, t.reservations, id, cost, t'.accounts);
    RecordsAfterSettling(t.reservations, id, cost, t.idempotency, key);
    BillsAfterSettling(t.reservations, id, cost, BillsOf(t.outbox));
    BillsAppend(t.outbox, SettlementEvent(r));
    EventsAfterSettling(t.reservations, id, SettlementEvent(r), t.outbox);
  }

  lemma SettlementEventKeepsAccounts(accounts: Accounts, rows: Reservations, es: seq<Event>, e: Event)
    requires AccountsOk(accounts, rows, es) && e.SettledEvent?
    ensures AccountsOk(accounts, rows, es + [e])
  {
    TrailUnmovedBySettlement(es, e);
    forall a | a in accounts ensures AccountOk(accounts[a], rows, es + [e], a) {
      assert AccountOk(accounts[a], rows, es, a);
    }
  }

  lemma RepeatedBill(rows: Reservations, es: seq<Event>, e: Event)
    requires BillsOk(rows, BillsOf(es)) && EventsAgree(rows, es) && e.SettledEvent?
    requires e.reservationId in rows && IsSettledAt(rows[e.reservationId], e.accountId, e.cost)
    ensures BillsOk(rows, BillsOf(es + [e])) && EventsAgree(rows, es + [e])
  {
    BillsAppend(es, e);
    var bills := BillsOf(es);
    assert bills[e.reservationId := Bill(e.accountId, e.cost)] == bills;
  }

  /** A replayed settlement only repeats a bill that was already issued. */
  lemma ReplayedSettlementKeeps(t: Tables, q: SettleRequest, key: Id, t': Tables, r: SettlementResult)
    requires Inv(t) && key in t.idempotency && ReplaySettlement(t, q, key) == Ok((t', r))
    ensures t' == t && Inv(Record(t, [SettlementEvent(r)]))
  {
    assert RecordOk(t.idempotency[key], t.reservations, key);
    SettlementEventKeepsAccounts(t.accounts, t.reservations, t.outbox, SettlementEvent(r));
    RepeatedBill(t.reservations, t.outbox, SettlementEvent(r));
  }

  // A settlement that is not a replay is one of SettleAt at some cost.
  lemma SettlementShape(t: Tables, rates: RateTable, q: SettleRequest, t1: Tables, r: SettlementResult)
    requires SettleReservation(t, rates, q) == Ok((t1, r))
    ensures q.key.Some?
    ensures q.key.value in t.idempotency ==> ReplaySettlement(t, q, q.key.value) == Ok((t1, r))
    ensures q.key.value !in t.idempotency ==>
              && q.id in t.reservations && t.reservations[q.id].IsPending()
              && t.reservations[q.id].accountId in t.accounts
              && (t1, r) == SettleAt(t, q.id, q.key.value, r.cost)
  {
  }

  lemma SettleReservationKeeps(t: Tables, rates: RateTable, q: SettleRequest, t1: Tables, r: SettlementResult)
    requires Inv(t) && SettleReservation(t, rates, q) == Ok((t1, r))
    ensures Inv(Record(t1, [SettlementEvent(r)]))
  {
    SettlementShape(t, rates, q, t1, r);
    if q.key.value in t.idempotency {
      ReplayedSettlementKeeps(t, q, q.key.value, t1, r);
    } else {
      SettleAtKeeps(t, q.id, q.key.value, r.cost, t1, r);
    }
  }

  lemma SettleKeeps(t: Tables, rates: RateTable, q: SettleRequest, t1: Tables, r: SettlementResult)
    requires Inv(t) && SettleReservation(t, rates, q) == Ok((t1, r))
    ensures Inv(Record(t1, SettlementEvents(r)))
  {
    SettleReservationKeeps(t, rates, q, t1, r);
    OverrunEventKeeps(t1, r, Record(t1, SettlementEvents(r)));
  }

  lemma OverrunEventKeeps(t1: Tables, r: SettlementResult, t2: Tables)
    requires Inv(Record(t1, [SettlementEvent(r)])) && t2 == Record(t1, SettlementEvents(r))
    ensures Inv(t2)
  {
    if r.isOverrun {
      var over := OverrunEvent(r.accountId, r.overdraft);
      RecordTwice(t1, SettlementEvent(r), over);
      assert SettlementEvents(r) == [SettlementEvent(r), over];
      NeutralNext(Record(t1, [SettlementEvent(r)]), over, t2);
    } else {
      assert SettlementEvents(r) == [SettlementEvent(r)];
    }
  }

  lemma NeutralNext(t: Tables, e: Event, t': Tables)
    requires Inv(t) && IsNeutral(e) && t' == Record(t, [e])
    ensures Inv(t')
  {
    RecordNeutral(t, e);
  }

  lemma RecordTwice(t: Tables, e: Event, e': Event)
    ensures Record(Record(t, [e]), [e']) == Record(t, [e, e'])
  {
    assert t.outbox + [e] + [e'] == t.outbox + [e, e'];
  }

  // ---------- account operations ----------

  predicate IsAccountEvent(e: Event, id: Id) {
    (e.AccountCreated? || e.LimitUpdated? || e.PeriodReset?) && e.accountId == id
  }

  lemma AccountsAfterAccount(accounts: Accounts, rows: Reservations, es: seq<Event>, id: Id, account': Account, e: Event)
    requires AccountsOk(accounts, rows, es) && IsAccountEvent(e, id)
    requires BalanceOk(account', Extend(TrailOf(es, id), e, id), Holds(rows, id),
                       SettledSpend(rows, id), Overdrafts(rows, id))
    ensures AccountsOk(accounts[id := account'], rows, es + [e])
  {
    forall a: Id
      ensures a != id ==> SameFigures(rows, es, rows, es + [e], a)
      ensures a == id ==> TrailOf(es + [e], a) == Extend(TrailOf(es, id), e, id)
    {
      TrailAppend(es, e, a);
    }
    AccountsFollow(accounts, rows, es, id, account', rows, es + [e]);
  }

  // An operation on one account alone, with the event that tells it.
  lemma AccountMoves(t: Tables, id: Id, account': Account, e: Event, t': Tables)
    requires Inv(t) && IsAccountEvent(e, id)
    requires var rows := t.reservations;
             BalanceOk(account', Extend(TrailOf(t.outbox, id), e, id), Holds(rows, id),
                       SettledSpend(rows, id), Overdrafts(rows, id))
    requires t' == Record(t.(accounts := t.accounts[id := account']), [e])
    ensures Inv(t')
  {
    AccountsAfterAccount(t.accounts, t.reservations, t.outbox, id, account', e);
    BillsAppend(t.outbox, e);
  }

  lemma NoRowsForAbsentAccount(t: Tables, a: Id)
    requires Inv(t) && a !in t.accounts
    ensures Holds(t.reservations, a) == 0 && SettledSpend(t.reservations, a) == 0 && Overdrafts(t.reservations, a) == 0
  {
    SumZero(t.reservations, HoldFor(a));
    SumZero(t.reservations, SettledFor(a));
    SumZero(t.reservations, OverdraftFor(a));
  }

  lemma CreateAccountKeeps(t: Tables, id: Id, projectId: Option<string>, limit: int, t': Tables)
    requires Inv(t) && CreateAccount(t, id, projectId, limit) == Ok(t')
    ensures Inv(t')
  {
    if id in t.accounts {
      assert AccountOk(t.accounts[id], t.reservations, t.outbox, id);
    } else {
      NoRowsForAbsentAccount(t, id);
      assert Untold(TrailOf(t.outbox, id));
    }
    AccountMoves(t, id, t'.accounts[id], AccountCreated(id, limit), t');
  }

  lemma UpdateLimitKeeps(t: Tables, accountId: Option<Id>, limit: int, t': Tables)
    requires Inv(t) && UpdateLimit(t, accountId, limit) == Ok(t')
    ensures Inv(t')
  {
    var id := Target(t, accountId).value;
    assert AccountOk(t.accounts[id], t.reservations, t.outbox, id);
    AccountMoves(t, id, t'.accounts[id], LimitUpdated(id, limit), t');
  }

  lemma RolloverKeeps(t: Tables, accountId: Option<Id>, newLimit: Option<int>, t': Tables)
    requires Inv(t) && Rollover(t, accountId, newLimit) == Ok(t')
    ensures Inv(t')
  {
    var id := Target(t, accountId).value;
    var account := t.accounts[id];
    assert AccountOk(account, t.reservations, t.outbox, id);
    AccountMoves(t, id, t'.accounts[id], PeriodReset(id, account.committed, newLimit.GetOr(account.limit)), t');
  }

  // ---------- recovery ----------

  lemma RecoveredSums(rows: Reservations, a: Id)
    ensures Holds(RecoveredRows(rows), a) == SurvivingHolds(rows, a) <= Holds(rows, a)
    ensures SettledSpend(RecoveredRows(rows), a) == SettledSpend(rows, a)
    ensures Overdrafts(RecoveredRows(rows), a) == Overdrafts(rows, a)
  {
    var rows' := RecoveredRows(rows);
    SumCongruent(rows', HoldFor(a), rows, SurvivorFor(a));
    SumMonotone(rows, SurvivorFor(a), rows, HoldFor(a));
    SumCongruent(rows', SettledFor(a), rows, SettledFor(a));
    SumCongruent(rows', OverdraftFor(a), rows, OverdraftFor(a));
  }

  lemma NoSurvivors(rows: Reservations, a: Id)
    requires !HasSurvivor(rows, a)
    ensures SurvivingHolds(rows, a) == 0
  {
    SumZero(rows, SurvivorFor(a));
  }

  lemma RecoveredBalance(account: Account, trail: Trail, rows: Reservations, a: Id, account': Account, revisited: bool)
    requires BalanceOk(account, trail, Holds(rows, a), SettledSpend(rows, a), Overdrafts(rows, a))
    requires revisited || (!account.kind.Global? && SurvivingHolds(rows, a) == 0)
    requires account' == if revisited
                         then account.(reserved := SurvivingHolds(rows, a), state := StateUnderLimit(account, account.limit))
                         else account
    ensures var rows' := RecoveredRows(rows);
            BalanceOk(account', trail.(recovered := true), Holds(rows', a), SettledSpend(rows', a), Overdrafts(rows', a))
  {
    RecoveredSums(rows, a);
  }

  lemma RecoverAccountKeeps(t: Tables, a: Id, es': seq<Event>, report: RecoveryReport)
    requires AccountsOk(t.accounts, t.reservations, t.outbox) && a in t.accounts
    requires es' == t.outbox + [RecoveryCompleted(report)]
    ensures AccountOk(RecoveredAccount(t, a), RecoveredRows(t.reservations), es', a)
  {
    assert AccountOk(t.accounts[a], t.reservations, t.outbox, a);
    TrailAppend(t.outbox, RecoveryCompleted(report), a);
    if !HasSurvivor(t.reservations, a) {
      NoSurvivors(t.reservations, a);
    }
    RecoveredBalance(t.accounts[a], TrailOf(t.outbox, a), t.reservations, a, RecoveredAccount(t, a), Revisited(t, a));
  }

  lemma RecoverKeepsAccounts(t: Tables, es': seq<Event>, report: RecoveryReport)
    requires AccountsOk(t.accounts, t.reservations, t.outbox)
    requires es' == t.outbox + [RecoveryCompleted(report)]
    ensures AccountsOk(RecoveredAccounts(t), RecoveredRows(t.reservations), es')
  {
    forall a | a in t.accounts ensures AccountOk(RecoveredAccounts(t)[a], RecoveredRows(t.reservations), es', a) {
      RecoverAccountKeeps(t, a, es', report);
    }
    forall a: Id | a !in t.accounts ensures Untold(TrailOf(es', a)) {
      TrailAppend(t.outbox, RecoveryCompleted(report), a);
      assert Untold(TrailOf(t.outbox, a));
    }
  }

  lemma RecoverKeepsTrails(t: Tables, rows': Reservations, es': seq<Event>)
    requires Inv(t) && rows' == RecoveredRows(t.reservations) && es' == t.outbox + [RecoveryCompleted(ReportOf(t))]
    ensures RecordsOk(rows', t.idempotency) && BillsOk(rows', BillsOf(es')) && EventsAgree(rows', es')
  {
    RecoveredRowsKeepTerms(t.accounts, t.reservations);
    RecordsFollow(t.reservations, rows', t.idempotency);
    BillsFollow(t.reservations, rows', BillsOf(t.outbox));
    BillsAppend(t.outbox, RecoveryCompleted(ReportOf(t)));
    EventsFollow(t.reservations, rows', t.outbox);
    EventAgrees(rows', t.outbox, RecoveryCompleted(ReportOf(t)));
  }

  lemma RecoverKeeps(t: Tables)
    requires Inv(t)
    ensures Inv(Recover(t))
  {
    RecoverKeepsAccounts(t, Recover(t).outbox, ReportOf(t));
    RecoveredRowsKeepTerms(t.accounts, t.reservations);
    RowsFollow(t.accounts, t.reservations, RecoveredAccounts(t), RecoveredRows(t.reservations));
    RecoverKeepsTrails(t, RecoveredRows(t.reservations), Recover(t).outbox);
  }

  lemma RecoveredRowsKeepTerms(accounts: Accounts, rows: Reservations)
    requires RowsOk(accounts, rows)
    ensures RowsKeepTerms(rows, RecoveredRows(rows))
    ensures forall r | r in RecoveredRows(rows) :: RowOk(RecoveredRows(rows)[r])
    ensures forall r | r in rows && RecoveredRows(rows)[r].state.Settled? :: rows[r].state.Settled?
  {
    forall r | r in rows
      ensures SameTerms(rows[r], RecoveredRows(rows)[r]) && RowOk(RecoveredRows(rows)[r])
    {
      assert RowOk(rows[r]);
    }
  }

  // ---------- runs ----------

  lemma AccountCallKeeps(t: Tables, q: Request, t': Tables)
    requires Inv(t) && Apply(t, q) == Ok(t')
    requires q.CreateGlobalRequest? || q.CreateProjectRequest? || q.UpdateLimitRequest? || q.RolloverRequest?
    ensures Inv(t')
  {
    match q
    case CreateGlobalRequest(limit) => CreateAccountKeeps(t, GLOBAL_ID, None, limit, t');
    case CreateProjectRequest(projectId, limit) =>
      CreateAccountKeeps(t, ProjectAccountId(projectId), Some(projectId), limit, t');
    case UpdateLimitRequest(accountId, limit) => UpdateLimitKeeps(t, accountId, limit, t');
    case RolloverRequest(accountId, newLimit) => RolloverKeeps(t, accountId, newLimit, t');
  }

  lemma DispatchCallKeeps(t: Tables, q: Request, t': Tables)
    requires Inv(t) && Apply(t, q) == Ok(t') && (q.MarkDispatchedCall? || q.ClaimCall?)
    ensures Inv(t')
  {
    if q.MarkDispatchedCall? {
      MarkDispatchedKeeps(t, q.id, t');
    } else {
      ClaimKeeps(t, q.claim, t');
    }
  }

  lemma ClosingCallKeeps(t: Tables, q: Request, t': Tables)
    requires Inv(t) && Apply(t, q) == Ok(t') && (q.ReleaseCall? || q.RecordUnknownCall?)
    ensures Inv(t')
  {
    if q.ReleaseCall? {
      ReleaseKeeps(t, q.id, t');
    } else {
      RecordUnknownKeeps(t, q.id, t');
    }
  }

  lemma ApplyKeeps(t: Tables, q: Request, t': Tables)
    requires Inv(t) && Apply(t, q) == Ok(t')
    ensures Inv(t')
  {
    if q.ReserveCall? {
      ReserveKeeps(t, q.rates, q.reserve, t');
    } else if q.SettleCall? {
      SettleCallKeeps(t, q.rates, q.settle, t');
    } else if q.RecoverCall? {
      RecoverKeeps(t);
    } else if q.MarkDispatchedCall? || q.ClaimCall? {
      DispatchCallKeeps(t, q, t');
    } else if q.ReleaseCall? || q.RecordUnknownCall? {
      ClosingCallKeeps(t, q, t');
    } else {
      AccountCallKeeps(t, q, t');
    }
  }

  lemma ReserveKeeps(t: Tables, rates: RateTable, q: ReserveRequest, t': Tables)
    requires Inv(t) && First(Reserve(t, rates, q)) == Ok(t')
    ensures Inv(t')
  {
    var (t1, id) := PrepareReservation(t, rates, q).value;
    ReservationShape(t, rates, q, t1, id);
    PrepareReservationKeeps(t, rates, q, t1, id);
    var e := ReservedEvent(id, t1.reservations[id].accountId, t1.reservations[id].held);
    RecordNeutral(t1, e);
    assert t' == Record(t1, [e]);
  }

  lemma MarkDispatchedKeeps(t: Tables, id: Id, t': Tables)
    requires Inv(t) && MarkDispatched(t, id) == Ok(t')
    ensures Inv(t')
  {
    PrepareDispatchKeeps(t, id, PrepareDispatch(t, id).value);
    RecordNeutral(PrepareDispatch(t, id).value, DispatchedEvent(id));
  }

  lemma SettleCallKeeps(t: Tables, rates: RateTable, q: SettleRequest, t': Tables)
    requires Inv(t) && First(Settle(t, rates, q)) == Ok(t')
    ensures Inv(t')
  {
    var (t1, r) := SettleReservation(t, rates, q).value;
    SettleKeeps(t, rates, q, t1, r);
  }

  lemma ReleaseKeeps(t: Tables, id: Id, t': Tables)
    requires Inv(t) && Release(t, id) == Ok(t')
    ensures Inv(t')
  {
    ReleaseReservationKeeps(t, id, ReleaseReservation(t, id).value);
    RecordNeutral(ReleaseReservation(t, id).value, ReleasedEvent(id));
  }

  lemma RecordUnknownKeeps(t: Tables, id: Id, t': Tables)
    requires Inv(t) && RecordUnknown(t, id) == Ok(t')
    ensures Inv(t')
  {
    HoldUnknownKeeps(t, id, HoldUnknown(t, id).value);
    RecordNeutral(HoldUnknown(t, id).value, UnknownEvent(id));
  }

  lemma ExecKeeps(t: Tables, q: Request)
    requires Inv(t)
    ensures Inv(Exec(t, q))
  {
    if Apply(t, q).Ok? {
      ApplyKeeps(t, q, Apply(t, q).value);
    }
  }

  lemma {:induction false} RunKeeps(t: Tables, calls: seq<Request>)
    requires Inv(t)
    ensures Inv(Run(t, calls))
    decreases |calls|
  {
    if calls != [] {
      ExecKeeps(t, calls[0]);
      RunKeeps(Exec(t, calls[0]), calls[1..]);
    }
  }

  /** Whatever calls any clients make, in any order, the invariant holds. */
  lemma ReachableInv(calls: seq<Request>)
    ensures Inv(Run(EMPTY, calls))
  {
    RunKeeps(EMPTY, calls);
  }
}
