/** How rows, records and events may change from one moment of a run to any later one. */
module LifeCycle {
  import opened Wrappers
  import opened PricingEngine
  import opened Ledger
  import opened LedgerRuns
  import opened LedgerInvariant
  import opened LedgerSteps

  function Rank(state: ReservationState): nat {
    match state
    case Prepared => 0
    case Dispatched => 1
    case Unknown => 2
    case Settled => 3
    case Released => 3
  }

  /** A row keeps its terms and its claim and only moves forward; a terminal row is final, and an UNKNOWN
      row can only stay or be settled. */
  predicate Advances(row: Reservation, row': Reservation) {
    && SameTerms(row, row')
    && Rank(row.state) <= Rank(row'.state)
    && (Rank(row.state) == Rank(row'.state) ==> row'.state == row.state)
    && (Rank(row.state) == 3 ==> row' == row)
    && (row.state.Unknown? ==> row'.state.Unknown? || row'.state.Settled?)
    && row.dispatchCount <= row'.dispatchCount
    && (row.claimId.Some? ==> row'.claimId == row.claimId && row'.dispatchCount == row.dispatchCount)
  }

  ghost predicate RowsAdvance(rows: Reservations, rows': Reservations) {
    forall r | r in rows :: r in rows' && Advances(rows[r], rows'[r])
  }

  ghost predicate RecordsGrow(records: Idempotency, records': Idempotency) {
    forall key | key in records :: key in records' && records'[key] == records[key]
  }

  ghost predicate Follows(t: Tables, t': Tables) {
    && RowsAdvance(t.reservations, t'.reservations)
    && RecordsGrow(t.idempotency, t'.idempotency)
    && t.accounts.Keys <= t'.accounts.Keys
    && t.outbox <= t'.outbox
  }

  lemma OneRowAdvances(rows: Reservations, r: Id, row': Reservation)
    requires r in rows ==> Advances(rows[r], row')
    ensures RowsAdvance(rows, rows[r := row'])
  {
  }

  // A claim is only ever stored on a row whose count is still zero.
  lemma ClaimAdvances(t: Tables, c: ClaimRequest, t': Tables)
    requires Claim(t, c) == Ok(t')
    ensures RowsAdvance(t.reservations, t'.reservations)
  {
    ClaimShape(t, c, t');
    OneRowAdvances(t.reservations, c.id, Claimed(t.reservations[c.id], c.claimId.GetOr(c.freshId)));
  }

  lemma SettleAdvances(t: Tables, rates: RateTable, q: SettleRequest, t1: Tables, r: SettlementResult)
    requires SettleReservation(t, rates, q) == Ok((t1, r))
    ensures RowsAdvance(t.reservations, t1.reservations)
  {
    SettlementShape(t, rates, q, t1, r);
    if q.key.value !in t.idempotency {
      OneRowAdvances(t.reservations, q.id, t.reservations[q.id].(state := Settled, settled := r.cost));
    }
  }

  lemma StateAdvances(t: Tables, id: Id, state: ReservationState)
    requires id in t.reservations && t.reservations[id].IsPending()
    requires Rank(t.reservations[id].state) < Rank(state)
    requires t.reservations[id].state.Unknown? ==> state.Settled?
    ensures RowsAdvance(t.reservations, t.reservations[id := t.reservations[id].(state := state)])
  {
    OneRowAdvances(t.reservations, id, t.reservations[id].(state := state));
  }

  lemma ApplyAdvancesRows(t: Tables, q: Request, t': Tables)
    requires Apply(t, q) == Ok(t')
    ensures RowsAdvance(t.reservations, t'.reservations)
  {
    match q
    case ReserveCall(rates, reserve) => ReserveAdvances(t, rates, reserve, t');
    case ClaimCall(claim) => ClaimAdvances(t, claim, t');
    case SettleCall(rates, settle) =>
      var (t1, r) := SettleReservation(t, rates, settle).value;
      SettleAdvances(t, rates, settle, t1, r);
    case MarkDispatchedCall(id) =>
      if t.reservations[id].state.Prepared? {
        StateAdvances(t, id, Dispatched);
      }
    case ReleaseCall(id) =>
      if !t.reservations[id].state.Released? {
        StateAdvances(t, id, Released);
      }
    case RecordUnknownCall(id) =>
      if !t.reservations[id].state.Unknown? {
        StateAdvances(t, id, Unknown);
      } else {
        OneRowAdvances(t.reservations, id, t.reservations[id].(state := Unknown));
      }
    case RecoverCall => RecoveryAdvances(t.reservations);
    case _ =>
  }

  lemma RecoveryAdvances(rows: Reservations)
    ensures RowsAdvance(rows, RecoveredRows(rows))
  {
  }

  lemma ReserveAdvances(t: Tables, rates: RateTable, q: ReserveRequest, t': Tables)
    requires First(Reserve(t, rates, q)) == Ok(t')
    ensures RowsAdvance(t.reservations, t'.reservations)
    ensures RecordsGrow(t.idempotency, t'.idempotency) && t.accounts.Keys <= t'.accounts.Keys && t.outbox <= t'.outbox
  {
    var (t1, id) := PrepareReservation(t, rates, q).value;
    ReservationShape(t, rates, q, t1, id);
  }

  lemma ApplyGrows(t: Tables, q: Request, t': Tables)
    requires Apply(t, q) == Ok(t')
    ensures RecordsGrow(t.idempotency, t'.idempotency) && t.accounts.Keys <= t'.accounts.Keys && t.outbox <= t'.outbox
  {
    match q
    case ReserveCall(rates, reserve) => ReserveAdvances(t, rates, reserve, t');
    case ClaimCall(claim) => ClaimShape(t, claim, t');
    case SettleCall(rates, settle) =>
      var (t1, r) := SettleReservation(t, rates, settle).value;
      SettleGrows(t, rates, settle, t1, r);
    case _ =>
  }

  lemma SettleGrows(t: Tables, rates: RateTable, q: SettleRequest, t1: Tables, r: SettlementResult)
    requires SettleReservation(t, rates, q) == Ok((t1, r))
    ensures RecordsGrow(t.idempotency, t1.idempotency) && t.accounts.Keys <= t1.accounts.Keys && t1.outbox == t.outbox
  {
    SettlementShape(t, rates, q, t1, r);
  }

  lemma ExecFollows(t: Tables, q: Request)
    ensures Follows(t, Exec(t, q))
  {
    if Apply(t, q).Ok? {
      ApplyAdvancesRows(t, q, Apply(t, q).value);
      ApplyGrows(t, q, Apply(t, q).value);
    }
  }

  lemma ExecAdvances(t: Tables, q: Request, r: Id)
    requires r in t.reservations
    ensures r in Exec(t, q).reservations && Advances(t.reservations[r], Exec(t, q).reservations[r])
  {
    ExecFollows(t, q);
  }

  lemma FollowsTransitive(t: Tables, t1: Tables, t2: Tables)
    requires Follows(t, t1) && Follows(t1, t2)
    ensures Follows(t, t2)
  {
    forall r | r in t.reservations ensures r in t2.reservations && Advances(t.reservations[r], t2.reservations[r]) {
      assert Advances(t.reservations[r], t1.reservations[r]);
      assert Advances(t1.reservations[r], t2.reservations[r]);
    }
  }

  /** Over any further calls no row, record or event is lost, rows only advance, and a stored claim stays. */
  lemma {:induction false} RunFollows(t: Tables, calls: seq<Request>)
    ensures Follows(t, Run(t, calls))
    decreases |calls|
  {
    if calls != [] {
      ExecFollows(t, calls[0]);
      RunFollows(Exec(t, calls[0]), calls[1..]);
      FollowsTransitive(t, Exec(t, calls[0]), Run(t, calls));
    }
  }

  /** How often the state of row r changes during the calls. */
  ghost function Changes(t: Tables, calls: seq<Request>, r: Id): nat
    decreases |calls|
  {
    if calls == [] then 0
    else
      var t' := Exec(t, calls[0]);
      var moved := r in t.reservations && r in t'.reservations && t'.reservations[r].state != t.reservations[r].state;
      (if moved then 1 else 0) + Changes(t', calls[1..], r)
  }

  /** A row changes state at most three times in its life. */
  lemma {:induction false} AtMostThreeChanges(t: Tables, calls: seq<Request>, r: Id)
    requires r in t.reservations
    ensures r in Run(t, calls).reservations
    ensures Rank(t.reservations[r].state) + Changes(t, calls, r) <= Rank(Run(t, calls).reservations[r].state) <= 3
    decreases |calls|
  {
    if calls != [] {
      ExecAdvances(t, calls[0], r);
      AtMostThreeChanges(Exec(t, calls[0]), calls[1..], r);
    }
  }
}
