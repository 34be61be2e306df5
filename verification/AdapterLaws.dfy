/** Every exit of a budgeted call keeps the hold or closes it, and spends only what a normalised report is worth. */
module AdapterLaws {
  import opened Wrappers
  import opened BudgetTypes
  import opened PricingEngine
  import opened Ledger
  import opened LedgerRuns
  import opened LedgerInvariant
  import opened LedgerSteps
  import opened LifeCycle
  import opened AdapterProtocol

  predicate InFlight(row: Reservation) {
    row.state.Prepared? || row.state.Dispatched?
  }

  // ---------- keys ----------

  lemma KeysNeverMeet(correlation: string, attempt: string, correlation': string, attempt': string)
    ensures ReservationKey(correlation, attempt) != SettlementKey(correlation', attempt')
  {
    assert ReservationKey(correlation, attempt).text[6] == 'r';
    assert SettlementKey(correlation', attempt').text[6] == 's';
  }

  // The underscore before the attempt is the last one of the text.
  lemma LastUnderscore(c: string, a: string, s: string)
    requires IsAttempt(a) && s == c + "_att_" + a
    ensures s[|s| - |a| - 1] == '_' && forall k | |s| - |a| <= k < |s| :: s[k] != '_'
    ensures s[..|s| - |a| - 5] == c && s[|s| - |a|..] == a
  {
    forall k | |s| - |a| <= k < |s| ensures s[k] != '_' {
      assert s[k] == a[k - (|s| - |a|)];
    }
  }

  /** Two calls share their keys only if they have the same correlation and the same attempt. */
  lemma KeysAreInjective(c: string, a: string, c': string, a': string)
    requires IsAttempt(a) && IsAttempt(a')
    requires ReservationKey(c, a) == ReservationKey(c', a') || SettlementKey(c, a) == SettlementKey(c', a')
    ensures c == c' && a == a'
  {
    var s, s' := c + "_att_" + a, c' + "_att_" + a';
    if ReservationKey(c, a) == ReservationKey(c', a') {
      SamePrefix("idemp_res_", ReservationKey(c, a).text, c, a, s);
      SamePrefix("idemp_res_", ReservationKey(c', a').text, c', a', s');
    } else {
      SamePrefix("idemp_set_", SettlementKey(c, a).text, c, a, s);
      SamePrefix("idemp_set_", SettlementKey(c', a').text, c', a', s');
    }
    LastUnderscore(c, a, s);
    LastUnderscore(c', a', s');
  }

  lemma SamePrefix(prefix: string, key: string, c: string, a: string, s: string)
    requires key == prefix + c + "_att_" + a && s == c + "_att_" + a
    ensures key[|prefix|..] == s
  {
    assert key == prefix + s;
  }

  // ---------- no exit leaves a reservation in flight ----------

  lemma HoldEndsFlight(t: Tables, id: Id, exit: Exit)
    requires id in t.reservations
    ensures id in Hold(t, id, exit).after.reservations && !InFlight(Hold(t, id, exit).after.reservations[id])
    ensures id in Exec(t, RecordUnknownCall(id)).reservations
    ensures !InFlight(Exec(t, RecordUnknownCall(id)).reservations[id])
  {
  }

  /** The settlement key already carries the settlement of a different reservation. */
  predicate KeyTaken(t: Tables, key: Id, id: Id) {
    key in t.idempotency && t.idempotency[key].SettleRecord? && t.idempotency[key].reservationId != id
  }

  lemma SettlingEndsFlight(t: Tables, rates: RateTable, q: SettleRequest, t1: Tables, r: SettlementResult)
    requires RecordsOk(t.reservations, t.idempotency) && q.id in t.reservations
    requires SettleReservation(t, rates, q) == Ok((t1, r))
    ensures q.key.Some? && q.id in t1.reservations
    ensures InFlight(t1.reservations[q.id]) <==> InFlight(t.reservations[q.id]) && KeyTaken(t, q.key.value, q.id)
  {
    SettlementShape(t, rates, q, t1, r);
    if q.key.value in t.idempotency {
      assert RecordOk(t.idempotency[q.key.value], t.reservations, q.key.value);
    }
  }

  /** After the provider is done the reservation is UNKNOWN or terminal, whatever the provider did and whatever
      others do meanwhile. The one exception: it was in flight, the reply normalises, and the settlement key already
      carries the settlement of a different reservation, so that the settlement is taken for a retry. */
  lemma EveryExitEndsFlight(t: Tables, c: Call, id: Id, reply: Reply, afterSettle: seq<Request>)
    requires Inv(t) && id in t.reservations
    ensures var end := Close(t, c, id, reply, afterSettle).after;
            && id in end.reservations
            && (InFlight(end.reservations[id]) <==>
                  InFlight(t.reservations[id]) && ToBill(c, reply).Some?
                  && KeyTaken(t, SettlementKey(c.correlation, c.attempt), id))
  {
    FinishEndsFlight(t, c, id, ToBill(c, reply), HeldExit(c, reply), afterSettle);
  }

  lemma FinishEndsFlight(t: Tables, c: Call, id: Id, bill: Option<TokenUsage>, exit: Exit, afterSettle: seq<Request>)
    requires Inv(t) && id in t.reservations
    ensures var end := Finish(t, c, id, bill, exit, afterSettle).after;
            && id in end.reservations
            && (InFlight(end.reservations[id]) <==>
                  InFlight(t.reservations[id]) && bill.Some? && KeyTaken(t, SettlementKey(c.correlation, c.attempt), id))
  {
    HoldEndsFlight(t, id, exit);
    if bill.Some? {
      SettleOrHoldEndsFlight(t, c.rates, c.ToSettle(id, bill.value), afterSettle);
    }
  }

  lemma SettleOrHoldEndsFlight(t: Tables, rates: RateTable, q: SettleRequest, afterSettle: seq<Request>)
    requires RowsOk(t.accounts, t.reservations) && RecordsOk(t.reservations, t.idempotency)
    requires q.id in t.reservations && q.key.Some?
    ensures var end := SettleOrHold(t, rates, q, afterSettle).after;
            && q.id in end.reservations
            && (InFlight(end.reservations[q.id]) <==> InFlight(t.reservations[q.id]) && KeyTaken(t, q.key.value, q.id))
  {
    if KeyTaken(t, q.key.value, q.id) {
      TakenKeyReplays(t, rates, q);
    }
    match SettleReservation(t, rates, q)
    case Ok((t1, r)) => SettlingEndsFlight(t, rates, q, t1, r);
    case Err(e) => HeldAfterFailure(t, q.id, afterSettle);
  }

  lemma HeldAfterFailure(t: Tables, id: Id, afterSettle: seq<Request>)
    requires id in t.reservations
    ensures var end := Exec(Run(t, afterSettle), RecordUnknownCall(id));
            id in end.reservations && !InFlight(end.reservations[id])
  {
    RunFollows(t, afterSettle);
    HoldEndsFlight(Run(t, afterSettle), id, Returned);
  }

  lemma TakenKeyReplays(t: Tables, rates: RateTable, q: SettleRequest)
    requires RowsOk(t.accounts, t.reservations) && q.id in t.reservations
    requires q.key.Some? && KeyTaken(t, q.key.value, q.id)
    ensures SettleReservation(t, rates, q).Ok?
  {
    assert t.reservations[q.id].accountId in t.accounts;
    assert SettleReservation(t, rates, q) == ReplaySettlement(t, q, q.key.value);
  }

  /** A call that ends before the provider is asked, although it has a reservation, leaves it out of flight too. */
  lemma EarlyExitEndsFlight(t: Tables, c: Call, afterCheck: seq<Request>, afterReserve: seq<Request>)
    ensures var o := Open(t, c, afterCheck, afterReserve);
            && (o.id.Some? ==> o.id.value in o.after.reservations
                               && o.after.reservations[o.id.value].idempotencyKey == ReservationKey(c.correlation, c.attempt))
            && (o.id.Some? && o.fault.Some? ==> !InFlight(o.after.reservations[o.id.value]))
            && (o.id.None? ==> o.fault.Some?)
  {
    var t1 := Run(t, afterCheck);
    if c.auditFault.None? && Validate(t, c.rates, c.ToReserve()).Ok? && Reserve(t1, c.rates, c.ToReserve()).Ok? {
      var (t2, id) := PrepareReservation(t1, c.rates, c.ToReserve()).value;
      ReservationShape(t1, c.rates, c.ToReserve(), t2, id);
      var t3 := Reserve(t1, c.rates, c.ToReserve()).value.0;
      assert t3.reservations == t2.reservations;
      DispatchOutcome(t3, id, afterReserve);
    }
  }

  lemma DispatchOutcome(t: Tables, id: Id, afterReserve: seq<Request>)
    requires id in t.reservations
    ensures var o := OpenDispatch(t, id, afterReserve);
            && o.id == Some(id) && id in o.after.reservations
            && o.after.reservations[id].idempotencyKey == t.reservations[id].idempotencyKey
            && (o.fault.Some? ==> !InFlight(o.after.reservations[id]))
  {
    RunFollows(t, afterReserve);
    assert Advances(t.reservations[id], Run(t, afterReserve).reservations[id]);
  }

  /** Once out of flight, a reservation is never in flight again. */
  lemma OutOfFlightForGood(t: Tables, id: Id, calls: seq<Request>)
    requires id in t.reservations && !InFlight(t.reservations[id])
    ensures id in Run(t, calls).reservations && !InFlight(Run(t, calls).reservations[id])
  {
    RunFollows(t, calls);
    assert Advances(t.reservations[id], Run(t, calls).reservations[id]);
  }

  // ---------- who else may use the keys ----------

  /** The settlement key is unused, or it carries the settlement of the reservation made under the reservation key. */
  predicate KeysPaired(t: Tables, resKey: Id, setKey: Id) {
    setKey in t.idempotency ==>
      && t.idempotency[setKey].SettleRecord?
      && t.idempotency[setKey].reservationId in t.reservations
      && t.reservations[t.idempotency[setKey].reservationId].idempotencyKey == resKey
  }

  /** A client that respects the pairing: it reserves nothing under the settlement key and settles under it only
      the reservation made under the reservation key. */
  predicate Respects(t: Tables, q: Request, resKey: Id, setKey: Id) {
    match q
    case ReserveCall(_, reserve) => reserve.key != Some(setKey)
    case SettleCall(_, settle) =>
      settle.key == Some(setKey) && settle.id in t.reservations ==> t.reservations[settle.id].idempotencyKey == resKey
    case _ => true
  }

  /** Every other adapter call, and every retry of the same one, respects the pairing of a call's two keys. */
  lemma AdapterCallsRespect(t: Tables, c: Call, other: Call, id: Id, usage: TokenUsage)
    requires IsAttempt(c.attempt) && IsAttempt(other.attempt)
    requires id in t.reservations ==> t.reservations[id].idempotencyKey == ReservationKey(other.correlation, other.attempt)
    ensures var resKey, setKey := ReservationKey(c.correlation, c.attempt), SettlementKey(c.correlation, c.attempt);
            && Respects(t, ReserveCall(other.rates, other.ToReserve()), resKey, setKey)
            && Respects(t, SettleCall(other.rates, other.ToSettle(id, usage)), resKey, setKey)
  {
    KeysNeverMeet(other.correlation, other.attempt, c.correlation, c.attempt);
    if SettlementKey(other.correlation, other.attempt) == SettlementKey(c.correlation, c.attempt) {
      KeysAreInjective(other.correlation, other.attempt, c.correlation, c.attempt);
    }
  }

  ghost predicate AllRespect(t: Tables, calls: seq<Request>, resKey: Id, setKey: Id)
    decreases |calls|
  {
    calls == [] || (Respects(t, calls[0], resKey, setKey) && AllRespect(Exec(t, calls[0]), calls[1..], resKey, setKey))
  }

  // A new settlement key stays out of the table or is paired.
  lemma NewKeyPaired(t: Tables, q: Request, t': Tables, resKey: Id, setKey: Id)
    requires setKey !in t.idempotency && Respects(t, q, resKey, setKey) && Apply(t, q) == Ok(t')
    requires !q.ReserveCall? && !q.SettleCall?
    ensures KeysPaired(t', resKey, setKey)
  {
    if q.ClaimCall? {
      ClaimShape(t, q.claim, t');
    }
  }

  lemma ReserveKeepsPairing(t: Tables, rates: RateTable, q: ReserveRequest, t1: Tables, id: Id, resKey: Id, setKey: Id)
    requires setKey !in t.idempotency && q.key != Some(setKey) && PrepareReservation(t, rates, q) == Ok((t1, id))
    ensures KeysPaired(t1, resKey, setKey)
  {
    ReservationShape(t, rates, q, t1, id);
  }

  lemma SettleKeepsPairing(t: Tables, rates: RateTable, q: SettleRequest, t1: Tables, r: SettlementResult, resKey: Id, setKey: Id)
    requires setKey !in t.idempotency && SettleReservation(t, rates, q) == Ok((t1, r))
    requires q.key == Some(setKey) && q.id in t.reservations ==> t.reservations[q.id].idempotencyKey == resKey
    ensures KeysPaired(t1, resKey, setKey)
  {
    SettlementShape(t, rates, q, t1, r);
  }

  lemma ApplyKeepsPairing(t: Tables, q: Request, t': Tables, resKey: Id, setKey: Id)
    requires KeysPaired(t, resKey, setKey) && Respects(t, q, resKey, setKey) && Apply(t, q) == Ok(t')
    ensures KeysPaired(t', resKey, setKey)
  {
    if setKey in t.idempotency {
      OldKeyStaysPaired(t, q, t', resKey, setKey);
    } else if q.ReserveCall? {
      var (t1, id) := PrepareReservation(t, q.rates, q.reserve).value;
      ReserveKeepsPairing(t, q.rates, q.reserve, t1, id, resKey, setKey);
    } else if q.SettleCall? {
      var (t1, r) := SettleReservation(t, q.rates, q.settle).value;
      SettleKeepsPairing(t, q.rates, q.settle, t1, r, resKey, setKey);
    } else {
      NewKeyPaired(t, q, t', resKey, setKey);
    }
  }

  lemma OldKeyStaysPaired(t: Tables, q: Request, t': Tables, resKey: Id, setKey: Id)
    requires KeysPaired(t, resKey, setKey) && setKey in t.idempotency && Apply(t, q) == Ok(t')
    ensures KeysPaired(t', resKey, setKey)
  {
    ApplyAdvancesRows(t, q, t');
    ApplyGrows(t, q, t');
    var id := t.idempotency[setKey].reservationId;
    assert Advances(t.reservations[id], t'.reservations[id]);
  }

  lemma {:induction false} RunKeepsPairing(t: Tables, calls: seq<Request>, resKey: Id, setKey: Id)
    requires KeysPaired(t, resKey, setKey) && AllRespect(t, calls, resKey, setKey)
    ensures KeysPaired(Run(t, calls), resKey, setKey)
    decreases |calls|
  {
    if calls != [] {
      if Apply(t, calls[0]).Ok? {
        ApplyKeepsPairing(t, calls[0], Apply(t, calls[0]).value, resKey, setKey);
      }
      RunKeepsPairing(Exec(t, calls[0]), calls[1..], resKey, setKey);
    }
  }

  ghost predicate Sound(t: Tables, resKey: Id, setKey: Id) {
    Inv(t) && KeysPaired(t, resKey, setKey)
  }

  lemma RunIsSound(t: Tables, calls: seq<Request>, resKey: Id, setKey: Id)
    requires Sound(t, resKey, setKey) && AllRespect(t, calls, resKey, setKey)
    ensures Sound(Run(t, calls), resKey, setKey)
  {
    RunKeeps(t, calls);
    RunKeepsPairing(t, calls, resKey, setKey);
  }

  lemma ExecIsSound(t: Tables, q: Request, resKey: Id, setKey: Id)
    requires Sound(t, resKey, setKey) && Respects(t, q, resKey, setKey)
    ensures Sound(Exec(t, q), resKey, setKey)
  {
    ExecKeeps(t, q);
    if Apply(t, q).Ok? {
      ApplyKeepsPairing(t, q, Apply(t, q).value, resKey, setKey);
    }
  }

  /** The ledger as it stands right after the reservation of a call. */
  ghost function AfterReserve(t: Tables, c: Call, afterCheck: seq<Request>): Tables {
    Exec(Run(t, afterCheck), ReserveCall(c.rates, c.ToReserve()))
  }

  lemma OpeningIsSound(t: Tables, c: Call, afterCheck: seq<Request>, afterReserve: seq<Request>, resKey: Id, setKey: Id)
    requires resKey == ReservationKey(c.correlation, c.attempt) && setKey == SettlementKey(c.correlation, c.attempt)
    requires Sound(t, resKey, setKey) && AllRespect(t, afterCheck, resKey, setKey)
    requires AllRespect(AfterReserve(t, c, afterCheck), afterReserve, resKey, setKey)
    ensures Sound(Open(t, c, afterCheck, afterReserve).after, resKey, setKey)
  {
    var t1, t2 := Run(t, afterCheck), AfterReserve(t, c, afterCheck);
    KeysNeverMeet(c.correlation, c.attempt, c.correlation, c.attempt);
    RunIsSound(t, afterCheck, resKey, setKey);
    ExecIsSound(t1, ReserveCall(c.rates, c.ToReserve()), resKey, setKey);
    RunIsSound(t2, afterReserve, resKey, setKey);
    var o := Open(t, c, afterCheck, afterReserve);
    if o.id.Some? {
      ExecIsSound(Run(t2, afterReserve), MarkDispatchedCall(o.id.value), resKey, setKey);
    }
    OpeningStates(t, c, afterCheck, afterReserve);
  }

  // A call's opening ends in one of the states of the run.
  lemma OpeningStates(t: Tables, c: Call, afterCheck: seq<Request>, afterReserve: seq<Request>)
    ensures var o, t2 := Open(t, c, afterCheck, afterReserve), AfterReserve(t, c, afterCheck);
            || (o.id.None? && (o.after == t || o.after == Run(t, afterCheck)))
            || (o.id.Some? && (o.after == Run(t2, afterReserve)
                               || o.after == Exec(Run(t2, afterReserve), MarkDispatchedCall(o.id.value))))
  {
    var t1 := Run(t, afterCheck);
    if c.auditFault.None? && Validate(t, c.rates, c.ToReserve()).Ok? && Reserve(t1, c.rates, c.ToReserve()).Ok? {
      var (t2, id) := Reserve(t1, c.rates, c.ToReserve()).value;
      assert AfterReserve(t, c, afterCheck) == t2;
      OpenDispatchStates(t2, id, afterReserve);
    }
  }

  lemma OpenDispatchStates(t: Tables, id: Id, afterReserve: seq<Request>)
    ensures var o, t' := OpenDispatch(t, id, afterReserve), Run(t, afterReserve);
            o.id == Some(id) && (o.after == t' || o.after == Exec(t', MarkDispatchedCall(id)))
  {
  }

  /** A first or retried call among clients that respect its keys: from the reservation on, whatever the provider
      and the others do at any point, the call ends with its reservation UNKNOWN or terminal. */
  lemma CallNeverStrandsItsHold(t: Tables, c: Call, afterCheck: seq<Request>, afterReserve: seq<Request>,
                                meanwhile: seq<Request>, reply: Reply, afterSettle: seq<Request>)
    requires var resKey, setKey := ReservationKey(c.correlation, c.attempt), SettlementKey(c.correlation, c.attempt);
             && Sound(t, resKey, setKey) && AllRespect(t, afterCheck, resKey, setKey)
             && AllRespect(AfterReserve(t, c, afterCheck), afterReserve, resKey, setKey)
             && AllRespect(Open(t, c, afterCheck, afterReserve).after, meanwhile, resKey, setKey)
    ensures var o := Open(t, c, afterCheck, afterReserve);
            o.id.Some? ==>
              var end := if o.fault.Some? then o.after
                         else Close(Run(o.after, meanwhile), c, o.id.value, reply, afterSettle).after;
              o.id.value in end.reservations && !InFlight(end.reservations[o.id.value])
  {
    var o := Open(t, c, afterCheck, afterReserve);
    OpeningIsSound(t, c, afterCheck, afterReserve,
                   ReservationKey(c.correlation, c.attempt), SettlementKey(c.correlation, c.attempt));
    EarlyExitEndsFlight(t, c, afterCheck, afterReserve);
    if o.id.Some? && o.fault.None? {
      PairedCallEndsFlight(o.after, c, o.id.value, meanwhile, reply, afterSettle);
    }
  }

  lemma PairedCallEndsFlight(t: Tables, c: Call, id: Id, meanwhile: seq<Request>, reply: Reply, afterSettle: seq<Request>)
    requires Inv(t) && id in t.reservations
    requires t.reservations[id].idempotencyKey == ReservationKey(c.correlation, c.attempt)
    requires KeysPaired(t, ReservationKey(c.correlation, c.attempt), SettlementKey(c.correlation, c.attempt))
    requires AllRespect(t, meanwhile, ReservationKey(c.correlation, c.attempt), SettlementKey(c.correlation, c.attempt))
    ensures var end := Close(Run(t, meanwhile), c, id, reply, afterSettle).after;
            id in end.reservations && !InFlight(end.reservations[id])
  {
    var resKey, setKey := ReservationKey(c.correlation, c.attempt), SettlementKey(c.correlation, c.attempt);
    var t' := Run(t, meanwhile);
    RunKeeps(t, meanwhile);
    RunFollows(t, meanwhile);
    assert Advances(t.reservations[id], t'.reservations[id]);
    RunKeepsPairing(t, meanwhile, resKey, setKey);
    PairedKeyIsOwn(t', id, resKey, setKey);
    EveryExitEndsFlight(t', c, id, reply, afterSettle);
  }

  lemma PairedKeyIsOwn(t: Tables, id: Id, resKey: Id, setKey: Id)
    requires RecordsOk(t.reservations, t.idempotency) && KeysPaired(t, resKey, setKey)
    requires id in t.reservations && t.reservations[id].idempotencyKey == resKey
    ensures !KeyTaken(t, setKey, id)
  {
    if setKey in t.idempotency {
      assert IsReserveRecord(resKey, t.idempotency, id);
      assert IsReserveRecord(resKey, t.idempotency, t.idempotency[setKey].reservationId);
    }
  }

  // ---------- what a call spends ----------

  ghost predicate SameSpend(t: Tables, t': Tables) {
    t.accounts.Keys <= t'.accounts.Keys && forall a | a in t.accounts :: t'.accounts[a].committed == t.accounts[a].committed
  }

  /** Of all public operations only a settlement and a period reset touch the committed spend of an account. */
  lemma OnlySettlementSpends(t: Tables, q: Request, t': Tables)
    requires Apply(t, q) == Ok(t') && !q.SettleCall? && !q.RolloverRequest?
    ensures SameSpend(t, t')
  {
    match q
    case ReserveCall(rates, reserve) =>
      ReservingSpendsNothing(t, rates, reserve, t', Reserve(t, rates, reserve).value.1);
    case ClaimCall(claim) => ClaimShape(t, claim, t');
    case RecoverCall => RecoverySpendsNothing(t);
    case _ =>
  }

  lemma RecoverySpendsNothing(t: Tables)
    ensures SameSpend(t, Recover(t))
  {
  }

  /** A settlement spends the price of the reported usage at the rate of its provider for the row's model, on the
      row's account, once; a replay spends nothing. */
  lemma SettlementSpendsThePrice(t: Tables, rates: RateTable, q: SettleRequest, t1: Tables, r: SettlementResult)
    requires SettleReservation(t, rates, q) == Ok((t1, r))
    ensures q.key.Some?
    ensures q.key.value in t.idempotency ==> SameSpend(t, t1)
    ensures q.key.value !in t.idempotency ==>
              && q.id in t.reservations && t.reservations[q.id].accountId in t.accounts
              && var row := t.reservations[q.id];
              && var rate := GetRate(rates, q.providerId, row.modelId, q.usage.serviceTier);
              && rate.Ok? && CalculateCost(q.usage, rate.value).Ok?
              && var a, cost := row.accountId, CalculateCost(q.usage, rate.value).value;
              && t1.accounts.Keys == t.accounts.Keys
              && forall b | b in t.accounts ::
                   t1.accounts[b].committed == t.accounts[b].committed + if b == a then cost else 0
  {
    if q.key.value in t.idempotency {
      assert SettleReservation(t, rates, q) == ReplaySettlement(t, q, q.key.value);
    }
  }

  /** The part of a call after the provider spends nothing unless it returns normally on a report that normalises;
      the estimate never counts. */
  lemma UnbilledCallSpendsNothing(t: Tables, c: Call, id: Id, reply: Reply)
    ensures var closing := Close(t, c, id, reply, []);
            ToBill(c, reply).None? || !closing.exit.Returned? ==> SameSpend(t, closing.after)
  {
    UnbilledFinishSpendsNothing(t, c, id, ToBill(c, reply), HeldExit(c, reply));
  }

  lemma UnbilledFinishSpendsNothing(t: Tables, c: Call, id: Id, bill: Option<TokenUsage>, exit: Exit)
    ensures var closing := Finish(t, c, id, bill, exit, []);
            bill.None? || !closing.exit.Returned? ==> SameSpend(t, closing.after)
  {
    if RecordUnknown(t, id).Ok? {
      OnlySettlementSpends(t, RecordUnknownCall(id), RecordUnknown(t, id).value);
    }
  }

  /** A call that returns on a report that normalises spends the price of the normalised usage, at the rate of the
      wrapped provider for the row's model, on the account of the reservation, once; a retried settlement spends nothing. */
  lemma BilledCallSpendsThePrice(t: Tables, c: Call, id: Id, reply: Reply)
    requires ToBill(c, reply).Some? && Close(t, c, id, reply, []).exit.Returned?
    ensures Billed(t, c, id, ToBill(c, reply).value, Close(t, c, id, reply, []).after)
  {
    BilledFinish(t, c, id, ToBill(c, reply).value, HeldExit(c, reply));
  }

  ghost predicate Billed(t: Tables, c: Call, id: Id, usage: TokenUsage, t': Tables) {
    if SettlementKey(c.correlation, c.attempt) in t.idempotency then SameSpend(t, t')
    else
      && id in t.reservations && t.reservations[id].accountId in t.accounts && t'.accounts.Keys == t.accounts.Keys
      && var row := t.reservations[id];
      && var rate := GetRate(c.rates, c.providerName, row.modelId, usage.serviceTier);
      && rate.Ok? && CalculateCost(usage, rate.value).Ok?
      && forall b | b in t.accounts ::
           t'.accounts[b].committed
           == t.accounts[b].committed + if b == row.accountId then CalculateCost(usage, rate.value).value else 0
  }

  lemma BilledFinish(t: Tables, c: Call, id: Id, usage: TokenUsage, exit: Exit)
    requires Finish(t, c, id, Some(usage), exit, []).exit.Returned?
    ensures Billed(t, c, id, usage, Finish(t, c, id, Some(usage), exit, []).after)
  {
    var (t1, r) := SettleReservation(t, c.rates, c.ToSettle(id, usage)).value;
    SettlementSpendsThePrice(t, c.rates, c.ToSettle(id, usage), t1, r);
  }

  /** The part before the provider spends nothing. */
  lemma OpeningSpendsNothing(t: Tables, c: Call)
    ensures SameSpend(t, Open(t, c, [], []).after)
  {
    if c.auditFault.None? && Validate(t, c.rates, c.ToReserve()).Ok? && Reserve(t, c.rates, c.ToReserve()).Ok? {
      var (t1, id) := Reserve(t, c.rates, c.ToReserve()).value;
      ReservingSpendsNothing(t, c.rates, c.ToReserve(), t1, id);
      DispatchingSpendsNothing(t1, id);
    }
  }

  lemma ReservingSpendsNothing(t: Tables, rates: RateTable, q: ReserveRequest, t1: Tables, id: Id)
    requires Reserve(t, rates, q) == Ok((t1, id))
    ensures SameSpend(t, t1)
  {
    var (t', id') := PrepareReservation(t, rates, q).value;
    ReservationShape(t, rates, q, t', id');
  }

  lemma DispatchingSpendsNothing(t: Tables, id: Id)
    ensures SameSpend(t, OpenDispatch(t, id, []).after)
  {
  }
}
