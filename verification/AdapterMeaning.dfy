/** What a budgeted call asks of the ledger and how it ends, written out case by case. */
module AdapterMeaning {
  import opened Wrappers
  import opened BudgetTypes
  import opened PricingEngine
  import opened Ledger
  import opened LedgerRuns
  import opened LedgerMeaning
  import opened AdapterProtocol
  import U = UsageNormalizer

  /** The reservation a call makes: the whole estimate, billed to the endpoint's provider on the global account. */
  predicate IsReservationOf(c: Call, q: ReserveRequest) {
    && q.accountId == None && q.providerId == c.billingProvider && q.modelId == c.model && q.estimate == c.estimate
    && q.key == Some(Id("idemp_res_" + c.correlation + "_att_" + c.attempt)) && q.id == c.freshId && q.auditFault == None
  }

  /** The settlement a call makes: the normalised usage, at the rate of the wrapped provider. */
  predicate IsSettlementOf(c: Call, id: Id, usage: TokenUsage, q: SettleRequest) {
    && q.id == id && q.usage == usage && q.providerId == c.providerName
    && q.key == Some(Id("idemp_set_" + c.correlation + "_att_" + c.attempt))
  }

  /** The rate of the estimate's tier in memory, else the stored one. */
  predicate IsRateOf(c: Call, rate: PricingRate) {
    var known := GetRate(c.rates, c.billingProvider, c.model, c.estimate.serviceTier);
    known == Ok(rate) || (known.Err? && c.storedRate == Some(rate))
  }

  predicate HasNoRate(c: Call) {
    GetRate(c.rates, c.billingProvider, c.model, c.estimate.serviceTier).Err? && c.storedRate == None
  }

  /** The report as the call normalises it. */
  predicate IsReportOf(c: Call, rate: PricingRate, report: U.Params, p: U.Params) {
    p == report.(rate := rate, rates := c.rates, providerId := c.billingProvider, modelId := c.model)
  }

  // ---------- before the provider ----------

  /** A refused endpoint, a failed check or a failed reservation ends the call without a reservation. */
  lemma OpeningFails(t: Tables, c: Call, q: ReserveRequest, afterCheck: seq<Request>, afterReserve: seq<Request>)
    requires IsReservationOf(c, q)
    ensures var o, t1 := Open(t, c, afterCheck, afterReserve), Run(t, afterCheck);
            if c.auditFault.Some? then o == Opening(t, None, c.auditFault)
            else if Validate(t, c.rates, q).Err? then o == Opening(t, None, Some(Validate(t, c.rates, q).error))
            else if Reserve(t1, c.rates, q).Err? then o == Opening(t1, None, Some(Reserve(t1, c.rates, q).error))
            else o.id == Some(Reserve(t1, c.rates, q).value.1)
  {
    assert c.ToReserve() == q;
  }

  /** Otherwise the reservation is marked dispatched if it was just made or still PREPARED, and a retry of one that
      was dispatched before goes on as it is. If it has left PREPARED meanwhile the call ends with it as it is. */
  lemma OpeningDispatches(t: Tables, c: Call, q: ReserveRequest, afterCheck: seq<Request>, afterReserve: seq<Request>,
                          t2: Tables, id: Id)
    requires IsReservationOf(c, q) && c.auditFault.None? && Validate(t, c.rates, q).Ok?
    requires Reserve(Run(t, afterCheck), c.rates, q) == Ok((t2, id)) && id in t2.reservations
    ensures var o, t3 := Open(t, c, afterCheck, afterReserve), Run(t2, afterReserve);
            if t2.reservations[id].state != Prepared then o == Opening(t3, Some(id), None)
            else if id in t3.reservations && t3.reservations[id].state in {Prepared, Dispatched} then
              o == Opening(t3.(reservations := t3.reservations[id := t3.reservations[id].(state := Dispatched)],
                               outbox := t3.outbox + [DispatchedEvent(id)]), Some(id), None)
            else
              && o.after == t3 && o.id == Some(id)
              && o.fault == Some(if id in t3.reservations then InvalidReservationState else ReservationNotFound)
  {
    assert c.ToReserve() == q;
    DispatchMeaning(Run(t2, afterReserve), id);
  }

  // ---------- after the provider ----------

  /** The call ends in the given way with its reservation UNKNOWN; if that is terminal or gone it throws instead. */
  predicate EndsHeld(t: Tables, id: Id, closing: Closing, exit: Exit) {
    if id in t.reservations && IsOpen(t.reservations[id]) then
      && closing.exit == exit
      && closing.after == t.(reservations := t.reservations[id := t.reservations[id].(state := Unknown)],
                             outbox := t.outbox + [UnknownEvent(id)])
    else
      && closing.after == t
      && closing.exit == Threw(if id in t.reservations then InvalidReservationState else ReservationNotFound)
  }

  lemma HoldEnds(t: Tables, id: Id, exit: Exit)
    ensures EndsHeld(t, id, Hold(t, id, exit), exit)
  {
    UnknownMeaning(t, id);
  }

  /** A failing provider makes the call fail. */
  lemma ProviderFailureFails(t: Tables, c: Call, id: Id, afterSettle: seq<Request>)
    ensures EndsHeld(t, id, Close(t, c, id, Fails, afterSettle), ProviderFailed)
  {
    HoldEnds(t, id, ProviderFailed);
  }

  /** Without a price the call throws. */
  lemma MissingPriceThrows(t: Tables, c: Call, id: Id, report: U.Params, afterSettle: seq<Request>)
    requires HasNoRate(c)
    ensures EndsHeld(t, id, Close(t, c, id, Responds(report), afterSettle), Threw(PricingNotFound))
  {
    HoldEnds(t, id, Threw(PricingNotFound));
  }

  /** A report that does not normalise returns the response. */
  lemma UnclearReportReturns(t: Tables, c: Call, id: Id, report: U.Params, rate: PricingRate, p: U.Params,
                             afterSettle: seq<Request>)
    requires IsRateOf(c, rate) && IsReportOf(c, rate, report, p) && U.NormalizeAndReconcile(p).Err?
    ensures EndsHeld(t, id, Close(t, c, id, Responds(report), afterSettle), Returned)
  {
    HoldEnds(t, id, Returned);
  }

  /** A report that normalises is settled and the response returned; if the settlement fails the call throws its
      error, with the reservation held. */
  lemma ClearReportSettles(t: Tables, c: Call, id: Id, report: U.Params, rate: PricingRate, p: U.Params, q: SettleRequest,
                           afterSettle: seq<Request>)
    requires IsRateOf(c, rate) && IsReportOf(c, rate, report, p) && U.NormalizeAndReconcile(p).Ok?
    requires IsSettlementOf(c, id, U.NormalizeAndReconcile(p).value.usage, q)
    ensures var closing := Close(t, c, id, Responds(report), afterSettle);
            match Settle(t, c.rates, q)
            case Ok((t', r)) => closing == Closing(t', Returned)
            case Err(e) => closing == Closing(Exec(Run(t, afterSettle), RecordUnknownCall(id)), Threw(e))
  {
    assert c.ToSettle(id, U.NormalizeAndReconcile(p).value.usage) == q;
  }
}
