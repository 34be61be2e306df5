/** One budgeted call of a language model: check, reserve, mark dispatched, ask the provider, then settle what
    it reported or keep the hold. Other clients of the ledger may act between any two of its transactions. */
module AdapterProtocol {
  import opened Wrappers
  import opened BudgetTypes
  import opened PricingEngine
  import opened Ledger
  import opened LedgerRuns
  import U = UsageNormalizer

  // ---------- idempotency keys ----------

  function ReservationKey(correlation: string, attempt: string): Id {
    Id("idemp_res_" + correlation + "_att_" + attempt)
  }

  function SettlementKey(correlation: string, attempt: string): Id {
    Id("idemp_set_" + correlation + "_att_" + attempt)
  }

  /** The text of an attempt number: whatever the number is, it has no underscore. */
  predicate IsAttempt(s: string) {
    '_' !in s
  }

  // ---------- the call ----------

  /** `billingProvider` is the provider the endpoint is billed under, `providerName` the wrapped provider's own
      name; `storedRate` is the rate kept in the database, consulted when the in-memory table has none. */
  datatype Call = Call(
    correlation: string, attempt: string, model: string, billingProvider: string, providerName: string,
    estimate: TokenUsage, freshId: Id, auditFault: Option<BudgetError>,
    rates: RateTable, storedRate: Option<PricingRate>)
  {
    function ToReserve(): ReserveRequest {
      ReserveRequest(None, billingProvider, model, estimate, Some(ReservationKey(correlation, attempt)), freshId, None)
    }

    function ToSettle(id: Id, usage: TokenUsage): SettleRequest {
      SettleRequest(id, usage, Some(SettlementKey(correlation, attempt)), providerName)
    }

    function Rate(): Option<PricingRate> {
      match GetRate(rates, billingProvider, model, estimate.serviceTier)
      case Ok(rate) => Some(rate)
      case Err(_) => storedRate
    }
  }

  /** What the wrapped provider does: it throws, or it answers with some report. */
  datatype Reply = Fails | Responds(report: U.Params)

  function Normalize(c: Call, rate: PricingRate, report: U.Params): Result<U.Normalized, BudgetError> {
    U.NormalizeAndReconcile(report.(rate := rate, rates := c.rates, providerId := c.billingProvider, modelId := c.model))
  }

  /** The usage to settle, if the reply leads to a settlement at all. */
  function ToBill(c: Call, reply: Reply): Option<TokenUsage> {
    if reply.Fails? || c.Rate().None? then None
    else
      match Normalize(c, c.Rate().value, reply.report)
      case Ok(normalized) => Some(normalized.usage)
      case Err(_) => None
  }

  datatype Exit = Returned | ProviderFailed | Threw(error: BudgetError)

  /** The state after the steps before the provider is asked: the reservation, if one was made or found, and the
      error that ends the call early, if any. */
  datatype Opening = Opening(after: Tables, id: Option<Id>, fault: Option<BudgetError>)

  /** `afterCheck` and `afterReserve` are what other clients do in between. */
  ghost function Open(t: Tables, c: Call, afterCheck: seq<Request>, afterReserve: seq<Request>): Opening {
    if c.auditFault.Some? then Opening(t, None, c.auditFault)
    else
      match Validate(t, c.rates, c.ToReserve())
      case Err(e) => Opening(t, None, Some(e))
      case Ok(_) =>
        var t1 := Run(t, afterCheck);
        match Reserve(t1, c.rates, c.ToReserve())
        case Err(e) => Opening(t1, None, Some(e))
        case Ok((t2, id)) => OpenDispatch(t2, id, afterReserve)
  }

  /** The state as the reservation returned it decides whether it is marked dispatched. */
  ghost function OpenDispatch(t: Tables, id: Id, afterReserve: seq<Request>): Opening {
    var t' := Run(t, afterReserve);
    if id in t.reservations && t.reservations[id].state.Prepared? then
      match MarkDispatched(t', id)
      case Ok(t3) => Opening(t3, Some(id), None)
      case Err(e) => Opening(t', Some(id), Some(e))
    else Opening(t', Some(id), None)
  }

  datatype Closing = Closing(after: Tables, exit: Exit)

  /** Keeps the hold; a failure to do so replaces the exit. */
  function Hold(t: Tables, id: Id, exit: Exit): Closing {
    match RecordUnknown(t, id)
    case Ok(t') => Closing(t', exit)
    case Err(e) => Closing(t, Threw(e))
  }

  ghost function SettleOrHold(t: Tables, rates: RateTable, q: SettleRequest, afterSettle: seq<Request>): Closing {
    match Settle(t, rates, q)
    case Ok((t', _)) => Closing(t', Returned)
    case Err(e) => Closing(Exec(Run(t, afterSettle), RecordUnknownCall(q.id)), Threw(e))
  }

  /** How the call ends if there is nothing to settle and the hold is kept. */
  function HeldExit(c: Call, reply: Reply): Exit {
    if reply.Fails? then ProviderFailed
    else if c.Rate().None? then Threw(PricingNotFound)
    else Returned
  }

  ghost function Finish(
    t: Tables, c: Call, id: Id, bill: Option<TokenUsage>, exit: Exit, afterSettle: seq<Request>): Closing
  {
    match bill
    case None => Hold(t, id, exit)
    case Some(usage) => SettleOrHold(t, c.rates, c.ToSettle(id, usage), afterSettle)
  }

  /** What happens once the provider is done; `afterSettle` is what others do after a failed settlement. */
  ghost function Close(t: Tables, c: Call, id: Id, reply: Reply, afterSettle: seq<Request>): Closing {
    Finish(t, c, id, ToBill(c, reply), HeldExit(c, reply), afterSettle)
  }
}
