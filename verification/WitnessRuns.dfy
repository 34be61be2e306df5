/** Short runs from the empty ledger that meet the exceptions the laws name: each one is reached. */
module WitnessRuns {
  import opened Wrappers
  import opened BudgetTypes
  import opened PricingEngine
  import opened Ledger
  import opened LedgerRuns
  import opened LedgerInvariant
  import opened LedgerSteps
  import opened LedgerLaws
  import opened AdapterProtocol
  import opened AdapterLaws
  import PricingLookup
  import N = NormalizerLaws
  import U = UsageNormalizer

  // ---------- one price ----------

  /** One nano-USD per token of model "m" of provider "v". */
  const PRICE := PricingRateInput("v", "m", None, 1, 1, 1, 1, None, None, None, None, None, None)

  function Prices(): RateTable {
    Registered(map[], PRICE)
  }

  function Tokens(n: nat): TokenUsage {
    TokenUsage(Integer(n), Integer(0), None, None, None, None, false)
  }

  lemma PriceFound()
    ensures GetRate(Prices(), "v", "m", None) == Ok(RateFrom(PRICE))
    ensures GetRate(Prices(), "v", "m", Some("standard")) == Ok(RateFrom(PRICE))
  {
    PricingLookup.StandardIsLower();
  }

  lemma OneEach(n: nat)
    requires n <= MAX_SAFE_INT64
    ensures CalculateCost(Tokens(n), RateFrom(PRICE)) == Ok(n)
  {
    assert CeilDiv(n * 1, 1) == Ok(n) && CeilDiv(0 * 1, 1) == Ok(0);
  }

  lemma Priced(n: nat)
    requires n <= MAX_SAFE_INT64
    ensures EstimateCost(Prices(), Tokens(n), "v", "m") == Ok(n)
  {
    PriceFound();
    OneEach(n);
  }

  // ---------- reserving ----------

  /** The reservation is possible, costs `cost`, and nothing of it is on record yet. */
  ghost predicate Reservable(t: Tables, rates: RateTable, q: ReserveRequest, a: Id, cost: nat) {
    && q.auditFault.None? && Target(t, q.accountId) == Some(a) && a in t.accounts
    && t.accounts[a].state.Active? && cost <= t.accounts[a].Available()
    && EstimateCost(rates, q.estimate, q.providerId, q.modelId) == Ok(cost)
    && q.key.Some? && q.key.value !in t.idempotency && q.id !in t.reservations
    && forall r | r in t.reservations :: t.reservations[r].idempotencyKey != q.key.value
  }

  ghost function Reserved(t: Tables, q: ReserveRequest, a: Id, cost: nat): Tables
    requires a in t.accounts && q.key.Some?
  {
    Record(AddReservation(t, q, q.key.value, a, cost), [ReservedEvent(q.id, a, cost)])
  }

  lemma ReserveSucceeds(t: Tables, rates: RateTable, q: ReserveRequest, a: Id, cost: nat)
    requires Reservable(t, rates, q, a, cost)
    ensures FindByKey(t.reservations, q.key.value).None? && Validate(t, rates, q) == Ok((a, cost))
    ensures PrepareReservation(t, rates, q) == Ok((AddReservation(t, q, q.key.value, a, cost), q.id))
    ensures Reserve(t, rates, q) == Ok((Reserved(t, q, a, cost), q.id))
    ensures Apply(t, ReserveCall(rates, q)) == Ok(Reserved(t, q, a, cost))
  {
  }

  // ---------- accounts ----------

  function OneAccount(a: Id, account: Account): Tables {
    Tables(map[a := account], map[], map[], [AccountCreated(a, account.limit)])
  }

  lemma OneProject(projectId: string, limit: nat)
    ensures Run(EMPTY, [CreateProjectRequest(projectId, limit)])
            == OneAccount(ProjectAccountId(projectId), Account(Project, Some(projectId), limit, 0, 0, Active))
  {
    RunOne(EMPTY, CreateProjectRequest(projectId, limit));
  }

  lemma OneGlobal(limit: nat)
    ensures Run(EMPTY, [CreateGlobalRequest(limit)]) == OneAccount(GLOBAL_ID, Account(Global, None, limit, 0, 0, Active))
    ensures FindGlobal(OneAccount(GLOBAL_ID, Account(Global, None, limit, 0, 0, Active)).accounts) == Some(GLOBAL_ID)
  {
    RunOne(EMPTY, CreateGlobalRequest(limit));
  }

  // ---------- reserved spend left behind by recovery ----------

  function ProjectRequest(projectId: string, n: nat): ReserveRequest {
    ReserveRequest(Some(ProjectAccountId(projectId)), "v", "m", Tokens(n), Some(Id("k")), Id("r"), None)
  }

  lemma StrandedFrom(first: Request, rates: RateTable, q: ReserveRequest, t: Tables, a: Id, cost: nat)
    requires Run(EMPTY, [first]) == t && Reservable(t, rates, q, a, cost)
    requires t.accounts[a].kind.Project? && t.reservations == map[]
    ensures var t' := Run(EMPTY, [first, ReserveCall(rates, q), RecoverCall]);
            && a in t'.accounts && t'.accounts[a] == t.accounts[a].(reserved := t.accounts[a].reserved + cost)
            && Holds(t'.reservations, a) == 0
  {
    ReserveSucceeds(t, rates, q, a, cost);
    StrandedReservedSpend([first], rates, q);
    assert [first, ReserveCall(rates, q), RecoverCall] == [first] + [ReserveCall(rates, q)] + [RecoverCall];
  }

  lemma ReservableInProject(projectId: string, n: nat, t: Tables, a: Id)
    requires a == ProjectAccountId(projectId) && n <= MAX_SAFE_INT64
    requires t == OneAccount(a, Account(Project, Some(projectId), n, 0, 0, Active))
    ensures Reservable(t, Prices(), ProjectRequest(projectId, n), a, n)
  {
    Priced(n);
  }

  /** A project reserves its whole limit and its client crashes before the dispatch: recovery releases the row and
      leaves the project with the limit reserved, no hold and nothing available. */
  lemma StrandedRun(projectId: string, n: nat)
    requires n <= MAX_SAFE_INT64
    ensures var t := Run(EMPTY, [CreateProjectRequest(projectId, n),
                                 ReserveCall(Prices(), ProjectRequest(projectId, n)), RecoverCall]);
            var a := ProjectAccountId(projectId);
            && a in t.accounts && t.accounts[a].reserved == n && t.accounts[a].Available() == 0
            && Holds(t.reservations, a) == 0
  {
    var first, a := CreateProjectRequest(projectId, n), ProjectAccountId(projectId);
    var t := OneAccount(a, Account(Project, Some(projectId), n, 0, 0, Active));
    OneProject(projectId, n);
    ReservableInProject(projectId, n, t, a);
    StrandedFrom(first, Prices(), ProjectRequest(projectId, n), t, a, n);
  }

  // ---------- checks without guard ----------

  function ClaimFor(projectId: string): ClaimRequest {
    ClaimRequest(Id("r"), None, Id("f"), Some(ProjectAccountId("")), projectId, "v", "m")
  }

  /** A reservation of the project with the empty name passes the checks of a claim that names any other project,
      and the guard of the UPDATE then refuses the claim as already consumed. */
  lemma EmptyProjectRun(projectId: string, n: nat)
    requires projectId != "" && n <= MAX_SAFE_INT64
    ensures var t := Run(EMPTY, [CreateProjectRequest("", n), ReserveCall(Prices(), ProjectRequest("", n))]);
            var c := ClaimFor(projectId);
            && c.Bound() && c.id in t.reservations
            && t.reservations[c.id].dispatchCount == 0 && t.reservations[c.id].claimId.None?
            && VerifyReservation(t, c).Ok? && !ClaimGuard(t, c) && Claim(t, c) == Err(AlreadyConsumed)
  {
    var first, q, a := CreateProjectRequest("", n), ProjectRequest("", n), ProjectAccountId("");
    var t := OneAccount(a, Account(Project, Some(""), n, 0, 0, Active));
    OneProject("", n);
    ReservableInProject("", n, t, a);
    ReserveSucceeds(t, Prices(), q, a, n);
    RunStep([first], ReserveCall(Prices(), q), t, Reserved(t, q, a, n));
    assert [first, ReserveCall(Prices(), q)] == [first] + [ReserveCall(Prices(), q)];
    PassesUnguarded(Reserved(t, q, a, n), ClaimFor(projectId), a);
  }

  lemma PassesUnguarded(t: Tables, c: ClaimRequest, a: Id)
    requires c.Bound() && c.accountId == Some(a) && c.id in t.reservations && a in t.accounts
    requires t.accounts[a].kind.Project? && t.accounts[a].projectId == Some("")
    requires var row := t.reservations[c.id];
             && row.state.Prepared? && row.dispatchCount == 0 && row.claimId.None?
             && row.accountId == a && row.modelId == c.modelId && row.providerId == Some(c.providerId)
    ensures VerifyReservation(t, c).Ok? && !ClaimGuard(t, c) && Claim(t, c) == Err(AlreadyConsumed)
  {
  }

  // ---------- a call whose settlement key is taken ----------

  /** A call of provider "v" for model "m". */
  function CallOf(correlation: string, attempt: string, n: nat, freshId: Id): Call {
    Call(correlation, attempt, "m", "v", "v", Tokens(n), freshId, None, Prices(), None)
  }

  /** A reply whose usage normalises. */
  const REPLY := Responds(U.Params(Ok(U.AuditVerdict(U.OpenAiChatCompletions, false)), None, Some(N.CachedReport(1)),
                                   U.Missing, U.Missing, U.Missing, U.Missing, false, RateFrom(PRICE), map[], "", ""))

  lemma ReplyIsBilled(correlation: string, attempt: string, n: nat, freshId: Id)
    ensures ToBill(CallOf(correlation, attempt, n, freshId), REPLY).Some?
  {
    PriceFound();
    ReplyNormalizes(REPLY.report.(rates := Prices(), providerId := "v", modelId := "m"));
  }

  lemma ReplyNormalizes(p: U.Params)
    requires p == REPLY.report.(rates := Prices(), providerId := "v", modelId := "m")
    ensures U.NormalizeAndReconcile(p).Ok?
  {
    PriceFound();
    N.CachedFields(U.OpenAiChatCompletions, 1);
    assert U.EffectiveTier(p) == "standard";
    N.CachedNormalizes(p, 1);
  }

  ghost predicate Openable(t: Tables, c: Call, a: Id, cost: nat) {
    c.auditFault.None? && Reservable(t, c.rates, c.ToReserve(), a, cost)
  }

  /** The ledger once the call has made and dispatched its reservation. */
  ghost function Opened(t: Tables, c: Call, a: Id, cost: nat): Tables
    requires a in t.accounts
  {
    Exec(Reserved(t, c.ToReserve(), a, cost), MarkDispatchedCall(c.freshId))
  }

  lemma OpensFresh(t: Tables, c: Call, a: Id, cost: nat)
    requires Openable(t, c, a, cost)
    ensures Open(t, c, [], []) == Opening(Opened(t, c, a, cost), Some(c.freshId), None)
  {
    ReserveSucceeds(t, c.rates, c.ToReserve(), a, cost);
  }

  lemma OpenedTables(t: Tables, c: Call, a: Id, cost: nat)
    requires a in t.accounts
    ensures var t' := Opened(t, c, a, cost);
            && c.freshId in t'.reservations && t'.reservations[c.freshId].state.Dispatched?
            && t'.idempotency == t.idempotency[ReservationKey(c.correlation, c.attempt) := ReserveRecord(c.freshId, a, cost)]
  {
  }

  lemma OpenedInv(t: Tables, c: Call, a: Id, cost: nat)
    requires Inv(t) && Openable(t, c, a, cost)
    ensures Inv(Opened(t, c, a, cost))
  {
    ReserveSucceeds(t, c.rates, c.ToReserve(), a, cost);
    ApplyKeeps(t, ReserveCall(c.rates, c.ToReserve()), Reserved(t, c.ToReserve(), a, cost));
    ExecKeeps(Reserved(t, c.ToReserve(), a, cost), MarkDispatchedCall(c.freshId));
  }

  /** If someone settled another reservation under the settlement key of a call, the call, although it opens and
      its reply normalises, takes its own settlement for a retry and returns with its reservation in flight. */
  lemma TakenKeyLeavesFlight(t: Tables, c: Call, a: Id, cost: nat, reply: Reply)
    requires Inv(t) && Openable(t, c, a, cost) && ToBill(c, reply).Some?
    requires KeyTaken(t, SettlementKey(c.correlation, c.attempt), c.freshId)
    ensures var o := Open(t, c, [], []);
            && o.id == Some(c.freshId) && o.fault.None?
            && var end := Close(o.after, c, c.freshId, reply, []).after;
            && c.freshId in end.reservations && InFlight(end.reservations[c.freshId])
  {
    OpensFresh(t, c, a, cost);
    OpenedInv(t, c, a, cost);
    OpenedTaken(t, c, a, cost);
    LeftInFlight(Opened(t, c, a, cost), c, c.freshId, reply);
  }

  lemma OpenedTaken(t: Tables, c: Call, a: Id, cost: nat)
    requires a in t.accounts && KeyTaken(t, SettlementKey(c.correlation, c.attempt), c.freshId)
    ensures var t' := Opened(t, c, a, cost);
            && KeyTaken(t', SettlementKey(c.correlation, c.attempt), c.freshId)
            && c.freshId in t'.reservations && InFlight(t'.reservations[c.freshId])
  {
    OpenedTables(t, c, a, cost);
    KeysNeverMeet(c.correlation, c.attempt, c.correlation, c.attempt);
  }

  lemma LeftInFlight(t: Tables, c: Call, id: Id, reply: Reply)
    requires Inv(t) && id in t.reservations && InFlight(t.reservations[id]) && ToBill(c, reply).Some?
    requires KeyTaken(t, SettlementKey(c.correlation, c.attempt), id)
    ensures var end := Close(t, c, id, reply, []).after;
            id in end.reservations && InFlight(end.reservations[id])
  {
    EveryExitEndsFlight(t, c, id, reply, []);
  }

  ghost function SettledAt(t: Tables, q: SettleRequest, cost: nat): Tables
    requires q.key.Some? && q.id in t.reservations && t.reservations[q.id].accountId in t.accounts
  {
    var (t', r) := SettleAt(t, q.id, q.key.value, cost);
    Record(t', SettlementEvents(r))
  }

  lemma SettleSucceeds(t: Tables, rates: RateTable, q: SettleRequest, rate: PricingRate, cost: nat)
    requires q.key.Some? && q.key.value !in t.idempotency && q.id in t.reservations && t.reservations[q.id].IsPending()
    requires t.reservations[q.id].accountId in t.accounts
    requires GetRate(rates, q.providerId, t.reservations[q.id].modelId, q.usage.serviceTier) == Ok(rate)
    requires CalculateCost(q.usage, rate) == Ok(cost)
    ensures Apply(t, SettleCall(rates, q)) == Ok(SettledAt(t, q, cost))
  {
  }

  /** Another reservation, of n tokens, charged to the global account. */
  function OtherRequest(n: nat): ReserveRequest {
    ReserveRequest(None, "v", "m", Tokens(n), Some(Id("k")), Id("a"), None)
  }

  function OtherSettlement(n: nat, key: Id): SettleRequest {
    SettleRequest(Id("a"), Tokens(n), Some(key), "v")
  }

  lemma ShortKey(correlation: string, attempt: string)
    ensures Id("k") != ReservationKey(correlation, attempt) && Id("k") != SettlementKey(correlation, attempt)
  {
    assert |ReservationKey(correlation, attempt).text| > 1 && |SettlementKey(correlation, attempt).text| > 1;
  }

  /** The ledger whose global account settled one reservation of n under the key. */
  ghost predicate SettledOnce(t: Tables, limit: nat, n: nat, key: Id) {
    && t.accounts == map[GLOBAL_ID := Account(Global, None, limit, 0, n, Active)]
    && t.reservations.Keys == {Id("a")} && t.reservations[Id("a")].idempotencyKey == Id("k")
    && t.idempotency.Keys == {Id("k"), key}
    && t.idempotency[key] == SettleRecord(Id("a"), GLOBAL_ID, n, n, 0)
  }

  lemma SettledOnceRun(limit: nat, n: nat, key: Id)
    requires n <= limit && n <= MAX_SAFE_INT64 && key != Id("k")
    ensures SettledOnce(Run(EMPTY, [CreateGlobalRequest(limit)] + [ReserveCall(Prices(), OtherRequest(n))]
                                   + [SettleCall(Prices(), OtherSettlement(n, key))]), limit, n, key)
  {
    var t := OneAccount(GLOBAL_ID, Account(Global, None, limit, 0, 0, Active));
    var q, settle := OtherRequest(n), OtherSettlement(n, key);
    OneGlobal(limit);
    Priced(n);
    ReserveSucceeds(t, Prices(), q, GLOBAL_ID, n);
    var t1 := Reserved(t, q, GLOBAL_ID, n);
    RunStep([CreateGlobalRequest(limit)], ReserveCall(Prices(), q), t, t1);
    var t2 := SettlesOther(t1, limit, n, key);
    RunStep([CreateGlobalRequest(limit)] + [ReserveCall(Prices(), q)], SettleCall(Prices(), settle), t1, t2);
  }

  lemma SettlesOther(t: Tables, limit: nat, n: nat, key: Id) returns (t': Tables)
    requires n <= limit && n <= MAX_SAFE_INT64 && key != Id("k")
    requires t == Reserved(OneAccount(GLOBAL_ID, Account(Global, None, limit, 0, 0, Active)), OtherRequest(n), GLOBAL_ID, n)
    ensures Apply(t, SettleCall(Prices(), OtherSettlement(n, key))) == Ok(t') && SettledOnce(t', limit, n, key)
  {
    PriceFound();
    OneEach(n);
    SettleSucceeds(t, Prices(), OtherSettlement(n, key), RateFrom(PRICE), n);
    t' := SettledAt(t, OtherSettlement(n, key), n);
    OtherSettled(t, limit, n, key);
  }

  lemma OtherSettled(t: Tables, limit: nat, n: nat, key: Id)
    requires n <= limit && key != Id("k")
    requires t == Reserved(OneAccount(GLOBAL_ID, Account(Global, None, limit, 0, 0, Active)), OtherRequest(n), GLOBAL_ID, n)
    ensures SettledOnce(SettledAt(t, OtherSettlement(n, key), n), limit, n, key)
  {
    assert t.accounts[GLOBAL_ID].reserved == n && t.reservations[Id("a")].held == n;
    assert SettledAt(t, OtherSettlement(n, key), n).accounts == map[GLOBAL_ID := Account(Global, None, limit, 0, n, Active)];
  }

  lemma OpenableAfter(t: Tables, correlation: string, attempt: string, limit: nat, n: nat, m: nat)
    requires SettledOnce(t, limit, n, SettlementKey(correlation, attempt)) && n + m <= limit && m <= MAX_SAFE_INT64
    ensures var c := CallOf(correlation, attempt, m, Id("b"));
            Openable(t, c, GLOBAL_ID, m) && KeyTaken(t, SettlementKey(correlation, attempt), c.freshId)
  {
    Priced(m);
    ShortKey(correlation, attempt);
    KeysNeverMeet(correlation, attempt, correlation, attempt);
  }

  /** The exception of a taken settlement key is reached: the global account settles a reservation of n under the
      settlement key of a call, and the call then opens, gets a reply that normalises and ends in flight. */
  lemma TakenKeyRun(correlation: string, attempt: string, limit: nat, n: nat, m: nat)
    requires n + m <= limit && n <= MAX_SAFE_INT64 && m <= MAX_SAFE_INT64
    ensures var t := Run(EMPTY, [CreateGlobalRequest(limit)] + [ReserveCall(Prices(), OtherRequest(n))]
                                + [SettleCall(Prices(), OtherSettlement(n, SettlementKey(correlation, attempt)))]);
            var c := CallOf(correlation, attempt, m, Id("b"));
            var o := Open(t, c, [], []);
            && o.id == Some(c.freshId) && o.fault.None? && ToBill(c, REPLY).Some?
            && var end := Close(o.after, c, c.freshId, REPLY, []).after;
            && c.freshId in end.reservations && InFlight(end.reservations[c.freshId])
  {
    var calls := [CreateGlobalRequest(limit)] + [ReserveCall(Prices(), OtherRequest(n))]
                 + [SettleCall(Prices(), OtherSettlement(n, SettlementKey(correlation, attempt)))];
    ShortKey(correlation, attempt);
    SettledOnceRun(limit, n, SettlementKey(correlation, attempt));
    OpenableAfter(Run(EMPTY, calls), correlation, attempt, limit, n, m);
    ReplyIsBilled(correlation, attempt, m, Id("b"));
    ReachableInv(calls);
    TakenKeyLeavesFlight(Run(EMPTY, calls), CallOf(correlation, attempt, m, Id("b")), GLOBAL_ID, m, REPLY);
  }
}
