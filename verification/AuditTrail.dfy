/** What the outbox alone says about an account and about settled reservations. */
module AuditTrail {
  import opened Wrappers
  import opened Ledger

  /** The history of one account as its events tell it: amounts carried out at period resets, the highest and
      the latest limit, whether a limit was ever lowered, how often it was created, and whether the ledger
      ever went through recovery. */
  datatype Trail = Trail(
    prior: nat, peak: nat, limit: Option<nat>, lowered: bool, creations: nat, recovered: bool)
  {
    function Limit(limit': nat): Trail {
      this.(peak := if limit' > peak then limit' else peak,
            limit := Some(limit'),
            lowered := lowered || (limit.Some? && limit' < limit.value))
    }
  }

  const NO_TRAIL := Trail(0, 0, None, false, 0, false)

  function Extend(trail: Trail, e: Event, a: Id): Trail {
    match e
    case AccountCreated(id, limit) => if id == a then trail.Limit(limit).(creations := trail.creations + 1) else trail
    case LimitUpdated(id, limit) => if id == a then trail.Limit(limit) else trail
    case PeriodReset(id, prior, limit) => if id == a then trail.Limit(limit).(prior := trail.prior + prior) else trail
    case RecoveryCompleted(_) => trail.(recovered := true)
    case _ => trail
  }

  function TrailOf(es: seq<Event>, a: Id): Trail {
    if es == [] then NO_TRAIL else Extend(TrailOf(es[..|es| - 1], a), es[|es| - 1], a)
  }

  lemma TrailAppend(es: seq<Event>, e: Event, a: Id)
    ensures TrailOf(es + [e], a) == Extend(TrailOf(es, a), e, a)
  {
    assert (es + [e])[..|es|] == es;
  }

  /** A settlement as billed: the account and the cost. */
  datatype Bill = Bill(accountId: Id, cost: nat)

  type Bills = map<Id, Bill>

  /** BUDGET_SETTLED events with repeats of one reservation counted once. */
  function BillsOf(es: seq<Event>): Bills {
    if es == [] then map[]
    else
      var before := BillsOf(es[..|es| - 1]);
      match es[|es| - 1]
      case SettledEvent(id, a, held, cost, overdraft) => before[id := Bill(a, cost)]
      case _ => before
  }

  lemma BillsAppend(es: seq<Event>, e: Event)
    ensures BillsOf(es + [e]) == if e.SettledEvent? then BillsOf(es)[e.reservationId := Bill(e.accountId, e.cost)]
                                 else BillsOf(es)
  {
    assert (es + [e])[..|es|] == es;
  }

  function BilledTo(a: Id): Bill -> nat {
    (bill: Bill) => if bill.accountId == a then bill.cost else 0
  }
}
