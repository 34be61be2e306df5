/** The adapter around a provider. The provider runs between `Dispatch` and `Complete`; other code may use the
    manager meanwhile. */
module BudgetAwareLlmAdapter {
  import opened Wrappers
  import opened BudgetTypes
  import opened Ledger
  import opened AdapterProtocol
  import M = BudgetManager

  class BudgetAwareLlmAdapter {
    const manager: M.BudgetManager

    constructor (manager: M.BudgetManager)
      ensures this.manager == manager
    {
      this.manager := manager;
    }

    /** The steps up to the request to the provider. */
    method Dispatch(c: Call) returns (id: Option<Id>, fault: Option<BudgetError>)
      requires manager.Valid() && c.rates == manager.pricing.rates
      modifies manager.db, manager`calls
      ensures manager.Valid()
      ensures Opening(manager.Contents(), id, fault) == Open(old(manager.Contents()), c, [], [])
    {
      if c.auditFault.Some? {
        return None, c.auditFault;
      }
      var admitted := manager.validator.CheckDispatch(c.ToReserve());
      if admitted.Err? {
        return None, Some(admitted.error);
      }
      var reserved := manager.Reserve(c.ToReserve());
      if reserved.Err? {
        return None, Some(reserved.error);
      }
      id := Some(reserved.value);
      fault := MarkIfPrepared(reserved.value);
    }

    method MarkIfPrepared(id: Id) returns (fault: Option<BudgetError>)
      requires manager.Valid()
      modifies manager.db, manager`calls
      ensures manager.Valid()
      ensures Opening(manager.Contents(), Some(id), fault) == OpenDispatch(old(manager.Contents()), id, [])
    {
      fault := None;
      if id in manager.db.reservations && manager.db.reservations[id].state.Prepared? {
        var marked := manager.MarkDispatched(id);
        if marked.Err? {
          fault := Some(marked.error);
        }
      }
    }

    /** The steps after the provider has thrown or answered. */
    method Complete(c: Call, id: Id, reply: Reply) returns (exit: Exit)
      requires manager.Valid() && c.rates == manager.pricing.rates
      modifies manager.db, manager`calls
      ensures manager.Valid()
      ensures Closing(manager.Contents(), exit) == Close(old(manager.Contents()), c, id, reply, [])
    {
      if reply.Fails? {
        exit := KeepHold(id, ProviderFailed);
        return;
      }
      var rate := c.Rate();
      if rate.None? {
        exit := KeepHold(id, Threw(PricingNotFound));
        return;
      }
      var normalized := Normalize(c, rate.value, reply.report);
      if normalized.Err? {
        exit := KeepHold(id, Returned);
        return;
      }
      var settled := manager.Settle(c.ToSettle(id, normalized.value.usage));
      if settled.Ok? {
        return Returned;
      }
      var _ := manager.RecordUnknown(id);
      return Threw(settled.error);
    }

    method KeepHold(id: Id, exit: Exit) returns (exit': Exit)
      requires manager.Valid()
      modifies manager.db, manager`calls
      ensures manager.Valid()
      ensures Closing(manager.Contents(), exit') == Hold(old(manager.Contents()), id, exit)
    {
      var held := manager.RecordUnknown(id);
      return if held.Ok? then exit else Threw(held.error);
    }
  }
}
