/** Draining the outbox into the history: batches of pending records in order of creation, stopping at the first
    record the history refuses. The history ignores an event id it already has, so a drain that died between the
    append and the delivery mark can be repeated. */
module OutboxDrain {
  import opened Wrappers

  datatype Status = Pending | Delivered | Failed

  /** Record number i is the i-th event ever recorded. */
  datatype Mail = Mail(status: Status, retryCount: nat)

  datatype Outbox = Outbox(records: seq<Mail>, history: seq<nat>)

  const BATCH := 50

  function Appended(history: seq<nat>, i: nat): seq<nat> {
    if i in history then history else history + [i]
  }

  function Deliver(s: Outbox, i: nat): Outbox
    requires i < |s.records|
  {
    Outbox(s.records[i := s.records[i].(status := Delivered)], Appended(s.history, i))
  }

  function Refuse(s: Outbox, i: nat): Outbox
    requires i < |s.records|
  {
    s.(records := s.records[i := Mail(Failed, s.records[i].retryCount + 1)])
  }

  /** What a drain may meet: records the history refuses, and a record after whose append the process dies. */
  datatype Fate = Fate(refused: set<nat>, dies: Option<nat>)

  /** Handles the records from i on, one by one; the second result counts the deliveries. */
  function DrainFrom(s: Outbox, i: nat, fate: Fate): (Outbox, nat)
    requires i <= |s.records|
    decreases |s.records| - i
  {
    if i == |s.records| then (s, 0)
    else if !s.records[i].status.Pending? then DrainFrom(s, i + 1, fate)
    else if i in fate.refused then (Refuse(s, i), 0)
    else if fate.dies == Some(i) then (s.(history := Appended(s.history, i)), 0)
    else
      var (s', n) := DrainFrom(Deliver(s, i), i + 1, fate);
      (s', n + 1)
  }

  predicate SettledBefore(records: seq<Mail>, i: nat) {
    i <= |records| && forall j | 0 <= j < i :: !records[j].status.Pending?
  }

  // Settled records are passed over.
  lemma {:induction false} DrainSkips(s: Outbox, i: nat, fate: Fate)
    requires SettledBefore(s.records, i)
    ensures DrainFrom(s, 0, fate) == DrainFrom(s, i, fate)
  {
    if i > 0 {
      DrainSkips(s, i - 1, fate);
    }
  }

  /** One delivery, seen from the whole drain. */
  lemma DeliveryStep(s: Outbox, i: nat, fate: Fate)
    requires SettledBefore(s.records, i) && i < |s.records| && s.records[i].status.Pending?
    requires i !in fate.refused && fate.dies != Some(i)
    ensures DrainFrom(s, 0, fate) == (DrainFrom(Deliver(s, i), 0, fate).0, DrainFrom(Deliver(s, i), 0, fate).1 + 1)
    ensures SettledBefore(Deliver(s, i).records, i + 1)
  {
    DrainSkips(s, i, fate);
    DrainSkips(Deliver(s, i), i + 1, fate);
  }

  lemma {:induction false} NothingPending(s: Outbox, i: nat, fate: Fate)
    requires i <= |s.records| && forall j | 0 <= j < |s.records| :: !s.records[j].status.Pending?
    ensures DrainFrom(s, i, fate) == (s, 0)
    decreases |s.records| - i
  {
    if i < |s.records| {
      NothingPending(s, i + 1, fate);
    }
  }

  /** The first pending records in order: whatever else is pending comes after them. */
  predicate IsBatch(records: seq<Mail>, batch: seq<nat>) {
    && (forall n | 0 <= n < |batch| :: batch[n] < |records| && records[batch[n]].status.Pending?)
    && (forall m, n | 0 <= m < n < |batch| :: batch[m] < batch[n])
    && (forall j | 0 <= j < |records| && records[j].status.Pending? :: j in batch || (batch != [] && batch[|batch| - 1] < j))
  }

  /** How many records are pending. */
  ghost function Open(records: seq<Mail>): nat {
    if records == [] then 0 else Open(records[..|records| - 1]) + if records[|records| - 1].status.Pending? then 1 else 0
  }

  lemma FirstOfBatch(records: seq<Mail>, batch: seq<nat>)
    requires IsBatch(records, batch) && batch != []
    ensures SettledBefore(records, batch[0])
  {
  }

  lemma {:induction false} OpenDrops(records: seq<Mail>, i: nat)
    requires i < |records| && records[i].status.Pending?
    ensures Open(records[i := records[i].(status := Delivered)]) == Open(records) - 1
  {
    var last := |records| - 1;
    var records' := records[i := records[i].(status := Delivered)];
    if i < last {
      OpenDrops(records[..last], i);
      assert records'[..last] == records[..last][i := records[i].(status := Delivered)];
    } else {
      assert records'[..last] == records[..last];
    }
  }

  lemma BatchShrinks(records: seq<Mail>, batch: seq<nat>, records': seq<Mail>)
    requires IsBatch(records, batch) && |batch| > 1
    requires records' == records[batch[0] := records[batch[0]].(status := Delivered)]
    ensures IsBatch(records', batch[1..])
  {
    assert batch[1..][|batch| - 2] == batch[|batch| - 1];
    forall j | 0 <= j < |records'| && records'[j].status.Pending? && j in batch ensures j in batch[1..] {
      var k :| 0 <= k < |batch| && batch[k] == j;
      assert batch[1..][k - 1] == j;
    }
  }

  predicate IsRest(pending: seq<nat>, k: nat, rest: seq<nat>) {
    k <= |pending| && rest == pending[k..]
  }

  /** The batch has been handled up to its k-th record: the rest is a batch whose first record is next. */
  ghost predicate AtBatch(records: seq<Mail>, pending: seq<nat>, k: nat) {
    forall rest {:trigger IsRest(pending, k, rest)} | IsRest(pending, k, rest) && rest != [] ::
      IsBatch(records, rest) && SettledBefore(records, rest[0])
  }

  lemma NextOfBatch(records: seq<Mail>, pending: seq<nat>, k: nat, records': seq<Mail>)
    requires k < |pending| && AtBatch(records, pending, k) && pending[k] < |records|
    requires records' == records[pending[k] := records[pending[k]].(status := Delivered)]
    ensures AtBatch(records', pending, k + 1)
  {
    var batch := pending[k..];
    assert IsRest(pending, k, batch) && batch[0] == pending[k] && batch[1..] == pending[k + 1..];
    if k + 1 < |pending| {
      BatchShrinks(records, batch, records');
      FirstOfBatch(records', batch[1..]);
    }
  }

  class OutboxDrainer {
    var records: seq<Mail>
    var history: seq<nat>

    ghost function Contents(): Outbox
      reads this
    {
      Outbox(records, history)
    }

    constructor ()
      ensures Contents() == Outbox([], [])
    {
      records, history := [], [];
    }

    method GetPendingOutboxRecords(limit: nat) returns (batch: seq<nat>)
      requires limit > 0
      ensures IsBatch(records, batch) && |batch| <= limit
      ensures batch == [] ==> forall j | 0 <= j < |records| :: !records[j].status.Pending?
    {
      batch := [];
      var i := 0;
      while i < |records| && |batch| < limit
        invariant i <= |records| && |batch| <= limit
        invariant forall n | 0 <= n < |batch| :: batch[n] < i && records[batch[n]].status.Pending?
        invariant forall m, n | 0 <= m < n < |batch| :: batch[m] < batch[n]
        invariant forall j | 0 <= j < i && records[j].status.Pending? :: j in batch
      {
        if records[i].status.Pending? {
          batch := batch + [i];
        }
        i := i + 1;
      }
      assert forall j | 0 <= j < |records| && records[j].status.Pending? :: j < i || |batch| == limit;
    }

    method DoDrainOutbox(fate: Fate) returns (totalDrained: nat)
      modifies this
      ensures (Contents(), totalDrained) == DrainFrom(old(Contents()), 0, fate)
    {
      ghost var goal := DrainFrom(Contents(), 0, fate);
      totalDrained := 0;
      while true
        invariant goal == (DrainFrom(Contents(), 0, fate).0, DrainFrom(Contents(), 0, fate).1 + totalDrained)
        decreases Open(records)
      {
        var pending := GetPendingOutboxRecords(BATCH);
        if pending == [] {
          NothingPending(Contents(), 0, fate);
          return;
        }
        var drained, stopped := DrainBatch(pending, fate);
        totalDrained := totalDrained + drained;
        if stopped {
          return;
        }
      }
    }

    /** One batch; a refusal or the end of the process stops the drain. */
    method DrainBatch(pending: seq<nat>, fate: Fate) returns (drained: nat, stopped: bool)
      requires pending != [] && IsBatch(records, pending)
      modifies this
      ensures stopped ==> (Contents(), drained) == DrainFrom(old(Contents()), 0, fate)
      ensures !stopped ==>
                && Open(records) < Open(old(records))
                && DrainFrom(old(Contents()), 0, fate)
                   == (DrainFrom(Contents(), 0, fate).0, DrainFrom(Contents(), 0, fate).1 + drained)
    {
      drained := 0;
      assert pending[0..] == pending;
      FirstOfBatch(records, pending);
      while drained < |pending|
        invariant drained <= |pending|
        invariant DrainFrom(old(Contents()), 0, fate)
                  == (DrainFrom(Contents(), 0, fate).0, DrainFrom(Contents(), 0, fate).1 + drained)
        invariant AtBatch(records, pending, drained)
        invariant Open(records) + drained == Open(old(records))
      {
        var delivered := DeliverAt(pending, drained, fate);
        if !delivered {
          return drained, true;
        }
        drained := drained + 1;
      }
      stopped := false;
    }

    method DeliverAt(pending: seq<nat>, k: nat, fate: Fate) returns (delivered: bool)
      requires k < |pending| && AtBatch(records, pending, k)
      modifies this
      ensures !delivered ==> (Contents(), 0) == DrainFrom(old(Contents()), 0, fate)
      ensures delivered ==>
                && AtBatch(records, pending, k + 1) && Open(records) == Open(old(records)) - 1
                && DrainFrom(old(Contents()), 0, fate)
                   == (DrainFrom(Contents(), 0, fate).0, DrainFrom(Contents(), 0, fate).1 + 1)
    {
      ghost var before := records;
      assert IsRest(pending, k, pending[k..]) && pending[k..][0] == pending[k];
      delivered := DeliverOne(pending[k], fate);
      if delivered {
        NextOfBatch(before, pending, k, records);
      }
    }

    /** Appends one record and marks it; false if it is refused or the process dies in between. */
    method DeliverOne(i: nat, fate: Fate) returns (delivered: bool)
      requires SettledBefore(records, i) && i < |records| && records[i].status.Pending?
      modifies this
      ensures !delivered ==> (Contents(), 0) == DrainFrom(old(Contents()), 0, fate)
      ensures delivered ==>
                && records == old(records)[i := old(records)[i].(status := Delivered)]
                && Open(records) == Open(old(records)) - 1
                && DrainFrom(old(Contents()), 0, fate)
                   == (DrainFrom(Contents(), 0, fate).0, DrainFrom(Contents(), 0, fate).1 + 1)
    {
      ghost var s := Contents();
      DrainSkips(s, i, fate);
      if i in fate.refused {
        records := records[i := Mail(Failed, records[i].retryCount + 1)];
        return false;
      }
      history := if i in history then history else history + [i];
      if fate.dies == Some(i) {
        return false;
      }
      records := records[i := records[i].(status := Delivered)];
      DeliveryStep(s, i, fate);
      OpenDrops(s.records, i);
      return true;
    }
  }

  // ---------- what a drain does ----------

  /** Where a drain from i ends: at the first pending record that is refused or that the process dies on. */
  predicate EndsAt(s: Outbox, i: nat, fate: Fate, end: nat) {
    && i <= end <= |s.records|
    && (forall j | i <= j < end && s.records[j].status.Pending? :: j !in fate.refused && fate.dies != Some(j))
    && (end < |s.records| ==> s.records[end].status.Pending? && (end in fate.refused || fate.dies == Some(end)))
  }

  /** What the drain leaves of a record. */
  function DrainedMail(s: Outbox, i: nat, fate: Fate, end: nat, j: nat): Mail
    requires j < |s.records|
  {
    if i <= j < end && s.records[j].status.Pending? then Mail(Delivered, s.records[j].retryCount)
    else if j == end && j in fate.refused then Mail(Failed, s.records[j].retryCount + 1)
    else s.records[j]
  }

  ghost function PendingIn(records: seq<Mail>, i: nat, end: nat): set<nat> {
    set j | i <= j < end && j < |records| && records[j].status.Pending?
  }

  /** Up to where it ends a drain delivers every pending record; the record it ends at has failed, or stays pending if
      the process died; all others are not touched. */
  lemma {:induction false} DrainMeaning(s: Outbox, i: nat, fate: Fate, end: nat)
    requires EndsAt(s, i, fate, end)
    ensures var records' := DrainFrom(s, i, fate).0.records;
            && |records'| == |s.records|
            && forall j | 0 <= j < |s.records| :: records'[j] == DrainedMail(s, i, fate, end, j)
    decreases |s.records| - i
  {
    if i < end {
      DrainMeaning(if s.records[i].status.Pending? then Deliver(s, i) else s, i + 1, fate, end);
    }
  }

  lemma PendingFrom(s: Outbox, i: nat, end: nat)
    requires i < end && i < |s.records|
    ensures var after := if s.records[i].status.Pending? then Deliver(s, i).records else s.records;
            |PendingIn(s.records, i, end)|
            == |PendingIn(after, i + 1, end)| + if s.records[i].status.Pending? then 1 else 0
  {
    var after := if s.records[i].status.Pending? then Deliver(s, i).records else s.records;
    var rest := PendingIn(after, i + 1, end);
    assert i !in rest;
    assert PendingIn(s.records, i, end) == if s.records[i].status.Pending? then {i} + rest else rest;
  }

  /** A drain counts what it delivers. */
  lemma {:induction false} DrainCounts(s: Outbox, i: nat, fate: Fate, end: nat)
    requires EndsAt(s, i, fate, end)
    ensures DrainFrom(s, i, fate).1 == |PendingIn(s.records, i, end)|
    decreases |s.records| - i
  {
    if i == end {
      assert PendingIn(s.records, i, end) == {};
    } else {
      PendingFrom(s, i, end);
      DrainCounts(if s.records[i].status.Pending? then Deliver(s, i) else s, i + 1, fate, end);
    }
  }

  /** A drain adds to the history what it delivers and, if the process dies, the record it died on. */
  lemma {:induction false} DrainTells(s: Outbox, i: nat, fate: Fate, end: nat, j: nat)
    requires EndsAt(s, i, fate, end)
    ensures j in DrainFrom(s, i, fate).0.history <==>
            || j in s.history || j in PendingIn(s.records, i, end)
            || (j == end < |s.records| && j !in fate.refused)
    decreases |s.records| - i
  {
    if i < end {
      DrainTells(if s.records[i].status.Pending? then Deliver(s, i) else s, i + 1, fate, end, j);
    }
  }

  // ---------- over whole runs ----------

  datatype Step = Add | Drain(fate: Fate)

  function Next(s: Outbox, step: Step): Outbox {
    match step
    case Add => s.(records := s.records + [Mail(Pending, 0)])
    case Drain(fate) => DrainFrom(s, 0, fate).0
  }

  function Run(s: Outbox, steps: seq<Step>): Outbox
    decreases |steps|
  {
    if steps == [] then s else Run(Next(s, steps[0]), steps[1..])
  }

  /** The first p records are settled and the others pending; the history holds the delivered ones in order, and at
      most one more: the record after whose append the process died. */
  ghost predicate Tidy(s: Outbox, p: nat) {
    && p <= |s.records|
    && (forall j | 0 <= j < |s.records| :: s.records[j].status.Pending? <==> p <= j)
    && (forall j | 0 <= j < |s.records| :: s.records[j].retryCount == if s.records[j].status.Failed? then 1 else 0)
    && (forall k | 0 <= k < |s.history| :: s.history[k] <= p && s.history[k] < |s.records|)
    && (forall k, l | 0 <= k < l < |s.history| :: s.history[k] < s.history[l])
    && (forall j | 0 <= j < p && s.records[j].status.Delivered? :: j in s.history)
  }

  lemma AppendTidy(s: Outbox, p: nat)
    requires Tidy(s, p) && p < |s.records|
    ensures Tidy(s.(history := Appended(s.history, p)), p) && p in Appended(s.history, p)
  {
    var h := Appended(s.history, p);
    if p !in s.history {
      forall k | 0 <= k < |s.history| ensures s.history[k] < p {
        assert s.history[k] in s.history;
      }
    }
    assert forall j | j in s.history :: j in h;
  }

  // The first pending record is settled.
  lemma SettleTidy(s: Outbox, p: nat, mail: Mail)
    requires Tidy(s, p) && p < |s.records| && !mail.status.Pending?
    requires mail.status.Delivered? ==> p in s.history
    requires mail.retryCount == if mail.status.Failed? then 1 else 0
    ensures Tidy(s.(records := s.records[p := mail]), p + 1)
  {
  }

  lemma DeliverTidy(s: Outbox, p: nat)
    requires Tidy(s, p) && p < |s.records|
    ensures Tidy(Deliver(s, p), p + 1) && Tidy(Refuse(s, p), p + 1)
  {
    AppendTidy(s, p);
    SettleTidy(s.(history := Appended(s.history, p)), p, s.records[p].(status := Delivered));
    SettleTidy(s, p, Mail(Failed, s.records[p].retryCount + 1));
  }

  lemma {:induction false} DrainTidy(s: Outbox, p: nat, fate: Fate) returns (p': nat)
    requires Tidy(s, p)
    ensures Tidy(DrainFrom(s, p, fate).0, p') && p <= p'
    ensures forall j | 0 <= j < p :: DrainFrom(s, p, fate).0.records[j] == s.records[j]
    ensures |DrainFrom(s, p, fate).0.records| == |s.records| && s.history <= DrainFrom(s, p, fate).0.history
    decreases |s.records| - p
  {
    p' := p;
    if p < |s.records| {
      DeliverTidy(s, p);
      AppendTidy(s, p);
      if p in fate.refused {
        p' := p + 1;
      } else if fate.dies != Some(p) {
        p' := DrainTidy(Deliver(s, p), p + 1, fate);
      }
    }
  }

  lemma StepTidy(s: Outbox, p: nat, step: Step) returns (p': nat)
    requires Tidy(s, p)
    ensures Tidy(Next(s, step), p') && p <= p' && |s.records| <= |Next(s, step).records|
    ensures s.history <= Next(s, step).history
    ensures forall j | 0 <= j < p :: Next(s, step).records[j] == s.records[j]
  {
    match step
    case Add => p' := p;
    case Drain(fate) =>
      DrainSkips(s, p, fate);
      p' := DrainTidy(s, p, fate);
  }

  lemma {:induction false} RunTidy(s: Outbox, p: nat, steps: seq<Step>) returns (p': nat)
    requires Tidy(s, p)
    ensures Tidy(Run(s, steps), p') && p <= p' && |s.records| <= |Run(s, steps).records|
    ensures s.history <= Run(s, steps).history
    ensures forall j | 0 <= j < p :: Run(s, steps).records[j] == s.records[j]
    decreases |steps|
  {
    p' := p;
    if steps != [] {
      var q := StepTidy(s, p, steps[0]);
      p' := RunTidy(Next(s, steps[0]), q, steps[1..]);
    }
  }

  /** Whatever events are recorded and however drains are refused or cut short, the history holds every delivered
      record exactly once and in order of creation, nothing but delivered or failed records and at most the first
      pending one, and no record is ever tried again once it failed. */
  lemma HistoryIsExact(steps: seq<Step>)
    ensures var s := Run(Outbox([], []), steps);
            && (forall k, l | 0 <= k < l < |s.history| :: s.history[k] < s.history[l])
            && (forall j | 0 <= j < |s.records| && s.records[j].status.Delivered? :: j in s.history)
            && (forall j, k | 0 <= j < |s.records| && s.records[j].status.Pending? && 0 <= k < |s.history| ::
                  s.history[k] <= j)
            && (forall j | 0 <= j < |s.records| :: s.records[j].retryCount <= 1)
  {
    var p := RunTidy(Outbox([], []), 0, steps);
  }

  /** A failed record stays failed in every later run: it is never delivered, and later records pass it by. */
  lemma FailedForGood(steps: seq<Step>, more: seq<Step>, j: nat)
    requires var s := Run(Outbox([], []), steps); j < |s.records| && s.records[j].status.Failed?
    ensures var s' := Run(Run(Outbox([], []), steps), more); j < |s'.records| && s'.records[j].status.Failed?
  {
    var p := RunTidy(Outbox([], []), 0, steps);
    var p' := RunTidy(Run(Outbox([], []), steps), p, more);
  }
}
