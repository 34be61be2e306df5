/** The in-process lock: a map from each path to the tail promise of the last call on it. Every call waits for the
    tail it found there, runs its operation, resolves its own lock, and removes the entry if it is still its own. */
module LockQueue {
  import opened Wrappers

  datatype Path = Path(text: string)

  datatype Phase = Waiting | Running | Finished

  /** A call in order of arrival: `prev` is the call whose tail it waits for. Its own tail settles once that tail
      and its own lock have settled. */
  datatype Call = Call(path: Path, prev: Option<nat>, phase: Phase, tailSettled: bool)

  datatype Queue = Queue(calls: seq<Call>, entries: map<Path, nat>)

  const EMPTY := Queue([], map[])

  /** The turns of the event loop. Whether an operation fails makes no difference to the lock. */
  datatype Turn = Arrive(path: Path) | Start(i: nat) | Finish(i: nat, failed: bool) | SettleTail(i: nat)

  predicate PrevSettled(calls: seq<Call>, i: nat)
    requires i < |calls|
  {
    calls[i].prev.None? || (calls[i].prev.value < |calls| && calls[calls[i].prev.value].tailSettled)
  }

  predicate Enabled(q: Queue, turn: Turn) {
    match turn
    case Arrive(_) => true
    case Start(i) => i < |q.calls| && q.calls[i].phase.Waiting? && PrevSettled(q.calls, i)
    case Finish(i, _) => i < |q.calls| && q.calls[i].phase.Running?
    case SettleTail(i) =>
      i < |q.calls| && q.calls[i].phase.Finished? && !q.calls[i].tailSettled && PrevSettled(q.calls, i)
  }

  function Entry(entries: map<Path, nat>, path: Path): Option<nat> {
    if path in entries then Some(entries[path]) else None
  }

  function Next(q: Queue, turn: Turn): Queue
    requires Enabled(q, turn)
  {
    match turn
    case Arrive(path) =>
      Queue(q.calls + [Call(path, Entry(q.entries, path), Waiting, false)], q.entries[path := |q.calls|])
    case Start(i) => q.(calls := q.calls[i := q.calls[i].(phase := Running)])
    case Finish(i, _) =>
      var path := q.calls[i].path;
      Queue(q.calls[i := q.calls[i].(phase := Finished)],
            if Entry(q.entries, path) == Some(i) then q.entries - {path} else q.entries)
    case SettleTail(i) => q.(calls := q.calls[i := q.calls[i].(tailSettled := true)])
  }

  predicate CanRun(q: Queue, turns: seq<Turn>)
    decreases |turns|
  {
    turns == [] || (Enabled(q, turns[0]) && CanRun(Next(q, turns[0]), turns[1..]))
  }

  function Run(q: Queue, turns: seq<Turn>): Queue
    requires CanRun(q, turns)
    decreases |turns|
  {
    if turns == [] then q else Run(Next(q, turns[0]), turns[1..])
  }

  // ---------- invariant ----------

  predicate EarlierFinished(calls: seq<Call>, i: nat)
    requires i <= |calls|
  {
    i < |calls| ==> forall j | 0 <= j < i && calls[j].path == calls[i].path :: calls[j].phase.Finished?
  }

  /** A call waits for the call on its path that arrived just before it, or for none if all of those were done. */
  predicate PrevIsLast(calls: seq<Call>, i: nat)
    requires i < |calls|
  {
    match calls[i].prev
    case None => EarlierFinished(calls, i)
    case Some(p) => p < i && calls[p].path == calls[i].path && forall j | p < j < i :: calls[j].path != calls[i].path
  }

  predicate CallOk(calls: seq<Call>, i: nat)
    requires i < |calls|
  {
    && PrevIsLast(calls, i)
    && (!calls[i].phase.Waiting? ==> EarlierFinished(calls, i))
    && (calls[i].tailSettled ==> calls[i].phase.Finished?)
  }

  /** The entry of a path is its last call and that call is not done; without an entry every call on it is done. */
  ghost predicate EntryOk(q: Queue, path: Path) {
    match Entry(q.entries, path)
    case Some(k) =>
      && k < |q.calls| && q.calls[k].path == path && !q.calls[k].phase.Finished?
      && forall j | k < j < |q.calls| :: q.calls[j].path != path
    case None => forall j | 0 <= j < |q.calls| && q.calls[j].path == path :: q.calls[j].phase.Finished?
  }

  ghost predicate Inv(q: Queue) {
    && (forall i | 0 <= i < |q.calls| :: CallOk(q.calls, i))
    && (forall path: Path :: EntryOk(q, path))
  }

  // Finishing calls only helps.
  predicate Advanced(calls: seq<Call>, calls': seq<Call>) {
    && |calls| <= |calls'|
    && forall i | 0 <= i < |calls| ::
         calls'[i].path == calls[i].path && calls'[i].prev == calls[i].prev
         && (calls[i].phase.Finished? ==> calls'[i].phase.Finished?)
  }

  lemma CallStaysOk(calls: seq<Call>, calls': seq<Call>, i: nat)
    requires Advanced(calls, calls') && i < |calls| && CallOk(calls, i)
    requires !calls'[i].phase.Waiting? ==> !calls[i].phase.Waiting?
    requires calls'[i].tailSettled ==> calls'[i].phase.Finished?
    ensures CallOk(calls', i)
  {
    if EarlierFinished(calls, i) {
      forall j | 0 <= j < i && calls'[j].path == calls'[i].path ensures calls'[j].phase.Finished? {
        assert calls[j].phase.Finished?;
      }
    }
  }

  // The wait is over only when everybody ahead on the path is done.
  lemma SettledMeansFirst(calls: seq<Call>, i: nat)
    requires i < |calls| && (forall k | 0 <= k < |calls| :: CallOk(calls, k)) && PrevSettled(calls, i)
    ensures EarlierFinished(calls, i)
  {
    assert CallOk(calls, i);
    if calls[i].prev.Some? {
      var p := calls[i].prev.value;
      assert CallOk(calls, p);
      forall j | 0 <= j < i && calls[j].path == calls[i].path ensures calls[j].phase.Finished? {
        assert j <= p;
      }
    }
  }

  lemma ArriveKeeps(q: Queue, path: Path)
    requires Inv(q)
    ensures Inv(Next(q, Arrive(path)))
  {
    var q' := Next(q, Arrive(path));
    var n := |q.calls|;
    assert EntryOk(q, path);
    forall i | 0 <= i < |q'.calls| ensures CallOk(q'.calls, i) {
      if i < n {
        CallStaysOk(q.calls, q'.calls, i);
      } else {
        assert forall j | 0 <= j < n :: q'.calls[j] == q.calls[j];
      }
    }
    forall p: Path ensures EntryOk(q', p) {
      assert EntryOk(q, p);
    }
  }

  // One call moves on; the rest of the queue stays.
  lemma MoveKeeps(q: Queue, i: nat, call: Call, q': Queue)
    requires Inv(q) && i < |q.calls| && q'.calls == q.calls[i := call]
    requires call.path == q.calls[i].path && call.prev == q.calls[i].prev
    requires q.calls[i].phase.Finished? ==> call.phase.Finished?
    requires !call.phase.Waiting? ==> EarlierFinished(q.calls, i)
    requires call.tailSettled ==> call.phase.Finished?
    requires forall p: Path :: EntryOk(q', p)
    ensures Inv(q')
  {
    assert CallOk(q.calls, i);
    forall k | 0 <= k < |q'.calls| ensures CallOk(q'.calls, k) {
      assert CallOk(q.calls, k);
      if k != i {
        CallStaysOk(q.calls, q'.calls, k);
      } else {
        assert forall j | 0 <= j < i :: q'.calls[j] == q.calls[j];
      }
    }
  }

  lemma NextKeeps(q: Queue, turn: Turn)
    requires Inv(q) && Enabled(q, turn)
    ensures Inv(Next(q, turn))
  {
    var q' := Next(q, turn);
    match turn
    case Arrive(path) => ArriveKeeps(q, path);
    case Start(i) =>
      assert CallOk(q.calls, i);
      SettledMeansFirst(q.calls, i);
      EntriesAfterMove(q, i, q');
      MoveKeeps(q, i, q'.calls[i], q');
    case Finish(i, _) =>
      assert CallOk(q.calls, i);
      EntriesAfterFinish(q, i, q');
      MoveKeeps(q, i, q'.calls[i], q');
    case SettleTail(i) =>
      assert CallOk(q.calls, i);
      EntriesAfterMove(q, i, q');
      MoveKeeps(q, i, q'.calls[i], q');
  }

  lemma EntriesAfterMove(q: Queue, i: nat, q': Queue)
    requires Inv(q) && i < |q.calls| && q'.entries == q.entries && |q'.calls| == |q.calls|
    requires forall j | 0 <= j < |q.calls| :: q'.calls[j].path == q.calls[j].path
    requires forall j | 0 <= j < |q.calls| :: q'.calls[j].phase.Finished? <==> q.calls[j].phase.Finished?
    ensures forall p: Path :: EntryOk(q', p)
  {
    forall p: Path ensures EntryOk(q', p) {
      assert EntryOk(q, p);
    }
  }

  lemma EntriesAfterFinish(q: Queue, i: nat, q': Queue)
    requires Inv(q) && i < |q.calls| && q.calls[i].phase.Running? && q' == Next(q, Finish(i, false))
    ensures forall p: Path :: EntryOk(q', p)
  {
    assert CallOk(q.calls, i);
    forall p: Path ensures EntryOk(q', p) {
      assert EntryOk(q, p);
    }
  }

  lemma {:induction false} RunKeeps(q: Queue, turns: seq<Turn>)
    requires Inv(q) && CanRun(q, turns)
    ensures Inv(Run(q, turns))
    decreases |turns|
  {
    if turns != [] {
      NextKeeps(q, turns[0]);
      RunKeeps(Next(q, turns[0]), turns[1..]);
    }
  }

  // ---------- guarantees ----------

  /** Operations on one path run one at a time and in order of arrival: when a call has started, every earlier call on
      its path is done, whichever of them failed. */
  lemma OneAtATimeInOrder(turns: seq<Turn>, i: nat, j: nat)
    requires CanRun(EMPTY, turns)
    requires var calls := Run(EMPTY, turns).calls;
             i < j < |calls| && calls[i].path == calls[j].path && !calls[j].phase.Waiting?
    ensures Run(EMPTY, turns).calls[i].phase.Finished?
  {
    RunKeeps(EMPTY, turns);
    assert CallOk(Run(EMPTY, turns).calls, j);
  }

  /** Turns still owed to a call. */
  function Owed(call: Call): nat {
    match call.phase
    case Waiting => 3
    case Running => 2
    case Finished => if call.tailSettled then 0 else 1
  }

  function Remaining(calls: seq<Call>): nat {
    if calls == [] then 0 else Remaining(calls[..|calls| - 1]) + Owed(calls[|calls| - 1])
  }

  lemma {:induction false} RemainingUpdate(calls: seq<Call>, i: nat, call: Call)
    requires i < |calls|
    ensures Remaining(calls[i := call]) + Owed(calls[i]) == Remaining(calls) + Owed(call)
  {
    var last := |calls| - 1;
    if i < last {
      assert calls[i := call][..last] == calls[..last][i := call];
      RemainingUpdate(calls[..last], i, call);
    } else {
      assert calls[i := call][..last] == calls[..last];
    }
  }

  lemma TurnPaysOff(q: Queue, turn: Turn)
    requires Inv(q) && Enabled(q, turn) && !turn.Arrive?
    ensures Remaining(Next(q, turn).calls) == Remaining(q.calls) - 1
  {
    assert CallOk(q.calls, turn.i);
    RemainingUpdate(q.calls, turn.i, Next(q, turn).calls[turn.i]);
  }

  /** Unless every call is done and every tail settled, some call can take a turn: the first one that is owed any. */
  lemma SomebodyCanMove(q: Queue)
    requires Inv(q) && exists i :: 0 <= i < |q.calls| && Owed(q.calls[i]) > 0
    ensures exists turn: Turn :: !turn.Arrive? && Enabled(q, turn)
  {
    var i := FirstOwed(q.calls);
    assert CallOk(q.calls, i);
    assert PrevSettled(q.calls, i) by {
      if q.calls[i].prev.Some? {
        assert Owed(q.calls[q.calls[i].prev.value]) == 0;
      }
    }
    match q.calls[i].phase
    case Waiting => assert Enabled(q, Start(i));
    case Running => assert Enabled(q, Finish(i, false));
    case Finished => assert Enabled(q, SettleTail(i));
  }

  lemma FirstOwed(calls: seq<Call>) returns (i: nat)
    requires exists k :: 0 <= k < |calls| && Owed(calls[k]) > 0
    ensures i < |calls| && Owed(calls[i]) > 0 && forall k | 0 <= k < i :: Owed(calls[k]) == 0
  {
    i := 0;
    while Owed(calls[i]) == 0
      invariant i < |calls| && forall k | 0 <= k < i :: Owed(calls[k]) == 0
      decreases |calls| - i
    {
      i := i + 1;
    }
  }

  lemma {:induction false} TurnsAreBounded(q: Queue, turns: seq<Turn>)
    requires Inv(q) && CanRun(q, turns) && forall i | 0 <= i < |turns| :: !turns[i].Arrive?
    ensures Remaining(Run(q, turns).calls) + |turns| == Remaining(q.calls)
    decreases |turns|
  {
    if turns != [] {
      NextKeeps(q, turns[0]);
      TurnPaysOff(q, turns[0]);
      TurnsAreBounded(Next(q, turns[0]), turns[1..]);
    }
  }

  /** No waiter is dropped: once arrivals cease, whatever turns are taken from a reachable queue there are only so many
      of them, and when none is possible any more every call is done, every tail has settled and the map is empty. */
  lemma EveryWaiterIsServed(arrivals: seq<Turn>, turns: seq<Turn>)
    requires CanRun(EMPTY, arrivals) && CanRun(Run(EMPTY, arrivals), turns)
    requires forall i | 0 <= i < |turns| :: !turns[i].Arrive?
    ensures var q, q' := Run(EMPTY, arrivals), Run(Run(EMPTY, arrivals), turns);
            && |turns| <= Remaining(q.calls)
            && ((forall turn: Turn | Enabled(q', turn) :: turn.Arrive?) ==>
                  && (forall i | 0 <= i < |q'.calls| :: q'.calls[i].phase.Finished? && q'.calls[i].tailSettled)
                  && q'.entries == map[])
  {
    var q, q' := Run(EMPTY, arrivals), Run(Run(EMPTY, arrivals), turns);
    RunKeeps(EMPTY, arrivals);
    RunKeeps(q, turns);
    TurnsAreBounded(q, turns);
    if forall turn: Turn | Enabled(q', turn) :: turn.Arrive? {
      if exists i :: 0 <= i < |q'.calls| && Owed(q'.calls[i]) > 0 {
        SomebodyCanMove(q');
      }
      forall i | 0 <= i < |q'.calls| ensures q'.calls[i].phase.Finished? && q'.calls[i].tailSettled {
        assert Owed(q'.calls[i]) == 0;
      }
      NothingLeft(q');
    }
  }

  lemma NothingLeft(q: Queue)
    requires Inv(q) && forall i | 0 <= i < |q.calls| :: q.calls[i].phase.Finished?
    ensures q.entries == map[]
  {
    forall path: Path ensures path !in q.entries {
      assert EntryOk(q, path);
    }
  }

  // ---------- the object ----------

  class InProcessLocks {
    var calls: seq<Call>
    var lockQueues: map<Path, nat>

    ghost function Contents(): Queue
      reads this
    {
      Queue(calls, lockQueues)
    }

    ghost predicate Valid()
      reads this
    {
      Inv(Contents())
    }

    constructor ()
      ensures Valid() && Contents() == EMPTY
    {
      calls, lockQueues := [], map[];
    }

    /** The synchronous part of a call: it takes the present tail and puts its own in the map. */
    method WithInProcessLock(path: Path) returns (i: nat)
      requires Valid()
      modifies this
      ensures Valid() && Contents() == Next(old(Contents()), Arrive(path)) && i == |old(calls)|
    {
      NextKeeps(Contents(), Arrive(path));
      var prev := if path in lockQueues then Some(lockQueues[path]) else None;
      i := |calls|;
      calls := calls + [Call(path, prev, Waiting, false)];
      lockQueues := lockQueues[path := i];
    }

    method RunOperation(i: nat)
      requires Valid() && Enabled(Contents(), Start(i))
      modifies this
      ensures Valid() && Contents() == Next(old(Contents()), Start(i))
    {
      NextKeeps(Contents(), Start(i));
      calls := calls[i := calls[i].(phase := Running)];
    }

    /** The finally block: resolve the lock, and remove the entry if nobody queued behind. */
    method Finally(i: nat, failed: bool)
      requires Valid() && Enabled(Contents(), Finish(i, failed))
      modifies this
      ensures Valid() && Contents() == Next(old(Contents()), Finish(i, failed))
    {
      NextKeeps(Contents(), Finish(i, failed));
      calls := calls[i := calls[i].(phase := Finished)];
      var path := calls[i].path;
      if path in lockQueues && lockQueues[path] == i {
        lockQueues := lockQueues - {path};
      }
    }

    method SettleTail(i: nat)
      requires Valid() && Enabled(Contents(), Turn.SettleTail(i))
      modifies this
      ensures Valid() && Contents() == Next(old(Contents()), Turn.SettleTail(i))
    {
      NextKeeps(Contents(), Turn.SettleTail(i));
      calls := calls[i := calls[i].(tailSettled := true)];
    }
  }
}
