/** OIDC verifiers on one nonce: each reserves it for a minute, checks the rest of the token, and then releases or
    marks it. The mark's boolean is not looked at: a verifier whose mark does not throw reports VERIFIED. */
module VerifierProtocol {
  import opened Wrappers
  import opened Nonces
  import opened NonceLaws
  import opened NonceMeaning

  const RESERVATION_MS := 60000

  /** What one verifier does next, or an operation on other nonces (or a dry run) by anybody. */
  datatype Event =
    | Start(v: nat)
    | Fail(v: nat)
    | Pass(v: nat, cfg: Config, e: Expiry)
    | Other(op: Op)

  datatype Moment = Moment(event: Event, now1: int, now2: int)

  /** A VERIFIED outcome: when its mark was decided, until when the nonce is kept, and the ignored boolean. */
  datatype Approval = Approval(v: nat, at: int, until: int, marked: bool)

  /** `holders` are the verifiers between reservation and outcome, each with the end of its reservation. */
  datatype World = World(content: Content, holders: map<nat, int>, approvals: seq<Approval>)

  predicate Avoids(op: Op, n: Nonce) {
    match op
    case ReserveOp(n', _) => n' != n
    case ReleaseOp(n') => n' != n
    case MarkOp(_, n', _) => n' != n
    case BatchOp(_, nonces, _) => n !in nonces
    case SeenOp(_) => true
  }

  /** Only a verifier that holds the nonce goes on to release or mark it. */
  predicate Legal(w: World, n: Nonce, m: Moment) {
    match m.event
    case Start(v) => v !in w.holders
    case Fail(v) => v in w.holders
    case Pass(v, _, _) => v in w.holders
    case Other(op) => Avoids(op, n)
  }

  /** The verifier finishes before its reservation lapses. */
  predicate Timely(w: World, m: Moment) {
    match m.event
    case Fail(v) => v in w.holders ==> m.now1 < w.holders[v]
    case Pass(v, _, _) => v in w.holders ==> m.now1 < w.holders[v]
    case _ => true
  }

  /** A refused reservation ends the verifier; a mark that throws leaves it to release its reservation. */
  function Next(w: World, n: Nonce, m: Moment): World {
    match m.event
    case Start(v) =>
      var (content, r) := Reserve(w.content, n, Whole(RESERVATION_MS), m.now1, m.now2);
      World(content, if r == Ok(true) then w.holders[v := m.now2 + RESERVATION_MS] else w.holders, w.approvals)
    case Fail(v) => World(Release(w.content, n, m.now1).0, w.holders - {v}, w.approvals)
    case Pass(v, cfg, e) =>
      var (content, r) := Mark(w.content, cfg, n, e, m.now1, m.now2);
      if r.Err? then w
      else World(content, w.holders - {v}, w.approvals + [Approval(v, m.now1, KeptUntil(PassTick(n, m)), r.value)])
    case Other(op) => w.(content := Step(w.content, Tick(op, m.now1, m.now2)))
  }

  function PassTick(n: Nonce, m: Moment): Tick
    requires m.event.Pass?
  {
    Tick(MarkOp(m.event.cfg, n, m.event.e), m.now1, m.now2)
  }

  function RunWorld(w: World, n: Nonce, ms: seq<Moment>): World
    decreases |ms|
  {
    if ms == [] then w else RunWorld(Next(w, n, ms[0]), n, ms[1..])
  }

  /** The clock never goes back, and every event is one its verifier can do then. */
  predicate Proper(w: World, n: Nonce, clock: int, ms: seq<Moment>)
    decreases |ms|
  {
    ms == [] ||
    (clock <= ms[0].now1 <= ms[0].now2 && Legal(w, n, ms[0]) && Proper(Next(w, n, ms[0]), n, ms[0].now2, ms[1..]))
  }

  predicate AllTimely(w: World, n: Nonce, ms: seq<Moment>)
    decreases |ms|
  {
    ms == [] || (Timely(w, ms[0]) && AllTimely(Next(w, n, ms[0]), n, ms[1..]))
  }

  // ---------- what a verifier does to the nonce ----------

  /** A verifier starts exactly when the nonce is neither on record nor on hold, and holds it for a minute. */
  lemma StartHoldsTheNonce(w: World, n: Nonce, m: Moment)
    requires m.event.Start? && m.event.v !in w.holders && m.now1 <= m.now2
    requires IsReadable(w.content) && !IsBlank(n) && 0 <= m.now2 < 9007199254680992
    ensures var w', v := Next(w, n, m), m.event.v;
            && w'.approvals == w.approvals
            && (v in w'.holders <==> !OnRecord(w.content, n, m.now1) && !OnHold(w.content, n, m.now2))
            && (v in w'.holders ==>
                  && w'.holders == w.holders[v := m.now2 + 60000]
                  && forall at | m.now1 <= at :: OnHold(w'.content, n, at) <==> at < m.now2 + 60000)
            && (v !in w'.holders ==> w' == w)
  {
    ReserveFailsFor(w.content, n, Whole(RESERVATION_MS), m.now1, m.now2);
    ReserveMeaning(w.content, n, Whole(RESERVATION_MS), m.now1, m.now2);
  }

  /** A verifier that fails gives the nonce back: it is on hold no more, and on record only if it was before. */
  lemma FailureFreesTheNonce(w: World, n: Nonce, m: Moment)
    requires m.event.Fail? && IsReadable(w.content) && !IsBlank(n)
    ensures var w' := Next(w, n, m);
            && w'.approvals == w.approvals && w'.holders == w.holders - {m.event.v}
            && (forall at | m.now1 <= at :: !OnHold(w'.content, n, at))
            && (forall at | m.now1 <= at :: OnRecord(w'.content, n, at) == OnRecord(w.content, n, at))
  {
    ReleaseMeaning(w.content, n, m.now1);
  }

  /** A verifier whose mark does not throw reports VERIFIED, whatever the mark's answer; the nonce is then on record.
      One whose mark throws goes on holding the nonce. */
  lemma PassRecordsTheNonce(w: World, n: Nonce, m: Moment)
    requires m.event.Pass? && IsReadable(w.content) && !IsBlank(n)
    ensures var w', retention := Next(w, n, m), CalculateRetention(m.now2, m.event.e, m.event.cfg);
            if retention.Err? then w' == w
            else
              && w'.holders == w.holders - {m.event.v}
              && w'.approvals == w.approvals + [Approval(m.event.v, m.now1, retention.value, !OnRecord(w.content, n, m.now1))]
              && (m.now1 < retention.value ==> OnRecord(w'.content, n, m.now1))
  {
    MarkFailsFor(w.content, m.event.cfg, n, m.event.e, m.now1, m.now2);
    if CalculateRetention(m.now2, m.event.e, m.event.cfg).Ok? {
      MarkMeaning(w.content, m.event.cfg, n, m.event.e, m.now1, m.now2);
    }
  }

  // ---------- what approvals promise ----------

  /** No approval is decided before the retention time of an earlier one. */
  ghost predicate Spaced(approvals: seq<Approval>) {
    forall i, j | 0 <= i < j < |approvals| :: approvals[i].until <= approvals[j].at
  }

  ghost predicate AllMarked(approvals: seq<Approval>) {
    forall i | 0 <= i < |approvals| :: approvals[i].marked
  }

  /** Every mark that took effect guards the nonce until its retention time. */
  ghost predicate MarksGuard(w: World, n: Nonce, clock: int) {
    forall i | 0 <= i < |w.approvals| && w.approvals[i].marked && clock < w.approvals[i].until ::
      Guarded(w.content, n, Some(w.approvals[i].until))
  }

  predicate SeenAs(content: Content, n: Nonce, until: int) {
    content.Modern? && n in content.seenUntil && content.seenUntil[n] == Whole(until)
  }

  /** While somebody holds the nonce, it is on record as seen only through one of the approvals. */
  ghost predicate SeenByApproval(w: World, n: Nonce) {
    w.content.Modern? && n in w.content.seen ==>
      exists i :: 0 <= i < |w.approvals| && SeenAs(w.content, n, w.approvals[i].until)
  }

  ghost predicate HeldIsModern(w: World, n: Nonce) {
    w.holders != map[] ==> w.content.Modern? && SeenByApproval(w, n)
  }

  predicate Live(w: World, v: nat, clock: int) {
    v in w.holders && clock < w.holders[v]
  }

  /** A reservation that has not lapsed is the only one, stands in the file, and the nonce is not seen. */
  ghost predicate OneLive(w: World, n: Nonce, clock: int) {
    forall v | v in w.holders && clock < w.holders[v] ::
      && w.content.Modern? && n !in w.content.seen
      && n in w.content.reserved && w.content.reserved[n] == Whole(w.holders[v])
      && forall v' | v' in w.holders && clock < w.holders[v'] :: v' == v
  }

  // ---------- one step at a time ----------

  function EffectTick(n: Nonce, m: Moment): Tick {
    match m.event
    case Start(_) => Tick(ReserveOp(n, Whole(RESERVATION_MS)), m.now1, m.now2)
    case Fail(_) => Tick(ReleaseOp(n), m.now1, m.now2)
    case Pass(_, cfg, e) => PassTick(n, m)
    case Other(op) => Tick(op, m.now1, m.now2)
  }

  lemma ContentSteps(w: World, n: Nonce, m: Moment)
    ensures Next(w, n, m).content == Step(w.content, EffectTick(n, m))
  {
  }

  lemma GuardStep(w: World, n: Nonce, clock: int, m: Moment)
    requires MarksGuard(w, n, clock) && clock <= m.now1 <= m.now2
    ensures MarksGuard(Next(w, n, m), n, m.now2)
  {
    var w' := Next(w, n, m);
    ContentSteps(w, n, m);
    forall i | 0 <= i < |w'.approvals| && w'.approvals[i].marked && m.now2 < w'.approvals[i].until
      ensures Guarded(w'.content, n, Some(w'.approvals[i].until))
    {
      if i < |w.approvals| {
        GuardHolds(w.content, EffectTick(n, m), n, Some(w.approvals[i].until));
      } else {
        ConsumedIsGuarded(w.content, EffectTick(n, m), n);
      }
    }
  }

  // A mark that takes effect comes no sooner than the retention time of every earlier one.
  lemma MarkIsSpaced(w: World, n: Nonce, clock: int, m: Moment, i: nat)
    requires MarksGuard(w, n, clock) && clock <= m.now1 && m.event.Pass?
    requires i < |w.approvals| && w.approvals[i].marked
    requires Mark(w.content, m.event.cfg, n, m.event.e, m.now1, m.now2).1 == Ok(true)
    ensures w.approvals[i].until <= m.now1
  {
    if m.now1 < w.approvals[i].until {
      GuardHolds(w.content, PassTick(n, m), n, Some(w.approvals[i].until));
    }
  }

  lemma OneMoreApproval(approvals: seq<Approval>, a: Approval)
    ensures AllMarked(approvals + [a]) <==> AllMarked(approvals) && a.marked
    ensures Spaced(approvals + [a]) <==> Spaced(approvals) && forall i | 0 <= i < |approvals| :: approvals[i].until <= a.at
  {
    var all := approvals + [a];
    assert all[|approvals|] == a && forall i | 0 <= i < |approvals| :: approvals[i] == all[i];
    if Spaced(all) {
      assert forall i | 0 <= i < |approvals| :: all[i].until <= all[|approvals|].at;
    }
  }

  lemma AvoidingKeepsRecord(content: Content, n: Nonce, k: Tick, until: int)
    requires content.Modern? && Avoids(k.op, n)
    ensures var content' := Step(content, k);
            && content'.Modern?
            && (n in content'.seen ==> n in content.seen && (SeenAs(content, n, until) ==> SeenAs(content', n, until)))
  {
    if IsReadable(content) {
      match k.op
      case BatchOp(cfg, nonces, e) =>
        if CalculateRetention(k.now2, e, cfg).Ok? {
          MarkAllAvoids(View(content, k.now1), nonces, CalculateRetention(k.now2, e, cfg).value, n);
        }
      case _ =>
    }
  }

  lemma {:induction false} MarkAllAvoids(s: State, nonces: seq<Nonce>, until: nat, n: Nonce)
    requires n !in nonces
    ensures var s' := MarkAll(s, nonces, until).0;
            && (n in s'.seen <==> n in s.seen)
            && (n in s'.seenUntil <==> n in s.seenUntil) && (n in s.seenUntil ==> s'.seenUntil[n] == s.seenUntil[n])
            && (n in s'.reserved <==> n in s.reserved) && (n in s.reserved ==> s'.reserved[n] == s.reserved[n])
  {
    if nonces != [] {
      MarkAllAvoids(s, nonces[..|nonces| - 1], until, n);
    }
  }

  lemma AvoidingKeepsReservation(content: Content, n: Nonce, k: Tick, expiry: int)
    requires content.Modern? && Avoids(k.op, n) && n !in content.seen
    requires n in content.reserved && content.reserved[n] == Whole(expiry) && k.now1 < expiry
    ensures var content' := Step(content, k);
            content'.Modern? && n !in content'.seen && n in content'.reserved && content'.reserved[n] == Whole(expiry)
  {
    if IsReadable(content) {
      match k.op
      case BatchOp(cfg, nonces, e) =>
        if CalculateRetention(k.now2, e, cfg).Ok? {
          MarkAllAvoids(View(content, k.now1), nonces, CalculateRetention(k.now2, e, cfg).value, n);
        }
      case _ =>
    }
  }

  lemma RecordStep(w: World, n: Nonce, m: Moment)
    requires HeldIsModern(w, n) && Legal(w, n, m)
    ensures HeldIsModern(Next(w, n, m), n)
  {
    var w' := Next(w, n, m);
    if w'.holders != map[] && w'.content.Modern? && n in w'.content.seen && w.holders != map[] {
      match m.event
      case Pass(v, cfg, e) =>
        if Mark(w.content, cfg, n, e, m.now1, m.now2).1 == Ok(true) {
          assert SeenAs(w'.content, n, w'.approvals[|w.approvals|].until);
        } else if w' != w {
          OldRecordStands(w, w', n);
        }
      case Other(op) =>
        AvoidingKeepsRecord(w.content, n, EffectTick(n, m), 0);
        var i :| 0 <= i < |w.approvals| && SeenAs(w.content, n, w.approvals[i].until);
        AvoidingKeepsRecord(w.content, n, EffectTick(n, m), w.approvals[i].until);
      case Start(_) => OldRecordStands(w, w', n);
      case Fail(_) => OldRecordStands(w, w', n);
    }
    if w.holders != map[] {
      HoldingStaysModern(w, n, m);
    }
  }

  // Reserving, releasing and refusing leave the record of a nonce as it was, or drop it.
  lemma OldRecordStands(w: World, w': World, n: Nonce)
    requires w.content.Modern? && SeenByApproval(w, n) && w'.content.Modern? && w.approvals <= w'.approvals
    requires n in w'.content.seen ==>
               && n in w.content.seen
               && forall until :: SeenAs(w.content, n, until) ==> SeenAs(w'.content, n, until)
    ensures SeenByApproval(w', n)
  {
    if n in w'.content.seen {
      var i :| 0 <= i < |w.approvals| && SeenAs(w.content, n, w.approvals[i].until);
      assert SeenAs(w'.content, n, w'.approvals[i].until);
    }
  }

  lemma HoldingStaysModern(w: World, n: Nonce, m: Moment)
    requires w.content.Modern?
    ensures Next(w, n, m).content.Modern?
  {
  }

  lemma {:induction false} BalanceStep(w: World, n: Nonce, clock: int, m: Moment)
    requires MarksGuard(w, n, clock) && HeldIsModern(w, n) && Legal(w, n, m) && clock <= m.now1
    requires Spaced(w.approvals) <==> AllMarked(w.approvals)
    ensures var w' := Next(w, n, m); Spaced(w'.approvals) <==> AllMarked(w'.approvals)
  {
    var w' := Next(w, n, m);
    if m.event.Pass? && Mark(w.content, m.event.cfg, n, m.event.e, m.now1, m.now2).1.Ok? {
      var a := w'.approvals[|w.approvals|];
      OneMoreApproval(w.approvals, a);
      if a.marked && AllMarked(w.approvals) {
        forall i | 0 <= i < |w.approvals| ensures w.approvals[i].until <= a.at {
          MarkIsSpaced(w, n, clock, m, i);
        }
      }
      if !a.marked {
        var i :| 0 <= i < |w.approvals| && SeenAs(w.content, n, w.approvals[i].until);
        assert w.approvals[i].until > a.at;
      }
    }
  }

  lemma {:induction false} RunBalance(w: World, n: Nonce, clock: int, ms: seq<Moment>)
    requires MarksGuard(w, n, clock) && HeldIsModern(w, n) && Proper(w, n, clock, ms)
    requires Spaced(w.approvals) <==> AllMarked(w.approvals)
    ensures var w' := RunWorld(w, n, ms); Spaced(w'.approvals) <==> AllMarked(w'.approvals)
    decreases |ms|
  {
    if ms != [] {
      GuardStep(w, n, clock, ms[0]);
      RecordStep(w, n, ms[0]);
      BalanceStep(w, n, clock, ms[0]);
      RunBalance(Next(w, n, ms[0]), n, ms[0].now2, ms[1..]);
    }
  }

  /** Ignoring the boolean of the mark does harm exactly when one of the ignored booleans is false: in every run of
      any verifiers, no two VERIFIED outcomes fall within one retention time if and only if every mark took effect. */
  lemma IgnoredBooleanMatters(content: Content, n: Nonce, clock: int, ms: seq<Moment>)
    requires Proper(World(content, map[], []), n, clock, ms)
    ensures var w := RunWorld(World(content, map[], []), n, ms);
            Spaced(w.approvals) <==> AllMarked(w.approvals)
  {
    RunBalance(World(content, map[], []), n, clock, ms);
  }

  // ---------- verifiers that finish in time ----------

  lemma LiveStep(w: World, n: Nonce, clock: int, m: Moment)
    requires OneLive(w, n, clock) && clock <= m.now1 <= m.now2 && Legal(w, n, m) && Timely(w, m)
    ensures OneLive(Next(w, n, m), n, m.now2)
  {
    var w' := Next(w, n, m);
    if m.event.Fail? || m.event.Pass? {
      assert Live(w, m.event.v, clock);
    }
    forall v | v in w'.holders && m.now2 < w'.holders[v]
      ensures w'.content.Modern? && n !in w'.content.seen
      ensures n in w'.content.reserved && w'.content.reserved[n] == Whole(w'.holders[v])
      ensures forall v' | v' in w'.holders && m.now2 < w'.holders[v'] :: v' == v
    {
      match m.event
      case Start(u) =>
        if Reserve(w.content, n, Whole(RESERVATION_MS), m.now1, m.now2).1 == Ok(true) {
          StartIsAlone(w, n, clock, m, u);
        }
      case Other(op) => AvoidingKeepsReservation(w.content, n, EffectTick(n, m), w.holders[v]);
      case _ =>
    }
  }

  // A reservation is granted only when no other one is still running.
  lemma StartIsAlone(w: World, n: Nonce, clock: int, m: Moment, u: nat)
    requires OneLive(w, n, clock) && clock <= m.now1 <= m.now2 && m.event == Start(u)
    requires Reserve(w.content, n, Whole(RESERVATION_MS), m.now1, m.now2).1 == Ok(true)
    ensures forall v | v in w.holders :: w.holders[v] <= m.now2
    ensures var content := Next(w, n, m).content;
            content.Modern? && n !in content.seen
            && n in content.reserved && content.reserved[n] == Whole(m.now2 + RESERVATION_MS)
  {
  }

  lemma TimelyMarkTakesEffect(w: World, n: Nonce, clock: int, m: Moment)
    requires OneLive(w, n, clock) && clock <= m.now1 && Legal(w, n, m) && Timely(w, m)
    requires AllMarked(w.approvals)
    ensures AllMarked(Next(w, n, m).approvals)
  {
    if m.event.Pass? {
      assert Live(w, m.event.v, clock);
    }
  }

  lemma {:induction false} RunTimely(w: World, n: Nonce, clock: int, ms: seq<Moment>)
    requires OneLive(w, n, clock) && AllMarked(w.approvals) && Proper(w, n, clock, ms) && AllTimely(w, n, ms)
    ensures AllMarked(RunWorld(w, n, ms).approvals)
    decreases |ms|
  {
    if ms != [] {
      LiveStep(w, n, clock, ms[0]);
      TimelyMarkTakesEffect(w, n, clock, ms[0]);
      RunTimely(Next(w, n, ms[0]), n, ms[0].now2, ms[1..]);
    }
  }

  /** If every verifier marks or releases before its reservation lapses, then in every interleaving at most one is
      VERIFIED until the retention time of its mark. */
  lemma TimelyVerifiersApproveOnce(content: Content, n: Nonce, clock: int, ms: seq<Moment>)
    requires Proper(World(content, map[], []), n, clock, ms) && AllTimely(World(content, map[], []), n, ms)
    ensures var w := RunWorld(World(content, map[], []), n, ms);
            forall i, j | 0 <= i < j < |w.approvals| :: w.approvals[i].until <= w.approvals[j].at
  {
    RunTimely(World(content, map[], []), n, clock, ms);
    IgnoredBooleanMatters(content, n, clock, ms);
  }

  const DEFAULTS := Config(86400000, 300000)

  const FIRST_STARTS := Moment(Start(1), 0, 0)
  const SECOND_STARTS := Moment(Start(2), 70000, 70000)
  const SECOND_PASSES := Moment(Pass(2, DEFAULTS, Unspecified), 70001, 70001)
  const FIRST_PASSES := Moment(Pass(1, DEFAULTS, Unspecified), 70002, 70002)

  const EMPTY_WORLD := World(Absent, map[], [])

  function FirstHolds(n: Nonce): World {
    World(Modern([], map[], map[n := Whole(60000)]), map[1 := 60000], [])
  }

  function BothHold(n: Nonce): World {
    World(Modern([], map[], map[n := Whole(130000)]), map[1 := 60000, 2 := 130000], [])
  }

  function SecondVerified(n: Nonce): World {
    World(Modern([n], map[n := Whole(86470001)], map[]), map[1 := 60000], [Approval(2, 70001, 86470001, true)])
  }

  lemma FirstStarts(n: Nonce)
    requires !IsBlank(n)
    ensures Next(EMPTY_WORLD, n, FIRST_STARTS) == FirstHolds(n)
  {
    assert AsStamps(map[n := 60000]) == map[n := Whole(60000)] && AsStamps(map[]) == map[];
  }

  lemma SecondStarts(n: Nonce)
    requires !IsBlank(n) && n != Nonce("")
    ensures Next(FirstHolds(n), n, SECOND_STARTS) == BothHold(n)
  {
    assert AsStamps(map[n := 130000]) == map[n := Whole(130000)] && AsStamps(map[]) == map[];
  }

  lemma SecondPasses(n: Nonce)
    requires !IsBlank(n) && n != Nonce("")
    ensures Next(BothHold(n), n, SECOND_PASSES) == SecondVerified(n)
  {
    var s := View(BothHold(n).content, 70001);
    assert s == State([], map[], map[n := 130000]);
    assert Written(MarkOne(s, n, 86470001)) == SecondVerified(n).content;
    assert map[1 := 60000, 2 := 130000] - {2} == map[1 := 60000];
  }

  lemma FirstPasses(n: Nonce)
    requires !IsBlank(n) && n != Nonce("")
    ensures Next(SecondVerified(n), n, FIRST_PASSES).approvals
            == [Approval(2, 70001, 86470001, true), Approval(1, 70002, 86470002, false)]
  {
    var content := SecondVerified(n).content;
    assert content.seen == [n];
    assert n in View(content, 70002).seen;
  }

  lemma OneMoreMoment(w: World, n: Nonce, clock: int, m: Moment, rest: seq<Moment>)
    ensures RunWorld(w, n, [m] + rest) == RunWorld(Next(w, n, m), n, rest)
    ensures Proper(w, n, clock, [m] + rest)
            <==> clock <= m.now1 <= m.now2 && Legal(w, n, m) && Proper(Next(w, n, m), n, m.now2, rest)
  {
    assert ([m] + rest)[1..] == rest;
  }

  /** Without the time limit the protocol is not single-use: after a lapsed reservation two verifiers of one nonce
      end VERIFIED a millisecond apart, the second on a mark that returned false. */
  lemma LateVerifierSlipsThrough(n: Nonce)
    requires !IsBlank(n)
    ensures var late := [FIRST_STARTS] + ([SECOND_STARTS] + ([SECOND_PASSES] + ([FIRST_PASSES] + [])));
            && Proper(EMPTY_WORLD, n, 0, late)
            && RunWorld(EMPTY_WORLD, n, late).approvals
               == [Approval(2, 70001, 86470001, true), Approval(1, 70002, 86470002, false)]
  {
    EmptyIsBlank();
    FirstStarts(n);
    SecondStarts(n);
    SecondPasses(n);
    FirstPasses(n);
    OneMoreMoment(EMPTY_WORLD, n, 0, FIRST_STARTS, [SECOND_STARTS] + ([SECOND_PASSES] + ([FIRST_PASSES] + [])));
    OneMoreMoment(FirstHolds(n), n, 0, SECOND_STARTS, [SECOND_PASSES] + ([FIRST_PASSES] + []));
    OneMoreMoment(BothHold(n), n, 70000, SECOND_PASSES, [FIRST_PASSES] + []);
    OneMoreMoment(SecondVerified(n), n, 70001, FIRST_PASSES, []);
  }
}
