/** A nonce that was marked is not accepted again before its retention time, over every run of a shared store. */
module NonceLaws {
  import opened Wrappers
  import opened Nonces
  import Text

  // ---------- retention ----------

  predicate ValidExpiry(e: Expiry) {
    match e
    case Unspecified => true
    case Number(value) => value.Valid()
    case Options(expiresAt, ttl) => (expiresAt.Some? ==> expiresAt.value.Valid()) && (ttl.Some? ==> ttl.value.Valid())
    case Unsupported => false
  }

  /** The absolute expiry, in milliseconds, that the argument states. */
  function ExpiryMs(e: Expiry): Option<int> {
    match e
    case Number(Whole(n)) =>
      if n > 100_000_000_000 then Some(n) else if n > 1_000_000_000 then Some(1000 * n) else None
    case Options(Some(Whole(n)), _) => Some(if n > 100_000_000_000 then n else 1000 * n)
    case _ => None
  }

  /** The duration the argument states instead. */
  function DurationMs(e: Expiry): Option<int> {
    match e
    case Number(Whole(n)) => if n <= 1_000_000_000 then Some(n) else None
    case Options(None, Some(Whole(n))) => Some(n)
    case _ => None
  }

  /** The times a retention has to reach. */
  predicate Demands(d: int, now: int, e: Expiry, cfg: Config) {
    || d == now + cfg.defaultRetentionMs
    || (ExpiryMs(e).Some? && d == ExpiryMs(e).value + cfg.clockSkewMs)
    || (DurationMs(e).Some? && d == now + DurationMs(e).value)
  }

  predicate ValidTimes(now: int, e: Expiry, cfg: Config) {
    IsSafe(now) && IsSafe(cfg.defaultRetentionMs) && IsSafe(cfg.clockSkewMs) && ValidExpiry(e)
  }

  /** A retention time is the latest of the times demanded; none is granted exactly when an argument is not a safe
      integer or one of the times demanded is not. */
  lemma RetentionIsLatest(now: int, e: Expiry, cfg: Config)
    ensures var r := CalculateRetention(now, e, cfg);
            && (r.Ok? <==> ValidTimes(now, e, cfg) && forall d | Demands(d, now, e, cfg) :: IsSafe(d))
            && (r.Ok? ==> Demands(r.value, now, e, cfg) && forall d | Demands(d, now, e, cfg) :: d <= r.value)
  {
    assert Demands(now + cfg.defaultRetentionMs, now, e, cfg);
    if ExpiryMs(e).Some? {
      assert Demands(ExpiryMs(e).value + cfg.clockSkewMs, now, e, cfg);
    } else if DurationMs(e).Some? {
      assert Demands(now + DurationMs(e).value, now, e, cfg);
    }
  }

  lemma RetentionAtLeast(now: int, e: Expiry, cfg: Config)
    requires CalculateRetention(now, e, cfg).Ok?
    ensures CalculateRetention(now, e, cfg).value >= now + cfg.defaultRetentionMs
    ensures ExpiryMs(e).Some? ==> CalculateRetention(now, e, cfg).value >= ExpiryMs(e).value + cfg.clockSkewMs
    ensures IsSafe(CalculateRetention(now, e, cfg).value)
  {
    RetentionIsLatest(now, e, cfg);
    assert Demands(now + cfg.defaultRetentionMs, now, e, cfg);
    if ExpiryMs(e).Some? {
      assert Demands(ExpiryMs(e).value + cfg.clockSkewMs, now, e, cfg);
    }
  }

  // ---------- runs ----------

  datatype Op =
    | ReserveOp(n: Nonce, ttl: Stamp)
    | ReleaseOp(n: Nonce)
    | MarkOp(cfg: Config, n: Nonce, e: Expiry)
    | BatchOp(cfg: Config, nonces: seq<Nonce>, e: Expiry)
    | SeenOp(n: Nonce)

  /** One operation of any store on the file, with its two readings of the clock. */
  datatype Tick = Tick(op: Op, now1: int, now2: int)

  function Step(content: Content, k: Tick): Content {
    match k.op
    case ReserveOp(n, ttl) => Reserve(content, n, ttl, k.now1, k.now2).0
    case ReleaseOp(n) => Release(content, n, k.now1).0
    case MarkOp(cfg, n, e) => Mark(content, cfg, n, e, k.now1, k.now2).0
    case BatchOp(cfg, nonces, e) => MarkBatch(content, cfg, nonces, e, k.now1, k.now2).0
    case SeenOp(n) => content
  }

  function Run(content: Content, ticks: seq<Tick>): Content
    decreases |ticks|
  {
    if ticks == [] then content else Run(Step(content, ticks[0]), ticks[1..])
  }

  /** The clock never goes back. */
  predicate Ordered(clock: int, ticks: seq<Tick>)
    decreases |ticks|
  {
    ticks == [] || (clock <= ticks[0].now1 <= ticks[0].now2 && Ordered(ticks[0].now2, ticks[1..]))
  }

  /** A mark or a batch consumes the nonce: it was not seen, and the operation records it. */
  predicate Consumes(content: Content, k: Tick, n: Nonce) {
    match k.op
    case MarkOp(cfg, n', e) => n' == n && Mark(content, cfg, n, e, k.now1, k.now2).1 == Ok(true)
    case BatchOp(cfg, nonces, e) =>
      n in nonces && MarkBatch(content, cfg, nonces, e, k.now1, k.now2).1.Ok? && n !in View(content, k.now1).seen
    case _ => false
  }

  /** The operation tells its caller that the nonce is fresh. */
  predicate Accepts(content: Content, k: Tick, n: Nonce) {
    match k.op
    case ReserveOp(n', ttl) => n' == n && Reserve(content, n, ttl, k.now1, k.now2).1 == Ok(true)
    case SeenOp(n') => n' == n && IsSeen(content, n, k.now1, k.now2) == Ok(false)
    case _ => Consumes(content, k, n)
  }

  // ---------- single use ----------

  /** The file holds the nonce as seen, at least until the given time, or for good when there is none. */
  predicate Guarded(content: Content, n: Nonce, until: Option<int>) {
    match content
    case Legacy(nonces) => n in nonces
    case Modern(seen, seenUntil, _) =>
      && n in seen
      && (n in seenUntil && seenUntil[n].Whole? ==> until.Some? && seenUntil[n].n >= until.value)
    case _ => false
  }

  predicate Before(now: int, until: Option<int>) {
    until.None? || now < until.value
  }

  /** What an operation sees of a guarded nonce. */
  predicate GuardedState(s: State, n: Nonce, until: Option<int>) {
    n in s.seen && (n in s.seenUntil ==> until.Some? && s.seenUntil[n] >= until.value)
  }

  lemma GuardedIsViewed(content: Content, n: Nonce, until: Option<int>, now: int)
    requires IsReadable(content) && Guarded(content, n, until) && Before(now, until)
    ensures GuardedState(View(content, now), n, until)
  {
  }

  lemma WrittenStaysGuarded(s: State, n: Nonce, until: Option<int>)
    requires GuardedState(s, n, until)
    ensures Guarded(Written(s), n, until)
  {
  }

  lemma {:induction false} MarkAllStaysGuarded(s: State, nonces: seq<Nonce>, t: nat, n: Nonce, until: Option<int>)
    requires GuardedState(s, n, until)
    ensures GuardedState(MarkAll(s, nonces, t).0, n, until)
  {
    if nonces != [] {
      MarkAllStaysGuarded(s, nonces[..|nonces| - 1], t, n, until);
    }
  }

  lemma GuardHolds(content: Content, k: Tick, n: Nonce, until: Option<int>)
    requires Guarded(content, n, until) && Before(k.now1, until)
    ensures !Accepts(content, k, n)
    ensures Guarded(Step(content, k), n, until)
  {
    if IsReadable(content) {
      GuardedIsViewed(content, n, until, k.now1);
      var s := View(content, k.now1);
      match k.op
      case ReserveOp(n', ttl) =>
        if ReservationExpiry(k.now2, ttl).Ok? {
          WrittenStaysGuarded(s.(reserved := s.reserved[n' := ReservationExpiry(k.now2, ttl).value]), n, until);
        }
      case ReleaseOp(n') => WrittenStaysGuarded(s.(reserved := s.reserved - {n'}), n, until);
      case MarkOp(_, _, _) => MarkKeepsGuard(content, k, n, until, s);
      case BatchOp(_, _, _) => BatchKeepsGuard(content, k, n, until, s);
      case SeenOp(_) =>
    }
  }

  lemma MarkKeepsGuard(content: Content, k: Tick, n: Nonce, until: Option<int>, s: State)
    requires Guarded(content, n, until) && IsReadable(content) && s == View(content, k.now1)
    requires GuardedState(s, n, until) && k.op.MarkOp?
    ensures Guarded(Step(content, k), n, until)
  {
    var retention := CalculateRetention(k.now2, k.op.e, k.op.cfg);
    if k.op.n != n && retention.Ok? {
      WrittenStaysGuarded(MarkOne(s, k.op.n, retention.value), n, until);
    }
  }

  lemma BatchKeepsGuard(content: Content, k: Tick, n: Nonce, until: Option<int>, s: State)
    requires Guarded(content, n, until) && IsReadable(content) && s == View(content, k.now1)
    requires GuardedState(s, n, until) && k.op.BatchOp?
    ensures Guarded(Step(content, k), n, until)
  {
    var retention := CalculateRetention(k.now2, k.op.e, k.op.cfg);
    if retention.Ok? {
      MarkAllStaysGuarded(s, k.op.nonces, retention.value, n, until);
      WrittenStaysGuarded(MarkAll(s, k.op.nonces, retention.value).0, n, until);
    }
  }

  lemma {:induction false} RunStaysGuarded(content: Content, ticks: seq<Tick>, n: Nonce, until: Option<int>)
    requires Guarded(content, n, until) && forall i | 0 <= i < |ticks| :: Before(ticks[i].now1, until)
    ensures Guarded(Run(content, ticks), n, until)
    decreases |ticks|
  {
    if ticks != [] {
      GuardHolds(content, ticks[0], n, until);
      RunStaysGuarded(Step(content, ticks[0]), ticks[1..], n, until);
    }
  }

  /** Until when the consuming operation keeps the nonce. */
  function KeptUntil(k: Tick): int
    requires k.op.MarkOp? || k.op.BatchOp?
  {
    match CalculateRetention(k.now2, k.op.e, k.op.cfg)
    case Ok(until) => until
    case Err(_) => k.now2
  }

  lemma {:induction false} MarkAllRecords(s: State, nonces: seq<Nonce>, until: nat, n: Nonce)
    requires n in nonces && n !in s.seen
    ensures var s' := MarkAll(s, nonces, until).0; n in s'.seen && n in s'.seenUntil && s'.seenUntil[n] == until
  {
    var init := nonces[..|nonces| - 1];
    if n in init {
      MarkAllRecords(s, init, until, n);
    } else {
      MarkAllSkips(s, init, until, n);
    }
  }

  lemma {:induction false} MarkAllSkips(s: State, nonces: seq<Nonce>, until: nat, n: Nonce)
    requires n !in nonces
    ensures n in MarkAll(s, nonces, until).0.seen <==> n in s.seen
  {
    if nonces != [] {
      MarkAllSkips(s, nonces[..|nonces| - 1], until, n);
    }
  }

  lemma ConsumedIsGuarded(content: Content, k: Tick, n: Nonce)
    requires Consumes(content, k, n)
    ensures Guarded(Step(content, k), n, Some(KeptUntil(k)))
  {
    if k.op.BatchOp? {
      MarkAllRecords(View(content, k.now1), k.op.nonces, KeptUntil(k), n);
    }
  }

  /** Once a nonce has been consumed, no operation of any store on the file that starts before the retention time
      accepts it again, whatever happens in between; and the retention time lies at least the default retention
      after the mark, and past a stated expiry by the clock skew. */
  lemma NonceIsSingleUse(content: Content, k: Tick, n: Nonce, ticks: seq<Tick>, later: Tick)
    requires Consumes(content, k, n) && Ordered(k.now2, ticks + [later]) && later.now1 < KeptUntil(k)
    ensures !Accepts(Run(Step(content, k), ticks), later, n)
    ensures KeptUntil(k) >= k.now2 + k.op.cfg.defaultRetentionMs
    ensures ExpiryMs(k.op.e).Some? ==> KeptUntil(k) >= ExpiryMs(k.op.e).value + k.op.cfg.clockSkewMs
  {
    ConsumedIsGuarded(content, k, n);
    RetentionAtLeast(k.now2, k.op.e, k.op.cfg);
    LastIsLatest(k.now2, ticks, later);
    RunStaysGuarded(Step(content, k), ticks, n, Some(KeptUntil(k)));
    GuardHolds(Run(Step(content, k), ticks), later, n, Some(KeptUntil(k)));
  }

  lemma {:induction false} LastIsLatest(clock: int, ticks: seq<Tick>, later: Tick)
    requires Ordered(clock, ticks + [later])
    ensures clock <= later.now1 && forall i | 0 <= i < |ticks| :: ticks[i].now1 <= later.now1
    decreases |ticks|
  {
    var all := ticks + [later];
    if ticks == [] {
      assert all[0] == later;
    } else {
      assert all[0] == ticks[0] && all[1..] == ticks[1..] + [later];
      LastIsLatest(ticks[0].now2, ticks[1..], later);
      forall i | 0 <= i < |ticks| ensures ticks[i].now1 <= later.now1 {
        if i > 0 {
          assert ticks[1..][i - 1] == ticks[i];
        }
      }
    }
  }

  /** A seen entry without a timestamp is never accepted again, at any time on any clock. */
  lemma LegacyIsNeverAccepted(content: Content, n: Nonce, ticks: seq<Tick>, later: Tick)
    requires content.Legacy? ==> n in content.nonces
    requires content.Modern? ==> n in content.seen && (n in content.seenUntil ==> !content.seenUntil[n].Whole?)
    requires content.Legacy? || content.Modern?
    ensures !Accepts(Run(content, ticks), later, n)
  {
    RunStaysGuarded(content, ticks, n, None);
    GuardHolds(Run(content, ticks), later, n, None);
  }

  /** A mark with valid arguments on a readable file succeeds exactly when the nonce is not on record or its
      retention time has come. */
  lemma MarkSucceedsExactlyWhen(content: Content, cfg: Config, n: Nonce, e: Expiry, now1: int, now2: int)
    requires IsReadable(content) && !IsBlank(n) && CalculateRetention(now2, e, cfg).Ok?
    ensures Mark(content, cfg, n, e, now1, now2).1.Ok?
    ensures Mark(content, cfg, n, e, now1, now2).1.value <==>
              match content
              case Absent => true
              case Legacy(nonces) => n !in nonces
              case Modern(seen, seenUntil, _) => n !in seen || (n in seenUntil && seenUntil[n].n <= now1)
              case Unreadable => false
  {
  }

  // ---------- shape of a file that started empty ----------

  ghost predicate NoRepeats(ns: seq<Nonce>) {
    forall i, j | 0 <= i < j < |ns| :: ns[i] != ns[j]
  }

  ghost predicate CleanState(s: State) {
    && NoRepeats(s.seen) && Nonce("") !in s.seen && Nonce("") !in s.reserved
    && (forall n :: n in s.seenUntil <==> n in s.seen)
    && (forall n | n in s.seen :: n !in s.reserved)
    && (forall n | n in s.seenUntil :: IsSafe(s.seenUntil[n]))
    && (forall n | n in s.reserved :: IsSafe(s.reserved[n]))
  }

  ghost predicate Clean(content: Content) {
    content.Absent? || exists s :: CleanState(s) && content == Written(s)
  }

  lemma {:induction false} KeptSeenNoRepeats(seen: seq<Nonce>, until: map<Nonce, Stamp>, now: int)
    requires NoRepeats(seen)
    ensures NoRepeats(KeptSeen(seen, until, now))
  {
    if seen != [] {
      var init, last := seen[..|seen| - 1], seen[|seen| - 1];
      assert last !in init;
      KeptSeenNoRepeats(init, until, now);
    }
  }

  lemma CleanView(content: Content, now: int)
    requires Clean(content)
    ensures IsReadable(content) && CleanState(View(content, now))
  {
    if !content.Absent? {
      var s :| CleanState(s) && content == Written(s);
      WrittenReads(s);
      WrittenView(s, now);
    }
  }

  lemma WrittenReads(s: State)
    requires CleanState(s)
    ensures IsReadable(Written(s))
  {
  }

  lemma WrittenView(s: State, now: int)
    requires CleanState(s) && IsReadable(Written(s))
    ensures CleanState(View(Written(s), now))
  {
    KeptSeenNoRepeats(s.seen, AsStamps(s.seenUntil), now);
  }

  lemma MarkOneClean(s: State, n: Nonce, until: nat)
    requires CleanState(s) && n !in s.seen && n != Nonce("") && IsSafe(until)
    ensures CleanState(MarkOne(s, n, until))
  {
  }

  lemma {:induction false} MarkAllClean(s: State, nonces: seq<Nonce>, until: nat)
    requires CleanState(s) && Nonce("") !in nonces && IsSafe(until)
    ensures CleanState(MarkAll(s, nonces, until).0)
  {
    if nonces != [] {
      var init, n := nonces[..|nonces| - 1], nonces[|nonces| - 1];
      MarkAllClean(s, init, until);
      if n !in MarkAll(s, init, until).0.seen {
        MarkOneClean(MarkAll(s, init, until).0, n, until);
      }
    }
  }

  lemma EmptyIsBlank()
    ensures IsBlank(Nonce(""))
  {
    assert Text.Trim("") == "";
  }

  lemma WrittenClean(s: State)
    requires CleanState(s)
    ensures Clean(Written(s))
  {
  }

  lemma ReservedClean(s: State, n: Nonce, t: nat)
    requires CleanState(s) && n != Nonce("") && n !in s.seen && IsSafe(t)
    ensures CleanState(s.(reserved := s.reserved[n := t]))
  {
  }

  lemma ReleasedClean(s: State, n: Nonce)
    requires CleanState(s)
    ensures CleanState(s.(reserved := s.reserved - {n}))
  {
  }

  lemma StepClean(content: Content, k: Tick)
    requires Clean(content)
    ensures Clean(Step(content, k))
  {
    CleanView(content, k.now1);
    var s := View(content, k.now1);
    match k.op
    case ReserveOp(n, ttl) => ReserveClean(content, s, k, n, ttl);
    case ReleaseOp(n) =>
      ReleasedClean(s, n);
      WrittenClean(s.(reserved := s.reserved - {n}));
    case MarkOp(cfg, n, e) => MarkClean(content, s, k, cfg, n, e);
    case BatchOp(cfg, nonces, e) => BatchClean(content, s, k, cfg, nonces, e);
    case SeenOp(_) =>
  }

  lemma ReserveClean(content: Content, s: State, k: Tick, n: Nonce, ttl: Stamp)
    requires Clean(content) && ReadState(content, k.now1) == Ok(s) && CleanState(s)
    ensures Clean(Reserve(content, n, ttl, k.now1, k.now2).0)
  {
    EmptyIsBlank();
    var t := ReservationExpiry(k.now2, ttl);
    if t.Ok? && !IsBlank(n) && n !in s.seen {
      ReservedClean(s, n, t.value);
      WrittenClean(s.(reserved := s.reserved[n := t.value]));
    }
  }

  lemma MarkClean(content: Content, s: State, k: Tick, cfg: Config, n: Nonce, e: Expiry)
    requires Clean(content) && ReadState(content, k.now1) == Ok(s) && CleanState(s)
    ensures Clean(Mark(content, cfg, n, e, k.now1, k.now2).0)
  {
    EmptyIsBlank();
    var t := CalculateRetention(k.now2, e, cfg);
    if t.Ok? && !IsBlank(n) && n !in s.seen {
      RetentionAtLeast(k.now2, e, cfg);
      MarkOneClean(s, n, t.value);
      WrittenClean(MarkOne(s, n, t.value));
    }
  }

  lemma BatchClean(content: Content, s: State, k: Tick, cfg: Config, nonces: seq<Nonce>, e: Expiry)
    requires Clean(content) && ReadState(content, k.now1) == Ok(s) && CleanState(s)
    ensures Clean(MarkBatch(content, cfg, nonces, e, k.now1, k.now2).0)
  {
    EmptyIsBlank();
    var t := CalculateRetention(k.now2, e, cfg);
    if t.Ok? && forall n | n in nonces :: !IsBlank(n) {
      RetentionAtLeast(k.now2, e, cfg);
      MarkAllClean(s, nonces, t.value);
      WrittenClean(MarkAll(s, nonces, t.value).0);
    }
  }

  /** In a file that started empty every nonce is listed once, none is both seen and reserved, every seen nonce has
      a retention time, and the file always reads back. */
  lemma {:induction false} RunClean(content: Content, ticks: seq<Tick>)
    requires Clean(content)
    ensures Clean(Run(content, ticks)) && IsReadable(Run(content, ticks))
    decreases |ticks|
  {
    if ticks == [] {
      CleanView(content, 0);
    } else {
      StepClean(content, ticks[0]);
      RunClean(Step(content, ticks[0]), ticks[1..]);
    }
  }
}
