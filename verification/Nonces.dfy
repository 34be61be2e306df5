/** The persisted seen/reserved store of nonces: what one operation reads, answers and writes. Times are
    milliseconds; an operation reads the clock once when it reads the file and once more when it decides. */
module Nonces {
  import opened Wrappers
  import Doubles
  import Text

  datatype Nonce = Nonce(text: string)

  /** A JSON value where a timestamp is expected. */
  datatype Stamp = Whole(n: int) | NotWhole {
    predicate Valid() {
      Whole? && IsSafe(n)
    }
  }

  predicate IsSafe(n: int) {
    0 <= n <= Doubles.MAX_SAFE_INTEGER
  }

  /** The file: `Legacy` is a plain array, `Modern` an object with absent maps taken as empty. `Unreadable` is any
      content that does not parse to one of the two, and any failed read of an existing file. */
  datatype Content =
    | Absent
    | Unreadable
    | Legacy(nonces: seq<Nonce>)
    | Modern(seen: seq<Nonce>, seenUntil: map<Nonce, Stamp>, reserved: map<Nonce, Stamp>)

  datatype State = State(seen: seq<Nonce>, seenUntil: map<Nonce, nat>, reserved: map<Nonce, nat>)

  datatype StorageError = InvalidNonce | InvalidTtl | InvalidExpiry | InvalidClock | OutOfRange | UnreadableState

  datatype Config = Config(defaultRetentionMs: int, clockSkewMs: int)

  /** The expiry argument of a mark. */
  datatype Expiry =
    | Unspecified
    | Number(value: Stamp)
    | Options(expiresAt: Option<Stamp>, ttlMs: Option<Stamp>)
    | Unsupported

  // ---------- arithmetic ----------

  /** The sum as JavaScript adds it, if it passes the safe-integer check. The check makes rounding invisible. */
  function SafeSum(a: nat, b: nat): (r: Result<nat, StorageError>)
    ensures r == if a + b <= Doubles.MAX_SAFE_INTEGER then Ok(a + b) else Err(OutOfRange)
  {
    var sum := Doubles.Add(a, b);
    RoundingInvisible(a + b);
    if IsSafe(sum) then Ok(sum) else Err(OutOfRange)
  }

  lemma RoundingInvisible(n: nat)
    ensures IsSafe(Doubles.Round(n)) <==> IsSafe(n)
    ensures IsSafe(n) ==> Doubles.Round(n) == n
  {
    if n >= Doubles.TWO_53 {
      Doubles.RoundMonotone(Doubles.TWO_53, n);
      assert Doubles.Kept(Doubles.TWO_53) == Doubles.TWO_53;
    }
  }

  function Max(a: nat, b: nat): nat {
    if a >= b then a else b
  }

  function ReservationExpiry(now: int, ttl: Stamp): Result<nat, StorageError> {
    if !IsSafe(now) then Err(InvalidClock)
    else if !ttl.Valid() || ttl.n == 0 then Err(InvalidTtl)
    else SafeSum(now, ttl.n)
  }

  /** Until when a nonce marked now is kept: never less than the default retention, and past the expiry it carries.
      A number above 1e11 is an absolute time in milliseconds, one above 1e9 an absolute time in seconds, a smaller
      one a duration. The `expiresAt` option is always absolute, in seconds up to 1e11. */
  function CalculateRetention(now: int, e: Expiry, cfg: Config): Result<nat, StorageError> {
    if !IsSafe(now) || !IsSafe(cfg.defaultRetentionMs) || !IsSafe(cfg.clockSkewMs) then Err(InvalidClock)
    else
      var standard :- SafeSum(now, cfg.defaultRetentionMs);
      match e
      case Unspecified => Ok(standard)
      case Unsupported => Err(InvalidExpiry)
      case Number(value) =>
        if !value.Valid() then Err(InvalidExpiry)
        else if value.n > 100_000_000_000 then Later(value.n, cfg, standard)
        else if value.n > 1_000_000_000 then Later(value.n * 1000, cfg, standard)
        else SafeSum(now, Max(value.n, cfg.defaultRetentionMs))
      case Options(expiresAt, ttl) =>
        if (expiresAt.Some? && !expiresAt.value.Valid()) || (ttl.Some? && !ttl.value.Valid()) then Err(InvalidExpiry)
        else if expiresAt.Some? then
          Later(if expiresAt.value.n > 100_000_000_000 then expiresAt.value.n else expiresAt.value.n * 1000, cfg, standard)
        else if ttl.Some? then SafeSum(now, Max(ttl.value.n, cfg.defaultRetentionMs))
        else Ok(standard)
  }

  function Later(expiryMs: nat, cfg: Config, standard: nat): Result<nat, StorageError>
    requires IsSafe(cfg.clockSkewMs)
  {
    if !IsSafe(expiryMs) then Err(OutOfRange)
    else
      var candidate :- SafeSum(expiryMs, cfg.clockSkewMs);
      Ok(Max(candidate, standard))
  }

  // ---------- reading ----------

  predicate IsRetained(n: Nonce, until: map<Nonce, Stamp>, now: int) {
    n in until && until[n].Whole? ==> until[n].n > now
  }

  function KeptSeen(seen: seq<Nonce>, until: map<Nonce, Stamp>, now: int): (r: seq<Nonce>)
    ensures forall n :: n in r <==> n in seen && IsRetained(n, until, now)
  {
    if seen == [] then []
    else
      var last := seen[|seen| - 1];
      KeptSeen(seen[..|seen| - 1], until, now) + if IsRetained(last, until, now) then [last] else []
  }

  predicate ValidNames(names: seq<Nonce>) {
    Nonce("") !in names
  }

  predicate ValidStamps(stamps: map<Nonce, Stamp>) {
    Nonce("") !in stamps && forall n | n in stamps :: stamps[n].Valid()
  }

  predicate IsReadable(content: Content) {
    match content
    case Absent => true
    case Unreadable => false
    case Legacy(nonces) => ValidNames(nonces)
    case Modern(seen, seenUntil, reserved) => ValidNames(seen) && ValidStamps(seenUntil) && ValidStamps(reserved)
  }

  /** The state an operation sees: seen nonces past their retention and lapsed reservations are gone; a seen nonce
      without a timestamp stays. */
  function View(content: Content, now: int): State
    requires IsReadable(content)
  {
    match content
    case Absent => State([], map[], map[])
    case Legacy(nonces) => State(nonces, map[], map[])
    case Modern(seen, seenUntil, reserved) =>
      State(KeptSeen(seen, seenUntil, now),
            map n | n in seenUntil && n in seen && seenUntil[n].n > now :: seenUntil[n].n,
            map n | n in reserved && reserved[n].n > now :: reserved[n].n)
  }

  function ReadState(content: Content, now: int): Result<State, StorageError> {
    if IsReadable(content) then Ok(View(content, now)) else Err(UnreadableState)
  }

  function AsStamps(times: map<Nonce, nat>): map<Nonce, Stamp> {
    map n | n in times :: Whole(times[n])
  }

  function Written(s: State): Content {
    Modern(s.seen, AsStamps(s.seenUntil), AsStamps(s.reserved))
  }

  // ---------- operations ----------

  predicate IsBlank(n: Nonce) {
    Text.Trim(n.text) == ""
  }

  type Outcome<A> = (Content, Result<A, StorageError>)

  predicate IsReservedAt(s: State, n: Nonce, now: int) {
    n in s.reserved && s.reserved[n] != 0 && s.reserved[n] > now
  }

  function Reserve(content: Content, n: Nonce, ttl: Stamp, now1: int, now2: int): Outcome<bool> {
    if IsBlank(n) then (content, Err(InvalidNonce))
    else if !ttl.Valid() || ttl.n == 0 then (content, Err(InvalidTtl))
    else
      match ReadState(content, now1)
      case Err(e) => (content, Err(e))
      case Ok(s) =>
        match ReservationExpiry(now2, ttl)
        case Err(e) => (content, Err(e))
        case Ok(expiresAt) =>
          if n in s.seen || IsReservedAt(s, n, now2) then (content, Ok(false))
          else (Written(s.(reserved := s.reserved[n := expiresAt])), Ok(true))
  }

  function Release(content: Content, n: Nonce, now1: int): Outcome<()> {
    if IsBlank(n) then (content, Err(InvalidNonce))
    else
      match ReadState(content, now1)
      case Err(e) => (content, Err(e))
      case Ok(s) =>
        if n in s.reserved && s.reserved[n] != 0 then (Written(s.(reserved := s.reserved - {n})), Ok(()))
        else (content, Ok(()))
  }

  function MarkOne(s: State, n: Nonce, until: nat): State {
    State(s.seen + [n], s.seenUntil[n := until], s.reserved - {n})
  }

  function Mark(content: Content, cfg: Config, n: Nonce, e: Expiry, now1: int, now2: int): Outcome<bool> {
    if IsBlank(n) then (content, Err(InvalidNonce))
    else
      match ReadState(content, now1)
      case Err(error) => (content, Err(error))
      case Ok(s) =>
        match CalculateRetention(now2, e, cfg)
        case Err(error) => (content, Err(error))
        case Ok(until) =>
          if n in s.seen then (content, Ok(false)) else (Written(MarkOne(s, n, until)), Ok(true))
  }

  /** Marks the nonces not yet seen, each once, and counts them. */
  function MarkAll(s: State, nonces: seq<Nonce>, until: nat): (State, nat) {
    if nonces == [] then (s, 0)
    else
      var (s', added) := MarkAll(s, nonces[..|nonces| - 1], until);
      var n := nonces[|nonces| - 1];
      if n in s'.seen then (s', added) else (MarkOne(s', n, until), added + 1)
  }

  function MarkBatch(content: Content, cfg: Config, nonces: seq<Nonce>, e: Expiry, now1: int, now2: int): Outcome<nat> {
    if exists n | n in nonces :: IsBlank(n) then (content, Err(InvalidNonce))
    else
      match ReadState(content, now1)
      case Err(error) => (content, Err(error))
      case Ok(s) =>
        match CalculateRetention(now2, e, cfg)
        case Err(error) => (content, Err(error))
        case Ok(until) =>
          var (s', added) := MarkAll(s, nonces, until);
          (Written(s'), Ok(added))
  }

  function IsSeen(content: Content, n: Nonce, now1: int, now2: int): Result<bool, StorageError> {
    if IsBlank(n) then Err(InvalidNonce)
    else
      var s :- ReadState(content, now1);
      Ok(n in s.seen || IsReservedAt(s, n, now2))
  }
}
