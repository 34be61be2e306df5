/** What every operation of the nonce store answers and leaves in the file, for every nonce and every later time. */
module NonceMeaning {
  import opened Wrappers
  import opened Nonces
  import opened NonceLaws

  /** The file keeps the nonce as seen at the given time: without a timestamp for good, else before it. */
  predicate OnRecord(content: Content, n: Nonce, at: int) {
    match content
    case Legacy(nonces) => n in nonces
    case Modern(seen, seenUntil, _) => n in seen && (n in seenUntil && seenUntil[n].Whole? ==> at < seenUntil[n].n)
    case _ => false
  }

  /** The file holds the nonce reserved at the given time. */
  predicate OnHold(content: Content, n: Nonce, at: int) {
    content.Modern? && n in content.reserved && content.reserved[n].Whole? && content.reserved[n].n != 0
    && at < content.reserved[n].n
  }

  /** From some time on two files say the same of a nonce. */
  ghost predicate SameFor(content: Content, content': Content, n: Nonce, from: int) {
    && (forall at | at >= from :: OnRecord(content', n, at) == OnRecord(content, n, at))
    && (forall at | at >= from :: OnHold(content', n, at) == OnHold(content, n, at))
  }

  ghost predicate SameForOthers(content: Content, content': Content, n: Nonce, from: int) {
    forall m | m != n :: SameFor(content, content', m, from)
  }

  /** A file is read unless it does not parse, names the empty nonce or has a timestamp that is no safe integer. */
  lemma ReadableExactly(content: Content)
    ensures IsReadable(content) <==>
              match content
              case Absent => true
              case Unreadable => false
              case Legacy(nonces) => forall n | n in nonces :: n.text != ""
              case Modern(seen, seenUntil, reserved) =>
                && (forall n | n in seen || n in seenUntil || n in reserved :: n.text != "")
                && (forall n | n in seenUntil :: seenUntil[n].Whole? && 0 <= seenUntil[n].n < 9007199254740992)
                && (forall n | n in reserved :: reserved[n].Whole? && 0 <= reserved[n].n < 9007199254740992)
  {
    if content.Legacy? {
      assert forall n | n in content.nonces :: n.text == "" ==> n == Nonce("");
    } else if content.Modern? {
      assert forall n | n in content.seen :: n.text == "" ==> n == Nonce("");
      assert forall n | n in content.seenUntil :: n.text == "" ==> n == Nonce("");
      assert forall n | n in content.reserved :: n.text == "" ==> n == Nonce("");
    }
  }

  // ---------- a state and the file it is written to ----------

  predicate Kept(s: State, n: Nonce, at: int) {
    n in s.seen && (n in s.seenUntil ==> at < s.seenUntil[n])
  }

  predicate Held(s: State, n: Nonce, at: int) {
    n in s.reserved && s.reserved[n] != 0 && at < s.reserved[n]
  }

  lemma WrittenSays(s: State, n: Nonce, at: int)
    ensures OnRecord(Written(s), n, at) == Kept(s, n, at) && OnHold(Written(s), n, at) == Held(s, n, at)
  {
  }

  lemma ViewSays(content: Content, now: int, n: Nonce, at: int)
    requires IsReadable(content) && now <= at
    ensures Kept(View(content, now), n, at) == OnRecord(content, n, at)
    ensures Held(View(content, now), n, at) == OnHold(content, n, at)
  {
  }

  lemma ViewKeeps(content: Content, now: int, n: Nonce)
    requires IsReadable(content)
    ensures n in View(content, now).seen <==> OnRecord(content, n, now)
  {
  }

  // Nothing but what is done to one nonce of the view tells the written file from the one read.
  lemma WrittenSame(content: Content, now: int, s: State, n: Nonce)
    requires IsReadable(content)
    requires forall at | now <= at :: Kept(s, n, at) == Kept(View(content, now), n, at)
    requires forall at | now <= at :: Held(s, n, at) == Held(View(content, now), n, at)
    ensures SameFor(content, Written(s), n, now)
  {
    forall at | now <= at
      ensures OnRecord(Written(s), n, at) == OnRecord(content, n, at) && OnHold(Written(s), n, at) == OnHold(content, n, at)
    {
      WrittenSays(s, n, at);
      ViewSays(content, now, n, at);
      assert Kept(s, n, at) == Kept(View(content, now), n, at) && Held(s, n, at) == Held(View(content, now), n, at);
    }
  }

  // ---------- asking ----------

  /** A nonce reads as seen exactly when it is on record or on hold. */
  lemma SeenExactly(content: Content, n: Nonce, now1: int, now2: int)
    requires now1 <= now2
    ensures IsSeen(content, n, now1, now2)
            == if IsBlank(n) then Err(InvalidNonce)
               else if !IsReadable(content) then Err(UnreadableState)
               else Ok(OnRecord(content, n, now1) || OnHold(content, n, now2))
  {
    if IsReadable(content) {
      ViewKeeps(content, now1, n);
      ViewSays(content, now1, n, now2);
    }
  }

  // ---------- reserving ----------

  /** A reservation succeeds exactly for a nonce neither on record nor on hold; it then holds the nonce until the
      duration has passed, and leaves every other nonce as it was. A refused one changes nothing. */
  lemma ReserveMeaning(content: Content, n: Nonce, ttl: Stamp, now1: int, now2: int)
    requires IsReadable(content) && now1 <= now2 && Reserve(content, n, ttl, now1, now2).1.Ok?
    ensures var (content', r) := Reserve(content, n, ttl, now1, now2);
            && ttl.Whole? && r.value == !(OnRecord(content, n, now1) || OnHold(content, n, now2))
            && (!r.value ==> content' == content)
            && (r.value ==>
                && (forall at | now1 <= at :: !OnRecord(content', n, at))
                && (forall at | now1 <= at :: OnHold(content', n, at) <==> at < now2 + ttl.n)
                && SameForOthers(content, content', n, now1))
  {
    ViewKeeps(content, now1, n);
    ViewSays(content, now1, n, now2);
    var s := View(content, now1);
    if Reserve(content, n, ttl, now1, now2).1.value {
      var s' := s.(reserved := s.reserved[n := now2 + ttl.n]);
      assert Reserve(content, n, ttl, now1, now2).0 == Written(s');
      forall at | now1 <= at
        ensures !OnRecord(Written(s'), n, at) && (OnHold(Written(s'), n, at) <==> at < now2 + ttl.n)
      {
        WrittenSays(s', n, at);
      }
      forall m | m != n ensures SameFor(content, Written(s'), m, now1) {
        WrittenSame(content, now1, s', m);
      }
    }
  }

  /** When a reservation fails, and why: the first reason in this order. A failure changes nothing. */
  lemma ReserveFailsFor(content: Content, n: Nonce, ttl: Stamp, now1: int, now2: int)
    ensures var (content', r) := Reserve(content, n, ttl, now1, now2);
            && (r.Err? ==> content' == content)
            && if IsBlank(n) then r == Err(InvalidNonce)
               else if !(ttl.Whole? && 0 < ttl.n < 9007199254740992) then r == Err(InvalidTtl)
               else if !IsReadable(content) then r == Err(UnreadableState)
               else if !(0 <= now2 < 9007199254740992) then r == Err(InvalidClock)
               else if now2 + ttl.n >= 9007199254740992 then r == Err(OutOfRange)
               else r.Ok?
  {
  }

  /** A reserved nonce reads as seen until its reservation ends and as unseen afterwards, and a second reservation
      of it is refused for as long. */
  lemma ReservedUntilItEnds(content: Content, n: Nonce, ttl: Stamp, now1: int, now2: int, a: int, b: int, ttl': Stamp)
    requires IsReadable(content) && now1 <= now2 <= a <= b && Reserve(content, n, ttl, now1, now2).1 == Ok(true)
    ensures var content' := Reserve(content, n, ttl, now1, now2).0;
            && IsReadable(content') && ttl.Whole?
            && IsSeen(content', n, a, b) == Ok(b < now2 + ttl.n)
            && (Reserve(content', n, ttl', a, b).1.Ok? ==> Reserve(content', n, ttl', a, b).1.value == (b >= now2 + ttl.n))
  {
    var content' := Reserve(content, n, ttl, now1, now2).0;
    ReserveMeaning(content, n, ttl, now1, now2);
    ReservedReads(content, n, ttl, now1, now2);
    SeenExactly(content', n, a, b);
    if Reserve(content', n, ttl', a, b).1.Ok? {
      ReserveMeaning(content', n, ttl', a, b);
    }
  }

  lemma ReservedReads(content: Content, n: Nonce, ttl: Stamp, now1: int, now2: int)
    requires IsReadable(content) && Reserve(content, n, ttl, now1, now2).1 == Ok(true)
    ensures IsReadable(Reserve(content, n, ttl, now1, now2).0)
  {
    EmptyIsBlank();
  }

  // ---------- releasing ----------

  /** A release ends the hold of the nonce, whoever made it, and nothing else. */
  lemma ReleaseMeaning(content: Content, n: Nonce, now1: int)
    ensures var (content', r) := Release(content, n, now1);
            && r == (if IsBlank(n) then Err(InvalidNonce)
                     else if IsReadable(content) then Ok(()) else Err(UnreadableState))
            && (r.Err? ==> content' == content)
            && (r.Ok? ==>
                && IsReadable(content')
                && (forall at | now1 <= at :: !OnHold(content', n, at))
                && (forall at | now1 <= at :: OnRecord(content', n, at) == OnRecord(content, n, at))
                && SameForOthers(content, content', n, now1))
  {
    if !IsBlank(n) && IsReadable(content) {
      var s := View(content, now1);
      var s' := s.(reserved := s.reserved - {n});
      forall at | now1 <= at
        ensures OnHold(content, n, at) ==> Held(s, n, at)
        ensures !OnHold(Written(s'), n, at) && OnRecord(Written(s'), n, at) == OnRecord(content, n, at)
      {
        ViewSays(content, now1, n, at);
        WrittenSays(s', n, at);
      }
      forall m | m != n ensures SameFor(content, Written(s'), m, now1) {
        WrittenSame(content, now1, s', m);
      }
    }
  }

  /** A released nonce can be reserved again, unless it was seen. */
  lemma ReleasedIsFree(content: Content, n: Nonce, now1: int, ttl: Stamp, a: int, b: int)
    requires now1 <= a <= b && Release(content, n, now1).1.Ok?
    ensures var content' := Release(content, n, now1).0;
            && IsSeen(content', n, a, b) == Ok(OnRecord(content, n, a))
            && (Reserve(content', n, ttl, a, b).1.Ok? ==> Reserve(content', n, ttl, a, b).1.value == !OnRecord(content, n, a))
  {
    var content' := Release(content, n, now1).0;
    ReleaseMeaning(content, n, now1);
    SeenExactly(content', n, a, b);
    if Reserve(content', n, ttl, a, b).1.Ok? {
      ReserveMeaning(content', n, ttl, a, b);
    }
  }

  // ---------- marking ----------

  /** A mark succeeds exactly for a nonce not on record, reserved or not; it then keeps the nonce on record before the
      retention time, ends its hold and leaves every other nonce as it was. A refused one changes nothing. */
  lemma MarkMeaning(content: Content, cfg: Config, n: Nonce, e: Expiry, now1: int, now2: int)
    requires IsReadable(content) && Mark(content, cfg, n, e, now1, now2).1.Ok?
    ensures var (content', r) := Mark(content, cfg, n, e, now1, now2);
            && r.value == !OnRecord(content, n, now1)
            && (!r.value ==> content' == content)
            && (r.value ==> CalculateRetention(now2, e, cfg).Ok?
                            && RecordsOnly(content, content', {n}, CalculateRetention(now2, e, cfg).value, now1))
  {
    ViewKeeps(content, now1, n);
    if Mark(content, cfg, n, e, now1, now2).1.value {
      MarkedRecords(content, MarkOne(View(content, now1), n, CalculateRetention(now2, e, cfg).value), {n},
                    CalculateRetention(now2, e, cfg).value, now1);
    }
  }

  /** The new file keeps the given nonces on record before the given time and off hold; the others are as they were. */
  ghost predicate RecordsOnly(content: Content, content': Content, ns: set<Nonce>, until: nat, from: int) {
    && (forall n, at | n in ns && from <= at :: OnRecord(content', n, at) <==> at < until)
    && (forall n, at | n in ns && from <= at :: !OnHold(content', n, at))
    && (forall n | n !in ns :: SameFor(content, content', n, from))
  }

  // The state after marks of some nonces, none of which was seen before.
  ghost predicate Marked(s: State, s': State, ns: set<Nonce>, until: nat) {
    forall n ::
      if n in ns then n in s'.seen && n in s'.seenUntil && s'.seenUntil[n] == until && n !in s'.reserved
      else
        && (n in s'.seen <==> n in s.seen) && (n in s'.seenUntil <==> n in s.seenUntil)
        && (n in s'.reserved <==> n in s.reserved)
        && (n in s.seenUntil ==> s'.seenUntil[n] == s.seenUntil[n]) && (n in s.reserved ==> s'.reserved[n] == s.reserved[n])
  }

  lemma MarkedRecords(content: Content, s': State, ns: set<Nonce>, until: nat, now1: int)
    requires IsReadable(content) && Marked(View(content, now1), s', ns, until)
    ensures RecordsOnly(content, Written(s'), ns, until, now1)
  {
    forall n, at | n in ns && now1 <= at
      ensures OnRecord(Written(s'), n, at) <==> at < until
      ensures !OnHold(Written(s'), n, at)
    {
      WrittenSays(s', n, at);
    }
    forall n | n !in ns ensures SameFor(content, Written(s'), n, now1) {
      WrittenSame(content, now1, s', n);
    }
  }

  /** When a mark fails, and why: the first reason in this order. A failure changes nothing. */
  lemma MarkFailsFor(content: Content, cfg: Config, n: Nonce, e: Expiry, now1: int, now2: int)
    ensures var (content', r) := Mark(content, cfg, n, e, now1, now2);
            && (r.Err? ==> content' == content)
            && if IsBlank(n) then r == Err(InvalidNonce)
               else if !IsReadable(content) then r == Err(UnreadableState)
               else if CalculateRetention(now2, e, cfg).Err? then r == Err(CalculateRetention(now2, e, cfg).error)
               else r.Ok?
  {
  }

  /** Why no retention time is granted: the first reason in this order. */
  lemma RetentionFailsFor(now: int, e: Expiry, cfg: Config, error: StorageError)
    requires CalculateRetention(now, e, cfg) == Err(error)
    ensures error == if !(0 <= now < 9007199254740992 && 0 <= cfg.defaultRetentionMs < 9007199254740992
                          && 0 <= cfg.clockSkewMs < 9007199254740992) then InvalidClock
                     else if now + cfg.defaultRetentionMs >= 9007199254740992 then OutOfRange
                     else if !ValidExpiry(e) then InvalidExpiry
                     else OutOfRange
  {
  }

  /** A batch marks exactly the nonces of its list that are not on record, and counts each of them once. */
  lemma BatchMeaning(content: Content, cfg: Config, nonces: seq<Nonce>, e: Expiry, now1: int, now2: int)
    requires IsReadable(content) && MarkBatch(content, cfg, nonces, e, now1, now2).1.Ok?
    ensures var (content', r) := MarkBatch(content, cfg, nonces, e, now1, now2);
            var unseen := set n | n in nonces && !OnRecord(content, n, now1);
            && r.value == |unseen| && CalculateRetention(now2, e, cfg).Ok?
            && RecordsOnly(content, content', unseen, CalculateRetention(now2, e, cfg).value, now1)
  {
    var s, until := View(content, now1), CalculateRetention(now2, e, cfg).value;
    var unseen := set n | n in nonces && !OnRecord(content, n, now1);
    forall n ensures n in s.seen <==> OnRecord(content, n, now1) {
      ViewKeeps(content, now1, n);
    }
    assert unseen == Unseen(s, nonces);
    MarkAllMarks(s, nonces, until);
    MarkedRecords(content, MarkAll(s, nonces, until).0, unseen, until, now1);
  }

  lemma MarkedOneMore(s: State, s1: State, ns: set<Nonce>, until: nat, n: Nonce)
    requires Marked(s, s1, ns, until) && n !in s1.seen
    ensures n !in ns && n !in s.seen && Marked(s, MarkOne(s1, n, until), ns + {n}, until)
  {
  }

  function Unseen(s: State, nonces: seq<Nonce>): set<Nonce> {
    set n | n in nonces && n !in s.seen
  }

  lemma UnseenGrows(s: State, init: seq<Nonce>, last: Nonce)
    ensures Unseen(s, init + [last]) == if last in s.seen then Unseen(s, init) else Unseen(s, init) + {last}
  {
  }

  lemma {:induction false} MarkAllMarks(s: State, nonces: seq<Nonce>, until: nat)
    ensures var (s', added) := MarkAll(s, nonces, until);
            Marked(s, s', Unseen(s, nonces), until) && added == |Unseen(s, nonces)|
  {
    if nonces == [] {
      assert Unseen(s, nonces) == {};
    } else {
      var init, last := nonces[..|nonces| - 1], nonces[|nonces| - 1];
      assert nonces == init + [last];
      MarkAllMarks(s, init, until);
      UnseenGrows(s, init, last);
      var s1 := MarkAll(s, init, until).0;
      if last in s1.seen {
        assert last in Unseen(s, init) || last in s.seen;
        assert Unseen(s, nonces) == Unseen(s, init);
      } else {
        MarkedOneMore(s, s1, Unseen(s, init), until, last);
      }
    }
  }

  /** When a batch fails, and why. A failure changes nothing. */
  lemma BatchFailsFor(content: Content, cfg: Config, nonces: seq<Nonce>, e: Expiry, now1: int, now2: int)
    ensures var (content', r) := MarkBatch(content, cfg, nonces, e, now1, now2);
            && (r.Err? ==> content' == content)
            && if exists n | n in nonces :: IsBlank(n) then r == Err(InvalidNonce)
               else if !IsReadable(content) then r == Err(UnreadableState)
               else if CalculateRetention(now2, e, cfg).Err? then r == Err(CalculateRetention(now2, e, cfg).error)
               else r.Ok?
  {
  }
}
