/** The store object over one file that several stores may share. Every method body runs under the exclusive lock
    of the file, so that each is one atomic step. */
module NonceStore {
  import opened Wrappers
  import opened Nonces

  class StateFile {
    var content: Content

    constructor ()
      ensures content == Absent
    {
      content := Absent;
    }
  }

  class NonceStore {
    const disk: StateFile
    const cfg: Config

    constructor (disk: StateFile, cfg: Config)
      ensures this.disk == disk && this.cfg == cfg
    {
      this.disk, this.cfg := disk, cfg;
    }

    method ReadStateUnderLock(now: int) returns (r: Result<State, StorageError>)
      ensures r == ReadState(disk.content, now)
    {
      match disk.content
      case Absent => return Ok(State([], map[], map[]));
      case Unreadable => return Err(UnreadableState);
      case Legacy(nonces) =>
        if Nonce("") in nonces {
          return Err(UnreadableState);
        }
        return Ok(State(nonces, map[], map[]));
      case Modern(rawSeen, rawSeenUntil, rawReserved) =>
        if Nonce("") in rawSeen {
          return Err(UnreadableState);
        }
        var untilValid := CheckStamps(rawSeenUntil);
        var reservedValid := CheckStamps(rawReserved);
        if !untilValid || !reservedValid {
          return Err(UnreadableState);
        }
        var reserved := PruneReserved(rawReserved, now);
        var seen, seenUntil := PruneSeen(rawSeen, rawSeenUntil, now);
        return Ok(State(seen, seenUntil, reserved));
    }

    method CheckStamps(stamps: map<Nonce, Stamp>) returns (valid: bool)
      ensures valid <==> ValidStamps(stamps)
    {
      var rest := stamps.Keys;
      while rest != {}
        invariant rest <= stamps.Keys
        invariant forall n | n in stamps && n !in rest :: n != Nonce("") && stamps[n].Valid()
        decreases |rest|
      {
        var n :| n in rest;
        rest := rest - {n};
        if n.text == "" || !stamps[n].Valid() {
          return false;
        }
      }
      return true;
    }

    method PruneReserved(raw: map<Nonce, Stamp>, now: int) returns (reserved: map<Nonce, nat>)
      requires ValidStamps(raw)
      ensures reserved == map n | n in raw && raw[n].n > now :: raw[n].n
    {
      reserved := map[];
      var rest := raw.Keys;
      while rest != {}
        invariant rest <= raw.Keys
        invariant reserved == map n | n in raw && n !in rest && raw[n].n > now :: raw[n].n
        decreases |rest|
      {
        var n :| n in rest;
        rest := rest - {n};
        if raw[n].n > now {
          reserved := reserved[n := raw[n].n];
        }
      }
    }

    lemma OneMoreKept(raw: seq<Nonce>, i: nat, until: map<Nonce, Stamp>, now: int, kept: map<Nonce, nat>)
      requires ValidStamps(until) && i < |raw|
      requires kept == map n | n in until && n in raw[..i] && until[n].n > now :: until[n].n
      ensures raw[..i + 1][..i] == raw[..i]
      ensures (map n | n in until && n in raw[..i + 1] && until[n].n > now :: until[n].n)
              == if raw[i] in until && until[raw[i]].n > now then kept[raw[i] := until[raw[i]].n] else kept
    {
      assert forall n :: n in raw[..i + 1] <==> n in raw[..i] || n == raw[i];
    }

    method PruneSeen(raw: seq<Nonce>, until: map<Nonce, Stamp>, now: int) returns (seen: seq<Nonce>, kept: map<Nonce, nat>)
      requires ValidStamps(until)
      ensures seen == KeptSeen(raw, until, now)
      ensures kept == map n | n in until && n in raw && until[n].n > now :: until[n].n
    {
      seen, kept := [], map[];
      for i := 0 to |raw|
        invariant seen == KeptSeen(raw[..i], until, now)
        invariant kept == map n | n in until && n in raw[..i] && until[n].n > now :: until[n].n
      {
        var n := raw[i];
        OneMoreKept(raw, i, until, now, kept);
        if n in until && until[n].Whole? {
          if until[n].n > now {
            seen := seen + [n];
            kept := kept[n := until[n].n];
          }
        } else {
          seen := seen + [n];
        }
      }
      assert raw[..|raw|] == raw;
    }

    method ReserveNonce(n: Nonce, ttl: Stamp, now1: int, now2: int) returns (r: Result<bool, StorageError>)
      modifies disk
      ensures (disk.content, r) == Reserve(old(disk.content), n, ttl, now1, now2)
    {
      if IsBlank(n) {
        return Err(InvalidNonce);
      }
      if !ttl.Valid() || ttl.n == 0 {
        return Err(InvalidTtl);
      }
      var state :- ReadStateUnderLock(now1);
      var expiresAt :- ReservationExpiry(now2, ttl);
      if n in state.seen {
        return Ok(false);
      }
      if n in state.reserved && state.reserved[n] != 0 && state.reserved[n] > now2 {
        return Ok(false);
      }
      disk.content := Written(state.(reserved := state.reserved[n := expiresAt]));
      return Ok(true);
    }

    method ReleaseReservation(n: Nonce, now: int) returns (r: Result<(), StorageError>)
      modifies disk
      ensures (disk.content, r) == Release(old(disk.content), n, now)
    {
      if IsBlank(n) {
        return Err(InvalidNonce);
      }
      var state :- ReadStateUnderLock(now);
      if n in state.reserved && state.reserved[n] != 0 {
        disk.content := Written(state.(reserved := state.reserved - {n}));
      }
      return Ok(());
    }

    method MarkNonceSeen(n: Nonce, e: Expiry, now1: int, now2: int) returns (r: Result<bool, StorageError>)
      modifies disk
      ensures (disk.content, r) == Mark(old(disk.content), cfg, n, e, now1, now2)
    {
      if IsBlank(n) {
        return Err(InvalidNonce);
      }
      var state :- ReadStateUnderLock(now1);
      var until :- CalculateRetention(now2, e, cfg);
      if n in state.seen {
        return Ok(false);
      }
      disk.content := Written(State(state.seen + [n], state.seenUntil[n := until], state.reserved - {n}));
      return Ok(true);
    }

    method MarkNoncesSeenBatch(nonces: seq<Nonce>, e: Expiry, now1: int, now2: int) returns (r: Result<nat, StorageError>)
      modifies disk
      ensures (disk.content, r) == MarkBatch(old(disk.content), cfg, nonces, e, now1, now2)
    {
      if exists n | n in nonces :: IsBlank(n) {
        return Err(InvalidNonce);
      }
      var state :- ReadStateUnderLock(now1);
      var until :- CalculateRetention(now2, e, cfg);
      ghost var start := state;
      var added := 0;
      for i := 0 to |nonces|
        invariant (state, added) == MarkAll(start, nonces[..i], until)
      {
        var n := nonces[i];
        assert nonces[..i + 1][..i] == nonces[..i];
        if n !in state.seen {
          state := State(state.seen + [n], state.seenUntil[n := until], state.reserved - {n});
          added := added + 1;
        }
      }
      assert nonces[..|nonces|] == nonces;
      disk.content := Written(state);
      return Ok(added);
    }

    method IsNonceSeen(n: Nonce, now1: int, now2: int) returns (r: Result<bool, StorageError>)
      ensures r == IsSeen(disk.content, n, now1, now2)
    {
      if IsBlank(n) {
        return Err(InvalidNonce);
      }
      var state :- ReadStateUnderLock(now1);
      if n in state.seen {
        return Ok(true);
      }
      if n in state.reserved && state.reserved[n] != 0 && state.reserved[n] > now2 {
        return Ok(true);
      }
      return Ok(false);
    }
  }
}
