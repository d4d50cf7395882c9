/** The calls a process makes on `flock.bin`, against any file and any behaviour
    of the other processes. While this handle does not hold the OS file lock the
    file may change at will; the clock only moves forward. */
module FlockClient {
  import opened Common
  import opened LockTypes
  import opened Bytes
  import opened LockFile

  /** One write made through this handle. */
  datatype Write = RecordWrite(rec: LockRecord) | CounterWrite(index: nat, value: int)

  predicate Writable(w: Write) {
    match w
    case RecordWrite(m) => InRange(m)
    case CounterWrite(i, v) => i < MAX_SEM && FitsSigned(v, 4)
  }

  function Apply(f: seq<Byte>, w: Write): seq<Byte>
    requires Writable(w)
  {
    match w
    case RecordWrite(m) => PutRecordBytes(f, m)
    case CounterWrite(i, v) => PutCounterBytes(f, i, v)
  }

  function ApplyAll(f: seq<Byte>, ws: seq<Write>): seq<Byte>
    requires forall w :: w in ws ==> Writable(w)
  {
    if ws == [] then f else Apply(ApplyAll(f, ws[..|ws| - 1]), ws[|ws| - 1])
  }

  /** What a complete acquisition and a complete release write, in order. */
  function AcquireWrites(m: LockRecord, id: Identity): (ws: seq<Write>)
    ensures |ws| == 3
  {
    var a := AcquiringRecord(m, id);
    [RecordWrite(a), CounterWrite(0, 0), RecordWrite(LockedRecord(a))]
  }

  function ReleaseWrites(m: LockRecord): (ws: seq<Write>)
    ensures |ws| == 3
  {
    var r := ReleasingRecord(m);
    [RecordWrite(r), CounterWrite(0, 1), RecordWrite(UnlockedRecord(r))]
  }

  /** Nothing was written, or the inspection of `seen` was OK and UNLOCKED and the
      writes made are the first ones of an acquisition. */
  ghost predicate Acquired(seen: seq<Byte>, file: seq<Byte>, id: Identity, written: seq<Write>) {
    written != [] ==>
      && IdentityInRange(id) && RecordOf(seen).Good? && InRange(RecordOf(seen).rec)
      && InspectBytes(seen, Unsure).health == Ok && RecordOf(seen).rec.state == Unlocked
      && written <= AcquireWrites(RecordOf(seen).rec, id)
      && (forall w :: w in written ==> Writable(w))
      && file == ApplyAll(seen, written)
  }

  /** `initialize_new_flock`: counter 0 is 1, the others 0, then the first record. */
  function InitWrites(): seq<Write> {
    seq(MAX_SEM, (i: nat) => CounterWrite(i, if i == 0 then 1 else 0)) + [RecordWrite(NEW_RECORD)]
  }

  /** `reset_asset_semaphores_for_clean_master_start`. */
  function ClearWrites(): seq<Write> {
    seq(MAX_SEM - 1, (i: nat) => CounterWrite(i + 1, 0))
  }

  datatype Outcome =
    | Done
    | Refused(health: Health, cause: Cause) // MasterLockStateError
    | TimedOut
    | Interrupted
    | OsError
    | StillWaiting                          // unbounded wait, observed for a while

  predicate IdentityInRange(id: Identity) { FitsSigned(id.pid, 8) && id.token < Pow256(8) }

  /** The inspection is an answer to give at once: only an owner whose identity cannot
      be looked up is worth waiting for, and only inside a wait scope. */
  predicate Final(v: Inspection, scope: bool) {
    v.health == Abort || (v.health == Unknown && !(v.cause == IdentityUnknown && scope))
  }

  predicate IsFree(v: Inspection) { v.health == Ok && v.state == Unlocked }

  class Client {
    var file: seq<Byte>
    var lockCount: int
    var osHeld: bool
    var now: nat               // steady clock, milliseconds
    var waitEnabled: bool      // a wait scope is open
    var timeoutMs: nat
    var interruptible: bool    // the scope watches an interrupt flag
    var interrupted: bool
    var grantable: bool        // nobody else holds the OS lock
    ghost var log: seq<Write>  // every write made through this handle
    ghost var faults: nat      // OS calls that have failed
    ghost var refused: nat     // attempts that found the OS lock taken

    ghost predicate Valid()
      reads this
    {
      lockCount >= 0 && (osHeld <==> lockCount > 0)
    }

    constructor (contents: seq<Byte>, clock: nat)
      ensures Valid() && lockCount == 0 && file == contents && log == [] && !waitEnabled
    {
      file, now, log := contents, clock, [];
      lockCount, osHeld := 0, false;
      waitEnabled, timeoutMs, interruptible, interrupted := false, 0, false, false;
      grantable, faults, refused := true, 0, 0;
    }

    /** At least `ms` go by; the others do what they like, but not under our OS lock. */
    method Pass(ms: nat)
      modifies this`file, this`now, this`interrupted, this`grantable
      ensures now >= old(now) + ms
      ensures osHeld ==> file == old(file)
    {
      var more: nat :| true;
      now := now + ms + more;
      interrupted := *;
      grantable := *;
      if !osHeld {
        file := *;
      }
    }

    /** The OS gives up the lock at last: a blocking call waits for that. */
    method Block()
      requires !osHeld
      modifies this`file, this`now, this`interrupted, this`grantable
      ensures now >= old(now) && grantable
    {
      Pass(0);
      grantable := true;
    }

    /** An OS call that may fail. */
    method CallFails() returns (failed: bool)
      modifies this`faults
      ensures faults == old(faults) + if failed then 1 else 0
    {
      failed := *;
      if failed {
        faults := faults + 1;
      }
    }

    /** `hako_flock_wait_checkpoint`. */
    method Checkpoint(startedAt: nat) returns (r: Outcome)
      requires now >= startedAt
      ensures r == Done || r == TimedOut || r == Interrupted
      ensures r == Done <==> !waitEnabled || (!(interruptible && interrupted) && now - startedAt < timeoutMs)
      ensures r == Interrupted ==> interruptible && interrupted
      ensures r == TimedOut ==> now - startedAt >= timeoutMs && !(interruptible && interrupted)
    {
      if !waitEnabled {
        return Done;
      }
      if interruptible && interrupted {
        return Interrupted;
      }
      if now - startedAt >= timeoutMs {
        return TimedOut;
      }
      return Done;
    }

    /** One non-blocking attempt at the OS lock. */
    method Attempt() returns (r: Outcome)
      requires Valid() && lockCount == 0
      modifies this`lockCount, this`osHeld, this`faults, this`refused
      ensures Valid()
      ensures faults == old(faults) + (if r == OsError then 1 else 0)
      ensures refused == old(refused) + (if r == StillWaiting then 1 else 0)
      ensures r != OsError ==> r == if grantable then Done else StillWaiting
      ensures lockCount == if r == Done then 1 else 0
    {
      var broken := CallFails();
      if broken {
        return OsError;
      }
      if grantable {
        osHeld, lockCount := true, 1;
        return Done;
      }
      refused := refused + 1;
      return StillWaiting;
    }

    /** `hako_flock_acquire`: nested, blocking outside a wait scope, polling inside one.
        It fails only if the OS does, or the scope's time is up or its flag set. */
    method Acquire() returns (r: Outcome)
      requires Valid()
      modifies this`file, this`now, this`interrupted, this`grantable
      modifies this`lockCount, this`osHeld, this`faults, this`refused
      ensures Valid() && now >= old(now)
      ensures r == Done || r == TimedOut || r == Interrupted || r == OsError
      ensures lockCount == old(lockCount) + (if r == Done then 1 else 0)
      ensures old(osHeld) ==> r == Done && file == old(file) && now == old(now)
      ensures faults == old(faults) + (if r == OsError then 1 else 0)
      ensures r == TimedOut ==> waitEnabled && now - old(now) >= timeoutMs && (timeoutMs > 0 ==> refused > old(refused))
      ensures r == Interrupted ==> waitEnabled && interruptible && interrupted
    {
      if lockCount > 0 {
        lockCount := lockCount + 1;
        return Done;
      }
      Pass(0);
      if !waitEnabled {
        Block();
        r := Attempt();
        return;
      }
      var startedAt := now;
      while true
        invariant !osHeld && lockCount == old(lockCount) == 0 && now >= startedAt >= old(now)
        invariant faults == old(faults) && refused >= old(refused)
        invariant now > startedAt ==> refused > old(refused)
        decreases timeoutMs - (now - startedAt)
      {
        r := Checkpoint(startedAt);
        if r != Done {
          return;
        }
        r := Attempt();
        if r != StillWaiting {
          return;
        }
        Pass(20);
      }
    }

    /** `hako_flock_release`: the OS lock goes with the last nested claim. */
    method Release()
      requires Valid()
      modifies this`lockCount, this`osHeld
      ensures Valid()
      ensures lockCount == if old(lockCount) > 0 then old(lockCount) - 1 else 0
    {
      if lockCount > 0 {
        lockCount := lockCount - 1;
      }
      if lockCount <= 0 {
        osHeld := false;
      }
    }

    /** A write happens entirely or not at all. */
    method Put(w: Write) returns (ok: bool)
      requires Valid() && osHeld && Writable(w)
      modifies this`file, this`log, this`faults
      ensures ok ==> file == Apply(old(file), w) && log == old(log) + [w] && faults == old(faults)
      ensures !ok ==> file == old(file) && log == old(log) && faults == old(faults) + 1
    {
      var failed := CallFails();
      ok := !failed;
      if ok {
        file, log := Apply(file, w), log + [w];
      }
    }

    /** Writes in order, up to the first failure. */
    method PutAll(ws: seq<Write>) returns (done: nat)
      requires Valid() && osHeld && forall w :: w in ws ==> Writable(w)
      modifies this`file, this`log, this`faults
      ensures done <= |ws| && log == old(log) + ws[..done]
      ensures file == ApplyAll(old(file), ws[..done])
      ensures faults == old(faults) + if done < |ws| then 1 else 0
    {
      hide Apply;
      done := 0;
      while done < |ws|
        invariant 0 <= done <= |ws| && log == old(log) + ws[..done]
        invariant file == ApplyAll(old(file), ws[..done]) && faults == old(faults)
      {
        var ok := Put(ws[done]);
        if !ok {
          return;
        }
        assert ws[..done + 1] == ws[..done] + [ws[done]];
        done := done + 1;
      }
    }

    /** `inspect_locked` under the OS lock; the identity lookup answers as it likes. */
    method InspectHere() returns (r: Inspection, ghost status: Status)
      requires Valid() && osHeld
      ensures r == InspectBytes(file, status)
      ensures r.health == Ok ==> RecordOf(file).Good? && InRange(RecordOf(file).rec) && |file| >= FLOCK_SIZE
    {
      var answer: Status := *;
      status := answer;
      r := InspectBytes(file, answer);
      if RecordOf(file).Good? {
        ParsedInRange(file[RECORD_OFFSET..FLOCK_SIZE]);
      }
    }

    /** One round of `master_lock` under the OS lock: `StillWaiting` means go round again.
        What the inspection says decides: a final answer is given as it is, a free file
        is locked unless a call fails, and anything else is waited for. */
    method LockRound(id: Identity)
      returns (r: Outcome, inspected: bool, ghost seen: seq<Byte>, ghost status: Status)
      requires Valid() && IdentityInRange(id)
      modifies this`file, this`now, this`interrupted, this`grantable
      modifies this`lockCount, this`osHeld, this`faults, this`refused, this`log
      ensures Valid() && lockCount == old(lockCount) && now >= old(now) && faults >= old(faults)
      ensures old(log) <= log && Acquired(seen, file, id, log[|old(log)|..])
      ensures r.Done? <==> RecordOf(seen).Good? && log == old(log) + AcquireWrites(RecordOf(seen).rec, id)
      ensures r == TimedOut || r == Interrupted || r == StillWaiting || r == OsError ==> log == old(log)
      ensures !inspected ==> log == old(log) && (r == TimedOut || r == Interrupted || r == OsError)
      ensures r == TimedOut ==> waitEnabled && now - old(now) >= timeoutMs
      ensures r == Interrupted ==> waitEnabled && interruptible && interrupted
      ensures r == OsError ==> faults > old(faults)
      ensures inspected ==>
                var v := InspectBytes(seen, status);
                && (Final(v, waitEnabled) <==> r == Refused(v.health, v.cause) && faults == old(faults))
                && (IsFree(v) ==> if faults == old(faults) then r == Done
                                  else r == Refused(Abort, NoCause) || (r.Refused? && log == old(log)))
                && (!Final(v, waitEnabled) && !IsFree(v) <==> r == StillWaiting)
    {
      hide Apply, ApplyAll, FromBytes, Checksum;
      Powers();
      seen, status := file, Unsure;
      r := Acquire();
      if r != Done {
        return r, false, file, Unsure;
      }
      var i;
      i, status := InspectHere();
      seen, inspected := file, true;
      if i.health != Ok {
        Release();
        r := if i.health == Unknown && i.cause == IdentityUnknown && waitEnabled then StillWaiting
             else Refused(i.health, i.cause);
      } else if i.state == Unlocked && i.counter == 1 {
        var unreadable := CallFails();
        if unreadable {
          Release();
          return Refused(Unknown, Corrupt), true, seen, status;
        }
        var done := PutAll(AcquireWrites(RecordOf(file).rec, id));
        Release();
        r := if done == 3 then Done else if done == 0 then Refused(Unknown, System) else Refused(Abort, NoCause);
      } else {
        Release();
        r := StillWaiting;
      }
    }

    /** `master_lock`. The lock is taken only from a file that inspection found OK
        and UNLOCKED, by exactly the three writes; every other exit leaves the OS
        lock and its nesting as they were, and an expired wait has written nothing.
        In a wait scope of T ms the file is inspected at most ceil(T / 20) times,
        whatever the others do. The call refuses exactly when the last inspection is
        final, and then as that inspection says, or when an OS call fails on a free
        file; it goes on waiting only for a live owner, or in a scope for an unknown one. */
    method MasterLock(identity: Option<Identity>, patience: nat)
      returns (r: Outcome, inspections: nat, ghost seen: seq<Byte>, ghost status: Status)
      requires Valid() && (identity.Some? ==> IdentityInRange(identity.value))
      modifies this`file, this`now, this`interrupted, this`grantable
      modifies this`lockCount, this`osHeld, this`faults, this`refused, this`log
      ensures Valid() && lockCount == old(lockCount) && osHeld == old(osHeld)
      ensures old(log) <= log
      ensures log != old(log) ==> identity.Some? && Acquired(seen, file, identity.value, log[|old(log)|..])
      ensures r.Done? <==>
                && identity.Some? && RecordOf(seen).Good?
                && log == old(log) + AcquireWrites(RecordOf(seen).rec, identity.value)
      ensures r == TimedOut || r == Interrupted || r == StillWaiting || r == OsError ==> log == old(log)
      ensures waitEnabled ==> inspections <= (timeoutMs + 19) / 20 && r != StillWaiting
      ensures identity.None? ==> r == Refused(Unknown, IdentityUnknown) && log == old(log)
      ensures identity.Some? && r.Refused? ==> inspections > 0
      ensures identity.Some? && inspections > 0 ==>
                var v := InspectBytes(seen, status);
                && (Final(v, waitEnabled) ==> r == Refused(v.health, v.cause))
                && (IsFree(v) && faults == old(faults) ==> r == Done)
                && (IsFree(v) && r != Done ==> faults > old(faults))
                && (r.Refused? ==> Final(v, waitEnabled) || (IsFree(v) && faults > old(faults)))
      ensures r == TimedOut ==> waitEnabled && now - old(now) >= timeoutMs
      ensures r == Interrupted ==> waitEnabled && interruptible
      ensures r == OsError ==> faults > old(faults)
      ensures r == StillWaiting ==> inspections >= patience
    {
      hide Acquired, AcquireWrites, RecordOf, InspectBytes, Final, IsFree, IdentityInRange;
      inspections, seen, status := 0, file, Unsure;
      if identity.None? {
        return Refused(Unknown, IdentityUnknown), 0, file, Unsure;
      }
      var startedAt := now;
      Pass(0);
      while true
        invariant Valid() && lockCount == old(lockCount) && log == old(log) && faults >= old(faults)
        invariant now >= startedAt
        invariant waitEnabled ==> 20 * inspections <= now - startedAt && inspections <= (timeoutMs + 19) / 20
        invariant !waitEnabled ==> inspections <= patience
        invariant inspections > 0 ==>
                    var v := InspectBytes(seen, status);
                    !Final(v, waitEnabled) && !IsFree(v)
        decreases if waitEnabled then timeoutMs - (now - startedAt) else patience - inspections
      {
        r := Checkpoint(startedAt);
        if r == Done && !waitEnabled && inspections >= patience {
          r := StillWaiting;
        }
        if r != Done {
          break;
        }
        var inspected;
        ghost var last, answer;
        r, inspected, last, answer := LockRound(identity.value);
        if inspected {
          inspections, seen, status := inspections + 1, last, answer;
        }
        if r != StillWaiting {
          return;
        }
        Pass(20);
        r := Checkpoint(startedAt);
        if r != Done {
          break;
        }
      }
    }

    /** `master_unlock`. It writes only when the inspection is OK and LOCKED by the
        caller, and then exactly the release writes unless a call fails; a bad
        inspection is refused as it is, and a non-owner as unknown identity. */
    method MasterUnlock(identity: Option<Identity>)
      returns (r: Outcome, inspected: bool, ghost seen: seq<Byte>, ghost status: Status)
      requires Valid() && (identity.Some? ==> IdentityInRange(identity.value))
      modifies this`file, this`now, this`interrupted, this`grantable
      modifies this`lockCount, this`osHeld, this`faults, this`refused, this`log
      ensures Valid() && lockCount == old(lockCount) && osHeld == old(osHeld)
      ensures old(log) <= log
      ensures log != old(log) ==>
                && identity.Some? && RecordOf(seen).Good? && InRange(RecordOf(seen).rec)
                && InspectBytes(seen, Alive).health == Ok
                && RecordOf(seen).rec.state == Locked && RecordOf(seen).rec.owner == identity.value
                && log[|old(log)|..] <= ReleaseWrites(RecordOf(seen).rec)
                && file == ApplyAll(seen, log[|old(log)|..])
      ensures r.Done? <==> log != old(log) && log == old(log) + ReleaseWrites(RecordOf(seen).rec)
      ensures r != StillWaiting
      ensures identity.None? ==> r == Refused(Unknown, IdentityUnknown) && log == old(log) && !inspected
      ensures identity.Some? && !inspected ==>
                || (r == OsError && faults > old(faults))
                || (r == TimedOut && waitEnabled && now - old(now) >= timeoutMs)
                || (r == Interrupted && waitEnabled && interruptible && interrupted)
      ensures inspected ==>
                var v := InspectBytes(seen, status);
                && identity.Some?
                && (v.health != Ok ==> r == Refused(v.health, v.cause))
                && (v.health == Ok && !(v.state == Locked && v.owner == identity.value) ==>
                      r == Refused(Unknown, IdentityUnknown))
                && (v.health == Ok && v.state == Locked && v.owner == identity.value ==>
                      if faults == old(faults) then r == Done
                      else r == Refused(Abort, NoCause) || (r == Refused(Unknown, Corrupt) && log == old(log)))
    {
      hide Apply, ApplyAll, FromBytes, Checksum;
      Powers();
      seen, status := file, Unsure;
      if identity.None? {
        return Refused(Unknown, IdentityUnknown), false, file, Unsure;
      }
      r := Acquire();
      if r != Done {
        return r, false, file, Unsure;
      }
      var i;
      i, status := InspectHere();
      seen, inspected := file, true;
      if i.health != Ok || i.state != Locked || i.owner != identity.value {
        Release();
        r := if i.health == Ok then Refused(Unknown, IdentityUnknown) else Refused(i.health, i.cause);
        return;
      }
      var unreadable := CallFails();
      if unreadable {
        Release();
        return Refused(Unknown, Corrupt), true, seen, status;
      }
      var done := PutAll(ReleaseWrites(RecordOf(file).rec));
      Release();
      r := if done == 3 then Done else Refused(Abort, NoCause);
    }

    /** `hako_flock_try_acquire`: one attempt, or one more nested claim. */
    method TryAcquire() returns (r: Outcome)
      requires Valid()
      modifies this`file, this`now, this`interrupted, this`grantable
      modifies this`lockCount, this`osHeld, this`faults, this`refused
      ensures Valid() && now >= old(now)
      ensures r == Done || r == StillWaiting || r == OsError
      ensures lockCount == old(lockCount) + (if r == Done then 1 else 0)
      ensures old(lockCount) > 0 ==> r == Done
      ensures faults == old(faults) + (if r == OsError then 1 else 0)
      ensures refused == old(refused) + (if r == StillWaiting then 1 else 0)
    {
      if lockCount > 0 {
        lockCount := lockCount + 1;
        return Done;
      }
      Pass(0);
      r := Attempt();
    }

    /** `wait_for_existing_flock_initialization`: at most two seconds of polls every
        10 ms, none at all on a legacy file, and never a write. It goes on until it has
        seen a sealed record, unless the time is up or the OS fails. */
    method AwaitInitialisation() returns (polls: nat, ghost seen: seq<Byte>)
      requires Valid() && lockCount == 0
      modifies this`file, this`now, this`interrupted, this`grantable
      modifies this`lockCount, this`osHeld, this`faults, this`refused
      ensures Valid() && lockCount == 0 && now >= old(now) && faults >= old(faults)
      ensures polls <= 200
      ensures |old(file)| == RECORD_OFFSET ==>
                polls == 0 && file == old(file) && now == old(now) && faults == old(faults)
      ensures |old(file)| != RECORD_OFFSET ==>
                || RecordOf(seen).Good? || RecordOf(seen).BadState?
                || now >= old(now) + 2000 || faults > old(faults)
    {
      polls, seen := 0, [];
      if |file| == RECORD_OFFSET { // exact legacy layout
        return;
      }
      var deadline := now + 2000;
      Pass(0);
      while now < deadline
        invariant Valid() && lockCount == 0 && faults >= old(faults) && now >= old(now)
        invariant 10 * polls <= now - (deadline - 2000) && polls <= 200
        decreases deadline - now
      {
        polls := polls + 1;
        var r := TryAcquire();
        if r == OsError {
          return;
        }
        if r == Done {
          var record := RecordOf(file);
          seen := file;
          Release();
          if record.Good? || record.BadState? { // all but the state check
            return;
          }
        }
        Pass(10);
      }
    }

    /** `create`. A new file is filled by the initial writes only. A file that was
        found is never written to, except that a master clears the asset counters
        of one that inspection finds OK and UNLOCKED, and then all of them. Without a
        failing call, and outside a wait scope, it always ends well. */
    method Create(found: bool, isMaster: bool) returns (r: Outcome, ghost seen: seq<Byte>, ghost status: Status)
      requires Valid() && lockCount == 0
      modifies this`file, this`now, this`interrupted, this`grantable
      modifies this`lockCount, this`osHeld, this`faults, this`refused, this`log
      ensures Valid() && lockCount == 0
      ensures old(log) <= log
      ensures !found ==> log[|old(log)|..] <= InitWrites()
      ensures !found && r.Done? ==> log == old(log) + InitWrites()
      ensures found && log != old(log) ==>
                && isMaster && RecordOf(seen).Good? && InspectBytes(seen, Unsure).health == Ok
                && RecordOf(seen).rec.state == Unlocked && CounterOf(seen) == Some(1)
                && log[|old(log)|..] <= ClearWrites()
                && file == ApplyAll(seen, log[|old(log)|..])
      ensures found && isMaster && r.Done? ==>
                log == old(log) + if IsFree(InspectBytes(seen, status)) then ClearWrites() else []
      ensures found && !isMaster ==> r.Done?
      ensures faults == old(faults) && !waitEnabled ==> r.Done?
      ensures r.Refused? ==> r == Refused(Unknown, System) && faults > old(faults)
    {
      hide Apply, ApplyAll, FromBytes, Checksum;
      Powers();
      seen, status := file, Unsure;
      if !found {
        file := seq(FLOCK_SIZE, i => 0);
        r := Acquire();
        if r == Done {
          var done := PutAll(InitWrites());
          Release();
          r := if done == |InitWrites()| then Done else Refused(Unknown, System);
        }
        return;
      }
      var _, _ := AwaitInitialisation();
      if isMaster {
        r := Acquire();
        if r != Done {
          return;
        }
        var i;
        i, status := InspectHere();
        seen := file;
        if i.health == Ok && i.state == Unlocked && i.counter == 1 {
          var done := PutAll(ClearWrites());
          if done < |ClearWrites()| {
            Release();
            return Refused(Unknown, System), seen, status;
          }
        }
        Release();
      }
      return Done, seen, status;
    }

    /** `inspect_master_lock`, on its own handle: it reports what the bytes say, or that
        the OS lock could not be had, which is contention if somebody else holds it or
        the forced wait has failed, and a system error otherwise. It writes nothing and
        restores the wait scope it opens. */
    method InspectMasterLock(timeout: nat, forceWait: bool) returns (r: Inspection, looked: bool, ghost status: Status)
      requires Valid() && lockCount == 0
      modifies this`file, this`now, this`interrupted, this`grantable, this`lockCount, this`osHeld
      modifies this`faults, this`refused, this`waitEnabled, this`timeoutMs, this`interruptible
      ensures Valid() && lockCount == 0
      ensures waitEnabled == old(waitEnabled) && timeoutMs == old(timeoutMs) && interruptible == old(interruptible)
      ensures looked ==> r == InspectBytes(file, status)
      ensures !looked ==> r.health == Unknown && (r.cause == Contention || r.cause == System)
      ensures !looked && forceWait ==> r.cause == Contention && (faults > old(faults) || now - old(now) >= timeout)
      ensures !looked && !forceWait ==>
                if r.cause == Contention then refused > old(refused) else faults > old(faults)
    {
      var blank := Inspection(Unknown, NoCause, Unlocked, -1, NO_OWNER, 0);
      var got;
      if forceWait {
        var previous := (waitEnabled, timeoutMs, interruptible);
        waitEnabled, timeoutMs, interruptible := true, timeout, false;
        got := Acquire();
        waitEnabled, timeoutMs, interruptible := previous.0, previous.1, previous.2;
      } else {
        got := TryAcquire();
      }
      if got != Done {
        r := blank.(cause := if got == OsError && !forceWait then System else Contention);
        return r, false, Unsure;
      }
      r, status := InspectHere();
      Release();
      looked := true;
    }
  }
}
