/** What every run of the master lock protocol keeps. */
module MasterLockSafety {
  import opened Common
  import opened LockTypes
  import opened MasterLockProtocol

  // ----- the invariant -----

  predicate Is(f: File, m: LockRecord, counter: int) {
    f.File? && f.record == Good(m) && f.counter == Some(counter)
  }

  predicate LockedBy(f: File, id: Identity) {
    && f.File? && f.record.Good? && f.counter == Some(0)
    && f.record.rec.state == Locked && f.record.rec.owner == id
  }

  predicate Sealed(f: File) { f.File? && f.record.Good? }

  /** The thread is the one the record names. */
  predicate Owning(l: Local) {
    l.holds || IsAcquiring(l.pc)
  }

  /** From the write of ACQUIRING to the return of `master_lock`. */
  predicate IsAcquiring(pc: Pc) { pc.LockRecorded? || pc.LockCounted? || pc.LockCommitted? }

  /** What the file must look like for a thread to be where it is. */
  predicate Fits(f: File, t: Thread, l: Local) {
    && (l.holds ==>
          match l.pc
          case UnlockRecorded(m) => Is(f, m, 0) && m.state == Releasing && m.owner == t.ident
          case UnlockCounted(m) => Is(f, m, 1) && m.state == Releasing && m.owner == t.ident
          case _ => LockedBy(f, t.ident))
    && match l.pc
       case LockReady(m) => Is(f, m, 1) && m.state == Unlocked && m.owner == NO_OWNER
       case LockRecorded(m) => Is(f, m, 1) && m.state == Acquiring && m.owner == t.ident
       case LockCounted(m) => Is(f, m, 0) && m.state == Acquiring && m.owner == t.ident
       case LockCommitted => LockedBy(f, t.ident)
       case UnlockCalled => l.holds
       case UnlockEntered => l.holds
       case UnlockReady(m) => l.holds && f.File? && f.record == Good(m)
       case UnlockRecorded(m) => l.holds
       case UnlockCounted(m) => l.holds
       case CreateFresh => f.File? && !Sealed(f)
       case CreateSized => f.File? && !Sealed(f)
       case CreateInit(i) => f.File? && !Sealed(f) && i <= MAX_SEM && (i > 0 ==> f.counter == Some(1))
       case CreateClear(i) => 1 <= i <= MAX_SEM && Sealed(f) && Is(f, f.record.rec, 1) && f.record.rec.state == Unlocked
       case AssetCalled(i, up) => 1 <= i < MAX_SEM
       case AssetEntered(i, up) => 1 <= i < MAX_SEM
       case AssetRead(i, up, v) => 1 <= i < MAX_SEM && v == (if f.File? && i < |f.assets| then f.assets[i] else 0)
       case Leaving(exit) => exit.DownLoop? ==> 1 <= exit.index < MAX_SEM
       case _ => true
  }

  predicate IsTransition(pc: Pc) { pc.LockRecorded? || pc.LockCounted? || pc.UnlockRecorded? || pc.UnlockCounted? }

  /** The record is between two writes of a live thread that holds the OS lock. */
  predicate InTransition(s: State) {
    && s.holder.Some? && s.holder.value in s.threads
    && IsTransition(s.threads[s.holder.value].pc)
  }

  /** Free with no owner, or locked: what a finished operation leaves. */
  predicate Settled(f: File) {
    Sealed(f) ==>
      || (f.record.rec.state == Unlocked && Is(f, f.record.rec, 1) && f.record.rec.owner == NO_OWNER)
      || (f.record.rec.state == Locked && Is(f, f.record.rec, 0))
  }

  /** Free with no owner, locked, or in a transition that is running or whose owner is dead. */
  predicate Explained(s: State) {
    Settled(s.file)
    || (s.file.record.rec.state != Unlocked && s.file.record.rec.state != Locked
        && (s.file.record.rec.owner !in s.live || InTransition(s)))
  }

  predicate ThreadsFit(s: State) {
    forall t :: t in s.threads ==> t.ident in s.live && Fits(s.file, t, s.threads[t])
  }

  predicate OsLockExclusive(s: State) {
    && (s.holder.Some? ==> s.holder.value in s.threads && HasOsLock(s.threads[s.holder.value].pc))
    && forall t :: t in s.threads && HasOsLock(s.threads[t].pc) ==> s.holder == Some(t)
  }

  predicate OneOwner(s: State) {
    forall t, u :: t in s.threads && u in s.threads && Owning(s.threads[t]) && Owning(s.threads[u]) ==> t == u
  }

  predicate OneCreator(s: State) {
    && s.creations <= 1
    && (s.file.NoFile? ==> s.creations == 0)
    && forall t, u :: t in s.threads && u in s.threads && IsCreating(s.threads[t].pc) && IsCreating(s.threads[u].pc) ==>
         t == u
  }

  predicate FileSane(s: State) {
    && s.live <= s.used && NO_OWNER !in s.live
    && (s.file.File? ==>
          && (s.file.record.Absent? || s.file.record.BadMagic? || s.file.record.Good?)
          && |s.file.assets| == MAX_SEM)
    && (Sealed(s.file) ==>
          && s.file.counter.Some?
          && (s.file.record.rec.state != Unlocked ==> s.file.record.rec.owner in s.used)
          && s.file.record.rec.generation == s.acquisitions % TWO64)
    && (!Sealed(s.file) ==> s.acquisitions == 0 && s.grants == [])
  }

  predicate TicketsRise(grants: seq<Grant>, top: int) {
    && (forall i, j :: 0 <= i < j < |grants| ==> grants[i].ticket < grants[j].ticket)
    && (forall i :: 0 <= i < |grants| ==>
          grants[i].ticket <= top && grants[i].generation == grants[i].ticket % TWO64)
  }

  predicate GrantsRise(s: State) {
    && TicketsRise(s.grants, s.acquisitions)
    && (forall t :: t in s.threads && IsAcquiring(s.threads[t].pc) ==> TicketsRise(s.grants, s.acquisitions - 1))
  }

  /** No asset_up is lost and no asset_down is granted on credit. */
  predicate SemaphoresBalance(s: State) {
    && |s.posted| == MAX_SEM
    && (forall i :: 0 <= i < MAX_SEM ==> s.posted[i] >= 0)
    && (s.file.NoFile? ==> forall i :: 0 <= i < MAX_SEM ==> s.posted[i] == 0)
    && (s.file.File? ==> s.file.assets == s.posted)
  }

  predicate Inv(s: State) {
    && ThreadsFit(s) && OsLockExclusive(s) && OneOwner(s) && OneCreator(s) && FileSane(s) && GrantsRise(s)
    && SemaphoresBalance(s)
    && (!s.failed ==> Explained(s))
  }

  // ----- every step keeps it -----

  lemma InitInv(s: State)
    requires Init(s)
    ensures Inv(s)
  {
  }

  // One thread's step, seen without the rest of the state.

  predicate FileOk(f: File) {
    f.File? ==>
      && (f.record.Absent? || f.record.BadMagic? || f.record.Good?)
      && |f.assets| == MAX_SEM
      && (f.record.Good? ==> f.counter.Some?)
  }

  predicate IsInspecting(pc: Pc) { pc.LockEntered? || pc.UnlockEntered? || pc.CreateCheck? }

  lemma InspectingFits(f: File, t: Thread, l: Local, c: Choice)
    requires FileOk(f) && Fits(f, t, l) && IsInspecting(l.pc)
    ensures Act(f, t, l, c).file == f
    ensures Fits(f, t, Act(f, t, l, c).local)
  {
  }

  /** The steps that write the record or counter 0 on behalf of the lock's owner. */
  predicate IsOwnerWrite(pc: Pc) {
    pc.LockReady? || pc.LockRecorded? || pc.LockCounted? || pc.UnlockReady? || pc.UnlockRecorded? || pc.UnlockCounted?
  }

  lemma OwnerWriteFits(f: File, t: Thread, l: Local, c: Choice)
    requires FileOk(f) && Fits(f, t, l) && IsOwnerWrite(l.pc)
    ensures FileOk(Act(f, t, l, c).file)
    ensures Fits(Act(f, t, l, c).file, t, Act(f, t, l, c).local)
  {
  }

  lemma CreatorFits(f: File, t: Thread, l: Local, c: Choice)
    requires FileOk(f) && Fits(f, t, l) && (IsCreating(l.pc) || l.pc.CreateCalled?)
    ensures FileOk(Act(f, t, l, c).file)
    ensures Fits(Act(f, t, l, c).file, t, Act(f, t, l, c).local)
  {
    hide InspectFile, HasOsLock, IsAcquiring, IsTransition;
  }

  predicate IsAssetStep(pc: Pc) { pc.AssetCalled? || pc.AssetEntered? || pc.AssetRead? || pc.CreateClear? }

  /** Writes of asset counters leave a sealed file's record and counter 0 alone. */
  lemma AssetStepFits(f: File, t: Thread, l: Local, c: Choice)
    requires FileOk(f) && Fits(f, t, l) && IsAssetStep(l.pc)
    ensures FileOk(Act(f, t, l, c).file)
    ensures Fits(Act(f, t, l, c).file, t, Act(f, t, l, c).local)
  {
    hide InspectFile, Grow, EmptyFile, PutRecord;
  }

  /** All other steps leave the file alone. */
  lemma RestFits(f: File, t: Thread, l: Local, c: Choice)
    requires FileOk(f) && Fits(f, t, l)
    requires !IsInspecting(l.pc) && !IsOwnerWrite(l.pc) && !IsAssetStep(l.pc)
    requires !IsCreating(l.pc) && !l.pc.CreateCalled?
    ensures FileOk(Act(f, t, l, c).file)
    ensures Fits(Act(f, t, l, c).file, t, Act(f, t, l, c).local)
  {
    hide InspectFile, Grow, EmptyFile, PutRecord, PutCounter;
  }

  /** The stepping thread still fits the file it leaves behind. */
  lemma SelfFits(f: File, t: Thread, l: Local, c: Choice)
    requires FileOk(f) && Fits(f, t, l)
    ensures FileOk(Act(f, t, l, c).file)
    ensures Fits(Act(f, t, l, c).file, t, Act(f, t, l, c).local)
  {
    if IsInspecting(l.pc) {
      InspectingFits(f, t, l, c);
    } else if IsOwnerWrite(l.pc) {
      OwnerWriteFits(f, t, l, c);
    } else if IsCreating(l.pc) || l.pc.CreateCalled? {
      CreatorFits(f, t, l, c);
    } else if IsAssetStep(l.pc) {
      AssetStepFits(f, t, l, c);
    } else {
      RestFits(f, t, l, c);
    }
  }

  /** A thread that does not hold the OS lock is not disturbed: the only threads
      whose place depends on the file are owners and creators, and there is one of each. */
  lemma OtherFits(f: File, t: Thread, l: Local, c: Choice, u: Thread, other: Local)
    requires FileOk(f) && Fits(f, t, l) && Fits(f, u, other)
    requires !(HasOsLock(l.pc) && HasOsLock(other.pc))
    requires !(Owning(l) && Owning(other)) && !(IsCreating(l.pc) && IsCreating(other.pc))
    ensures Fits(Act(f, t, l, c).file, u, other)
  {
  }

  lemma OsLockMoves(f: File, t: Thread, l: Local, c: Choice)
    ensures HasOsLock(Act(f, t, l, c).local.pc) <==>
              TakesOsLock(l.pc, c) || (HasOsLock(l.pc) && !l.pc.Leaving? && !l.pc.LockCommitted?)
  {
    hide InspectFile, PutRecord, PutCounter, Grow, EmptyFile;
  }

  /** Only an O_EXCL open makes a creator. */
  lemma CreatorMoves(f: File, t: Thread, l: Local, c: Choice)
    ensures IsCreating(Act(f, t, l, c).local.pc) ==> IsCreating(l.pc) || (l.pc.CreateCalled? && f.NoFile? && c.writeOk)
  {
    hide InspectFile, PutRecord, PutCounter, Grow, EmptyFile;
  }

  /** Only the write of ACQUIRING makes an owner. */
  lemma OwnerMoves(f: File, t: Thread, l: Local, c: Choice)
    ensures var pc := Act(f, t, l, c).local.pc;
            && (pc.LockRecorded? ==> l.pc.LockReady? && c.writeOk)
            && (pc.LockCounted? ==> l.pc.LockRecorded?)
            && (pc.LockCommitted? ==> l.pc.LockCounted?)
    ensures Act(f, t, l, c).local.holds ==> l.holds || l.pc.LockCommitted?
  {
    hide InspectFile, PutRecord, PutCounter, Grow, EmptyFile;
  }

  /** How a step moves a thread between the places the invariant speaks of. */
  lemma ActMoves(f: File, t: Thread, l: Local, c: Choice)
    ensures var pc := Act(f, t, l, c).local.pc;
            && (HasOsLock(pc) <==> TakesOsLock(l.pc, c) || (HasOsLock(l.pc) && !l.pc.Leaving? && !l.pc.LockCommitted?))
            && (IsCreating(pc) ==> IsCreating(l.pc) || (l.pc.CreateCalled? && f.NoFile? && c.writeOk))
            && (IsAcquiring(pc) ==> (IsAcquiring(l.pc) && !l.pc.LockCommitted?) || (l.pc.LockReady? && c.writeOk))
    ensures Owning(Act(f, t, l, c).local) ==> Owning(l) || (l.pc.LockReady? && c.writeOk)
  {
    hide Act, HasOsLock, IsCreating, TakesOsLock;
    OsLockMoves(f, t, l, c);
    CreatorMoves(f, t, l, c);
    OwnerMoves(f, t, l, c);
  }

  lemma FileStays(f: File, t: Thread, l: Local, c: Choice)
    ensures f.File? || (l.pc.CreateCalled? && c.writeOk) ==> Act(f, t, l, c).file.File?
  {
    hide InspectFile;
  }

  lemma ThreadsStillFit(s: State, t: Thread, c: Choice)
    requires ThreadsFit(s) && OsLockExclusive(s) && OneOwner(s) && OneCreator(s) && FileOk(s.file)
    requires Enabled(s, Run(t, c))
    ensures ThreadsFit(Next(s, Run(t, c))) && FileOk(Next(s, Run(t, c)).file)
  {
    hide Act;
    var s' := Next(s, Run(t, c));
    SelfFits(s.file, t, s.threads[t], c);
    forall u | u in s'.threads
      ensures u.ident in s'.live && Fits(s'.file, u, s'.threads[u])
    {
      if u != t {
        OtherFits(s.file, t, s.threads[t], c, u, s.threads[u]);
      }
    }
  }

  lemma OwnerStaysUnique(s: State, t: Thread, c: Choice)
    requires ThreadsFit(s) && OneOwner(s) && Enabled(s, Run(t, c))
    ensures OneOwner(Next(s, Run(t, c)))
  {
    hide Act;
    ActMoves(s.file, t, s.threads[t], c);
    if s.threads[t].pc.LockReady? {
      forall u | u in s.threads
        ensures !Owning(s.threads[u])
      {
        assert Fits(s.file, t, s.threads[t]) && Fits(s.file, u, s.threads[u]);
      }
    }
  }

  lemma CreatorStaysUnique(s: State, t: Thread, c: Choice)
    requires ThreadsFit(s) && OneCreator(s) && Enabled(s, Run(t, c))
    ensures OneCreator(Next(s, Run(t, c)))
  {
    hide Act;
    ActMoves(s.file, t, s.threads[t], c);
    FileStays(s.file, t, s.threads[t], c);
    forall u | u in s.threads && IsCreating(s.threads[u].pc)
      ensures s.file.File?
    {
      assert Fits(s.file, u, s.threads[u]);
    }
  }

  lemma OsLockStaysExclusive(s: State, t: Thread, c: Choice)
    requires OsLockExclusive(s) && Enabled(s, Run(t, c))
    ensures OsLockExclusive(Next(s, Run(t, c)))
  {
    hide Act;
    ActMoves(s.file, t, s.threads[t], c);
  }

  /** What a step does to the record: sealing happens once, the generation moves
      with the write of ACQUIRING and at no other time, and a step that ends
      neither in a transition nor in a failed write leaves a settled file. */
  lemma ActRecord(f: File, t: Thread, l: Local, c: Choice)
    requires FileOk(f) && Fits(f, t, l)
    ensures var g := Act(f, t, l, c).file;
            && (Sealed(f) ==>
                  && Sealed(g)
                  && g.record.rec.generation == (if l.pc.LockReady? && c.writeOk
                                                 then (f.record.rec.generation + 1) % TWO64
                                                 else f.record.rec.generation)
                  && (|| g.record.rec.state == Unlocked
                      || g.record.rec.owner == t.ident
                      || (g.record.rec.owner == f.record.rec.owner && f.record.rec.state != Unlocked)))
            && (Sealed(g) && !Sealed(f) ==> g.record.rec == NEW_RECORD)
    ensures l.pc.LockReady? || IsAcquiring(l.pc) ==> Sealed(f)
  {
    hide InspectFile;
  }

  lemma ActSettles(f: File, t: Thread, l: Local, c: Choice)
    requires FileOk(f) && Fits(f, t, l)
    requires !Act(f, t, l, c).failed && !IsTransition(Act(f, t, l, c).local.pc)
    ensures Settled(Act(f, t, l, c).file)
            || (!IsTransition(l.pc) && f.File?
                && Act(f, t, l, c).file.record == f.record && Act(f, t, l, c).file.counter == f.counter)
  {
    hide InspectFile;
  }

  lemma FileStaysSane(s: State, t: Thread, c: Choice)
    requires ThreadsFit(s) && FileSane(s) && Enabled(s, Run(t, c))
    ensures FileSane(Next(s, Run(t, c)))
  {
    hide Act;
    SelfFits(s.file, t, s.threads[t], c);
    ActRecord(s.file, t, s.threads[t], c);
    assert (s.acquisitions % TWO64 + 1) % TWO64 == (s.acquisitions + 1) % TWO64;
  }

  /** Tickets stay in order when the next one is handed out. */
  lemma TicketsExtend(grants: seq<Grant>, top: nat, g: Grant)
    ensures TicketsRise(grants, top - 1) ==> TicketsRise(grants, top)
    ensures TicketsRise(grants, top - 1) && g.ticket == top && g.generation == top % TWO64 ==>
              TicketsRise(grants + [g], top)
  {
  }

  lemma GrantsStillRise(s: State, t: Thread, c: Choice)
    requires ThreadsFit(s) && OsLockExclusive(s) && FileSane(s) && GrantsRise(s) && Enabled(s, Run(t, c))
    ensures GrantsRise(Next(s, Run(t, c)))
  {
    var l, s' := s.threads[t], Next(s, Run(t, c));
    ActMoves(s.file, t, l, c);
    assert Fits(s.file, t, l);
    if IsAcquiring(l.pc) || l.pc.LockReady? {
      assert s.holder == Some(t);
    }
    TicketsExtend(s.grants, s'.acquisitions, if s'.grants == s.grants then Grant(t, 0, 0) else s'.grants[|s.grants|]);
    hide Act, TicketsRise, InspectFile, TakesOsLock;
  }

  /** The value read under the OS lock is still there when the new one is written. */
  lemma ActAssets(f: File, t: Thread, l: Local, c: Choice)
    requires FileOk(f) && Fits(f, t, l)
    ensures f.File? ==> Act(f, t, l, c).file.File? && Act(f, t, l, c).file.assets == Post(f.assets, l.pc, c)
    ensures f.NoFile? && Act(f, t, l, c).file.File? ==> Act(f, t, l, c).file.assets == seq(MAX_SEM, i => 0)
  {
    hide InspectFile;
  }

  lemma SemaphoresStayBalanced(s: State, t: Thread, c: Choice)
    requires ThreadsFit(s) && FileOk(s.file) && SemaphoresBalance(s) && Enabled(s, Run(t, c))
    ensures SemaphoresBalance(Next(s, Run(t, c)))
  {
    hide Act;
    assert Fits(s.file, t, s.threads[t]);
    ActAssets(s.file, t, s.threads[t], c);
  }

  lemma StaysExplained(s: State, t: Thread, c: Choice)
    requires ThreadsFit(s) && OsLockExclusive(s) && FileSane(s) && Explained(s) && Enabled(s, Run(t, c))
    requires !Next(s, Run(t, c)).failed
    ensures Explained(Next(s, Run(t, c)))
  {
    hide Act;
    var s' := Next(s, Run(t, c));
    SelfFits(s.file, t, s.threads[t], c);
    ActMoves(s.file, t, s.threads[t], c);
    if !IsTransition(s'.threads[t].pc) {
      ActSettles(s.file, t, s.threads[t], c);
    }
  }

  lemma RunKeepsInv(s: State, t: Thread, c: Choice)
    requires Inv(s) && Enabled(s, Run(t, c))
    ensures Inv(Next(s, Run(t, c)))
  {
    hide Act, Fits, Explained;
    ThreadsStillFit(s, t, c);
    OwnerStaysUnique(s, t, c);
    CreatorStaysUnique(s, t, c);
    OsLockStaysExclusive(s, t, c);
    FileStaysSane(s, t, c);
    GrantsStillRise(s, t, c);
    SemaphoresStayBalanced(s, t, c);
    if !Next(s, Run(t, c)).failed {
      StaysExplained(s, t, c);
    }
  }

  lemma TransitionIsOwned(f: File, t: Thread, l: Local)
    requires Fits(f, t, l) && IsTransition(l.pc)
    ensures Sealed(f) && f.record.rec.owner == t.ident
  {
  }

  lemma CrashKeepsThreads(s: State, id: Identity)
    requires ThreadsFit(s) && OsLockExclusive(s) && OneOwner(s) && OneCreator(s) && Enabled(s, Crash(id))
    ensures var s' := Next(s, Crash(id));
            ThreadsFit(s') && OsLockExclusive(s') && OneOwner(s') && OneCreator(s')
  {
    hide Fits, HasOsLock, IsAcquiring, IsCreating, Owning;
  }

  /** A crash in mid-transition turns "in transition" into "its owner is dead". */
  lemma CrashKeepsHistory(s: State, id: Identity)
    requires ThreadsFit(s) && FileSane(s) && GrantsRise(s) && SemaphoresBalance(s) && (!s.failed ==> Explained(s))
    requires Enabled(s, Crash(id))
    ensures var s' := Next(s, Crash(id));
            FileSane(s') && GrantsRise(s') && SemaphoresBalance(s') && (!s'.failed ==> Explained(s'))
  {
    hide Fits, IsAcquiring, IsTransition, TicketsRise;
    if InTransition(s) {
      TransitionIsOwned(s.file, s.holder.value, s.threads[s.holder.value]);
    }
  }

  lemma CrashKeepsInv(s: State, id: Identity)
    requires Inv(s) && Enabled(s, Crash(id))
    ensures Inv(Next(s, Crash(id)))
  {
    hide Next, ThreadsFit, OsLockExclusive, OneOwner, OneCreator, FileSane, GrantsRise, SemaphoresBalance, Explained;
    CrashKeepsThreads(s, id);
    CrashKeepsHistory(s, id);
  }

  lemma CallFits(f: File, t: Thread, l: Local, op: Op)
    requires Fits(f, t, l) && l.pc == Idle && (op.Unlock? ==> l.holds)
    requires (op.AssetUp? ==> 1 <= op.up < MAX_SEM) && (op.AssetDown? ==> 1 <= op.down < MAX_SEM)
    ensures Fits(f, t, l.(pc := CallPc(op)))
    ensures var pc := CallPc(op);
            !HasOsLock(pc) && !IsAcquiring(pc) && !IsCreating(pc) && !IsTransition(pc)
    ensures !HasOsLock(l.pc) && !IsAcquiring(l.pc) && !IsCreating(l.pc)
  {
  }

  lemma CallKeepsThreads(s: State, t: Thread, op: Op)
    requires ThreadsFit(s) && OsLockExclusive(s) && OneOwner(s) && OneCreator(s) && Enabled(s, Call(t, op))
    ensures var s' := Next(s, Call(t, op));
            ThreadsFit(s') && OsLockExclusive(s') && OneOwner(s') && OneCreator(s')
    ensures s.holder != Some(t)
  {
    hide Fits, CallPc, HasOsLock, IsAcquiring, IsCreating;
    CallFits(s.file, t, s.threads[t], op);
  }

  lemma CallKeepsHistory(s: State, t: Thread, op: Op)
    requires FileSane(s) && GrantsRise(s) && SemaphoresBalance(s) && (!s.failed ==> Explained(s))
    requires Enabled(s, Call(t, op))
    requires s.holder != Some(t) && Fits(s.file, t, s.threads[t])
    ensures var s' := Next(s, Call(t, op));
            FileSane(s') && GrantsRise(s') && SemaphoresBalance(s') && (!s'.failed ==> Explained(s'))
  {
    hide Fits, CallPc, IsAcquiring, IsTransition, TicketsRise;
    CallFits(s.file, t, s.threads[t], op);
  }

  lemma CallKeepsInv(s: State, t: Thread, op: Op)
    requires Inv(s) && Enabled(s, Call(t, op))
    ensures Inv(Next(s, Call(t, op)))
  {
    hide Fits, CallPc, OsLockExclusive, OneOwner, OneCreator, FileSane, GrantsRise, SemaphoresBalance, Explained;
    CallKeepsThreads(s, t, op);
    assert Fits(s.file, t, s.threads[t]);
    CallKeepsHistory(s, t, op);
  }

  lemma IdleFits(f: File, t: Thread)
    ensures Fits(f, t, Local(Idle, false))
  {
  }

  lemma SpawnKeepsPlaces(s: State, t: Thread)
    requires ThreadsFit(s) && OsLockExclusive(s) && Enabled(s, Spawn(t))
    ensures ThreadsFit(Next(s, Spawn(t))) && OsLockExclusive(Next(s, Spawn(t)))
  {
    IdleFits(s.file, t);
    assert !HasOsLock(Idle);
    hide Fits, HasOsLock;
  }

  lemma SpawnKeepsRoles(s: State, t: Thread)
    requires OneOwner(s) && OneCreator(s) && Enabled(s, Spawn(t))
    ensures OneOwner(Next(s, Spawn(t))) && OneCreator(Next(s, Spawn(t)))
  {
    assert !IsCreating(Idle) && !Owning(Local(Idle, false));
    hide IsCreating, Owning;
  }

  /** A newcomer is not the dead owner: its incarnation has never run before. */
  lemma SpawnKeepsHistory(s: State, t: Thread)
    requires FileSane(s) && GrantsRise(s) && SemaphoresBalance(s) && (!s.failed ==> Explained(s))
    requires Enabled(s, Spawn(t))
    ensures var s' := Next(s, Spawn(t));
            FileSane(s') && GrantsRise(s') && SemaphoresBalance(s') && (!s'.failed ==> Explained(s'))
  {
    assert !IsAcquiring(Idle);
    hide IsAcquiring, IsTransition, TicketsRise;
  }

  lemma SpawnKeepsInv(s: State, t: Thread)
    requires Inv(s) && Enabled(s, Spawn(t))
    ensures Inv(Next(s, Spawn(t)))
  {
    hide Next, ThreadsFit, OsLockExclusive, OneOwner, OneCreator, FileSane, GrantsRise, SemaphoresBalance, Explained;
    SpawnKeepsPlaces(s, t);
    SpawnKeepsRoles(s, t);
    SpawnKeepsHistory(s, t);
  }

  lemma StepKeepsInv(s: State, step: Step)
    requires Inv(s) && Enabled(s, step)
    ensures Inv(Next(s, step))
  {
    hide Inv, Next;
    match step
    case Run(t, c) => RunKeepsInv(s, t, c);
    case Spawn(t) => SpawnKeepsInv(s, t);
    case Crash(id) => CrashKeepsInv(s, id);
    case Call(t, op) => CallKeepsInv(s, t, op);
  }

  lemma {:induction false} InvAlways(ss: seq<State>, steps: seq<Step>, i: nat)
    requires IsRun(ss, steps) && Inv(ss[0]) && i < |ss|
    ensures Inv(ss[i])
  {
    if i > 0 {
      InvAlways(ss, steps, i - 1);
      StepKeepsInv(ss[i - 1], steps[i - 1]);
    }
  }
}
