/** The promises of the master lock, for every run: any number of processes and
    threads, any interleaving of single reads, writes and OS-lock operations, a
    crash or a failed write at any point. */
module MasterLockTheorems {
  import opened Common
  import opened LockTypes
  import opened MasterLockProtocol
  import opened MasterLockSafety

  // ----- mutual exclusion -----

  /** At most one live thread is between a returned `master_lock` and the end of
      its `master_unlock`; until it starts to release, the file says so. */
  lemma MutualExclusion(ss: seq<State>, steps: seq<Step>, i: nat, t: Thread, u: Thread)
    requires IsRun(ss, steps) && Init(ss[0]) && i < |ss|
    requires t in ss[i].threads && ss[i].threads[t].holds
    ensures t.ident in ss[i].live
    ensures u in ss[i].threads && ss[i].threads[u].holds ==> u == t
    ensures !ss[i].threads[t].pc.UnlockRecorded? && !ss[i].threads[t].pc.UnlockCounted? ==>
              LockedBy(ss[i].file, t.ident)
  {
    InitInv(ss[0]);
    InvAlways(ss, steps, i);
    assert Fits(ss[i].file, t, ss[i].threads[t]);
    assert Owning(ss[i].threads[t]);
  }

  /** Successive returns of `master_lock` carry strictly increasing generations,
      as long as the 64-bit counter has not wrapped. */
  lemma GenerationsIncrease(ss: seq<State>, steps: seq<Step>, i: nat, a: nat, b: nat)
    requires IsRun(ss, steps) && Init(ss[0]) && i < |ss|
    requires a < b < |ss[i].grants| && ss[i].acquisitions < TWO64
    ensures ss[i].grants[a].generation < ss[i].grants[b].generation
  {
    hide Fits;
    InitInv(ss[0]);
    InvAlways(ss, steps, i);
  }

  // ----- fail-stop -----

  /** The record names an owner that has died. */
  predicate OwnerDied(s: State) {
    && Sealed(s.file)
    && s.file.record.rec.state != Unlocked
    && s.file.record.rec.owner in s.used && s.file.record.rec.owner !in s.live
  }

  predicate SameLock(f: File, g: File) {
    f.File? && g.File? && f.counter == g.counter && f.record == g.record
  }

  /** With a dead owner no thread is past its inspection. */
  lemma NobodyInside(s: State, t: Thread)
    requires Inv(s) && OwnerDied(s) && t in s.threads
    ensures !Owning(s.threads[t]) && !IsOwnerWrite(s.threads[t].pc) && !IsCreating(s.threads[t].pc)
  {
    assert Fits(s.file, t, s.threads[t]) && t.ident in s.live;
  }

  lemma InspectionStopsAll(f: File, t: Thread, l: Local, c: Choice, live: set<Identity>)
    requires FileOk(f) && Sealed(f) && f.record.rec.state != Unlocked && f.record.rec.owner !in live
    requires Truthful(f, live, c.status) && Fits(f, t, l)
    requires !IsOwnerWrite(l.pc) && !IsAcquiring(l.pc) && !IsCreating(l.pc)
    ensures SameLock(f, Act(f, t, l, c).file)
  {
  }

  lemma FailStopStep(s: State, step: Step)
    requires Inv(s) && OwnerDied(s) && Enabled(s, step)
    ensures OwnerDied(Next(s, step)) && SameLock(s.file, Next(s, step).file)
    ensures Next(s, step).grants == s.grants && Next(s, step).acquisitions == s.acquisitions
  {
    hide Act, Fits;
    match step
    case Run(t, c) =>
      NobodyInside(s, t);
      assert Fits(s.file, t, s.threads[t]);
      InspectionStopsAll(s.file, t, s.threads[t], c, s.live);
    case _ =>
  }

  /** Once the recorded owner has died, counter 0 and the record never change
      again, whoever runs (a process reusing the pid included); no `master_lock`
      returns and no `master_unlock` gets past its inspection. */
  lemma {:induction false} FailStopIsPermanent(ss: seq<State>, steps: seq<Step>, i: nat, j: nat, t: Thread)
    requires IsRun(ss, steps) && Init(ss[0]) && i <= j < |ss| && OwnerDied(ss[i])
    ensures SameLock(ss[i].file, ss[j].file) && OwnerDied(ss[j])
    ensures ss[j].grants == ss[i].grants
    ensures t in ss[j].threads ==> !ss[j].threads[t].holds && !IsOwnerWrite(ss[j].threads[t].pc)
  {
    hide Next, Enabled, Fits, Inv;
    InitInv(ss[0]);
    InvAlways(ss, steps, j);
    if i < j {
      FailStopIsPermanent(ss, steps, i, j - 1, t);
      InvAlways(ss, steps, j - 1);
      FailStopStep(ss[j - 1], steps[j - 1]);
    }
    if t in ss[j].threads {
      NobodyInside(ss[j], t);
    }
  }

  // ----- the file explains itself -----

  /** As long as no write has failed, a sealed file whose OS lock is free is
      UNLOCKED/1/no owner, LOCKED/0, or in a transition whose owner is dead. */
  lemma FileIsExplainable(ss: seq<State>, steps: seq<Step>, i: nat)
    requires IsRun(ss, steps) && Init(ss[0]) && i < |ss|
    requires !ss[i].failed && ss[i].holder.None? && Sealed(ss[i].file)
    ensures Settled(ss[i].file) || OwnerDied(ss[i])
  {
    hide Fits;
    InitInv(ss[0]);
    InvAlways(ss, steps, i);
  }

  /** So what an inspection says is true: ABORT means the owner is dead, UNKNOWN
      can only mean the identity could not be looked up, everything else is OK. */
  lemma InspectionIsHonest(ss: seq<State>, steps: seq<Step>, i: nat, status: Status)
    requires IsRun(ss, steps) && Init(ss[0]) && i < |ss|
    requires !ss[i].failed && Sealed(ss[i].file) && Truthful(ss[i].file, ss[i].live, status)
    requires !InTransition(ss[i]) // the inspector holds the OS lock, or nobody does
    ensures var r := InspectFile(ss[i].file, status);
            && (r.health == Abort <==> OwnerDied(ss[i]) && status == Dead)
            && (r.health == Unknown ==> r.cause == IdentityUnknown && status == Unsure)
            && (r.health == Ok <==> r.state == Unlocked || status == Alive)
  {
    hide Fits;
    InitInv(ss[0]);
    InvAlways(ss, steps, i);
  }

  // ----- the asset semaphores -----

  /** In every run each asset counter is the number of ups minus the number of granted
      downs since it was last cleared, and it is never negative: no up is lost and no
      down is granted without one, whatever else happens to the file. */
  lemma SemaphoresAreConserved(ss: seq<State>, steps: seq<Step>, i: nat, asset: nat)
    requires IsRun(ss, steps) && Init(ss[0]) && i < |ss| && ss[i].file.File? && asset < MAX_SEM
    ensures |ss[i].file.assets| == |ss[i].posted| == MAX_SEM
    ensures ss[i].file.assets[asset] == ss[i].posted[asset] >= 0
  {
    hide Fits;
    InitInv(ss[0]);
    InvAlways(ss, steps, i);
  }

  // ----- start-up -----

  /** However many processes call `create` on a missing file, one O_EXCL open
      succeeds; its thread is the only one that initialises, and it does so
      before anything has been acquired. */
  lemma StartUpIsSingle(ss: seq<State>, steps: seq<Step>, i: nat, t: Thread, u: Thread)
    requires IsRun(ss, steps) && Init(ss[0]) && i < |ss|
    ensures ss[i].creations <= 1
    ensures var ts := ss[i].threads;
            t in ts && u in ts && IsCreating(ts[t].pc) && IsCreating(ts[u].pc) ==> t == u
    ensures t in ss[i].threads && IsCreating(ss[i].threads[t].pc) ==>
              !Sealed(ss[i].file) && ss[i].acquisitions == 0 && ss[i].grants == []
  {
    InitInv(ss[0]);
    InvAlways(ss, steps, i);
    if t in ss[i].threads {
      assert Fits(ss[i].file, t, ss[i].threads[t]);
    }
  }

  /** `create` on a file that exists. */
  predicate IsLateCreate(pc: Pc) {
    pc.CreateFound? || pc.CreateProbe? || pc.CreateCheck? || pc.CreateClear?
  }

  lemma CreateSteps(f: File, t: Thread, l: Local, c: Choice)
    requires FileOk(f) && Fits(f, t, l)
    ensures Sealed(Act(f, t, l, c).file) && !Sealed(f) ==> l.pc == CreateInit(MAX_SEM)
    ensures IsLateCreate(l.pc) && f.File? ==>
              && SameLock(f, Act(f, t, l, c).file)
              && (f.assets != Act(f, t, l, c).file.assets ==>
                    Sealed(f) && Is(f, f.record.rec, 1) && f.record.rec.state == Unlocked)
  {
    hide InspectFile;
  }

  /** Only the creator's last write seals the file; a `create` that finds a file
      never touches counter 0 or the record, and clears asset counters only while
      the record says UNLOCKED. */
  lemma LateCreateIsHarmless(ss: seq<State>, steps: seq<Step>, i: nat, t: Thread, c: Choice)
    requires IsRun(ss, steps) && Init(ss[0]) && i < |steps| && steps[i] == Run(t, c)
    ensures t in ss[i].threads
    ensures Sealed(ss[i + 1].file) && !Sealed(ss[i].file) ==> ss[i].threads[t].pc == CreateInit(MAX_SEM)
    ensures IsLateCreate(ss[i].threads[t].pc) && ss[i].file.File? ==>
              && SameLock(ss[i].file, ss[i + 1].file)
              && (ss[i].file.assets != ss[i + 1].file.assets ==>
                    && Sealed(ss[i].file) && Is(ss[i].file, ss[i].file.record.rec, 1)
                    && ss[i].file.record.rec.state == Unlocked)
  {
    hide Act, Fits;
    InitInv(ss[0]);
    InvAlways(ss, steps, i);
    assert Enabled(ss[i], Run(t, c));
    assert Fits(ss[i].file, t, ss[i].threads[t]);
    CreateSteps(ss[i].file, t, ss[i].threads[t], c);
  }
}
