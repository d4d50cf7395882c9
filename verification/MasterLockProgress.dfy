/** What each call on the lock file comes to when nothing disturbs it: the lock is
    granted on a free file, refused at once on a dead or damaged one, waited for while
    its owner lives; a release frees it; the asset counters are posted and taken. */
module MasterLockProgress {
  import opened Common
  import opened LockTypes
  import opened MasterLockProtocol

  /** n steps of one thread in a row, the world answering the same way each time. */
  function Alone(f: File, t: Thread, l: Local, c: Choice, n: nat): Effect {
    if n == 0 then Effect(f, l, false)
    else
      var e := Alone(f, t, l, c, n - 1);
      Act(e.file, t, e.local, c)
  }

  /** Nothing fails, and waiting goes on. */
  predicate Willing(c: Choice) { c.writeOk && !c.giveUp }

  predicate Reads(f: File, m: LockRecord, counter: int) {
    f.File? && f.record == Good(m) && f.counter == Some(counter)
  }

  lemma Six(f: File, t: Thread, l: Local, c: Choice)
    ensures var e1 := Act(f, t, l, c);
            var e2 := Act(e1.file, t, e1.local, c);
            var e3 := Act(e2.file, t, e2.local, c);
            var e4 := Act(e3.file, t, e3.local, c);
            var e5 := Act(e4.file, t, e4.local, c);
            && Alone(f, t, l, c, 3) == e3
            && Alone(f, t, l, c, 4) == e4
            && Alone(f, t, l, c, 6) == Act(e5.file, t, e5.local, c)
  {
    hide Act;
    assert Alone(f, t, l, c, 1) == Act(f, t, l, c);
    assert Alone(f, t, l, c, 2) == Act(Act(f, t, l, c).file, t, Act(f, t, l, c).local, c);
    assert Alone(f, t, l, c, 5) == Act(Alone(f, t, l, c, 4).file, t, Alone(f, t, l, c, 4).local, c);
  }

  /** A free file is locked in six steps: the next generation, LOCKED, by the caller. */
  lemma LockIsGranted(f: File, t: Thread, m: LockRecord, c: Choice)
    requires Reads(f, m, 1) && m.state == Unlocked && m.owner == NO_OWNER && Willing(c)
    ensures var e := Alone(f, t, Local(CallPc(Lock), false), c, 6);
            && e.local == Local(Idle, true) && !e.failed
            && e.file == f.(counter := Some(0),
                            record := Good(LockRecord(Locked, m.reserved, t.ident, (m.generation + 1) % TWO64)))
  {
    Six(f, t, Local(CallPc(Lock), false), c);
  }

  /** The owner's release frees it again in six steps, with the generation kept. */
  lemma UnlockIsDone(f: File, t: Thread, m: LockRecord, c: Choice)
    requires Reads(f, m, 0) && m.state == Locked && m.owner == t.ident && Willing(c) && c.status == Alive
    ensures var e := Alone(f, t, Local(CallPc(Unlock), true), c, 6);
            && e.local == Local(Idle, false) && !e.failed
            && e.file == f.(counter := Some(1),
                            record := Good(LockRecord(Unlocked, m.reserved, NO_OWNER, m.generation)))
  {
    Six(f, t, Local(CallPc(Unlock), true), c);
  }

  /** Fail-stop is an answer: whatever is neither free nor held by a live process ends
      the call at once, without the lock and without a write, unless only the owner's
      identity is in doubt; then, and while a live owner holds it, the call goes round
      again as long as the wait is not given up. */
  lemma LockIsAnswered(f: File, t: Thread, c: Choice)
    requires f.File?
    ensures var v := InspectFile(f, c.status);
            var e := Alone(f, t, Local(CallPc(Lock), false), c.(giveUp := false), 3);
            && (v.health == Abort || (v.health == Unknown && v.cause != IdentityUnknown) ==>
                  e == Effect(f, Local(Idle, false), false))
            && (v.health == Unknown && v.cause == IdentityUnknown ==> e == Effect(f, Local(CallPc(Lock), false), false))
            && (v.health == Ok && v.state == Locked ==> e == Effect(f, Local(CallPc(Lock), false), false))
    ensures var v := InspectFile(f, c.status);
            v.health != Ok ==>
              Act(f, t, Local(LockEntered, false), c.(giveUp := true)) == Effect(f, Local(Leaving(Out), false), false)
  {
    Six(f, t, Local(CallPc(Lock), false), c.(giveUp := false));
  }

  /** A release that is not the caller's to make, or of a lock that does not inspect as
      OK, ends without a write. */
  lemma UnlockIsRefused(f: File, t: Thread, l: Local, c: Choice)
    requires l.pc == CallPc(Unlock) && Willing(c)
    ensures var v := InspectFile(f, c.status);
            !(v.health == Ok && v.state == Locked && v.owner == t.ident) ==>
              Alone(f, t, l, c, 3) == Effect(f, l.(pc := Idle), false)
  {
    Six(f, t, l, c);
  }

  /** An inspection ends without a write. */
  lemma InspectionEnds(f: File, t: Thread, h: bool, c: Choice)
    requires Willing(c)
    ensures Alone(f, t, Local(CallPc(InspectOp), h), c, 3) == Effect(f, Local(Idle, h), false)
  {
    Six(f, t, Local(CallPc(InspectOp), h), c);
  }

  /** A create that found the file looks at it as often as it likes, without a write,
      before the clean start. */
  lemma ProbesGoOn(f: File, t: Thread, h: bool, c: Choice)
    requires Willing(c) && f.File?
    ensures Act(f, t, Local(CallPc(Create), h), c) == Effect(f, Local(CreateFound, h), false)
    ensures c.probe ==> Alone(f, t, Local(CreateFound, h), c, 3) == Effect(f, Local(CreateFound, h), false)
    ensures !c.probe ==> Act(f, t, Local(CreateFound, h), c) == Effect(f, Local(CreateCheck, h), false)
  {
    Six(f, t, Local(CreateFound, h), c);
  }

  /** A master's clean start clears the asset counters iff the lock is free. */
  lemma CleanStartIff(f: File, t: Thread, c: Choice)
    ensures var v := InspectFile(f, c.status);
            var e := Act(f, t, Local(CreateCheck, false), c);
            && e.file == f
            && (v.health == Ok && v.state == Unlocked <==> e.local.pc == CreateClear(1))
            && (!(v.health == Ok && v.state == Unlocked) <==> e.local.pc == Leaving(Out))
  {
  }

  /** A file found missing is created and grown by the same thread. */
  lemma CreationStarts(t: Thread, c: Choice)
    requires Willing(c)
    ensures Alone(NoFile, t, Local(CallPc(Create), false), c, 3)
            == Effect(File(Some(0), BadMagic, seq(MAX_SEM, i => 0)), Local(CreateInit(0), false), false)
  {
    Six(NoFile, t, Local(CallPc(Create), false), c);
  }

  /** asset_up posts one unit in four steps. */
  lemma UpPosts(f: File, t: Thread, i: nat, h: bool, c: Choice)
    requires f.File? && 1 <= i < |f.assets| && f.counter.Some? && Willing(c)
    ensures Alone(f, t, Local(CallPc(AssetUp(i)), h), c, 4)
            == Effect(f.(assets := f.assets[i := f.assets[i] + 1]), Local(Idle, h), false)
  {
    hide InspectFile, Grow, EmptyFile, PutRecord, AcquiringRecord;
    Six(f, t, Local(CallPc(AssetUp(i)), h), c);
  }

  /** asset_down returns in four steps with one unit taken if there is one, and else
      goes round again with nothing taken. */
  lemma DownTakes(f: File, t: Thread, i: nat, h: bool, c: Choice)
    requires f.File? && 1 <= i < |f.assets| && f.counter.Some? && Willing(c)
    ensures Alone(f, t, Local(CallPc(AssetDown(i)), h), c, 4)
            == if f.assets[i] > 0 then Effect(f.(assets := f.assets[i := f.assets[i] - 1]), Local(Idle, h), false)
               else Effect(f, Local(AssetCalled(i, false), h), false)
  {
    hide InspectFile, Grow, EmptyFile, PutRecord, AcquiringRecord;
    Six(f, t, Local(CallPc(AssetDown(i)), h), c);
  }

  /** In any state, the step that lets an asset_down return is the one that takes a unit. */
  lemma DownReturnsIffTaken(f: File, t: Thread, i: nat, v: int, h: bool, c: Choice)
    requires f.File? && 1 <= i < |f.assets| && f.assets[i] == v && f.counter.Some?
    ensures var e := Act(f, t, Local(AssetRead(i, false, v), h), c);
            && (e.local.pc == Leaving(Out) <==> e.file == f.(assets := f.assets[i := v - 1]))
            && (e.local.pc == Leaving(DownLoop(i)) <==> e.file == f)
  {
    assert f.assets[i := v - 1][i] == v - 1;
  }

  /** Nothing is ruled out: a process may die at any moment, taking its threads and the
      OS lock with it and leaving the file; an idle thread may make any call that is
      its to make; a thread in a call may go on unless it needs the OS lock and somebody
      else holds it. */
  lemma NothingIsRuledOut(s: State, id: Identity, t: Thread, op: Op, c: Choice)
    ensures id in s.live ==>
              && Enabled(s, Crash(id))
              && var d := Next(s, Crash(id));
                 && id !in d.live && d.file == s.file && d.used == s.used
                 && (forall u :: u in d.threads <==> u in s.threads && u.ident != id)
                 && (forall u :: u in d.threads ==> d.threads[u] == s.threads[u])
                 && d.holder == (if s.holder.Some? && s.holder.value.ident == id then None else s.holder)
    ensures t in s.threads && s.threads[t].pc == Idle && (op.Unlock? ==> s.threads[t].holds)
            && (op.AssetUp? ==> 1 <= op.up < 1024) && (op.AssetDown? ==> 1 <= op.down < 1024) ==>
              Enabled(s, Call(t, op)) && Next(s, Call(t, op)).threads[t].pc == CallPc(op)
    ensures t in s.threads && s.threads[t].pc != Idle && c.status == Unsure && s.holder.None? ==>
              Enabled(s, Run(t, c)) && Next(s, Run(t, c)).file == Act(s.file, t, s.threads[t], c).file
  {
  }
}
