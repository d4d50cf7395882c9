/** The master lock as a step machine: any number of processes, each with any
    number of threads, run `master_lock`, `master_unlock`, `create`,
    `inspect_master_lock`, `asset_up` and `asset_down` on one `flock.bin`. One
    step is one read or one write of the file, or one operation on the OS file
    lock, and a process may die between any two of them. */
module MasterLockProtocol {
  import opened Common
  import opened LockTypes

  /** A thread has its own file handle, hence its own claim on the OS lock; its
      identity is that of its process. */
  datatype Thread = Thread(ident: Identity, handle: nat)

  /** Counter 0, the owner record and the asset counters of `flock.bin`. */
  datatype File = NoFile | File(counter: Option<int>, record: RecordView, assets: seq<int>)

  /** Where a thread continues once it has released the OS lock. */
  datatype Exit = Out | LockLoop | CreateLoop | DownLoop(index: nat)

  datatype Pc =
    | Idle
    | LockCalled                     // in the loop, OS lock not held
    | LockEntered                    // OS lock held, about to inspect
    | LockReady(rec: LockRecord)     // found free; about to write ACQUIRING
    | LockRecorded(rec: LockRecord)  // ACQUIRING written
    | LockCounted(rec: LockRecord)   // counter 0 written as 0
    | LockCommitted                  // LOCKED written, OS lock still held
    | UnlockCalled
    | UnlockEntered
    | UnlockReady(rec: LockRecord)
    | UnlockRecorded(rec: LockRecord)
    | UnlockCounted(rec: LockRecord)
    | CreateCalled
    | CreateFresh                    // this thread's O_EXCL open made the file
    | CreateSized                    // and gave it its full size
    | CreateInit(next: nat)          // OS lock held, counter `next` to be written
    | CreateFound                    // the file existed
    | CreateProbe                    // waiting for an initialiser, OS lock held
    | CreateCheck                    // clean-start check, OS lock held
    | CreateClear(next: nat)         // clearing stale asset counters
    | InspectCalled
    | InspectEntered
    | AssetCalled(index: nat, up: bool)
    | AssetEntered(index: nat, up: bool)
    | AssetRead(index: nat, up: bool, value: int)
    | Leaving(exit: Exit)            // about to release the OS lock

  /** `holds`: between a returned `master_lock` and the end of its `master_unlock`. */
  datatype Local = Local(pc: Pc, holds: bool)

  /** One returned `master_lock`; `ticket` counts acquisitions without wrap-around. */
  datatype Grant = Grant(thread: Thread, generation: nat, ticket: nat)

  datatype State = State(
    file: File,
    holder: Option<Thread>,      // of the OS file lock
    threads: map<Thread, Local>, // of live processes
    live: set<Identity>,
    used: set<Identity>,         // every incarnation that ever ran
    failed: bool,                // some write has failed
    acquisitions: nat,           // ACQUIRING records written, plus the initial generation
    grants: seq<Grant>,
    creations: nat,              // successful O_EXCL creations
    posted: seq<int>)            // per asset: ups minus downs since the counter was last cleared

  datatype Op = Lock | Unlock | Create | InspectOp | AssetUp(up: nat) | AssetDown(down: nat)

  /** What the outside world decides in one step: the identity lookup's answer,
      whether a write succeeds, whether a wait is given up, which way `create` goes. */
  datatype Choice = Choice(status: Status, writeOk: bool, giveUp: bool, probe: bool)

  datatype Step =
    | Spawn(newcomer: Thread)
    | Crash(victim: Identity)
    | Call(caller: Thread, op: Op)
    | Run(runner: Thread, choice: Choice)

  predicate HasOsLock(pc: Pc) {
    pc.LockEntered? || pc.LockReady? || pc.LockRecorded? || pc.LockCounted? || pc.LockCommitted?
    || pc.UnlockEntered? || pc.UnlockReady? || pc.UnlockRecorded? || pc.UnlockCounted?
    || pc.CreateInit? || pc.CreateProbe? || pc.CreateCheck? || pc.CreateClear?
    || pc.InspectEntered? || pc.AssetEntered? || pc.AssetRead? || pc.Leaving?
  }

  /** Between a successful O_EXCL open and the write of the first record. */
  predicate IsCreating(pc: Pc) { pc.CreateFresh? || pc.CreateSized? || pc.CreateInit? }

  /** About to take the OS lock, unless the wait is given up. */
  predicate TakesOsLock(pc: Pc, c: Choice) {
    !c.giveUp
    && (pc.LockCalled? || pc.UnlockCalled? || pc.CreateSized? || pc.CreateFound? || pc.InspectCalled?
        || pc.AssetCalled?)
  }

  function InspectFile(f: File, status: Status): Inspection {
    if f.NoFile? then Inspect(None, Absent, status) else Inspect(f.counter, f.record, status)
  }

  /** The lookup is never wrong when it says Alive or Dead; it may always be unsure. */
  predicate Truthful(f: File, live: set<Identity>, status: Status) {
    f.File? && f.record.Good? ==>
      (status == Alive ==> f.record.rec.owner in live) && (status == Dead ==> f.record.rec.owner !in live)
  }

  function PutRecord(f: File, m: LockRecord): File {
    if f.NoFile? then f else f.(record := Good(m))
  }

  /** Writing an int at index i; writing past the end of a short file extends it with zeros. */
  function PutCounter(f: File, i: nat, v: int): File {
    if f.NoFile? then f
    else if i == 0 then f.(counter := Some(v))
    else f.(counter := if f.counter.None? then Some(0) else f.counter,
            assets := if i < |f.assets| then f.assets[i := v] else f.assets)
  }

  /** ftruncate to the full v1 size: zero bytes where there were none. */
  function Grow(f: File): File {
    if f.NoFile? then f
    else f.(counter := if f.counter.None? then Some(0) else f.counter,
            record := if f.record.Absent? then BadMagic else f.record)
  }

  function EmptyFile(): File { File(None, Absent, seq(MAX_SEM, i => 0)) }

  datatype Effect = Effect(file: File, local: Local, failed: bool)

  function Go(f: File, l: Local, pc: Pc): Effect { Effect(f, l.(pc := pc), false) }

  function Fail(f: File, l: Local, pc: Pc): Effect { Effect(f, l.(pc := pc), true) }

  /** The next step of one thread, taken from its place in the code. */
  function Act(f: File, t: Thread, l: Local, c: Choice): Effect {
    match l.pc
    case Idle => Go(f, l, Idle)
    case LockCalled => Go(f, l, if c.giveUp then Idle else LockEntered)
    case LockEntered =>
      var i := InspectFile(f, c.status);
      if i.health != Ok then // only an unknown identity is waited for, and only in a wait scope
        Go(f, l, Leaving(if i.cause == IdentityUnknown && !c.giveUp then LockLoop else Out))
      else if i.state == Unlocked && i.counter == 1 then Go(f, l, LockReady(f.record.rec))
      else Go(f, l, Leaving(LockLoop))
    case LockReady(m) =>
      var m' := AcquiringRecord(m, t.ident);
      if c.writeOk then Go(PutRecord(f, m'), l, LockRecorded(m')) else Fail(f, l, Leaving(Out))
    case LockRecorded(m) =>
      if c.writeOk then Go(PutCounter(f, 0, 0), l, LockCounted(m)) else Fail(f, l, Leaving(Out))
    case LockCounted(m) =>
      if c.writeOk then Go(PutRecord(f, LockedRecord(m)), l, LockCommitted) else Fail(f, l, Leaving(Out))
    case LockCommitted => Effect(f, Local(Idle, true), false)
    case UnlockCalled => Go(f, l, if c.giveUp then Idle else UnlockEntered)
    case UnlockEntered =>
      var i := InspectFile(f, c.status);
      if i.health == Ok && i.state == Locked && i.owner == t.ident then Go(f, l, UnlockReady(f.record.rec))
      else Go(f, l, Leaving(Out))
    case UnlockReady(m) =>
      var m' := ReleasingRecord(m);
      if c.writeOk then Go(PutRecord(f, m'), l, UnlockRecorded(m')) else Fail(f, l, Leaving(Out))
    case UnlockRecorded(m) =>
      if c.writeOk then Go(PutCounter(f, 0, 1), l, UnlockCounted(m))
      else Effect(f, Local(Leaving(Out), false), true)
    case UnlockCounted(m) =>
      if c.writeOk then Effect(PutRecord(f, UnlockedRecord(m)), Local(Leaving(Out), false), false)
      else Effect(f, Local(Leaving(Out), false), true)
    case CreateCalled =>
      if f.File? then Go(f, l, CreateFound)
      else if c.writeOk then Go(EmptyFile(), l, CreateFresh)
      else Go(f, l, Idle)
    case CreateFresh => if c.writeOk then Go(Grow(f), l, CreateSized) else Fail(f, l, Idle)
    case CreateSized => Go(f, l, if c.giveUp then Idle else CreateInit(0))
    case CreateInit(i) =>
      if !c.writeOk then Fail(f, l, Leaving(Out))
      else if i < MAX_SEM then Go(PutCounter(f, i, if i == 0 then 1 else 0), l, CreateInit(i + 1))
      else Go(PutRecord(f, NEW_RECORD), l, Leaving(Out))
    case CreateFound => Go(f, l, if c.giveUp then Idle else if c.probe then CreateProbe else CreateCheck)
    case CreateProbe => Go(f, l, Leaving(CreateLoop))
    case CreateCheck =>
      var i := InspectFile(f, c.status);
      if i.health == Ok && i.state == Unlocked && i.counter == 1 then Go(f, l, CreateClear(1))
      else Go(f, l, Leaving(Out))
    case CreateClear(i) =>
      if i >= MAX_SEM then Go(f, l, Leaving(Out))
      else if c.writeOk then Go(PutCounter(f, i, 0), l, CreateClear(i + 1))
      else Fail(f, l, Leaving(Out))
    case InspectCalled => Go(f, l, if c.giveUp then Idle else InspectEntered)
    case InspectEntered => Go(f, l, Leaving(Out))
    case AssetCalled(i, up) => Go(f, l, if c.giveUp then Idle else AssetEntered(i, up))
    case AssetEntered(i, up) =>
      Go(f, l, AssetRead(i, up, if f.File? && i < |f.assets| then f.assets[i] else 0))
    case AssetRead(i, up, v) =>
      if up then Go(PutCounter(f, i, v + 1), l, Leaving(Out))
      else if v > 0 then Go(PutCounter(f, i, v - 1), l, Leaving(Out))
      else Go(f, l, Leaving(DownLoop(i)))
    case Leaving(exit) =>
      Go(f, l, match exit
               case Out => Idle
               case LockLoop => LockCalled
               case CreateLoop => CreateFound
               case DownLoop(i) => AssetCalled(i, false))
  }

  /** What a step means for the asset semaphores: one more, one less, or cleared. */
  function Post(counts: seq<int>, pc: Pc, c: Choice): seq<int> {
    match pc
    case AssetRead(i, up, v) =>
      if i >= |counts| then counts
      else if up then counts[i := counts[i] + 1]
      else if v > 0 then counts[i := counts[i] - 1]
      else counts
    case CreateInit(i) => if c.writeOk && 0 < i < |counts| then counts[i := 0] else counts
    case CreateClear(i) => if c.writeOk && 0 < i < |counts| then counts[i := 0] else counts
    case _ => counts
  }

  predicate Enabled(s: State, step: Step) {
    match step
    case Spawn(t) => t !in s.threads && (t.ident in s.live || t.ident !in s.used) && t.ident != NO_OWNER
    case Crash(id) => id in s.live
    case Call(t, op) =>
      && t in s.threads
      && s.threads[t].pc == Idle
      && (op.Unlock? ==> s.threads[t].holds) // unlock is called only by the thread that locked
      && (op.AssetUp? ==> 1 <= op.up < MAX_SEM)
      && (op.AssetDown? ==> 1 <= op.down < MAX_SEM)
    case Run(t, c) =>
      && t in s.threads
      && s.threads[t].pc != Idle
      && (TakesOsLock(s.threads[t].pc, c) ==> s.holder.None?)
      && Truthful(s.file, s.live, c.status)
  }

  function CallPc(op: Op): Pc {
    match op
    case Lock => LockCalled
    case Unlock => UnlockCalled
    case Create => CreateCalled
    case InspectOp => InspectCalled
    case AssetUp(i) => AssetCalled(i, true)
    case AssetDown(i) => AssetCalled(i, false)
  }

  function Next(s: State, step: Step): State
    requires Enabled(s, step)
  {
    match step
    case Spawn(t) =>
      s.(threads := s.threads[t := Local(Idle, false)], live := s.live + {t.ident}, used := s.used + {t.ident})
    case Crash(id) =>
      // the OS drops the file lock of a dead process; the file keeps the evidence
      s.(threads := map t | t in s.threads && t.ident != id :: s.threads[t],
         live := s.live - {id},
         holder := if s.holder.Some? && s.holder.value.ident == id then None else s.holder)
    case Call(t, op) => s.(threads := s.threads[t := s.threads[t].(pc := CallPc(op))])
    case Run(t, c) =>
      var l := s.threads[t];
      var e := Act(s.file, t, l, c);
      var record := if s.file.File? && s.file.record.Good? then s.file.record.rec.generation else 0;
      s.(file := e.file,
         threads := s.threads[t := e.local],
         failed := s.failed || e.failed,
         holder := if TakesOsLock(l.pc, c) then Some(t)
                   else if l.pc.Leaving? || l.pc.LockCommitted? then None
                   else s.holder,
         acquisitions := s.acquisitions + (if l.pc.LockReady? && c.writeOk then 1 else 0),
         grants := if l.pc.LockCommitted? then s.grants + [Grant(t, record, s.acquisitions)] else s.grants,
         creations := s.creations + (if l.pc.CreateCalled? && s.file.NoFile? && c.writeOk then 1 else 0),
         posted := if s.file.File? then Post(s.posted, l.pc, c) else s.posted)
  }

  /** A session starts on a missing file, or on a v1 file nobody is touching:
      free, or locked or left in transition by a process that is gone. */
  predicate Init(s: State) {
    && s.threads == map[] && s.live == {} && s.holder == None && !s.failed
    && s.grants == [] && s.creations == 0
    && |s.posted| == MAX_SEM && (forall i :: 0 <= i < MAX_SEM ==> s.posted[i] >= 0)
    && (s.file.NoFile? ==> forall i :: 0 <= i < MAX_SEM ==> s.posted[i] == 0)
    && (s.file.NoFile? || s.file.record.Good?)
    && (s.file.NoFile? ==> s.acquisitions == 0)
    && (s.file.File? ==>
          var m := s.file.record.rec;
          && s.file.assets == s.posted
          && m.generation == s.acquisitions % TWO64
          && (m.state == Unlocked ==> s.file.counter == Some(1) && m.owner == NO_OWNER)
          && (m.state == Locked ==> s.file.counter == Some(0))
          && (m.state != Unlocked ==> s.file.counter.Some? && m.owner in s.used))
  }

  /** ss[0], ss[1], … is a run in which steps[i] leads from ss[i] to ss[i+1]. */
  predicate IsRun(ss: seq<State>, steps: seq<Step>) {
    && |ss| == |steps| + 1
    && forall i :: 0 <= i < |steps| ==> Enabled(ss[i], steps[i]) && ss[i + 1] == Next(ss[i], steps[i])
  }
}
