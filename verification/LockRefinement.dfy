/** The bytes and the step machine agree: what the calls of one process write into
    `flock.bin` is what the protocol's steps do to the abstract file. */
module LockRefinement {
  import opened Common
  import opened LockTypes
  import opened Bytes
  import opened LockFile
  import opened FlockClient
  import P = MasterLockProtocol

  /** The abstract file behind a full-size `flock.bin`. */
  function Abstract(f: seq<Byte>): P.File
    requires |f| >= FLOCK_SIZE
  {
    P.File(CounterOf(f), RecordOf(f),
           seq(MAX_SEM, (i: nat) requires i < MAX_SEM => if i == 0 then 0 else CounterAt(f, i)))
  }

  function AbstractApply(f: P.File, w: Write): P.File {
    match w
    case RecordWrite(m) => P.PutRecord(f, m)
    case CounterWrite(i, v) => P.PutCounter(f, i, v)
  }

  /** One positioned write is one abstract write. */
  lemma WriteRefines(f: seq<Byte>, w: Write)
    requires |f| >= FLOCK_SIZE && Writable(w)
    ensures |Apply(f, w)| == |f|
    ensures Abstract(Apply(f, w)) == AbstractApply(Abstract(f), w)
  {
    hide FromBytes, ParseRecord, Encode, ToBytes, WriteAt;
    match w {
      case RecordWrite(m) => RecordWritten(f, m);
      case CounterWrite(k, v) => CounterWritten(f, k, v);
    }
    assert Abstract(Apply(f, w)).assets == AbstractApply(Abstract(f), w).assets;
  }

  function AbstractAll(f: P.File, ws: seq<Write>): P.File {
    if ws == [] then f else AbstractApply(AbstractAll(f, ws[..|ws| - 1]), ws[|ws| - 1])
  }

  lemma {:induction false} WritesRefine(f: seq<Byte>, ws: seq<Write>)
    requires |f| >= FLOCK_SIZE && forall w :: w in ws ==> Writable(w)
    ensures |ApplyAll(f, ws)| == |f|
    ensures Abstract(ApplyAll(f, ws)) == AbstractAll(Abstract(f), ws)
  {
    hide Apply, Abstract, AbstractApply;
    if ws != [] {
      WritesRefine(f, ws[..|ws| - 1]);
      WriteRefines(ApplyAll(f, ws[..|ws| - 1]), ws[|ws| - 1]);
    }
  }

  lemma ThreeWrites(f: P.File, a: Write, b: Write, c: Write)
    ensures AbstractAll(f, [a, b, c]) == AbstractApply(AbstractApply(AbstractApply(f, a), b), c)
  {
    assert [a, b, c][..2] == [a, b] && [a, b][..1] == [a] && [a][..0] == [];
    assert AbstractAll(f, [a]) == AbstractApply(f, a);
    assert AbstractAll(f, [a, b]) == AbstractApply(AbstractApply(f, a), b);
  }

  const WRITE_OK := P.Choice(Unsure, true, false, false)
  const WRITE_FAILS := P.Choice(Unsure, false, false, false)

  /** The four calls that write the record or several counters, once their inspection
      or their O_EXCL open has let them. */
  datatype Writing = Locking(free: LockRecord, id: Identity) | Unlocking(held: LockRecord) | Initialising | Clearing

  predicate WritingInRange(w: Writing) {
    match w
    case Locking(m, id) => InRange(m) && IdentityInRange(id)
    case Unlocking(m) => InRange(m)
    case _ => true
  }

  /** What the call of one process writes, in order. */
  function WritesOf(w: Writing): seq<Write> {
    match w
    case Locking(m, id) => AcquireWrites(m, id)
    case Unlocking(m) => ReleaseWrites(m)
    case Initialising => InitWrites()
    case Clearing => ClearWrites()
  }

  /** Where the step machine has the thread after n of these writes. */
  function Place(w: Writing, n: nat): P.Local {
    match w
    case Locking(m, id) =>
      var a := AcquiringRecord(m, id);
      P.Local(if n == 0 then P.LockReady(m) else if n == 1 then P.LockRecorded(a)
              else if n == 2 then P.LockCounted(a) else P.LockCommitted, false)
    case Unlocking(m) =>
      var r := ReleasingRecord(m);
      if n == 0 then P.Local(P.UnlockReady(m), true) else if n == 1 then P.Local(P.UnlockRecorded(r), true)
      else if n == 2 then P.Local(P.UnlockCounted(r), true) else P.Local(P.Leaving(P.Out), false)
    case Initialising => P.Local(if n <= MAX_SEM then P.CreateInit(n) else P.Leaving(P.Out), false)
    case Clearing => P.Local(P.CreateClear(n + 1), false)
  }

  lemma WritesAreWritable(w: Writing)
    requires WritingInRange(w)
    ensures forall x :: x in WritesOf(w) ==> Writable(x)
  {
    Powers();
  }

  /** The machine's next step makes exactly the next write, or fails without one. */
  lemma StepWrites(f: P.File, t: P.Thread, w: Writing, n: nat)
    requires n < |WritesOf(w)| && (w.Locking? ==> w.id == t.ident)
    ensures P.Act(f, t, Place(w, n), WRITE_OK) == P.Effect(AbstractApply(f, WritesOf(w)[n]), Place(w, n + 1), false)
    ensures P.Act(f, t, Place(w, n), WRITE_FAILS).file == f && P.Act(f, t, Place(w, n), WRITE_FAILS).failed
  {
  }

  /** n steps of one thread, all writes succeeding. */
  function StepsOf(f: P.File, t: P.Thread, l: P.Local, n: nat): P.Effect {
    if n == 0 then P.Effect(f, l, false)
    else
      var e := StepsOf(f, t, l, n - 1);
      P.Act(e.file, t, e.local, WRITE_OK)
  }

  /** Bytes and machine agree after every write of every call: the bytes of the first
      n writes are the file after n steps. A crash there leaves these bytes, and so
      does a failure of the next write. */
  lemma {:induction false} CallRefines(f: seq<Byte>, t: P.Thread, w: Writing, n: nat)
    requires |f| >= FLOCK_SIZE && WritingInRange(w) && n <= |WritesOf(w)| && (w.Locking? ==> w.id == t.ident)
    ensures forall x :: x in WritesOf(w)[..n] ==> Writable(x)
    ensures var g := ApplyAll(f, WritesOf(w)[..n]);
            && |g| == |f|
            && StepsOf(Abstract(f), t, Place(w, 0), n) == P.Effect(Abstract(g), Place(w, n), false)
            && (n < |WritesOf(w)| ==>
                  var e := P.Act(Abstract(g), t, Place(w, n), WRITE_FAILS);
                  e.file == Abstract(g) && e.failed)
  {
    hide Apply, ApplyAll, Abstract, AbstractApply, P.Act, WritesOf, Place, Writable;
    WritesAreWritable(w);
    var ws := WritesOf(w);
    WritesRefine(f, ws[..n]);
    var g := Abstract(ApplyAll(f, ws[..n]));
    if n > 0 {
      CallRefines(f, t, w, n - 1);
      assert ws[..n][..n - 1] == ws[..n - 1] && ws[..n][n - 1] == ws[n - 1];
      WritesRefine(f, ws[..n - 1]);
      StepWrites(AbstractAll(Abstract(f), ws[..n - 1]), t, w, n - 1);
    }
    if n < |ws| {
      StepWrites(g, t, w, n);
    }
  }

  /** Locking and unlocking returns the file to what it was, one generation later. */
  lemma LockUnlockRoundTrip(f: seq<Byte>, m: LockRecord, id: Identity)
    requires |f| >= FLOCK_SIZE && InRange(m) && IdentityInRange(id)
    requires RecordOf(f) == Good(m) && m.state == Unlocked && m.owner == NO_OWNER && CounterOf(f) == Some(1)
    ensures var a := LockedRecord(AcquiringRecord(m, id));
            && InRange(a)
            && (forall w :: w in AcquireWrites(m, id) ==> Writable(w))
            && (forall w :: w in ReleaseWrites(a) ==> Writable(w))
            && var locked := ApplyAll(f, AcquireWrites(m, id));
               var free := ApplyAll(locked, ReleaseWrites(a));
               && |locked| == |f| && |free| == |f|
               && InspectBytes(locked, Alive).health == Ok && InspectBytes(locked, Dead).health == Abort
               && RecordOf(locked) == Good(a)
               && Abstract(free) == Abstract(f).(record := Good(m.(generation := (m.generation + 1) % TWO64)))
  {
    hide Apply, ApplyAll, AbstractAll, FromBytes, ParseRecord, CounterAt;
    Powers();
    var a := LockedRecord(AcquiringRecord(m, id));
    var ws, vs := AcquireWrites(m, id), ReleaseWrites(a);
    WritesRefine(f, ws);
    ThreeWrites(Abstract(f), ws[0], ws[1], ws[2]);
    var locked := ApplyAll(f, ws);
    WritesRefine(locked, vs);
    ThreeWrites(Abstract(locked), vs[0], vs[1], vs[2]);
  }

  /** What a finished initialisation leaves: free, generation 0, every asset counter 0. */
  lemma {:induction false} InitialCounters(f: P.File, k: nat)
    requires k <= MAX_SEM && f.File? && |f.assets| == MAX_SEM && f.counter.Some?
    ensures var g := AbstractAll(f, InitWrites()[..k]);
            && g.File? && g.record == f.record && |g.assets| == MAX_SEM && g.counter.Some?
            && (k > 0 ==> g.counter == Some(1))
            && g.assets[0] == f.assets[0]
            && (forall i :: 1 <= i < k ==> g.assets[i] == 0)
  {
    if k > 0 {
      InitialCounters(f, k - 1);
      var ws := InitWrites()[..k];
      assert ws[..k - 1] == InitWrites()[..k - 1];
      assert ws[k - 1] == CounterWrite(k - 1, if k == 1 then 1 else 0);
    }
  }

  lemma InitialFileIsFree(f: seq<Byte>)
    requires |f| >= FLOCK_SIZE
    ensures forall w :: w in InitWrites() ==> Writable(w)
    ensures var g := ApplyAll(f, InitWrites());
            |g| == |f| && Abstract(g) == P.File(Some(1), Good(NEW_RECORD), seq(MAX_SEM, i => 0))
  {
    hide Apply, ApplyAll;
    Powers();
    var ws := InitWrites();
    WritesRefine(f, ws);
    InitialCounters(Abstract(f), MAX_SEM);
    assert ws[..|ws| - 1] == ws[..MAX_SEM];
    var g := AbstractAll(Abstract(f), ws);
    assert g.assets == seq(MAX_SEM, i => 0);
  }

  /** What a finished clean start leaves: no unit in any asset counter, the rest as it was. */
  lemma {:induction false} ClearedCounters(f: P.File, k: nat)
    requires k < MAX_SEM && f.File? && |f.assets| == MAX_SEM && f.counter.Some?
    ensures k <= |ClearWrites()|
    ensures var g := AbstractAll(f, ClearWrites()[..k]);
            && g.File? && g.record == f.record && g.counter == f.counter && |g.assets| == MAX_SEM
            && (forall i :: 1 <= i <= k ==> g.assets[i] == 0)
            && (forall i :: 0 <= i < MAX_SEM && !(1 <= i <= k) ==> g.assets[i] == f.assets[i])
  {
    if k > 0 {
      ClearedCounters(f, k - 1);
      var ws := ClearWrites()[..k];
      assert ws[..k - 1] == ClearWrites()[..k - 1];
      assert ws[k - 1] == CounterWrite(k, 0);
    }
  }

  lemma CleanStartEmpties(f: seq<Byte>)
    requires |f| >= FLOCK_SIZE
    ensures forall w :: w in ClearWrites() ==> Writable(w)
    ensures var g := ApplyAll(f, ClearWrites());
            |g| == |f| && Abstract(g) == Abstract(f).(assets := seq(MAX_SEM, i => 0))
  {
    hide Apply, ApplyAll, RecordOf, CounterAt;
    Powers();
    var ws := ClearWrites();
    WritesRefine(f, ws);
    ClearedCounters(Abstract(f), MAX_SEM - 1);
    assert ws[..MAX_SEM - 1] == ws;
    assert AbstractAll(Abstract(f), ws).assets == seq(MAX_SEM, i => 0);
  }
}
