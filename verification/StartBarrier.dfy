/** The start barrier, over any number of sessions: `create` hands the clock to the
    assets, and it comes back when every registered asset has reported its first PDU
    write. A report sets the asset's flag and then counts the flags one slot at a time;
    `create` stores the mode and the number of assets one after the other. Reports and
    `create` interleave at single loads and stores. A `create` that cannot take its init
    lock gives up without handing the clock over, and only a reset lowers the flags. */
module StartBarrier {
  import opened Common

  datatype Mode = MasterMode | AssetMode

  datatype Phase =
    | Closed                       // no simulation is running
    | Opening                      // create is between its two stores
    | Open                         // create has returned; the simulation runs

  datatype Pc =
    | Out
    | Called                       // about to load the mode
    | Flagging                     // about to set its flag
    | Counting(next: nat, count: nat)

  /** What has happened since the clock was handed over. */
  datatype Log = Log(
    stale: set<nat>,               // flags that were up already
    quiet: bool,                   // no report was past its look at the mode
    reported: set<nat>,            // assets that have set their flag
    hurried: bool,                 // a count ended before the number of assets was stored
    returned: set<nat>,            // assets back from a report
    ticks: nat)                    // world time steps taken

  datatype State = State(
    mode: Mode,
    assetNum: nat,
    hasPdu: bool,                  // some create has finished: pdu_ is set
    phase: Phase,
    barred: bool,                  // this session's create got its init lock
    registered: set<nat>,
    flags: seq<bool>,
    pcs: seq<Pc>,
    log: Log)

  datatype Step =
    | Enrol(members: set<nat>)     // assets come and go between sessions
    | Begin(locked: bool)          // create, up to its first store
    | Finish                       // its second store
    | Report(asset: nat)           // notify_write_pdu_done is called
    | Runs(slot: nat)
    | Tick                         // execute moves the world time
    | Stop                         // the simulation is no longer Running
    | ResetPdu                     // at the end of a reset, while nobody reports

  predicate Shape(s: State) {
    && |s.flags| == |s.pcs| == SLOTS
    && forall a :: a in s.registered ==> a < SLOTS
  }

  function NoFlags(): seq<bool> { seq(SLOTS, i => false) }

  predicate AllOut(s: State) { forall a :: 0 <= a < |s.pcs| ==> s.pcs[a] == Out }

  predicate Init(s: State) {
    && Shape(s) && s.mode == MasterMode && s.assetNum == 0 && !s.hasPdu && s.phase == Closed && !s.barred
    && s.flags == NoFlags() && AllOut(s)
  }

  predicate Enabled(s: State, step: Step) {
    && Shape(s)
    && match step
       case Enrol(members) =>
         && s.phase == Closed
         && (forall a :: a in members ==> a < SLOTS)
         && (forall a :: 0 <= a < SLOTS && s.pcs[a] != Out ==> a in members) // nobody leaves in mid-report
       case Begin(locked) => s.phase == Closed
       case Finish => s.phase == Opening
       case Report(a) => a in s.registered && s.pcs[a] == Out
       case Runs(a) => a < SLOTS && s.pcs[a] != Out
       case Tick => s.phase == Open && s.mode == MasterMode // Running, and is_simulation_mode()
       case Stop => s.phase == Open
       case ResetPdu => s.phase == Closed && s.hasPdu && AllOut(s)
  }

  /** The session's history starts here. */
  function Fresh(s: State): State
    requires Shape(s)
  {
    var quiet := forall a :: 0 <= a < SLOTS ==> s.pcs[a] == Out || s.pcs[a] == Called;
    s.(log := Log(UpSet(s.flags, SLOTS), quiet, {}, false, {}, 0))
  }

  function HandOver(s: State): State
    requires Shape(s)
  {
    Fresh(s).(mode := AssetMode)
  }

  /** The clock is with this session's assets, or was. */
  predicate Handed(s: State) { s.barred && (s.phase == Open || (s.phase == Opening && !s.hasPdu)) }

  function Returned(log: Log, a: nat): Log { log.(returned := log.returned + {a}) }

  /** The next load or store of one report. */
  function RunStep(s: State, a: nat): State
    requires Shape(s) && a < SLOTS
  {
    match s.pcs[a]
    case Out => s
    case Called =>
      if s.mode == MasterMode then s.(pcs := s.pcs[a := Out], log := Returned(s.log, a))
      else s.(pcs := s.pcs[a := Flagging])
    case Flagging =>
      s.(flags := s.flags[a := true], pcs := s.pcs[a := Counting(0, 0)],
         log := s.log.(reported := s.log.reported + {a}))
    case Counting(i, n) =>
      if i < SLOTS then s.(pcs := s.pcs[a := Counting(i + 1, if s.flags[i] then n + 1 else n)])
      else
        var log := if a in s.log.reported then Returned(s.log, a) else s.log;
        if n < s.assetNum then s.(pcs := s.pcs[a := Out], log := log)
        else s.(pcs := s.pcs[a := Out], mode := MasterMode, log := log.(hurried := log.hurried || s.phase == Opening))
  }

  function Next(s: State, step: Step): State
    requires Enabled(s, step)
  {
    match step
    case Enrol(members) => s.(registered := members)
    case Begin(locked) =>
      if !locked then Fresh(s).(phase := Open, barred := false)
      else if s.hasPdu then s.(phase := Opening, barred := true, assetNum := |s.registered|)
      else HandOver(s).(phase := Opening, barred := true)
    case Finish =>
      if s.hasPdu then HandOver(s).(phase := Open)
      else s.(phase := Open, hasPdu := true, assetNum := |s.registered|)
    case Report(a) => s.(pcs := s.pcs[a := Called])
    case Runs(a) => RunStep(s, a)
    case Tick => s.(log := s.log.(ticks := s.log.ticks + 1))
    case Stop => s.(phase := Closed)
    case ResetPdu => s.(mode := AssetMode, flags := NoFlags())
  }

  predicate IsRun(ss: seq<State>, steps: seq<Step>) {
    && |ss| == |steps| + 1
    && forall i :: 0 <= i < |steps| ==> Enabled(ss[i], steps[i]) && ss[i + 1] == Next(ss[i], steps[i])
  }

  // ----- counting flags -----

  function Up(flags: seq<bool>, k: nat): nat
    requires k <= |flags|
  {
    if k == 0 then 0 else Up(flags, k - 1) + if flags[k - 1] then 1 else 0
  }

  function UpSet(flags: seq<bool>, k: nat): set<nat>
    requires k <= |flags|
  {
    set i: nat | i < k && flags[i]
  }

  lemma {:induction false} UpIsCardinality(flags: seq<bool>, k: nat)
    requires k <= |flags|
    ensures |UpSet(flags, k)| == Up(flags, k)
  {
    if k > 0 {
      UpIsCardinality(flags, k - 1);
      if flags[k - 1] {
        assert UpSet(flags, k) == UpSet(flags, k - 1) + {k - 1};
      } else {
        assert UpSet(flags, k) == UpSet(flags, k - 1);
      }
    }
  }

  lemma {:induction false} RaisingRaises(flags: seq<bool>, a: nat, k: nat)
    requires a < |flags| && k <= |flags|
    ensures Up(flags, k) <= Up(flags[a := true], k)
  {
    if k > 0 {
      RaisingRaises(flags, a, k - 1);
    }
  }

  lemma {:induction false} SubsetCardinality(a: set<nat>, b: set<nat>)
    requires a <= b
    ensures |a| <= |b| && (|a| == |b| ==> a == b)
  {
    assert b == a + (b - a);
  }

  predicate AllUp(s: State)
    requires Shape(s)
  {
    forall a :: a in s.registered ==> s.flags[a]
  }

  /** All flags up count for at least all assets; with flags of registered assets only,
      a count of that size means all are up. */
  lemma FullCount(s: State)
    requires Shape(s)
    ensures AllUp(s) ==> Up(s.flags, SLOTS) >= |s.registered|
    ensures UpSet(s.flags, SLOTS) <= s.registered && Up(s.flags, SLOTS) >= |s.registered| ==> AllUp(s)
  {
    var up := UpSet(s.flags, SLOTS);
    UpIsCardinality(s.flags, SLOTS);
    if AllUp(s) {
      assert s.registered <= up;
      SubsetCardinality(s.registered, up);
    }
    if up <= s.registered {
      SubsetCardinality(up, s.registered);
    }
  }

  // ----- the invariant -----

  predicate Local(s: State, a: nat)
    requires Shape(s) && a < SLOTS
  {
    match s.pcs[a]
    case Out => true
    case Called => a in s.registered
    case Flagging => a in s.registered && (s.hasPdu || Handed(s))
    case Counting(i, n) =>
      && a in s.registered && (s.hasPdu || Handed(s))
      && s.flags[a] && i <= SLOTS && n <= Up(s.flags, i)
      && (Handed(s) && s.log.quiet ==> a in s.log.reported)
  }

  /** Before the first complete `create` nothing has moved, except within it. */
  predicate Untouched(s: State)
    requires Shape(s)
  {
    !s.hasPdu ==>
      && s.assetNum == 0
      && (s.barred ==> s.phase != Open)
      && (if s.phase == Opening then s.barred && s.log.stale == {} && s.log.quiet && s.log.ticks == 0
          else s.mode == MasterMode && s.flags == NoFlags())
  }

  /** In a later session the number of assets is stored before the mode. */
  predicate Numbered(s: State) {
    s.hasPdu && s.phase == Opening ==> s.barred && s.assetNum == |s.registered|
  }

  /** What has happened since the clock was handed over. */
  predicate Session(s: State)
    requires Shape(s)
  {
    Handed(s) ==>
      && s.assetNum == (if s.phase == Open then |s.registered| else 0)
      && s.log.reported <= s.registered
      && UpSet(s.flags, SLOTS) == s.log.stale + s.log.reported
      && (s.log.quiet && s.mode == MasterMode ==> s.log.reported != {})
      && (s.log.stale == {} && s.mode == MasterMode && !s.log.hurried ==> s.registered <= s.log.reported)
      && (s.phase == Opening && s.mode == MasterMode ==> s.log.hurried)
      && (s.log.hurried ==> s.log.quiet && s.log.stale == {})
      && (s.registered == {} ==> s.log.quiet)
      && (forall a :: a in s.log.returned ==> a in s.log.reported || s.mode == MasterMode)
  }

  predicate Safe(s: State) {
    && Shape(s)
    && (forall a :: 0 <= a < SLOTS ==> Local(s, a))
    && Untouched(s) && Numbered(s) && Session(s)
    && (s.phase == Open && s.log.ticks > 0 ==> s.mode == MasterMode)
  }

  /** A report whose count so far misses no raised flag. */
  predicate CountsAll(s: State, a: nat)
    requires Shape(s)
  {
    a < SLOTS && s.pcs[a].Counting? && s.pcs[a].next <= SLOTS && s.pcs[a].count == Up(s.flags, s.pcs[a].next)
  }

  /** Somebody will notice: while all flags are up, somebody has reported and the mode
      is still Asset, a complete count is under way. */
  ghost predicate Awake(s: State)
    requires Shape(s)
  {
    Handed(s) && s.mode == AssetMode && s.log.reported != {} && AllUp(s) ==> exists a: nat :: CountsAll(s, a)
  }

  lemma InitSafe(s: State)
    requires Init(s)
    ensures Safe(s) && Awake(s)
  {
  }

  /** A report gets past its look at the mode only in a session, or after one. */
  lemma PastTheLook(s: State, a: nat)
    requires Safe(s) && a < SLOTS && s.pcs[a] != Out
    ensures a in s.registered && (s.pcs[a] != Called ==> s.hasPdu || Handed(s))
  {
    assert Local(s, a);
  }

  lemma AssetModeMeans(s: State)
    requires Safe(s)
    ensures s.mode == AssetMode ==> s.hasPdu || Handed(s)
  {
  }

  lemma RunKeepsOwn(s: State, a: nat)
    requires Safe(s) && Enabled(s, Runs(a))
    ensures Shape(RunStep(s, a)) && Local(RunStep(s, a), a)
  {
    assert Local(s, a);
    AssetModeMeans(s);
    hide Safe, UpSet;
  }

  lemma RunKeepsOther(s: State, a: nat, b: nat)
    requires Safe(s) && Enabled(s, Runs(a)) && b < SLOTS && b != a
    ensures Shape(RunStep(s, a)) && Local(RunStep(s, a), b)
  {
    assert Local(s, b);
    if s.pcs[a].Flagging? && s.pcs[b].Counting? {
      RaisingRaises(s.flags, a, s.pcs[b].next);
    }
    hide Safe, Up, UpSet;
  }

  lemma LocalKept(s: State, step: Step, b: nat)
    requires Safe(s) && Enabled(s, step) && b < SLOTS
    ensures Shape(Next(s, step)) && Local(Next(s, step), b)
  {
    assert Local(s, b);
    if step.Runs? {
      if step.slot == b {
        RunKeepsOwn(s, b);
      } else {
        RunKeepsOther(s, step.slot, b);
      }
    }
    hide Up, UpSet, Session;
  }

  lemma RaisedSet(flags: seq<bool>, a: nat)
    requires |flags| == SLOTS && a < SLOTS
    ensures UpSet(flags[a := true], SLOTS) == UpSet(flags, SLOTS) + {a}
    ensures UpSet(NoFlags(), SLOTS) == {}
  {
  }

  /** A report that ends its count switches the mode in a session only if the number
      of assets is not stored yet, or every flag it counted is there. */
  lemma CountEnds(s: State, a: nat)
    requires Safe(s) && Enabled(s, Runs(a)) && s.pcs[a].Counting? && s.pcs[a].next == SLOTS
    ensures Shape(RunStep(s, a)) && Session(RunStep(s, a))
  {
    assert Local(s, a);
    FullCount(s);
    hide Up, Local;
  }

  lemma RunKeepsSession(s: State, a: nat)
    requires Safe(s) && Enabled(s, Runs(a))
    ensures Shape(RunStep(s, a)) && Session(RunStep(s, a))
  {
    PastTheLook(s, a);
    RaisedSet(s.flags, a);
    if s.pcs[a].Counting? {
      assert Local(s, a);
      if s.pcs[a].next == SLOTS {
        CountEnds(s, a);
      }
    }
    hide Up, Local, UpSet;
  }

  lemma SessionKept(s: State, step: Step)
    requires Safe(s) && Enabled(s, step)
    ensures Shape(Next(s, step)) && Session(Next(s, step))
  {
    if step.Runs? {
      RunKeepsSession(s, step.slot);
    } else {
      NobodyReports(s);
      hide Up, Local, UpSet;
    }
  }

  lemma NobodyReports(s: State)
    requires Safe(s)
    ensures s.registered == {} ==> AllOut(s)
  {
    forall a | 0 <= a < SLOTS && s.pcs[a] != Out
      ensures a in s.registered
    {
      PastTheLook(s, a);
    }
  }

  /** At the first hand-over nothing is stale and everything is quiet. */
  lemma FirstIsQuiet(s: State)
    requires Safe(s) && !s.hasPdu && s.phase == Closed
    ensures HandOver(s).log.stale == {} && HandOver(s).log.quiet
  {
    RaisedSet(s.flags, 0);
    forall a | 0 <= a < SLOTS
      ensures s.pcs[a] == Out || s.pcs[a] == Called
    {
      assert Local(s, a);
    }
  }

  lemma StepKeepsSafe(s: State, step: Step)
    requires Safe(s) && Enabled(s, step)
    ensures Safe(Next(s, step))
  {
    var s' := Next(s, step);
    SessionKept(s, step);
    forall b | 0 <= b < SLOTS
      ensures Local(s', b)
    {
      LocalKept(s, step, b);
    }
    if step.Runs? {
      PastTheLook(s, step.slot);
    }
    if !s.hasPdu && s.phase == Closed {
      FirstIsQuiet(s);
    }
    hide Local, Up, UpSet, Session;
  }

  lemma CountingGoesOn(s: State, step: Step, w: nat)
    requires Safe(s) && Enabled(s, step) && Handed(s) && s.mode == AssetMode && AllUp(s) && CountsAll(s, w)
    requires step.Runs? ==> !s.pcs[step.slot].Flagging?
    requires Handed(Next(s, step)) && Next(s, step).mode == AssetMode
    ensures Shape(Next(s, step)) && CountsAll(Next(s, step), w)
  {
    FullCount(s);
    hide Session, UpSet, Untouched;
  }

  lemma AwakeBefore(s: State, step: Step)
    requires Enabled(s, step) && !(step.Runs? && s.pcs[step.slot].Flagging?) && Handed(Next(s, step))
    requires Next(s, step).mode == AssetMode && Next(s, step).log.reported != {}
    ensures Handed(s) && s.mode == AssetMode && s.log.reported != {}
    ensures Shape(Next(s, step)) && (AllUp(Next(s, step)) ==> AllUp(s))
  {
    hide UpSet;
  }

  /** The report that raises the last flag, or the first one when all are up, starts
      its count afterwards, so it sees every flag. */
  lemma StepKeepsAwake(s: State, step: Step)
    requires Safe(s) && Awake(s) && Enabled(s, step)
    ensures Shape(Next(s, step)) && Awake(Next(s, step))
  {
    var s' := Next(s, step);
    if Handed(s') && s'.mode == AssetMode && s'.log.reported != {} && AllUp(s') {
      hide Next, Safe, CountsAll, AllUp;
      if step.Runs? && s.pcs[step.slot].Flagging? {
        RaiserCountsAll(s, step.slot);
      } else {
        AwakeBefore(s, step);
        var w: nat :| CountsAll(s, w);
        CountingGoesOn(s, step, w);
      }
    }
  }

  lemma RaiserCountsAll(s: State, a: nat)
    requires Enabled(s, Runs(a)) && s.pcs[a].Flagging?
    ensures Shape(RunStep(s, a)) && CountsAll(RunStep(s, a), a)
  {
  }

  lemma {:induction false} InvAlways(ss: seq<State>, steps: seq<Step>, i: nat)
    requires IsRun(ss, steps) && Init(ss[0]) && i < |ss|
    ensures Safe(ss[i]) && Awake(ss[i])
  {
    hide Next, Enabled, Safe, Init;
    if i == 0 {
      InitSafe(ss[0]);
    } else {
      InvAlways(ss, steps, i - 1);
      StepKeepsSafe(ss[i - 1], steps[i - 1]);
      StepKeepsAwake(ss[i - 1], steps[i - 1]);
    }
  }
}
