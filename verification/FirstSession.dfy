/** The whole first session: the life cycle, the start barrier and the clocks run
    together, driven by the master's `execute` one section at a time, while users,
    assets and their reports interleave freely. A run ends where a second session, or
    a reset of the first, would begin. */
module FirstSession {
  import opened Common
  import opened LifeCycle
  import L = LifeCycleRuns
  import B = StartBarrier
  import BT = BarrierTheorems
  import T = WorldTime

  /** Where the master is in `execute`. */
  datatype MasterPc =
    | Top
    | Creating                 // the start is agreed; about to make create's first store
    | Filling                  // and its second, the number of assets
    | Gating(running: bool)    // about to look at the mode, knowing the state it saw
    | Timing                   // reading times, moving and publishing the world time

  datatype State = State(
    life: L.World,
    gate: B.State,
    time: T.State,
    pc: MasterPc,
    starts: nat,               // Runnable became Running
    agreed: set<nat>,          // slots whose latest feedback then was start_feedback(true)
    clean: bool)               // and no Error or Reset was being published when it was started

  datatype Step =
    | Life(step: L.Step)       // a user or an asset: anything but the master's own part
    | Handle
    | GiveUp                   // somebody is late: everybody is failed
    | CreatePdu(locked: bool)
    | FillPdu
    | LookAtMode
    | MasterTime
    | Report(asset: nat)
    | ReportRuns(slot: nat)
    | AssetTime(act: T.Step)

  function Used(slots: seq<Slot>): set<nat> { set k: nat | k < |slots| && IsUsed(slots[k]) }

  function Agreed(w: L.World): set<nat> {
    set k: nat | k < |w.m.slots| && k < |w.last| && IsUsed(w.m.slots[k]) && w.last[k] == Some(L.Reply(Runnable, true))
  }

  function Enrolled(s: State, step: L.Step): B.Step
    requires L.Enabled(s.life, step)
  {
    B.Enrol(Used(L.Next(s.life, step).m.slots))
  }

  predicate Begins(s: State)
    requires L.Enabled(s.life, L.HandleEvents)
  {
    s.life.m.state == Runnable && L.Next(s.life, L.HandleEvents).m.state == Running
  }

  predicate EndsReset(s: State)
    requires L.Enabled(s.life, L.HandleEvents)
  {
    s.life.m.state == Resetting && L.Next(s.life, L.HandleEvents).m.state == Stopped
  }

  ghost predicate Enabled(c: T.Config, s: State, step: Step) {
    match step
    case Life(a) =>
      && !a.HandleEvents? && !a.TimeOut? && !a.NotifyTime? && L.Enabled(s.life, a) // times are reported by AssetTime
      && (s.gate.phase == B.Closed ==> B.Enabled(s.gate, Enrolled(s, a)))
    case Handle =>
      && s.pc == Top && L.Enabled(s.life, L.HandleEvents)
      && (Begins(s) ==> s.starts == 0 && |c.step| == s.life.m.assetNum)
      && (EndsReset(s) ==> s.gate.phase == B.Closed) // before create a reset finds every clock at zero already
    case GiveUp => s.pc == Top && L.Enabled(s.life, L.TimeOut) && NeedsHandling(s.life.m.state)
    case CreatePdu(locked) => s.pc == Creating && B.Enabled(s.gate, B.Begin(locked))
    case FillPdu => s.pc == Filling && B.Enabled(s.gate, B.Finish)
    case LookAtMode => s.pc.Gating?
    case MasterTime => s.pc == Timing && T.Enabled(c, s.time, T.MasterRuns) && B.Enabled(s.gate, B.Tick)
    case Report(a) => B.Enabled(s.gate, B.Report(a))
    case ReportRuns(a) => B.Enabled(s.gate, B.Runs(a))
    case AssetTime(act) => s.gate.phase == B.Open && !act.MasterRuns? && T.Enabled(c, s.time, act)
  }

  ghost function Next(c: T.Config, s: State, step: Step): State
    requires Enabled(c, s, step)
  {
    match step
    case Life(a) =>
      s.(life := L.Next(s.life, a), gate := if s.gate.phase == B.Closed then B.Next(s.gate, Enrolled(s, a)) else s.gate)
    case Handle =>
      var w := L.Next(s.life, L.HandleEvents);
      if Begins(s) then
        s.(life := w, pc := Creating, starts := s.starts + 1, agreed := Agreed(s.life), clean := s.life.clean)
      else s.(life := w, pc := Gating(w.m.state == Running))
    case GiveUp => s.(life := L.Next(s.life, L.TimeOut))
    case CreatePdu(locked) =>
      s.(gate := B.Next(s.gate, B.Begin(locked)), pc := if locked then Filling else Gating(true))
    case FillPdu => s.(gate := B.Next(s.gate, B.Finish), pc := Gating(true))
    case LookAtMode => s.(pc := if s.pc.running && s.gate.mode == B.MasterMode then Timing else Top)
    case MasterTime =>
      var t := T.Next(c, s.time, T.MasterRuns);
      s.(time := t,
         pc := if t.master.Resting? then Top else Timing,
         gate := if t.world != s.time.world then B.Next(s.gate, B.Tick) else s.gate)
    case Report(a) => s.(gate := B.Next(s.gate, B.Report(a)))
    case ReportRuns(a) => s.(gate := B.Next(s.gate, B.Runs(a)))
    case AssetTime(act) => s.(time := T.Next(c, s.time, act))
  }

  ghost predicate Init(c: T.Config, s: State) {
    && L.Init(s.life) && B.Init(s.gate) && s.gate.registered == {} && T.Init(c, s.time)
    && s.pc == Top && s.starts == 0 && s.agreed == {}
  }

  ghost predicate IsRun(c: T.Config, ss: seq<State>, steps: seq<Step>) {
    && |ss| == |steps| + 1 && Init(c, ss[0])
    && forall i :: 0 <= i < |steps| ==> Enabled(c, ss[i], steps[i]) && ss[i + 1] == Next(c, ss[i], steps[i])
  }

  // ----- the invariant: each part's own, and how they hang together -----

  predicate UnderWay(s: SimState) { s == Running || s == Stopping }

  predicate Parts(c: T.Config, s: State) {
    L.Registry(s.life.m) && L.OwnDoing(s.life) && B.Safe(s.gate) && T.Inv(c, s.time)
  }

  /** The master's place tells how far the session has come. */
  predicate InOrder(c: T.Config, s: State) {
    && s.starts <= 1
    && (s.gate.phase == B.Open <==> s.starts == 1 && s.pc != Creating && s.pc != Filling)
    && (s.gate.phase == B.Opening <==> s.pc == Filling)
    && (s.gate.phase != B.Open ==> !s.gate.hasPdu && T.Init(c, s.time))
    && (s.pc in {Creating, Filling, Gating(true), Timing} ==> UnderWay(s.life.m.state))
    && (UnderWay(s.life.m.state) ==> s.starts == 1)
    && (if s.pc == Timing then s.gate.phase == B.Open && s.gate.mode == B.MasterMode else s.time.master.Resting?)
    && (s.gate.phase != B.Open || s.gate.log.ticks == 0 ==> s.time.world == 0)
  }

  /** The barrier waits for the assets that are registered, and they have agreed. */
  predicate InStep(s: State) {
    && (s.gate.phase != B.Open || UnderWay(s.life.m.state) ==> s.gate.registered == Used(s.life.m.slots))
    && (s.starts == 1 && s.clean ==> s.gate.registered <= s.agreed)
    && (s.gate.phase != B.Closed ==> if s.gate.barred then s.gate.log.stale == {} else !s.gate.hasPdu)
  }

  predicate Inv(c: T.Config, s: State) { Parts(c, s) && InOrder(c, s) && InStep(s) }

  lemma StepKeepsParts(c: T.Config, s: State, step: Step)
    requires T.ValidConfig(c) && Inv(c, s) && Enabled(c, s, step)
    ensures Parts(c, Next(c, s, step))
  {
    hide L.Registry, L.OwnDoing, L.Next, B.Safe, B.Next, T.Inv, T.Next, T.ValidConfig;
    match step
    case Life(a) =>
      L.StepKeepsRegistry(s.life, a);
      L.StepKeepsOwnDoing(s.life, a);
      if s.gate.phase == B.Closed {
        B.StepKeepsSafe(s.gate, Enrolled(s, a));
      }
    case Handle =>
      L.StepKeepsRegistry(s.life, L.HandleEvents);
      L.StepKeepsOwnDoing(s.life, L.HandleEvents);
    case GiveUp =>
      L.StepKeepsRegistry(s.life, L.TimeOut);
      L.StepKeepsOwnDoing(s.life, L.TimeOut);
    case CreatePdu(locked) => B.StepKeepsSafe(s.gate, B.Begin(locked));
    case FillPdu => B.StepKeepsSafe(s.gate, B.Finish);
    case LookAtMode =>
    case MasterTime =>
      T.StepKeepsInv(c, s.time, T.MasterRuns);
      B.StepKeepsSafe(s.gate, B.Tick);
    case Report(a) => B.StepKeepsSafe(s.gate, B.Report(a));
    case ReportRuns(a) => B.StepKeepsSafe(s.gate, B.Runs(a));
    case AssetTime(act) => T.StepKeepsInv(c, s.time, act);
  }

  lemma SameUsed(a: Master, b: Master)
    requires L.SameMembers(a, b)
    ensures Used(a.slots) == Used(b.slots)
  {
  }

  /** What the life cycle's steps may do to the state, and when they keep the members. */
  lemma LifeMoves(w: L.World, a: L.Step)
    requires L.Enabled(w, a)
    ensures !a.HandleEvents? && UnderWay(L.Next(w, a).m.state) ==> UnderWay(w.m.state)
    ensures !a.HandleEvents? && !a.TimeOut? && UnderWay(w.m.state) ==> UnderWay(L.Next(w, a).m.state)
    ensures (!a.Register? && !a.Unregister?) || UnderWay(w.m.state) ==> L.SameMembers(w.m, L.Next(w, a).m)
  {
    if !a.Register? && !a.Unregister? {
      L.OthersKeepMembers(w, a);
    }
  }

  lemma HandleMoves(w: L.World)
    requires L.Enabled(w, L.HandleEvents)
    ensures var w' := L.Next(w, L.HandleEvents);
            && L.SameMembers(w.m, w'.m) && (w'.m.state == Running ==> w.m.state == Running || w.m.state == Runnable)
            && (w'.m.state == Stopping ==> w.m.state == Stopping)
  {
    L.OthersKeepMembers(w, L.HandleEvents);
  }

  lemma GateMoves(g: B.State, a: B.Step)
    requires B.Safe(g) && B.Enabled(g, a)
    ensures var g' := B.Next(g, a);
            && (!a.Begin? && !a.Finish? && !a.Stop? ==>
                  g'.phase == g.phase && g'.hasPdu == g.hasPdu && g'.barred == g.barred)
            && (!a.Begin? && !a.Finish? ==>
                  g'.log.stale == g.log.stale && g'.log.ticks == g.log.ticks + if a.Tick? then 1 else 0)
            && g'.registered == (if a.Enrol? then a.members else g.registered)
            && (!a.Begin? && !a.Finish? && !a.ResetPdu? && g.mode == B.MasterMode ==> g'.mode == B.MasterMode)
  {
    hide B.Safe, B.Up, B.UpSet;
  }

  lemma GateOpens(g: B.State, a: B.Step)
    requires B.Safe(g) && B.Enabled(g, a) && !g.hasPdu
    ensures var g' := B.Next(g, a);
            && (a.Begin? ==> if a.locked then g'.phase == B.Opening && g'.barred && g'.log.stale == {}
                             else g'.phase == B.Open && !g'.barred && g'.log.ticks == 0)
            && (a.Begin? ==> !g'.hasPdu)
            && (a.Finish? ==> g'.phase == B.Open && g'.hasPdu && g'.barred && g'.log == g.log && g'.log.stale == {})
  {
    if a.Begin? {
      B.FirstIsQuiet(g);
    }
    hide B.Up, B.UpSet, B.Local;
  }

  lemma TimeMoves(c: T.Config, t: T.State, a: T.Step)
    requires T.ValidConfig(c) && T.Enabled(c, t, a)
    ensures var t' := T.Next(c, t, a);
            !a.MasterRuns? ==> t'.world == t.world && t'.master == t.master
  {
  }

  lemma StepKeepsOrder(c: T.Config, s: State, step: Step)
    requires T.ValidConfig(c) && Inv(c, s) && Enabled(c, s, step)
    ensures InOrder(c, Next(c, s, step))
  {
    hide L.Registry, L.OwnDoing, L.Next, B.Safe, B.Next, T.Inv, T.Next, T.ValidConfig, T.Init, InStep, L.SameMembers;
    match step
    case Life(a) =>
      LifeMoves(s.life, a);
      if s.gate.phase == B.Closed {
        GateMoves(s.gate, Enrolled(s, a));
      }
    case Handle => HandleMoves(s.life);
    case GiveUp => LifeMoves(s.life, L.TimeOut);
    case CreatePdu(locked) =>
      GateMoves(s.gate, B.Begin(locked));
      GateOpens(s.gate, B.Begin(locked));
    case FillPdu =>
      GateMoves(s.gate, B.Finish);
      GateOpens(s.gate, B.Finish);
    case LookAtMode =>
    case MasterTime => GateMoves(s.gate, B.Tick);
    case Report(a) => GateMoves(s.gate, B.Report(a));
    case ReportRuns(a) => GateMoves(s.gate, B.Runs(a));
    case AssetTime(act) => TimeMoves(c, s.time, act);
  }

  /** A clean start is agreed: with all feedback in, every used slot has given its own. */
  lemma StartIsAgreed(w: L.World)
    requires L.OwnDoing(w) && w.clean && w.m.state == Runnable && L.Next(w, L.HandleEvents).m.state == Running
    ensures Agreed(w) == Used(w.m.slots)
  {
    forall k: nat | k in Used(w.m.slots)
      ensures k in Agreed(w)
    {
    }
  }

  lemma StepKeepsInStep(c: T.Config, s: State, step: Step)
    requires T.ValidConfig(c) && Inv(c, s) && Enabled(c, s, step)
    ensures InStep(Next(c, s, step))
  {
    hide L.Registry, L.OwnDoing, L.Next, L.SameMembers, B.Safe, B.Next, T.Inv, T.Next, T.ValidConfig, T.Init;
    hide Used, Agreed;
    match step
    case Life(a) =>
      LifeMoves(s.life, a);
      if UnderWay(s.life.m.state) {
        SameUsed(s.life.m, L.Next(s.life, a).m);
      }
      if s.gate.phase == B.Closed {
        GateMoves(s.gate, Enrolled(s, a));
      }
    case Handle =>
      HandleMoves(s.life);
      SameUsed(s.life.m, L.Next(s.life, L.HandleEvents).m);
      if Begins(s) && s.life.clean {
        StartIsAgreed(s.life);
      }
    case GiveUp =>
      LifeMoves(s.life, L.TimeOut);
      SameUsed(s.life.m, L.Next(s.life, L.TimeOut).m);
    case CreatePdu(locked) =>
      GateMoves(s.gate, B.Begin(locked));
      GateOpens(s.gate, B.Begin(locked));
    case FillPdu =>
      GateMoves(s.gate, B.Finish);
      GateOpens(s.gate, B.Finish);
    case LookAtMode =>
    case MasterTime => GateMoves(s.gate, B.Tick);
    case Report(a) => GateMoves(s.gate, B.Report(a));
    case ReportRuns(a) => GateMoves(s.gate, B.Runs(a));
    case AssetTime(act) =>
  }

  lemma {:induction false} InvAlways(c: T.Config, ss: seq<State>, steps: seq<Step>, i: nat)
    requires T.ValidConfig(c) && IsRun(c, ss, steps) && i < |ss|
    ensures Inv(c, ss[i])
  {
    hide Next, Enabled, Parts, InOrder, InStep, T.ValidConfig, Init;
    if i == 0 {
      InitInv(c, ss[0]);
    } else {
      InvAlways(c, ss, steps, i - 1);
      StepKeepsParts(c, ss[i - 1], steps[i - 1]);
      StepKeepsOrder(c, ss[i - 1], steps[i - 1]);
      StepKeepsInStep(c, ss[i - 1], steps[i - 1]);
    }
  }

  lemma InitInv(c: T.Config, s: State)
    requires T.ValidConfig(c) && Init(c, s)
    ensures Inv(c, s)
  {
    L.InitInv(s.life);
    B.InitSafe(s.gate);
    forall i | 0 <= i < |c.step|
      ensures T.AssetFits(c, s.time, i)
    {
    }
    hide L.Registry, L.OwnDoing;
  }

  // ----- theorems -----

  /** The world moves only in a session every registered asset has agreed to, if no
      Error or Reset was being published when it was started. And it moves only past
      the barrier, each of them having reported its first PDU write, if `create` got its
      init lock and no report ended its count between `create`'s two stores (or there is
      at most one asset); without the lock nobody's report is seen. */
  lemma WorldWaitsForAll(c: T.Config, ss: seq<State>, steps: seq<Step>, i: nat)
    requires T.ValidConfig(c) && IsRun(c, ss, steps) && i < |steps|
    requires ss[i + 1].time.world != ss[i].time.world
    ensures UnderWay(ss[i].life.m.state) && ss[i].starts == 1
    ensures ss[i].clean ==> Used(ss[i].life.m.slots) <= ss[i].agreed
    ensures ss[i].gate.barred && (!ss[i].gate.log.hurried || |Used(ss[i].life.m.slots)| <= 1) ==>
              Used(ss[i].life.m.slots) <= ss[i].gate.log.reported
    ensures !ss[i].gate.barred ==> ss[i].gate.flags == B.NoFlags()
  {
    InvAlways(c, ss, steps, i);
    var s := ss[i];
    MovesWhileTiming(c, s, steps[i]);
    hide L.Registry, L.OwnDoing, T.Inv, T.ValidConfig, T.Init, B.Local, B.Up, B.UpSet, Next, Enabled, Used;
    if s.gate.barred && s.gate.log.hurried && |s.gate.registered| <= 1 {
      B.SubsetCardinality(s.gate.log.reported, s.gate.registered);
      assert |s.gate.log.reported| > 0;
    }
  }

  /** Assets that report only once is_pdu_created() holds. */
  predicate Guarded(ss: seq<State>, steps: seq<Step>)
    requires |ss| == |steps| + 1
  {
    forall i :: 0 <= i < |steps| && steps[i].Report? ==> ss[i].gate.assetNum > 0
  }

  lemma {:induction false} GuardedIsNotHurried(c: T.Config, ss: seq<State>, steps: seq<Step>, i: nat)
    requires T.ValidConfig(c) && IsRun(c, ss, steps) && i < |ss| && Guarded(ss, steps)
    ensures !ss[i].gate.hasPdu ==> B.AllOut(ss[i].gate)
    ensures B.Handed(ss[i].gate) ==> !ss[i].gate.log.hurried
  {
    if i > 0 {
      InvAlways(c, ss, steps, i - 1);
      GuardedIsNotHurried(c, ss, steps, i - 1);
      hide Parts, InOrder, InStep, Init, T.ValidConfig, L.Next, B.Next, T.Next, B.AllOut, B.Handed, Used, Agreed;
      var s, step := ss[i - 1], steps[i - 1];
      var a := GateStep(c, s, step);
      if a.Some? {
        GateIsSafe(c, s);
        BT.GuardedStep(s.gate, a.value);
      }
    }
  }

  lemma GateIsSafe(c: T.Config, s: State)
    requires Inv(c, s)
    ensures B.Safe(s.gate)
  {
  }

  /** What a step of the session does at the barrier. */
  ghost function GateStep(c: T.Config, s: State, step: Step): (r: Option<B.Step>)
    requires Enabled(c, s, step)
    ensures r.Some? ==> B.Enabled(s.gate, r.value)
    ensures Next(c, s, step).gate == if r.Some? then B.Next(s.gate, r.value) else s.gate
    ensures r.Some? && r.value.Report? ==> step.Report?
  {
    match step
    case Life(a) => if s.gate.phase == B.Closed then Some(Enrolled(s, a)) else None
    case CreatePdu(locked) => Some(B.Begin(locked))
    case FillPdu => Some(B.Finish)
    case MasterTime => if T.Next(c, s.time, T.MasterRuns).world != s.time.world then Some(B.Tick) else None
    case Report(a) => Some(B.Report(a))
    case ReportRuns(a) => Some(B.Runs(a))
    case _ => None
  }

  /** For them, in a cleanly started session whose `create` got its lock, the world
      moves only after everybody's start_feedback(true) and everybody's PDU report. */
  lemma GuardedWorldWaits(c: T.Config, ss: seq<State>, steps: seq<Step>, i: nat)
    requires T.ValidConfig(c) && IsRun(c, ss, steps) && i < |steps| && Guarded(ss, steps)
    requires ss[i + 1].time.world != ss[i].time.world && ss[i].clean && ss[i].gate.barred
    ensures Used(ss[i].life.m.slots) <= ss[i].agreed && Used(ss[i].life.m.slots) <= ss[i].gate.log.reported
  {
    InvAlways(c, ss, steps, i);
    MovesWhileTiming(c, ss[i], steps[i]);
    GuardedIsNotHurried(c, ss, steps, i);
    WorldWaitsForAll(c, ss, steps, i);
    hide Parts, InStep, Used, Next, Enabled, T.Init, T.ValidConfig;
  }

  lemma MovesWhileTiming(c: T.Config, s: State, step: Step)
    requires T.ValidConfig(c) && Inv(c, s) && Enabled(c, s, step) && Next(c, s, step).time.world != s.time.world
    ensures s.pc == Timing && |s.life.m.slots| == SLOTS
  {
    if step.AssetTime? {
      TimeMoves(c, s.time, step.act);
    }
  }

  lemma StartsMove(c: T.Config, s: State, step: Step)
    requires Enabled(c, s, step)
    ensures var s' := Next(c, s, step);
            || (s'.starts == s.starts && s'.agreed == s.agreed && s'.clean == s.clean)
            || (s'.starts == s.starts + 1 && s'.agreed == Agreed(s.life) && s'.clean == s.life.clean
                && s.life.m.state == Runnable && s'.life.m.state == Running)
  {
    hide L.Next, B.Next, T.Next, Agreed;
  }

  /** Where `agreed` comes from: the one step that made Runnable Running, at which
      these slots' latest feedback since the start was start_feedback(true). */
  lemma {:induction false} TheStart(c: T.Config, ss: seq<State>, steps: seq<Step>, i: nat) returns (j: nat)
    requires T.ValidConfig(c) && IsRun(c, ss, steps) && i < |ss| && ss[i].starts == 1
    ensures j < i && ss[j].life.m.state == Runnable && ss[j + 1].life.m.state == Running
    ensures ss[i].agreed == Agreed(ss[j].life) && ss[i].clean == ss[j].life.clean
  {
    hide Next, Enabled, T.ValidConfig, T.Init, L.Init, B.Init, Agreed, Parts, InStep, UnderWay;
    InvAlways(c, ss, steps, i - 1);
    StartsMove(c, ss[i - 1], steps[i - 1]);
    if ss[i - 1].starts == 1 {
      j := TheStart(c, ss, steps, i - 1);
    } else {
      j := i - 1;
    }
  }

  /** And all the while the drift is bounded. */
  lemma SessionDrift(c: T.Config, ss: seq<State>, steps: seq<Step>, i: nat, a: nat)
    requires T.ValidConfig(c) && IsRun(c, ss, steps) && i < |ss| && a < |c.step|
    ensures T.Shape(c, ss[i].time)
    ensures ss[i].time.world - ss[i].time.ctime[a] < c.maxDelay + c.delta
    ensures c.step[a] > 0 ==> ss[i].time.ctime[a] <= ss[i].time.world + c.step[a]
  {
    hide L.Registry, L.OwnDoing, B.Safe, T.ValidConfig;
    InvAlways(c, ss, steps, i);
    assert T.AssetFits(c, ss[i].time, a);
  }

  // ----- one undisturbed call of execute -----

  /** The master's time steps up to the end of the call. */
  ghost function TimeUntilTop(c: T.Config, s: State): State
    requires s.pc == Timing && T.Shape(c, s.time) && T.ReadingInBounds(s.time) && B.Enabled(s.gate, B.Tick)
    decreases match s.time.master
              case Resting => |s.time.ctime| + 3
              case Reading(ts) => |s.time.ctime| + 2 - |ts|
              case Publishing => 1
  {
    var s' := Next(c, s, MasterTime);
    if s'.pc == Top then s' else TimeUntilTop(c, s')
  }

  /** They are the master's steps of the time protocol, and tick the session once if the
      world has moved. */
  lemma {:induction false} TimedIsExecute(c: T.Config, s: State)
    requires s.pc == Timing && T.Shape(c, s.time) && B.Enabled(s.gate, B.Tick) && c.delta > 0
    requires s.time.master.Reading? ==> s.time.master.times <= s.time.ctime
    requires !s.time.master.Publishing? ==> s.time.published == s.time.world
    ensures var t := T.Execute(c, s.time);
            TimeUntilTop(c, s) ==
            s.(time := t, pc := Top, gate := if t.world != s.time.world then B.Next(s.gate, B.Tick) else s.gate)
    decreases match s.time.master
              case Resting => |s.time.ctime| + 3
              case Reading(ts) => |s.time.ctime| + 2 - |ts|
              case Publishing => 1
  {
    var s' := Next(c, s, MasterTime);
    T.ExecuteEffect(c, s.time);
    if s'.pc != Top {
      T.ExecuteEffect(c, s'.time);
      TimedIsExecute(c, s');
    }
  }

  /** From the look at the mode to the end of the call: with the clock at the assets
      nothing happens; else the world moves iff no asset lags. */
  ghost function AfterLook(c: T.Config, s: State): State
    requires s.pc == Gating(true) && Inv(c, s)
  {
    LookEntersTiming(c, s);
    var s1 := Next(c, s, LookAtMode);
    if s1.pc == Top then s1 else TimeUntilTop(c, s1)
  }

  lemma LookEntersTiming(c: T.Config, s: State)
    requires s.pc == Gating(true) && Inv(c, s)
    ensures s.gate.phase == B.Open && B.Shape(s.gate) && T.Shape(c, s.time) && s.time.master.Resting?
    ensures s.time.published == s.time.world
  {
    hide L.Registry, L.OwnDoing, B.Local, B.Session, B.Untouched;
  }

  lemma LookDecides(c: T.Config, s: State)
    requires s.pc == Gating(true) && Inv(c, s) && c.delta > 0
    ensures var t := AfterLook(c, s);
            var moves := s.gate.mode == B.MasterMode && T.CanStep(s.time.ctime, s.time.world, c.maxDelay);
            && t.pc == Top && t.life == s.life
            && t.time == (if moves then s.time.(world := s.time.world + c.delta, published := s.time.world + c.delta)
                          else s.time)
            && t.gate == (if moves then B.Next(s.gate, B.Tick) else s.gate)
  {
    LookEntersTiming(c, s);
    hide Parts, InOrder, InStep;
    if s.gate.mode == B.MasterMode {
      var s1 := Next(c, s, LookAtMode);
      TimedIsExecute(c, s1);
      T.ExecuteEffect(c, s1.time);
    }
  }

  /** A call in Running goes straight to the look at the mode; a call that finds the
      start agreed hands the clock to the assets first, if it gets the lock, and then
      does not move the world unless a report has given the clock back meanwhile. */
  lemma CallsReachTheLook(c: T.Config, s: State, locked: bool)
    requires s.pc == Top && Inv(c, s) && L.Enabled(s.life, L.HandleEvents)
    ensures s.life.m.state == Running ==>
              Enabled(c, s, Handle) && Next(c, s, Handle) == s.(pc := Gating(true))
    ensures s.life.m.state == Runnable && AllFeedback(s.life.m.slots)
            && s.starts == 0 && |c.step| == s.life.m.assetNum ==>
              && Enabled(c, s, Handle)
              && var s1 := Next(c, s, Handle);
                 && s1.pc == Creating && s1.life.m.state == Running && Enabled(c, s1, CreatePdu(locked))
                 && var s2 := Next(c, s1, CreatePdu(locked));
                    && (!locked ==> s2.pc == Gating(true) && s2.gate.mode == B.MasterMode)
                    && (locked ==>
                          && s2.pc == Filling && s2.gate.mode == B.AssetMode && Enabled(c, s2, FillPdu)
                          && var s3 := Next(c, s2, FillPdu);
                             && s3.pc == Gating(true) && s3.gate.mode == B.AssetMode
                             && s3.gate.assetNum == |Used(s.life.m.slots)|)
    ensures s.life.m.state == Runnable && !AllFeedback(s.life.m.slots) ==>
              Enabled(c, s, Handle) && Next(c, s, Handle) == s.(pc := Gating(false))
  {
    hide L.Registry, L.OwnDoing, B.Local, B.Session, B.Up, B.UpSet, T.Inv, T.Init, Used, Agreed;
  }

  /** A timeout fails the session: everybody is to be told, and nothing more happens in
      this call of the master. */
  lemma GiveUpFails(c: T.Config, s: State)
    requires Enabled(c, s, GiveUp)
    ensures var t := Next(c, s, GiveUp);
            && t.life.m.state == Error && t.pc == Top && t.time == s.time && t.gate == s.gate
            && t.life.pending == s.life.pending + [L.Pending(ErrorEvent, 0)]
  {
  }

  /** n steps of asset a in a row. */
  ghost function AssetSteps(c: T.Config, s: State, a: nat, n: nat): (t: State)
    requires s.gate.phase == B.Open && T.Shape(c, s.time) && a < |c.step| && c.step[a] > 0
    ensures t.gate == s.gate && T.Shape(c, t.time)
  {
    if n == 0 then s else Next(c, AssetSteps(c, s, a, n - 1), AssetTime(T.AssetRuns(a)))
  }

  lemma {:induction false} AssetStepsAreOwn(c: T.Config, s: State, a: nat, n: nat)
    requires s.gate.phase == B.Open && T.Shape(c, s.time) && a < |c.step| && c.step[a] > 0
    ensures AssetSteps(c, s, a, n) == s.(time := T.OwnSteps(c, s.time, a, n))
  {
    if n > 0 {
      AssetStepsAreOwn(c, s, a, n - 1);
    }
  }

  /** Nobody is stuck in the session either: an asset that lags raises its time by five
      steps of its own, unless the master has yet to publish a step. */
  lemma LaggardMovesInSession(c: T.Config, s: State, a: nat)
    requires T.ValidConfig(c) && Inv(c, s) && s.gate.phase == B.Open && a < |c.step| && c.step[a] > 0
    requires T.Lags(c, s.time, a) && !s.time.master.Publishing?
    ensures T.Shape(c, s.time)
    ensures AssetSteps(c, s, a, 5).time.ctime[a] > s.time.ctime[a]
  {
    hide L.Registry, L.OwnDoing, B.Safe, InOrder, InStep, Next, Enabled, T.OwnSteps;
    AssetStepsAreOwn(c, s, a, 5);
    T.LaggardMoves(c, s.time, a);
  }
}
