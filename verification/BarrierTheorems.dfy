/** What the start barrier promises, under which condition, and runs that show each
    condition is needed. */
module BarrierTheorems {
  import opened Common
  import opened StartBarrier

  // ----- the barrier -----

  /** In every session the world moves only after every registered asset has reported,
      if `create` got its init lock, no flag was up when it handed the clock over, and
      no report ended its count before the number of assets was stored. With at most one
      asset the last two do not matter, if no report was under way at the hand-over.
      `BarrierRuns` shows that with two assets or more each of them does. */
  lemma BarrierHolds(ss: seq<State>, steps: seq<Step>, i: nat)
    requires IsRun(ss, steps) && Init(ss[0]) && i < |ss|
    requires ss[i].phase == Open && (ss[i].mode == MasterMode || ss[i].log.ticks > 0)
    requires ss[i].barred
    requires (ss[i].log.stale == {} && !ss[i].log.hurried) || (|ss[i].registered| <= 1 && ss[i].log.quiet)
    ensures ss[i].registered <= ss[i].log.reported
  {
    InvAlways(ss, steps, i);
    hide Up, UpSet, Local;
    if |ss[i].registered| <= 1 && ss[i].log.quiet {
      SubsetCardinality(ss[i].log.reported, ss[i].registered);
      assert |ss[i].log.reported| > 0;
    }
  }

  /** Nothing is stale in the first session, nor after a reset that nobody has reported
      since; the flags are then down when the session begins. */
  lemma FirstSessionIsFresh(ss: seq<State>, steps: seq<Step>, i: nat)
    requires IsRun(ss, steps) && Init(ss[0]) && i < |steps|
    requires steps[i] == Begin(true) && !ss[i].hasPdu
    ensures ss[i + 1].log.stale == {} && ss[i + 1].phase == Opening && Handed(ss[i + 1])
  {
    InvAlways(ss, steps, i);
    FirstIsQuiet(ss[i]);
  }

  /** Reports only by assets that have seen is_pdu_created(), that is, asset_num > 0. */
  predicate Guarded(ss: seq<State>, steps: seq<Step>)
    requires |ss| == |steps| + 1
  {
    forall i :: 0 <= i < |steps| && steps[i].Report? ==> ss[i].assetNum > 0
  }

  /** Such assets cannot be too early: none is in a report while the number is missing. */
  lemma {:induction false} GuardedIsNotHurried(ss: seq<State>, steps: seq<Step>, i: nat)
    requires IsRun(ss, steps) && Init(ss[0]) && i < |ss| && Guarded(ss, steps)
    ensures Shape(ss[i]) && (!ss[i].hasPdu ==> AllOut(ss[i]))
    ensures Handed(ss[i]) ==> !ss[i].log.hurried
  {
    InvAlways(ss, steps, i);
    if i > 0 {
      InvAlways(ss, steps, i - 1);
      GuardedIsNotHurried(ss, steps, i - 1);
      GuardedStep(ss[i - 1], steps[i - 1]);
    }
  }

  lemma GuardedStep(s: State, step: Step)
    requires Safe(s) && Enabled(s, step) && (step.Report? ==> s.assetNum > 0)
    requires (!s.hasPdu ==> AllOut(s)) && (Handed(s) ==> !s.log.hurried)
    ensures var s' := Next(s, step);
            (!s'.hasPdu ==> AllOut(s')) && (Handed(s') ==> !s'.log.hurried)
  {
    hide Up, UpSet, Local, Session;
  }

  /** So with guarded assets the lock and lowered flags are all it takes. */
  lemma GuardedBarrier(ss: seq<State>, steps: seq<Step>, i: nat)
    requires IsRun(ss, steps) && Init(ss[0]) && i < |ss| && Guarded(ss, steps)
    requires ss[i].phase == Open && (ss[i].mode == MasterMode || ss[i].log.ticks > 0)
    requires ss[i].barred && ss[i].log.stale == {}
    ensures ss[i].registered <= ss[i].log.reported
  {
    GuardedIsNotHurried(ss, steps, i);
    BarrierHolds(ss, steps, i);
  }

  /** Without the lock there is no barrier: before any PDU data exists the world may
      move at once, and reports are ignored, so no flag is ever raised. */
  lemma FailedCreateLeavesNoBarrier(ss: seq<State>, steps: seq<Step>, i: nat)
    requires IsRun(ss, steps) && Init(ss[0]) && i < |ss| && ss[i].phase == Open && !ss[i].barred && !ss[i].hasPdu
    ensures Enabled(ss[i], Tick) && ss[i].flags == NoFlags()
  {
    InvAlways(ss, steps, i);
  }

  // ----- wake-ups -----

  /** No wake-up is lost: once every registered asset is back from a report, the mode
      is Master. This holds iff there is an asset to report at all. */
  lemma NoLostWakeUp(ss: seq<State>, steps: seq<Step>, i: nat)
    requires IsRun(ss, steps) && Init(ss[0]) && i < |ss|
    requires ss[i].phase == Open && ss[i].barred && AllOut(ss[i]) && ss[i].registered <= ss[i].log.returned
    ensures ss[i].mode == MasterMode <==> ss[i].registered != {}
  {
    InvAlways(ss, steps, i);
    var s := ss[i];
    if s.mode == AssetMode {
      assert s.registered <= s.log.reported;
      ReportedAreUp(s);
    }
    hide Up, UpSet, Local;
  }

  /** Without assets nobody ever hands the clock back. */
  lemma EmptyStaysAsset(ss: seq<State>, steps: seq<Step>, i: nat)
    requires IsRun(ss, steps) && Init(ss[0]) && i < |ss|
    requires ss[i].phase == Open && ss[i].barred && ss[i].registered == {}
    ensures ss[i].mode == AssetMode && ss[i].log.ticks == 0
  {
    InvAlways(ss, steps, i);
    hide Up, UpSet, Local;
  }

  lemma ReportedAreUp(s: State)
    requires Safe(s) && Handed(s)
    ensures forall a :: a in s.log.reported || a in s.log.stale ==> a < SLOTS && s.flags[a]
  {
    forall a | a in s.log.reported || a in s.log.stale
      ensures a < SLOTS && s.flags[a]
    {
      assert a in UpSet(s.flags, SLOTS);
    }
  }

  /** One report is enough to notice that all flags are up, wherever they come from;
      without any, nobody does. */
  lemma SomebodyMustReport(ss: seq<State>, steps: seq<Step>, i: nat)
    requires IsRun(ss, steps) && Init(ss[0]) && i < |ss|
    requires ss[i].phase == Open && ss[i].barred && AllOut(ss[i]) && Shape(ss[i]) && AllUp(ss[i]) && ss[i].log.quiet
    ensures ss[i].mode == MasterMode <==> ss[i].log.reported != {}
  {
    InvAlways(ss, steps, i);
    hide Up, UpSet, Local;
  }

  // ----- the sample loop -----

  /** `is_pdu_sync_mode` after `is_pdu_created`: when the sample loop reports. */
  predicate Awaits(s: State, a: nat) {
    s.assetNum > 0 && s.mode == AssetMode && a < |s.flags| && !s.flags[a]
  }

  /** No report is under way, and no further one will be made. */
  predicate Settled(s: State) { AllOut(s) && forall a :: a in s.registered ==> !Awaits(s, a) }

  /** After a finished reset the sample loop is asked again, every asset of it. */
  lemma ResetAsksAgain(s: State, a: nat)
    requires Enabled(s, ResetPdu) && a < SLOTS && s.assetNum > 0
    ensures Awaits(Next(s, ResetPdu), a)
  {
  }

  predicate BySampleLoop(ss: seq<State>, steps: seq<Step>)
    requires |ss| == |steps| + 1
  {
    forall i :: 0 <= i < |steps| && steps[i].Report? ==> Awaits(ss[i], steps[i].asset)
  }

  /** Then an asset that has yet to set its flag finds it down, and an asset whose flag
      was up when the session began does not report in it. */
  ghost predicate Polite(s: State)
    requires Shape(s)
  {
    && (forall a :: 0 <= a < SLOTS && (s.pcs[a] == Called || s.pcs[a] == Flagging) ==> !s.flags[a])
    && (Handed(s) ==> s.log.reported !! s.log.stale)
  }

  lemma PoliteRun(s: State, a: nat)
    requires Safe(s) && Polite(s) && Enabled(s, Runs(a))
    ensures Shape(RunStep(s, a)) && Polite(RunStep(s, a))
  {
    if Handed(s) {
      ReportedAreUp(s);
    }
    hide Safe, Up, UpSet;
    var s' := RunStep(s, a);
    assert s.pcs[a] == Flagging && Handed(s) ==> a !in s.log.stale;
    assert Handed(s') ==> s'.log.reported !! s'.log.stale;
    forall b | 0 <= b < SLOTS && (s'.pcs[b] == Called || s'.pcs[b] == Flagging)
      ensures !s'.flags[b]
    {
      assert b != a ==> s'.pcs[b] == s.pcs[b] && s'.flags[b] == s.flags[b];
    }
  }

  lemma PoliteStep(s: State, step: Step)
    requires Safe(s) && Polite(s) && Enabled(s, step) && (step.Report? ==> Awaits(s, step.asset))
    ensures Shape(Next(s, step)) && Polite(Next(s, step))
  {
    if step.Runs? {
      PoliteRun(s, step.slot);
    }
    hide Safe, Up, UpSet, RunStep;
  }

  lemma {:induction false} PoliteAlways(ss: seq<State>, steps: seq<Step>, i: nat)
    requires IsRun(ss, steps) && Init(ss[0]) && i < |ss| && BySampleLoop(ss, steps)
    ensures Safe(ss[i]) && Polite(ss[i])
  {
    InvAlways(ss, steps, i);
    hide Next, Safe, Enabled;
    if i > 0 {
      InvAlways(ss, steps, i - 1);
      PoliteAlways(ss, steps, i - 1);
      PoliteStep(ss[i - 1], steps[i - 1]);
    }
  }

  /** Assets of the sample loop hand the clock back iff one of them had its flag down
      when the session began: once nobody's report is awaited or under way, the mode is
      Master in that case. In the other case, as after a stop and a start without a
      reset, nobody ever reports and the world stands still for the whole session. */
  lemma SampleLoopNeedsLoweredFlags(ss: seq<State>, steps: seq<Step>, i: nat)
    requires IsRun(ss, steps) && Init(ss[0]) && i < |ss| && BySampleLoop(ss, steps)
    requires ss[i].phase == Open && ss[i].barred && ss[i].log.quiet
    ensures ss[i].registered <= ss[i].log.stale ==>
              ss[i].mode == AssetMode && ss[i].log.reported == {} && ss[i].log.ticks == 0
    ensures !(ss[i].registered <= ss[i].log.stale) && Settled(ss[i]) ==> ss[i].mode == MasterMode
  {
    PoliteAlways(ss, steps, i);
    InvAlways(ss, steps, i);
    var s := ss[i];
    ReportedAreUp(s);
    if s.registered <= s.log.stale {
      assert s.log.reported == {};
    } else if Settled(s) && s.mode == AssetMode {
      var b :| b in s.registered && b !in s.log.stale;
      SubsetCardinality({b}, s.registered);
      assert s.flags[b] && b in UpSet(s.flags, SLOTS);
      SomebodyMustReport(ss, steps, i);
    }
    hide Up, UpSet, Local;
  }
}
