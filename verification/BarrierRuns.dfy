/** Runs in which the start barrier does not hold the world back: each breaks one of
    the conditions of `BarrierTheorems.BarrierHolds`, for all sets of two assets or more. */
module BarrierRuns {
  import opened Common
  import opened StartBarrier

  // ----- composing runs -----

  ghost predicate Leads(s: State, t: State) {
    exists ss, steps :: IsRun(ss, steps) && ss[0] == s && ss[|steps|] == t
  }

  lemma LeadsHere(s: State)
    ensures Leads(s, s)
  {
    assert IsRun([s], []);
  }

  lemma LeadsByStep(s: State, step: Step)
    requires Enabled(s, step)
    ensures Leads(s, Next(s, step))
  {
    hide Next, Enabled;
    assert IsRun([s, Next(s, step)], [step]);
  }

  lemma LeadsOn(s: State, t: State, u: State)
    requires Leads(s, t) && Leads(t, u)
    ensures Leads(s, u)
  {
    hide Next, Enabled;
    var ss, steps :| IsRun(ss, steps) && ss[0] == s && ss[|steps|] == t;
    var tt, more :| IsRun(tt, more) && tt[0] == t && tt[|more|] == u;
    var all, every := ss + tt[1..], steps + more;
    forall i | 0 <= i < |every|
      ensures Enabled(all[i], every[i]) && all[i + 1] == Next(all[i], every[i])
    {
      if i >= |steps| {
        assert all[i] == tt[i - |steps|] && all[i + 1] == tt[i + 1 - |steps|];
      }
    }
    assert IsRun(all, every) && all[0] == s && all[|every|] == u;
  }

  lemma LeadsThen(s: State, t: State, step: Step)
    requires Leads(s, t) && Enabled(t, step)
    ensures Leads(s, Next(t, step))
  {
    hide Next, Enabled, Leads;
    LeadsByStep(t, step);
    LeadsOn(s, t, Next(t, step));
  }

  lemma {:induction false} SafeAlong(ss: seq<State>, steps: seq<Step>, i: nat)
    requires IsRun(ss, steps) && Safe(ss[0]) && i < |ss|
    ensures Safe(ss[i])
  {
    hide Next, Enabled, Safe;
    if i > 0 {
      SafeAlong(ss, steps, i - 1);
      StepKeepsSafe(ss[i - 1], steps[i - 1]);
    }
  }

  lemma LeadsToSafe(s: State, t: State)
    requires Leads(s, t) && Safe(s)
    ensures Safe(t)
  {
    var ss, steps :| IsRun(ss, steps) && ss[0] == s && ss[|steps|] == t;
    SafeAlong(ss, steps, |steps|);
  }

  // ----- one undisturbed report -----

  /** What a report does that nobody interferes with. */
  function AfterReport(s: State, a: nat): State
    requires Shape(s) && a < SLOTS
  {
    var flags := s.flags[a := true];
    var log := Returned(s.log.(reported := s.log.reported + {a}), a);
    if Up(flags, SLOTS) < s.assetNum then s.(flags := flags, log := log)
    else s.(flags := flags, mode := MasterMode, log := log.(hurried := log.hurried || s.phase == Opening))
  }

  function Counted(s: State, a: nat, i: nat): State
    requires Shape(s) && a < SLOTS && i <= SLOTS
  {
    s.(pcs := s.pcs[a := Counting(i, Up(s.flags, i))])
  }

  lemma {:induction false} CountLeads(s: State, a: nat, i: nat)
    requires Shape(s) && a < SLOTS && i <= SLOTS
    ensures Leads(Counted(s, a, 0), Counted(s, a, i))
  {
    if i == 0 {
      LeadsHere(Counted(s, a, 0));
    } else {
      CountLeads(s, a, i - 1);
      hide Leads;
      var c := Counted(s, a, i - 1);
      assert Next(c, Runs(a)).pcs == Counted(s, a, i).pcs;
      LeadsThen(Counted(s, a, 0), c, Runs(a));
    }
  }

  lemma ReportLeads(s: State, a: nat)
    requires Shape(s) && a in s.registered && s.pcs[a] == Out && s.mode == AssetMode
    ensures Leads(s, AfterReport(s, a))
  {
    hide Leads, Up;
    var s1 := Next(s, Report(a));
    LeadsByStep(s, Report(a));
    var s2 := Next(s1, Runs(a));
    LeadsThen(s, s1, Runs(a));
    var s3 := Next(s2, Runs(a));
    LeadsThen(s, s2, Runs(a));
    ReportCounts(s3, a);
    var raised := s.(flags := s.flags[a := true], log := s.log.(reported := s.log.reported + {a}));
    assert s3 == raised.(pcs := s.pcs[a := Counting(0, 0)]);
    assert Counted(s3, a, SLOTS).pcs[a := Out] == s.pcs;
    LeadsOn(s, s3, AfterCount(s3, a));
  }

  function AfterCount(s: State, a: nat): State
    requires Shape(s) && a < SLOTS
  {
    RunStep(Counted(s, a, SLOTS), a)
  }

  lemma ReportCounts(s: State, a: nat)
    requires Shape(s) && a < SLOTS && s.pcs[a] == Counting(0, 0)
    ensures Leads(s, AfterCount(s, a))
  {
    assert s.pcs[a := Counting(0, Up(s.flags, 0))] == s.pcs;
    assert Counted(s, a, 0) == s;
    CountLeads(s, a, SLOTS);
    hide Leads;
    LeadsThen(s, Counted(s, a, SLOTS), Runs(a));
  }

  // ----- a report before the number of assets is stored -----

  /** With the init lock and lowered flags, one report between the two stores of
      `create` gives the clock back, whoever else is registered. */
  lemma EarlyReportOpensBarrier(s: State, members: set<nat>, a: nat) returns (t: State)
    requires Init(s) && a in members && |members| >= 2 && forall b :: b in members ==> b < SLOTS
    ensures Leads(s, t) && Enabled(t, Tick) && t.barred && t.registered == members
    ensures t.log.stale == {} && t.log.reported == {a} && !(members <= t.log.reported)
  {
    hide Leads, Up, UpSet;
    var s1 := Next(s, Enrol(members));
    LeadsByStep(s, Enrol(members));
    var s2 := Next(s1, Begin(true));
    LeadsThen(s, s1, Begin(true));
    ReportLeads(s2, a);
    var s3 := AfterReport(s2, a);
    LeadsOn(s, s2, s3);
    t := Next(s3, Finish);
    LeadsThen(s, s3, Finish);
    InitSafe(s);
    LeadsToSafe(s, s1);
    FirstIsQuiet(s1);
    if members <= {a} {
      SubsetCardinality(members, {a});
    }
  }

  // ----- flags left up -----

  predicate Waiting(s: State) {
    Safe(s) && s.phase == Open && s.barred && AllOut(s) && s.mode == AssetMode
  }

  lemma AfterReportUp(s: State, a: nat)
    requires Waiting(s) && a in s.registered
    ensures var t := AfterReport(s, a);
            && Shape(t) && UpSet(t.flags, SLOTS) == UpSet(s.flags, SLOTS) + {a}
            && (t.mode == AssetMode ==> Waiting(t) && |UpSet(t.flags, SLOTS)| < |t.registered|)
            && (t.mode == MasterMode ==> Enabled(t, Tick))
            && t.log.reported == s.log.reported + {a} && t.log.stale == s.log.stale && t.log.hurried == s.log.hurried
            && t.registered == s.registered && t.barred && t.hasPdu == s.hasPdu && AllOut(t) && Safe(t)
  {
    var t := AfterReport(s, a);
    ReportLeads(s, a);
    LeadsToSafe(s, t);
    RaisedSet(s.flags, a);
    UpIsCardinality(t.flags, SLOTS);
    hide Up, UpSet, Local, Leads;
  }

  /** Assets that report one after the other give the clock back as soon as there are
      enough flags. */
  lemma {:induction false} ReportInTurn(s: State, reporters: set<nat>) returns (t: State)
    requires Waiting(s) && reporters <= s.registered && reporters != {}
    requires |UpSet(s.flags, SLOTS) + reporters| >= |s.registered|
    ensures Leads(s, t) && Enabled(t, Tick) && Safe(t) && t.barred && AllOut(t) && t.hasPdu == s.hasPdu
    ensures t.registered == s.registered && t.log.reported <= s.log.reported + reporters
    ensures t.log.stale == s.log.stale && t.log.hurried == s.log.hurried
    decreases reporters
  {
    hide Leads, AfterReport, Safe, UpSet;
    var a :| a in reporters;
    WaitingShape(s);
    var u := AfterReport(s, a);
    AfterReportUp(s, a);
    LeadsByReport(s, a);
    if u.mode == MasterMode {
      t := u;
    } else {
      var rest := reporters - {a};
      assert UpSet(s.flags, SLOTS) + reporters == UpSet(u.flags, SLOTS) + rest;
      t := ReportInTurn(u, rest);
      LeadsOn(s, u, t);
    }
  }

  lemma WaitingShape(s: State)
    requires Waiting(s)
    ensures Shape(s) && forall a :: a in s.registered ==> s.pcs[a] == Out
  {
  }

  lemma LeadsByReport(s: State, a: nat)
    requires Waiting(s) && a in s.registered
    ensures Leads(s, AfterReport(s, a))
  {
    ReportLeads(s, a);
  }

  /** A flag that was up when the session began stands for an asset that need not
      report: from every such session of two assets or more, the world can move
      without one of them. */
  lemma StaleFlagOpensBarrier(s: State) returns (t: State)
    requires Waiting(s) && s.log.reported == {} && s.log.stale != {} && |s.registered| >= 2
    ensures Leads(s, t) && Enabled(t, Tick) && t.registered == s.registered && !(t.registered <= t.log.reported)
  {
    var up := UpSet(s.flags, SLOTS);
    assert up == s.log.stale;
    var x :| x in s.log.stale;
    var b: nat;
    if x in s.registered {
      b := x;
    } else {
      b :| b in s.registered;
    }
    var reporters := s.registered - {b};
    var enough := reporters + {x};
    SubsetCardinality(enough, up + reporters);
    t := ReportInTurn(s, reporters);
  }

  /** After a stop and a start without a reset, one report gives the clock back. */
  lemma OneReportSuffices(s: State, a: nat) returns (t: State)
    requires Safe(s) && s.phase == Open && s.hasPdu && AllOut(s) && AllUp(s) && a in s.registered
    ensures Leads(s, t) && Enabled(t, Tick) && t.barred && t.registered == s.registered && t.log.reported == {a}
  {
    hide Leads, Up, UpSet, Local;
    var s1 := Next(s, Stop);
    LeadsByStep(s, Stop);
    var s2 := Next(s1, Begin(true));
    LeadsThen(s, s1, Begin(true));
    var s3 := Next(s2, Finish);
    LeadsThen(s, s2, Finish);
    ReportLeads(s3, a);
    t := AfterReport(s3, a);
    LeadsOn(s, s3, t);
    FullCount(s);
    assert s.flags[a := true] == s.flags;
  }

  lemma FirstSessionStarts(s: State, members: set<nat>) returns (t: State)
    requires Init(s) && forall b :: b in members ==> b < SLOTS
    ensures Leads(s, t) && Waiting(t) && t.hasPdu && t.registered == members
    ensures t.log.stale == {} && !t.log.hurried
  {
    hide Leads, Up, UpSet, Local;
    var s1 := Next(s, Enrol(members));
    LeadsByStep(s, Enrol(members));
    var s2 := Next(s1, Begin(true));
    LeadsThen(s, s1, Begin(true));
    t := Next(s2, Finish);
    LeadsThen(s, s2, Finish);
    InitSafe(s);
    LeadsToSafe(s, s1);
    LeadsToSafe(s, t);
    FirstIsQuiet(s1);
  }

  /** From the very beginning: all assets report in the first session, it is stopped
      and started again, and in the second session one report is enough. */
  lemma SecondSessionHasNoBarrier(s: State, members: set<nat>, a: nat) returns (t: State)
    requires Init(s) && a in members && forall b :: b in members ==> b < SLOTS
    ensures Leads(s, t) && Enabled(t, Tick) && t.barred && t.registered == members && t.log.reported == {a}
  {
    hide Leads, Up, UpSet, Local, Init, Session, Untouched;
    var waiting := FirstSessionStarts(s, members);
    SubsetCardinality(members, UpSet(waiting.flags, SLOTS) + members);
    var first := ReportInTurn(waiting, members);
    LeadsOn(s, waiting, first);
    FirstSessionEnds(first);
    t := OneReportSuffices(first, a);
    LeadsOn(s, first, t);
  }

  lemma FirstSessionEnds(s: State)
    requires Safe(s) && s.phase == Open && s.barred && s.mode == MasterMode
    requires s.log.stale == {} && !s.log.hurried
    ensures AllUp(s)
  {
    forall a | a in s.registered
      ensures s.flags[a]
    {
      assert a in UpSet(s.flags, SLOTS);
    }
  }

  // ----- what a reset is for -----

  /** A finished reset lowers the flags: the session after it, if nobody has reported in
      between, starts with nothing stale, and so with a barrier. */
  lemma ResetRestoresBarrier(s: State) returns (t: State)
    requires Safe(s) && Enabled(s, ResetPdu)
    ensures Leads(s, t) && Waiting(t) && t.registered == s.registered
    ensures t.log.stale == {} && t.log.quiet && !t.log.hurried && t.log.reported == {}
    ensures forall a :: 0 <= a < SLOTS ==> !t.flags[a]
  {
    hide Leads, Up, UpSet, Local;
    var s1 := Next(s, ResetPdu);
    LeadsByStep(s, ResetPdu);
    var s2 := Next(s1, Begin(true));
    LeadsThen(s, s1, Begin(true));
    t := Next(s2, Finish);
    LeadsThen(s, s2, Finish);
    LeadsToSafe(s, t);
    RaisedSet(s1.flags, 0);
  }
}
