/** Runs of the life cycle in which nobody is asked: each shows that a condition of the
    feedback theorems in `LifeCycleRuns` is needed. */
module LateEvents {
  import opened Common
  import opened Names
  import opened LifeCycle
  import opened LifeCycleRuns

  // ----- composing runs -----

  ghost predicate Leads(v: World, w: World) {
    exists ws, steps :: IsPath(ws, steps) && ws[0] == v && ws[|steps|] == w
  }

  lemma LeadsByStep(v: World, step: Step)
    requires Enabled(v, step)
    ensures Leads(v, Next(v, step))
  {
    hide Next, Enabled;
    assert IsPath([v, Next(v, step)], [step]);
  }

  lemma LeadsOn(u: World, v: World, w: World)
    requires Leads(u, v) && Leads(v, w)
    ensures Leads(u, w)
  {
    hide Next, Enabled;
    var ss, steps :| IsPath(ss, steps) && ss[0] == u && ss[|steps|] == v;
    var tt, more :| IsPath(tt, more) && tt[0] == v && tt[|more|] == w;
    var all, every := ss + tt[1..], steps + more;
    forall i | 0 <= i < |every|
      ensures Enabled(all[i], every[i]) && all[i + 1] == Next(all[i], every[i])
    {
      if i >= |steps| {
        assert all[i] == tt[i - |steps|] && all[i + 1] == tt[i + 1 - |steps|];
      }
    }
    assert IsPath(all, every) && all[0] == u && all[|every|] == w;
  }

  lemma LeadsThen(u: World, v: World, step: Step)
    requires Leads(u, v) && Enabled(v, step)
    ensures Leads(u, Next(v, step))
  {
    hide Next, Enabled, Leads;
    LeadsByStep(v, step);
    LeadsOn(u, v, Next(v, step));
  }

  // ----- an undisturbed publication -----

  /** Published to slots below k only. */
  function PublishedTo(slots: seq<Slot>, event: Event, k: nat): seq<Slot> {
    seq(|slots|, i requires 0 <= i < |slots| => if i < k then Publish(slots[i], event) else slots[i])
  }

  function PartWay(w: World, p: nat, k: nat): World
    requires p < |w.pending|
  {
    w.(m := w.m.(slots := PublishedTo(w.m.slots, w.pending[p].event, k)),
       pending := w.pending[p := w.pending[p].(next := k)])
  }

  lemma {:induction false} PartWayLeads(w: World, p: nat, k: nat)
    requires |w.m.slots| == |w.last| == SLOTS && p < |w.pending| && w.pending[p].next == 0 && 0 < k < SLOTS
    ensures Leads(w, PartWay(w, p, k))
  {
    hide Leads, Publish;
    if k == 1 {
      assert Next(w, Deliver(p)).m.slots == PartWay(w, p, 1).m.slots;
      LeadsByStep(w, Deliver(p));
    } else {
      PartWayLeads(w, p, k - 1);
      var v := PartWay(w, p, k - 1);
      assert Next(v, Deliver(p)).m.slots == PartWay(w, p, k).m.slots;
      assert Next(v, Deliver(p)).pending == PartWay(w, p, k).pending;
      LeadsThen(w, v, Deliver(p));
    }
  }

  /** What a publication that nobody disturbs does: the second half of `Trigger`. */
  function AfterPublication(w: World, p: nat): World
    requires p < |w.pending|
  {
    w.(m := w.m.(slots := PublishAll(w.m.slots, w.pending[p].event)), pending := w.pending[..p] + w.pending[p + 1..])
  }

  lemma PublicationLeads(w: World, p: nat)
    requires |w.m.slots| == |w.last| == SLOTS && p < |w.pending| && w.pending[p].next == 0
    ensures Leads(w, AfterPublication(w, p))
  {
    hide Leads, Publish;
    PartWayLeads(w, p, SLOTS - 1);
    var v := PartWay(w, p, SLOTS - 1);
    LeadsThen(w, v, Deliver(p));
    assert Next(v, Deliver(p)).m.slots == AfterPublication(w, p).m.slots;
    assert Next(v, Deliver(p)).pending == AfterPublication(w, p).pending;
  }

  /** The two halves in a row are the undisturbed trigger of the life cycle. */
  lemma TriggerLeads(w: World, from: SimState, to: SimState, event: Event)
    requires |w.m.slots| == |w.last| == SLOTS && Triggers(w.m, from, to) && w.pending == []
    ensures var v := Announced(w, from, to, event);
            && Leads(v, AfterPublication(v, 0))
            && AfterPublication(v, 0).m == Trigger(w.m, from, to, event) && AfterPublication(v, 0).pending == []
  {
    hide Leads, Publish;
    PublicationLeads(Announced(w, from, to, event), 0);
  }

  /** A reset, undisturbed, is the reset of the life cycle: from Stopped through Resetting,
      from Error straight to Stopped, elsewhere nothing. */
  lemma ResetLeads(w: World)
    requires |w.m.slots| == |w.last| == SLOTS && w.pending == []
    ensures w.m.state == Stopped || w.m.state == Error ==>
              var v := Next(w, ResetSim);
              && |v.pending| == 1 && Leads(v, AfterPublication(v, 0)) && AfterPublication(v, 0).m == Reset(w.m)
              && v.m.state == (if w.m.state == Stopped then Resetting else Stopped)
    ensures w.m.state != Stopped && w.m.state != Error ==> Next(w, ResetSim) == w && Reset(w.m) == w.m
  {
    hide Leads, Publish;
    if w.m.state == Stopped {
      TriggerLeads(w, Stopped, Resetting, ResetEvent);
    } else if w.m.state == Error {
      TriggerLeads(w, Error, Stopped, ResetEvent);
    }
  }

  // ----- worlds with one slot in use or once used -----

  function OneSlot(state: SimState, num: int, slot: Slot, pending: seq<Pending>, clean: bool): (w: World)
    ensures |w.m.slots| == |w.last| == SLOTS
  {
    World(Master(state, num, seq(SLOTS, i => if i == 0 then slot else Slot(Unused, 0, "", NoEvent, false, 0, 0))),
          NoReplies(), pending, clean)
  }

  lemma OneSlotShape(state: SimState, num: int, slot: Slot, pending: seq<Pending>, clean: bool)
    ensures var w := OneSlot(state, num, slot, pending, clean);
            && w.m.slots[0] == slot && w.last[0] == None && w.m.state == state && w.pending == pending
            && w.clean == clean && (AllFeedback(w.m.slots) <==> IsUsed(slot) ==> slot.feedback)
  {
  }

  lemma Announces(state: SimState, num: int, slot: Slot, ps: seq<Pending>, c: bool, step: Step)
    requires step.StartSim? || step.ResetSim? || step.TimeOut?
    requires (step.StartSim? ==> state == Stopped) && (step.ResetSim? ==> state == Stopped || state == Error)
    requires step.TimeOut? ==> state != Any
    ensures var to := if step.StartSim? then Runnable else if step.TimeOut? then Error
                      else if state == Stopped then Resetting else Stopped;
            var e := if step.StartSim? then StartEvent else if step.TimeOut? then ErrorEvent else ResetEvent;
            Next(OneSlot(state, num, slot, ps, c), step)
            == OneSlot(to, num, if step.TimeOut? then slot else ClearFeedback(slot),
                       ps + [Pending(e, 0)], NoForcing(ps))
  {
    var w := OneSlot(state, num, slot, ps, c);
    var v := Next(w, step);
    var to := OneSlot(v.m.state, num, if step.TimeOut? then slot else ClearFeedback(slot), v.pending, v.clean);
    assert v.m.slots == to.m.slots;
  }

  lemma PublishesOne(state: SimState, num: int, slot: Slot, ps: seq<Pending>, c: bool, p: nat)
    requires p < |ps| && ps[p].next == 0
    ensures Leads(OneSlot(state, num, slot, ps, c),
                  OneSlot(state, num, Publish(slot, ps[p].event), ps[..p] + ps[p + 1..], c))
  {
    var w := OneSlot(state, num, slot, ps, c);
    var v := OneSlot(state, num, Publish(slot, ps[p].event), ps[..p] + ps[p + 1..], c);
    PublicationLeads(w, p);
    assert AfterPublication(w, p).m.slots == v.m.slots;
  }

  lemma RegisterFirst(slot: Slot, name: string, kind: Kind, c: bool)
    requires !IsUsed(slot) && kind != Unused && |name| <= NAME_MAX
    ensures Next(OneSlot(Stopped, 0, slot, [], c), Register(name, kind, 0))
            == OneSlot(Stopped, 1, slot.(kind := kind, id := 0, name := name, ctime := 0, updateTime := 0), [], c)
  {
    var w := OneSlot(Stopped, 0, slot, [], c);
    NobodyFound(w.m.slots, name, 0);
    var v := OneSlot(Stopped, 1, slot.(kind := kind, id := 0, name := name, ctime := 0, updateTime := 0), [], c);
    assert Next(w, Register(name, kind, 0)).m.slots == v.m.slots;
  }

  lemma {:induction false} NobodyFound(slots: seq<Slot>, name: string, i: nat)
    requires i <= |slots| && forall j :: 0 <= j < |slots| ==> !IsUsed(slots[j])
    ensures Find(slots, name, i) == -1
    decreases |slots| - i
  {
    if i < |slots| {
      NobodyFound(slots, name, i + 1);
    }
  }

  lemma UnregisterFirst(slot: Slot, c: bool)
    requires IsUsed(slot)
    ensures Next(OneSlot(Error, 1, slot, [], c), Unregister(slot.name))
            == OneSlot(Error, 0, slot.(kind := Unused), [], c)
  {
    var w := OneSlot(Error, 1, slot, [], c);
    SameNameMeans(slot.name, slot.name);
    var v := OneSlot(Error, 0, slot.(kind := Unused), [], c);
    assert Next(w, Unregister(slot.name)).m.slots == v.m.slots;
  }

  const BLANK := Slot(Unused, 0, "", NoEvent, false, 0, 0)

  lemma StartsBlank(c: bool)
    ensures Init(OneSlot(Stopped, 0, BLANK, [], c))
  {
    assert OneSlot(Stopped, 0, BLANK, [], c).m.slots == seq(SLOTS, i => Slot(Unused, 0, "", NoEvent, false, 0, 0));
  }

  function Asset(kind: Kind, name: string): Slot { BLANK.(kind := kind, name := name) }

  /** A trigger on such a world, its publication finished at once. */
  lemma TriggersAndPublishes(state: SimState, num: int, slot: Slot, ps: seq<Pending>, c: bool, step: Step)
    returns (w: World)
    requires step.StartSim? || step.ResetSim? || step.TimeOut?
    requires (step.StartSim? ==> state == Stopped) && (step.ResetSim? ==> state == Stopped || state == Error)
    requires step.TimeOut? ==> state != Any
    ensures var to := if step.StartSim? then Runnable else if step.TimeOut? then Error
                      else if state == Stopped then Resetting else Stopped;
            var e := if step.StartSim? then StartEvent else if step.TimeOut? then ErrorEvent else ResetEvent;
            w == OneSlot(to, num, Publish(if step.TimeOut? then slot else ClearFeedback(slot), e), ps, NoForcing(ps))
    ensures Leads(OneSlot(state, num, slot, ps, c), w)
  {
    hide OneSlot, Leads, NoForcing, Publish, ClearFeedback, Next;
    Announces(state, num, slot, ps, c, step);
    var v := Next(OneSlot(state, num, slot, ps, c), step);
    LeadsByStep(OneSlot(state, num, slot, ps, c), step);
    var to := if step.StartSim? then Runnable else if step.TimeOut? then Error
              else if state == Stopped then Resetting else Stopped;
    var e := if step.StartSim? then StartEvent else if step.TimeOut? then ErrorEvent else ResetEvent;
    var after := if step.TimeOut? then slot else ClearFeedback(slot);
    var more := ps + [Pending(e, 0)];
    PublishesOne(to, num, after, more, NoForcing(ps), |ps|);
    assert more[..|ps|] + more[|ps| + 1..] == ps;
    w := OneSlot(to, num, Publish(after, e), ps, NoForcing(ps));
    LeadsOn(OneSlot(state, num, slot, ps, c), v, w);
  }

  // ----- the runs -----

  /** Asset a is started, times out, and everybody is told so. */
  lemma FailsAtStart(kind: Kind, a: string) returns (v: World, w: World)
    requires kind != Unused && |a| <= NAME_MAX
    ensures Init(v) && Leads(v, w)
    ensures w == OneSlot(Error, 1, Asset(kind, a).(event := ErrorEvent, feedback := true), [], true)
  {
    hide OneSlot, Leads, Next, Init;
    v := OneSlot(Stopped, 0, BLANK, [], true);
    StartsBlank(true);
    RegisterFirst(BLANK, a, kind, true);
    LeadsByStep(v, Register(a, kind, 0));
    var registered := OneSlot(Stopped, 1, Asset(kind, a), [], true);
    var started := TriggersAndPublishes(Stopped, 1, Asset(kind, a), [], true, StartSim);
    LeadsOn(v, registered, started);
    w := TriggersAndPublishes(Runnable, 1, Asset(kind, a).(event := StartEvent), [], true, TimeOut);
    LeadsOn(v, started, w);
  }

  /** A newcomer that is excused: a's start times out, a leaves, the error is reset, b
      takes the slot, and the next reset counts b as done without asking it. Nothing is
      published late. */
  lemma NewcomerIsExcused(kind: Kind, a: string, b: string) returns (v: World, w: World)
    requires kind != Unused && |a| <= NAME_MAX && |b| <= NAME_MAX
    ensures Init(v) && Leads(v, w)
    ensures w.m.state == Resetting && w.pending == [] && |w.m.slots| == |w.last| == SLOTS
    ensures w.m.slots[0].kind == kind && w.m.slots[0].name == b
    ensures w.m.slots[0].feedback && w.last[0] == None && AllFeedback(w.m.slots)
  {
    hide OneSlot, Leads, Next, Init, AllFeedback;
    var failed := Asset(kind, a).(event := ErrorEvent, feedback := true);
    var left := failed.(kind := Unused);
    var sb := failed.(name := b);
    var w1;
    v, w1 := FailsAtStart(kind, a);
    UnregisterFirst(failed, true);
    LeadsThen(v, w1, Unregister(a));
    var w2 := OneSlot(Error, 0, left, [], true);
    var w3 := TriggersAndPublishes(Error, 0, left, [], true, ResetSim);
    LeadsOn(v, w2, w3);
    RegisterFirst(left, b, kind, true);
    LeadsThen(v, w3, Register(b, kind, 0));
    var w4 := OneSlot(Stopped, 1, sb, [], true);
    w := TriggersAndPublishes(Stopped, 1, sb, [], true, ResetSim);
    LeadsOn(v, w4, w);
    OneSlotShape(Resetting, 1, sb, [], true);
  }

  /** A timeout is announced, but its publication waits while the error is reset and the
      simulation started again, with everything about these published. */
  lemma StartsWithLateError(kind: Kind, a: string) returns (v: World, w: World)
    requires kind != Unused && |a| <= NAME_MAX
    ensures Init(v) && Leads(v, w)
    ensures w == OneSlot(Runnable, 1, Asset(kind, a).(event := StartEvent), [Pending(ErrorEvent, 0)], false)
  {
    hide OneSlot, Leads, Next, Init, AllFeedback;
    var s := Asset(kind, a);
    v := OneSlot(Stopped, 0, BLANK, [], true);
    StartsBlank(true);
    RegisterFirst(BLANK, a, kind, true);
    LeadsByStep(v, Register(a, kind, 0));
    var w1 := OneSlot(Stopped, 1, s, [], true);
    var w2 := TriggersAndPublishes(Stopped, 1, s, [], true, StartSim);
    LeadsOn(v, w1, w2);
    Announces(Runnable, 1, s.(event := StartEvent), [], true, TimeOut);
    LeadsThen(v, w2, TimeOut);
    var late := [Pending(ErrorEvent, 0)];
    assert late[0].event == ErrorEvent && !NoForcing(late);
    assert [] + late == late;
    var w3 := OneSlot(Error, 1, s.(event := StartEvent), late, true);
    var w4 := TriggersAndPublishes(Error, 1, s.(event := StartEvent), late, true, ResetSim);
    LeadsOn(v, w3, w4);
    w := TriggersAndPublishes(Stopped, 1, s.(event := ResetEvent), late, false, StartSim);
    LeadsOn(v, w4, w);
  }

  /** A late Error: it sets the flag, and the simulation runs without any feedback. */
  lemma LateErrorStartsUnasked(kind: Kind, a: string) returns (v: World, w: World)
    requires kind != Unused && |a| <= NAME_MAX
    ensures Init(v) && Leads(v, w) && Enabled(w, HandleEvents)
    ensures w.m.state == Runnable && Next(w, HandleEvents).m.state == Running && w.pending == [] && !w.clean
    ensures w.m.slots[0].name == a && IsUsed(w.m.slots[0]) && w.last[0] == None
  {
    hide OneSlot, Leads, Next, Init, AllFeedback;
    var late := [Pending(ErrorEvent, 0)];
    var s := Asset(kind, a);
    var w1;
    v, w1 := StartsWithLateError(kind, a);
    PublishesOne(Runnable, 1, s.(event := StartEvent), late, false, 0);
    assert late[..0] + late[1..] == [];
    w := OneSlot(Runnable, 1, s.(event := ErrorEvent, feedback := true), [], false);
    LeadsOn(v, w1, w);
    OneSlotShape(Runnable, 1, s.(event := ErrorEvent, feedback := true), [], false);
    HandledRuns(w);
  }

  /** Asset a agrees to the start, the simulation runs, and is told to stop. */
  lemma RunsAndStops(slot: Slot, ps: seq<Pending>, c: bool) returns (w: World)
    requires IsUsed(slot)
    ensures Leads(OneSlot(Runnable, 1, slot, ps, c), w)
    ensures w == OneSlot(Stopping, 1, slot.(event := NoEvent, feedback := false, updateTime := 0),
                         ps + [Pending(StopEvent, 0)], NoForcing(ps))
  {
    var w0 := OneSlot(Runnable, 1, slot, ps, c);
    var agrees := Feedback(slot.name, Reply(Runnable, true), 0);
    SameNameMeans(slot.name, slot.name);
    var w1 := Next(w0, agrees);
    var w2 := Next(w1, HandleEvents);
    hide Leads, NoForcing;
    LeadsByStep(w0, agrees);
    LeadsThen(w0, w1, HandleEvents);
    w := Next(w2, StopSim);
    LeadsThen(w0, w2, StopSim);
    var told := slot.(event := NoEvent, feedback := false, updateTime := 0);
    assert w.m.slots == OneSlot(Stopping, 1, told, w.pending, w.clean).m.slots;
  }

  /** The same late Error ends a stop: asset a has agreed to the start only, and the
      simulation has stopped before the Stop is even published. */
  lemma LateErrorStopsUnasked(kind: Kind, a: string) returns (v: World, w: World)
    requires kind != Unused && |a| <= NAME_MAX
    ensures Init(v) && Leads(v, w) && Enabled(w, HandleEvents)
    ensures w.m.state == Stopping && Next(w, HandleEvents).m.state == Stopped && !w.clean
    ensures w.m.slots[0].name == a && IsUsed(w.m.slots[0]) && w.last[0] == None
  {
    hide OneSlot, Leads, Next, Init, AllFeedback;
    var late := [Pending(ErrorEvent, 0)];
    assert late[0].event == ErrorEvent && !NoForcing(late);
    var s := Asset(kind, a);
    var w1;
    v, w1 := StartsWithLateError(kind, a);
    var w2 := RunsAndStops(s.(event := StartEvent), late, false);
    LeadsOn(v, w1, w2);
    var both := late + [Pending(StopEvent, 0)];
    PublishesOne(Stopping, 1, s, both, false, 0);
    var rest := both[..0] + both[1..];
    w := OneSlot(Stopping, 1, s.(event := ErrorEvent, feedback := true), rest, false);
    LeadsOn(v, w2, w);
    OneSlotShape(Stopping, 1, s.(event := ErrorEvent, feedback := true), rest, false);
    HandledRuns(w);
  }

  lemma HandledRuns(w: World)
    requires |w.m.slots| == |w.last| == SLOTS && Asked(w.m.state) && AllFeedback(w.m.slots)
    ensures Next(w, HandleEvents).m.state == (if w.m.state == Runnable then Running else Stopped)
  {
  }

  /** A late Reset is enough: the error is published and reset, the simulation started,
      and the Reset reaches the failed slot before the Start does. */
  lemma LateResetStartsUnasked(kind: Kind, a: string) returns (v: World, w: World)
    requires kind != Unused && |a| <= NAME_MAX
    ensures Init(v) && Leads(v, w) && Enabled(w, HandleEvents)
    ensures w.m.state == Runnable && Next(w, HandleEvents).m.state == Running && !w.clean
    ensures w.m.slots[0].name == a && IsUsed(w.m.slots[0]) && w.last[0] == None
  {
    hide OneSlot, Leads, Next, Init, AllFeedback;
    var failed := Asset(kind, a).(event := ErrorEvent, feedback := true);
    var marked := failed.(feedback := false);
    var w1;
    v, w1 := FailsAtStart(kind, a);
    Announces(Error, 1, failed, [], true, ResetSim);
    LeadsThen(v, w1, ResetSim);
    var late := [Pending(ResetEvent, 0)];
    assert [] + late == late;
    var w2 := OneSlot(Stopped, 1, marked, late, true);
    Announces(Stopped, 1, marked, late, true, StartSim);
    LeadsThen(v, w2, StartSim);
    var both := late + [Pending(StartEvent, 0)];
    var w3 := OneSlot(Runnable, 1, marked, both, false);
    PublishesOne(Runnable, 1, marked, both, false, 0);
    w := OneSlot(Runnable, 1, failed, both[..0] + both[1..], false);
    LeadsOn(v, w3, w);
    OneSlotShape(Runnable, 1, failed, both[..0] + both[1..], false);
    HandledRuns(w);
  }
}
