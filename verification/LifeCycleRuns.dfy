/** What every run of the life cycle keeps: a consistent registry, a membership
    that is frozen while a simulation is under way, and state changes that rest on
    every asset's own feedback. */
module LifeCycleRuns {
  import opened Common
  import opened Names
  import opened LifeCycle

  /** A feedback call: start_feedback, stop_feedback and reset_feedback expect
      Runnable, Stopping and Resetting. */
  datatype Reply = Reply(expected: SimState, isOk: bool)

  /** A publication that some process has yet to finish: slots from `next` on. */
  datatype Pending = Pending(event: Event, next: nat)

  /** `last[i]`: the latest feedback call of slot i since the last trigger. `clean`: at
      that trigger no Error or Reset was still being published. */
  datatype World = World(m: Master, last: seq<Option<Reply>>, pending: seq<Pending>, clean: bool)

  datatype Step =
    | Register(name: string, kind: Kind, clock: int)
    | Unregister(name: string)
    | StartSim
    | StopSim
    | ResetSim
    | TimeOut                                        // some asset is late: everybody fails
    | Deliver(which: nat)                            // a publication reaches its next slot
    | Feedback(name: string, reply: Reply, clock: int)
    | NotifyTime(name: string, time: int, clock: int)
    | HandleEvents

  predicate Enabled(w: World, step: Step) {
    && |w.m.slots| == |w.last| == SLOTS
    && (step.Feedback? ==> NeedsHandling(step.reply.expected))
    && (step.Deliver? ==> step.which < |w.pending| && w.pending[step.which].next < SLOTS)
  }

  function NoReplies(): seq<Option<Reply>> { seq(SLOTS, i => None) }

  /** Publications that can set a feedback flag. */
  predicate NoForcing(pending: seq<Pending>) {
    forall p :: 0 <= p < |pending| ==> pending[p].event != ErrorEvent && pending[p].event != ResetEvent
  }

  function Announced(w: World, from: SimState, to: SimState, event: Event): World {
    if !Triggers(w.m, from, to) then w
    else World(Announce(w.m, from, to), NoReplies(), w.pending + [Pending(event, 0)], NoForcing(w.pending))
  }

  function Delivered(pending: seq<Pending>, p: nat): seq<Pending>
    requires p < |pending|
  {
    if pending[p].next + 1 < SLOTS then pending[p := pending[p].(next := pending[p].next + 1)]
    else pending[..p] + pending[p + 1..]
  }

  function Next(w: World, step: Step): World
    requires Enabled(w, step)
  {
    match step
    case Register(name, kind, clock) => w.(m := Alloc(w.m, name, kind, clock))
    case Unregister(name) => w.(m := Free(w.m, name))
    case StartSim => Announced(w, Stopped, Runnable, StartEvent)
    case StopSim => Announced(w, Running, Stopping, StopEvent)
    case ResetSim =>
      if w.m.state == Stopped then Announced(w, Stopped, Resetting, ResetEvent)
      else if w.m.state == Error then Announced(w, Error, Stopped, ResetEvent)
      else w
    case TimeOut => Announced(w, Any, Error, ErrorEvent) // no state equals Any: no feedback is cleared
    case Deliver(p) =>
      var k := w.pending[p].next;
      w.(m := w.m.(slots := w.m.slots[k := Publish(w.m.slots[k], w.pending[p].event)]),
         pending := Delivered(w.pending, p))
    case Feedback(name, reply, clock) =>
      var i := Find(w.m.slots, name, 0);
      if i < 0 then w
      else w.(m := GiveFeedback(w.m, name, reply.isOk, reply.expected, clock), last := w.last[i := Some(reply)])
    case NotifyTime(name, time, clock) => w.(m := ReportTime(w.m, name, time, clock))
    case HandleEvents => w.(m := Handle(w.m))
  }

  /** hako::init zeroes the whole area. */
  predicate Init(w: World) {
    && w.m.state == Stopped && w.m.assetNum == 0
    && w.m.slots == seq(SLOTS, i => Slot(Unused, 0, "", NoEvent, false, 0, 0))
    && w.last == NoReplies() && w.pending == []
  }

  predicate IsRun(ws: seq<World>, steps: seq<Step>) {
    && IsPath(ws, steps) && Init(ws[0])
  }

  predicate IsPath(ws: seq<World>, steps: seq<Step>) {
    && |ws| == |steps| + 1
    && forall i :: 0 <= i < |steps| ==> Enabled(ws[i], steps[i]) && ws[i + 1] == Next(ws[i], steps[i])
  }

  // ----- registry -----

  predicate Registry(m: Master) {
    && |m.slots| == SLOTS
    && m.assetNum == CountUsed(m.slots)
    && (forall i :: 0 <= i < SLOTS && IsUsed(m.slots[i]) ==> m.slots[i].id == i && |m.slots[i].name| <= NAME_MAX)
    && (forall i, j :: 0 <= i < j < SLOTS && IsUsed(m.slots[i]) && IsUsed(m.slots[j]) ==>
          !SameName(m.slots[i].name, m.slots[j].name))
  }

  lemma {:induction false} CountBound(slots: seq<Slot>)
    ensures CountUsed(slots) <= |slots|
  {
    if slots != [] {
      CountBound(slots[..|slots| - 1]);
    }
  }

  lemma {:induction false} CountUpdate(slots: seq<Slot>, i: nat, s: Slot)
    requires i < |slots|
    ensures CountUsed(slots[i := s]) ==
            CountUsed(slots) - (if IsUsed(slots[i]) then 1 else 0) + (if IsUsed(s) then 1 else 0)
  {
    var n := |slots| - 1;
    if i == n {
      assert slots[i := s][..n] == slots[..n];
    } else {
      assert slots[i := s][..n] == slots[..n][i := s];
      CountUpdate(slots[..n], i, s);
    }
  }

  lemma {:induction false} CountSame(a: seq<Slot>, b: seq<Slot>)
    requires |a| == |b| && forall i :: 0 <= i < |a| ==> IsUsed(a[i]) == IsUsed(b[i])
    ensures CountUsed(a) == CountUsed(b)
  {
    if a != [] {
      CountSame(a[..|a| - 1], b[..|b| - 1]);
    }
  }

  lemma {:induction false} FindMisses(slots: seq<Slot>, name: string, i: nat, j: nat)
    requires i <= j < |slots| && Find(slots, name, i) == -1
    ensures !HasName(slots[j], name)
    decreases |slots| - i
  {
    if i < j {
      FindMisses(slots, name, i + 1, j);
    }
  }

  lemma AllocKeepsRegistry(m: Master, name: string, kind: Kind, clock: int)
    requires Registry(m)
    ensures Registry(Alloc(m, name, kind, clock))
  {
    if MayAlloc(m, name, kind) {
      var i := FindUnused(m.slots, 0);
      var m' := Alloc(m, name, kind, clock);
      CountUpdate(m.slots, i, m'.slots[i]);
      forall j | 0 <= j < SLOTS && IsUsed(m.slots[j])
        ensures !SameName(m.slots[j].name, name) && !SameName(name, m.slots[j].name)
      {
        FindMisses(m.slots, name, 0, j);
        SameNameMeans(m.slots[j].name, name);
        SameNameMeans(name, m.slots[j].name);
      }
    }
  }

  lemma FreeKeepsRegistry(m: Master, name: string)
    requires Registry(m)
    ensures Registry(Free(m, name))
  {
    if MayFree(m, name) {
      var i := Find(m.slots, name, 0);
      CountUpdate(m.slots, i, m.slots[i].(kind := Unused));
    }
  }

  /** Same occupants, whatever happened to their events and times. */
  predicate SameMembers(a: Master, b: Master) {
    && |a.slots| == |b.slots| && a.assetNum == b.assetNum
    && forall i :: 0 <= i < |a.slots| ==>
         a.slots[i].kind == b.slots[i].kind && a.slots[i].id == b.slots[i].id && a.slots[i].name == b.slots[i].name
  }

  lemma SameMembersKeepRegistry(a: Master, b: Master)
    requires Registry(a) && SameMembers(a, b)
    ensures Registry(b)
  {
    CountSame(a.slots, b.slots);
  }

  lemma OthersKeepMembers(w: World, step: Step)
    requires Enabled(w, step) && !step.Register? && !step.Unregister?
    ensures SameMembers(w.m, Next(w, step).m)
  {
  }

  lemma StepKeepsRegistry(w: World, step: Step)
    requires Registry(w.m) && Enabled(w, step)
    ensures Registry(Next(w, step).m)
  {
    hide Registry;
    match step
    case Register(name, kind, clock) => AllocKeepsRegistry(w.m, name, kind, clock);
    case Unregister(name) => FreeKeepsRegistry(w.m, name);
    case _ =>
      OthersKeepMembers(w, step);
      SameMembersKeepRegistry(w.m, Next(w, step).m);
  }

  // ----- feedback -----

  /** A set feedback flag in a transitional state is the asset's own doing, or the slot
      bears the Error event: then a publication has set the flag. */
  predicate Earned(m: Master, s: Slot, last: Option<Reply>) {
    IsUsed(s) && s.feedback && NeedsHandling(m.state) ==> last == Some(Reply(m.state, true)) || s.event == ErrorEvent
  }

  predicate AllEarned(w: World) {
    && |w.m.slots| == |w.last| == SLOTS
    && forall i :: 0 <= i < SLOTS ==> Earned(w.m, w.m.slots[i], w.last[i])
  }

  lemma StepKeepsEarned(w: World, step: Step)
    requires AllEarned(w) && Enabled(w, step)
    ensures AllEarned(Next(w, step))
  {
    hide Find, FindUnused;
  }

  /** After a clean start or stop nothing under way can set a flag, so every flag is the
      asset's own doing. */
  predicate Asked(s: SimState) { s == Runnable || s == Stopping }

  predicate OwnDoing(w: World) {
    && |w.m.slots| == |w.last| == SLOTS
    && (w.clean && Asked(w.m.state) ==>
          && NoForcing(w.pending)
          && forall i :: 0 <= i < SLOTS && IsUsed(w.m.slots[i]) && w.m.slots[i].feedback ==>
               w.last[i] == Some(Reply(w.m.state, true)))
  }

  lemma StepKeepsOwnDoing(w: World, step: Step)
    requires OwnDoing(w) && Enabled(w, step)
    ensures OwnDoing(Next(w, step))
  {
    hide Find, FindUnused;
  }

  lemma {:induction false} InvAlways(ws: seq<World>, steps: seq<Step>, i: nat)
    requires IsRun(ws, steps) && i < |ws|
    ensures Registry(ws[i].m) && AllEarned(ws[i]) && OwnDoing(ws[i])
  {
    hide Registry, AllEarned, OwnDoing, Next, Enabled, Init;
    if i == 0 {
      InitInv(ws[0]);
    } else {
      InvAlways(ws, steps, i - 1);
      StepKeepsRegistry(ws[i - 1], steps[i - 1]);
      StepKeepsEarned(ws[i - 1], steps[i - 1]);
      StepKeepsOwnDoing(ws[i - 1], steps[i - 1]);
    }
  }

  lemma InitInv(w: World)
    requires Init(w)
    ensures Registry(w.m) && AllEarned(w) && OwnDoing(w)
  {
    NoneUsed(w.m.slots);
  }

  lemma {:induction false} NoneUsed(slots: seq<Slot>)
    requires forall i :: 0 <= i < |slots| ==> !IsUsed(slots[i])
    ensures CountUsed(slots) == 0
  {
    if slots != [] {
      NoneUsed(slots[..|slots| - 1]);
    }
  }

  // ----- theorems -----

  /** In a consistent registry a used slot is found by its own name. */
  lemma FindsItself(m: Master, k: nat)
    requires Registry(m) && k < SLOTS && IsUsed(m.slots[k])
    ensures Find(m.slots, m.slots[k].name, 0) == k
  {
    var name := m.slots[k].name;
    var j := Find(m.slots, name, 0);
    SameNameMeans(name, name);
    if j == -1 {
      FindMisses(m.slots, name, 0, k);
    } else {
      SameNameMeans(m.slots[j].name, name);
      SameNameMeans(name, m.slots[j].name);
    }
  }

  /** asset_num is the number of used slots and never exceeds the maximum, ids are
      slot numbers, and a name belongs to at most one slot, the one a lookup finds;
      two slots' names differ even as C sees them. */
  lemma RegistryHolds(ws: seq<World>, steps: seq<Step>, i: nat, k: nat)
    requires IsRun(ws, steps) && i < |ws| && k < SLOTS
    ensures Registry(ws[i].m) && ws[i].m.assetNum <= SLOTS
    ensures IsUsed(ws[i].m.slots[k]) ==> Find(ws[i].m.slots, ws[i].m.slots[k].name, 0) == k
  {
    InvAlways(ws, steps, i);
    CountBound(ws[i].m.slots);
    if IsUsed(ws[i].m.slots[k]) {
      FindsItself(ws[i].m, k);
    }
  }

  /** Nobody joins or leaves while a simulation is starting, running, stopping or resetting. */
  lemma MembershipIsFrozen(ws: seq<World>, steps: seq<Step>, i: nat)
    requires IsRun(ws, steps) && i < |steps|
    requires NeedsHandling(ws[i].m.state) || ws[i].m.state == Running
    ensures SameMembers(ws[i].m, ws[i + 1].m)
  {
    assert Enabled(ws[i], steps[i]);
    if !steps[i].Register? && !steps[i].Unregister? {
      OthersKeepMembers(ws[i], steps[i]);
    }
  }

  /** Only event handling ends a transitional state other than in Error, and then
      every asset's feedback is in. */
  lemma OnlyHandlingMoves(w: World, step: Step)
    requires Enabled(w, step) && NeedsHandling(w.m.state)
    requires Next(w, step).m.state != w.m.state && Next(w, step).m.state != Error
    ensures step == HandleEvents && AllFeedback(w.m.slots) && Next(w, step).m == Handle(w.m)
  {
  }

  /** The simulation runs only if each registered asset's latest feedback since the
      start was start_feedback(true), provided that no Error or Reset was still being
      published when it was started. */
  lemma RunningIsAgreed(ws: seq<World>, steps: seq<Step>, i: nat, k: nat)
    requires IsRun(ws, steps) && i < |steps| && k < SLOTS
    requires ws[i].m.state == Runnable && ws[i + 1].m.state == Running
    ensures |ws[i].m.slots| == |ws[i].last| == SLOTS
    ensures ws[i].clean && IsUsed(ws[i].m.slots[k]) ==> ws[i].last[k] == Some(Reply(Runnable, true))
    ensures IsUsed(ws[i].m.slots[k]) ==>
              ws[i].last[k] == Some(Reply(Runnable, true)) || ws[i].m.slots[k].event == ErrorEvent
  {
    InvAlways(ws, steps, i);
    OnlyHandlingMoves(ws[i], steps[i]);
    assert Earned(ws[i].m, ws[i].m.slots[k], ws[i].last[k]);
  }

  /** It has stopped only if each one's was stop_feedback(true), provided the same of
      the stop. */
  lemma StoppedIsAgreed(ws: seq<World>, steps: seq<Step>, i: nat, k: nat)
    requires IsRun(ws, steps) && i < |steps| && k < SLOTS
    requires ws[i].m.state == Stopping && ws[i + 1].m.state == Stopped
    ensures |ws[i].m.slots| == |ws[i].last| == SLOTS
    ensures ws[i].clean && IsUsed(ws[i].m.slots[k]) ==> ws[i].last[k] == Some(Reply(Stopping, true))
    ensures IsUsed(ws[i].m.slots[k]) ==>
              ws[i].last[k] == Some(Reply(Stopping, true)) || ws[i].m.slots[k].event == ErrorEvent
  {
    InvAlways(ws, steps, i);
    OnlyHandlingMoves(ws[i], steps[i]);
    assert Earned(ws[i].m, ws[i].m.slots[k], ws[i].last[k]);
  }

  /** And it is reset only if each one's was reset_feedback(true), assets marked with
      the Error event excepted, whatever is being published. */
  lemma ResetIsAgreed(ws: seq<World>, steps: seq<Step>, i: nat, k: nat)
    requires IsRun(ws, steps) && i < |steps| && k < SLOTS
    requires ws[i].m.state == Resetting && ws[i + 1].m.state == Stopped
    ensures |ws[i].m.slots| == |ws[i].last| == SLOTS
    ensures IsUsed(ws[i].m.slots[k]) ==>
              ws[i].last[k] == Some(Reply(Resetting, true)) || ws[i].m.slots[k].event == ErrorEvent
  {
    InvAlways(ws, steps, i);
    OnlyHandlingMoves(ws[i], steps[i]);
    assert Earned(ws[i].m, ws[i].m.slots[k], ws[i].last[k]);
  }

  /** Only a trigger leads into Runnable or Stopping. */
  lemma EnteredByTrigger(w: World, step: Step)
    requires Enabled(w, step) && Asked(Next(w, step).m.state)
    ensures var v := Next(w, step);
            || (v.m.state == w.m.state && v.clean == w.clean)
            || (step == (if v.m.state == Runnable then StartSim else StopSim)
                && w.m.state == (if v.m.state == Runnable then Stopped else Running)
                && v.clean == NoForcing(w.pending))
  {
    hide Find, FindUnused, Publish, NoForcing;
  }

  /** What `clean` stands for: the trigger that led to the present Runnable or Stopping
      found no Error and no Reset publication unfinished. */
  lemma {:induction false} TheTrigger(ws: seq<World>, steps: seq<Step>, i: nat) returns (j: nat)
    requires IsRun(ws, steps) && i < |ws| && Asked(ws[i].m.state)
    ensures j < i && steps[j] == (if ws[i].m.state == Runnable then StartSim else StopSim)
    ensures ws[j].m.state == (if ws[i].m.state == Runnable then Stopped else Running)
    ensures ws[i].clean == NoForcing(ws[j].pending)
    ensures forall n :: j < n <= i ==> ws[n].m.state == ws[i].m.state
  {
    hide Next, Enabled, NoForcing, NoReplies;
    EnteredByTrigger(ws[i - 1], steps[i - 1]);
    if ws[i - 1].m.state == ws[i].m.state {
      j := TheTrigger(ws, steps, i - 1);
    } else {
      j := i - 1;
    }
  }

  // ----- who is excused from a reset -----

  /** When a reset is published to a used slot, the slot is excused iff it bears the
      Error mark at that moment, whoever earned the mark; every other one is asked. */
  lemma ExcusedIffMarked(ws: seq<World>, steps: seq<Step>, i: nat, k: nat)
    requires IsRun(ws, steps) && i < |steps| && Publishes(ws[i], steps[i], ResetEvent, k)
    ensures k < SLOTS && |ws[i].m.slots| == |ws[i + 1].m.slots| == SLOTS
    ensures var before, after := ws[i].m.slots[k], ws[i + 1].m.slots[k];
            IsUsed(before) ==>
              && (after.feedback <==> before.event == ErrorEvent)
              && after.event == (if before.event == ErrorEvent then ErrorEvent else ResetEvent)
  {
    assert Enabled(ws[i], steps[i]);
  }

  /** This step publishes this event to this slot. */
  predicate Publishes(w: World, step: Step, event: Event, k: nat) {
    step.Deliver? && step.which < |w.pending| && w.pending[step.which] == Pending(event, k)
  }

  /** Only a published event or the slot's own feedback call overwrites its mark;
      registering and unregistering do not. */
  predicate LeavesMark(w: World, step: Step, k: nat)
    requires Enabled(w, step)
  {
    match step
    case Deliver(p) => w.pending[p].next != k
    case Feedback(name, reply, clock) => Find(w.m.slots, name, 0) != k
    case _ => true
  }

  lemma {:induction false} MarkStays(ws: seq<World>, steps: seq<Step>, j: nat, i: nat, k: nat)
    requires IsRun(ws, steps) && j <= i < |ws| && k < SLOTS
    requires forall n :: j <= n < i ==> LeavesMark(ws[n], steps[n], k)
    ensures |ws[j].m.slots| == |ws[i].m.slots| == SLOTS
    ensures ws[i].m.slots[k].event == ws[j].m.slots[k].event
    decreases i - j
  {
    InvAlways(ws, steps, j);
    hide Find, FindUnused, Registry, AllEarned;
    if j < i {
      assert LeavesMark(ws[j], steps[j], k);
      MarkStays(ws, steps, j + 1, i, k);
    }
  }

  /** So the exception is wider than it looks: an asset of any kind registered in
      slot k at step j is excused from a later reset iff the slot's last occupant
      left it marked, as long as no event and no feedback of its own came between. */
  lemma NewcomerInheritsMark(ws: seq<World>, steps: seq<Step>, j: nat, i: nat, k: nat)
    requires IsRun(ws, steps) && j < i < |steps| && k < SLOTS
    requires steps[j].Register? && MayAlloc(ws[j].m, steps[j].name, steps[j].kind) && k == FindUnused(ws[j].m.slots, 0)
    requires forall n :: j < n < i ==> LeavesMark(ws[n], steps[n], k)
    requires Publishes(ws[i], steps[i], ResetEvent, k)
    ensures |ws[j].m.slots| == |ws[i].m.slots| == |ws[i + 1].m.slots| == SLOTS
    ensures IsUsed(ws[i].m.slots[k]) ==>
              (ws[i + 1].m.slots[k].feedback <==> ws[j].m.slots[k].event == ErrorEvent)
  {
    InvAlways(ws, steps, j);
    assert LeavesMark(ws[j], steps[j], k);
    MarkStays(ws, steps, j, i, k);
    ExcusedIffMarked(ws, steps, i, k);
  }
}
