/** What the life cycle owes its users: commands reach the assets, an asset's answer
    counts, and whoever has been heard of lately is not late. */
module LifeCycleAnswers {
  import opened Common
  import opened Names
  import opened LifeCycle
  import opened LifeCycleRuns

  // ----- registering -----

  /** An asset is admitted iff the simulation is stopped, its name is not too long and
      not taken, and a slot is left; it gets a slot nobody uses, at time 0, and nobody
      else's slot changes. */
  lemma Registers(m: Master, name: string, kind: Kind, clock: int) returns (i: nat)
    requires Registry(m)
    ensures var m' := Alloc(m, name, kind, clock);
            if kind != Unused && |name| <= 256 && m.state == Stopped && m.assetNum < 16
               && forall k :: 0 <= k < SLOTS && IsUsed(m.slots[k]) ==> !SameName(m.slots[k].name, name)
            then
              && i < SLOTS && |m'.slots| == SLOTS && !IsUsed(m.slots[i])
              && m'.slots[i] == Slot(kind, i, name, m.slots[i].event, m.slots[i].feedback, 0, clock)
              && m'.assetNum == m.assetNum + 1 && m'.state == m.state
              && Find(m'.slots, name, 0) == i
              && forall k :: 0 <= k < SLOTS && k != i ==> m'.slots[k] == m.slots[k]
            else m' == m
  {
    var m' := Alloc(m, name, kind, clock);
    SomeUnused(m.slots);
    if MayAlloc(m, name, kind) {
      i := FindUnused(m.slots, 0);
      forall k | 0 <= k < SLOTS && IsUsed(m.slots[k])
        ensures !SameName(m.slots[k].name, name)
      {
        FindMisses(m.slots, name, 0, k);
      }
      SameNameMeans(name, name);
      FindFirst(m'.slots, name, 0, i);
    } else {
      i := 0;
      if Find(m.slots, name, 0) >= 0 {
        assert HasName(m.slots[Find(m.slots, name, 0)], name);
      }
    }
  }

  lemma {:induction false} FindFirst(slots: seq<Slot>, name: string, i: nat, k: nat)
    requires i <= k < |slots| && HasName(slots[k], name)
    requires forall j :: i <= j < k ==> !HasName(slots[j], name)
    ensures Find(slots, name, i) == k
    decreases k - i
  {
    if i < k {
      FindFirst(slots, name, i + 1, k);
    }
  }

  /** A slot is left iff not all are counted. */
  lemma {:induction false} SomeUnused(slots: seq<Slot>)
    ensures FindUnused(slots, 0) >= 0 <==> CountUsed(slots) < |slots|
  {
    CountBound(slots);
    if FindUnused(slots, 0) >= 0 {
      UnusedIsNotCounted(slots, FindUnused(slots, 0));
    } else {
      AllUsedFrom(slots, 0);
      AllCounted(slots);
    }
  }

  lemma {:induction false} UnusedIsNotCounted(slots: seq<Slot>, i: nat)
    requires i < |slots| && !IsUsed(slots[i])
    ensures CountUsed(slots) < |slots|
  {
    var n := |slots| - 1;
    CountBound(slots[..n]);
    if i < n {
      UnusedIsNotCounted(slots[..n], i);
    }
  }

  lemma {:induction false} AllUsedFrom(slots: seq<Slot>, i: nat)
    requires i <= |slots| && FindUnused(slots, i) == -1
    ensures forall j :: i <= j < |slots| ==> IsUsed(slots[j])
    decreases |slots| - i
  {
    if i < |slots| {
      AllUsedFrom(slots, i + 1);
    }
  }

  lemma {:induction false} AllCounted(slots: seq<Slot>)
    requires forall j :: 0 <= j < |slots| ==> IsUsed(slots[j])
    ensures CountUsed(slots) == |slots|
  {
    if slots != [] {
      AllCounted(slots[..|slots| - 1]);
    }
  }

  /** An asset is let go iff the simulation is stopped or in error and it is registered;
      then its name is free again, and nobody else's slot changes. */
  lemma Unregisters(m: Master, k: nat)
    requires Registry(m) && k < SLOTS && IsUsed(m.slots[k])
    ensures var m' := Free(m, m.slots[k].name);
            if m.state == Stopped || m.state == Error
            then m' == Master(m.state, m.assetNum - 1, m.slots[k := m.slots[k].(kind := Unused)])
                 && Find(m'.slots, m.slots[k].name, 0) == -1
            else m' == m
  {
    FindsItself(m, k);
    var name := m.slots[k].name;
    var m' := Free(m, name);
    if m.state == Stopped || m.state == Error {
      var j := Find(m'.slots, name, 0);
      if j >= 0 {
        SameNameMeans(m.slots[j].name, name);
        SameNameMeans(name, m.slots[j].name);
        assert false;
      }
    }
  }

  // ----- commands -----

  /** A start, a stop and a timeout reach every registered asset as that event, with its
      feedback down, or up for an error; a reset does so for every asset that has not
      been failed. Nobody else hears anything. */
  lemma CommandsAreTold(m: Master, from: SimState, to: SimState, event: Event, k: nat)
    requires k < |m.slots| && Triggers(m, from, to) && event != NoEvent
    ensures var m' := Trigger(m, from, to, event);
            && m'.state == to && m'.assetNum == m.assetNum && |m'.slots| == |m.slots|
            && var s, s' := m.slots[k], m'.slots[k];
               && s'.kind == s.kind && s'.id == s.id && s'.name == s.name
               && s'.ctime == s.ctime && s'.updateTime == s.updateTime
               && (!IsUsed(s) ==> s' == s)
               && (IsUsed(s) && !(event == ResetEvent && s.event == ErrorEvent) ==>
                     s'.event == event && (s'.feedback <==> event == ErrorEvent))
               && (IsUsed(s) && event == ResetEvent && s.event == ErrorEvent ==> s'.event == ErrorEvent && s'.feedback)
  {
  }

  /** Each command is obeyed exactly in its state. */
  lemma CommandsMove(w: World)
    requires |w.m.slots| == |w.last| == SLOTS
    ensures Next(w, StartSim).m.state == if w.m.state == Stopped then Runnable else w.m.state
    ensures Next(w, StopSim).m.state == if w.m.state == Running then Stopping else w.m.state
    ensures Next(w, ResetSim).m.state ==
            if w.m.state == Stopped then Resetting else if w.m.state == Error then Stopped else w.m.state
    ensures Next(w, TimeOut).m.state == Error
    ensures w.m.state == Stopped ==> Next(w, StartSim).pending == w.pending + [Pending(StartEvent, 0)]
    ensures w.m.state == Running ==> Next(w, StopSim).pending == w.pending + [Pending(StopEvent, 0)]
    ensures w.m.state == Stopped || w.m.state == Error ==>
              Next(w, ResetSim).pending == w.pending + [Pending(ResetEvent, 0)]
    ensures w.m.state != Any ==> Next(w, TimeOut).pending == w.pending + [Pending(ErrorEvent, 0)]
  {
  }

  // ----- answers -----

  /** This step neither answers for slot k, nor publishes to it, nor triggers anything. */
  predicate Undisturbed(w: World, step: Step, k: nat)
    requires Enabled(w, step)
  {
    match step
    case StartSim => w.m.state != Stopped
    case StopSim => w.m.state != Running
    case ResetSim => w.m.state != Stopped && w.m.state != Error
    case TimeOut => false
    case Deliver(p) => w.pending[p].next != k
    case Feedback(name, reply, clock) => Find(w.m.slots, name, 0) != k
    case _ => true
  }

  /** The feedback call at step j is slot k's latest one before step i, and nothing has
      been triggered or published to the slot since. */
  predicate Answered(ws: seq<World>, steps: seq<Step>, j: nat, i: nat, k: nat)
    requires IsRun(ws, steps) && i < |ws|
  {
    && j < i && steps[j].Feedback? && Find(ws[j].m.slots, steps[j].name, 0) == k
    && forall n :: j < n < i ==> Undisturbed(ws[n], steps[n], k)
  }

  function AnswerAt(steps: seq<Step>, j: nat): Option<Reply> {
    if j < |steps| && steps[j].Feedback? then Some(steps[j].reply) else None
  }

  lemma FreshAnswer(w: World, step: Step, k: nat)
    requires Enabled(w, step) && k < SLOTS && step.Feedback? && Find(w.m.slots, step.name, 0) == k
    ensures var v := Next(w, step);
            && |v.m.slots| == |v.last| == SLOTS && v.m.state == w.m.state && v.last[k] == Some(step.reply)
            && v.m.slots[k].event == NoEvent && (v.m.slots[k].feedback <==> step.reply == Reply(w.m.state, true))
  {
    hide Find, FindUnused;
  }

  lemma UndisturbedStep(w: World, step: Step, k: nat)
    requires Enabled(w, step) && k < SLOTS && Undisturbed(w, step, k)
    ensures var v := Next(w, step);
            && |v.m.slots| == |v.last| == SLOTS
            && v.m.slots[k].feedback == w.m.slots[k].feedback && v.m.slots[k].event == w.m.slots[k].event
            && v.last[k] == w.last[k]
            && (NeedsHandling(v.m.state) ==> v.m.state == w.m.state)
  {
    hide Find, FindUnused;
  }

  /** An answer stands: the flag is up iff it was a yes to the question being asked. */
  lemma {:induction false} AnswerStands(ws: seq<World>, steps: seq<Step>, j: nat, i: nat, k: nat)
    requires IsRun(ws, steps) && i < |ws| && k < SLOTS && Answered(ws, steps, j, i, k)
    ensures |ws[j].m.slots| == |ws[i].m.slots| == |ws[i].last| == SLOTS
    ensures ws[i].last[k] == Some(steps[j].reply) && ws[i].m.slots[k].event == NoEvent
    ensures ws[i].m.slots[k].feedback <==> steps[j].reply == Reply(ws[j].m.state, true)
    ensures NeedsHandling(ws[i].m.state) ==> ws[j].m.state == ws[i].m.state
  {
    hide Next, Find, NeedsHandling, Init, Undisturbed;
    assert Enabled(ws[j], steps[j]);
    if i == j + 1 {
      FreshAnswer(ws[j], steps[j], k);
    } else {
      assert Undisturbed(ws[i - 1], steps[i - 1], k);
      AnswerStands(ws, steps, j, i - 1, k);
      UndisturbedStep(ws[i - 1], steps[i - 1], k);
    }
  }

  /** Every asset's answer counts, in a start, a stop and a reset alike: if each
      registered asset k has answered, last at step at[k], then the next handling of
      events ends the transition iff all these answers were yes to the question being
      asked; and it ends in Running after a start, in Stopped otherwise. */
  lemma AnswersDecide(ws: seq<World>, steps: seq<Step>, i: nat, at: seq<nat>)
    requires IsRun(ws, steps) && i < |steps| && steps[i] == HandleEvents && NeedsHandling(ws[i].m.state)
    requires |at| == SLOTS && |ws[i].m.slots| == SLOTS
    requires forall k :: 0 <= k < SLOTS && IsUsed(ws[i].m.slots[k]) ==> Answered(ws, steps, at[k], i, k)
    ensures ws[i + 1].m.state != ws[i].m.state <==>
            forall k :: 0 <= k < SLOTS && IsUsed(ws[i].m.slots[k]) ==>
              AnswerAt(steps, at[k]) == Some(Reply(ws[i].m.state, true))
    ensures ws[i + 1].m.state != ws[i].m.state ==>
              ws[i + 1].m == ws[i].m.(state := if ws[i].m.state == Runnable then Running else Stopped)
    ensures ws[i + 1].m.state == ws[i].m.state ==> ws[i + 1] == ws[i]
  {
    hide Find, FindUnused, Init, Undisturbed;
    assert Enabled(ws[i], steps[i]);
    forall k | 0 <= k < SLOTS && IsUsed(ws[i].m.slots[k])
      ensures ws[i].m.slots[k].feedback <==> AnswerAt(steps, at[k]) == Some(Reply(ws[i].m.state, true))
    {
      AnswerStands(ws, steps, at[k], i, k);
    }
  }

  // ----- lateness -----

  /** At this step slot k is heard of: it registers, gives feedback or reports its time. */
  predicate HeardOf(w: World, step: Step, k: nat, clock: int)
    requires Enabled(w, step)
  {
    match step
    case Register(name, kind, t) => t == clock && MayAlloc(w.m, name, kind) && FindUnused(w.m.slots, 0) == k
    case Feedback(name, reply, t) => t == clock && Find(w.m.slots, name, 0) == k
    case NotifyTime(name, time, t) => t == clock && Find(w.m.slots, name, 0) == k
    case _ => false
  }

  function ClockOf(step: Step): Option<int> {
    match step
    case Register(name, kind, t) => Some(t)
    case Feedback(name, reply, t) => Some(t)
    case NotifyTime(name, time, t) => Some(t)
    case _ => None
  }

  /** The clock read at step j is not turned back before step i. */
  predicate ClockGoesOn(steps: seq<Step>, j: nat, i: nat, clock: int)
    requires j <= i <= |steps|
  {
    forall n :: j <= n < i && ClockOf(steps[n]).Some? ==> ClockOf(steps[n]).value >= clock
  }

  lemma UpdateTimeMoves(w: World, step: Step, k: nat)
    requires Enabled(w, step) && k < SLOTS
    ensures var v := Next(w, step);
            && |v.m.slots| == SLOTS
            && (v.m.slots[k].updateTime != w.m.slots[k].updateTime ==>
                  ClockOf(step).Some? && v.m.slots[k].updateTime == ClockOf(step).value)
            && (forall clock :: HeardOf(w, step, k, clock) ==> v.m.slots[k].updateTime == clock)
  {
    hide Find, FindUnused;
  }

  /** Whoever was heard of at clock c has an update time of at least c from then on. */
  lemma {:induction false} HeardOfStays(ws: seq<World>, steps: seq<Step>, j: nat, i: nat, k: nat, c: int)
    requires IsRun(ws, steps) && j < i < |ws| && k < SLOTS
    requires Enabled(ws[j], steps[j]) && HeardOf(ws[j], steps[j], k, c) && ClockGoesOn(steps, j, i, c)
    ensures |ws[i].m.slots| == SLOTS && ws[i].m.slots[k].updateTime >= c
  {
    hide Next, Enabled, HeardOf, Init;
    if i > j + 1 {
      HeardOfStays(ws, steps, j, i - 1, k, c);
    }
    UpdateTimeMoves(ws[i - 1], steps[i - 1], k);
  }

  /** So nobody heard of less than the timeout ago is late: event handling, which
      expels a used slot only if its update time plus the timeout has passed, leaves
      it alone. */
  lemma RecentIsNotLate(ws: seq<World>, steps: seq<Step>, j: nat, i: nat, k: nat, c: int, timeout: int, now: int)
    requires IsRun(ws, steps) && j < i < |ws| && k < SLOTS
    requires Enabled(ws[j], steps[j]) && HeardOf(ws[j], steps[j], k, c) && ClockGoesOn(steps, j, i, c)
    requires now < c + timeout
    ensures |ws[i].m.slots| == SLOTS && !(ws[i].m.slots[k].updateTime + timeout <= now)
  {
    HeardOfStays(ws, steps, j, i, k, c);
  }
}
