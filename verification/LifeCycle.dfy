/** The shared master data: the asset registry, the simulation state, and the
    events and feedback that move it. Registering, feedback, handling and the first
    half of a trigger are one critical section of the master lock each; the events of a
    trigger are published after it, without the lock and slot by slot. */
module LifeCycle {
  import opened Common
  import opened Names

  datatype SimState = Stopped | Runnable | Running | Stopping | Resetting | Error | Terminated | Any
  datatype Event = NoEvent | StartEvent | StopEvent | ResetEvent | ErrorEvent
  datatype Kind = Unused | Inside | Outside

  /** assets[i] and assets_ev[i] together. */
  datatype Slot = Slot(kind: Kind, id: int, name: string, event: Event, feedback: bool, ctime: int, updateTime: int)

  datatype Master = Master(state: SimState, assetNum: int, slots: seq<Slot>)

  predicate IsUsed(s: Slot) { s.kind != Unused }

  predicate HasName(s: Slot, name: string) {
    IsUsed(s) && SameName(s.name, name)
  }

  /** The first used slot of that name at or after i, or -1. */
  function Find(slots: seq<Slot>, name: string, i: nat): (r: int)
    requires i <= |slots|
    ensures r == -1 || (i <= r < |slots| && HasName(slots[r], name))
    decreases |slots| - i
  {
    if i == |slots| then -1 else if HasName(slots[i], name) then i else Find(slots, name, i + 1)
  }

  function FindUnused(slots: seq<Slot>, i: nat): (r: int)
    requires i <= |slots|
    ensures r == -1 || (i <= r < |slots| && !IsUsed(slots[r]))
    decreases |slots| - i
  {
    if i == |slots| then -1 else if !IsUsed(slots[i]) then i else FindUnused(slots, i + 1)
  }

  function CountUsed(slots: seq<Slot>): nat {
    if slots == [] then 0 else CountUsed(slots[..|slots| - 1]) + if IsUsed(slots[|slots| - 1]) then 1 else 0
  }

  predicate AllFeedback(slots: seq<Slot>) {
    forall i :: 0 <= i < |slots| && IsUsed(slots[i]) ==> slots[i].feedback
  }

  // ----- what each operation does -----

  predicate MayAlloc(m: Master, name: string, kind: Kind) {
    && kind != Unused && |name| <= NAME_MAX
    && m.state == Stopped && Find(m.slots, name, 0) == -1 && m.assetNum < SLOTS
    && FindUnused(m.slots, 0) >= 0
  }

  /** A new asset starts at time 0; the slot's event and feedback are whatever its
      last occupant left. */
  function Alloc(m: Master, name: string, kind: Kind, clock: int): Master {
    if !MayAlloc(m, name, kind) then m
    else
      var i := FindUnused(m.slots, 0);
      m.(slots := m.slots[i := m.slots[i].(kind := kind, id := i, name := name, ctime := 0, updateTime := clock)],
         assetNum := m.assetNum + 1)
  }

  predicate MayFree(m: Master, name: string) {
    (m.state == Stopped || m.state == Error) && Find(m.slots, name, 0) >= 0
  }

  function Free(m: Master, name: string): Master {
    if !MayFree(m, name) then m
    else
      var i := Find(m.slots, name, 0);
      m.(slots := m.slots[i := m.slots[i].(kind := Unused)], assetNum := m.assetNum - 1)
  }

  /** Publishing an event to one slot. */
  function Publish(s: Slot, event: Event): Slot {
    if !IsUsed(s) then s
    else match event
      case ResetEvent => if s.event == ErrorEvent then s.(feedback := true) else s.(event := event, feedback := false)
      case StartEvent => s.(event := event, feedback := false)
      case StopEvent => s.(event := event, feedback := false)
      case ErrorEvent => s.(event := event, feedback := true)
      case NoEvent => s
  }

  function ClearFeedback(s: Slot): Slot { if IsUsed(s) then s.(feedback := false) else s }

  function ClearAll(slots: seq<Slot>): (r: seq<Slot>)
    ensures |r| == |slots| && forall i :: 0 <= i < |slots| ==> r[i] == ClearFeedback(slots[i])
  {
    seq(|slots|, i requires 0 <= i < |slots| => ClearFeedback(slots[i]))
  }

  function PublishAll(slots: seq<Slot>, event: Event): (r: seq<Slot>)
    ensures |r| == |slots| && forall i :: 0 <= i < |slots| ==> r[i] == Publish(slots[i], event)
  {
    seq(|slots|, i requires 0 <= i < |slots| => Publish(slots[i], event))
  }

  /** `trigger_event`: from the expected state, or to Error from any. */
  predicate Triggers(m: Master, from: SimState, to: SimState) { m.state == from || to == Error }

  /** Its locked half: the new state, and all feedback cleared. */
  function Announce(m: Master, from: SimState, to: SimState): Master {
    if !Triggers(m, from, to) then m
    else m.(state := to, slots := if m.state == from then ClearAll(m.slots) else m.slots)
  }

  /** Both halves, undisturbed. */
  function Trigger(m: Master, from: SimState, to: SimState, event: Event): Master {
    if !Triggers(m, from, to) then m
    else
      var announced := Announce(m, from, to);
      announced.(slots := PublishAll(announced.slots, event))
  }

  function Reset(m: Master): Master {
    if m.state == Stopped then Trigger(m, Stopped, Resetting, ResetEvent)
    else if m.state == Error then Trigger(m, Error, Stopped, ResetEvent)
    else m
  }

  /** `feedback`: counts only in the expected state; any call retires the event. */
  function GiveFeedback(m: Master, name: string, isOk: bool, expected: SimState, clock: int): Master {
    var i := Find(m.slots, name, 0);
    if i < 0 then m
    else
      var s := m.slots[i].(updateTime := clock, feedback := m.state == expected && isOk, event := NoEvent);
      m.(slots := m.slots[i := s])
  }

  /** `notify_simtime`: an asset's report of its time; unknown names are ignored. */
  function ReportTime(m: Master, name: string, time: int, clock: int): Master {
    var i := Find(m.slots, name, 0);
    if i < 0 then m else m.(slots := m.slots[i := m.slots[i].(ctime := time, updateTime := clock)])
  }

  predicate NeedsHandling(s: SimState) { s == Runnable || s == Stopping || s == Resetting }

  /** `do_event_handling_nolock`: a transitional state ends when every asset has fed back. */
  function Handle(m: Master): Master {
    if !NeedsHandling(m.state) || !AllFeedback(m.slots) then m
    else m.(state := if m.state == Runnable then Running else Stopped)
  }
}
