/** The master data object: fixed slot arrays updated in place, each method proved
    to do what the life cycle says. */
module MasterData {
  import opened Common
  import opened Names
  import opened LifeCycle
  import opened LifeCycleRuns

  const ASSET_TIMEOUT_USEC := 30_000_000

  class MasterData {
    var state: SimState
    var assetNum: int
    const slots: array<Slot>
    var assetTimeout: int // usec; 0 or less means the default

    ghost predicate Valid() {
      slots.Length == SLOTS
    }

    ghost function Value(): Master
      reads this, slots
    {
      Master(state, assetNum, slots[..])
    }

    /** `init`: everything zero. */
    constructor ()
      ensures Valid() && fresh(slots)
      ensures Value() == Master(Stopped, 0, seq(SLOTS, i => Slot(Unused, 0, "", NoEvent, false, 0, 0)))
    {
      state, assetNum, assetTimeout := Stopped, 0, 0;
      slots := new Slot[SLOTS](i => Slot(Unused, 0, "", NoEvent, false, 0, 0));
      new;
      assert slots[..] == seq(SLOTS, i => Slot(Unused, 0, "", NoEvent, false, 0, 0));
    }

    /** `get_asset_nolock`. */
    method GetAsset(name: string) returns (i: int)
      requires Valid()
      ensures i == Find(slots[..], name, 0)
    {
      i := 0;
      while i < SLOTS
        invariant 0 <= i <= SLOTS
        invariant Find(slots[..], name, 0) == Find(slots[..], name, i)
      {
        if HasName(slots[i], name) {
          return;
        }
        i := i + 1;
      }
      return -1;
    }

    /** `alloc_asset`. */
    method AllocAsset(name: string, kind: Kind, clock: int) returns (id: int)
      requires Valid()
      modifies this`assetNum, slots
      ensures Value() == Alloc(old(Value()), name, kind, clock)
      ensures id == if MayAlloc(old(Value()), name, kind) then FindUnused(old(slots[..]), 0) else -1
    {
      if kind == Unused || |name| > NAME_MAX {
        return -1;
      }
      var known := GetAsset(name);
      if state == Stopped && known == -1 && assetNum < SLOTS {
        var i := 0;
        while i < SLOTS
          invariant 0 <= i <= SLOTS && slots[..] == old(slots[..])
          invariant FindUnused(slots[..], 0) == FindUnused(slots[..], i)
        {
          if !IsUsed(slots[i]) {
            slots[i] := slots[i].(kind := kind, id := i, name := name, ctime := 0, updateTime := clock);
            assetNum := assetNum + 1;
            return i;
          }
          i := i + 1;
        }
      }
      return -1;
    }

    /** `free_asset`. */
    method FreeAsset(name: string) returns (ok: bool)
      requires Valid()
      modifies this`assetNum, slots
      ensures Value() == Free(old(Value()), name)
      ensures ok <==> MayFree(old(Value()), name)
    {
      if state == Stopped || state == Error {
        var i := GetAsset(name);
        if i >= 0 {
          slots[i] := slots[i].(kind := Unused);
          assetNum := assetNum - 1;
          return true;
        }
      }
      return false;
    }

    /** `is_all_feedback_nolock`. */
    method IsAllFeedback() returns (all: bool)
      requires Valid()
      ensures all <==> AllFeedback(slots[..])
    {
      var i := 0;
      while i < SLOTS
        invariant 0 <= i <= SLOTS
        invariant forall j :: 0 <= j < i && IsUsed(slots[j]) ==> slots[j].feedback
      {
        if IsUsed(slots[i]) && !slots[i].feedback {
          assert IsUsed(slots[..][i]) && !slots[..][i].feedback;
          return false;
        }
        i := i + 1;
      }
      return true;
    }

    /** `publish_event_nolock`, with `notify` for each slot. */
    method PublishEvent(event: Event)
      requires Valid()
      modifies slots
      ensures slots[..] == PublishAll(old(slots[..]), event)
    {
      var i := 0;
      while i < SLOTS
        invariant 0 <= i <= SLOTS
        invariant forall j :: 0 <= j < i ==> slots[j] == Publish(old(slots[j]), event)
        invariant forall j :: i <= j < SLOTS ==> slots[j] == old(slots[j])
      {
        if IsUsed(slots[i]) {
          match event
          case ResetEvent =>
            slots[i] := if slots[i].event == ErrorEvent then slots[i].(feedback := true)
                        else slots[i].(event := event, feedback := false);
          case StartEvent => slots[i] := slots[i].(event := event, feedback := false);
          case StopEvent => slots[i] := slots[i].(event := event, feedback := false);
          case ErrorEvent => slots[i] := slots[i].(event := event, feedback := true);
          case NoEvent =>
        }
        i := i + 1;
      }
    }

    /** `trigger_event`. */
    method TriggerEvent(from: SimState, to: SimState, event: Event) returns (ok: bool)
      requires Valid()
      modifies this`state, slots
      ensures Value() == Trigger(old(Value()), from, to, event)
      ensures ok <==> Triggers(old(Value()), from, to)
    {
      if state == from {
        state := to;
        var i := 0;
        while i < SLOTS
          invariant 0 <= i <= SLOTS && state == to
          invariant forall j :: 0 <= j < i ==> slots[j] == ClearFeedback(old(slots[j]))
          invariant forall j :: i <= j < SLOTS ==> slots[j] == old(slots[j])
        {
          if IsUsed(slots[i]) {
            slots[i] := slots[i].(feedback := false);
          }
          i := i + 1;
        }
        assert slots[..] == ClearAll(old(slots[..]));
      } else if to == Error {
        state := to;
      } else {
        return false;
      }
      ghost var cleared := slots[..];
      PublishEvent(event);
      assert slots[..] == PublishAll(cleared, event);
      return true;
    }

    /** `reset`: from Stopped through Resetting, from Error straight to Stopped. */
    method ResetSimulation() returns (ok: bool)
      requires Valid()
      modifies this`state, slots
      ensures Value() == Reset(old(Value()))
      ensures ok <==> old(state) == Stopped || old(state) == Error
    {
      if state == Stopped {
        ok := TriggerEvent(Stopped, Resetting, ResetEvent);
      } else if state == Error {
        ok := TriggerEvent(Error, Stopped, ResetEvent);
      } else {
        ok := false;
      }
    }

    /** `feedback`. */
    method Feedback(name: string, isOk: bool, expected: SimState, clock: int) returns (ok: bool)
      requires Valid()
      modifies slots
      ensures Value() == GiveFeedback(old(Value()), name, isOk, expected, clock)
      ensures ok <==> state == expected && Find(old(slots[..]), name, 0) >= 0
    {
      var i := GetAsset(name);
      if i < 0 {
        return false;
      }
      ok := state == expected;
      slots[i] := slots[i].(updateTime := clock, feedback := ok && isOk, event := NoEvent);
    }

    /** `is_asset_timeout_nolock` of a used slot. */
    predicate IsLate(s: Slot, clock: int)
      reads this
    {
      IsUsed(s) && s.updateTime + (if assetTimeout <= 0 then ASSET_TIMEOUT_USEC else assetTimeout) <= clock
    }

    /** `do_event_handling_nolock` with its timeout helper: move on when everybody has
        fed back, otherwise list exactly the used slots last heard of a timeout ago or
        earlier; the timeout is the configured one if positive, else 30 s. */
    method HandleEvents(clock: int) returns (late: seq<int>)
      requires Valid()
      modifies this`state
      ensures Value() == Handle(old(Value()))
      ensures late != [] ==> state == old(state)
      ensures forall a, b :: 0 <= a < b < |late| ==> late[a] != late[b]
      ensures forall i :: i in late <==>
                && 0 <= i < SLOTS && IsUsed(slots[i])
                && slots[i].updateTime + (if assetTimeout > 0 then assetTimeout else 30_000_000) <= clock
                && NeedsHandling(old(state)) && !AllFeedback(slots[..])
    {
      late := [];
      if !NeedsHandling(state) {
        return;
      }
      var all := IsAllFeedback();
      if all {
        state := if state == Runnable then Running else Stopped;
        return;
      }
      var i := 0;
      while i < SLOTS
        invariant 0 <= i <= SLOTS
        invariant forall j :: j in late <==> 0 <= j < i && IsLate(slots[j], clock)
        invariant forall a, b :: 0 <= a < b < |late| ==> late[a] != late[b]
      {
        if IsLate(slots[i], clock) {
          late := late + [i];
        }
        i := i + 1;
      }
    }

    /** Unregistering the late assets, one by one. */
    method Expel(late: seq<int>)
      requires Valid() && Registry(Value()) && state == Error
      requires forall i :: i in late ==> 0 <= i < SLOTS && IsUsed(slots[i])
      requires forall a, b :: 0 <= a < b < |late| ==> late[a] != late[b]
      modifies this`assetNum, slots
      ensures Registry(Value())
      ensures forall i :: 0 <= i < SLOTS ==>
                slots[i] == if i in late then old(slots[i]).(kind := Unused) else old(slots[i])
    {
      var n := 0;
      while n < |late|
        invariant 0 <= n <= |late| && Registry(Value())
        invariant forall i :: 0 <= i < SLOTS ==>
                    slots[i] == if i in late[..n] then old(slots[i]).(kind := Unused) else old(slots[i])
      {
        var k := late[n];
        assert k in late && k !in late[..n];
        FindsItself(Value(), k);
        FreeKeepsRegistry(Value(), slots[k].name);
        var _ := FreeAsset(slots[k].name);
        assert late[..n + 1] == late[..n] + [k];
        n := n + 1;
      }
      assert late[..|late|] == late;
    }

    /** Handling finds somebody late: a transition waits for feedback, and some used slot
        has not been heard of for the timeout. */
    ghost predicate FindsLate(clock: int)
      requires Valid()
      reads this, slots
    {
      && NeedsHandling(state) && !AllFeedback(slots[..])
      && exists i :: 0 <= i < SLOTS && IsUsed(slots[i])
           && slots[i].updateTime + (if assetTimeout > 0 then assetTimeout else 30_000_000) <= clock
    }

    /** What a timeout leaves of a slot: the Error event, or nobody. */
    ghost function AfterTimeout(s: Slot, clock: int): Slot
      reads this
    {
      if !IsUsed(s) then s
      else if IsLate(s, clock) then s.(event := ErrorEvent, feedback := true, kind := Unused)
      else s.(event := ErrorEvent, feedback := true)
    }

    /** `do_event_handling`. The reported states are those of the locked section. If
        nobody is late nothing else happens; else everybody is failed, with the Error
        event, and exactly the late ones are removed. */
    method DoEventHandling(clock: int) returns (prev: SimState, next: SimState)
      requires Valid() && Registry(Value())
      modifies this`state, this`assetNum, slots
      ensures Registry(Value())
      ensures prev == old(state) && next == Handle(old(Value())).state
      ensures !old(FindsLate(clock)) ==> Value() == Handle(old(Value()))
      ensures old(FindsLate(clock)) ==>
                && state == Error && prev == next
                && forall i :: 0 <= i < SLOTS ==>
                     var s := old(slots[i]);
                     var timeout := if assetTimeout > 0 then assetTimeout else 30_000_000;
                     slots[i] == if !IsUsed(s) then s
                                 else s.(event := ErrorEvent, feedback := true,
                                         kind := if s.updateTime + timeout <= clock then Unused else s.kind)
    {
      hide Registry, Find;
      prev, next := state, state;
      if !NeedsHandling(state) {
        return;
      }
      var late := HandleEvents(clock);
      next := state;
      SameMembersKeepRegistry(old(Value()), Value());
      assert slots[..] == old(slots[..]);
      assert forall i :: 0 <= i < SLOTS ==> slots[..][i] == old(slots[..])[i];
      if |late| > 0 {
        var k := late[0];
        assert k in late && slots[..][k] == old(slots[k]);
        FailEverybody(late);
      }
    }

    /** After a timeout: everybody gets the Error event, and the late assets are removed. */
    method FailEverybody(late: seq<int>)
      requires Valid() && Registry(Value()) && state != Any
      requires forall i :: i in late ==> 0 <= i < SLOTS && IsUsed(slots[i])
      requires forall a, b :: 0 <= a < b < |late| ==> late[a] != late[b]
      modifies this`state, this`assetNum, slots
      ensures Registry(Value()) && state == Error
      ensures forall i :: 0 <= i < SLOTS ==>
                var s := old(slots[i]);
                slots[i] == if !IsUsed(s) then s
                            else s.(event := ErrorEvent, feedback := true, kind := if i in late then Unused else s.kind)
    {
      hide Registry, Find;
      ghost var before := Value();
      var _ := TriggerEvent(Any, Error, ErrorEvent);
      SameMembersKeepRegistry(before, Value());
      Expel(late);
    }

    /** `get_asset_times`: the times of the used slots, in slot order. */
    method GetAssetTimes() returns (times: seq<int>)
      requires Valid()
      ensures times == Times(slots[..])
    {
      times := [];
      var i := 0;
      while i < SLOTS
        invariant 0 <= i <= SLOTS && times == Times(slots[..i])
      {
        assert slots[..i + 1][..i] == slots[..i];
        if IsUsed(slots[i]) {
          times := times + [slots[i].ctime];
        }
        i := i + 1;
      }
      assert slots[..SLOTS] == slots[..];
    }

    /** `notify_simtime`: an asset's report; unknown names are ignored. */
    method NotifySimtime(name: string, time: int, clock: int)
      requires Valid()
      modifies slots
      ensures Value() == ReportTime(old(Value()), name, time, clock)
      ensures var i := Find(old(slots[..]), name, 0);
              slots[..] == if i < 0 then old(slots[..])
                           else old(slots[..])[i := old(slots[..])[i].(ctime := time, updateTime := clock)]
    {
      var i := GetAsset(name);
      if i >= 0 {
        slots[i] := slots[i].(ctime := time, updateTime := clock);
      }
    }

    /** `reset_asset_ctime_nolock`. */
    method ResetAssetTimes()
      requires Valid()
      modifies slots
      ensures slots[..] == ZeroAll(old(slots[..]))
      ensures forall i :: 0 <= i < SLOTS ==>
                slots[i] == if IsUsed(old(slots[i])) then old(slots[i]).(ctime := 0) else old(slots[i])
    {
      var i := 0;
      while i < SLOTS
        invariant 0 <= i <= SLOTS
        invariant forall j :: 0 <= j < i ==> slots[j] == ZeroTime(old(slots[j]))
        invariant forall j :: i <= j < SLOTS ==> slots[j] == old(slots[j])
      {
        slots[i] := ZeroTime(slots[i]);
        i := i + 1;
      }
    }
  }

  function Times(slots: seq<Slot>): seq<int> {
    if slots == [] then []
    else Times(slots[..|slots| - 1]) + if IsUsed(slots[|slots| - 1]) then [slots[|slots| - 1].ctime] else []
  }

  function ZeroTime(s: Slot): Slot { if IsUsed(s) then s.(ctime := 0) else s }

  function ZeroAll(slots: seq<Slot>): (r: seq<Slot>)
    ensures |r| == |slots| && forall i :: 0 <= i < |slots| ==> r[i] == ZeroTime(slots[i])
  {
    seq(|slots|, i requires 0 <= i < |slots| => ZeroTime(slots[i]))
  }

  /** The list has one time for each used slot, in slot order. */
  lemma {:induction false} TimesInOrder(slots: seq<Slot>, k: nat)
    ensures |Times(slots)| == CountUsed(slots)
    ensures k < |slots| && IsUsed(slots[k]) ==>
              CountUsed(slots[..k]) < |Times(slots)| && Times(slots)[CountUsed(slots[..k])] == slots[k].ctime
  {
    if slots != [] {
      var n := |slots| - 1;
      TimesInOrder(slots[..n], k);
      if k < n {
        assert slots[..n][..k] == slots[..k] && slots[..n][k] == slots[k];
      }
    }
  }

  /** A time is read iff some used slot has it. */
  lemma {:induction false} TimesAreTheUsed(slots: seq<Slot>, t: int)
    ensures t in Times(slots) <==> exists i :: 0 <= i < |slots| && IsUsed(slots[i]) && slots[i].ctime == t
  {
    if slots != [] {
      var n := |slots| - 1;
      TimesAreTheUsed(slots[..n], t);
      if t in Times(slots[..n]) {
        var i :| 0 <= i < n && IsUsed(slots[..n][i]) && slots[..n][i].ctime == t;
        assert slots[i] == slots[..n][i];
      }
      if i :| 0 <= i < |slots| && IsUsed(slots[i]) && slots[i].ctime == t {
        if i < n {
          assert slots[..n][i] == slots[i];
        }
      }
    }
  }
}
