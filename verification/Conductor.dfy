/** The master's main call: handle events, gate on the PDU mode, move the time. */
module Conductor {
  import opened Common
  import opened LifeCycle
  import opened LifeCycleRuns
  import opened WorldTime
  import D = MasterData
  import B = StartBarrier

  /** The mode part of the PDU metadata. */
  class PduMode {
    var mode: B.Mode
    var assetNum: int
    const checked: array<bool>
    var created: bool

    ghost predicate Valid() { checked.Length == SLOTS }

    constructor ()
      ensures Valid() && mode == B.MasterMode && assetNum == 0 && !created
      ensures forall i :: 0 <= i < SLOTS ==> !checked[i]
    {
      mode, assetNum, created := B.MasterMode, 0, false;
      checked := new bool[SLOTS](i => false);
    }

    /** Whether this asset's report is awaited. */
    predicate Awaits(asset: nat)
      requires Valid()
      reads this`mode, checked
    {
      asset < SLOTS && mode == B.AssetMode && !checked[asset]
    }

    /** `create`: the clock goes to the assets, unless the init lock cannot be had. */
    method Create(assets: int, locked: bool)
      requires Valid()
      modifies this
      ensures if locked then mode == B.AssetMode && assetNum == assets && created
              else mode == old(mode) && assetNum == old(assetNum) && created == old(created)
    {
      if !locked {
        return;
      }
      if created {
        assetNum := assets;
        mode := B.AssetMode;
      } else {
        mode := B.AssetMode;
        assetNum := assets;
        created := true;
      }
    }

    /** `reset`: only here are the reports forgotten, so that every slot's is awaited. */
    method Reset(locked: bool)
      requires Valid()
      modifies this`mode, checked
      ensures if locked && old(created) then mode == B.AssetMode && forall i :: 0 <= i < SLOTS ==> !checked[i]
              else mode == old(mode) && checked[..] == old(checked[..])
    {
      if !locked || !created {
        return;
      }
      mode := B.AssetMode;
      var i := 0;
      while i < SLOTS
        invariant 0 <= i <= SLOTS && mode == B.AssetMode
        invariant forall j :: 0 <= j < i ==> !checked[j]
      {
        checked[i] := false;
        i := i + 1;
      }
    }

    /** `notify_write_pdu_done`, undisturbed: the flag goes up, and the clock goes back
        to the master iff as many flags are up as there are assets; until then the
        others' reports stay awaited, and this one's never again. */
    method NotifyWritePduDone(asset: nat)
      requires Valid()
      modifies this`mode, checked
      ensures asset >= SLOTS || old(mode) == B.MasterMode ==> mode == old(mode) && checked[..] == old(checked[..])
      ensures asset < SLOTS && old(mode) == B.AssetMode ==>
                && checked[..] == old(checked[..])[asset := true]
                && (mode == B.MasterMode <==> B.Up(checked[..], SLOTS) >= assetNum)
      ensures forall a: nat :: Awaits(a) <==> old(Awaits(a)) && a != asset && mode == B.AssetMode
    {
      if asset >= SLOTS || mode == B.MasterMode {
        return;
      }
      checked[asset] := true;
      var count := 0;
      var i := 0;
      while i < SLOTS
        invariant 0 <= i <= SLOTS && checked[..] == old(checked[..])[asset := true] && mode == B.AssetMode
        invariant count == B.Up(checked[..], i)
      {
        if checked[i] {
          count := count + 1;
        }
        i := i + 1;
      }
      if count >= assetNum {
        mode := B.MasterMode;
      }
    }

    /** `is_pdu_sync_mode`. */
    method IsPduSyncMode(asset: nat) returns (r: bool)
      requires Valid()
      ensures r <==> Awaits(asset)
    {
      if asset >= SLOTS {
        return false;
      }
      if mode == B.MasterMode {
        return false;
      }
      return !checked[asset];
    }

    /** One pass of the sample loop's report half: an asset reports exactly when it is
        awaited, hence at most once; where all flags are up it leaves the mode alone. */
    method SampleLoopReport(asset: nat) returns (reports: bool)
      requires Valid()
      modifies this`mode, checked
      ensures reports <==> assetNum != 0 && old(Awaits(asset))
      ensures reports ==>
                && checked[..] == old(checked[..])[asset := true]
                && (mode == B.MasterMode <==> B.Up(checked[..], SLOTS) >= assetNum)
      ensures !reports ==> mode == old(mode) && checked[..] == old(checked[..])
      ensures assetNum != 0 ==> !Awaits(asset)
      ensures (forall i :: 0 <= i < SLOTS ==> old(checked[i])) ==> !reports
    {
      if assetNum == 0 { // is_pdu_created
        return false;
      }
      reports := false;
      if mode != B.MasterMode {
        reports := IsPduSyncMode(asset);
        if reports {
          NotifyWritePduDone(asset);
        }
      }
    }
  }

  class Conductor {
    const data: D.MasterData
    const pdu: PduMode
    const world: TheWorld
    var current: int // timeset.current, what assets see

    ghost predicate Valid()
      reads this, data, data.slots
    {
      data.Valid() && pdu.Valid() && Registry(data.Value())
    }

    /** `set_config_simtime` on a fresh session. */
    constructor (data: D.MasterData, pdu: PduMode, maxDelay: int, delta: int)
      requires data.Valid() && pdu.Valid() && Registry(data.Value())
      ensures Valid() && this.data == data && this.pdu == pdu && current == 0
      ensures fresh(world) && world.maxDelay == maxDelay && world.delta == delta && world.worldTime == 0
    {
      this.data, this.pdu, current := data, pdu, 0;
      world := new TheWorld(maxDelay, delta);
    }

    /** `execute`. The world moves only in Running, in master mode and with no used
        slot lagging by maxDelay; it does not move in the call that starts the run,
        because that call hands the clock to the assets, unless the init lock could
        not be had. A finished reset puts every clock back to zero and, with the lock
        and PDU data, lowers every report flag. Every other call leaves the PDU mode,
        number and flags alone. */
    method Execute(clock: int, locked: bool) returns (moved: bool)
      requires Valid() && world.delta > 0
      modifies this, data, data.slots, pdu, pdu.checked, world
      ensures Valid() && world.delta == old(world.delta) && world.maxDelay == old(world.maxDelay)
      // the life cycle
      ensures !old(data.FindsLate(clock)) ==>
                var handled := Handle(old(data.Value()));
                data.Value() == if old(data.state) == Resetting && handled.state == Stopped
                                then handled.(slots := D.ZeroAll(handled.slots)) else handled
      ensures old(data.FindsLate(clock)) ==>
                && data.state == Error
                && forall i :: 0 <= i < SLOTS ==> data.slots[i] == data.AfterTimeout(old(data.slots[i]), clock)
      // the clocks
      ensures moved <==>
                && (old(data.state) == Running || (!locked && old(data.state) == Runnable && data.state == Running))
                && old(pdu.mode) == B.MasterMode
                && CanStep(D.Times(old(data.slots[..])), old(world.worldTime), world.maxDelay)
      ensures moved ==> world.worldTime == old(world.worldTime) + world.delta && current == world.worldTime
      ensures old(data.state) == Resetting && data.state == Stopped ==>
                && world.worldTime == 0 && current == 0
                && forall i :: 0 <= i < SLOTS && IsUsed(data.slots[i]) ==> data.slots[i].ctime == 0
      ensures !moved && !(old(data.state) == Resetting && data.state == Stopped) ==>
                world.worldTime == old(world.worldTime) && current == old(current)
      ensures world.waitTime == old(world.waitTime) +
                if !moved && old(pdu.mode) == B.MasterMode
                   && (old(data.state) == Running || (!locked && old(data.state) == Runnable && data.state == Running))
                then world.delta else 0
      // the PDU mode
      ensures locked && old(data.state) == Runnable && data.state == Running ==>
                && pdu.mode == B.AssetMode && pdu.assetNum == data.assetNum && pdu.created
                && pdu.checked[..] == old(pdu.checked[..])
      ensures locked && old(pdu.created) && old(data.state) == Resetting && data.state == Stopped ==>
                && pdu.mode == B.AssetMode && (forall i :: 0 <= i < SLOTS ==> !pdu.checked[i])
                && pdu.assetNum == old(pdu.assetNum) && pdu.created
      ensures !(locked && old(data.state) == Runnable && data.state == Running)
              && !(locked && old(pdu.created) && old(data.state) == Resetting && data.state == Stopped) ==>
                && pdu.mode == old(pdu.mode) && pdu.assetNum == old(pdu.assetNum)
                && pdu.created == old(pdu.created) && pdu.checked[..] == old(pdu.checked[..])
    {
      hide Registry, Handle, CanStep, D.Times;
      var prev, next := data.DoEventHandling(clock);
      ghost var handled := data.Value();
      HandlingKeepsTimes(old(data.Value()));
      if prev == Runnable && next == Running {
        pdu.Create(data.assetNum, locked);
      } else if prev == Resetting && next == Stopped {
        FinishReset(locked);
        ZeroKeepsRegistry(handled, data.Value());
      }
      if next != Running || pdu.mode != B.MasterMode {
        return false;
      }
      moved := StepTime();
    }

    /** The end of a reset: clocks to zero, PDU data cleared. */
    method FinishReset(locked: bool)
      requires data.Valid() && pdu.Valid()
      modifies this`current, data.slots, pdu, pdu.checked, world`worldTime
      ensures current == 0 && world.worldTime == 0
      ensures data.slots[..] == D.ZeroAll(old(data.slots[..]))
      ensures forall i :: 0 <= i < SLOTS && IsUsed(data.slots[i]) ==> data.slots[i].ctime == 0
      ensures pdu.assetNum == old(pdu.assetNum) && pdu.created == old(pdu.created)
      ensures if locked && pdu.created then pdu.mode == B.AssetMode && forall i :: 0 <= i < SLOTS ==> !pdu.checked[i]
              else pdu.mode == old(pdu.mode) && pdu.checked[..] == old(pdu.checked[..])
    {
      current := 0;
      data.ResetAssetTimes();
      world.ResetWorldTime();
      pdu.Reset(locked);
    }

    /** The time step, once the mode has been looked at. */
    method StepTime() returns (moved: bool)
      requires data.Valid() && world.delta > 0
      modifies this`current, world`worldTime, world`waitTime
      ensures moved <==> CanStep(D.Times(data.slots[..]), old(world.worldTime), world.maxDelay)
      ensures world.worldTime == old(world.worldTime) + (if moved then world.delta else 0)
      ensures world.waitTime == old(world.waitTime) + (if moved then 0 else world.delta)
      ensures current == if moved then world.worldTime else old(current)
    {
      var before := world.worldTime;
      var times := data.GetAssetTimes();
      var now := world.TimeBeginsToMove(times);
      if now > before {
        current := now;
        return true;
      }
      return false;
    }
  }

  lemma ZeroKeepsRegistry(a: Master, b: Master)
    requires Registry(a) && b == a.(slots := D.ZeroAll(a.slots))
    ensures Registry(b)
  {
    SameMembersKeepRegistry(a, b);
  }

  lemma HandlingKeepsTimes(m: Master)
    ensures Handle(m).slots == m.slots && (m.state == Running ==> Handle(m) == m)
    ensures Handle(m).state == Running ==> m.state == Running || m.state == Runnable
  {
  }
}
