/** Distributed simulation time: the master advances the world only while no asset
    lags too far, reading the assets' times slot by slot and without a lock; each
    asset of the sample loop advances only up to the published world time. */
module WorldTime {

  /** No time in the list lags behind the world by maxDelay or more. */
  predicate CanStep(times: seq<int>, world: int, maxDelay: int) {
    forall i :: 0 <= i < |times| ==> times[i] - world > -maxDelay
  }

  class TheWorld {
    var maxDelay: int
    var delta: int
    var waitTime: int
    var worldTime: int

    constructor (max: int, step: int)
      ensures maxDelay == max && delta == step && waitTime == 0 && worldTime == 0
    {
      maxDelay, delta, waitTime, worldTime := max, step, 0, 0;
    }

    /** `reset_world_time` leaves the accumulated waiting time. */
    method ResetWorldTime()
      modifies this`worldTime
      ensures worldTime == 0
    {
      worldTime := 0;
    }

    /** `time_begins_to_move`: one delta goes to the world or to the waiting time. */
    method TimeBeginsToMove(times: seq<int>) returns (now: int)
      modifies this`worldTime, this`waitTime
      ensures now == worldTime
      ensures worldTime == old(worldTime) + if CanStep(times, old(worldTime), maxDelay) then delta else 0
      ensures worldTime + waitTime == old(worldTime) + old(waitTime) + delta
    {
      var canStep := true;
      var i := 0;
      while i < |times| && canStep
        invariant 0 <= i <= |times|
        invariant canStep <==> forall j :: 0 <= j < i ==> times[j] - worldTime > -maxDelay
      {
        if times[i] - worldTime <= -maxDelay {
          canStep := false;
        }
        i := i + 1;
      }
      if canStep {
        worldTime := worldTime + delta;
      } else {
        waitTime := waitTime + delta;
      }
      return worldTime;
    }
  }

  // ----- the protocol, one shared read or write at a time -----

  /** `step[i]` is the step of an asset that runs the sample loop; an asset that does
      not (`step[i] == 0`) may report any time that does not go back. With `aligned`,
      every reported time is a multiple of delta. */
  datatype Config = Config(maxDelay: int, delta: int, step: seq<int>, aligned: bool)

  ghost predicate IsMultiple(x: int, d: int) { exists k: int :: Times(k, d) == x }

  function Times(k: int, d: int): int { k * d }

  ghost predicate ValidConfig(c: Config) {
    && c.delta > 0 && c.maxDelay >= 0
    && (forall i :: 0 <= i < |c.step| ==> c.step[i] >= 0)
    && (c.aligned ==> forall i :: 0 <= i < |c.step| ==> IsMultiple(c.step[i], c.delta))
  }

  datatype MasterPc =
    | Resting
    | Reading(times: seq<int>)   // the times of the first slots
    | Publishing                 // world advanced, not yet published

  datatype AssetPc =
    | Notifying                  // top of the loop
    | Looking                    // time reported; about to read the world time
    | Deciding(world: int)

  datatype State = State(
    world: int,
    published: int,              // timeset.current
    ctime: seq<int>,             // as reported
    local: seq<int>,             // hako_asset_time_usec of each loop
    master: MasterPc,
    pcs: seq<AssetPc>)

  datatype Step = MasterRuns | AssetRuns(asset: nat) | Notify(who: nat, time: int)

  predicate Shape(c: Config, s: State) {
    |s.ctime| == |s.local| == |s.pcs| == |c.step|
  }

  ghost predicate Enabled(c: Config, s: State, step: Step) {
    && Shape(c, s)
    && match step
       case MasterRuns => true
       case AssetRuns(i) => i < |c.step| && c.step[i] > 0
       case Notify(i, t) => i < |c.step| && c.step[i] == 0 && t >= s.ctime[i] && (c.aligned ==> IsMultiple(t, c.delta))
  }

  function Next(c: Config, s: State, step: Step): (r: State)
    requires Shape(c, s) && (step.AssetRuns? ==> step.asset < |c.step|) && (step.Notify? ==> step.who < |c.step|)
    ensures Shape(c, r)
  {
    match step
    case MasterRuns => (
      match s.master
      case Resting => s.(master := Reading([]))
      case Reading(ts) =>
        if |ts| < |s.ctime| then s.(master := Reading(ts + [s.ctime[|ts|]]))
        else if CanStep(ts, s.world, c.maxDelay) then s.(world := s.world + c.delta, master := Publishing)
        else s.(master := Resting)
      case Publishing => s.(published := s.world, master := Resting))
    case Notify(i, t) => s.(ctime := s.ctime[i := t])
    case AssetRuns(i) =>
      match s.pcs[i]
      case Notifying => s.(ctime := s.ctime[i := s.local[i]], pcs := s.pcs[i := Looking])
      case Looking => s.(pcs := s.pcs[i := Deciding(s.published)])
      case Deciding(w) =>
        s.(local := if w >= s.local[i] then s.local[i := s.local[i] + c.step[i]] else s.local,
           pcs := s.pcs[i := Notifying])
  }

  /** After a reset: everything at zero. */
  predicate Init(c: Config, s: State) {
    && Shape(c, s) && s.world == 0 && s.published == 0 && s.master == Resting
    && forall i :: 0 <= i < |c.step| ==> s.ctime[i] == 0 && s.local[i] == 0 && s.pcs[i] == Notifying
  }

  ghost predicate IsRun(c: Config, ss: seq<State>, steps: seq<Step>) {
    IsPath(c, ss, steps) && Init(c, ss[0])
  }

  ghost predicate IsPath(c: Config, ss: seq<State>, steps: seq<Step>) {
    && |ss| == |steps| + 1
    && forall i :: 0 <= i < |steps| ==> Enabled(c, ss[i], steps[i]) && ss[i + 1] == Next(c, ss[i], steps[i])
  }

  // ----- the invariant -----

  predicate AssetFits(c: Config, s: State, i: nat)
    requires Shape(c, s) && i < |c.step|
  {
    && s.world - s.ctime[i] < c.maxDelay + c.delta
    && (c.step[i] > 0 ==>
          && s.ctime[i] <= s.local[i] <= s.world + c.step[i]
          && (!s.pcs[i].Notifying? ==> s.ctime[i] == s.local[i])
          && (s.pcs[i].Deciding? ==> s.pcs[i].world <= s.published))
  }

  predicate Inv(c: Config, s: State) {
    && Shape(c, s)
    && (forall i :: 0 <= i < |c.step| ==> AssetFits(c, s, i))
    && s.world == s.published + (if s.master.Publishing? then c.delta else 0)
    && (s.master.Reading? ==>
          && |s.master.times| <= |s.ctime|
          && forall j :: 0 <= j < |s.master.times| ==> s.master.times[j] <= s.ctime[j])
  }

  lemma StepKeepsInv(c: Config, s: State, step: Step)
    requires ValidConfig(c) && Inv(c, s) && Enabled(c, s, step)
    ensures Inv(c, Next(c, s, step))
  {
    hide IsMultiple;
    var s' := Next(c, s, step);
    forall i | 0 <= i < |c.step|
      ensures AssetFits(c, s', i)
    {
      assert AssetFits(c, s, i);
      if step.MasterRuns? && s'.world != s.world {
        // what was read is at most what the asset's time is now
        assert s.master.times[i] <= s.ctime[i];
      }
    }
    if step.AssetRuns? {
      assert AssetFits(c, s, step.asset);
    }
  }

  lemma {:induction false} InvAlways(c: Config, ss: seq<State>, steps: seq<Step>, i: nat)
    requires ValidConfig(c) && IsRun(c, ss, steps) && i < |ss|
    ensures Inv(c, ss[i])
  {
    hide IsMultiple, Next;
    if i > 0 {
      InvAlways(c, ss, steps, i - 1);
      StepKeepsInv(c, ss[i - 1], steps[i - 1]);
    }
  }

  // ----- theorems -----

  /** The drift is bounded on both sides, whatever the interleaving of the master's
      unlocked slot reads with the assets' reports. */
  lemma DriftBound(c: Config, ss: seq<State>, steps: seq<Step>, k: nat, i: nat, j: nat)
    requires ValidConfig(c) && IsRun(c, ss, steps) && k < |ss| && i < |c.step| && j < |c.step|
    ensures Shape(c, ss[k])
    ensures ss[k].world - ss[k].ctime[i] < c.maxDelay + c.delta
    ensures c.step[i] > 0 ==> ss[k].ctime[i] <= ss[k].world + c.step[i]
    ensures c.step[i] > 0 ==> ss[k].ctime[i] - ss[k].ctime[j] < c.maxDelay + c.delta + c.step[i]
  {
    hide IsMultiple;
    InvAlways(c, ss, steps, k);
    assert AssetFits(c, ss[k], i) && AssetFits(c, ss[k], j);
  }

  // Aligned times.

  ghost predicate Aligned(c: Config, s: State) {
    && Shape(c, s) && IsMultiple(s.world, c.delta)
    && forall i :: 0 <= i < |c.step| ==> IsMultiple(s.ctime[i], c.delta) && IsMultiple(s.local[i], c.delta)
  }

  lemma MultiplesAdd(x: int, y: int, d: int)
    requires IsMultiple(x, d) && IsMultiple(y, d)
    ensures IsMultiple(x + y, d)
  {
    var k :| Times(k, d) == x;
    var l :| Times(l, d) == y;
    assert Times(k + l, d) == x + y;
  }

  lemma SelfMultiple(d: int)
    ensures IsMultiple(d, d) && IsMultiple(0, d)
  {
    assert Times(1, d) == d && Times(0, d) == 0;
  }

  lemma SmallMultiple(q: int, d: int)
    requires d > 0 && q * d < d
    ensures q * d <= 0
  {
    if q >= 1 {
      assert q * d == (q - 1) * d + d;
    }
  }

  /** Below the next multiple means at most this one. */
  lemma MultiplesRoundDown(x: int, y: int, bound: int, d: int)
    requires d > 0 && IsMultiple(x, d) && IsMultiple(y, d) && IsMultiple(bound, d)
    requires x - y < bound + d
    ensures x - y <= bound
  {
    var k :| Times(k, d) == x;
    var l :| Times(l, d) == y;
    var m :| Times(m, d) == bound;
    assert (k - l - m) * d == k * d - l * d - m * d;
    SmallMultiple(k - l - m, d);
  }

  lemma StepKeepsAligned(c: Config, s: State, step: Step)
    requires ValidConfig(c) && c.aligned && Aligned(c, s) && Enabled(c, s, step)
    ensures Aligned(c, Next(c, s, step))
  {
    hide IsMultiple;
    SelfMultiple(c.delta);
    MultiplesAdd(s.world, c.delta, c.delta);
    if step.AssetRuns? {
      MultiplesAdd(s.local[step.asset], c.step[step.asset], c.delta);
    }
  }

  lemma {:induction false} AlignedAlways(c: Config, ss: seq<State>, steps: seq<Step>, i: nat)
    requires ValidConfig(c) && c.aligned && IsRun(c, ss, steps) && i < |ss|
    ensures Aligned(c, ss[i])
  {
    hide IsMultiple, Next;
    if i == 0 {
      SelfMultiple(c.delta);
    } else {
      AlignedAlways(c, ss, steps, i - 1);
      StepKeepsAligned(c, ss[i - 1], steps[i - 1]);
    }
  }

  /** When every reported time is a multiple of delta, the lag never exceeds the next
      multiple of delta at or above maxDelay: maxDelay itself, if it is one. */
  lemma AlignedDriftBound(c: Config, ss: seq<State>, steps: seq<Step>, k: nat, i: nat, bound: int)
    requires ValidConfig(c) && c.aligned && IsRun(c, ss, steps) && k < |ss| && i < |c.step|
    requires IsMultiple(bound, c.delta) && bound >= c.maxDelay
    ensures Shape(c, ss[k]) && ss[k].world - ss[k].ctime[i] <= bound
  {
    hide IsMultiple;
    DriftBound(c, ss, steps, k, i, i);
    AlignedAlways(c, ss, steps, k);
    MultiplesRoundDown(ss[k].world, ss[k].ctime[i], bound, c.delta);
  }

  /** One asset that never reports: the master goes on until the lag reaches maxDelay. */
  function SilentAsset(maxDelay: int, delta: int): Config { Config(maxDelay, delta, [0], true) }

  function SilentState(world: int, published: int, master: MasterPc): State {
    State(world, published, [0], [0], master, [Notifying])
  }

  lemma TimesStep(k: int, d: int)
    ensures Times(k + 1, d) == Times(k, d) + d
  {
  }

  lemma PathsJoin(c: Config, ss: seq<State>, steps: seq<Step>, tt: seq<State>, more: seq<Step>)
    requires IsPath(c, ss, steps) && IsPath(c, tt, more) && ss[|steps|] == tt[0]
    ensures IsPath(c, ss + tt[1..], steps + more)
    ensures (ss + tt[1..])[0] == ss[0] && (ss + tt[1..])[|steps| + |more|] == tt[|more|]
  {
    hide Next, IsMultiple;
    var all, every := ss + tt[1..], steps + more;
    forall i | 0 <= i < |every|
      ensures Enabled(c, all[i], every[i]) && all[i + 1] == Next(c, all[i], every[i])
    {
      if i >= |steps| {
        assert all[i] == tt[i - |steps|] && all[i + 1] == tt[i + 1 - |steps|];
      }
    }
  }

  lemma SilentRound(maxDelay: int, delta: int, w: int) returns (tt: seq<State>)
    requires w < maxDelay
    ensures |tt| == 5 && tt[0] == SilentState(w, w, Resting) && tt[4] == SilentState(w + delta, w + delta, Resting)
    ensures IsPath(SilentAsset(maxDelay, delta), tt, [MasterRuns, MasterRuns, MasterRuns, MasterRuns])
  {
    hide IsMultiple;
    tt := [SilentState(w, w, Resting), SilentState(w, w, Reading([])), SilentState(w, w, Reading([0])),
           SilentState(w + delta, w, Publishing), SilentState(w + delta, w + delta, Resting)];
    assert [] + [0] == [0];
  }

  lemma {:induction false} LagReached(maxDelay: int, delta: int, k: nat) returns (ss: seq<State>, steps: seq<Step>)
    requires maxDelay >= 0 && delta > 0 && (k > 0 ==> Times(k - 1, delta) < maxDelay)
    ensures var c := SilentAsset(maxDelay, delta);
            && ValidConfig(c) && IsRun(c, ss, steps)
            && ss[|ss| - 1] == SilentState(Times(k, delta), Times(k, delta), Resting)
  {
    var c := SilentAsset(maxDelay, delta);
    SelfMultiple(delta);
    if k == 0 {
      ss, steps := [SilentState(0, 0, Resting)], [];
    } else {
      hide Next, IsMultiple, IsPath, Times, Init;
      TimesStep(k - 1, delta);
      TimesStep(k - 2, delta);
      ss, steps := LagReached(maxDelay, delta, k - 1);
      PathHasEnd(c, ss, steps);
      var tt := SilentRound(maxDelay, delta, Times(k - 1, delta));
      PathsJoin(c, ss, steps, tt, [MasterRuns, MasterRuns, MasterRuns, MasterRuns]);
      ss, steps := ss + tt[1..], steps + [MasterRuns, MasterRuns, MasterRuns, MasterRuns];
    }
  }

  lemma PathHasEnd(c: Config, ss: seq<State>, steps: seq<Step>)
    requires IsPath(c, ss, steps)
    ensures |ss| == |steps| + 1
  {
  }

  /** So "never more than maxDelay" needs maxDelay to be a multiple of delta: if it is
      not, there is a run in which an aligned asset lags by more. */
  lemma UnalignedDelayIsExceeded(maxDelay: int, delta: int) returns (ss: seq<State>, steps: seq<Step>)
    requires maxDelay >= 0 && delta > 0 && !IsMultiple(maxDelay, delta)
    ensures var c := SilentAsset(maxDelay, delta);
            ValidConfig(c) && IsRun(c, ss, steps) && Shape(c, ss[|ss| - 1])
            && ss[|ss| - 1].world - ss[|ss| - 1].ctime[0] > maxDelay
  {
    var q := maxDelay / delta;
    assert maxDelay == q * delta + maxDelay % delta;
    assert Times(q, delta) != maxDelay;
    assert Times(q + 1, delta) == q * delta + delta;
    ss, steps := LagReached(maxDelay, delta, q + 1);
  }

  // ----- nobody is stuck -----

  predicate Lags(c: Config, s: State, i: nat) {
    i < |s.ctime| && s.world - s.ctime[i] >= c.maxDelay
  }

  /** n steps of asset i in a row, everybody else standing still. */
  function OwnSteps(c: Config, s: State, i: nat, n: nat): (r: State)
    requires Shape(c, s) && i < |c.step|
    ensures Shape(c, r)
  {
    if n == 0 then s else Next(c, OwnSteps(c, s, i, n - 1), AssetRuns(i))
  }

  /** An asset whose clock is ahead of its report, or not past the published time,
      strictly raises its reported time by five steps of its own. */
  lemma FiveStepsRaise(c: Config, s: State, i: nat)
    requires Inv(c, s) && i < |c.step| && c.step[i] > 0
    requires s.ctime[i] < s.local[i] || s.local[i] <= s.published
    ensures OwnSteps(c, s, i, 5).ctime[i] > s.ctime[i]
  {
    assert AssetFits(c, s, i);
    var s1 := Next(c, s, AssetRuns(i));
    var s2 := Next(c, s1, AssetRuns(i));
    var s3 := Next(c, s2, AssetRuns(i));
    var s4 := Next(c, s3, AssetRuns(i));
    assert OwnSteps(c, s, i, 1) == s1;
    assert OwnSteps(c, s, i, 2) == s2;
    assert OwnSteps(c, s, i, 3) == s3;
    assert OwnSteps(c, s, i, 4) == s4;
  }

  /** Any other asset can do nothing about its time by itself. */
  lemma {:induction false} NoStepsRaise(c: Config, s: State, i: nat, n: nat)
    requires Inv(c, s) && i < |c.step| && c.step[i] > 0
    requires s.ctime[i] == s.local[i] > s.published
    ensures var r := OwnSteps(c, s, i, n);
            && r.ctime == s.ctime && r.local == s.local && r.published == s.published
            && (r.pcs[i].Deciding? ==> r.pcs[i].world <= s.published)
  {
    assert AssetFits(c, s, i);
    if n > 0 {
      NoStepsRaise(c, s, i, n - 1);
    }
  }

  /** A lagging asset never waits for the master, except to publish the step it has
      just made, and then only if maxDelay < delta. */
  lemma LaggardMoves(c: Config, s: State, i: nat)
    requires Inv(c, s) && Lags(c, s, i) && c.step[i] > 0 && c.maxDelay >= 0
    requires s.master.Publishing? ==> c.maxDelay >= c.delta
    ensures OwnSteps(c, s, i, 5).ctime[i] > s.ctime[i]
  {
    assert AssetFits(c, s, i);
    FiveStepsRaise(c, s, i);
  }

  /** An asset outside the sample loop stops lagging with one report of a time less than
      maxDelay behind the world; nobody else's time moves. */
  lemma ReportEndsLag(c: Config, s: State, i: nat, t: int)
    requires Enabled(c, s, Notify(i, t)) && t > s.world - c.maxDelay
    ensures var r := Next(c, s, Notify(i, t));
            && r.ctime[i] == t && !Lags(c, r, i) && r.world == s.world
            && forall j: nat :: j != i ==> (Lags(c, r, j) <==> Lags(c, s, j))
  {
  }

  /** If the master cannot step, there are assets that lag, and each of them that
      runs the sample loop raises its time within five steps of its own: at once,
      unless the master has yet to publish a step and maxDelay < delta; in any case
      after that publication. */
  lemma NeverStuck(c: Config, ss: seq<State>, steps: seq<Step>, k: nat)
    requires ValidConfig(c) && IsRun(c, ss, steps) && k < |ss|
    requires !CanStep(ss[k].ctime, ss[k].world, c.maxDelay)
    ensures Shape(c, ss[k]) && exists i: nat :: Lags(c, ss[k], i)
    ensures !ss[k].master.Publishing? || c.maxDelay >= c.delta ==>
              forall i: nat :: Lags(c, ss[k], i) && c.step[i] > 0 ==> OwnSteps(c, ss[k], i, 5).ctime[i] > ss[k].ctime[i]
    ensures ss[k].master.Publishing? ==>
              var s' := Next(c, ss[k], MasterRuns);
              forall i: nat :: Lags(c, ss[k], i) && c.step[i] > 0 ==> OwnSteps(c, s', i, 5).ctime[i] > ss[k].ctime[i]
  {
    hide IsMultiple, OwnSteps;
    InvAlways(c, ss, steps, k);
    var s := ss[k];
    StepKeepsInv(c, s, MasterRuns);
    var late :| 0 <= late < |s.ctime| && s.ctime[late] - s.world <= -c.maxDelay;
    assert Lags(c, s, late);
    forall i: nat | Lags(c, s, i) && c.step[i] > 0
      ensures !s.master.Publishing? || c.maxDelay >= c.delta ==> OwnSteps(c, s, i, 5).ctime[i] > s.ctime[i]
      ensures s.master.Publishing? ==> OwnSteps(c, Next(c, s, MasterRuns), i, 5).ctime[i] > s.ctime[i]
    {
      if !s.master.Publishing? || c.maxDelay >= c.delta {
        LaggardMoves(c, s, i);
      }
      if s.master.Publishing? {
        LaggardMoves(c, Next(c, s, MasterRuns), i);
      }
    }
  }

  function Stalled(delta: int): State { State(delta, 0, [1], [1], Publishing, [Looking]) }

  lemma StallIsReached(c: Config) returns (ss: seq<State>, steps: seq<Step>)
    requires ValidConfig(c) && c.step == [1]
    ensures IsRun(c, ss, steps) && ss[|steps|] == Stalled(c.delta)
  {
    hide IsMultiple;
    steps := [AssetRuns(0), AssetRuns(0), AssetRuns(0), AssetRuns(0), MasterRuns, MasterRuns, MasterRuns];
    ss := [State(0, 0, [0], [0], Resting, [Notifying]),
           State(0, 0, [0], [0], Resting, [Looking]),
           State(0, 0, [0], [0], Resting, [Deciding(0)]),
           State(0, 0, [0], [1], Resting, [Notifying]),
           State(0, 0, [1], [1], Resting, [Looking]),
           State(0, 0, [1], [1], Reading([]), [Looking]),
           State(0, 0, [1], [1], Reading([1]), [Looking]),
           Stalled(c.delta)];
    assert [] + [1] == [1];
  }

  /** The exception is real whenever maxDelay < delta: the master cannot step, the
      only asset lags, and no number of its own steps raises its time. */
  lemma UnpublishedStepStalls(maxDelay: int, delta: int) returns (ss: seq<State>, steps: seq<Step>)
    requires 0 <= maxDelay < delta
    ensures var c := Config(maxDelay, delta, [1], false);
            && ValidConfig(c) && IsRun(c, ss, steps)
            && var s := ss[|steps|];
               && Shape(c, s) && s.master.Publishing? && !CanStep(s.ctime, s.world, maxDelay)
               && forall n: nat :: OwnSteps(c, s, 0, n).ctime == s.ctime
  {
    hide IsMultiple, Next, OwnSteps;
    var c := Config(maxDelay, delta, [1], false);
    ss, steps := StallIsReached(c);
    var s := ss[|steps|];
    assert s.ctime[0] - s.world <= -maxDelay;
    InvAlways(c, ss, steps, |steps|);
    forall n: nat
      ensures OwnSteps(c, s, 0, n).ctime == s.ctime
    {
      NoStepsRaise(c, s, 0, n);
    }
  }

  // ----- progress under round-robin execution -----

  /** Everybody between two iterations, and the world time published. */
  predicate AtRest(c: Config, s: State) {
    && Inv(c, s) && s.master == Resting
    && (forall i :: 0 <= i < |c.step| ==> c.step[i] > 0 && s.pcs[i] == Notifying)
  }

  /** One iteration of an asset's loop: its three steps in a row. */
  function Turn(c: Config, s: State, i: nat): (r: State)
    requires Shape(c, s) && i < |c.step|
    ensures Shape(c, r)
  {
    var s1 := Next(c, s, AssetRuns(i));
    var s2 := Next(c, s1, AssetRuns(i));
    Next(c, s2, AssetRuns(i))
  }

  function Turns(c: Config, s: State, n: nat): (r: State)
    requires Shape(c, s) && n <= |c.step|
    ensures Shape(c, r)
  {
    if n == 0 then s else Turn(c, Turns(c, s, n - 1), n - 1)
  }

  predicate ReadingInBounds(s: State) { s.master.Reading? ==> |s.master.times| <= |s.ctime| }

  /** The master's steps until it rests again. */
  function Execute(c: Config, s: State): (r: State)
    requires Shape(c, s) && ReadingInBounds(s)
    ensures Shape(c, r)
    decreases match s.master case Resting => |s.ctime| + 3 case Reading(ts) => |s.ctime| + 2 - |ts| case Publishing => 1
  {
    var s' := Next(c, s, MasterRuns);
    if s'.master.Resting? then s' else Execute(c, s')
  }

  /** Every asset in turn, then the master. */
  function Round(c: Config, s: State): (r: State)
    requires AtRest(c, s)
    ensures Shape(c, r)
  {
    RestAfterTurns(c, s, |c.step|);
    Execute(c, Turns(c, s, |c.step|))
  }

  function Advanced(c: Config, s: State, i: nat): int
    requires Shape(c, s) && i < |c.step|
  {
    if s.world >= s.local[i] then s.local[i] + c.step[i] else s.local[i]
  }

  lemma TurnEffect(c: Config, s: State, i: nat)
    requires AtRest(c, s) && i < |c.step|
    ensures Turn(c, s, i) == s.(ctime := s.ctime[i := s.local[i]], local := s.local[i := Advanced(c, s, i)])
    ensures AtRest(c, Turn(c, s, i))
  {
    var s1 := Next(c, s, AssetRuns(i));
    var s2 := Next(c, s1, AssetRuns(i));
    var s3 := Next(c, s2, AssetRuns(i));
    assert s3.pcs == s.pcs;
    assert s3.local == s.local[i := Advanced(c, s, i)];
    forall j | 0 <= j < |c.step|
      ensures AssetFits(c, s3, j)
    {
      assert AssetFits(c, s, j);
    }
  }

  lemma {:induction false} RestAfterTurns(c: Config, s: State, n: nat)
    requires AtRest(c, s) && n <= |c.step|
    ensures var r := Turns(c, s, n);
            && AtRest(c, r) && r.world == s.world
            && (forall i :: 0 <= i < n ==> r.ctime[i] == s.local[i] && r.local[i] == Advanced(c, s, i))
            && (forall i :: n <= i < |c.step| ==> r.ctime[i] == s.ctime[i] && r.local[i] == s.local[i])
  {
    hide Turn, AssetFits;
    if n > 0 {
      RestAfterTurns(c, s, n - 1);
      TurnEffect(c, Turns(c, s, n - 1), n - 1);
    }
  }

  /** Undisturbed, the master reads the current times and steps exactly if it may. */
  lemma {:induction false} ExecuteEffect(c: Config, s: State)
    requires Shape(c, s) && (s.master.Reading? ==> s.master.times <= s.ctime)
    requires !s.master.Publishing? ==> s.published == s.world
    ensures var moved := if !s.master.Publishing? && CanStep(s.ctime, s.world, c.maxDelay) then c.delta else 0;
            Execute(c, s) == s.(world := s.world + moved, published := s.world + moved, master := Resting)
    decreases match s.master case Resting => |s.ctime| + 3 case Reading(ts) => |s.ctime| + 2 - |ts| case Publishing => 1
  {
    var s' := Next(c, s, MasterRuns);
    if !s'.master.Resting? {
      ExecuteEffect(c, s');
    }
    if s.master.Reading? && |s.master.times| == |s.ctime| {
      assert s.master.times == s.ctime;
    }
  }

  /** A round reports every local clock, lets those not ahead of the world advance,
      and moves the world by delta unless a reported clock lags by maxDelay. */
  lemma RoundEffect(c: Config, s: State)
    requires ValidConfig(c) && AtRest(c, s)
    ensures var r := Round(c, s);
            && AtRest(c, r)
            && (forall i :: 0 <= i < |c.step| ==> r.ctime[i] == s.local[i] && r.local[i] == Advanced(c, s, i))
            && r.world == s.world + if CanStep(s.local, s.world, c.maxDelay) then c.delta else 0
  {
    hide IsMultiple, Turns, Execute;
    RestAfterTurns(c, s, |c.step|);
    var t := Turns(c, s, |c.step|);
    assert t.ctime == s.local;
    ExecuteEffect(c, t);
    var r := Round(c, s);
    forall i | 0 <= i < |c.step|
      ensures AssetFits(c, r, i)
    {
      assert AssetFits(c, t, i);
      if r.world != s.world {
        assert s.local[i] - s.world > -c.maxDelay;
      }
    }
  }

  ghost function Rounds(c: Config, s: State, n: nat): (r: State)
    requires ValidConfig(c) && AtRest(c, s)
    ensures AtRest(c, r)
  {
    if n == 0 then s
    else
      var q := Rounds(c, s, n - 1);
      RoundEffect(c, q);
      Round(c, q)
  }

  /** As long as the world stands still, each clock is past it or has made n steps. */
  lemma {:induction false} ClocksCatchUp(c: Config, s: State, n: nat, i: nat)
    requires ValidConfig(c) && AtRest(c, s) && i < |c.step|
    ensures var r := Rounds(c, s, n);
            || r.world >= s.world + c.delta
            || (r.world == s.world && (r.local[i] > s.world || r.local[i] >= s.local[i] + n * c.step[i]))
  {
    hide IsMultiple, AtRest, Round;
    if n > 0 {
      ClocksCatchUp(c, s, n - 1, i);
      RoundEffect(c, Rounds(c, s, n - 1));
      assert n * c.step[i] == (n - 1) * c.step[i] + c.step[i];
    }
  }

  /** n steps of any asset cover the largest possible lag. */
  predicate CoversLag(c: Config, n: nat) {
    forall i :: 0 <= i < |c.step| ==> n * c.step[i] >= c.maxDelay + c.delta
  }

  /** In any n + 1 consecutive rounds the world moves. */
  lemma WorldMoves(c: Config, s: State, n: nat)
    requires ValidConfig(c) && AtRest(c, s) && CoversLag(c, n)
    ensures Rounds(c, s, n + 1).world >= s.world + c.delta
  {
    hide IsMultiple, Round;
    var r := Rounds(c, s, n);
    RoundEffect(c, r);
    if r.world < s.world + c.delta {
      forall i | 0 <= i < |r.local|
        ensures r.local[i] > r.world
      {
        ClocksCatchUp(c, s, n, i);
        assert AssetFits(c, s, i);
      }
      if |c.step| == 0 {
        NoAssets(c, s, n);
      } else {
        ClocksCatchUp(c, s, n, 0);
      }
    }
  }

  lemma {:induction false} NoAssets(c: Config, s: State, n: nat)
    requires ValidConfig(c) && AtRest(c, s) && |c.step| == 0
    ensures Rounds(c, s, n).world == s.world + n * c.delta
  {
    if n > 0 {
      NoAssets(c, s, n - 1);
      RoundEffect(c, Rounds(c, s, n - 1));
      assert n * c.delta == (n - 1) * c.delta + c.delta;
    }
  }

  lemma {:induction false} RoundsCompose(c: Config, s: State, m: nat, n: nat)
    requires ValidConfig(c) && AtRest(c, s)
    ensures Rounds(c, Rounds(c, s, m), n) == Rounds(c, s, m + n)
  {
    hide IsMultiple, ValidConfig, AtRest, Round, Shape;
    if n > 0 {
      RoundsCompose(c, s, m, n - 1);
    }
  }

  lemma NoRounds(c: Config, s: State)
    requires ValidConfig(c) && AtRest(c, s)
    ensures Rounds(c, s, 0) == s
  {
  }

  /** Round-robin execution reaches every world time: k deltas within k * (n + 1) rounds. */
  lemma {:induction false} ReachesAnyTime(c: Config, s: State, n: nat, k: nat)
    requires ValidConfig(c) && AtRest(c, s) && CoversLag(c, n)
    ensures Rounds(c, s, k * (n + 1)).world >= s.world + k * c.delta
  {
    hide IsMultiple, ValidConfig, AtRest, CoversLag, Rounds, Shape;
    if k == 0 {
      NoRounds(c, s);
    } else {
      var m := (k - 1) * (n + 1);
      ReachesAnyTime(c, s, n, k - 1);
      WorldMoves(c, Rounds(c, s, m), n);
      RoundsCompose(c, s, m, n + 1);
      assert m + (n + 1) == k * (n + 1);
      assert k * c.delta == (k - 1) * c.delta + c.delta;
    }
  }

  lemma ProductGrows(a: nat, b: nat)
    requires b >= 1
    ensures a * b >= a
  {
    assert a * b == a * (b - 1) + a;
  }

  /** For every configuration of sample-loop assets: k deltas within
      k * (maxDelay + delta + 1) rounds, since every step is at least one. */
  lemma EveryTimeIsReached(c: Config, s: State, k: nat)
    requires ValidConfig(c) && AtRest(c, s)
    ensures Rounds(c, s, k * (c.maxDelay + c.delta + 1)).world >= s.world + k * c.delta
  {
    hide IsMultiple, Rounds;
    var n := c.maxDelay + c.delta;
    forall i | 0 <= i < |c.step|
      ensures n * c.step[i] >= n
    {
      ProductGrows(n, c.step[i]);
    }
    ReachesAnyTime(c, s, n, k);
  }
}
