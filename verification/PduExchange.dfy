/** One PDU channel: a single writer and many readers that keep out of each other's
    way by busy flags. Every load and store of a flag or a version is one step, the
    reader flags are scanned one at a time, and data is copied byte by byte. */
module PduExchange {
  import opened Common

  const READERS := 1 + SLOTS // the external reader, then the asset slots, in scan order
  const EXTERNAL := 0

  type Data = seq<int>

  datatype WriterPc =
    | WIdle
    | WScan(data: Data, next: nat)   // wbusy is set; flag `next` is loaded next
    | WCopy(data: Data, copied: nat)
    | WVersion                       // data copied; version not yet incremented
    | WClear

  datatype ReaderPc =
    | RIdle
    | RFlag(len: nat)                // about to set rbusy
    | RCheck(len: nat)               // rbusy set; about to load wbusy
    | RBackOff(len: nat)             // writer seen; about to clear rbusy and retry
    | RCopy(len: nat, buf: Data)
    | RLoad(len: nat, buf: Data)     // data copied; about to load the write version
    | RStore(len: nat, buf: Data, version: nat)
    | RClear(len: nat, buf: Data)    // about to clear rbusy and return buf

  datatype State = State(
    wbusy: bool,
    rbusy: seq<bool>,
    memory: Data,
    writeVersion: nat,
    readVersion: seq<nat>,
    writer: WriterPc,
    readers: seq<ReaderPc>,
    committed: Data,      // memory after the last completed copy
    writes: nat,          // write_pdu calls completed since the last reset
    seen: seq<nat>)       // `writes` at each asset's last completed read

  datatype Step =
    | Write(data: Data)              // write_pdu is called
    | WriterRuns
    | Read(reader: nat, len: nat)    // read_pdu is called for a slot
    | ReaderRuns(slot: nat)
    | Reset

  function WriterStep(s: State): State
    requires |s.rbusy| == READERS
  {
    match s.writer
    case WIdle => s
    case WScan(data, i) =>
      if i >= READERS then s.(writer := WCopy(data, 0))
      else if s.rbusy[i] then s.(writer := WScan(data, 0))
      else s.(writer := WScan(data, i + 1))
    case WCopy(data, k) =>
      if k < |data| && k < |s.memory| then s.(memory := s.memory[k := data[k]], writer := WCopy(data, k + 1))
      else s.(committed := s.memory, writer := WVersion)
    case WVersion => s.(writeVersion := (s.writeVersion + 1) % TWO32, writer := WClear)
    case WClear => s.(wbusy := false, writer := WIdle, writes := s.writes + 1)
  }

  function ReaderStep(s: State, i: nat): State
    requires i < READERS && |s.rbusy| == |s.readers| == |s.readVersion| == |s.seen| == READERS
  {
    match s.readers[i]
    case RIdle => s
    case RFlag(n) => s.(rbusy := s.rbusy[i := true], readers := s.readers[i := RCheck(n)])
    case RCheck(n) => s.(readers := s.readers[i := if s.wbusy then RBackOff(n) else RCopy(n, [])])
    case RBackOff(n) => s.(rbusy := s.rbusy[i := false], readers := s.readers[i := RFlag(n)])
    case RCopy(n, buf) =>
      if |buf| < n && |buf| < |s.memory| then s.(readers := s.readers[i := RCopy(n, buf + [s.memory[|buf|]])])
      else s.(readers := s.readers[i := if i == EXTERNAL then RClear(n, buf) else RLoad(n, buf)])
    case RLoad(n, buf) => s.(readers := s.readers[i := RStore(n, buf, s.writeVersion)])
    case RStore(n, buf, v) => s.(readVersion := s.readVersion[i := v], readers := s.readers[i := RClear(n, buf)])
    case RClear(n, buf) =>
      s.(rbusy := s.rbusy[i := false], readers := s.readers[i := RIdle], seen := s.seen[i := s.writes])
  }

  predicate Sized(s: State) {
    |s.rbusy| == |s.readers| == |s.readVersion| == |s.seen| == READERS
  }

  predicate Quiescent(s: State) {
    s.writer == WIdle && forall i :: 0 <= i < |s.readers| ==> s.readers[i] == RIdle
  }

  /** Lengths longer than the channel are refused before any flag is touched. */
  predicate Enabled(s: State, step: Step) {
    && Sized(s)
    && match step
       case Write(data) => s.writer == WIdle && |data| <= |s.memory|
       case WriterRuns => s.writer != WIdle
       case Read(i, n) => i < READERS && s.readers[i] == RIdle && n <= |s.memory|
       case ReaderRuns(i) => i < READERS && s.readers[i] != RIdle
       case Reset => Quiescent(s)
  }

  function Next(s: State, step: Step): State
    requires Enabled(s, step)
  {
    match step
    case Write(data) => s.(wbusy := true, writer := WScan(data, 0))
    case WriterRuns => WriterStep(s)
    case Read(i, n) => s.(readers := s.readers[i := RFlag(n)])
    case ReaderRuns(i) => ReaderStep(s, i)
    case Reset =>
      var zero := seq(|s.memory|, i => 0);
      s.(wbusy := false, rbusy := seq(READERS, i => false), memory := zero, committed := zero,
         writeVersion := 0, readVersion := seq(READERS, i => 0), writes := 0, seen := seq(READERS, i => 0))
  }

  predicate Init(s: State) {
    && Sized(s) && Quiescent(s) && !s.wbusy && s.committed == s.memory
    && s.writeVersion == 0 && s.writes == 0
    && forall i :: 0 <= i < READERS ==> !s.rbusy[i] && s.readVersion[i] == 0 && s.seen[i] == 0
  }

  predicate IsRun(ss: seq<State>, steps: seq<Step>) {
    && |ss| == |steps| + 1
    && forall i :: 0 <= i < |steps| ==> Enabled(ss[i], steps[i]) && ss[i + 1] == Next(ss[i], steps[i])
  }

  // ----- the invariant -----

  predicate WriterInside(pc: WriterPc) { pc.WCopy? || pc.WVersion? || pc.WClear? }

  predicate ReaderInside(pc: ReaderPc) { pc.RCopy? || pc.RLoad? || pc.RStore? || pc.RClear? }

  predicate FlagUp(pc: ReaderPc) { pc.RCheck? || pc.RBackOff? || ReaderInside(pc) }

  /** The readers the writer has already found out of the way. */
  function Cleared(pc: WriterPc): nat {
    if pc.WScan? then pc.next else if WriterInside(pc) then READERS else 0
  }

  predicate Flags(s: State) {
    && Sized(s)
    && (s.wbusy <==> s.writer != WIdle)
    && (s.writer.WScan? ==> s.writer.next <= READERS)
    && forall i :: 0 <= i < READERS ==> (s.rbusy[i] <==> FlagUp(s.readers[i]))
  }

  predicate Exclusive(s: State)
    requires Sized(s)
  {
    forall i :: 0 <= i < READERS && i < Cleared(s.writer) ==> !ReaderInside(s.readers[i])
  }

  /** What a reader has copied so far is a prefix of the last completed write. */
  predicate Untorn(s: State)
    requires Sized(s)
  {
    && |s.committed| == |s.memory|
    && (s.writer.WScan? || s.writer.WCopy? ==> |s.writer.data| <= |s.memory|)
    && (if s.writer.WCopy? then HalfWritten(s.memory, s.committed, s.writer.data, s.writer.copied)
        else s.memory == s.committed)
    && (forall i :: 0 <= i < READERS && s.readers[i] != RIdle ==> s.readers[i].len <= |s.memory|)
    && (forall i :: 0 <= i < READERS && ReaderInside(s.readers[i]) ==> CopiedFrom(s.readers[i], s.committed))
  }

  /** The first k bytes are the new write's, the rest still the old ones. */
  predicate HalfWritten(memory: Data, committed: Data, data: Data, k: nat) {
    && k <= |data| <= |memory| == |committed|
    && memory == data[..k] + committed[k..]
  }

  predicate CopiedFrom(pc: ReaderPc, source: Data)
    requires ReaderInside(pc)
  {
    && pc.buf <= source
    && |pc.buf| <= pc.len
    && (!pc.RCopy? ==> |pc.buf| == pc.len)
  }

  function Versions(s: State): nat { s.writes + if s.writer.WClear? then 1 else 0 }

  predicate Counted(s: State)
    requires Sized(s)
  {
    && s.writeVersion == Versions(s) % TWO32
    && forall i :: 0 <= i < READERS && i != EXTERNAL ==>
         && (s.readers[i].RStore? ==> s.readers[i].version == s.writeVersion)
         && s.readVersion[i] == (if s.readers[i].RClear? then s.writeVersion else s.seen[i] % TWO32)
         && s.seen[i] <= s.writes
  }

  predicate Inv(s: State) { Flags(s) && Exclusive(s) && Untorn(s) && Counted(s) }

  lemma InitInv(s: State)
    requires Init(s)
    ensures Inv(s)
  {
  }

  lemma WriterKeepsInv(s: State)
    requires Inv(s) && Enabled(s, WriterRuns)
    ensures Inv(WriterStep(s))
  {
    var s' := WriterStep(s);
    assert Flags(s');
    assert Exclusive(s');
    assert Untorn(s') by {
      if s.writer.WCopy? {
        assert forall i :: 0 <= i < READERS ==> !ReaderInside(s.readers[i]);
      }
    }
    assert Counted(s');
  }

  lemma ReaderKeepsFlags(s: State, i: nat)
    requires Flags(s) && Enabled(s, ReaderRuns(i))
    ensures Flags(ReaderStep(s, i))
  {
  }

  /** A reader gets in only past a clear wbusy, that is, with no writer at work. */
  lemma ReaderKeepsExclusion(s: State, i: nat)
    requires Flags(s) && Exclusive(s) && Enabled(s, ReaderRuns(i))
    ensures Sized(ReaderStep(s, i)) && Exclusive(ReaderStep(s, i))
  {
    assert ReaderInside(ReaderStep(s, i).readers[i]) ==> ReaderInside(s.readers[i]) || !s.wbusy;
  }

  lemma ReaderLeavesRest(s: State, i: nat)
    requires Enabled(s, ReaderRuns(i))
    ensures var s' := ReaderStep(s, i);
            && Sized(s') && s'.memory == s.memory && s'.committed == s.committed && s'.writer == s.writer
            && forall j :: 0 <= j < READERS && j != i ==> s'.readers[j] == s.readers[j]
  {
  }

  /** One more byte of an undisturbed copy is one more byte of the last write. */
  lemma ReaderCopies(s: State, i: nat)
    requires Flags(s) && Exclusive(s) && Untorn(s) && Enabled(s, ReaderRuns(i))
    ensures var pc := ReaderStep(s, i).readers[i];
            && (pc != RIdle ==> pc.len <= |s.memory|)
            && (ReaderInside(pc) ==> CopiedFrom(pc, s.committed))
  {
    hide HalfWritten;
    if ReaderInside(s.readers[i]) {
      assert !WriterInside(s.writer);
      assert CopiedFrom(s.readers[i], s.committed);
    }
  }

  lemma ReaderKeepsUntorn(s: State, i: nat)
    requires Flags(s) && Exclusive(s) && Untorn(s) && Enabled(s, ReaderRuns(i))
    ensures Untorn(ReaderStep(s, i))
  {
    hide HalfWritten, ReaderStep, CopiedFrom;
    ReaderLeavesRest(s, i);
    ReaderCopies(s, i);
  }

  lemma ReaderKeepsCount(s: State, i: nat)
    requires Inv(s) && Enabled(s, ReaderRuns(i))
    ensures Counted(ReaderStep(s, i))
  {
    hide Untorn;
    if ReaderInside(s.readers[i]) {
      assert !WriterInside(s.writer);
    }
  }

  lemma StepKeepsInv(s: State, step: Step)
    requires Inv(s) && Enabled(s, step)
    ensures Inv(Next(s, step))
  {
    hide WriterStep, ReaderStep;
    match step
    case WriterRuns => WriterKeepsInv(s);
    case ReaderRuns(i) =>
      ReaderKeepsFlags(s, i);
      ReaderKeepsExclusion(s, i);
      ReaderKeepsUntorn(s, i);
      ReaderKeepsCount(s, i);
    case _ =>
  }

  lemma {:induction false} InvAlways(ss: seq<State>, steps: seq<Step>, i: nat)
    requires IsRun(ss, steps) && Init(ss[0]) && i < |ss|
    ensures Inv(ss[i])
  {
    if i == 0 {
      InitInv(ss[0]);
    } else {
      InvAlways(ss, steps, i - 1);
      StepKeepsInv(ss[i - 1], steps[i - 1]);
    }
  }

  // ----- theorems -----

  /** In every run the writer's copy never overlaps a reader's. */
  lemma NoOverlap(ss: seq<State>, steps: seq<Step>, i: nat, r: nat)
    requires IsRun(ss, steps) && Init(ss[0]) && i < |ss| && r < READERS
    ensures Sized(ss[i]) && !(WriterInside(ss[i].writer) && ReaderInside(ss[i].readers[r]))
  {
    InvAlways(ss, steps, i);
  }

  /** What a read returns is the front part of one completed write, never a mixture. */
  lemma NoTornRead(ss: seq<State>, steps: seq<Step>, i: nat, r: nat)
    requires IsRun(ss, steps) && Init(ss[0]) && i < |ss| && r < READERS
    requires |ss[i].readers| == READERS && ss[i].readers[r].RClear?
    ensures ss[i].memory == ss[i].committed
    ensures ss[i].readers[r].len <= |ss[i].committed| && ss[i].readers[r].buf == ss[i].committed[..ss[i].readers[r].len]
  {
    InvAlways(ss, steps, i);
    assert CopiedFrom(ss[i].readers[r], ss[i].committed);
  }

  /** A completed copy has replaced the front of the channel by the data, and nothing else. */
  lemma CommitIsTheWrite(ss: seq<State>, steps: seq<Step>, i: nat)
    requires IsRun(ss, steps) && Init(ss[0]) && i < |steps| && ss[i].writer.WCopy? && ss[i + 1].writer.WVersion?
    ensures var data := ss[i].writer.data;
            |data| <= |ss[i].committed| && ss[i + 1].committed == data + ss[i].committed[|data|..]
  {
    InvAlways(ss, steps, i);
    assert Enabled(ss[i], steps[i]);
    assert Untorn(ss[i]);
    var data := ss[i].writer.data;
    assert data[..|data|] == data;
  }

  /** A copy of the channel is complete in this step. */
  predicate Commits(s: State, t: State) { s.writer.WCopy? && t.writer.WVersion? }

  /** Until its copy is complete a write keeps the data it was called with. */
  lemma {:induction false} WriteKeepsItsData(ss: seq<State>, steps: seq<Step>, j: nat, i: nat)
    requires IsRun(ss, steps) && Init(ss[0]) && j < i < |ss| && steps[j].Write?
    requires forall m :: j < m < i ==> !Commits(ss[m], ss[m + 1])
    ensures (ss[i].writer.WScan? || ss[i].writer.WCopy?) && ss[i].writer.data == steps[j].data
    ensures ss[i].committed == ss[j].committed
  {
    assert Enabled(ss[i - 1], steps[i - 1]);
    if j < i - 1 {
      WriteKeepsItsData(ss, steps, j, i - 1);
    }
  }

  /** What write_pdu commits is what it was given: the next completed copy after the
      call replaces the front of the channel by that data, and nothing else. */
  lemma WriteCommitsItsData(ss: seq<State>, steps: seq<Step>, j: nat, i: nat)
    requires IsRun(ss, steps) && Init(ss[0]) && j < i < |steps| && steps[j].Write?
    requires Commits(ss[i], ss[i + 1]) && forall m :: j < m < i ==> !Commits(ss[m], ss[m + 1])
    ensures var data := steps[j].data;
            |data| <= |ss[j].committed| && ss[i + 1].committed == data + ss[j].committed[|data|..]
  {
    WriteKeepsItsData(ss, steps, j, i);
    CommitIsTheWrite(ss, steps, i);
  }

  /** Between commits and resets the channel's contents stay. */
  lemma OnlyCommitsChange(ss: seq<State>, steps: seq<Step>, i: nat)
    requires IsRun(ss, steps) && Init(ss[0]) && i < |steps|
    ensures ss[i + 1].committed == ss[i].committed || Commits(ss[i], ss[i + 1]) || steps[i] == Reset
  {
    assert Enabled(ss[i], steps[i]);
  }

  /** A read call under way is that of slot r for n bytes. */
  lemma {:induction false} ReadKeepsItsLength(ss: seq<State>, steps: seq<Step>, j: nat, i: nat, r: nat, n: nat)
    requires IsRun(ss, steps) && Init(ss[0]) && j < i < |ss| && steps[j] == Read(r, n)
    requires forall m :: j < m <= i ==> |ss[m].readers| == READERS && r < READERS && ss[m].readers[r] != RIdle
    ensures ss[i].readers[r].len == n
  {
    if j < i - 1 {
      hide Next, Enabled, Init;
      ReadKeepsItsLength(ss, steps, j, i - 1, r, n);
      StepKeepsLength(ss[i - 1], steps[i - 1], r);
    } else {
      hide ReaderStep, WriterStep;
      assert Enabled(ss[j], steps[j]);
    }
  }

  lemma StepKeepsLength(s: State, step: Step, r: nat)
    requires Enabled(s, step) && r < READERS && s.readers[r] != RIdle
    ensures Sized(Next(s, step))
    ensures Next(s, step).readers[r] != RIdle ==> Next(s, step).readers[r].len == s.readers[r].len
  {
    if step.ReaderRuns? {
      ReaderLeavesRest(s, step.slot);
    }
  }

  /** What read_pdu returns is as long as was asked for, and the front of the last
      completed write at that moment. */
  lemma ReadReturnsItsLength(ss: seq<State>, steps: seq<Step>, j: nat, i: nat, r: nat, n: nat)
    requires IsRun(ss, steps) && Init(ss[0]) && j < i < |ss| && steps[j] == Read(r, n)
    requires forall m :: j < m <= i ==> |ss[m].readers| == READERS && r < READERS && ss[m].readers[r] != RIdle
    requires ss[i].readers[r].RClear?
    ensures n <= |ss[i].committed| && ss[i].readers[r].buf == ss[i].committed[..n]
  {
    ReadKeepsItsLength(ss, steps, j, i, r, n);
    NoTornRead(ss, steps, i, r);
  }

  /** Nothing is ruled out: a write or read that fits may be called whenever its own last
      call is over, and a call under way may always go on. */
  lemma NothingIsRuledOut(s: State, data: Data, r: nat, n: nat)
    requires Sized(s) && r < READERS
    ensures s.writer == WIdle && |data| <= |s.memory| ==> Enabled(s, Write(data)) && Next(s, Write(data)).wbusy
    ensures s.writer != WIdle ==> Enabled(s, WriterRuns)
    ensures s.readers[r] == RIdle && n <= |s.memory| ==>
              Enabled(s, Read(r, n)) && Next(s, Read(r, n)).readers[r] != RIdle
    ensures s.readers[r] != RIdle ==> Enabled(s, ReaderRuns(r))
  {
  }

  /** A reset leaves zeros everywhere, and nothing dirty. */
  lemma ResetClears(s: State)
    requires Enabled(s, Reset)
    ensures var t := Next(s, Reset);
            && |t.memory| == |s.memory| && t.committed == t.memory && Quiescent(t) && !t.wbusy
            && (forall i :: 0 <= i < |t.memory| ==> t.memory[i] == 0)
            && Sized(t) && (forall a :: 0 <= a < READERS ==> !t.rbusy[a] && !IsDirty(t, a))
  {
  }

  /** Once wbusy is set no further reader enters: the set the writer waits out only shrinks. */
  lemma ReadersOnlyLeave(ss: seq<State>, steps: seq<Step>, i: nat, r: nat)
    requires IsRun(ss, steps) && Init(ss[0]) && i < |steps| && r < READERS && ss[i].wbusy
    ensures Sized(ss[i]) && Sized(ss[i + 1])
    ensures ReaderInside(ss[i + 1].readers[r]) ==> ReaderInside(ss[i].readers[r])
  {
    hide Counted, Untorn;
    InvAlways(ss, steps, i);
    InvAlways(ss, steps, i + 1);
    assert Enabled(ss[i], steps[i]);
  }

  // How long a write takes.

  /** Writer steps still needed when nobody stands in the way. */
  function StepsToGo(pc: WriterPc): int {
    match pc
    case WIdle => 0
    case WScan(data, i) => READERS - i + |data| + 4
    case WCopy(data, k) => |data| - k + 3
    case WVersion => 2
    case WClear => 1
  }

  /** How often the writer runs in steps i to j. */
  function WriterRunsIn(steps: seq<Step>, i: nat, j: nat): nat
    requires i <= j <= |steps|
  {
    if i == j then 0 else WriterRunsIn(steps, i, j - 1) + if steps[j - 1].WriterRuns? then 1 else 0
  }

  /** A writer step that finds a reader's flag up and sends the scan back to the start. */
  predicate SentBack(s: State, step: Step) {
    && step.WriterRuns? && s.writer.WScan? && s.writer.next < |s.rbusy|
    && s.rbusy[s.writer.next]
  }

  function SentBackIn(ss: seq<State>, steps: seq<Step>, i: nat, j: nat): nat
    requires i <= j <= |steps| < |ss|
  {
    if i == j then 0 else SentBackIn(ss, steps, i, j - 1) + if SentBack(ss[j - 1], steps[j - 1]) then 1 else 0
  }

  lemma StepCounts(s: State, step: Step)
    requires Inv(s) && Enabled(s, step) && !step.Write?
    ensures var less := StepsToGo(s.writer) - StepsToGo(Next(s, step).writer);
            if SentBack(s, step) then -READERS < less <= 0 else less == if step.WriterRuns? then 1 else 0
  {
    hide Counted, Exclusive;
  }

  /** What a write costs in every run, whatever the readers do: a write of n bytes
      is over after READERS + n + 4 writer steps, plus at most READERS for each time
      the scan was sent back. Undisturbed, it is over after exactly that many. */
  lemma {:induction false} WriteFinishes(ss: seq<State>, steps: seq<Step>, i: nat, j: nat)
    requires IsRun(ss, steps) && Init(ss[0]) && i <= j < |ss|
    requires forall m :: i <= m < j ==> !steps[m].Write?
    ensures WriterRunsIn(steps, i, j) <=
            StepsToGo(ss[i].writer) - StepsToGo(ss[j].writer) + READERS * SentBackIn(ss, steps, i, j)
    ensures StepsToGo(ss[j].writer) >= 0 && (StepsToGo(ss[j].writer) == 0 <==> ss[j].writer == WIdle)
    ensures SentBackIn(ss, steps, i, j) == 0 ==>
              WriterRunsIn(steps, i, j) == StepsToGo(ss[i].writer) - StepsToGo(ss[j].writer)
  {
    hide Inv, Next, Enabled, SentBack, StepsToGo;
    if i < j {
      WriteFinishes(ss, steps, i, j - 1);
      InvAlways(ss, steps, j - 1);
      assert !steps[j - 1].Write?;
      StepCounts(ss[j - 1], steps[j - 1]);
      OnlyWriterIsSentBack(ss[j - 1], steps[j - 1]);
    }
    InvAlways(ss, steps, j);
    ToGoIsPositive(ss[j]);
  }

  lemma OnlyWriterIsSentBack(s: State, step: Step)
    ensures SentBack(s, step) ==> step.WriterRuns?
  {
  }

  lemma ToGoIsPositive(s: State)
    requires Inv(s)
    ensures StepsToGo(s.writer) >= 0 && (StepsToGo(s.writer) == 0 <==> s.writer == WIdle)
  {
  }

  // How long a read takes.

  /** Reader steps still needed when no writer is about. */
  function ReadToGo(pc: ReaderPc, external: bool): int {
    var tail := if external then 1 else 3;
    match pc
    case RIdle => 0
    case RFlag(n) => n + tail + 3
    case RCheck(n) => n + tail + 2
    case RBackOff(n) => n + tail + 4
    case RCopy(n, buf) => n - |buf| + tail + 1
    case RLoad(n, buf) => 3
    case RStore(n, buf, v) => 2
    case RClear(n, buf) => 1
  }

  /** A reader step that sees the writer, and so costs a way round. */
  predicate TurnedBack(s: State, step: Step, r: nat) {
    step == ReaderRuns(r) && r < |s.readers| && s.readers[r].RCheck? && s.wbusy
  }

  function ReaderRunsIn(steps: seq<Step>, r: nat, i: nat, j: nat): nat
    requires i <= j <= |steps|
  {
    if i == j then 0 else ReaderRunsIn(steps, r, i, j - 1) + if steps[j - 1] == ReaderRuns(r) then 1 else 0
  }

  lemma CopyFits(s: State, r: nat)
    requires Inv(s) && r < READERS
    ensures Sized(s) && (s.readers[r].RCopy? ==> |s.readers[r].buf| <= s.readers[r].len <= |s.memory|)
  {
    hide Counted, Exclusive, HalfWritten;
    if s.readers[r].RCopy? {
      assert CopiedFrom(s.readers[r], s.committed);
    }
  }

  lemma OwnStepCounts(s: State, r: nat)
    requires Enabled(s, ReaderRuns(r)) && !TurnedBack(s, ReaderRuns(r), r)
    requires s.readers[r].RCopy? ==> |s.readers[r].buf| <= s.readers[r].len <= |s.memory|
    ensures Sized(ReaderStep(s, r))
    ensures ReadToGo(ReaderStep(s, r).readers[r], r == EXTERNAL) == ReadToGo(s.readers[r], r == EXTERNAL) - 1
  {
  }

  lemma OthersLeaveReader(s: State, step: Step, r: nat)
    requires Enabled(s, step) && r < READERS && step != ReaderRuns(r) && !(step.Read? && step.reader == r)
    ensures Sized(Next(s, step)) && Next(s, step).readers[r] == s.readers[r]
  {
    if step.ReaderRuns? {
      ReaderLeavesRest(s, step.slot);
    }
    hide ReaderStep;
  }

  lemma ReadStepCounts(s: State, step: Step, r: nat)
    requires Inv(s) && Enabled(s, step) && r < READERS && !(step.Read? && step.reader == r) && !TurnedBack(s, step, r)
    ensures Sized(Next(s, step))
    ensures ReadToGo(Next(s, step).readers[r], r == EXTERNAL) ==
            ReadToGo(s.readers[r], r == EXTERNAL) - if step == ReaderRuns(r) then 1 else 0
  {
    if step == ReaderRuns(r) {
      CopyFits(s, r);
      OwnStepCounts(s, r);
    } else {
      OthersLeaveReader(s, step, r);
    }
    hide Inv, ReaderStep, WriterStep, ReadToGo;
  }

  /** In every run a read of n bytes that does not meet a writer is over after exactly
      n + 4 steps of the external reader, or n + 6 of an asset. */
  lemma {:induction false} ReadFinishes(ss: seq<State>, steps: seq<Step>, i: nat, j: nat, r: nat)
    requires IsRun(ss, steps) && Init(ss[0]) && i <= j < |ss| && r < READERS
    requires forall m :: i <= m < j ==>
               !(steps[m].Read? && steps[m].reader == r) && !TurnedBack(ss[m], steps[m], r)
    ensures Sized(ss[i]) && Sized(ss[j])
    ensures ReadToGo(ss[j].readers[r], r == EXTERNAL) ==
            ReadToGo(ss[i].readers[r], r == EXTERNAL) - ReaderRunsIn(steps, r, i, j)
    ensures ReadToGo(ss[j].readers[r], r == EXTERNAL) >= 0
    ensures ReadToGo(ss[j].readers[r], r == EXTERNAL) == 0 <==> ss[j].readers[r] == RIdle
  {
    hide Inv, Next, Enabled, TurnedBack, ReadToGo;
    InvAlways(ss, steps, i);
    SizedByInv(ss[i]);
    if i < j {
      ReadFinishes(ss, steps, i, j - 1, r);
      InvAlways(ss, steps, j - 1);
      assert !TurnedBack(ss[j - 1], steps[j - 1], r);
      ReadStepCounts(ss[j - 1], steps[j - 1], r);
    }
    InvAlways(ss, steps, j);
    ReadToGoIsPositive(ss[j], r);
  }

  lemma SizedByInv(s: State)
    requires Inv(s)
    ensures Sized(s)
  {
  }

  lemma ReadToGoIsPositive(s: State, r: nat)
    requires Inv(s) && r < READERS
    ensures Sized(s) && ReadToGo(s.readers[r], r == EXTERNAL) >= 0
    ensures ReadToGo(s.readers[r], r == EXTERNAL) == 0 <==> s.readers[r] == RIdle
  {
    hide Counted, Exclusive, HalfWritten;
  }

  // How long a write may be kept out.

  /** The writer can be kept out for ever: a reader that raises its flag,
      sees wbusy, and backs off is enough to send the scan back to the start. */
  function Contended(): State {
    State(true, seq(READERS, i => false), [], 0, seq(READERS, i => 0), WScan([], 0),
          seq(READERS, i => if i == EXTERNAL then RFlag(0) else RIdle), [], 0, seq(READERS, i => 0))
  }

  /** Raise, scan, look, back off: four steps in a circle. */
  function Circle(): seq<Step> { [ReaderRuns(EXTERNAL), WriterRuns, ReaderRuns(EXTERNAL), ReaderRuns(EXTERNAL)] }

  lemma CircleCloses() returns (ss: seq<State>)
    ensures IsRun(ss, Circle()) && ss[0] == Contended() && ss[4] == Contended()
    ensures forall m :: 0 <= m < 5 ==> ss[m].writer == WScan([], 0)
  {
    var s0 := Contended();
    var s1 := ReaderStep(s0, EXTERNAL);
    var s2 := WriterStep(s1);
    var s3 := ReaderStep(s2, EXTERNAL);
    var s4 := ReaderStep(s3, EXTERNAL);
    assert s4.rbusy == s0.rbusy && s4.readers == s0.readers;
    ss := [s0, s1, s2, s3, s4];
  }

  lemma RunsJoin(ss: seq<State>, steps: seq<Step>, tt: seq<State>, more: seq<Step>)
    requires IsRun(ss, steps) && IsRun(tt, more) && ss[|steps|] == tt[0]
    ensures IsRun(ss + tt[1..], steps + more)
  {
    hide Next;
    var all, every := ss + tt[1..], steps + more;
    forall i | 0 <= i < |every|
      ensures Enabled(all[i], every[i]) && all[i + 1] == Next(all[i], every[i])
    {
      if i >= |steps| {
        assert all[i] == tt[i - |steps|] && all[i + 1] == tt[i + 1 - |steps|];
      }
    }
  }

  /** So for every n there is a run in which one write_pdu call of no bytes at all
      has made n fruitless steps and is still at the start of its scan. */
  lemma {:induction false} ScanCanStarve(n: nat) returns (ss: seq<State>, steps: seq<Step>)
    ensures IsRun(ss, steps) && Init(ss[0]) && |steps| == 2 + 4 * n
    ensures forall m :: 2 <= m < |ss| ==> ss[m].writer == WScan([], 0)
    ensures ss[|steps|] == Contended() && WriterRunsIn(steps, 2, |steps|) == n
  {
    if n == 0 {
      ss, steps := ContentionStarts();
    } else {
      hide Next, Contended, Init, Circle, IsRun, WriterRunsIn;
      ss, steps := ScanCanStarve(n - 1);
      RunLength(ss, steps);
      var tt := CircleCloses();
      RunLength(tt, Circle());
      RunsJoin(ss, steps, tt, Circle());
      CountInCircle(steps);
      RunLength(ss + tt[1..], steps + Circle());
      ss, steps := ss + tt[1..], steps + Circle();
    }
  }

  lemma RunLength(ss: seq<State>, steps: seq<Step>)
    requires IsRun(ss, steps)
    ensures |ss| == |steps| + 1
  {
  }

  lemma ContentionStarts() returns (ss: seq<State>, steps: seq<Step>)
    ensures IsRun(ss, steps) && Init(ss[0]) && |steps| == 2 && ss[2] == Contended()
    ensures WriterRunsIn(steps, 2, 2) == 0
  {
    var quiet := Contended().(wbusy := false, writer := WIdle, readers := seq(READERS, i => RIdle));
    steps := [Write([]), Read(EXTERNAL, 0)];
    var called := quiet.(wbusy := true, writer := WScan([], 0));
    assert Contended().readers == called.readers[EXTERNAL := RFlag(0)];
    ss := [quiet, called, Contended()];
  }

  lemma {:induction false} CountExtends(steps: seq<Step>, more: seq<Step>, i: nat, j: nat)
    requires i <= j <= |steps|
    ensures WriterRunsIn(steps + more, i, j) == WriterRunsIn(steps, i, j)
  {
    if i < j {
      CountExtends(steps, more, i, j - 1);
    }
  }

  lemma CountInCircle(steps: seq<Step>)
    requires |steps| >= 2
    ensures |Circle()| == 4 && WriterRunsIn(steps + Circle(), 2, |steps| + 4) == WriterRunsIn(steps, 2, |steps|) + 1
  {
    var all, n := steps + Circle(), |steps|;
    CountExtends(steps, Circle(), 2, n);
    assert WriterRunsIn(all, 2, n + 1) == WriterRunsIn(all, 2, n);
    assert WriterRunsIn(all, 2, n + 2) == WriterRunsIn(all, 2, n) + 1;
    assert WriterRunsIn(all, 2, n + 3) == WriterRunsIn(all, 2, n) + 1;
    assert WriterRunsIn(all, 2, n + 4) == WriterRunsIn(all, 2, n) + 1;
  }

  predicate IsDirty(s: State, asset: nat)
    requires asset < READERS && Sized(s)
  {
    s.readVersion[asset] != s.writeVersion
  }

  lemma ModDifference(a: nat, b: nat)
    requires a <= b
    ensures a % TWO32 == b % TWO32 <==> (b - a) % TWO32 == 0
  {
  }

  /** The dirty check is exact when nothing is in progress: it holds iff the number
      of writes completed since the asset's last read is not a multiple of 2^32. */
  lemma DirtyIsExact(ss: seq<State>, steps: seq<Step>, i: nat, asset: nat)
    requires IsRun(ss, steps) && Init(ss[0]) && i < |ss| && asset < READERS && asset != EXTERNAL
    requires Quiescent(ss[i])
    ensures Sized(ss[i]) && ss[i].seen[asset] <= ss[i].writes
    ensures IsDirty(ss[i], asset) <==> (ss[i].writes - ss[i].seen[asset]) % TWO32 != 0
  {
    InvAlways(ss, steps, i);
    ModDifference(ss[i].seen[asset], ss[i].writes);
  }
}
