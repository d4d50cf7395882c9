# Hakoniwa core: verified models of its shared-memory protocols

Dafny models of the protocols that the processes of a Hakoniwa simulation run over one
shared memory image and one lock file, with proofs of what they promise:

* the crash-tolerant **master lock** kept in `flock.bin` (`LockTypes`, `ProcessIdentity`,
  `Bytes`, `LockFile`, `FlockClient`, `MasterLockProtocol`, `MasterLockSafety`,
  `MasterLockProgress`, `MasterLockTheorems`, `LockRefinement`);
* the **PDU channels**: busy-flag exchange, memory layout, channel table and caches
  (`PduExchange`, `PduMemory`, `Names`, `ChannelTable`);
* the **simulation life cycle**: asset registry, events and feedback (`LifeCycle`,
  `LifeCycleRuns`, `LifeCycleAnswers`, `LateEvents`, `MasterData`), and the start barrier (`StartBarrier`,
  `BarrierTheorems`, `BarrierRuns`);
* **distributed time**: the world clock, the assets' clocks, and the master's main call
  (`WorldTime`, `Conductor`);
* all of it together in the **first session** of a simulation (`FirstSession`).

`Common` holds the sizes of the shared image. `dafny verify dfyconfig.toml` checks everything.

## How to read it

Where several processes act at once, the model is a step machine: a `State`, a `Step`,
`Enabled`, `Next`, and `IsRun` for whole runs. In the lock, the PDU exchange, the start
barrier and the clocks one step is one load, one store, one file write or one OS-lock
operation; `create` of the PDU data is the two stores the assets look at, mode and number
of assets. In the life cycle one step is one section under the master lock, or the
publication of an event to one slot, which the code does without the lock. All
interleavings of these steps are covered, and theorems quantify over
all runs. Where one process works alone (under the master lock, or on its own handle), the
model is a class whose methods update fields and arrays in place and are proved equal to
the functions the theorems speak about. `LockRefinement` joins the two views of the lock:
the bytes the calls write are, after every single write, what the steps of the machine do.
`FirstSession` runs the life cycle, the start barrier and the clocks as one machine.

`FlockClient` lets the other processes do anything to the file whenever this process does
not hold the OS file lock; its clock only moves forward and a sleep lasts at least as long
as asked. Failed OS calls and attempts that find the lock taken are counted, so that every
answer of a call is tied to what the inspection, the clock or the OS said.

## Assumptions

* A (pid, start token) pair is never reused; one positioned write of a record or counter
  happens entirely or not at all; `master_unlock` is called only by the thread that locked.
* The OS file lock is exclusive per file handle and is dropped when its process dies.
* The identity lookup is never wrong when it says Alive or Dead (`ProcessIdentity` derives
  this from the two questions it asks the OS).
* Flags and versions are sequentially consistent; the code uses acquire/release
  (src/hako/data/hako_base_data.hpp:28-50).
* One writer per PDU channel, one reader per asset slot, one external reader; a PDU reset
  happens while nobody accesses the channel or reports a PDU write.
* Only registered assets report PDU writes, no asset leaves in the middle of such a report,
  and none reports a time before the PDU data exists.
* The default build, without `FIX_PDU_CREATE_TIMING` and `HAKO_CORE_EXTENSION`, on a
  64-bit machine; integers in the lock file are little-endian.
* `HAKO_ASSERT` is not used as a source of facts: when its expression is false it calls
  `assert(!(expr))`, which passes (src/hako/utils/hako_assert.hpp:10-16).

## What turned out to need a condition

* The start barrier holds the world back until every asset has reported, in every session
  in which `create` got its init lock, found no flag up when it handed the clock over, and
  no report ended its count between `create`'s store of the mode
  (src/hako/data/hako_pdu_data.hpp:570) and its store of the number of assets (:586)
  (`BarrierTheorems.BarrierHolds`). Each condition is needed as soon as two assets are
  registered: a report between the stores gives the clock back by itself
  (`BarrierRuns.EarlyReportOpensBarrier`); one flag left up stands for an asset that never
  reports (`BarrierRuns.StaleFlagOpensBarrier`), as after a stop and a start without a reset
  (`BarrierRuns.SecondSessionHasNoBarrier`); without the lock the world may move at once and
  reports are ignored (`BarrierTheorems.FailedCreateLeavesNoBarrier`).
* Assets that report only once `is_pdu_created()` holds are never too early, so for them the
  lock and lowered flags are enough (`BarrierTheorems.GuardedBarrier`).
* The sample loop reports only where its flag is down. So its assets hand the clock back if
  and only if one of them had its flag down when the session began; otherwise, as after a
  stop and a start without a reset, the world stands still for the whole session
  (`BarrierTheorems.SampleLoopNeedsLoweredFlags`).
* The barrier loses no wake-up if and only if at least one asset is registered
  (`BarrierTheorems.NoLostWakeUp`): without assets the mode stays Asset for ever.
* The simulation runs, or has stopped, only on every asset's own feedback, provided that no
  Error and no Reset was still being published when it was started or stopped
  (`LifeCycleRuns.RunningIsAgreed`, `LifeCycleRuns.StoppedIsAgreed`). The publication runs
  after the lock is released (src/hako/hako_simevent_impl.cpp:34-38), and one that arrives
  late sets a feedback flag nobody has given (`LateEvents.LateErrorStartsUnasked`,
  `LateEvents.LateResetStartsUnasked`, `LateEvents.LateErrorStopsUnasked`).
* "No asset lags by more than max_delay" for times that are multiples of delta holds if and
  only if max_delay is a multiple of delta too (`WorldTime.AlignedDriftBound`,
  `WorldTime.UnalignedDelayIsExceeded`).
* "If the master cannot step, every lagging asset can go on by itself" holds in every state
  if and only if max_delay >= delta (`WorldTime.NeverStuck`,
  `WorldTime.UnpublishedStepStalls`); below that, an asset may first have to wait for the
  master to publish the step it has just made.
* A writer is not sure to get in: one reader that keeps raising its flag and backing off
  sends the scan back for ever (`PduExchange.ScanCanStarve`). What a write costs is exact in
  the number of times it was sent back (`PduExchange.WriteFinishes`).
* An access of at least one byte stays inside the PDU buffer if and only if its channel was
  in the table at `create` (`PduMemory.AccessStaysInside`); channels of that time go on
  round-tripping when others are added.
* Name comparison by `strncmp` stops at a NUL byte: it sees exactly the C strings
  (`Names.StrncmpSeesCStrings`); two names with NULs can collide (`ChannelTable.NulNamesCollide`).
* Registering does not clear the slot's event, so an asset in a slot whose last occupant was
  failed by a timeout is excused from a reset it was never asked for, unless a start or a
  feedback call of its own has overwritten the event meanwhile
  (`LifeCycleRuns.NewcomerInheritsMark`; `LateEvents.NewcomerIsExcused` is such a run).
  A reset excuses exactly the slots that bear the Error event when it is published
  (`LifeCycleRuns.ExcusedIffMarked`).
* Generations are documented as monotonically increasing (docs/master-lock-fail-stop.md:8-14);
  the 64-bit counter wraps, so this is proved up to 2^64 acquisitions.

## Model

| member | source | states |
|---|---|---|
| `LockTypes.Inspect` | src/hako/utils/hako_share/impl/hako_sem_flock.cpp:108-182 | OK means exactly: free with counter 1 and no owner, or LOCKED with counter 0 by a live owner; ABORT exactly a non-free record whose owner is dead; each UNKNOWN cause goes with its failed check; counter, state, owner and generation are reported as read |
| `ProcessIdentity.CheckIsTruthful` | src/hako/utils/hako_share/impl/hako_process_identity.cpp:108-187 | Alive and Dead are never said in error, zombies and missing processes count as dead, and a readable non-zero start time always decides |
| `LockFile.MetadataChecksum` | src/hako/utils/hako_share/impl/hako_sem_flock.cpp:46-57 | the loop computes the fold of the hash rounds over the record with its checksum field zeroed |
| `LockFile.RoundInjective` | src/hako/utils/hako_share/impl/hako_sem_flock.cpp:52-55 | one round (xor a byte, multiply by the odd prime modulo 2^64) loses neither the hash nor the byte |
| `LockFile.HashSeesByte` | src/hako/utils/hako_share/impl/hako_sem_flock.cpp:51-56 | a single changed byte changes the hash, through all remaining rounds |
| `LockFile.RecordRoundTrip` | src/hako/utils/hako_share/impl/hako_sem_flock.cpp:26-41 | a record written with its checksum parses back to itself |
| `LockFile.LayoutIs` | src/hako/utils/hako_share/impl/hako_sem_flock.cpp:26-41 | where each field of a written record is, and its magic, version and size |
| `LockFile.AcceptedIff` | src/hako/utils/hako_share/impl/hako_sem_flock.cpp:124-149 | a record is accepted iff all five checks pass; which failed check is named |
| `Bytes.FourBytes` | src/hako/utils/hako_share/impl/posix/hako_flock.cpp:169-196 | an int in the file is read least significant byte first |
| `LockFile.OneByteBreaksChecksum` | src/hako/utils/hako_share/impl/hako_sem_flock.cpp:89-94 | changing any one of the 48 bytes of a record whose checksum matches breaks the match |
| `LockFile.CorruptionIsDetected` | src/hako/utils/hako_share/impl/hako_sem_flock.cpp:124-144 | after such a change inspection says UNKNOWN with a format, version or corruption cause, whatever the identity lookup answers |
| `LockFile.RecordWritten` | src/hako/utils/hako_share/impl/hako_sem_flock.cpp:89-94 | writing a record reads back as that record and moves none of the 1024 counters |
| `LockFile.CounterWritten` | src/hako/utils/hako_share/impl/posix/hako_flock.cpp:169-196 | writing a counter reads back and moves neither the record nor another counter |
| `FlockClient.Client.Checkpoint` | src/hako/utils/hako_share/impl/hako_flock_wait.cpp:35-51 | it passes iff there is no wait scope, or no interrupt and time left; an interrupt takes precedence over a timeout |
| `FlockClient.Client.Acquire` | src/hako/utils/hako_share/impl/posix/hako_flock.cpp:99-135 | nesting count goes up by one exactly on success; it fails only if the OS call does, the scope's time is up after at least one attempt, or its flag is set; terminates in a scope |
| `FlockClient.Client.Release` | src/hako/utils/hako_share/impl/posix/hako_flock.cpp:155-167 | undoes one nested acquire; the OS lock goes with the last one |
| `FlockClient.Client.LockRound` | src/hako/utils/hako_share/impl/hako_sem_flock.cpp:506-566 | one round of the lock loop: a final inspection is refused as it says, a free file is locked by the three writes unless a call fails, anything else is waited for |
| `FlockClient.Client.MasterLock` | src/hako/utils/hako_share/impl/hako_sem_flock.cpp:493-571 | for every file and every behaviour of the others: success is exactly the three writes on a free file; ABORT and UNKNOWN are answered at once as the inspection says, unknown identity only outside a scope; timeouts, interrupts and OS errors write nothing and have their cause; at most ceil(T/20) inspections in a scope of T ms |
| `FlockClient.Client.MasterUnlock` | src/hako/utils/hako_share/impl/hako_sem_flock.cpp:573-632 | exactly the release writes if the inspection is OK and LOCKED by the caller and no call fails; a bad inspection is refused as it is, a non-owner as unknown identity; the OS lock is given back on every exit |
| `FlockClient.Client.AwaitInitialisation` | src/hako/utils/hako_share/impl/hako_sem_flock.cpp:262-293 | at most 200 polls, none on an exact legacy file; goes on until a sealed record is seen, two seconds are over or the OS fails; writes nothing, holds nothing afterwards |
| `FlockClient.Client.Create` | src/hako/utils/hako_share/impl/hako_sem_flock.cpp:444-470 | a new file gets exactly the initial writes; of a found file a master clears all asset counters iff it inspects as OK and UNLOCKED; nothing else is written; it ends well unless an OS call fails or a wait scope expires |
| `FlockClient.Client.InspectMasterLock` | src/hako/utils/hako_share/impl/hako_sem_flock.cpp:397-442 | reports what the bytes say, or contention if the lock is taken or the forced wait has failed, or a system error; no write; lock and wait scope restored |
| `MasterLockSafety.OtherFits` | src/hako/utils/hako_share/impl/hako_sem_flock.cpp:493-632 | a step of one thread never disturbs the place of another thread, given one owner, one creator and one OS-lock holder |
| `MasterLockSafety.StepKeepsInv` | src/hako/utils/hako_share/impl/hako_sem_flock.cpp:236-632 | every step of every thread, every spawn and every crash keeps the protocol invariant |
| `MasterLockSafety.InvAlways` | src/hako/utils/hako_share/impl/hako_sem_flock.cpp:236-632 | the invariant holds in every state of every run |
| `MasterLockProgress.LockIsGranted` | src/hako/utils/hako_share/impl/hako_sem_flock.cpp:493-566 | on a free file a call undisturbed ends with the lock, the next generation and LOCKED by the caller |
| `MasterLockProgress.UnlockIsDone` | src/hako/utils/hako_share/impl/hako_sem_flock.cpp:573-632 | and the owner's release frees the file again |
| `MasterLockProgress.LockIsAnswered` | src/hako/utils/hako_share/impl/hako_sem_flock.cpp:506-522 | a dead owner or a damaged file ends the call at once without a write; a live owner, and in a scope an unknown one, is waited for |
| `MasterLockProgress.UnlockIsRefused` | src/hako/utils/hako_share/impl/hako_sem_flock.cpp:586-598 | a release that is not the caller's ends without a write |
| `MasterLockProgress.CleanStartIff` | src/hako/utils/hako_share/impl/hako_sem_flock.cpp:295-318 | a clean start clears counters iff the lock is free |
| `MasterLockProgress.UpPosts` | src/hako/utils/hako_share/impl/hako_sem_flock.cpp:346-355 | asset_up posts one unit |
| `MasterLockProgress.DownTakes` | src/hako/utils/hako_share/impl/hako_sem_flock.cpp:323-345 | asset_down returns with one unit taken if there is one and else goes round again |
| `MasterLockProgress.DownReturnsIffTaken` | src/hako/utils/hako_share/impl/hako_sem_flock.cpp:323-345 | in any state, the step that lets asset_down return is the one that takes a unit |
| `MasterLockProgress.NothingIsRuledOut` | src/hako/utils/hako_share/impl/hako_sem_flock.cpp:236-632 | any process may die and any thread may call or go on at any moment the machine allows; a death leaves the file and drops the OS lock |
| `MasterLockTheorems.MutualExclusion` | src/hako/utils/hako_share/impl/hako_sem_flock.cpp:493-632 | at most one live thread is between a returned lock and its unlock, and until it releases the file reads LOCKED by it with counter 0 |
| `MasterLockTheorems.GenerationsIncrease` | src/hako/utils/hako_share/impl/hako_sem_flock.cpp:532-535 | successive returns of master_lock carry strictly increasing generations below 2^64 |
| `MasterLockTheorems.FailStopIsPermanent` | src/hako/utils/hako_share/impl/hako_sem_flock.cpp:162-173 | once the recorded owner has died, counter 0 and the record never change again, no lock is granted and no unlock gets past inspection |
| `MasterLockTheorems.FileIsExplainable` | src/hako/utils/hako_share/impl/hako_sem_flock.cpp:523-631 | without failed writes, a sealed file whose OS lock is free is settled or names a dead owner |
| `MasterLockTheorems.InspectionIsHonest` | src/hako/utils/hako_share/impl/hako_sem_flock.cpp:108-182 | so ABORT is said exactly for a dead owner found dead, UNKNOWN only when the identity cannot be looked up, OK otherwise |
| `MasterLockTheorems.SemaphoresAreConserved` | src/hako/utils/hako_share/impl/hako_sem_flock.cpp:323-355 | an asset counter is always ups minus granted downs since it was cleared, never negative |
| `MasterLockTheorems.StartUpIsSingle` | src/hako/utils/hako_share/impl/posix/hako_flock.cpp:26-44 | one process creates and initialises the file, before anything has been acquired |
| `MasterLockTheorems.LateCreateIsHarmless` | src/hako/utils/hako_share/impl/hako_sem_flock.cpp:262-321 | only the creator's last write seals the file; a later create never changes counter 0 or the record and clears asset counters only while UNLOCKED |
| `LockRefinement.WriteRefines` | src/hako/utils/hako_share/impl/posix/hako_flock.cpp:189-205 | one positioned write of bytes is one write of the abstract file |
| `LockRefinement.StepWrites` | src/hako/utils/hako_share/impl/hako_sem_flock.cpp:236-630 | each step of lock, unlock, initialisation and clean start makes exactly the call's next write, or fails without one |
| `LockRefinement.CallRefines` | src/hako/utils/hako_share/impl/hako_sem_flock.cpp:236-630 | after any number of a call's writes the bytes are the machine's file after as many steps: what a crash or a failed write leaves |
| `LockRefinement.LockUnlockRoundTrip` | src/hako/utils/hako_share/impl/hako_sem_flock.cpp:493-632 | lock then unlock restores the whole file, one generation later; in between it inspects OK with a live owner and ABORT with a dead one |
| `LockRefinement.InitialFileIsFree` | src/hako/utils/hako_share/impl/hako_sem_flock.cpp:236-260 | a finished initialisation leaves counter 1, an UNLOCKED record of generation 0 and every asset counter 0 |
| `LockRefinement.CleanStartEmpties` | src/hako/utils/hako_share/impl/hako_sem_flock.cpp:295-318 | a finished clean start leaves every asset counter 0 and the rest as it was |
| `PduExchange.WriterKeepsInv` | src/hako/data/hako_pdu_data.hpp:268-296 | the writer's steps, flags scanned one by one and bytes copied one by one, keep the exchange invariant |
| `PduExchange.ReaderKeepsExclusion` | src/hako/data/hako_pdu_data.hpp:384-403 | a reader gets in only while no writer is at work |
| `PduExchange.NoOverlap` | src/hako/data/hako_pdu_data.hpp:199-228 | in every run the writer's copy never overlaps a reader's |
| `PduExchange.NoTornRead` | src/hako/data/hako_pdu_data.hpp:364-440 | a read returns the front part of the last completed write |
| `PduExchange.CommitIsTheWrite` | src/hako/data/hako_pdu_data.hpp:286-289 | a completed write replaced the front of the channel by its data and nothing else |
| `PduExchange.WriteCommitsItsData` | src/hako/data/hako_pdu_data.hpp:268-289 | over runs: the copy that follows a write_pdu call puts exactly its data at the front of the channel and changes nothing else |
| `PduExchange.OnlyCommitsChange` | src/hako/data/hako_pdu_data.hpp:286-289 | nothing but a completed write or a reset changes the channel's contents |
| `PduExchange.ReadReturnsItsLength` | src/hako/data/hako_pdu_data.hpp:364-403 | over runs: what a read_pdu call for n bytes returns is the first n bytes of the last completed write |
| `PduExchange.ReadFinishes` | src/hako/data/hako_pdu_data.hpp:384-403 | a read of n bytes that meets no writer takes exactly n + 4 steps of the external reader and n + 6 of an asset |
| `PduExchange.ResetClears` | src/hako/data/hako_pdu_data.hpp:623-655 | a reset leaves zeros, no flag and nothing dirty |
| `PduExchange.ReadersOnlyLeave` | src/hako/data/hako_pdu_data.hpp:382-394 | once wbusy is set no further reader enters |
| `PduExchange.WriteFinishes` | src/hako/data/hako_pdu_data.hpp:268-296 | in every run a write of n bytes takes at most 21 + n writer steps plus 17 for each time its scan was sent back, and exactly 21 + n if it never was |
| `PduExchange.ScanCanStarve` | src/hako/data/hako_pdu_data.hpp:199-228 | for every n there is a run in which one write is still at the start of its scan after n steps |
| `PduExchange.DirtyIsExact` | src/hako/data/hako_pdu_data.hpp:192-197 | with nothing in progress a channel is dirty for an asset iff the number of writes completed since its last read is not a multiple of 2^32 |
| `PduMemory.SlicesAreDisjoint` | src/hako/data/hako_pdu_data.hpp:585-590 | prefix-sum slices lie inside the buffer and do not overlap |
| `PduMemory.WriteStaysInChannel` | src/hako/data/hako_pdu_data.hpp:282-287 | writing a channel replaces the front of that channel and changes no other channel |
| `PduMemory.PduArea.PduTotalSize` | src/hako/data/hako_pdu_data.hpp:707-718 | min(exact sum of the sizes, 2^64-1) |
| `PduMemory.PduArea.Create` | src/hako/data/hako_pdu_data.hpp:551-605 | offsets are prefix sums modulo 2^64; when the sum fits they are exact and the zeroed buffer has exactly the total size; a second call moves nothing |
| `PduMemory.PduArea.WritePdu` | src/hako/data/hako_pdu_data.hpp:249-298 | refuses over-long data untouched; otherwise splices the data in at the channel's offset and counts one version up |
| `PduMemory.PduArea.ReadPdu` | src/hako/data/hako_pdu_data.hpp:364-405 | refuses over-long reads; otherwise returns the front of the channel |
| `PduMemory.PduArea.RoundTrip` | src/hako/data/hako_pdu_data.hpp:249-405 | write, write elsewhere, read back gives the data |
| `PduMemory.PduArea.AddChannel` | src/hako/data/hako_pdu_data.hpp:109-121 | a channel added after create moves no byte of any other |
| `PduMemory.AccessStaysInside` | src/hako/data/hako_pdu_data.hpp:585-590 | with any channels added since create, a non-empty access stays inside the buffer iff its channel was in the table at create |
| `Names.StrncmpSeesCStrings` | src/hako/data/hako_pdu_data.hpp:157-162 | for all names, the comparison is equality of the parts before the first NUL |
| `Names.SameNameMeans` | src/hako/data/hako_master_data.hpp:307-323 | so comparing length and characters is an equivalence for all names, NULs or not |
| `ChannelTable.ScanIsPosition` | src/hako/data/hako_pdu_data.hpp:152-169 | a scan finds the n-th distinct key, as C sees keys, at position n and nothing else |
| `ChannelTable.NulNamesCollide` | src/hako/data/hako_pdu_data.hpp:157-162 | two different names with NULs that the scan takes for the same key |
| `ChannelTable.PduData.GetPduChannel` | src/hako/data/hako_pdu_data.hpp:143-170 | cache or no cache, the answer is the plain scan's |
| `ChannelTable.PduData.CreateLchannel` | src/hako/data/hako_pdu_data.hpp:93-128 | the table becomes the plain list of distinct requests with this one admitted, key and size; refused if too long or full |
| `ChannelTable.PduData.RebuildPduChannelIndex` | src/hako/data/hako_pdu_data.hpp:171-191 | the cache holds every non-empty name with the scan's answer, and nothing else |
| `ChannelTable.CacheAgreesWithTable` | src/hako/data/hako_pdu_data.hpp:93-191 | in every run of many processes, for all names, each lookup equals a plain scan of the list of distinct requests, and the n-th distinct key has id n; for NUL-free names keys are distinct iff they differ |
| `ChannelTable.AdmittedAreFirsts` | src/hako/data/hako_pdu_data.hpp:93-121 | each entry is the first request for its key, with that request's size |
| `ChannelTable.RequestsAreKnown` | src/hako/data/hako_pdu_data.hpp:93-121 | unless the table is full, every request with a short enough name is in it |
| `ChannelTable.StepsFillCaches` | src/hako/data/hako_pdu_data.hpp:143-191 | whose cache holds which keys after each operation |
| `StartBarrier.StepKeepsSafe` | src/hako/data/hako_pdu_data.hpp:511-634 | over any number of sessions, every load and store of reports and create, and every reset, keeps what the flags, counts and mode say about who has reported |
| `BarrierTheorems.BarrierHolds` | src/hako/data/hako_pdu_data.hpp:511-592 | in every session with the init lock, no flag up at the hand-over and no count ended between create's two stores, the world moves only after every registered asset has reported; with at most one asset the last two do not matter |
| `BarrierTheorems.FirstSessionIsFresh` | src/hako/data/hako_pdu_data.hpp:570-570 | the first create that gets its lock finds no flag up |
| `BarrierTheorems.GuardedIsNotHurried` | src/hako/data/hako_pdu_data.hpp:659-670 | assets that report only with asset_num > 0 never end a count between the two stores |
| `BarrierTheorems.GuardedBarrier` | sample/base-procs/hako-asset/src/hako_asset.cpp:79-84 | for them the lock and lowered flags are enough for the barrier |
| `BarrierRuns.EarlyReportOpensBarrier` | src/hako/data/hako_pdu_data.hpp:570-586 | for every two or more assets, a run in which one report between the two stores lets the world move with the others unreported |
| `BarrierRuns.StaleFlagOpensBarrier` | src/hako/data/hako_pdu_data.hpp:521-529 | from every session of two or more assets with a flag left up, the world can move without one of them |
| `BarrierRuns.SecondSessionHasNoBarrier` | src/hako/data/hako_pdu_data.hpp:561-568 | a run from the beginning: after a stop and a start without a reset, one report hands the clock back |
| `BarrierRuns.ResetRestoresBarrier` | src/hako/data/hako_pdu_data.hpp:627-629 | after a reset and no report since, the next session starts with no flag up |
| `BarrierTheorems.ResetAsksAgain` | src/hako/data/hako_pdu_data.hpp:627-629 | after a reset the sample loop is asked for every asset's report again |
| `BarrierTheorems.SampleLoopNeedsLoweredFlags` | sample/base-procs/hako-asset/src/hako_asset.cpp:79-101 | assets of the sample loop hand the clock back iff one of their flags was down when the session began; otherwise the world stands still |
| `BarrierTheorems.FailedCreateLeavesNoBarrier` | src/hako/data/hako_pdu_data.hpp:553-556 | before any PDU data exists, a create without its init lock lets the world move at once, and no report is ever counted |
| `BarrierTheorems.NoLostWakeUp` | src/hako/data/hako_pdu_data.hpp:511-530 | in every session, once every registered asset is back from a report, the mode is Master iff there is an asset |
| `BarrierTheorems.SomebodyMustReport` | src/hako/data/hako_pdu_data.hpp:521-529 | with all flags up and no report under way, the mode is Master iff somebody has reported in this session |
| `BarrierTheorems.EmptyStaysAsset` | src/hako/data/hako_pdu_data.hpp:527-529 | without registered assets the mode stays Asset once create has handed the clock over |
| `LifeCycleRuns.AllocKeepsRegistry` | src/hako/data/hako_master_data.hpp:172-223 | registering any name keeps count, ids and distinct names right |
| `LifeCycleRuns.FreeKeepsRegistry` | src/hako/data/hako_master_data.hpp:239-253 | so does unregistering |
| `LifeCycleRuns.RegistryHolds` | src/hako/data/hako_master_data.hpp:172-253 | in every run asset_num is the number of used slots and at most 16, ids are slot numbers, and a used slot is found by its name |
| `LifeCycleRuns.MembershipIsFrozen` | src/hako/data/hako_master_data.hpp:187-244 | nobody joins or leaves in Runnable, Running, Stopping or Resetting |
| `LifeCycleRuns.RunningIsAgreed` | src/hako/hako_simevent_impl.cpp:144-155 | Runnable becomes Running only if every registered asset's latest feedback since the start was start_feedback(true), if the start was clean; in any case, only if it was or the slot bears the Error event |
| `LifeCycleRuns.StoppedIsAgreed` | src/hako/hako_simevent_impl.cpp:156-164 | Stopping becomes Stopped only if every one's was stop_feedback(true), under the same condition |
| `LifeCycleRuns.TheTrigger` | src/hako/hako_simevent_impl.cpp:12-40 | a start or stop is clean iff, at the trigger that led to it, no Error or Reset publication was unfinished |
| `LateEvents.LateErrorStartsUnasked` | src/hako/hako_simevent_impl.cpp:34-38 | a run in which an Error published late makes the simulation run without any feedback |
| `LateEvents.LateResetStartsUnasked` | src/hako/hako_simevent_impl.cpp:208-218 | a run in which a Reset published late does the same |
| `LateEvents.LateErrorStopsUnasked` | src/hako/hako_simevent_impl.cpp:156-164 | a run in which a late Error ends a stop that no asset has agreed to |
| `LateEvents.TriggerLeads` | src/hako/hako_simevent_impl.cpp:12-40 | the locked half of a trigger followed by an undisturbed publication is the whole trigger |
| `LateEvents.ResetLeads` | src/hako/hako_simevent_impl.cpp:56-68 | a reset undisturbed goes from Stopped through Resetting and from Error to Stopped, and does nothing elsewhere |
| `LifeCycleRuns.ResetIsAgreed` | src/hako/hako_simevent_impl.cpp:196-232 | Resetting becomes Stopped only if every one's was reset_feedback(true), assets marked with Error excepted, whatever is published late |
| `LifeCycleAnswers.AnswersDecide` | src/hako/hako_asset_impl.cpp:100-147 | in a start, stop and reset alike: when every registered asset has answered and nothing was published to it since, the transition ends iff all answers were yes to the question being asked |
| `LifeCycleAnswers.AnswerStands` | src/hako/hako_asset_impl.cpp:100-128 | an answer sets the flag iff it was yes to the present question, and it stays so until something is published or triggered |
| `LifeCycleAnswers.CommandsAreTold` | src/hako/hako_simevent_impl.cpp:12-40 | a start, stop or timeout reaches every registered asset as that event; a reset every one that has not been failed; nobody else |
| `LifeCycleAnswers.CommandsMove` | src/hako/hako_simevent_impl.cpp:42-68 | each command is obeyed exactly in its states, and starts its publication |
| `LifeCycleAnswers.Registers` | src/hako/data/hako_master_data.hpp:172-223 | who is admitted, to which slot, and that nobody else's slot changes |
| `LifeCycleAnswers.Unregisters` | src/hako/data/hako_master_data.hpp:239-253 | who is let go, and that the name is free afterwards |
| `LifeCycleAnswers.RecentIsNotLate` | src/hako/data/hako_master_data.hpp:296-306 | over runs: whoever registered, gave feedback or reported its time less than the timeout ago is not late |
| `LifeCycleRuns.ExcusedIffMarked` | src/hako/hako_simevent_impl.cpp:208-218 | when a reset is published to a used slot in any run, the slot is excused iff it bears the Error event at that moment, and every other one is asked |
| `LifeCycleRuns.NewcomerInheritsMark` | src/hako/data/hako_master_data.hpp:190-216 | an asset of any kind is excused from a later reset iff its slot's last occupant left the Error event there, as long as no event and no feedback of its own came between |
| `LateEvents.NewcomerIsExcused` | src/hako/data/hako_master_data.hpp:239-253 | a run in which a timeout, an unregistration and a new registration lead to a reset that counts the newcomer as done without a reply |
| `MasterData.MasterData.GetAsset` | src/hako/data/hako_master_data.hpp:307-323 | the first used slot of that name, or none |
| `MasterData.MasterData.AllocAsset` | src/hako/data/hako_master_data.hpp:172-223 | the array is updated as the life cycle says; the id is the first unused slot or -1 |
| `MasterData.MasterData.FreeAsset` | src/hako/data/hako_master_data.hpp:239-253 | frees the named slot in Stopped or Error only |
| `MasterData.MasterData.IsAllFeedback` | src/hako/data/hako_master_data.hpp:281-295 | true iff every used slot has feedback |
| `MasterData.MasterData.PublishEvent` | src/hako/hako_simevent_impl.cpp:196-232 | every slot is published to once, errors excused from reset |
| `MasterData.MasterData.TriggerEvent` | src/hako/hako_simevent_impl.cpp:12-40 | clears all feedback and publishes, from the expected state or to Error |
| `MasterData.MasterData.ResetSimulation` | src/hako/hako_simevent_impl.cpp:56-68 | from Stopped through Resetting, from Error straight to Stopped |
| `MasterData.MasterData.Feedback` | src/hako/hako_asset_impl.cpp:100-128 | counts only in the expected state, and retires the event in any |
| `MasterData.MasterData.HandleEvents` | src/hako/hako_simevent_impl.cpp:144-193 | moves on iff all feedback is in, otherwise lists exactly the used slots whose update time plus the timeout (30 s unless configured) has passed |
| `MasterData.MasterData.DoEventHandling` | src/hako/hako_simevent_impl.cpp:106-142 | reports the states of the locked section; if nobody is late nothing else happens, else everybody gets the Error event and exactly the late ones are removed; the registry stays consistent |
| `MasterData.MasterData.FailEverybody` | src/hako/hako_simevent_impl.cpp:131-140 | everybody used gets the Error event and its flag, and exactly the listed ones are removed |
| `MasterData.MasterData.GetAssetTimes` | src/hako/data/hako_master_data.hpp:324-335 | the times of the used slots in slot order |
| `MasterData.TimesAreTheUsed` | src/hako/data/hako_master_data.hpp:324-335 | a time is listed iff some used slot has it |
| `MasterData.TimesInOrder` | src/hako/data/hako_master_data.hpp:324-335 | the list has one time for each used slot, in slot order |
| `MasterData.MasterData.NotifySimtime` | src/hako/hako_asset_impl.cpp:65-77 | sets the named asset's time and nothing else |
| `MasterData.MasterData.ResetAssetTimes` | src/hako/data/hako_master_data.hpp:349-359 | every used slot's time is zero |
| `WorldTime.TheWorld.TimeBeginsToMove` | src/hako/core/simulation/time/hako_time.cpp:4-24 | one delta goes to the world iff no time lags by max_delay, otherwise to the waiting time |
| `WorldTime.StepKeepsInv` | src/hako/hako_master_impl.cpp:38-46 | every interleaving of slot reads, reports and publications keeps the time invariant |
| `WorldTime.DriftBound` | src/hako/core/simulation/time/hako_time.cpp:4-24 | world - ctime < max_delay + delta; a sample-loop asset is at most one step ahead of the world; two assets differ by less than max_delay + delta + that step |
| `WorldTime.AlignedDriftBound` | src/hako/core/simulation/time/hako_time.cpp:10-18 | with times that are multiples of delta the lag is at most the next multiple at or above max_delay |
| `WorldTime.UnalignedDelayIsExceeded` | src/hako/core/simulation/time/hako_time.cpp:10-18 | if max_delay is no multiple of delta, some run exceeds it |
| `WorldTime.NeverStuck` | sample/base-procs/hako-asset/src/hako_asset.cpp:85-90 | if the master cannot step, some asset lags and every lagging sample-loop asset raises its reported time by five steps of its own: at once unless a step is unpublished and max_delay < delta, and in any case after that publication |
| `WorldTime.ReportEndsLag` | src/hako/hako_asset_impl.cpp:65-77 | one report of a recent enough time ends the lag of an asset outside the sample loop, and touches nobody else |
| `WorldTime.UnpublishedStepStalls` | src/hako/hako_master_impl.cpp:44-46 | whenever max_delay < delta, there is a run after which the master cannot step and no number of steps of the only asset raises its time |
| `WorldTime.RoundEffect` | sample/base-procs/hako-asset/src/hako_asset.cpp:79-104 | what one round of every asset and the master does to all clocks |
| `WorldTime.WorldMoves` | src/hako/hako_asset_impl.cpp:65-82 | in any n + 1 rounds the world moves, if n steps of any asset cover max_delay + delta |
| `WorldTime.ReachesAnyTime` | src/hako/hako_master_impl.cpp:38-52 | round-robin execution gains k deltas within k * (n + 1) rounds |
| `WorldTime.EveryTimeIsReached` | src/hako/hako_master_impl.cpp:38-52 | for every configuration, k deltas within k * (max_delay + delta + 1) rounds |
| `Conductor.PduMode.NotifyWritePduDone` | src/hako/data/hako_pdu_data.hpp:511-530 | the flag goes up, and the mode is Master iff as many flags are up as there are assets; until then the others stay awaited |
| `Conductor.PduMode.SampleLoopReport` | sample/base-procs/hako-asset/src/hako_asset.cpp:79-101 | one pass of the loop reports exactly if the asset is awaited, hence at most once, and never where all flags are up |
| `Conductor.PduMode.Reset` | src/hako/data/hako_pdu_data.hpp:611-629 | with the init lock and PDU data, the reports are forgotten and the clock goes to the assets; otherwise nothing changes |
| `Conductor.Conductor.Execute` | src/hako/hako_master_impl.cpp:5-52 | the world moves iff Running, in master mode and nobody lags, else the waiting time grows; starting a run hands the clock to the assets unless the init lock fails; a finished reset zeroes every clock and lowers every report flag; every other call leaves the PDU mode alone |
| `FirstSession.StepKeepsOrder` | src/hako/hako_master_impl.cpp:5-52 | every step of users, assets and the sections of execute keeps the order of the session: agreed, created, gated, timed |
| `FirstSession.WorldWaitsForAll` | src/hako/hako_master_impl.cpp:12-46 | when the world moves, every registered asset has agreed to the start if that was clean, and has reported its first PDU write if create got its init lock and no count ended between its two stores or there is at most one asset; without the lock no report is seen |
| `FirstSession.GuardedWorldWaits` | sample/base-procs/hako-asset/src/hako_asset.cpp:79-84 | with assets that wait for is_pdu_created(), a clean start and the lock, the world moves only after everybody's start_feedback(true) and PDU report |
| `FirstSession.TheStart` | src/hako/hako_simevent_impl.cpp:144-155 | the agreement is every used slot's latest reply at the one step from Runnable to Running |
| `FirstSession.SessionDrift` | src/hako/core/simulation/time/hako_time.cpp:4-24 | the drift bound holds in every state of the joint runs |
| `FirstSession.LookDecides` | src/hako/hako_master_impl.cpp:34-48 | from the look at the mode, an undisturbed call moves and publishes the world iff it is in master mode and nobody lags, and else changes no clock |
| `FirstSession.CallsReachTheLook` | src/hako/hako_master_impl.cpp:12-34 | a call in Running, an agreed start with and without the lock, and a start not yet agreed |
| `FirstSession.GiveUpFails` | src/hako/hako_simevent_impl.cpp:131-134 | a timeout puts the session in Error and starts the publication |
| `FirstSession.LaggardMovesInSession` | sample/base-procs/hako-asset/src/hako_asset.cpp:85-90 | a lagging sample-loop asset raises its time by five steps of its own in the joint machine |

## Left out

- MasterData.MasterData.TriggerEvent: one undisturbed call; the code releases the master lock before the publication (src/hako/hako_simevent_impl.cpp:34-38). In `LifeCycleRuns` and `FirstSession` every slot's publication is a step of its own.
- MasterData.MasterData.PublishEvent: does not model the semaphore post or callback by which `notify` wakes an asset, only the event and the cleared feedback.
- MasterData.MasterData.DoEventHandling: one undisturbed call; the code gives up the master lock between handling, failing and each unregistration (src/hako/hako_simevent_impl.cpp:129-140). In `LifeCycleRuns` and `FirstSession` these are separate steps with anything in between.
- FlockClient.Client.MasterLock: outside a wait scope the wait is unbounded; the model watches it for `patience` rounds and then answers StillWaiting.
- PduMemory.PduArea.Create: when the sizes do not fit in 64 bits, says nothing about the buffer, because the mapping of that size fails in the operating system.
- PduMemory.PduArea.WritePdu: the busy-flag handshake around the copy is in `PduExchange`, not in this method; nothing is said of bytes of a channel added after `create`, which lie outside the buffer (`PduMemory.AccessStaysInside`).
- PduMemory.PduArea.ReadPdu: the handshake and the read version are in `PduExchange`, not in this method; the same holds of late channels.
- Conductor.PduMode.Reset: the mode and the reports only; flags, versions and buffer are cleared by `PduExchange.Next`.
- FirstSession.WorldWaitsForAll: first session only, up to a second start or a finished reset.
- Conductor.Conductor.Execute: one undisturbed call; its sections interleave with everybody else's steps in `FirstSession`.
- BarrierTheorems.FailedCreateLeavesNoBarrier: before any PDU data exists; in a later session without the lock the mode and the number of assets stay what they were.
- LifeCycleRuns.ExcusedIffMarked: publishing to one slot is one step; the code stores event and feedback one after the other.
- WorldTime.DriftBound: for assets registered at world time 0; registering later starts at time 0 while the world keeps its time.
- Asset semaphore values beyond 32 bits and failed asset-counter writes, which the code only logs.
- 64-bit overflow of simulation times.
- The process-local mutex of the lock calls: the lock proofs do not need it.
- `destroy`, and what `hako-cmd recover` does outside this library.
- System V shared memory and semaphores, mmap creation, Windows file calls, reading `/proc`: wrappers over the operating system.
- Logging, printing, configuration, factories and global singletons.
- `read_pdu_nolock` and `write_pdu_nolock`: they bypass flags and versions.
- `create_channel` with raw ids: it shares `channel_num` with the logical channels.
- The spin lock on the channel table: `create_lchannel` is one step.
- The semaphore thread that runs user callbacks, and extension hooks.
- Weak-memory effects, a second master on a live session, and mixed legacy and v1 writers.
