/** Vocabulary of the crash-tolerant master lock: the owner record kept in
    `flock.bin`, the answers of an inspection, and the four record contents the
    lock and unlock paths write. */
module LockTypes {
  import opened Common

  datatype Health = Ok | Abort | Unknown

  datatype Cause = NoCause | IdentityUnknown | Format | Corrupt | Unsupported | Contention | System

  datatype LockState = Unlocked | Acquiring | Locked | Releasing

  /** A process incarnation: a pid may be reused, a (pid, start token) pair may not. */
  datatype Identity = Identity(pid: int, token: nat)

  const NO_OWNER := Identity(0, 0)

  datatype LockRecord = LockRecord(state: LockState, reserved: nat, owner: Identity, generation: nat)

  /** What the first checks of an inspection make of the 48 record bytes, in the
      order the checks are made. `Absent` is a file too short to hold a record. */
  datatype RecordView = Absent | BadMagic | BadVersion | BadChecksum | BadState | Good(rec: LockRecord)

  /** The answer of the process-identity lookup for the recorded owner. */
  datatype Status = Alive | Dead | Unsure

  datatype Inspection = Inspection(
    health: Health, cause: Cause, state: LockState, counter: int, owner: Identity, generation: nat)

  /** `inspect_locked`, after the file has been parsed. `counter` is absent when
      the first four bytes cannot be read. */
  function Inspect(counter: Option<int>, record: RecordView, status: Status): (r: Inspection)
    // OK has exactly two meanings: free, or held by a live process
    ensures r.health == Ok <==>
            && counter.Some?
            && record.Good?
            && ((record.rec.state == Unlocked && counter.value == 1 && record.rec.owner == NO_OWNER)
                || (record.rec.state == Locked && counter.value == 0 && status == Alive))
    ensures r.health == Abort <==> counter.Some? && record.Good? && record.rec.state != Unlocked && status == Dead
    // every other answer names what is wrong
    ensures r.health == Unknown <==> r.cause != NoCause
    ensures r.cause == IdentityUnknown <==>
            counter.Some? && record.Good? && record.rec.state != Unlocked && status == Unsure
    ensures r.cause == Format <==> counter.Some? && (record.Absent? || record.BadMagic?)
    ensures r.cause == Unsupported <==> counter.Some? && record.BadVersion?
    ensures r.cause != Contention && r.cause != System
    // and what could be read is reported
    ensures r.counter == if counter.Some? then counter.value else -1
    ensures if counter.Some? && record.Good?
            then r.state == record.rec.state && r.owner == record.rec.owner && r.generation == record.rec.generation
            else r.state == Unlocked && r.owner == NO_OWNER && r.generation == 0
  {
    var blank := Inspection(Unknown, NoCause, Unlocked, -1, NO_OWNER, 0);
    if counter.None? then blank.(cause := Corrupt)
    else
      var read := blank.(counter := counter.value);
      match record
      case Absent => read.(cause := Format)
      case BadMagic => read.(cause := Format)
      case BadVersion => read.(cause := Unsupported)
      case BadChecksum => read.(cause := Corrupt)
      case BadState => read.(cause := Corrupt)
      case Good(m) =>
        var full := read.(state := m.state, owner := m.owner, generation := m.generation);
        if m.state == Unlocked then
          if counter.value == 1 && m.owner == NO_OWNER then full.(health := Ok)
          else full.(cause := Corrupt)
        else match status
          case Dead => full.(health := Abort)
          case Unsure => full.(cause := IdentityUnknown)
          case Alive =>
            if m.state == Locked && counter.value == 0 then full.(health := Ok)
            else full.(cause := Corrupt)
  }

  /** First write of an acquisition: a new generation, wrapping at 64 bits. */
  function AcquiringRecord(m: LockRecord, id: Identity): LockRecord {
    m.(state := Acquiring, owner := id, generation := (m.generation + 1) % TWO64)
  }

  function LockedRecord(m: LockRecord): LockRecord { m.(state := Locked) }

  function ReleasingRecord(m: LockRecord): LockRecord { m.(state := Releasing) }

  function UnlockedRecord(m: LockRecord): LockRecord { m.(state := Unlocked, owner := NO_OWNER) }

  /** The record a freshly created file is sealed with. */
  const NEW_RECORD := LockRecord(Unlocked, 0, NO_OWNER, 0)
}
