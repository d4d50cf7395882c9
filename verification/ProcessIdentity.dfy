/** Deciding whether the process recorded in the lock file is still alive. */
module ProcessIdentity {
  import opened LockTypes

  /** `classify_lookup`. */
  function ClassifyLookup(definitelyMissing: bool, lookupSucceeded: bool, terminated: bool,
                          expectedToken: nat, actualToken: nat): Status
  {
    if definitelyMissing || (lookupSucceeded && terminated) then Dead
    else if !lookupSucceeded || expectedToken == 0 || actualToken == 0 then Unsure
    else if actualToken == expectedToken then Alive
    else Dead
  }

  /** The answer to signal 0, and of reading the process's start time. */
  datatype Signal = Delivered | NoSuchProcess | NoPermission | OtherError
  datatype StartTime = Unreadable | Found(token: nat, terminated: bool)

  /** `hako_check_process_identity` (POSIX). */
  function CheckProcessIdentity(id: Identity, signal: Signal, start: StartTime): Status {
    if id.pid <= 0 || id.token == 0 then Unsure
    else if signal == NoSuchProcess then ClassifyLookup(true, false, false, id.token, 0)
    else if signal == OtherError then Unsure
    else match start
      case Unreadable => ClassifyLookup(false, false, false, id.token, 0)
      case Found(token, terminated) => ClassifyLookup(false, true, terminated, id.token, token)
  }

  /** The operating system's process table: start token and whether it is a zombie. */
  datatype Entry = Entry(token: nat, zombie: bool)
  type Table = map<int, Entry>

  predicate IsLive(table: Table, id: Identity) {
    id.pid in table && table[id.pid] == Entry(id.token, false)
  }

  /** Neither question is answered wrongly; either may go unanswered. */
  predicate AnswersFrom(table: Table, pid: int, signal: Signal, start: StartTime) {
    && (signal == NoSuchProcess ==> pid !in table)
    && (start.Found? ==> pid in table && table[pid] == Entry(start.token, start.terminated))
  }

  /** Alive and Dead are never said in error, an unreaped zombie counts as dead, a
      missing process is dead, and a readable start time of a well-formed identity
      always decides. */
  lemma CheckIsTruthful(table: Table, id: Identity, signal: Signal, start: StartTime)
    requires AnswersFrom(table, id.pid, signal, start)
    ensures var status := CheckProcessIdentity(id, signal, start);
            && (status == Alive ==> IsLive(table, id))
            && (status == Dead ==> !IsLive(table, id))
            && (id.pid <= 0 || id.token == 0 ==> status == Unsure)
            && (id.pid > 0 && id.token > 0 && signal == NoSuchProcess ==> status == Dead)
            && (status == Unsure && id.pid > 0 && id.token > 0 ==>
                  || signal == OtherError || start.Unreadable?
                  || (start.token == 0 && !start.terminated))
  {
  }
}
