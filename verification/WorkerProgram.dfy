/**
 What one execution of a delivered job may do to the outside world, as an automaton
 over its visible actions. `ProcessJob` proves that the code only emits runs of this
 automaton; `Delivery` interleaves the automaton with other workers and operators.
 */
module WorkerProgram {
  import opened Base
  import opened Domain
  import opened Contracts

  /** The pipeline takes the job, renders it at once, or raises. */
  datatype SubmitAnswer = Accepted | Immediate | Refused

  datatype Action =
    | Get(found: Option<JobRecord>)
    | Write(record: JobRecord)
    | WriteRaised
    | Submit(answer: SubmitAnswer)
    | Interrupt  // an exception that no write raised leaves the `try` or the code after it
    | Return
    | Raise

  datatype Local =
    | Start
    | Noop(copy: JobRecord)                    // a terminal record was read
    | Skipped(copy: JobRecord)                 // and stored again: only returning is left
    | Claimed(copy: JobRecord)                 // a live record was read, nothing is stored yet
    | Marked(copy: JobRecord)                  // the claim is stored, with the status that was read
    | Live(copy: JobRecord, phase: nat)        // RUNNING is stored, nothing has raised
    | Handling(copy: JobRecord, completed: bool)  // in the exception handler; `completed` if the job had SUCCEEDED
    | Settled(copy: JobRecord, status: JobStatus, clean: bool)  // a terminal status stored; `clean` returns
    | Aborted                                  // only raising is left
    | Returned
    | Raised

  /**
   The phase of a live execution counts what it has stored since RUNNING: five stage updates
   before the submission, the poll stage after it, and the artifact stage. A result that
   comes with the submission skips the poll stage.
   */
  const UPDATES_BEFORE_SUBMIT := 5
  const SUBMITTED := 6
  const RENDERED := 7
  const LAST_PHASE := 8

  /** The phases in which something other than a write or the submission may raise. */
  predicate MayInterrupt(phase: nat) {
    phase == 1 || phase == 3 || phase == SUBMITTED || phase == RENDERED || phase == LAST_PHASE
  }

  /** The status the exception handler stores. */
  function HandledStatus(completed: bool): JobStatus {
    if completed then Succeeded else Failed
  }

  predicate Owns(copy: JobRecord, record: JobRecord) {
    record.jobId == copy.jobId && record.cacheKey == copy.cacheKey
  }

  /** The next local state, or `None` when an execution never does this here. */
  function Step(local: Local, action: Action): Option<Local> {
    match local
    case Start => (
      match action
      case Get(Some(record)) => Some(if record.status.Terminal() then Noop(record) else Claimed(record))
      case Get(None) => Some(Aborted)
      case Raise => Some(Local.Raised)
      case _ => None
    )
    case Noop(copy) => (
      match action
      case Write(record) => if Owns(copy, record) && record.status == copy.status then Some(Skipped(copy)) else None
      case WriteRaised => Some(Aborted)
      case _ => None
    )
    case Skipped(copy) => if action == Return then Some(Returned) else None
    case Claimed(copy) => (
      match action
      case Write(record) => if Owns(copy, record) && record.status == copy.status then Some(Marked(copy)) else None
      case WriteRaised => Some(Aborted)
      case _ => None
    )
    case Marked(copy) => (
      match action
      case Write(record) =>
        if !Owns(copy, record) then None
        else if record.status == copy.status then Some(Aborted)
        else if copy.status == Queued && record.status == Running then Some(Live(copy, 0))
        else None
      case WriteRaised => Some(Aborted)
      case Raise => Some(Local.Raised)
      case _ => None
    )
    case Live(copy, phase) => (
      match action
      case Write(record) =>
        if !Owns(copy, record) || phase == UPDATES_BEFORE_SUBMIT || phase > LAST_PHASE then None
        else if phase < LAST_PHASE then if record.status == Running then Some(Live(copy, phase + 1)) else None
        else if record.status == Succeeded then Some(Settled(copy, Succeeded, true)) else None
      case WriteRaised =>
        if phase == UPDATES_BEFORE_SUBMIT || phase > LAST_PHASE then None else Some(Handling(copy, phase == LAST_PHASE))
      case Submit(answer) =>
        if phase != UPDATES_BEFORE_SUBMIT then None
        else if answer == Refused then Some(Handling(copy, false))
        else Some(Live(copy, if answer == Immediate then RENDERED else SUBMITTED))
      case Interrupt => if MayInterrupt(phase) then Some(Handling(copy, false)) else None
      case _ => None
    )
    case Handling(copy, completed) => (
      match action
      case Write(record) =>
        if Owns(copy, record) && record.status == HandledStatus(completed)
        then Some(Settled(copy, record.status, false))
        else None
      case WriteRaised => Some(Aborted)
      case _ => None
    )
    case Settled(copy, status, clean) => (
      match action
      case Interrupt => if clean then Some(Handling(copy, true)) else None
      case Return => if clean then Some(Returned) else None
      case Raise => if clean then None else Some(Local.Raised)
      case _ => None
    )
    case Aborted => if action == Raise then Some(Local.Raised) else None
    case Returned => None
    case Raised => None
  }

  /** The local state after a whole log of actions, if every action was possible. */
  function Run(log: seq<Action>): Option<Local> {
    if log == [] then Some(Local.Start)
    else
      match Run(log[..|log| - 1])
      case None => None
      case Some(local) => Step(local, log[|log| - 1])
  }

  lemma RunSnoc(log: seq<Action>, action: Action)
    ensures Run(log + [action]) == match Run(log) case None => None case Some(local) => Step(local, action)
  {
    assert (log + [action])[..|log|] == log;
  }

  ghost predicate Submits(log: seq<Action>, i: nat) {
    i < |log| && log[i].Submit?
  }

  /** The last record written by a log, if any. */
  function LastWrite(log: seq<Action>): Option<JobRecord> {
    if log == [] then None
    else if log[|log| - 1].Write? then Some(log[|log| - 1].record)
    else LastWrite(log[..|log| - 1])
  }

  function RecordedStatus(local: Local): Option<JobStatus> {
    match local
    case Live(_, _) => Some(Running)
    case Settled(_, status, _) => Some(status)
    case Skipped(copy) => Some(copy.status)
    case _ => None
  }

  /** The local states of a live execution agree with the last record it stored. */
  lemma {:induction false} LocalMatchesStored(log: seq<Action>)
    requires Run(log).Some? && RecordedStatus(Run(log).value).Some?
    ensures LastWrite(log).Some? && Some(LastWrite(log).value.status) == RecordedStatus(Run(log).value)
    decreases |log|
  {
    var before := log[..|log| - 1];
    if !log[|log| - 1].Write? {
      LocalMatchesStored(before);
    }
  }

  /** An execution that returns has stored a terminal status, and stores nothing after it. */
  lemma ReturnMeansTerminal(log: seq<Action>)
    requires Run(log) == Some(Returned)
    ensures LastWrite(log).Some? && LastWrite(log).value.status.Terminal()
  {
    var before := log[..|log| - 1];
    assert Run(before).value.Settled? || Run(before).value.Skipped?;
    LocalMatchesStored(before);
    SettledIsTerminal(before);
  }

  lemma {:induction false} SettledIsTerminal(log: seq<Action>)
    requires Run(log).Some?
    ensures Run(log).value.Settled? ==> Run(log).value.status.Terminal() && Run(log).value.copy.status == Queued
    ensures Run(log).value.Settled? && Run(log).value.clean ==> Run(log).value.status == Succeeded
    ensures Run(log).value.Noop? || Run(log).value.Skipped? ==> Run(log).value.copy.status.Terminal()
    ensures Run(log).value.Claimed? || Run(log).value.Marked? ==> !Run(log).value.copy.status.Terminal()
    ensures Run(log).value.Live? || Run(log).value.Handling? ==> Run(log).value.copy.status == Queued
    ensures Run(log).value.Live? ==> Run(log).value.phase <= LAST_PHASE
    decreases |log|
  {
    if log != [] {
      SettledIsTerminal(log[..|log| - 1]);
    }
  }

  /** One execution submits at most once, and only while its last stored status is RUNNING. */
  lemma {:induction false} SubmitOncePerExecution(log: seq<Action>, i: nat, j: nat)
    requires Run(log).Some? && Submits(log, i) && Submits(log, j)
    ensures i == j
    ensures LastWrite(log[..i]).Some? && LastWrite(log[..i]).value.status == Running
    decreases |log|
  {
    var n := |log| - 1;
    var before := log[..n];
    if i < n && j < n {
      assert before[..i] == log[..i];
      SubmitOncePerExecution(before, i, j);
    } else if i == n && j == n {
      LocalMatchesStored(before);
    } else {
      var k := if i < n then i else j;
      SubmittedStays(before, k);
      assert false;
    }
  }

  lemma {:induction false} SubmittedStays(log: seq<Action>, k: nat)
    requires Run(log).Some? && Submits(log, k)
    ensures Run(log).value.Live? ==> Run(log).value.phase >= SUBMITTED
    ensures !Run(log).value.Start? && !Run(log).value.Claimed? && !Run(log).value.Marked?
    decreases |log|
  {
    var n := |log| - 1;
    if k < n {
      SubmittedStays(log[..n], k);
    }
  }

  // ---- Every execution ends ----

  /** How many more actions an execution can take, at most, and one. */
  function Distance(local: Local): nat {
    match local
    case Start => 16
    case Claimed(_) => 15
    case Marked(_) => 14
    case Live(_, phase) => if phase <= LAST_PHASE then 13 - phase else 4
    case Handling(_, _) => 3
    case Noop(_) => 3
    case Skipped(_) => 2
    case Settled(_, _, clean) => if clean then 4 else 2
    case Aborted => 2
    case Returned => 1
    case Raised => 1
  }

  /** Every action brings an execution closer to its end. */
  lemma StepsAreBounded(local: Local, action: Action)
    requires Step(local, action).Some?
    ensures Distance(Step(local, action).value) < Distance(local)
  {
  }

  /** An execution takes at most 15 actions. */
  lemma {:induction false} RunsAreBounded(log: seq<Action>)
    requires Run(log).Some?
    ensures |log| + Distance(Run(log).value) <= Distance(Local.Start) == 16
    ensures |log| <= 15
    decreases |log|
  {
    if log != [] {
      var n := |log| - 1;
      RunsAreBounded(log[..n]);
      StepsAreBounded(Run(log[..n]).value, log[n]);
    }
  }

  // ---- Faults ----

  /**
   The actions that only happen when a store raises, the source asset is missing or
   the job record is gone.
   */
  predicate IsFault(local: Local, action: Action) {
    || action == WriteRaised
    || (action.Get? && action.found == None)
    || (local.Marked? && action.Write? && action.record.status == local.copy.status)
    || (action == Raise && (local == Local.Start || (local.Marked? && local.copy.status == Queued)))
  }

  predicate FaultFree(log: seq<Action>)
  {
    log == [] ||
    (var n := |log| - 1;
     FaultFree(log[..n]) &&
     Run(log[..n]).Some? && !IsFault(Run(log[..n]).value, log[n]))
  }

  lemma FaultFreeSnoc(log: seq<Action>, action: Action)
    requires FaultFree(log) && Run(log).Some? && !IsFault(Run(log).value, action)
    ensures FaultFree(log + [action])
  {
    assert (log + [action])[..|log|] == log;
  }
}
