/**
 A job whose stored record is RUNNING while no execution is running it: its message is
 delivered again and again and never acknowledged, until an operator ends the job.
 */
module StuckJobs {
  import opened Base
  import opened Domain
  import opened Contracts
  import opened JobStore
  import opened Delivery
  import opened DeliverySafety
  import opened Dedup
  import opened Finality
  import WorkerProgram

  /** The execution has not read the record, has read it RUNNING, or is about to raise. */
  predicate CannotEnd(local: Local) {
    match local
    case Start => true
    case Claimed(copy) => copy.status == Running
    case Marked(copy) => copy.status == Running
    case Aborted => true
    case Raised => true
    case _ => false
  }

  ghost predicate Stuck(s: State, jobId: string) {
    && jobId in s.repo.jobs && s.repo.jobs[jobId].status == Running
    && forall d | d in s.inFlight && s.inFlight[d].jobId == jobId :: CannotEnd(s.inFlight[d].local)
  }

  /** An operator writes or removes the record of the job. */
  ghost predicate OperatorEnds(s: State, step: Step, jobId: string) {
    (step.OperatorFail? || step.OperatorDelete?) && step.o in s.operators && s.operators[step.o].jobId == jobId
  }

  ghost predicate AcksJob(s: State, step: Step, jobId: string) {
    step.Ack? && step.d in s.inFlight && s.inFlight[step.d].jobId == jobId
  }

  lemma LocalCannotEnd(local: Local, action: Action)
    requires WorkerProgram.Step(local, action).Some? && CannotEnd(local)
    requires action.Get? && action.found.Some? ==> action.found.value.status == Running
    ensures CannotEnd(WorkerProgram.Step(local, action).value)
    ensures action.Write? ==> action.record.status == Running
  {
  }

  lemma WorkKeepsStuck(s: State, d: nat, action: Action, jobId: string)
    requires Records(s) && Copies(s) && Enabled(s, Step.Work(d, action)) && Stuck(s, jobId)
    ensures Stuck(Next(s, Step.Work(d, action)), jobId)
  {
    GenuineWrite(s, d, action);
    WorkIsWorked(s, d, action);
    hide Next, Enabled;
    if s.inFlight[d].jobId == jobId {
      LocalCannotEnd(s.inFlight[d].local, action);
    }
    hide Records, Copies, WorkerProgram.Step, CannotEnd;
  }

  lemma OthersKeepRecord(s: State, step: Step, jobId: string)
    requires Records(s) && Enabled(s, step) && !step.Work? && jobId in s.repo.jobs && !OperatorEnds(s, step, jobId)
    ensures jobId in Next(s, step).repo.jobs && Next(s, step).repo.jobs[jobId] == s.repo.jobs[jobId]
  {
    assert jobId in s.created;
    hide Records, FindAnswer, WorkerProgram.Step;
  }

  /** Any step but an operator's on that job keeps it stuck, a double delivery included, and none acknowledges it. */
  lemma StepKeepsStuck(s: State, step: Step, jobId: string)
    requires Records(s) && Copies(s) && Enabled(s, step) && Stuck(s, jobId) && !OperatorEnds(s, step, jobId)
    ensures Stuck(Next(s, step), jobId) && !AcksJob(s, step, jobId)
  {
    if step.Work? {
      WorkKeepsStuck(s, step.d, step.action, jobId);
    } else {
      OthersKeepRecord(s, step, jobId);
      OthersOnlyStart(s, step);
    }
    hide Records, Copies, Next, Enabled;
  }

  /** No step of `more` is an operator's on that job. */
  ghost predicate NoOperatorEnds(steps: seq<Step>, more: seq<Step>, jobId: string) {
    forall n | 0 <= n < |more| && Legal(steps + more[..n]) ::
        !OperatorEnds(StateAfter(steps + more[..n]), more[n], jobId)
  }

  ghost predicate NeverAcks(steps: seq<Step>, more: seq<Step>, jobId: string) {
    forall n | 0 <= n < |more| && Legal(steps + more[..n]) :: !AcksJob(StateAfter(steps + more[..n]), more[n], jobId)
  }

  lemma ShorterAndLonger(steps: seq<Step>, more: seq<Step>, jobId: string)
    requires more != [] && Legal(steps + more[..|more| - 1])
    ensures var n := |more| - 1;
            && (NoOperatorEnds(steps, more, jobId) ==>
                  NoOperatorEnds(steps, more[..n], jobId)
                    && !OperatorEnds(StateAfter(steps + more[..n]), more[n], jobId))
            && (NeverAcks(steps, more[..n], jobId) && !AcksJob(StateAfter(steps + more[..n]), more[n], jobId) ==>
                  NeverAcks(steps, more, jobId))
  {
    hide Legal, StateAfter, OperatorEnds, AcksJob;
    var n := |more| - 1;
    forall m | 0 <= m < n ensures more[..n][..m] == more[..m] && more[..n][m] == more[m] {}
  }

  /**
   On any run a stuck job stays stuck and is never acknowledged, as long as no operator
   writes or removes its record.
   */
  lemma {:induction false} StuckUntilOperator(steps: seq<Step>, more: seq<Step>, jobId: string)
    requires Legal(steps) && Legal(steps + more) && Stuck(StateAfter(steps), jobId)
             && NoOperatorEnds(steps, more, jobId)
    ensures Stuck(StateAfter(steps + more), jobId) && NeverAcks(steps, more, jobId)
    decreases |more|
  {
    if more == [] {
      assert steps + more == steps;
    } else {
      var n := |more| - 1;
      var before := more[..n];
      UnrollMore(steps, more);
      ShorterAndLonger(steps, more, jobId);
      hide Legal, StateAfter, NoOperatorEnds, NeverAcks, Records, Copies, Enabled, Next, Stuck, OperatorEnds, AcksJob;
      StuckUntilOperator(steps, before, jobId);
      RunKeepsGenuine(steps + before);
      StepKeepsStuck(StateAfter(steps + before), more[n], jobId);
    }
  }

  /** A terminal record of the job can be stored without an operator. */
  ghost predicate CanEnd(steps: seq<Step>, jobId: string) {
    exists more :: Continues(steps, more) && EndsBy(steps, more, jobId)
  }

  ghost predicate EndsBy(steps: seq<Step>, more: seq<Step>, jobId: string)
    requires Continues(steps, more)
  {
    var t := StateAfter(steps + more);
    NoOperatorEnds(steps, more, jobId) && jobId in t.repo.jobs && t.repo.jobs[jobId].status.Terminal()
  }

  /** A stored RUNNING job can end without an operator exactly when it is not stuck. */
  lemma RunningCanEndIff(steps: seq<Step>, jobId: string)
    requires Legal(steps) && Exclusive(steps)
    requires jobId in StateAfter(steps).repo.jobs && StateAfter(steps).repo.jobs[jobId].status == Running
    ensures CanEnd(steps, jobId) <==> !Stuck(StateAfter(steps), jobId)
  {
    if Stuck(StateAfter(steps), jobId) {
      forall more | Continues(steps, more) ensures !EndsBy(steps, more, jobId) {
        if NoOperatorEnds(steps, more, jobId) {
          StuckUntilOperator(steps, more, jobId);
        }
      }
    } else {
      var more := LiveExecutionEnds(steps, jobId);
      assert Continues(steps, more) && EndsBy(steps, more, jobId);
    }
  }

  lemma LiveExecutionEnds(steps: seq<Step>, jobId: string) returns (more: seq<Step>)
    requires Legal(steps) && Exclusive(steps)
    requires jobId in StateAfter(steps).repo.jobs && StateAfter(steps).repo.jobs[jobId].status == Running
    requires !Stuck(StateAfter(steps), jobId)
    ensures Continues(steps, more) && EndsBy(steps, more, jobId)
  {
    RunKeepsInv(steps);
    RunningWasStarted(steps, jobId);
    var s := StateAfter(steps);
    var d :| d in s.inFlight && s.inFlight[d].jobId == jobId && !CannotEnd(s.inFlight[d].local);
    var local := s.inFlight[d].local;
    assert LocalFits(s, s.inFlight[d]);
    assert local.Live? || local.Handling? || local.Noop?;
    EndingIsPossible(local);
    hide Inv, Legal, StateAfter, LocalFits, WorkerProgram.Step, ToHandler, EndRecord;
    more := StoresAfter(steps, d, ToHandler(local), EndRecord(local));
  }

  /** How an execution can be brought to store a terminal record next. */
  function ToHandler(local: Local): Option<Action> {
    if !local.Live? then None
    else if local.phase == WorkerProgram.UPDATES_BEFORE_SUBMIT then Some(Action.Submit(WorkerProgram.Refused))
    else Some(Action.WriteRaised)
  }

  function EndRecord(local: Local): JobRecord
    requires local.Live? || local.Handling? || local.Noop?
  {
    match local
    case Noop(copy) => copy
    case Live(copy, phase) => copy.(status := WorkerProgram.HandledStatus(phase == WorkerProgram.LAST_PHASE))
    case Handling(copy, completed) => copy.(status := WorkerProgram.HandledStatus(completed))
  }

  lemma EndingIsPossible(local: Local)
    requires local.Handling? || local.Noop? || (local.Live? && local.phase <= WorkerProgram.LAST_PHASE)
    ensures var first := ToHandler(local);
            && (first.Some? ==> !first.value.Get? && WorkerProgram.Step(local, first.value).Some?)
            && var ready := if first.Some? then WorkerProgram.Step(local, first.value).value else local;
               WorkerProgram.Step(ready, Action.Write(EndRecord(local))).Some?
    ensures EndRecord(local).jobId == local.copy.jobId
    ensures (local.Noop? ==> local.copy.status.Terminal()) ==> EndRecord(local).status.Terminal()
  {
  }
}
