/**
 When a terminal status is final in the store, and when a deleted job stays deleted: the
 exact conditions, over every continuation of a run.
 */
module Finality {
  import opened Base
  import opened Domain
  import opened Contracts
  import opened JobStore
  import opened CreateJob
  import opened Delivery
  import opened DeliverySafety
  import WorkerProgram

  /** The execution may still store a record that is not terminal. */
  predicate MayStoreLive(local: Local) {
    || local.Claimed?
    || local.Marked?
    || (local.Live? && local.phase < WorkerProgram.LAST_PHASE)
  }

  /** The execution may still store a record. */
  predicate MayStore(local: Local) {
    || local.Noop? || local.Claimed? || local.Marked? || local.Live? || local.Handling?
    || (local.Settled? && local.clean)
  }

  /** No execution of the job may still store a live record. */
  ghost predicate NoLiveCopy(s: State, jobId: string) {
    forall d | d in s.inFlight && s.inFlight[d].jobId == jobId :: !MayStoreLive(s.inFlight[d].local)
  }

  /** No execution of the job may still store a record, and no operator holds one. */
  ghost predicate NoCopy(s: State, jobId: string) {
    && (forall d | d in s.inFlight && s.inFlight[d].jobId == jobId :: !MayStore(s.inFlight[d].local))
    && (forall o | o in s.operators :: s.operators[o].jobId != jobId)
  }

  /** `more` continues the run with exclusive delivery. */
  ghost predicate Continues(steps: seq<Step>, more: seq<Step>) {
    Legal(steps + more) && Exclusive(steps + more)
  }

  /** From now on the stored record of the job is terminal or gone. */
  ghost predicate StaysDone(steps: seq<Step>, jobId: string) {
    forall more | Continues(steps, more) :: DoneOrGone(StateAfter(steps + more), jobId)
  }

  /** From now on the job is not stored. */
  ghost predicate StaysGone(steps: seq<Step>, jobId: string) {
    forall more | Continues(steps, more) :: jobId !in StateAfter(steps + more).repo.jobs
  }

  // ---- The conditions are kept ----

  ghost predicate SafelyDone(s: State, jobId: string) {
    jobId in s.created && DoneOrGone(s, jobId) && NoLiveCopy(s, jobId)
  }

  ghost predicate SafelyGone(s: State, jobId: string) {
    jobId in s.created && jobId !in s.repo.jobs && NoCopy(s, jobId)
  }

  lemma LocalStaysDone(local: Local, action: Action)
    requires WorkerProgram.Step(local, action).Some? && !MayStoreLive(local)
    requires action.Get? && action.found.Some? ==> action.found.value.status.Terminal()
    requires local.Noop? ==> local.copy.status.Terminal()
    ensures !MayStoreLive(WorkerProgram.Step(local, action).value)
    ensures action.Write? ==> action.record.status.Terminal()
  {
  }

  lemma LocalStaysGone(local: Local, action: Action)
    requires WorkerProgram.Step(local, action).Some? && !MayStore(local)
    requires action.Get? ==> action.found == None
    ensures !MayStore(WorkerProgram.Step(local, action).value) && !action.Write?
  {
  }

  lemma WorkKeepsDone(s: State, d: nat, action: Action, jobId: string)
    requires Inv(s) && Enabled(s, Step.Work(d, action)) && SafelyDone(s, jobId)
    ensures SafelyDone(Next(s, Step.Work(d, action)), jobId)
  {
    assert LocalFits(s, s.inFlight[d]);
    WrittenIsGenuine(s, d, action);
    WorkIsWorked(s, d, action);
    hide Inv, Records, Places, Started, NoOrphan, Locals, Next, Enabled;
    if s.inFlight[d].jobId == jobId {
      LocalStaysDone(s.inFlight[d].local, action);
    }
    hide LocalFits, WorkerProgram.Step, MayStoreLive;
  }

  lemma OperatorKeepsDone(s: State, step: Step, jobId: string)
    requires Records(s) && Enabled(s, step) && IsOperatorStep(step) && SafelyDone(s, jobId)
    ensures SafelyDone(Next(s, step), jobId)
  {
    OperatorOnlyEnds(s, step);
    assert Next(s, step).inFlight == s.inFlight && Next(s, step).created == s.created;
    hide MayStoreLive, Records, Next, Enabled;
  }

  lemma CreateKeepsDone(s: State, step: Step, jobId: string)
    requires Enabled(s, step) && step.Create? && SafelyDone(s, jobId)
    ensures SafelyDone(Next(s, step), jobId)
  {
    hide FindAnswer, MayStoreLive;
  }

  lemma StepKeepsDone(s: State, step: Step, jobId: string)
    requires Inv(s) && Enabled(s, step) && !step.Redeliver? && SafelyDone(s, jobId)
    ensures SafelyDone(Next(s, step), jobId)
  {
    if step.Work? {
      WorkKeepsDone(s, step.d, step.action, jobId);
    } else if IsQueueStep(step) {
      hide Inv, MayStoreLive;
    } else if IsOperatorStep(step) {
      OperatorKeepsDone(s, step, jobId);
    } else {
      CreateKeepsDone(s, step, jobId);
    }
  }

  lemma WorkKeepsGone(s: State, d: nat, action: Action, jobId: string)
    requires Inv(s) && Enabled(s, Step.Work(d, action)) && SafelyGone(s, jobId)
    ensures SafelyGone(Next(s, Step.Work(d, action)), jobId)
  {
    WrittenIsGenuine(s, d, action);
    WorkIsWorked(s, d, action);
    hide Inv, Records, Places, Started, NoOrphan, Locals, Next, Enabled;
    if s.inFlight[d].jobId == jobId {
      LocalStaysGone(s.inFlight[d].local, action);
    }
    hide LocalFits, WorkerProgram.Step, MayStore;
  }

  lemma StepKeepsGone(s: State, step: Step, jobId: string)
    requires Inv(s) && Enabled(s, step) && !step.Redeliver? && SafelyGone(s, jobId)
    ensures SafelyGone(Next(s, step), jobId)
  {
    if step.Work? {
      WorkKeepsGone(s, step.d, step.action, jobId);
    } else if IsOperatorStep(step) {
      OperatorKeepsGone(s, step, jobId);
    } else if step.Create? {
      CreateKeepsGone(s, step, jobId);
    } else {
      QueueKeepsGone(s, step, jobId);
    }
    hide Inv, SafelyGone, Next, Enabled;
  }

  lemma CreateKeepsGone(s: State, step: Step, jobId: string)
    requires Enabled(s, step) && step.Create? && SafelyGone(s, jobId)
    ensures SafelyGone(Next(s, step), jobId)
  {
    hide FindAnswer, MayStore;
  }

  lemma QueueKeepsGone(s: State, step: Step, jobId: string)
    requires Enabled(s, step) && IsQueueStep(step) && SafelyGone(s, jobId)
    ensures SafelyGone(Next(s, step), jobId)
  {
    OthersOnlyStart(s, step);
    assert Next(s, step).repo == s.repo && Next(s, step).created == s.created;
    assert Next(s, step).operators == s.operators && !MayStore(Local.Start);
    hide Next, Enabled, MayStore;
  }

  lemma OperatorKeepsGone(s: State, step: Step, jobId: string)
    requires Inv(s) && Enabled(s, step) && IsOperatorStep(step) && SafelyGone(s, jobId)
    ensures SafelyGone(Next(s, step), jobId)
  {
    hide Places, Started, NoOrphan, Locals, MayStore;
    assert step.OperatorRead? ==> s.repo.jobs[step.jobId].jobId == step.jobId;
    hide Records;
  }

  lemma {:induction false} RunKeepsDone(steps: seq<Step>, more: seq<Step>, jobId: string)
    requires Legal(steps) && Continues(steps, more) && SafelyDone(StateAfter(steps), jobId)
    ensures SafelyDone(StateAfter(steps + more), jobId)
    decreases |more|
  {
    if more == [] {
      assert steps + more == steps;
    } else {
      var n := |more| - 1;
      Shorter(steps, more);
      RunKeepsDone(steps, more[..n], jobId);
      RunKeepsInv(steps + more[..n]);
      hide Inv, Enabled, Next, SafelyDone;
      StepKeepsDone(StateAfter(steps + more[..n]), more[n], jobId);
    }
  }

  lemma {:induction false} RunKeepsGone(steps: seq<Step>, more: seq<Step>, jobId: string)
    requires Legal(steps) && Continues(steps, more) && SafelyGone(StateAfter(steps), jobId)
    ensures SafelyGone(StateAfter(steps + more), jobId)
    decreases |more|
  {
    if more == [] {
      assert steps + more == steps;
    } else {
      var n := |more| - 1;
      Shorter(steps, more);
      RunKeepsGone(steps, more[..n], jobId);
      RunKeepsInv(steps + more[..n]);
      hide Inv, Enabled, Next, SafelyGone;
      StepKeepsGone(StateAfter(steps + more[..n]), more[n], jobId);
    }
  }

  lemma Shorter(steps: seq<Step>, more: seq<Step>)
    requires Continues(steps, more) && more != []
    ensures Continues(steps, more[..|more| - 1]) && !more[|more| - 1].Redeliver?
    ensures var s := StateAfter(steps + more[..|more| - 1]);
            Enabled(s, more[|more| - 1]) && StateAfter(steps + more) == Next(s, more[|more| - 1])
  {
    UnrollMore(steps, more);
    hide Legal, StateAfter, Enabled, Next;
    assert (steps + more)[..|steps| + |more| - 1] == steps + more[..|more| - 1];
    assert (steps + more)[|steps| + |more| - 1] == more[|more| - 1];
  }

  // ---- Without them the property fails ----

  lemma OneMore(steps: seq<Step>, step: Step)
    requires Legal(steps) && Exclusive(steps) && Enabled(StateAfter(steps), step) && !step.Redeliver?
    ensures Continues(steps, [step]) && StateAfter(steps + [step]) == Next(StateAfter(steps), step)
  {
    var longer := Extend(steps, step);
  }

  lemma OneAction(steps: seq<Step>, d: nat, action: Action)
    requires Legal(steps) && Exclusive(steps) && d in StateAfter(steps).inFlight && !action.Get?
    requires WorkerProgram.Step(StateAfter(steps).inFlight[d].local, action).Some?
    ensures var s, step := StateAfter(steps), Step.Work(d, action);
            Continues(steps, [step]) && StateAfter(steps + [step]) == Worked(s, d, action)
  {
    hide WorkerProgram.Step, Legal, StateAfter;
    OneMore(steps, Step.Work(d, action));
  }

  /** An execution takes one more action, or none, and then stores a record. */
  lemma StoresAfter(steps: seq<Step>, d: nat, first: Option<Action>, record: JobRecord) returns (more: seq<Step>)
    requires Legal(steps) && Exclusive(steps) && d in StateAfter(steps).inFlight
    requires record.jobId == StateAfter(steps).inFlight[d].jobId
    requires first.Some? ==>
               !first.value.Get? && WorkerProgram.Step(StateAfter(steps).inFlight[d].local, first.value).Some?
    requires var local := StateAfter(steps).inFlight[d].local;
             var ready := if first.Some? then WorkerProgram.Step(local, first.value).value else local;
             WorkerProgram.Step(ready, Action.Write(record)).Some?
    ensures Continues(steps, more) && |more| <= 2 && forall i | 0 <= i < |more| :: more[i].Work?
    ensures record.jobId in StateAfter(steps + more).repo.jobs
    ensures StateAfter(steps + more).repo.jobs[record.jobId] == record
  {
    hide WorkerProgram.Step, Legal, StateAfter;
    var write := Step.Work(d, Action.Write(record));
    if first.Some? {
      var act := Step.Work(d, first.value);
      OneAction(steps, d, first.value);
      OneAction(steps + [act], d, Action.Write(record));
      more := [act, write];
      assert steps + more == steps + [act] + [write];
    } else {
      OneAction(steps, d, Action.Write(record));
      more := [write];
    }
  }

  /** What an execution does before the record it may store next, if anything. */
  function Before(local: Local): Option<Action> {
    if local.Live? && local.phase == WorkerProgram.UPDATES_BEFORE_SUBMIT
    then Some(Action.Submit(WorkerProgram.Accepted))
    else if local.Settled? then Some(Action.Interrupt)
    else None
  }

  function NextRecord(local: Local): JobRecord
    requires MayStore(local)
  {
    match local
    case Live(copy, phase) => copy.(status := if phase < WorkerProgram.LAST_PHASE then Running else Succeeded)
    case Handling(copy, completed) => copy.(status := WorkerProgram.HandledStatus(completed))
    case Settled(copy, _, _) => copy.(status := Succeeded)
    case _ => local.copy
  }

  lemma NextRecordIsPossible(local: Local)
    requires MayStore(local) && (local.Live? ==> local.phase <= WorkerProgram.LAST_PHASE)
    ensures var first := Before(local);
            && (first.Some? ==> !first.value.Get? && WorkerProgram.Step(local, first.value).Some?)
            && var ready := if first.Some? then WorkerProgram.Step(local, first.value).value else local;
               WorkerProgram.Step(ready, Action.Write(NextRecord(local))).Some?
    ensures NextRecord(local).jobId == local.copy.jobId
    ensures MayStoreLive(local) && (local.Claimed? || local.Marked? ==> local.copy.status.IsLive()) ==>
              !NextRecord(local).status.Terminal()
  {
  }

  /** Without the first condition at most two steps of the execution store a live record. */
  lemma LiveCopyIsStored(steps: seq<Step>, jobId: string) returns (more: seq<Step>)
    requires Legal(steps) && Exclusive(steps) && !NoLiveCopy(StateAfter(steps), jobId)
    ensures Continues(steps, more) && |more| <= 2 && !DoneOrGone(StateAfter(steps + more), jobId)
  {
    RunKeepsInv(steps);
    var s := StateAfter(steps);
    var d :| d in s.inFlight && s.inFlight[d].jobId == jobId && MayStoreLive(s.inFlight[d].local);
    more := CopyOfExecutionIsStored(steps, d);
    assert LocalFits(s, s.inFlight[d]);
    NextRecordIsPossible(s.inFlight[d].local);
    hide Inv, Legal, StateAfter;
  }

  lemma CopyOfExecutionIsStored(steps: seq<Step>, d: nat) returns (more: seq<Step>)
    requires Legal(steps) && Exclusive(steps) && d in StateAfter(steps).inFlight
             && MayStore(StateAfter(steps).inFlight[d].local)
    ensures Continues(steps, more) && |more| <= 2
    ensures var claim := StateAfter(steps).inFlight[d];
            && claim.jobId in StateAfter(steps + more).repo.jobs
            && StateAfter(steps + more).repo.jobs[claim.jobId] == NextRecord(claim.local)
  {
    RunKeepsInv(steps);
    var claim := StateAfter(steps).inFlight[d];
    assert LocalFits(StateAfter(steps), claim);
    assert claim.local.copy.jobId == claim.jobId;
    NextRecordIsPossible(claim.local);
    hide Inv, LocalFits, WorkerProgram.Step, Legal, StateAfter, NextRecord, Before;
    more := StoresAfter(steps, d, Before(claim.local), NextRecord(claim.local));
  }

  /** Without the second condition at most two steps bring the job back. */
  lemma CopyIsStored(steps: seq<Step>, jobId: string) returns (more: seq<Step>)
    requires Legal(steps) && Exclusive(steps) && !NoCopy(StateAfter(steps), jobId)
    ensures Continues(steps, more) && |more| <= 2 && jobId in StateAfter(steps + more).repo.jobs
  {
    RunKeepsInv(steps);
    var s := StateAfter(steps);
    if d :| d in s.inFlight && s.inFlight[d].jobId == jobId && MayStore(s.inFlight[d].local) {
      hide Inv, Legal, StateAfter;
      more := CopyOfExecutionIsStored(steps, d);
    } else {
      var o :| o in s.operators && s.operators[o].jobId == jobId;
      hide Inv, Legal;
      OneMore(steps, Step.OperatorFail(o, ""));
      more := [Step.OperatorFail(o, "")];
    }
  }

  // ---- The exact conditions ----

  /**
   A terminal status, or the absence of a record, is final in the store exactly when no
   execution of the job that has read a live record may still store one.
   */
  lemma TerminalIsFinalIff(steps: seq<Step>, jobId: string)
    requires Legal(steps) && Exclusive(steps)
    requires jobId in StateAfter(steps).created && DoneOrGone(StateAfter(steps), jobId)
    ensures StaysDone(steps, jobId) <==> NoLiveCopy(StateAfter(steps), jobId)
  {
    if NoLiveCopy(StateAfter(steps), jobId) {
      forall more | Continues(steps, more) ensures DoneOrGone(StateAfter(steps + more), jobId) {
        RunKeepsDone(steps, more, jobId);
      }
    } else {
      var more := LiveCopyIsStored(steps, jobId);
      assert Continues(steps, more);
    }
  }

  /**
   A deleted job stays deleted exactly when no execution of it that has read a record may
   still store one, and no operator holds a copy.
   */
  lemma DeletedStaysDeletedIff(steps: seq<Step>, jobId: string)
    requires Legal(steps) && Exclusive(steps)
    requires jobId in StateAfter(steps).created && jobId !in StateAfter(steps).repo.jobs
    ensures StaysGone(steps, jobId) <==> NoCopy(StateAfter(steps), jobId)
  {
    if NoCopy(StateAfter(steps), jobId) {
      forall more | Continues(steps, more) ensures jobId !in StateAfter(steps + more).repo.jobs {
        RunKeepsGone(steps, more, jobId);
      }
    } else {
      var more := CopyIsStored(steps, jobId);
      assert Continues(steps, more);
    }
  }
}
