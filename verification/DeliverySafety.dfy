/** What every step of the protocol keeps, under exclusive delivery, and what follows for all runs. */
module DeliverySafety {
  import opened Base
  import opened Domain
  import opened Contracts
  import opened JobStore
  import opened CreateJob
  import opened Delivery
  import opened ManageJob
  import WorkerProgram

  /** The record belongs to a created job and carries its key. */
  ghost predicate Genuine(s: State, jobId: string, job: JobRecord) {
    jobId in s.created && job.jobId == jobId && job.cacheKey == Some(s.created[jobId])
  }

  ghost predicate Records(s: State) {
    && (forall id | id in s.repo.jobs :: Genuine(s, id, s.repo.jobs[id]))
    && (forall o | o in s.operators :: Genuine(s, s.operators[o].jobId, s.operators[o]))
    && (forall id | id in s.created :: s.created[id] != "" && id != "")
  }

  /** Each message is in one place only. */
  ghost predicate Places(s: State) {
    && s.unpublished + s.pending + s.acked + s.dropped <= s.created.Keys
    && s.unpublished !! s.pending && s.unpublished !! s.acked && s.pending !! s.acked
    && s.dropped !! s.unpublished + s.pending + s.acked
    && (forall d | d in s.inFlight ::
          && s.inFlight[d].jobId in s.created
          && s.inFlight[d].jobId !in s.unpublished + s.pending + s.acked + s.dropped)
    && (forall d, e | d in s.inFlight && e in s.inFlight && d != e :: s.inFlight[d].jobId != s.inFlight[e].jobId)
  }

  /** Every stored live job has its message somewhere, its creator is about to publish it, or it was dropped. */
  ghost predicate NoOrphan(s: State) {
    forall id | id in s.repo.jobs && s.repo.jobs[id].status.IsLive() :: Located(s, id) || id in s.dropped
  }

  ghost predicate DoneOrGone(s: State, jobId: string) {
    jobId in s.repo.jobs ==> s.repo.jobs[jobId].status.Terminal()
  }

  ghost predicate NotQueued(s: State, jobId: string) {
    jobId in s.repo.jobs ==> s.repo.jobs[jobId].status != Queued
  }

  /** A live record was read; if it was QUEUED, the job never ran. */
  ghost predicate HoldsLive(s: State, id: string, copy: JobRecord) {
    && Genuine(s, id, copy) && copy.status.IsLive()
    && (copy.status == Queued ==> id !in s.started && s.submits[id] == 0)
  }

  /** What the private state of an execution says about the store and the pipeline. */
  ghost predicate LocalFits(s: State, claim: Claim) {
    var id := claim.jobId;
    match claim.local
    case Start => true
    case Noop(copy) => Genuine(s, id, copy) && copy.status.Terminal()
    case Claimed(copy) => HoldsLive(s, id, copy)
    case Marked(copy) => HoldsLive(s, id, copy)
    case Live(copy, phase) =>
      && Genuine(s, id, copy) && id in s.started && phase <= WorkerProgram.LAST_PHASE
      && (phase < WorkerProgram.SUBMITTED ==> s.submits[id] == 0)
    case Handling(copy, _) => Genuine(s, id, copy) && id in s.started
    case Skipped(_) => DoneOrGone(s, id)
    case Settled(copy, status, _) =>
      Genuine(s, id, copy) && id in s.started && status.Terminal() && DoneOrGone(s, id)
    case Aborted => true
    case Returned => DoneOrGone(s, id)
    case Raised => true
  }

  ghost predicate Locals(s: State) {
    forall d | d in s.inFlight :: LocalFits(s, s.inFlight[d])
  }

  ghost predicate Started(s: State) {
    && (forall id | id in s.started :: id in s.created && NotQueued(s, id))
    && (forall id :: s.submits[id] <= 1)
    && (forall id :: s.submits[id] > 0 ==> id in s.started)
  }

  ghost predicate Inv(s: State) {
    Records(s) && Places(s) && NoOrphan(s) && Locals(s) && Started(s)
  }

  ghost predicate Located(s: State, jobId: string) {
    jobId in s.unpublished || jobId in s.pending || IsInFlight(s, jobId)
  }

  /** A delivery in flight stays there, for the same job, until it is settled or dropped. */
  lemma InFlightStays(s: State, step: Step, d: nat)
    requires Enabled(s, step) && d in s.inFlight
    ensures ((step.Ack? || step.Nack? || step.Drop?) && step.d == d) ||
            (d in Next(s, step).inFlight && Next(s, step).inFlight[d].jobId == s.inFlight[d].jobId)
  {
    hide WorkerProgram.Step, NewJob, Put, Remove;
  }

  /** A message leaves the queue only by being published or received. */
  lemma QueuedStays(s: State, step: Step, jobId: string)
    requires Enabled(s, step) && (jobId in s.unpublished || jobId in s.pending)
    ensures jobId in Next(s, step).unpublished || jobId in Next(s, step).pending ||
            (step.Receive? && step.d in Next(s, step).inFlight && Next(s, step).inFlight[step.d].jobId == jobId)
  {
    hide WorkerProgram.Step, NewJob, Put, Remove;
  }

  lemma NackReturns(s: State, d: nat)
    requires Enabled(s, Step.Nack(d))
    ensures s.inFlight[d].jobId in Next(s, Step.Nack(d)).pending
  {
  }

  /** A message leaves the queue only when it is acknowledged or dropped. */
  lemma LocatedStays(s: State, step: Step, jobId: string)
    requires Enabled(s, step) && Located(s, jobId)
    requires step.Ack? || step.Drop? ==> s.inFlight[step.d].jobId != jobId
    ensures Located(Next(s, step), jobId)
  {
    if IsInFlight(s, jobId) {
      var d :| d in s.inFlight && s.inFlight[d].jobId == jobId;
      InFlightStays(s, step, d);
      if step.Nack? && step.d == d {
        NackReturns(s, d);
      }
    } else {
      QueuedStays(s, step, jobId);
    }
    hide Enabled, Next;
  }

  /** A step that stores no live record of a job without a message keeps the invariant `NoOrphan`. */
  lemma NoOrphanStays(s: State, step: Step)
    requires Enabled(s, step) && NoOrphan(s)
    requires step.Ack? ==> DoneOrGone(s, s.inFlight[step.d].jobId)
    requires forall id | id in Next(s, step).repo.jobs && Next(s, step).repo.jobs[id].status.IsLive() ::
               (id in s.repo.jobs && s.repo.jobs[id].status.IsLive()) || Located(Next(s, step), id)
    ensures NoOrphan(Next(s, step))
  {
    var t := Next(s, step);
    forall id | id in t.repo.jobs && t.repo.jobs[id].status.IsLive() ensures Located(t, id) || id in t.dropped {
      if !Located(t, id) && id !in t.dropped {
        assert id in s.dropped ==> id in t.dropped;
        assert Located(s, id);
        LocatedStays(s, step, id);
      }
    }
  }

  // ---- Create ----

  lemma CreateKeepsInv(s: State, step: Step)
    requires Inv(s) && Enabled(s, step) && step.Create?
    ensures Inv(Next(s, step))
  {
    if !Reusable(step.cached, s.now) {
      CreateKeepsRecords(s, step);
      CreateKeepsPlaces(s, step);
      CreateKeepsLocals(s, step);
      hide Records, Places, Started, Locals, FindAnswer;
      NoOrphanStays(s, step);
    }
  }

  lemma CreateKeepsRecords(s: State, step: Step)
    requires Inv(s) && Enabled(s, step) && step.Create? && !Reusable(step.cached, s.now)
    ensures Records(Next(s, step)) && Started(Next(s, step))
  {
    hide NoOrphan, Locals, Places, FindAnswer;
    assert step.jobId !in s.started;
  }

  lemma CreateKeepsPlaces(s: State, step: Step)
    requires Inv(s) && Enabled(s, step) && step.Create? && !Reusable(step.cached, s.now)
    ensures Places(Next(s, step))
  {
    hide NoOrphan, Locals, Records, Started, FindAnswer, NewJob, Put;
  }

  lemma CreateKeepsLocals(s: State, step: Step)
    requires Inv(s) && Enabled(s, step) && step.Create? && !Reusable(step.cached, s.now)
    ensures Locals(Next(s, step))
  {
    hide NoOrphan, Started, Records, FindAnswer;
    forall d | d in s.inFlight ensures LocalFits(Next(s, step), s.inFlight[d]) {
      assert LocalFits(s, s.inFlight[d]);
      assert s.inFlight[d].jobId != step.jobId;
    }
  }

  // ---- The queue ----

  ghost predicate IsQueueStep(step: Step) {
    step.Tick? || step.Publish? || step.Receive? || step.Ack? || step.Nack? || step.Drop?
  }

  lemma QueueKeepsInv(s: State, step: Step)
    requires Inv(s) && Enabled(s, step) && IsQueueStep(step)
    ensures Inv(Next(s, step))
  {
    QueueKeepsPlaces(s, step);
    QueueKeepsLocals(s, step);
    AckedIsDone(s, step);
    assert Next(s, step).repo == s.repo && Next(s, step).created == s.created && Next(s, step).operators == s.operators;
    assert Next(s, step).started == s.started && Next(s, step).submits == s.submits;
    hide Places, Locals, LocalFits, Next, Enabled, Records, Started;
    SameStore(s, Next(s, step));
    NoOrphanStays(s, step);
  }

  lemma SameStore(s: State, t: State)
    requires Records(s) && Started(s)
    requires t.repo == s.repo && t.created == s.created && t.operators == s.operators
    requires t.started == s.started && t.submits == s.submits
    ensures Records(t) && Started(t)
  {
    hide Genuine;
    forall id | id in t.repo.jobs ensures Genuine(t, id, t.repo.jobs[id]) {
      GenuineStays(s, t, id, s.repo.jobs[id]);
    }
    forall o | o in t.operators ensures Genuine(t, t.operators[o].jobId, t.operators[o]) {
      GenuineStays(s, t, s.operators[o].jobId, s.operators[o]);
    }
  }

  lemma GenuineStays(s: State, t: State, id: string, job: JobRecord)
    requires Genuine(s, id, job) && t.created == s.created
    ensures Genuine(t, id, job)
  {
  }

  lemma AckedIsDone(s: State, step: Step)
    requires Locals(s) && Enabled(s, step)
    ensures step.Ack? ==> DoneOrGone(s, s.inFlight[step.d].jobId)
  {
    if step.Ack? {
      assert LocalFits(s, s.inFlight[step.d]);
    }
  }

  lemma QueueKeepsPlaces(s: State, step: Step)
    requires Inv(s) && Enabled(s, step) && IsQueueStep(step)
    ensures Places(Next(s, step))
  {
    hide NoOrphan, Locals, Records, Started;
  }

  lemma QueueKeepsLocals(s: State, step: Step)
    requires Inv(s) && Enabled(s, step) && IsQueueStep(step)
    ensures Locals(Next(s, step))
  {
    hide NoOrphan, Places, Records, Started;
    var t := Next(s, step);
    forall d | d in t.inFlight ensures LocalFits(t, t.inFlight[d]) {
      if d in s.inFlight && t.inFlight[d] == s.inFlight[d] {
        assert LocalFits(s, s.inFlight[d]);
      }
    }
  }

  // ---- Operators ----

  ghost predicate IsOperatorStep(step: Step) {
    step.OperatorRead? || step.OperatorFail? || step.OperatorDelete?
  }

  lemma OperatorKeepsInv(s: State, step: Step)
    requires Inv(s) && Enabled(s, step) && IsOperatorStep(step)
    ensures Inv(Next(s, step))
  {
    OperatorKeepsRecords(s, step);
    OperatorOnlyEnds(s, step);
    OperatorKeepsLocals(s, step);
    OperatorKeepsPlaces(s, step);
    assert !step.Ack?;
    hide Locals, LocalFits, Records, Places, Started, Next, Enabled;
    NoOrphanStays(s, step);
  }

  /** An operator's step stores only a terminal record, or removes one, and touches no other job. */
  lemma OperatorOnlyEnds(s: State, step: Step)
    requires Records(s) && Enabled(s, step) && IsOperatorStep(step)
    ensures forall id | id in Next(s, step).repo.jobs ::
              || Next(s, step).repo.jobs[id].status.Terminal()
              || (id in s.repo.jobs && Next(s, step).repo.jobs[id] == s.repo.jobs[id])
    ensures forall id | step.OperatorRead? || id != s.operators[step.o].jobId ::
              Lookup(Next(s, step).repo, id) == Lookup(s.repo, id)
  {
  }

  lemma OperatorKeepsPlaces(s: State, step: Step)
    requires Places(s) && Enabled(s, step) && IsOperatorStep(step)
    ensures Places(Next(s, step))
  {
    hide Put, Remove, MarkedFailed;
    assert Next(s, step).inFlight == s.inFlight && Next(s, step).created == s.created;
    hide Next, Enabled;
  }

  lemma OperatorKeepsRecords(s: State, step: Step)
    requires Inv(s) && Enabled(s, step) && IsOperatorStep(step)
    ensures Records(Next(s, step)) && Started(Next(s, step))
  {
    hide NoOrphan, Locals, Places;
  }

  lemma OperatorKeepsLocals(s: State, step: Step)
    requires Inv(s) && Enabled(s, step) && IsOperatorStep(step)
    ensures Locals(Next(s, step))
  {
    hide NoOrphan, Places, Started;
    OperatorOnlyEnds(s, step);
    var t := Next(s, step);
    hide Records;
    forall d | d in s.inFlight ensures LocalFits(t, s.inFlight[d]) {
      assert LocalFits(s, s.inFlight[d]);
    }
  }

  // ---- Executions ----

  lemma WorkKeepsInv(s: State, d: nat, action: Action)
    requires Inv(s) && Enabled(s, Step.Work(d, action))
    ensures Inv(Next(s, Step.Work(d, action)))
  {
    WrittenIsGenuine(s, d, action);
    WorkKeepsRecords(s, d, action);
    WorkKeepsOwnLocal(s, d, action);
    WorkKeepsOtherLocals(s, d, action);
    WorkKeepsStarted(s, d, action);
    WorkKeepsPlaces(s, d, action);
    WorkStoresOwnJob(s, d, action);
    var t := Next(s, Step.Work(d, action));
    assert Located(t, s.inFlight[d].jobId) by {
      assert t.inFlight[d].jobId == s.inFlight[d].jobId;
    }
    hide Places, LocalFits, Records, Started;
    NoOrphanStays(s, Step.Work(d, action));
  }

  /** An execution writes only its own job, under its own key. */
  lemma WrittenIsGenuine(s: State, d: nat, action: Action)
    requires Locals(s) && Enabled(s, Step.Work(d, action))
    ensures action.Write? ==> Genuine(s, s.inFlight[d].jobId, action.record)
  {
    assert LocalFits(s, s.inFlight[d]);
  }

  lemma WorkStoresOwnJob(s: State, d: nat, action: Action)
    requires Locals(s) && Enabled(s, Step.Work(d, action))
    ensures forall id | id != s.inFlight[d].jobId :: Lookup(Worked(s, d, action).repo, id) == Lookup(s.repo, id)
  {
    WrittenIsGenuine(s, d, action);
  }

  lemma WorkKeepsRecords(s: State, d: nat, action: Action)
    requires Inv(s) && Enabled(s, Step.Work(d, action))
    ensures Records(Worked(s, d, action))
  {
    WrittenIsGenuine(s, d, action);
    hide NoOrphan, Locals, Places, Started;
  }

  lemma WorkKeepsPlaces(s: State, d: nat, action: Action)
    requires Inv(s) && Enabled(s, Step.Work(d, action))
    ensures Places(Worked(s, d, action))
  {
    hide NoOrphan, Locals, Records, Started;
    var t := Worked(s, d, action);
    forall e | e in t.inFlight ensures e in s.inFlight && t.inFlight[e].jobId == s.inFlight[e].jobId {}
  }

  lemma WorkKeepsOwnLocal(s: State, d: nat, action: Action)
    requires Inv(s) && Enabled(s, Step.Work(d, action))
    ensures LocalFits(Worked(s, d, action), Worked(s, d, action).inFlight[d])
  {
    assert LocalFits(s, s.inFlight[d]);
    WrittenIsGenuine(s, d, action);
    hide LocalFits, Worked, Records, Started, NoOrphan, Locals, Places;
    if s.inFlight[d].local.Start? {
      GetFits(s, d, action);
    } else {
      ActFits(s, d, action);
    }
  }

  /** Every later action of an execution fits. */
  lemma ActFits(s: State, d: nat, action: Action)
    requires Enabled(s, Step.Work(d, action)) && LocalFits(s, s.inFlight[d]) && !s.inFlight[d].local.Start?
    requires action.Write? ==> Genuine(s, s.inFlight[d].jobId, action.record)
    ensures LocalFits(Worked(s, d, action), Worked(s, d, action).inFlight[d])
  {
    var t, id := Worked(s, d, action), s.inFlight[d].jobId;
    assert action.Write? ==> id in t.repo.jobs && t.repo.jobs[id] == action.record;
  }

  /** What was read fits: a QUEUED record belongs to a job that never ran. */
  lemma GetFits(s: State, d: nat, action: Action)
    requires Records(s) && Started(s) && Enabled(s, Step.Work(d, action)) && s.inFlight[d].local.Start?
    ensures LocalFits(Worked(s, d, action), Worked(s, d, action).inFlight[d])
  {
    var id := s.inFlight[d].jobId;
    if action.Get? && action.found.Some? {
      var copy := s.repo.jobs[id];
      assert Genuine(s, id, copy);
      assert copy.status.Terminal() || copy.status.IsLive() by {
        match copy.status { case Queued => case Running => case Succeeded => case Failed => case Canceled => }
      }
      assert copy.status == Queued ==> id !in s.started && s.submits[id] == 0;
    }
  }

  lemma WorkKeepsOtherLocals(s: State, d: nat, action: Action)
    requires Inv(s) && Enabled(s, Step.Work(d, action))
    ensures Locals(Worked(s, d, action))
  {
    WorkKeepsOwnLocal(s, d, action);
    WrittenIsGenuine(s, d, action);
    var t := Worked(s, d, action);
    forall e | e in t.inFlight && e != d ensures LocalFits(t, t.inFlight[e]) {
      assert s.inFlight[e].jobId != s.inFlight[d].jobId;
      OtherLocalFits(s, d, action, s.inFlight[e]);
    }
  }

  lemma OtherLocalFits(s: State, d: nat, action: Action, claim: Claim)
    requires Enabled(s, Step.Work(d, action)) && LocalFits(s, claim)
    requires action.Write? ==> Genuine(s, s.inFlight[d].jobId, action.record)
    requires claim.jobId != s.inFlight[d].jobId
    ensures LocalFits(Worked(s, d, action), claim)
  {
  }

  /** What a record or a submission of an execution means for its job. */
  lemma ActionMeans(s: State, claim: Claim, action: Action)
    requires LocalFits(s, claim) && WorkerProgram.Step(claim.local, action).Some?
    ensures action.Write? && action.record.status == Queued ==> claim.jobId !in s.started
    ensures action.Write? ==> action.record.jobId == claim.jobId && claim.jobId in s.created
    ensures action.Submit? ==> s.submits[claim.jobId] == 0 && claim.jobId in s.started
  {
  }

  lemma WorkKeepsStarted(s: State, d: nat, action: Action)
    requires Inv(s) && Enabled(s, Step.Work(d, action))
    ensures Started(Worked(s, d, action))
  {
    assert LocalFits(s, s.inFlight[d]);
    ActionMeans(s, s.inFlight[d], action);
    hide NoOrphan, Locals, Places, Records, LocalFits, WorkerProgram.Step, Genuine;
  }

  // ---- All runs ----

  lemma StepKeepsInv(s: State, step: Step)
    requires Inv(s) && Enabled(s, step) && !step.Redeliver?
    ensures Inv(Next(s, step))
  {
    match step {
      case Create(_, _, _, _, _) => CreateKeepsInv(s, step);
      case Work(d, action) => WorkKeepsInv(s, d, action);
      case OperatorRead(_, _) => OperatorKeepsInv(s, step);
      case OperatorFail(_, _) => OperatorKeepsInv(s, step);
      case OperatorDelete(_) => OperatorKeepsInv(s, step);
      case _ => QueueKeepsInv(s, step);
    }
  }

  lemma {:induction false} RunKeepsInv(steps: seq<Step>)
    requires Legal(steps) && Exclusive(steps)
    ensures Inv(StateAfter(steps))
    decreases |steps|
  {
    if steps != [] {
      var n := |steps| - 1;
      RunKeepsInv(steps[..n]);
      hide Inv, Enabled, Next;
      StepKeepsInv(StateAfter(steps[..n]), steps[n]);
    }
  }

  /**
   In every run, a stored job that is queued or running has its message, or its creator is
   about to publish it, except exactly when its delivery was dropped.
   */
  lemma NoLiveJobWithoutMessage(steps: seq<Step>, jobId: string)
    requires Legal(steps) && Exclusive(steps)
    requires jobId in StateAfter(steps).repo.jobs && StateAfter(steps).repo.jobs[jobId].status.IsLive()
    ensures Located(StateAfter(steps), jobId) <==> !WasDropped(steps, jobId)
  {
    RunKeepsInv(steps);
    DroppedMeans(steps, jobId);
  }

  /** Some step of the run dropped a delivery of the job. */
  ghost predicate WasDropped(steps: seq<Step>, jobId: string) {
    exists i :: 0 <= i < |steps| && Drops(steps, i, jobId)
  }

  ghost predicate Drops(steps: seq<Step>, i: nat, jobId: string) {
    && i < |steps| && steps[i].Drop? && Legal(steps[..i])
    && steps[i].d in StateAfter(steps[..i]).inFlight && StateAfter(steps[..i]).inFlight[steps[i].d].jobId == jobId
  }

  lemma {:induction false} DroppedMeans(steps: seq<Step>, jobId: string)
    requires Legal(steps)
    ensures jobId in StateAfter(steps).dropped <==> WasDropped(steps, jobId)
    decreases |steps|
  {
    if steps != [] {
      var n := |steps| - 1;
      var before := steps[..n];
      DroppedMeans(before, jobId);
      forall i | 0 <= i < n ensures Drops(steps, i, jobId) <==> Drops(before, i, jobId) {
        assert before[..i] == steps[..i];
      }
      DropStep(StateAfter(before), steps[n], jobId);
      assert Drops(steps, n, jobId) <==>
             steps[n].Drop? && StateAfter(before).inFlight[steps[n].d].jobId == jobId;
      hide Enabled, Next, Drops, Legal;
      if WasDropped(before, jobId) {
        var i :| 0 <= i < n && Drops(before, i, jobId);
        assert Drops(steps, i, jobId);
      }
    }
  }

  lemma DropStep(s: State, step: Step, jobId: string)
    requires Enabled(s, step)
    ensures jobId in Next(s, step).dropped <==>
            jobId in s.dropped || (step.Drop? && s.inFlight[step.d].jobId == jobId)
  {
  }

  /**
   Over a whole run, across redeliveries, operator edits, deletions and resurrections, a
   job is submitted at most once.
   */
  lemma SubmittedAtMostOnce(steps: seq<Step>, jobId: string)
    requires Legal(steps) && Exclusive(steps)
    ensures StateAfter(steps).submits[jobId] <= 1
  {
    RunKeepsInv(steps);
  }

  /** When a delivery is acknowledged, the stored record of its job is terminal, or an operator deleted it. */
  lemma AckImpliesDone(steps: seq<Step>, d: nat)
    requires Legal(steps) && Exclusive(steps) && Enabled(StateAfter(steps), Step.Ack(d))
    ensures DoneOrGone(StateAfter(steps), StateAfter(steps).inFlight[d].jobId)
  {
    RunKeepsInv(steps);
    AckedIsDone(StateAfter(steps), Step.Ack(d));
  }

  /** Once a record of a job was stored RUNNING, the stored record is never QUEUED again. */
  lemma {:induction false} NeverQueuedAfterRunning(steps: seq<Step>, n: nat, jobId: string)
    requires Legal(steps) && Exclusive(steps) && n <= |steps| && Legal(steps[..n])
    requires jobId in StateAfter(steps[..n]).repo.jobs && StateAfter(steps[..n]).repo.jobs[jobId].status == Running
    ensures NotQueued(StateAfter(steps), jobId)
  {
    RunKeepsInv(steps);
    assert Exclusive(steps[..n]);
    RunningWasStarted(steps[..n], jobId);
    StartedStays(steps, n, jobId);
  }

  lemma {:induction false} RunningWasStarted(steps: seq<Step>, jobId: string)
    requires Legal(steps) && Exclusive(steps)
    requires jobId in StateAfter(steps).repo.jobs && StateAfter(steps).repo.jobs[jobId].status == Running
    ensures jobId in StateAfter(steps).started
    decreases |steps|
  {
    if steps != [] {
      var n := |steps| - 1;
      RunKeepsInv(steps[..n]);
      hide Inv;
      var s := StateAfter(steps[..n]);
      if jobId in s.repo.jobs && s.repo.jobs[jobId].status == Running {
        RunningWasStarted(steps[..n], jobId);
      }
      RunningIsStarted(s, steps[n], jobId);
      hide Next, Enabled;
    }
  }

  lemma RunningIsStarted(s: State, step: Step, jobId: string)
    requires Inv(s) && Enabled(s, step) && !step.Redeliver?
    requires jobId in Next(s, step).repo.jobs && Next(s, step).repo.jobs[jobId].status == Running
    ensures jobId in Next(s, step).started || (jobId in s.repo.jobs && s.repo.jobs[jobId].status == Running)
    ensures s.started <= Next(s, step).started
  {
    StartedGrows(s, step);
    if step.Work? {
      WorkStarts(s, step.d, step.action, jobId);
    } else {
      OthersStartNothing(s, step, jobId);
    }
    hide Inv, Next, Enabled;
  }

  lemma WorkStarts(s: State, d: nat, action: Action, jobId: string)
    requires Locals(s) && Enabled(s, Step.Work(d, action))
    requires jobId in Worked(s, d, action).repo.jobs && Worked(s, d, action).repo.jobs[jobId].status == Running
    ensures jobId in Worked(s, d, action).started || (jobId in s.repo.jobs && s.repo.jobs[jobId].status == Running)
  {
    WrittenIsGenuine(s, d, action);
    hide Locals, WorkerProgram.Step;
  }

  /** Only an execution stores a record RUNNING. */
  lemma OthersStartNothing(s: State, step: Step, jobId: string)
    requires Enabled(s, step) && !step.Work?
    requires jobId in Next(s, step).repo.jobs && Next(s, step).repo.jobs[jobId].status == Running
    ensures jobId in s.repo.jobs && s.repo.jobs[jobId].status == Running
  {
    hide FindAnswer;
  }

  lemma StartedGrowsInRun(steps: seq<Step>)
    requires Legal(steps) && steps != []
    ensures Legal(steps[..|steps| - 1]) && StateAfter(steps[..|steps| - 1]).started <= StateAfter(steps).started
  {
    StartedGrows(StateAfter(steps[..|steps| - 1]), steps[|steps| - 1]);
    hide Enabled, Next;
  }

  lemma {:induction false} StartedStays(steps: seq<Step>, n: nat, jobId: string)
    requires Legal(steps) && n <= |steps| && Legal(steps[..n]) && jobId in StateAfter(steps[..n]).started
    ensures jobId in StateAfter(steps).started
    decreases |steps|
  {
    hide Legal, StateAfter;
    if n < |steps| {
      var m := |steps| - 1;
      StartedGrowsInRun(steps);
      assert steps[..m][..n] == steps[..n];
      StartedStays(steps[..m], n, jobId);
    } else {
      assert steps[..n] == steps;
    }
  }

  lemma StartedGrows(s: State, step: Step)
    requires Enabled(s, step)
    ensures s.started <= Next(s, step).started
  {
  }
}
