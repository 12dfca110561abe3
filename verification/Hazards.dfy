/**
 What the protocol does not promise, each shown by a run: a stored terminal status may be
 overwritten, a deleted job may come back, and without the hypotheses of the safety and
 deduplication theorems a job is submitted twice and a key gets two fresh live jobs.

 The records are built the way an execution builds them, stage by stage, and written in
 the order in which it writes them.
 */
module Hazards {
  import opened Base
  import opened Domain
  import opened Contracts
  import opened Trace
  import opened JobStore
  import opened CreateJob
  import opened Delivery
  import opened DeliverySafety
  import opened StuckJobs
  import WorkerProgram

  /** Any request will do. */
  ghost const REQUEST: RenderRequest := var request: RenderRequest :| true; request

  const ZERO: Times := Times(0, 0, 0, 0, 0)

  ghost function Fresh(jobId: string): JobRecord {
    NewJob(jobId, REQUEST, "key", None, ZERO)
  }

  // ---- The records an execution writes ----

  /** A stage has been started. */
  ghost function Doing(job: JobRecord, name: string, at: int): JobRecord {
    job.(trace := Opened(job.trace, name, at))
  }

  /** A stage has been started and finished. */
  ghost function Did(job: JobRecord, name: string, status: StageStatus, at: int, error: Option<string>): JobRecord {
    job.(trace := Finished(Opened(job.trace, name, at), name, status, at, error))
  }

  /** Line 61 of `process_job.py`. */
  ghost function ClaimRecord(job: JobRecord, at: int): JobRecord {
    Did(job, "worker_claimed", StageSucceeded, at, None)
  }

  /** Line 67: the source asset is missing. */
  ghost function MissingRecord(job: JobRecord, at: int): JobRecord {
    Did(ClaimRecord(job, at), "asset_ref_loaded", StageFailed, at, Some("missing"))
  }

  /** Line 74. */
  ghost function RunningRecord(job: JobRecord, at: int): JobRecord {
    Did(ClaimRecord(job, at), "asset_ref_loaded", StageSucceeded, at, None)
      .(status := Running, startedAt := Some(at), updatedAt := at)
  }

  /** Lines 78, 87, 90, 93 and 102: the stage updates before the submission. */
  ghost function UpdateRecord(job: JobRecord, at: int, phase: nat): JobRecord
    requires phase <= 5
  {
    if phase == 0 then RunningRecord(job, at)
    else if phase == 1 then Doing(UpdateRecord(job, at, 0), "ml_probe", at)
    else if phase == 2 then Did(UpdateRecord(job, at, 0), "ml_probe", StageSucceeded, at, None)
    else if phase == 3 then Doing(UpdateRecord(job, at, 2), "asset_bytes_loaded", at)
    else if phase == 4 then Did(UpdateRecord(job, at, 2), "asset_bytes_loaded", StageSucceeded, at, None)
    else Doing(UpdateRecord(job, at, 4), "ml_submit", at)
  }

  /** Lines 159-167: the exception handler. */
  ghost function HandledRecord(job: JobRecord, at: int, error: string): JobRecord {
    job.(status := Failed, updatedAt := at, finishedAt := Some(at),
         error := Some(ErrorInfo("processing_failed", error)),
         trace := Recorded(Interrupted(job.trace, at, error), "failed", StageFailed, at, Some(error)))
  }

  /** Lines 55-56: the no-op of a finished job. */
  ghost function NoopRecord(job: JobRecord, at: int): JobRecord {
    job.(trace := Recorded(job.trace, "terminal_noop", StageSkipped, at, None))
  }

  /** `record` is one of job `a`, under its key. */
  ghost predicate OfA(record: JobRecord) {
    record.jobId == "a" && record.cacheKey == Some("key")
  }

  // ---- Runs of one job with one execution ----

  /** The only job ever created is `a`, its record is `stored`, and execution `d` has it in flight. */
  ghost predicate At(steps: seq<Step>, stored: JobRecord, d: nat, local: Local) {
    && Legal(steps) && Exclusive(steps) && OfA(stored)
    && var s := StateAfter(steps);
       && s.repo == Repo(map["a" := stored], map["key" := "a"])
       && s.inFlight == map[d := Claim("a", local)]
       && s.created == map["a" := "key"] && s.latest == map["key" := "a"]
       && s.operators == map[] && s.pending == {} && s.unpublished == {} && s.dropped == {} && s.now == 0
       && s.submits == multiset{}
  }

  lemma Rewritten(stored: JobRecord, record: JobRecord)
    requires OfA(record)
    ensures Put(Repo(map["a" := stored], map["key" := "a"]), record) == Repo(map["a" := record], map["key" := "a"])
  {
  }

  /** The execution writes its record. */
  lemma Write(steps: seq<Step>, stored: JobRecord, d: nat, local: Local, record: JobRecord) returns (longer: seq<Step>)
    requires At(steps, stored, d, local) && OfA(record) && WorkerProgram.Step(local, Action.Write(record)).Some?
    ensures At(longer, record, d, WorkerProgram.Step(local, Action.Write(record)).value)
    ensures longer == steps + [Step.Work(d, Action.Write(record))]
  {
    Rewritten(stored, record);
    hide WorkerProgram.Step, Put, Legal, StateAfter;
    longer := Extend(steps, Step.Work(d, Action.Write(record)));
  }

  /** The execution acts without touching the store. */
  lemma Act(steps: seq<Step>, stored: JobRecord, d: nat, local: Local, action: Action) returns (longer: seq<Step>)
    requires At(steps, stored, d, local) && WorkerProgram.Step(local, action).Some?
    requires !action.Write? && !action.Submit? && (action.Get? ==> action.found == Some(stored))
    ensures At(longer, stored, d, WorkerProgram.Step(local, action).value)
  {
    hide WorkerProgram.Step, Legal, StateAfter;
    longer := Extend(steps, Step.Work(d, action));
  }

  lemma FreshFacts()
    ensures OfA(Fresh("a")) && Fresh("a").status == Queued && Fresh("a").updatedAt == 0
  {
  }

  /** Job `a` is stored. */
  lemma Created() returns (steps: seq<Step>)
    ensures Legal(steps) && Exclusive(steps)
    ensures var s := StateAfter(steps);
            && s == INITIAL.(repo := Repo(map["a" := Fresh("a")], map["key" := "a"]), created := map["a" := "key"],
                             latest := map["key" := "a"], unpublished := {"a"})
  {
    FreshFacts();
    FreshIsNew();
    hide Fresh, NewJob;
    assert Put(Repo(map[], map[]), Fresh("a")) == Repo(map["a" := Fresh("a")], map["key" := "a"]);
    steps := [];
    steps := Extend(steps, Step.Create("a", REQUEST, "key", None, ZERO));
    hide Put;
  }

  /** Its message is published. */
  lemma MadePending() returns (steps: seq<Step>)
    ensures Legal(steps) && Exclusive(steps)
    ensures var s := StateAfter(steps);
            && s == INITIAL.(repo := Repo(map["a" := Fresh("a")], map["key" := "a"]), created := map["a" := "key"],
                             latest := map["key" := "a"], pending := {"a"})
  {
    hide Fresh;
    steps := Created();
    hide Legal, StateAfter;
    steps := Extend(steps, Step.Publish("a"));
  }

  /** It is delivered to execution 1. */
  lemma Started() returns (steps: seq<Step>)
    ensures At(steps, Fresh("a"), 1, Local.Start)
  {
    FreshFacts();
    hide Fresh;
    steps := MadePending();
    hide Legal, StateAfter;
    steps := Extend(steps, Step.Receive(1, "a"));
  }

  lemma FreshIsNew()
    ensures Fresh("a") == NewJob("a", REQUEST, "key", None, ZERO)
  {
  }

  /** It has read the QUEUED record. */
  lemma Read() returns (steps: seq<Step>)
    ensures At(steps, Fresh("a"), 1, Local.Claimed(Fresh("a")))
  {
    FreshFacts();
    steps := Started();
    hide Fresh, At;
    steps := Act(steps, Fresh("a"), 1, Local.Start, Action.Get(Some(Fresh("a"))));
  }

  /** It has stored its claim. */
  lemma Marked() returns (steps: seq<Step>)
    ensures At(steps, ClaimRecord(Fresh("a"), 0), 1, Local.Marked(Fresh("a")))
  {
    FreshFacts();
    hide Fresh, At;
    steps := Read();
    steps := Write(steps, Fresh("a"), 1, Local.Claimed(Fresh("a")), ClaimRecord(Fresh("a"), 0));
  }

  /** It has stored RUNNING, and then that it probes. */
  lemma Probing() returns (steps: seq<Step>)
    ensures At(steps, UpdateRecord(Fresh("a"), 0, 1), 1, Local.Live(Fresh("a"), 1))
  {
    FreshFacts();
    hide Fresh, At;
    steps := Marked();
    steps := Write(steps, ClaimRecord(Fresh("a"), 0), 1, Local.Marked(Fresh("a")), UpdateRecord(Fresh("a"), 0, 0));
    steps := Write(steps, UpdateRecord(Fresh("a"), 0, 0), 1, Local.Live(Fresh("a"), 0),
        UpdateRecord(Fresh("a"), 0, 1));
  }

  /** The record of job `a` after its probe raised. */
  ghost function FailedRecord(): JobRecord {
    HandledRecord(UpdateRecord(Fresh("a"), 0, 1), 0, "probe")
  }

  lemma FailedFacts()
    ensures OfA(FailedRecord()) && FailedRecord().status == Failed
  {
  }

  /** The probe has raised: FAILED is stored, the delivery is not settled yet. */
  lemma FailedOnce() returns (steps: seq<Step>)
    ensures At(steps, FailedRecord(), 1, Local.Settled(Fresh("a"), Failed, false))
  {
    FreshFacts();
    FailedFacts();
    steps := Probing();
    hide At, Fresh, FailedRecord, UpdateRecord;
    steps := Act(steps, UpdateRecord(Fresh("a"), 0, 1), 1, Local.Live(Fresh("a"), 1), Action.Interrupt);
    steps := Write(steps, UpdateRecord(Fresh("a"), 0, 1), 1, Local.Handling(Fresh("a"), false), FailedRecord());
  }

  /** The message is put back and delivered to execution 2, which has read the FAILED record. */
  lemma ReadAgain() returns (steps: seq<Step>)
    ensures At(steps, FailedRecord(), 2, Local.Noop(FailedRecord()))
  {
    FailedFacts();
    steps := FailedOnce();
    hide Fresh, FailedRecord;
    steps := Act(steps, FailedRecord(), 1, Local.Settled(Fresh("a"), Failed, false), Action.Raise);
    steps := Redelivered(steps, FailedRecord(), Local.Raised);
    hide At;
    steps := Act(steps, FailedRecord(), 2, Local.Start, Action.Get(Some(FailedRecord())));
  }

  /** A message that was put back is delivered to execution 2. */
  lemma Redelivered(steps: seq<Step>, stored: JobRecord, local: Local) returns (longer: seq<Step>)
    requires At(steps, stored, 1, local) && local == Local.Raised
    ensures At(longer, stored, 2, Local.Start)
  {
    hide Legal, StateAfter;
    longer := Extend(steps, Step.Nack(1));
    longer := Extend(longer, Step.Receive(2, "a"));
  }

  // ---- Lost updates ----

  /** The claim write puts a job the operator failed back to QUEUED. */
  lemma FailedBecomesQueued() returns (steps: seq<Step>)
    ensures Legal(steps) && Exclusive(steps) && |steps| > 0 && Legal(steps[..|steps| - 1])
    ensures var before, after := StateAfter(steps[..|steps| - 1]), StateAfter(steps);
            && "a" in before.repo.jobs && before.repo.jobs["a"].status == Failed
            && "a" in after.repo.jobs && after.repo.jobs["a"] == ClaimRecord(Fresh("a"), 0)
            && after.repo.jobs["a"].status == Queued
  {
    FreshFacts();
    steps := Read();
    hide Fresh, Finished;
    steps := Extend(steps, Step.OperatorRead(1, "a"));
    steps := Extend(steps, Step.OperatorFail(1, "lost"));
    var before := steps;
    steps := Extend(steps, Step.Work(1, Action.Write(ClaimRecord(Fresh("a"), 0))));
    assert steps[..|steps| - 1] == before;
  }

  /** The record of `a` is gone, and execution `d` has the job in flight. */
  ghost predicate Gone(steps: seq<Step>, d: nat, local: Local) {
    && Legal(steps) && Exclusive(steps)
    && StateAfter(steps).repo.jobs == map[] && StateAfter(steps).inFlight == map[d := Claim("a", local)]
  }

  /** An operator reads the record and deletes it. */
  lemma Deleted(steps: seq<Step>, stored: JobRecord, d: nat, local: Local) returns (longer: seq<Step>)
    requires At(steps, stored, d, local)
    ensures Gone(longer, d, local)
  {
    var read := Extend(steps, Step.OperatorRead(1, "a"));
    assert StateAfter(read).operators == map[1 := stored];
    hide Legal, StateAfter;
    longer := Extend(read, Step.OperatorDelete(1));
    assert StateAfter(read).repo.jobs - {"a"} == map[];
  }

  lemma BroughtBack(steps: seq<Step>, d: nat, local: Local, record: JobRecord) returns (longer: seq<Step>)
    requires Gone(steps, d, local) && OfA(record) && WorkerProgram.Step(local, Action.Write(record)).Some?
    ensures Legal(longer) && Exclusive(longer) && |longer| == |steps| + 1 && longer[..|steps|] == steps
    ensures StateAfter(longer).repo.jobs == map["a" := record]
  {
    hide WorkerProgram.Step, Legal, StateAfter;
    longer := Extend(steps, Step.Work(d, Action.Write(record)));
    assert map[]["a" := record] == map["a" := record];
  }

  /** A job the operator deleted between the claim and the start comes back RUNNING. */
  lemma DeletedComesBack() returns (steps: seq<Step>)
    ensures Legal(steps) && Exclusive(steps) && |steps| > 0 && Legal(steps[..|steps| - 1])
    ensures var before, after := StateAfter(steps[..|steps| - 1]), StateAfter(steps);
            && "a" !in before.repo.jobs && "a" in after.repo.jobs
            && after.repo.jobs["a"] == RunningRecord(Fresh("a"), 0) && after.repo.jobs["a"].status == Running
  {
    FreshFacts();
    steps := Marked();
    steps := Deleted(steps, ClaimRecord(Fresh("a"), 0), 1, Local.Marked(Fresh("a")));
    hide Fresh, Finished, At, Legal, StateAfter;
    steps := BroughtBack(steps, 1, Local.Marked(Fresh("a")), RunningRecord(Fresh("a"), 0));
  }

  /** A job one operator deleted comes back FAILED from the copy of another operator. */
  lemma OperatorBringsBack() returns (steps: seq<Step>)
    ensures Legal(steps) && Exclusive(steps) && |steps| > 0 && Legal(steps[..|steps| - 1])
    ensures var before, after := StateAfter(steps[..|steps| - 1]), StateAfter(steps);
            "a" !in before.repo.jobs && "a" in after.repo.jobs && after.repo.jobs["a"].status == Failed
  {
    FreshFacts();
    steps := Read();
    hide Fresh;
    steps := Extend(steps, Step.OperatorRead(1, "a"));
    steps := Extend(steps, Step.OperatorRead(2, "a"));
    steps := Extend(steps, Step.OperatorDelete(1));
    var before := steps;
    steps := Extend(steps, Step.OperatorFail(2, "lost"));
    assert steps[..|steps| - 1] == before;
  }

  /** A failed job the operator deleted comes back from the no-op of its redelivery. */
  lemma NoopBringsBack() returns (steps: seq<Step>)
    ensures Legal(steps) && Exclusive(steps) && |steps| > 0 && Legal(steps[..|steps| - 1])
    ensures var before, after := StateAfter(steps[..|steps| - 1]), StateAfter(steps);
            && "a" !in before.repo.jobs && "a" in after.repo.jobs
            && after.repo.jobs["a"] == NoopRecord(FailedRecord(), 0)
  {
    FailedFacts();
    steps := ReadAgain();
    hide FailedRecord, At, Legal, StateAfter;
    steps := Deleted(steps, FailedRecord(), 2, Local.Noop(FailedRecord()));
    steps := BroughtBack(steps, 2, Local.Noop(FailedRecord()), NoopRecord(FailedRecord(), 0));
  }

  // ---- Jobs left behind ----

  /** One failed write of the exception handler leaves a RUNNING job that no execution will ever end. */
  lemma HandlerWriteLeavesStuck() returns (steps: seq<Step>)
    ensures Legal(steps) && Exclusive(steps) && Stuck(StateAfter(steps), "a")
  {
    UpdateFacts(1);
    steps := Probing();
    HandlerFails();
    hide Fresh, UpdateRecord, At, WorkerProgram.Step;
    var running := UpdateRecord(Fresh("a"), 0, 1);
    steps := Act(steps, running, 1, Local.Live(Fresh("a"), 1), Action.Interrupt);
    steps := Act(steps, running, 1, Local.Handling(Fresh("a"), false), Action.WriteRaised);
    steps := Act(steps, running, 1, Local.Aborted, Action.Raise);
    StuckAt(steps, running);
  }

  lemma HandlerFails()
    ensures var live, handling := Local.Live(Fresh("a"), 1), Local.Handling(Fresh("a"), false);
            && WorkerProgram.Step(live, Action.Interrupt) == Some(handling)
            && WorkerProgram.Step(handling, Action.WriteRaised) == Some(Local.Aborted)
            && WorkerProgram.Step(Local.Aborted, Action.Raise) == Some(Local.Raised)
  {
  }

  lemma StuckAt(steps: seq<Step>, running: JobRecord)
    requires At(steps, running, 1, Local.Raised) && running.status == Running
    ensures Legal(steps) && Exclusive(steps) && Stuck(StateAfter(steps), "a")
  {
  }

  /** The asset store raises, then the state service: a QUEUED job has lost its message. */
  lemma DropLosesMessage() returns (steps: seq<Step>)
    ensures Legal(steps) && Exclusive(steps)
    ensures var s := StateAfter(steps);
            "a" in s.repo.jobs && s.repo.jobs["a"].status == Queued && !Located(s, "a")
  {
    FreshFacts();
    steps := Marked();
    hide Fresh, Finished;
    steps := Act(steps, ClaimRecord(Fresh("a"), 0), 1, Local.Marked(Fresh("a")), Action.Raise);
    steps := Extend(steps, Step.Drop(1));
  }

  // ---- Without exclusive delivery ----

  /** Two executions have read the same QUEUED record. */
  lemma DeliveredTwice() returns (steps: seq<Step>)
    ensures Legal(steps) && !Exclusive(steps)
    ensures var s := StateAfter(steps);
            && s.inFlight == map[1 := Claim("a", Local.Claimed(Fresh("a"))), 2 := Claim("a", Local.Claimed(Fresh("a")))]
            && s.submits["a"] == 0
  {
    FreshFacts();
    steps := Read();
    hide Fresh;
    var first := |steps|;
    assert StateAfter(steps).inFlight[1].jobId == "a";
    steps := Extend(steps, Step.Redeliver(2, "a"));
    steps := Extend(steps, Step.Work(2, Action.Get(Some(Fresh("a")))));
    assert steps[first].Redeliver?;
  }

  /** In a run with a double delivery, execution `d` of job `a` acts without submitting. */
  lemma Acted(before: seq<Step>, d: nat, local: Local, action: Action) returns (steps: seq<Step>)
    requires Legal(before) && !Exclusive(before) && !action.Submit? && !action.Get?
    requires d in StateAfter(before).inFlight && StateAfter(before).inFlight[d] == Claim("a", local)
    requires WorkerProgram.Step(local, action).Some?
    ensures Legal(steps) && !Exclusive(steps)
    ensures var s, t := StateAfter(before), StateAfter(steps);
            && t.submits == s.submits
            && t.inFlight == s.inFlight[d := Claim("a", WorkerProgram.Step(local, action).value)]
  {
    hide WorkerProgram.Step, Legal, StateAfter;
    var i :| 0 <= i < |before| && before[i].Redeliver?;
    steps := Extend(before, Step.Work(d, action));
    assert steps[i].Redeliver?;
  }

  lemma MarkedAndStarted(before: seq<Step>, d: nat) returns (steps: seq<Step>)
    requires Legal(before) && !Exclusive(before)
    requires d in StateAfter(before).inFlight && StateAfter(before).inFlight[d] == Claim("a", Local.Claimed(Fresh("a")))
    ensures Legal(steps) && !Exclusive(steps)
    ensures var s, t := StateAfter(before), StateAfter(steps);
            && t.submits == s.submits
            && t.inFlight == s.inFlight[d := Claim("a", Local.Live(Fresh("a"), 0))]
  {
    FreshFacts();
    UpdateFacts(0);
    hide Legal, StateAfter, Fresh, UpdateRecord, Exclusive;
    steps := Acted(before, d, Local.Claimed(Fresh("a")), Action.Write(ClaimRecord(Fresh("a"), 0)));
    steps := Acted(steps, d, Local.Marked(Fresh("a")), Action.Write(UpdateRecord(Fresh("a"), 0, 0)));
  }

  /** The execution stores RUNNING and the stage updates up to the given phase. */
  lemma {:induction false} Updated(before: seq<Step>, d: nat, phase: nat) returns (steps: seq<Step>)
    requires Legal(before) && !Exclusive(before) && phase <= 5
    requires d in StateAfter(before).inFlight && StateAfter(before).inFlight[d] == Claim("a", Local.Claimed(Fresh("a")))
    ensures Legal(steps) && !Exclusive(steps)
    ensures var s, t := StateAfter(before), StateAfter(steps);
            && t.submits == s.submits
            && t.inFlight == s.inFlight[d := Claim("a", Local.Live(Fresh("a"), phase))]
    decreases phase
  {
    FreshFacts();
    UpdateFacts(phase);
    hide Legal, StateAfter, Fresh;
    if phase == 0 {
      steps := MarkedAndStarted(before, d);
    } else {
      steps := Updated(before, d, phase - 1);
      UpdateStep(phase);
      hide UpdateRecord, WorkerProgram.Step;
      steps := Acted(steps, d, Local.Live(Fresh("a"), phase - 1),
          Action.Write(UpdateRecord(Fresh("a"), 0, phase)));
    }
  }

  lemma UpdateStep(phase: nat)
    requires 0 < phase <= 5
    ensures WorkerProgram.Step(Local.Live(Fresh("a"), phase - 1),
            Action.Write(UpdateRecord(Fresh("a"), 0, phase)))
         == Some(Local.Live(Fresh("a"), phase))
  {
    FreshFacts();
    UpdateFacts(phase);
    hide Fresh, UpdateRecord;
  }

  lemma UpdateFacts(phase: nat)
    requires phase <= 5
    ensures OfA(UpdateRecord(Fresh("a"), 0, phase)) && UpdateRecord(Fresh("a"), 0, phase).status == Running
  {
  }

  /** It then submits. */
  lemma RunAndSubmit(before: seq<Step>, d: nat) returns (steps: seq<Step>)
    requires Legal(before) && !Exclusive(before)
    requires d in StateAfter(before).inFlight && StateAfter(before).inFlight[d] == Claim("a", Local.Claimed(Fresh("a")))
    ensures Legal(steps) && !Exclusive(steps)
    ensures var s, t := StateAfter(before), StateAfter(steps);
            && t.submits == s.submits + multiset{"a"}
            && t.inFlight == s.inFlight[d := Claim("a", Local.Live(Fresh("a"), WorkerProgram.SUBMITTED))]
  {
    hide Legal, StateAfter, Fresh;
    steps := Updated(before, d, 5);
    var i :| 0 <= i < |steps| && steps[i].Redeliver?;
    var updated := steps;
    steps := Extend(steps, Step.Work(d, Action.Submit(WorkerProgram.Accepted)));
    assert steps[i] == updated[i];
  }

  /** Exclusive delivery is needed: a second delivery of a message in flight submits the job twice. */
  lemma RedeliveryCanSubmitTwice() returns (steps: seq<Step>)
    ensures Legal(steps) && !Exclusive(steps)
    ensures StateAfter(steps).submits["a"] == 2
  {
    hide Legal, StateAfter, Fresh;
    steps := DeliveredTwice();
    steps := RunAndSubmit(steps, 1);
    steps := RunAndSubmit(steps, 2);
  }

  // ---- Two fresh live jobs of a key ----

  /** After the no-op of the redelivered job `a`, requested anew as `b` meanwhile, the index points back at `a`. */
  lemma IndexPointsBack() returns (steps: seq<Step>)
    ensures Legal(steps) && Exclusive(steps)
    ensures var s := StateAfter(steps);
            && s.repo.jobs == map["a" := NoopRecord(FailedRecord(), 0), "b" := Fresh("b")]
            && "key" in s.repo.index && s.repo.index["key"] == "a"
            && s.created == map["a" := "key", "b" := "key"] && s.now == 0
  {
    FailedFacts();
    OtherFacts("b");
    steps := RequestedAnew();
    hide FailedRecord, Fresh, NewJob, Legal, StateAfter;
    steps := Extend(steps, Step.Work(2, Action.Write(NoopRecord(FailedRecord(), 0))));
  }

  /** Job `b` is requested while `a` is stored FAILED, and the redelivery of `a` has read it. */
  lemma RequestedAnew() returns (steps: seq<Step>)
    ensures Legal(steps) && Exclusive(steps)
    ensures var s := StateAfter(steps);
            && s.repo.jobs == map["a" := FailedRecord(), "b" := Fresh("b")]
            && s.inFlight == map[2 := Claim("a", Local.Noop(FailedRecord()))]
            && s.created == map["a" := "key", "b" := "key"] && s.now == 0
  {
    FailedFacts();
    OtherFacts("b");
    steps := ReadAgain();
    assert FindAnswer(StateAfter(steps).repo, "key", Some(FailedRecord()), false);
    hide FailedRecord, Fresh, NewJob, FindAnswer, Legal, StateAfter;
    steps := Extend(steps, Step.Create("b", REQUEST, "key", Some(FailedRecord()), ZERO));
  }

  lemma OtherFacts(id: string)
    ensures Fresh(id).jobId == id && Fresh(id).cacheKey == Some("key") && Fresh(id).status == Queued
            && Fresh(id).updatedAt == 0
    ensures forall failed: JobRecord | failed.status == Failed ::
                NewJob(id, REQUEST, "key", Some(failed), ZERO) == Fresh(id)
  {
  }

  /**
   The hypothesis on writes is needed: after that no-op the next request makes a second
   live, fresh job of the key.
   */
  lemma RedeliveryDefeatsDedup() returns (steps: seq<Step>)
    ensures Legal(steps) && Exclusive(steps)
    ensures var s := StateAfter(steps);
            && "b" in s.repo.jobs && FreshLive(s.repo.jobs["b"], s.now)
            && "c" in s.repo.jobs && FreshLive(s.repo.jobs["c"], s.now)
            && s.repo.jobs["b"].cacheKey == s.repo.jobs["c"].cacheKey
  {
    FailedFacts();
    OtherFacts("b");
    OtherFacts("c");
    steps := IndexPointsBack();
    hide FailedRecord, Fresh, NewJob;
    steps := Extend(steps, Step.Create("c", REQUEST, "key", Some(NoopRecord(FailedRecord(), 0)), ZERO));
  }

  const LATER: int := 301 * 1_000_000

  /**
   A queue backed up for more than five minutes is enough: the request that finds job `a`
   stale makes job `b`, then `a` is delivered and starts, and both are live and fresh.
   */
  lemma BackedUpQueueDefeatsDedup() returns (steps: seq<Step>)
    ensures Legal(steps) && Exclusive(steps)
    ensures var s := StateAfter(steps);
            && "a" in s.repo.jobs && FreshLive(s.repo.jobs["a"], s.now)
            && "b" in s.repo.jobs && FreshLive(s.repo.jobs["b"], s.now)
            && s.repo.jobs["a"].cacheKey == s.repo.jobs["b"].cacheKey
  {
    FreshFacts();
    SecondFacts();
    LaterFacts();
    steps := ClaimedLate();
    hide Fresh, Second, RunningRecord, Legal;
    steps := Extend(steps, Step.Work(1, Action.Write(RunningRecord(Fresh("a"), LATER))));
    hide StateAfter;
  }

  lemma ClaimedLate() returns (steps: seq<Step>)
    ensures Legal(steps) && Exclusive(steps)
    ensures var s := StateAfter(steps);
            && "b" in s.repo.jobs && s.repo.jobs["b"] == Second()
            && s.inFlight == map[1 := Claim("a", Local.Marked(Fresh("a")))] && s.now == LATER
  {
    FreshFacts();
    LaterFacts();
    steps := ReadLate();
    hide Fresh, Second, ClaimRecord, RunningRecord, Legal;
    steps := Extend(steps, Step.Work(1, Action.Write(ClaimRecord(Fresh("a"), LATER))));
    hide StateAfter;
  }

  lemma ReadLate() returns (steps: seq<Step>)
    ensures Legal(steps) && Exclusive(steps)
    ensures var s := StateAfter(steps);
            && "b" in s.repo.jobs && s.repo.jobs["b"] == Second()
            && s.inFlight == map[1 := Claim("a", Local.Claimed(Fresh("a")))] && s.now == LATER
  {
    FreshFacts();
    steps := Requested();
    hide Fresh, Second, Legal;
    steps := Extend(steps, Step.Work(1, Action.Get(Some(Fresh("a")))));
    hide StateAfter;
  }

  lemma LaterFacts()
    ensures OfA(ClaimRecord(Fresh("a"), LATER)) && ClaimRecord(Fresh("a"), LATER).status == Queued
    ensures OfA(RunningRecord(Fresh("a"), LATER)) && FreshLive(RunningRecord(Fresh("a"), LATER), LATER)
    ensures RunningRecord(Fresh("a"), LATER).status == Running
  {
  }

  /** The message of job `a` waits while it becomes stale. */
  lemma Waited() returns (steps: seq<Step>)
    ensures Legal(steps) && Exclusive(steps)
    ensures var s := StateAfter(steps);
            && s.repo == Repo(map["a" := Fresh("a")], map["key" := "a"]) && s.created == map["a" := "key"]
            && s.pending == {"a"} && s.inFlight == map[] && s.now == LATER
  {
    hide Fresh;
    steps := MadePending();
    hide Legal, StateAfter;
    steps := Extend(steps, Step.Tick(LATER));
  }

  /** Job `b` as requested when `a` is found stale. */
  ghost function Second(): JobRecord {
    NewJob("b", REQUEST, "key", Some(Fresh("a")), Times(LATER, LATER, LATER, LATER, LATER))
  }

  lemma SecondFacts()
    ensures Second().jobId == "b" && Second().cacheKey == Some("key") && Second().status == Queued
            && Second().updatedAt == LATER
    ensures !Reusable(Some(Fresh("a")), LATER)
  {
  }

  /** Job `b` is requested; then `a` is delivered. */
  lemma Requested() returns (steps: seq<Step>)
    ensures Legal(steps) && Exclusive(steps)
    ensures var s := StateAfter(steps);
            && s.repo.jobs == map["a" := Fresh("a"), "b" := Second()]
            && s.inFlight == map[1 := Claim("a", Local.Start)] && s.now == LATER
  {
    FreshFacts();
    SecondFacts();
    steps := Waited();
    assert FindAnswer(StateAfter(steps).repo, "key", Some(Fresh("a")), false);
    hide Fresh, Reusable, FindAnswer;
    var times := Times(LATER, LATER, LATER, LATER, LATER);
    steps := Extend(steps, Step.Create("b", REQUEST, "key", Some(Fresh("a")), times));
    assert StateAfter(steps).repo.jobs == map["a" := Fresh("a"), "b" := Second()];
    hide Second, NewJob, Put;
    steps := Extend(steps, Step.Receive(1, "a"));
  }

  // ---- Misleading reports ----

  /** The record after a first delivery that found no asset and a second one that got past the submission. */
  ghost function PastSubmission(): JobRecord {
    Did(UpdateRecord(MissingRecord(Fresh("a"), 0), 0, 4), "ml_submit", StageSucceeded, 0, None)
  }

  ghost function Entry(name: string, status: StageStatus, error: Option<string>): Stage {
    Stage(name, status, 0, Some(0), error)
  }

  lemma DidAppends(job: JobRecord, name: string, status: StageStatus, error: Option<string>)
    ensures Did(job, name, status, 0, error) == job.(trace := job.trace + [Entry(name, status, error)])
  {
    FinishedOpened(job.trace, name, 0, status, 0, error);
  }

  ghost function LaterStages(): seq<Stage> {
    [Entry("worker_claimed", StageSucceeded, None), Entry("asset_ref_loaded", StageSucceeded, None),
     Entry("ml_probe", StageSucceeded, None), Entry("asset_bytes_loaded", StageSucceeded, None),
     Entry("ml_submit", StageSucceeded, None)]
  }

  lemma StagesPastSubmission()
    ensures PastSubmission().trace == MissingRecord(Fresh("a"), 0).trace + LaterStages()
  {
    var missing := MissingRecord(Fresh("a"), 0);
    var claimed := ClaimRecord(missing, 0);
    DidAppends(missing, "worker_claimed", StageSucceeded, None);
    DidAppends(claimed, "asset_ref_loaded", StageSucceeded, None);
    DidAppends(UpdateRecord(missing, 0, 0), "ml_probe", StageSucceeded, None);
    DidAppends(UpdateRecord(missing, 0, 2), "asset_bytes_loaded", StageSucceeded, None);
    DidAppends(UpdateRecord(missing, 0, 4), "ml_submit", StageSucceeded, None);
    hide Did, MissingRecord, Entry;
    assert PastSubmission() == Did(UpdateRecord(missing, 0, 4), "ml_submit", StageSucceeded, 0, None);
  }

  lemma StagesWhenMissing()
    ensures var trace := MissingRecord(Fresh("a"), 0).trace;
            && Closed(trace) && |trace| == 5
            && trace[4] == Entry("asset_ref_loaded", StageFailed, Some("missing"))
  {
    var created := Fresh("a");
    NewJobIsClosed("a", REQUEST, "key", None, ZERO);
    assert |created.trace| == 3;
    hide Fresh, NewJob;
    DidAppends(created, "worker_claimed", StageSucceeded, None);
    DidAppends(ClaimRecord(created, 0), "asset_ref_loaded", StageFailed, Some("missing"));
    hide Did;
  }

  /**
   The observer then raises while no stage is running, so the failure is reported with a
   stage that failed in the first delivery and succeeded in the second.
   */
  lemma StaleReport()
    ensures LastOpen(PastSubmission().trace, None) == None
    ensures LastFailedName(Interrupted(PastSubmission().trace, 0, "observer")) == Some("asset_ref_loaded")
    ensures PastSubmission().trace == MissingRecord(Fresh("a"), 0).trace + LaterStages()
    ensures Entry("asset_ref_loaded", StageSucceeded, None) in LaterStages()
  {
    StagesPastSubmission();
    StagesWhenMissing();
    hide PastSubmission, MissingRecord, Fresh;
    var trace := PastSubmission().trace;
    assert Closed(trace);
    LastOpenIsLast(trace, None);
    LastFailedIsLast(trace);
    assert trace[4].status == StageFailed;
    assert LaterStages()[1] == Entry("asset_ref_loaded", StageSucceeded, None);
    hide LastOpen, LastFailedName;
  }
}
