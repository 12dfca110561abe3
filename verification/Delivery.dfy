/**
 The delivery protocol as a state machine: creators, a queue, worker executions that hold
 a private copy of a record between their store operations, and operators that read a
 record and later write it back failed or delete it. One step is one store, queue or
 pipeline operation, so any step may fall between any two of another participant.
 */
module Delivery {
  import opened Base
  import opened Domain
  import opened Contracts
  import opened JobStore
  import opened CreateJob
  import opened ManageJob
  import WorkerProgram

  type Action = WorkerProgram.Action
  type Local = WorkerProgram.Local

  /** A message held by an execution, and how far the execution is. */
  datatype Claim = Claim(jobId: string, local: Local)

  datatype State = State(
    repo: Repo,
    created: map<string, string>,     // every job ever created, with its cache key
    unpublished: set<string>,         // stored, message not published yet
    pending: set<string>,
    inFlight: map<nat, Claim>,
    acked: set<string>,
    dropped: set<string>,             // taken out of flight and never settled
    operators: map<nat, JobRecord>,   // the private copies of operators
    now: int,
    started: set<string>,             // jobs whose record was ever stored RUNNING
    submits: multiset<string>,        // submissions to the pipeline
    received: multiset<string>,       // deliveries handed out
    latest: map<string, string>       // the job created last for each cache key
  )

  const INITIAL: State :=
    State(Repo(map[], map[]), map[], {}, {}, map[], {}, {}, map[], 0, {}, multiset{}, multiset{}, map[])

  datatype Step =
    | Tick(now: int)
    | Create(jobId: string, request: RenderRequest, key: string, cached: Option<JobRecord>, times: Times)
    | Publish(jobId: string)
    | Receive(d: nat, jobId: string)
    | Work(d: nat, action: Action)
    | Ack(d: nat)
    | Nack(d: nat)
    | Drop(d: nat)  // the state service raises before the delivery is put back
    | OperatorRead(o: nat, jobId: string)
    | OperatorFail(o: nat, reason: string)
    | OperatorDelete(o: nat)
    | Redeliver(d: nat, jobId: string)  // a second delivery of a message that is in flight

  function Lookup(repo: Repo, jobId: string): Option<JobRecord> {
    if jobId in repo.jobs then Some(repo.jobs[jobId]) else None
  }

  ghost predicate IsInFlight(s: State, jobId: string) {
    exists d :: d in s.inFlight && s.inFlight[d].jobId == jobId
  }

  ghost predicate Enabled(s: State, step: Step) {
    match step
    case Tick(now) => s.now <= now
    case Create(jobId, _, key, cached, _) =>
      jobId != "" && key != "" && jobId !in s.created && FindAnswer(s.repo, key, cached, false)
    case Publish(jobId) => jobId in s.unpublished
    case Receive(d, jobId) => d !in s.inFlight && jobId in s.pending
    case Work(d, action) =>
      d in s.inFlight && WorkerProgram.Step(s.inFlight[d].local, action).Some? &&
      (action.Get? ==> action.found == Lookup(s.repo, s.inFlight[d].jobId))
    case Ack(d) => d in s.inFlight && s.inFlight[d].local == Local.Returned
    case Nack(d) => d in s.inFlight && s.inFlight[d].local == Local.Raised
    case Drop(d) => d in s.inFlight && s.inFlight[d].local == Local.Raised
    case OperatorRead(o, jobId) => o !in s.operators && jobId in s.repo.jobs
    case OperatorFail(o, _) => o in s.operators
    case OperatorDelete(o) => o in s.operators
    case Redeliver(d, jobId) => d !in s.inFlight && IsInFlight(s, jobId)
  }

  /** The state after an enabled step. */
  function Next(s: State, step: Step): State
    requires Enabled(s, step)
  {
    match step
    case Tick(now) => s.(now := now)
    case Create(jobId, request, key, cached, times) =>
      if Reusable(cached, s.now) then s else
      s.(repo := Put(s.repo, NewJob(jobId, request, key, cached, times)),
         created := s.created[jobId := key],
         unpublished := s.unpublished + {jobId},
         latest := s.latest[key := jobId])
    case Publish(jobId) => s.(unpublished := s.unpublished - {jobId}, pending := s.pending + {jobId})
    case Receive(d, jobId) =>
      s.(pending := s.pending - {jobId},
         inFlight := s.inFlight[d := Claim(jobId, Local.Start)],
         received := s.received + multiset{jobId})
    case Work(d, action) => Worked(s, d, action)
    case Ack(d) => s.(inFlight := s.inFlight - {d}, acked := s.acked + {s.inFlight[d].jobId})
    case Nack(d) => s.(inFlight := s.inFlight - {d}, pending := s.pending + {s.inFlight[d].jobId})
    case Drop(d) => s.(inFlight := s.inFlight - {d}, dropped := s.dropped + {s.inFlight[d].jobId})
    case OperatorRead(o, jobId) => s.(operators := s.operators[o := s.repo.jobs[jobId]])
    case OperatorFail(o, reason) =>
      s.(repo := Put(s.repo, MarkedFailed(s.operators[o], s.now, reason)), operators := s.operators - {o})
    case OperatorDelete(o) => s.(repo := Remove(s.repo, s.operators[o]), operators := s.operators - {o})
    case Redeliver(d, jobId) =>
      s.(inFlight := s.inFlight[d := Claim(jobId, Local.Start)], received := s.received + multiset{jobId})
  }

  /** One visible action of an execution: its own state, and the store or the pipeline. */
  function Worked(s: State, d: nat, action: Action): State
    requires d in s.inFlight && WorkerProgram.Step(s.inFlight[d].local, action).Some?
  {
    var claim := s.inFlight[d];
    var moved := s.(inFlight := s.inFlight[d := claim.(local := WorkerProgram.Step(claim.local, action).value)]);
    match action
    case Write(record) =>
      moved.(repo := Put(s.repo, record),
             started := if record.status == Running then s.started + {record.jobId} else s.started)
    case Submit(_) => moved.(submits := s.submits + multiset{claim.jobId})
    case _ => moved
  }

  lemma WorkIsWorked(s: State, d: nat, action: Action)
    requires Enabled(s, Step.Work(d, action))
    ensures d in s.inFlight && WorkerProgram.Step(s.inFlight[d].local, action).Some?
    ensures action.Get? ==> action.found == Lookup(s.repo, s.inFlight[d].jobId)
    ensures Next(s, Step.Work(d, action)) == Worked(s, d, action)
  {
    hide WorkerProgram.Step, Worked;
  }

  /** No step but an execution's own moves it; a new one is at its start. */
  lemma OthersOnlyStart(s: State, step: Step)
    requires Enabled(s, step) && !step.Work?
    ensures forall d | d in Next(s, step).inFlight :: (
                || (d in s.inFlight && Next(s, step).inFlight[d] == s.inFlight[d])
                || Next(s, step).inFlight[d].local == Local.Start)
    ensures step.Ack? ==> step.d in s.inFlight && s.inFlight[step.d].local == Local.Returned
  {
    hide FindAnswer, WorkerProgram.Step;
  }

  // ---- Runs ----

  /** Every step of the run was possible when it was taken. */
  ghost predicate Legal(steps: seq<Step>)
    decreases |steps|, 0
  {
    steps == [] ||
    (Legal(steps[..|steps| - 1]) && Enabled(StateAfter(steps[..|steps| - 1]), steps[|steps| - 1]))
  }

  ghost function StateAfter(steps: seq<Step>): State
    requires Legal(steps)
    decreases |steps|, 1
  {
    if steps == [] then INITIAL
    else Next(StateAfter(steps[..|steps| - 1]), steps[|steps| - 1])
  }

  lemma Extend(steps: seq<Step>, step: Step) returns (longer: seq<Step>)
    requires Legal(steps) && Enabled(StateAfter(steps), step)
    ensures longer == steps + [step] && Legal(longer)
    ensures StateAfter(longer) == Next(StateAfter(steps), step)
  {
    longer := steps + [step];
    assert longer[..|steps|] == steps;
  }

  lemma Unroll(steps: seq<Step>)
    requires Legal(steps) && steps != []
    ensures var before := steps[..|steps| - 1];
            Legal(before) && Enabled(StateAfter(before), steps[|steps| - 1])
            && StateAfter(steps) == Next(StateAfter(before), steps[|steps| - 1])
  {
    hide Enabled, Next;
  }

  /** A run and its continuation, one step shorter. */
  lemma UnrollMore(steps: seq<Step>, more: seq<Step>)
    requires Legal(steps + more) && more != []
    ensures var before := more[..|more| - 1];
            Legal(steps + before) && Enabled(StateAfter(steps + before), more[|more| - 1])
            && StateAfter(steps + more) == Next(StateAfter(steps + before), more[|more| - 1])
  {
    var n := |more| - 1;
    assert (steps + more)[..|steps + more| - 1] == steps + more[..n];
    assert (steps + more)[|steps + more| - 1] == more[n];
    hide Enabled, Next;
    Unroll(steps + more);
  }

  lemma LegalPrefix(steps: seq<Step>, n: nat)
    requires Legal(steps) && n <= |steps|
    ensures Legal(steps[..n])
    decreases |steps|
  {
    if n < |steps| {
      LegalPrefix(steps[..|steps| - 1], n);
      assert steps[..|steps| - 1][..n] == steps[..n];
    } else {
      assert steps[..n] == steps;
    }
  }

  /** No message is ever delivered while an earlier delivery of it is open. */
  ghost predicate Exclusive(steps: seq<Step>) {
    forall i | 0 <= i < |steps| :: !steps[i].Redeliver?
  }
}
