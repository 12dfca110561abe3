/**
 Request-level deduplication over whole runs of the protocol: when no job is written
 after a later job with its key was created, a key never has two live, fresh jobs.
 */
module Dedup {
  import opened Base
  import opened Contracts
  import opened JobStore
  import opened CreateJob
  import opened ManageJob
  import opened Delivery
  import opened DeliverySafety
  import WorkerProgram

  /** The record is one of the job created last for its key. */
  ghost predicate OfLatest(s: State, job: JobRecord) {
    job.cacheKey.Some? && job.cacheKey.value in s.latest && s.latest[job.cacheKey.value] == job.jobId
  }

  /** The step writes no record of a job whose key got a later job. */
  ghost predicate Timely(s: State, step: Step)
    requires Enabled(s, step)
  {
    match step
    case Work(_, Write(record)) => OfLatest(s, record)
    case OperatorFail(o, _) => OfLatest(s, s.operators[o])
    case _ => true
  }

  ghost predicate NoLateWrite(steps: seq<Step>)
    requires Legal(steps)
  {
    steps == [] ||
    (NoLateWrite(steps[..|steps| - 1]) && Timely(StateAfter(steps[..|steps| - 1]), steps[|steps| - 1]))
  }

  // ---- Genuine copies, on every run ----

  function CopyOf(local: Local): Option<JobRecord> {
    match local
    case Noop(copy) => Some(copy)
    case Skipped(copy) => Some(copy)
    case Claimed(copy) => Some(copy)
    case Marked(copy) => Some(copy)
    case Live(copy, _) => Some(copy)
    case Handling(copy, _) => Some(copy)
    case Settled(copy, _, _) => Some(copy)
    case _ => None
  }

  ghost predicate Copies(s: State) {
    forall d | d in s.inFlight && CopyOf(s.inFlight[d].local).Some? ::
      Genuine(s, s.inFlight[d].jobId, CopyOf(s.inFlight[d].local).value)
  }

  lemma GenuineWrite(s: State, d: nat, action: Action)
    requires Copies(s) && Enabled(s, Step.Work(d, action))
    ensures action.Write? ==> Genuine(s, s.inFlight[d].jobId, action.record)
  {
    if action.Write? {
      assert CopyOf(s.inFlight[d].local).Some?;
    }
  }

  lemma CreateKeepsGenuine(s: State, step: Step)
    requires Records(s) && Copies(s) && Enabled(s, step) && step.Create?
    ensures Records(Next(s, step)) && Copies(Next(s, step))
  {
    hide FindAnswer;
  }

  lemma WorkKeepsGenuine(s: State, d: nat, action: Action)
    requires Records(s) && Copies(s) && Enabled(s, Step.Work(d, action))
    ensures Records(Worked(s, d, action)) && Copies(Worked(s, d, action))
  {
    GenuineWrite(s, d, action);
    var t, claim := Worked(s, d, action), s.inFlight[d];
    assert t.inFlight == s.inFlight[d := t.inFlight[d]] && t.created == s.created;
    CopyMoves(claim.local, action);
    if action.Get? && action.found.Some? {
      assert Genuine(s, claim.jobId, action.found.value);
    }
  }

  /** An execution's copy is the record it read. */
  lemma CopyMoves(local: Local, action: Action)
    requires WorkerProgram.Step(local, action).Some?
    ensures var after := CopyOf(WorkerProgram.Step(local, action).value);
            after.Some? ==> after == CopyOf(local) || (action.Get? && action.found == after)
  {
  }

  lemma StepKeepsGenuine(s: State, step: Step)
    requires Records(s) && Copies(s) && Enabled(s, step)
    ensures Records(Next(s, step)) && Copies(Next(s, step))
  {
    match step {
      case Create(_, _, _, _, _) => CreateKeepsGenuine(s, step);
      case Work(d, action) => WorkKeepsGenuine(s, d, action);
      case _ => OtherKeepsGenuine(s, step);
    }
  }

  lemma OtherKeepsGenuine(s: State, step: Step)
    requires Records(s) && Copies(s) && Enabled(s, step) && !step.Create? && !step.Work?
    ensures Records(Next(s, step)) && Copies(Next(s, step))
  {
    OtherKeepsRecords(s, step);
    OthersOnlyStart(s, step);
    hide Records, Next, Enabled;
  }

  lemma OtherKeepsRecords(s: State, step: Step)
    requires Records(s) && Enabled(s, step) && !step.Create? && !step.Work?
    ensures Records(Next(s, step)) && Next(s, step).created == s.created
  {
    hide WorkerProgram.Step;
  }

  // ---- The invariant ----

  lemma {:induction false} RunKeepsGenuine(steps: seq<Step>)
    requires Legal(steps)
    ensures Records(StateAfter(steps)) && Copies(StateAfter(steps))
    decreases |steps|
  {
    if steps != [] {
      var n := |steps| - 1;
      RunKeepsGenuine(steps[..n]);
      hide Records, Copies, Enabled, Next;
      StepKeepsGenuine(StateAfter(steps[..n]), steps[n]);
    }
  }

  ghost predicate LatestFits(s: State) {
    && (forall key | key in s.latest :: s.latest[key] in s.created && s.created[s.latest[key]] == key)
    && (forall id | id in s.created :: s.created[id] in s.latest)
  }

  /** A stored job that is not the latest of its key is not live and fresh. */
  ghost predicate OldOnesDone(s: State) {
    forall id | id in s.repo.jobs && id in s.created && s.created[id] in s.latest && s.latest[s.created[id]] != id ::
      !FreshLive(s.repo.jobs[id], s.now)
  }

  /** While the latest job of a key is stored, the index points at it. */
  ghost predicate IndexIsLatest(s: State) {
    forall key | key in s.latest && s.latest[key] in s.repo.jobs ::
        key in s.repo.index && s.repo.index[key] == s.latest[key]
  }

  ghost predicate DedupInv(s: State) {
    Records(s) && Copies(s) && LatestFits(s) && OldOnesDone(s) && IndexIsLatest(s)
  }

  /** The lookup of a creator finds the latest job of the key while it is stored. */
  lemma LookupFindsLatest(s: State, key: string, cached: Option<JobRecord>)
    requires DedupInv(s) && FindAnswer(s.repo, key, cached, false)
    requires key in s.latest && s.latest[key] in s.repo.jobs
    ensures cached == Some(s.repo.jobs[s.latest[key]])
  {
    assert Genuine(s, s.latest[key], s.repo.jobs[s.latest[key]]);
  }

  lemma CreateKeepsDedup(s: State, step: Step)
    requires DedupInv(s) && Enabled(s, step) && step.Create?
    ensures DedupInv(Next(s, step))
  {
    StepKeepsGenuine(s, step);
    if !Reusable(step.cached, s.now) {
      var t := Next(s, step);
      if step.key in s.latest && s.latest[step.key] in s.repo.jobs {
        LookupFindsLatest(s, step.key, step.cached);
      }
      assert step.jobId !in s.repo.jobs by { assert Records(s); }
      hide FindAnswer, Copies, Records;
      NewLatestFits(s, step);
    }
  }

  lemma NewLatestFits(s: State, step: Step)
    requires LatestFits(s) && OldOnesDone(s) && IndexIsLatest(s)
    requires Enabled(s, step) && step.Create? && !Reusable(step.cached, s.now) && step.jobId !in s.repo.jobs
    requires step.key in s.latest && s.latest[step.key] in s.repo.jobs ==>
                 step.cached == Some(s.repo.jobs[s.latest[step.key]])
    ensures LatestFits(Next(s, step)) && OldOnesDone(Next(s, step)) && IndexIsLatest(Next(s, step))
  {
    hide FindAnswer;
  }

  lemma WriteKeepsDedup(s: State, t: State, job: JobRecord)
    requires DedupInv(s) && OfLatest(s, job) && Genuine(s, job.jobId, job)
    requires t.repo == Put(s.repo, job) && t.created == s.created && t.latest == s.latest && t.now == s.now
    ensures LatestFits(t) && OldOnesDone(t) && IndexIsLatest(t)
  {
    assert job.cacheKey.value != "" by { assert Records(s); }
    hide Records, Copies;
  }

  lemma DeleteKeepsDedup(s: State, t: State, job: JobRecord)
    requires DedupInv(s) && Genuine(s, job.jobId, job)
    requires t.repo == Remove(s.repo, job) && t.created == s.created && t.latest == s.latest && t.now == s.now
    ensures LatestFits(t) && OldOnesDone(t) && IndexIsLatest(t)
  {
    hide Records, Copies;
  }

  lemma StepKeepsDedup(s: State, step: Step)
    requires DedupInv(s) && Enabled(s, step) && Timely(s, step)
    ensures DedupInv(Next(s, step))
  {
    StepKeepsGenuine(s, step);
    var t := Next(s, step);
    match step {
      case Create(_, _, _, _, _) => CreateKeepsDedup(s, step);
      case Work(d, action) =>
        GenuineWrite(s, d, action);
        if action.Write? {
          WriteKeepsDedup(s, t, action.record);
        } else {
          UntouchedKeepsDedup(s, t);
        }
      case OperatorFail(o, reason) =>
        assert Genuine(s, s.operators[o].jobId, s.operators[o]);
        WriteKeepsDedup(s, t, MarkedFailed(s.operators[o], s.now, reason));
      case OperatorDelete(o) =>
        assert Genuine(s, s.operators[o].jobId, s.operators[o]);
        DeleteKeepsDedup(s, t, s.operators[o]);
      case _ => UntouchedKeepsDedup(s, t);
    }
  }

  lemma UntouchedKeepsDedup(s: State, t: State)
    requires DedupInv(s)
    requires t.repo == s.repo && t.created == s.created && t.latest == s.latest && s.now <= t.now
    ensures LatestFits(t) && OldOnesDone(t) && IndexIsLatest(t)
  {
    hide Records, Copies;
  }

  lemma {:induction false} RunKeepsDedup(steps: seq<Step>)
    requires Legal(steps) && NoLateWrite(steps)
    ensures DedupInv(StateAfter(steps))
    decreases |steps|
  {
    if steps != [] {
      var n := |steps| - 1;
      RunKeepsDedup(steps[..n]);
      hide DedupInv, Enabled, Next, Timely;
      StepKeepsDedup(StateAfter(steps[..n]), steps[n]);
    }
  }

  /** At every moment of such a run each key has at most one live job that is not stale. */
  lemma OneFreshLiveJobPerKey(steps: seq<Step>, a: string, b: string)
    requires Legal(steps) && NoLateWrite(steps)
    requires var s := StateAfter(steps);
             && a in s.repo.jobs && FreshLive(s.repo.jobs[a], s.now)
             && b in s.repo.jobs && FreshLive(s.repo.jobs[b], s.now)
             && s.repo.jobs[a].cacheKey == s.repo.jobs[b].cacheKey
    ensures a == b
  {
    RunKeepsDedup(steps);
    var s := StateAfter(steps);
    assert Genuine(s, a, s.repo.jobs[a]) && Genuine(s, b, s.repo.jobs[b]);
  }

  ghost predicate HasFreshLive(s: State, key: string) {
    exists id :: id in s.repo.jobs && s.repo.jobs[id].cacheKey == Some(key) && FreshLive(s.repo.jobs[id], s.now)
  }

  /** A job publishes at most one message in a whole run. */
  lemma {:induction false} PublishedOnce(steps: seq<Step>, i: nat, j: nat)
    requires Legal(steps) && i < j < |steps|
    requires steps[i].Publish? && steps[j].Publish?
    ensures steps[i].jobId != steps[j].jobId
  {
    LegalPrefix(steps, j);
    LegalPrefix(steps, i + 1);
    LegalPrefix(steps, j + 1);
    assert steps[..j + 1][..j] == steps[..j];
    assert steps[..i + 1][..i] == steps[..i];
    assert steps[..j][..i + 1] == steps[..i + 1];
    RunKeepsUnpublished(steps[..i]);
    PublishedStays(steps[..j], i + 1, steps[i].jobId);
  }

  /** Only creation makes a job unpublished, and only a new one. */
  lemma UnpublishedStep(s: State, step: Step)
    requires Enabled(s, step)
    ensures var t := Next(s, step);
            && s.created.Keys <= t.created.Keys
            && (forall id | id in t.unpublished :: id in s.unpublished || (id in t.created && id !in s.created))
  {
    hide FindAnswer;
  }

  lemma {:induction false} RunKeepsUnpublished(steps: seq<Step>)
    requires Legal(steps)
    ensures StateAfter(steps).unpublished <= StateAfter(steps).created.Keys
    decreases |steps|
  {
    if steps != [] {
      var n := |steps| - 1;
      RunKeepsUnpublished(steps[..n]);
      hide Enabled, Next;
      UnpublishedStep(StateAfter(steps[..n]), steps[n]);
    }
  }

  lemma {:induction false} PublishedStays(steps: seq<Step>, n: nat, jobId: string)
    requires Legal(steps) && n <= |steps| && Legal(steps[..n])
    requires jobId in StateAfter(steps[..n]).created && jobId !in StateAfter(steps[..n]).unpublished
    ensures jobId in StateAfter(steps).created && jobId !in StateAfter(steps).unpublished
    decreases |steps|
  {
    hide Legal, StateAfter, Enabled, Next;
    if n < |steps| {
      var m := |steps| - 1;
      Unroll(steps);
      assert steps[..m][..n] == steps[..n];
      PublishedStays(steps[..m], n, jobId);
      UnpublishedStep(StateAfter(steps[..m]), steps[m]);
    } else {
      assert steps[..n] == steps;
    }
  }
}
