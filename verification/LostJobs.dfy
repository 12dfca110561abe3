/**
 `_find_lost_jobs` of the system diagnostics: live jobs that nobody has updated for a
 while and that the worker does not list.
 */
module LostJobs {
  import opened Base
  import opened Domain
  import opened Contracts
  import opened Sorting
  import opened InFlight
  import opened WorkerState
  import CreateJob

  const WORKER_STALE_THRESHOLD_SEC := 300

  datatype Evidence = StillLive(status: JobStatus) | UpdatedAgo(ageSec: int) | NotListed | WorkerIdle | QueueEmpty

  datatype LostJob = LostJob(job: JobRecord, ageSec: int, evidence: seq<Evidence>)

  datatype QueueCounts = QueueCounts(queued: nat, inFlight: nat)

  /** Python's `int(...)` of a span of microseconds in seconds: it truncates toward zero. */
  function WholeSeconds(span: int): int {
    if span >= 0 then span / 1_000_000 else -(-span / 1_000_000)
  }

  function CurrentIds(state: RuntimeState): set<string> {
    (if Truthy(state.currentJobId) then {state.currentJobId.value} else {})
    + set item | item in state.inFlight :: item.jobId
  }

  function EvidenceOf(job: JobRecord, state: RuntimeState, queue: QueueCounts, now: int): seq<Evidence> {
    [StillLive(job.status), UpdatedAgo(WholeSeconds(now - job.updatedAt))]
    + (if job.jobId !in CurrentIds(state) then [NotListed] else [])
    + (if state.status == "idle" then [WorkerIdle] else [])
    + (if queue.queued == 0 && queue.inFlight == 0 then [QueueEmpty] else [])
  }

  predicate Diagnosable(job: JobRecord, state: RuntimeState, now: int) {
    && job.status.IsLive()
    && WholeSeconds(now - job.updatedAt) > WORKER_STALE_THRESHOLD_SEC
    && !(job.jobId in CurrentIds(state) && state.status != "idle")
  }

  /** The diagnoses in scan order. */
  function Diagnosed(jobs: seq<JobRecord>, state: RuntimeState, queue: QueueCounts, now: int): seq<LostJob> {
    if jobs == [] then []
    else
      var job := jobs[|jobs| - 1];
      Diagnosed(jobs[..|jobs| - 1], state, queue, now)
      + if Diagnosable(job, state, now)
        then [LostJob(job, WholeSeconds(now - job.updatedAt), EvidenceOf(job, state, queue, now))] else []
  }

  function LostJobsOf(jobs: seq<JobRecord>, state: RuntimeState, queue: QueueCounts, now: int): seq<LostJob> {
    SortDescending(Diagnosed(jobs, state, queue, now), (item: LostJob) => item.ageSec)
  }

  method FindLostJobs(jobs: seq<JobRecord>, state: RuntimeState, queue: QueueCounts, now: int)
    returns (lost: seq<LostJob>)
    ensures lost == LostJobsOf(jobs, state, queue, now)
  {
    hide CurrentIds, WholeSeconds, SortDescending;
    var currentIds := CurrentIds(state);
    lost := [];
    for n := 0 to |jobs|
      invariant lost == Diagnosed(jobs[..n], state, queue, now)
    {
      var job := jobs[n];
      assert jobs[..n + 1][..n] == jobs[..n];
      if job.status != Queued && job.status != Running {
        continue;
      }
      var ageSec := WholeSeconds(now - job.updatedAt);
      if ageSec <= WORKER_STALE_THRESHOLD_SEC {
        continue;
      }
      var evidence := [StillLive(job.status), UpdatedAgo(ageSec)];
      ghost var first := evidence;
      if job.jobId !in currentIds {
        evidence := evidence + [NotListed];
      }
      assert evidence == first + if job.jobId !in currentIds then [NotListed] else [];
      ghost var second := evidence;
      if state.status == "idle" {
        evidence := evidence + [WorkerIdle];
      }
      assert evidence == second + if state.status == "idle" then [WorkerIdle] else [];
      ghost var third := evidence;
      if queue.queued == 0 && queue.inFlight == 0 {
        evidence := evidence + [QueueEmpty];
      }
      assert evidence == third + if queue.queued == 0 && queue.inFlight == 0 then [QueueEmpty] else [];
      if job.jobId in currentIds && state.status != "idle" {
        continue;
      }
      assert evidence == EvidenceOf(job, state, queue, now);
      hide EvidenceOf;
      lost := lost + [LostJob(job, ageSec, evidence)];
    }
    assert jobs[..|jobs|] == jobs;
    lost := SortDescending(lost, (item: LostJob) => item.ageSec);
  }

  // ---- What the diagnosis means ----

  /** Live, untouched for at least 301 seconds, and not in flight. */
  ghost predicate Lost(job: JobRecord, state: RuntimeState, now: int) {
    && (job.status == Queued || job.status == Running)
    && now - job.updatedAt >= 301_000_000
    && !Lists(state.inFlight, job.jobId)
  }

  ghost function AllLost(jobs: seq<JobRecord>, state: RuntimeState, now: int): seq<JobRecord> {
    if jobs == [] then []
    else
      AllLost(jobs[..|jobs| - 1], state, now)
      + if Lost(jobs[|jobs| - 1], state, now) then [jobs[|jobs| - 1]] else []
  }

  function JobsOf(lost: seq<LostJob>): seq<JobRecord> {
    seq(|lost|, i requires 0 <= i < |lost| => lost[i].job)
  }

  /** In a consistent worker state the current job is one of the jobs in flight. */
  lemma CurrentIdsAreInFlight(state: RuntimeState, jobId: string)
    requires Consistent(state)
    ensures jobId in CurrentIds(state) <==> Lists(state.inFlight, jobId)
  {
    if Truthy(state.currentJobId) {
      assert state.inFlight[0].jobId == state.currentJobId.value;
    }
    if i :| 0 <= i < |state.inFlight| && state.inFlight[i].jobId == jobId {
      assert state.inFlight[i] in state.inFlight;
    }
  }

  /** So "idle with a current job" cannot happen, and the second half of the guard is moot. */
  lemma ReportedIsLost(job: JobRecord, state: RuntimeState, now: int)
    requires Consistent(state)
    ensures Diagnosable(job, state, now) <==> Lost(job, state, now)
  {
    CurrentIdsAreInFlight(state, job.jobId);
    if Lists(state.inFlight, job.jobId) {
      assert state.inFlight != [];
    }
  }

  lemma {:induction false} DiagnosedIsAllLost(jobs: seq<JobRecord>, state: RuntimeState, queue: QueueCounts, now: int)
    requires Consistent(state)
    ensures JobsOf(Diagnosed(jobs, state, queue, now)) == AllLost(jobs, state, now)
    decreases |jobs|
  {
    if jobs != [] {
      DiagnosedIsAllLost(jobs[..|jobs| - 1], state, queue, now);
      ReportedIsLost(jobs[|jobs| - 1], state, now);
    }
  }

  lemma JobsOfConcat(a: seq<LostJob>, b: seq<LostJob>)
    ensures JobsOf(a + b) == JobsOf(a) + JobsOf(b)
  {
  }

  lemma {:induction false} InsertAddsOneJob(x: LostJob, xs: seq<LostJob>, key: LostJob -> int)
    ensures multiset(JobsOf(Insert(x, xs, key))) == multiset([x.job]) + multiset(JobsOf(xs))
    decreases |xs|
  {
    if xs == [] || key(xs[0]) <= key(x) {
      JobsOfConcat([x], xs);
    } else {
      InsertAddsOneJob(x, xs[1..], key);
      JobsOfConcat([xs[0]], Insert(x, xs[1..], key));
      JobsOfConcat([xs[0]], xs[1..]);
      assert xs == [xs[0]] + xs[1..];
    }
  }

  lemma {:induction false} SortKeepsJobs(xs: seq<LostJob>, key: LostJob -> int)
    ensures multiset(JobsOf(SortDescending(xs, key))) == multiset(JobsOf(xs))
    decreases |xs|
  {
    if xs != [] {
      SortKeepsJobs(xs[1..], key);
      InsertAddsOneJob(xs[0], SortDescending(xs[1..], key), key);
      JobsOfConcat([xs[0]], xs[1..]);
      assert xs == [xs[0]] + xs[1..];
    }
  }

  /** The worker names the job, as its current one or in its list. */
  ghost predicate Mentions(state: RuntimeState, jobId: string) {
    || (jobId != "" && state.currentJobId == Some(jobId))
    || exists i :: 0 <= i < |state.inFlight| && state.inFlight[i].jobId == jobId
  }

  /** The age is that of the last update in whole seconds, and the evidence is what is the case. */
  ghost predicate Evident(item: LostJob, state: RuntimeState, queue: QueueCounts, now: int) {
    && item.ageSec * 1_000_000 <= now - item.job.updatedAt < (item.ageSec + 1) * 1_000_000
    && item.evidence ==
       [StillLive(item.job.status), UpdatedAgo(item.ageSec)]
       + (if Mentions(state, item.job.jobId) then [] else [NotListed])
       + (if state.status == "idle" then [WorkerIdle] else [])
       + (if queue.queued + queue.inFlight == 0 then [QueueEmpty] else [])
  }

  lemma MentionsCurrentIds(state: RuntimeState, jobId: string)
    ensures jobId in CurrentIds(state) <==> Mentions(state, jobId)
  {
    if i :| 0 <= i < |state.inFlight| && state.inFlight[i].jobId == jobId {
      assert state.inFlight[i] in state.inFlight;
    }
  }

  /** Every diagnosis is evident, in any state of the worker. */
  lemma {:induction false} EveryDiagnosisIsEvident(jobs: seq<JobRecord>, state: RuntimeState, queue: QueueCounts,
                                                   now: int)
    ensures forall i | 0 <= i < |Diagnosed(jobs, state, queue, now)| ::
                Evident(Diagnosed(jobs, state, queue, now)[i], state, queue, now)
    decreases |jobs|
  {
    hide Evident;
    if jobs != [] {
      EveryDiagnosisIsEvident(jobs[..|jobs| - 1], state, queue, now);
      DiagnosisIsEvident(jobs[|jobs| - 1], state, queue, now);
    }
  }

  lemma DiagnosisIsEvident(job: JobRecord, state: RuntimeState, queue: QueueCounts, now: int)
    ensures Diagnosable(job, state, now) ==>
              Evident(LostJob(job, WholeSeconds(now - job.updatedAt), EvidenceOf(job, state, queue, now)),
                      state, queue, now)
  {
    MentionsCurrentIds(state, job.jobId);
    hide Mentions, CurrentIds;
  }

  /** In a consistent state nothing the worker names is diagnosed. */
  lemma {:induction false} NotListedIsEvident(jobs: seq<JobRecord>, state: RuntimeState, queue: QueueCounts, now: int,
                                              item: LostJob)
    requires Consistent(state) && item in Diagnosed(jobs, state, queue, now)
    ensures NotListed in item.evidence
    decreases |jobs|
  {
    var job := jobs[|jobs| - 1];
    if item in Diagnosed(jobs[..|jobs| - 1], state, queue, now) {
      NotListedIsEvident(jobs[..|jobs| - 1], state, queue, now, item);
    } else {
      ReportedIsLost(job, state, now);
      CurrentIdsAreInFlight(state, job.jobId);
      assert EvidenceOf(job, state, queue, now)[2] == NotListed;
    }
  }

  /** Sorting only reorders: what holds of every diagnosis holds of every lost job. */
  lemma LostAreDiagnosed(jobs: seq<JobRecord>, state: RuntimeState, queue: QueueCounts, now: int)
    ensures forall item | item in LostJobsOf(jobs, state, queue, now) :: item in Diagnosed(jobs, state, queue, now)
  {
    var found := Diagnosed(jobs, state, queue, now);
    var lost := LostJobsOf(jobs, state, queue, now);
    SortDescendingSorts(found, (item: LostJob) => item.ageSec);
    forall item | item in lost ensures item in found {
      assert item in multiset(lost);
    }
  }

  /**
   In every state the worker publishes, the lost jobs are exactly the live jobs that nobody
   has updated for 301 seconds and that are not in flight, each as often as it was scanned,
   with their ages and the evidence, and the ones updated longest ago first.
   */
  lemma LostJobsAreExact(jobs: seq<JobRecord>, state: RuntimeState, queue: QueueCounts, now: int)
    requires Consistent(state)
    ensures var lost := LostJobsOf(jobs, state, queue, now);
            && multiset(JobsOf(lost)) == multiset(AllLost(jobs, state, now))
            && (forall i | 0 <= i < |lost| :: Evident(lost[i], state, queue, now) && NotListed in lost[i].evidence)
            && (forall i, j | 0 <= i < j < |lost| ::
                  && lost[i].ageSec >= lost[j].ageSec
                  && lost[i].job.updatedAt < lost[j].job.updatedAt + 1_000_000)
  {
    var found := Diagnosed(jobs, state, queue, now);
    var lost := LostJobsOf(jobs, state, queue, now);
    SortDescendingSorts(found, (item: LostJob) => item.ageSec);
    SortKeepsJobs(found, (item: LostJob) => item.ageSec);
    DiagnosedIsAllLost(jobs, state, queue, now);
    EveryDiagnosisIsEvident(jobs, state, queue, now);
    LostAreDiagnosed(jobs, state, queue, now);
    forall i | 0 <= i < |lost| ensures Evident(lost[i], state, queue, now) && NotListed in lost[i].evidence {
      assert lost[i] in found;
      NotListedIsEvident(jobs, state, queue, now, lost[i]);
    }
    hide Diagnosed, LostJobsOf, SortDescending, Mentions;
  }

  /** Jobs of the same age stay in scan order. */
  lemma TiesKeepScanOrder(jobs: seq<JobRecord>, state: RuntimeState, queue: QueueCounts, now: int, ageSec: int)
    ensures var key := (item: LostJob) => item.ageSec;
            WithKey(LostJobsOf(jobs, state, queue, now), key, ageSec)
              == WithKey(Diagnosed(jobs, state, queue, now), key, ageSec)
  {
    var found := Diagnosed(jobs, state, queue, now);
    SortIsStable(found, (item: LostJob) => item.ageSec, ageSec);
  }

  /**
   The job store's own staleness test is looser by up to a second: a lost job is never
   answered to a new request, and a stale one is lost or in flight or less than 301
   seconds old.
   */
  lemma LostIsStale(job: JobRecord, state: RuntimeState, now: int)
    ensures Lost(job, state, now) ==> CreateJob.IsLiveCacheStale(job, now) && !CreateJob.Reusable(Some(job), now)
    ensures job.status.IsLive() && CreateJob.IsLiveCacheStale(job, now) && !Lost(job, state, now)
            ==> || Lists(state.inFlight, job.jobId)
                || now - job.updatedAt < CreateJob.LIVE_CACHE_STALE_THRESHOLD + 1_000_000
  {
  }

  /** Which jobs the scan diagnoses, in any state: a job the worker names only if the worker says it is idle. */
  lemma DiagnosedIff(job: JobRecord, state: RuntimeState, now: int)
    ensures Diagnosable(job, state, now) <==>
            && (job.status == Queued || job.status == Running)
            && now - job.updatedAt >= 301_000_000
            && (Mentions(state, job.jobId) ==> state.status == "idle")
  {
    MentionsCurrentIds(state, job.jobId);
    hide Mentions, CurrentIds;
  }
}
