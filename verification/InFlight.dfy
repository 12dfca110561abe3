/** The worker's list of jobs in flight, against the history of the events that shaped it. */
module InFlight {
  import opened Base

  datatype InFlightJob = InFlightJob(
    jobId: string,
    mode: string,
    status: string,
    coreJobId: Option<string>,
    requestId: Option<string>,
    submitStartedAt: Option<int>,
    lastPollAt: Option<int>,
    ttlDeadlineAt: Option<int>,
    retryCount: int,
    lastError: Option<string>
  )

  /** What the observer calls do to the list: a job is reported, a job leaves, or neither. */
  datatype Event = Reported(job: InFlightJob) | Left(jobId: string) | Unrelated

  /** The list with the entry of the same job replaced, or the job appended. */
  function Upsert(jobs: seq<InFlightJob>, job: InFlightJob): seq<InFlightJob> {
    if jobs == [] then [job]
    else if jobs[0].jobId == job.jobId then [job] + jobs[1..]
    else [jobs[0]] + Upsert(jobs[1..], job)
  }

  function Without(jobs: seq<InFlightJob>, jobId: string): seq<InFlightJob> {
    if jobs == [] then []
    else (if jobs[0].jobId == jobId then [] else [jobs[0]]) + Without(jobs[1..], jobId)
  }

  function After(jobs: seq<InFlightJob>, event: Event): seq<InFlightJob> {
    match event
    case Reported(job) => Upsert(jobs, job)
    case Left(jobId) => Without(jobs, jobId)
    case Unrelated => jobs
  }

  function Replay(events: seq<Event>): seq<InFlightJob> {
    if events == [] then [] else After(Replay(events[..|events| - 1]), events[|events| - 1])
  }

  function Shift(p: nat, i: nat): nat {
    if i < p then i else i + 1
  }

  lemma DropAt<T>(xs: seq<T>, p: nat)
    requires p < |xs|
    ensures |Drop(xs, p)| == |xs| - 1
    ensures forall i | 0 <= i < |xs| - 1 :: Drop(xs, p)[i] == xs[Shift(p, i)]
  {
  }

  ghost predicate Distinct(jobs: seq<InFlightJob>) {
    forall i, j | 0 <= i < j < |jobs| :: jobs[i].jobId != jobs[j].jobId
  }

  ghost predicate Lists(jobs: seq<InFlightJob>, jobId: string) {
    exists i :: 0 <= i < |jobs| && jobs[i].jobId == jobId
  }

  // ---- The list operations, by position ----

  lemma {:induction false} UpsertFound(jobs: seq<InFlightJob>, job: InFlightJob, p: nat)
    requires Distinct(jobs) && p < |jobs| && jobs[p].jobId == job.jobId
    ensures Upsert(jobs, job) == jobs[p := job]
    decreases |jobs|
  {
    if p > 0 {
      UpsertFound(jobs[1..], job, p - 1);
      assert jobs[p := job] == [jobs[0]] + jobs[1..][p - 1 := job];
    }
  }

  lemma {:induction false} UpsertNew(jobs: seq<InFlightJob>, job: InFlightJob)
    requires !Lists(jobs, job.jobId)
    ensures Upsert(jobs, job) == jobs + [job]
    decreases |jobs|
  {
    if jobs != [] {
      assert jobs[0].jobId != job.jobId;
      forall i | 0 <= i < |jobs[1..]| ensures jobs[1..][i].jobId != job.jobId {
        assert jobs[1..][i] == jobs[i + 1];
      }
      UpsertNew(jobs[1..], job);
    }
  }

  lemma {:induction false} WithoutLast(jobs: seq<InFlightJob>, job: InFlightJob, jobId: string)
    ensures Without(jobs + [job], jobId) == Without(jobs, jobId) + if job.jobId == jobId then [] else [job]
    decreases |jobs|
  {
    if jobs == [] {
      assert jobs + [job] == [job];
    } else {
      var first := if jobs[0].jobId == jobId then [] else [jobs[0]];
      var last := if job.jobId == jobId then [] else [job];
      assert (jobs + [job])[0] == jobs[0] && (jobs + [job])[1..] == jobs[1..] + [job];
      WithoutLast(jobs[1..], job, jobId);
      assert first + (Without(jobs[1..], jobId) + last) == (first + Without(jobs[1..], jobId)) + last;
    }
  }

  lemma {:induction false} WithoutAbsent(jobs: seq<InFlightJob>, jobId: string)
    requires !Lists(jobs, jobId)
    ensures Without(jobs, jobId) == jobs
    decreases |jobs|
  {
    if jobs != [] {
      assert jobs[0].jobId != jobId;
      forall i | 0 <= i < |jobs[1..]| ensures jobs[1..][i].jobId != jobId {
        assert jobs[1..][i] == jobs[i + 1];
      }
      WithoutAbsent(jobs[1..], jobId);
    }
  }

  lemma {:induction false} WithoutFound(jobs: seq<InFlightJob>, jobId: string, p: nat)
    requires Distinct(jobs) && p < |jobs| && jobs[p].jobId == jobId
    ensures Without(jobs, jobId) == Drop(jobs, p)
    ensures !Lists(Drop(jobs, p), jobId)
    decreases |jobs|
  {
    if p == 0 {
      assert !Lists(jobs[1..], jobId);
      WithoutAbsent(jobs[1..], jobId);
    } else {
      WithoutFound(jobs[1..], jobId, p - 1);
      assert jobs[1..][..p - 1] == jobs[1..p] && jobs[1..][p..] == jobs[p + 1..];
    }
  }

  lemma AfterKeepsDistinct(jobs: seq<InFlightJob>, event: Event)
    requires Distinct(jobs)
    ensures Distinct(After(jobs, event))
    ensures event.Reported? ==> After(jobs, event) != []
  {
    match event {
      case Reported(job) =>
        if p :| 0 <= p < |jobs| && jobs[p].jobId == job.jobId {
          UpsertFound(jobs, job, p);
        } else {
          UpsertNew(jobs, job);
        }
      case Left(jobId) =>
        if p :| 0 <= p < |jobs| && jobs[p].jobId == jobId {
          WithoutFound(jobs, jobId, p);
        } else {
          WithoutAbsent(jobs, jobId);
        }
      case Unrelated =>
    }
  }

  // ---- The history ----

  predicate Reports(event: Event, jobId: string) {
    event.Reported? && event.job.jobId == jobId
  }

  predicate Leaves(event: Event, jobId: string) {
    event.Left? && event.jobId == jobId
  }

  /** Event `k` is the first report of the job since it last left. */
  ghost predicate FirstSince(events: seq<Event>, jobId: string, k: nat) {
    && k < |events| && Reports(events[k], jobId)
    && (forall j | k < j < |events| :: !Leaves(events[j], jobId))
    && (forall j | 0 <= j < k && Reports(events[j], jobId) :: exists m | j < m < k :: Leaves(events[m], jobId))
  }

  /** Event `k` is the latest about the job, and reports it. */
  ghost predicate LatestReport(events: seq<Event>, jobId: string, k: nat) {
    && k < |events| && Reports(events[k], jobId)
    && forall j | k < j < |events| :: !Leaves(events[j], jobId) && !Reports(events[j], jobId)
  }

  /** Every report of the job was followed by its leaving. */
  ghost predicate GoneSince(events: seq<Event>, jobId: string) {
    forall j | 0 <= j < |events| && Reports(events[j], jobId) :: exists m | j < m < |events| :: Leaves(events[m], jobId)
  }

  /**
   `first` and `latest` explain the list: entry i is the payload of its job's latest
   report, the jobs stand in the order of their first reports since they last left, and
   a job that is not listed is gone.
   */
  ghost predicate Explained(events: seq<Event>, jobs: seq<InFlightJob>, first: seq<nat>, latest: seq<nat>) {
    && |first| == |latest| == |jobs|
    && (forall i | 0 <= i < |jobs| :: FirstSince(events, jobs[i].jobId, first[i]))
    && (forall i | 0 <= i < |jobs| ::
          LatestReport(events, jobs[i].jobId, latest[i]) && events[latest[i]].job == jobs[i])
    && (forall i, j | 0 <= i < j < |jobs| :: first[i] < first[j])
    && (forall jobId: string :: !Lists(jobs, jobId) ==> GoneSince(events, jobId))
  }

  lemma GoneStays(before: seq<Event>, event: Event, jobId: string)
    requires !Reports(event, jobId)
    ensures GoneSince(before, jobId) ==> GoneSince(before + [event], jobId)
  {
    var events := before + [event];
    if GoneSince(before, jobId) {
      forall j | 0 <= j < |events| && Reports(events[j], jobId)
          ensures exists m | j < m < |events| :: Leaves(events[m], jobId) {
        assert Reports(before[j], jobId);
        var m :| j < m < |before| && Leaves(before[m], jobId);
        assert Leaves(events[m], jobId);
      }
    }
  }

  lemma FirstStays(before: seq<Event>, event: Event, jobId: string, k: nat)
    requires FirstSince(before, jobId, k) && !Leaves(event, jobId)
    ensures FirstSince(before + [event], jobId, k)
  {
    var events := before + [event];
    forall j | 0 <= j < k && Reports(events[j], jobId) ensures exists m | j < m < k :: Leaves(events[m], jobId) {
      assert Reports(before[j], jobId);
      var m :| j < m < k && Leaves(before[m], jobId);
      assert Leaves(events[m], jobId);
    }
  }

  lemma NewJobIsFirst(before: seq<Event>, job: InFlightJob)
    requires GoneSince(before, job.jobId)
    ensures FirstSince(before + [Reported(job)], job.jobId, |before|)
  {
    var events := before + [Reported(job)];
    forall j | 0 <= j < |before| && Reports(events[j], job.jobId)
        ensures exists m | j < m < |before| :: Leaves(events[m], job.jobId) {
      assert Reports(before[j], job.jobId);
      var m :| j < m < |before| && Leaves(before[m], job.jobId);
      assert Leaves(events[m], job.jobId);
    }
  }

  lemma LeftIsGone(before: seq<Event>, jobId: string)
    ensures GoneSince(before + [Left(jobId)], jobId)
  {
    var events := before + [Left(jobId)];
    assert Leaves(events[|before|], jobId);
  }

  lemma ExplainUpdate(before: seq<Event>, jobs: seq<InFlightJob>, first: seq<nat>, latest: seq<nat>, job: InFlightJob,
                      p: nat)
    requires Distinct(jobs) && Explained(before, jobs, first, latest)
    requires p < |jobs| && jobs[p].jobId == job.jobId
    ensures Explained(before + [Reported(job)], jobs[p := job], first, latest[p := |before|])
  {
    var events := before + [Reported(job)];
    forall x: string | !Lists(jobs[p := job], x) ensures GoneSince(events, x) {
      ReplacedListsSame(jobs, job, p, x);
      assert x != job.jobId by { assert jobs[p := job][p] == job; }
      GoneStays(before, Reported(job), x);
    }
    hide Lists, GoneSince, FirstSince;
    forall i | 0 <= i < |jobs| ensures FirstSince(events, jobs[i].jobId, first[i]) {
      FirstStays(before, Reported(job), jobs[i].jobId, first[i]);
    }
    forall i | 0 <= i < |jobs| && i != p ensures LatestReport(events, jobs[i].jobId, latest[i]) {
      assert jobs[i].jobId != job.jobId;
    }
  }

  lemma ExplainAppend(before: seq<Event>, jobs: seq<InFlightJob>, first: seq<nat>, latest: seq<nat>, job: InFlightJob)
    requires Explained(before, jobs, first, latest) && !Lists(jobs, job.jobId)
    ensures Explained(before + [Reported(job)], jobs + [job], first + [|before|], latest + [|before|])
  {
    var events := before + [Reported(job)];
    NewJobIsFirst(before, job);
    forall x: string | !Lists(jobs + [job], x) ensures GoneSince(events, x) {
      AppendedLists(jobs, job, x);
      GoneStays(before, Reported(job), x);
    }
    forall i | 0 <= i < |jobs|
      ensures FirstSince(events, jobs[i].jobId, first[i]) && LatestReport(events, jobs[i].jobId, latest[i])
    {
      assert jobs[i].jobId != job.jobId;
      FirstStays(before, Reported(job), jobs[i].jobId, first[i]);
    }
  }

  lemma ExplainReport(before: seq<Event>, jobs: seq<InFlightJob>, first: seq<nat>, latest: seq<nat>, job: InFlightJob)
    returns (first': seq<nat>, latest': seq<nat>)
    requires Distinct(jobs) && Explained(before, jobs, first, latest)
    ensures Explained(before + [Reported(job)], Upsert(jobs, job), first', latest')
  {
    hide Explained;
    if p :| 0 <= p < |jobs| && jobs[p].jobId == job.jobId {
      UpsertFound(jobs, job, p);
      ExplainUpdate(before, jobs, first, latest, job, p);
      Lengths(before, jobs, first, latest);
      first', latest' := first, latest[p := |before|];
    } else {
      UpsertNew(jobs, job);
      ExplainAppend(before, jobs, first, latest, job);
      first', latest' := first + [|before|], latest + [|before|];
    }
  }

  lemma Lengths(events: seq<Event>, jobs: seq<InFlightJob>, first: seq<nat>, latest: seq<nat>)
    requires Explained(events, jobs, first, latest)
    ensures |first| == |latest| == |jobs|
  {
  }

  lemma ReplacedListsSame(jobs: seq<InFlightJob>, job: InFlightJob, p: nat, jobId: string)
    requires p < |jobs| && jobs[p].jobId == job.jobId
    ensures Lists(jobs[p := job], jobId) <==> Lists(jobs, jobId)
  {
    if i :| 0 <= i < |jobs| && jobs[i].jobId == jobId {
      assert jobs[p := job][i].jobId == jobId;
    }
  }

  lemma AppendedLists(jobs: seq<InFlightJob>, job: InFlightJob, jobId: string)
    ensures Lists(jobs + [job], jobId) <==> Lists(jobs, jobId) || jobId == job.jobId
  {
    if i :| 0 <= i < |jobs| && jobs[i].jobId == jobId {
      assert (jobs + [job])[i].jobId == jobId;
    }
    assert (jobs + [job])[|jobs|].jobId == job.jobId;
  }

  lemma RemovedLists(jobs: seq<InFlightJob>, p: nat, jobId: string)
    requires p < |jobs| && jobId != jobs[p].jobId
    ensures Lists(Drop(jobs, p), jobId) <==> Lists(jobs, jobId)
  {
    var rest := Drop(jobs, p);
    if i :| 0 <= i < |jobs| && jobs[i].jobId == jobId {
      assert i != p;
      assert rest[if i < p then i else i - 1].jobId == jobId;
    }
    if i :| 0 <= i < |rest| && rest[i].jobId == jobId {
      assert jobs[if i < p then i else i + 1].jobId == jobId;
    }
  }

  lemma ExplainRemove(before: seq<Event>, jobs: seq<InFlightJob>, first: seq<nat>, latest: seq<nat>, p: nat)
    requires Distinct(jobs) && Explained(before, jobs, first, latest) && p < |jobs|
    ensures Explained(before + [Left(jobs[p].jobId)], Drop(jobs, p), Drop(first, p), Drop(latest, p))
  {
    var jobId, rest := jobs[p].jobId, Drop(jobs, p);
    var events := before + [Left(jobId)];
    var first', latest' := Drop(first, p), Drop(latest, p);
    LeftIsGone(before, jobId);
    forall x: string | !Lists(rest, x) ensures GoneSince(events, x) {
      if x != jobId {
        RemovedLists(jobs, p, x);
        GoneStays(before, Left(jobId), x);
      }
    }
    DropAt(jobs, p);
    DropAt(first, p);
    DropAt(latest, p);
    hide Lists, GoneSince, Drop, FirstSince, LatestReport;
    forall i | 0 <= i < |rest|
      ensures FirstSince(events, rest[i].jobId, first'[i]) && LatestReport(events, rest[i].jobId, latest'[i])
              && events[latest'[i]].job == rest[i]
    {
      var k := Shift(p, i);
      assert jobs[k].jobId != jobId;
      FirstStays(before, Left(jobId), jobs[k].jobId, first[k]);
      LatestStays(before, Left(jobId), jobs[k].jobId, latest[k]);
    }
  }

  lemma LatestStays(before: seq<Event>, event: Event, jobId: string, k: nat)
    requires LatestReport(before, jobId, k) && !Leaves(event, jobId) && !Reports(event, jobId)
    ensures LatestReport(before + [event], jobId, k)
    ensures k < |before| && (before + [event])[k] == before[k]
  {
  }

  lemma ExplainLeave(before: seq<Event>, jobs: seq<InFlightJob>, first: seq<nat>, latest: seq<nat>, jobId: string)
    returns (first': seq<nat>, latest': seq<nat>)
    requires Distinct(jobs) && Explained(before, jobs, first, latest)
    ensures Explained(before + [Left(jobId)], Without(jobs, jobId), first', latest')
  {
    Lengths(before, jobs, first, latest);
    hide Explained;
    if p :| 0 <= p < |jobs| && jobs[p].jobId == jobId {
      WithoutFound(jobs, jobId, p);
      ExplainRemove(before, jobs, first, latest, p);
      first', latest' := Drop(first, p), Drop(latest, p);
    } else {
      WithoutAbsent(jobs, jobId);
      ExplainAbsent(before, Left(jobId), jobs, first, latest);
      first', latest' := first, latest;
    }
  }

  /** An event about no listed job, that reports none, changes nothing. */
  lemma ExplainAbsent(before: seq<Event>, event: Event, jobs: seq<InFlightJob>, first: seq<nat>, latest: seq<nat>)
    requires Explained(before, jobs, first, latest) && !event.Reported?
    requires event.Left? ==> !Lists(jobs, event.jobId)
    ensures Explained(before + [event], jobs, first, latest)
  {
    var events := before + [event];
    forall x: string ensures GoneSince(before, x) ==> GoneSince(events, x) {
      GoneStays(before, event, x);
    }
    forall i | 0 <= i < |jobs|
      ensures FirstSince(events, jobs[i].jobId, first[i]) && LatestReport(events, jobs[i].jobId, latest[i])
    {
      assert !Leaves(event, jobs[i].jobId);
      FirstStays(before, event, jobs[i].jobId, first[i]);
    }
  }

  /**
   The list refines its history: after any events it holds exactly the jobs reported since
   they last left, each once, in the order of first report, with the latest payload.
   */
  lemma {:induction false} ListMeansHistory(events: seq<Event>) returns (first: seq<nat>, latest: seq<nat>)
    ensures Distinct(Replay(events)) && Explained(events, Replay(events), first, latest)
    decreases |events|
  {
    if events == [] {
      first, latest := [], [];
    } else {
      var n := |events| - 1;
      var before, event := events[..n], events[n];
      assert events == before + [event];
      first, latest := ListMeansHistory(before);
      AfterKeepsDistinct(Replay(before), event);
      hide Explained;
      match event {
        case Reported(job) => first, latest := ExplainReport(before, Replay(before), first, latest, job);
        case Left(jobId) => first, latest := ExplainLeave(before, Replay(before), first, latest, jobId);
        case Unrelated => ExplainAbsent(before, event, Replay(before), first, latest);
      }
    }
  }

  lemma ReplaySnoc(events: seq<Event>, event: Event)
    ensures Replay(events + [event]) == After(Replay(events), event)
  {
    assert (events + [event])[..|events|] == events;
  }

  function AllReported(jobs: seq<InFlightJob>): seq<Event> {
    if jobs == [] then [] else AllReported(jobs[..|jobs| - 1]) + [Reported(jobs[|jobs| - 1])]
  }

  /** Any list of distinct jobs is the replay of reporting them in order. */
  lemma {:induction false} ReplayReports(jobs: seq<InFlightJob>)
    requires Distinct(jobs)
    ensures Replay(AllReported(jobs)) == jobs
    decreases |jobs|
  {
    if jobs != [] {
      var n := |jobs| - 1;
      var before, job := jobs[..n], jobs[n];
      ReplayReports(before);
      ReplaySnoc(AllReported(before), Reported(job));
      assert !Lists(before, job.jobId);
      UpsertNew(before, job);
      assert before + [job] == jobs;
    }
  }
}
