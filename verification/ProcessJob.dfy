/**
 `ProcessJobUseCase.execute`: one delivered job is claimed, submitted to the render
 pipeline, polled until it ends or its time is up, and stored with a terminal status.

 Everything the use case calls is an adversary: the stores, the pipeline and the
 observer may answer anything or raise at every call. The clock never steps back.
 Line numbers below are those of `process_job.py`.
 */
module ProcessJob {
  import opened Base
  import opened Domain
  import opened Contracts
  import opened Trace
  import InFlight
  import WorkerProgram

  type Action = WorkerProgram.Action
  type Local = WorkerProgram.Local
  type InFlightJob = InFlight.InFlightJob

  datatype Artifact = Artifact(kind: ArtifactKind, data: string, mimeType: string)

  datatype Output = Output(artifacts: seq<Artifact>, metrics: Metrics, warnings: seq<string>)

  /** What is submitted; the job's id serves as request id, and an image is known by a number. */
  datatype PipelineContext = PipelineContext(jobId: string, request: RenderRequest, image: nat, mimeType: string)

  /** What an execution asks its stores and the pipeline for, and tells the observer besides polls and failures. */
  datatype Question =
    | JobAsked(jobId: string)
    | RefAsked(assetId: string)
    | ProbeAsked
    | CapabilitiesTold(capabilities: nat)
    | BytesAsked(assetId: string)
    | RenderAsked(context: PipelineContext)
    | SubmittedTold(entry: InFlightJob)
    | FinishedTold(job: JobRecord)

  /** The observer's report of a failed job. */
  datatype FailureReport = FailureReport(jobId: string, error: string, stage: Option<string>)

  datatype Submission = Submission(
    mode: string,
    status: string,
    coreJobId: Option<string>,
    requestId: Option<string>,
    result: Option<Output>
  )

  datatype PollResult = PollResult(status: string, result: Option<Output>, error: Option<string>, retryable: bool)

  // ---- What is kept about the records an execution reads and stores ----

  /** The open stage of a trace is `open`; every other stage is closed. */
  ghost predicate OpenIs(trace: seq<Stage>, open: Option<string>) {
    match open
    case None => Closed(trace)
    case Some(name) => TailOpen(trace) && |trace| > 0 && IsOpen(trace[|trace| - 1]) && trace[|trace| - 1].name == name
  }

  /**
   `stored` is the record read followed by the records written, all of one job; each
   trace extends the one before it, and the private copy extends the last. If the
   record was read without an open stage, no trace ever has an open stage before its end.
   */
  ghost predicate Book(stored: seq<JobRecord>, copy: JobRecord, open: Option<string>) {
    && Ledgered(stored)
    && |stored| > 0
    && SameJob(stored[0], copy)
    && Ledger(stored[|stored| - 1].trace, copy.trace)
    && (Closed(stored[0].trace) ==> OpenIs(copy.trace, open))
  }

  ghost predicate Ledgered(stored: seq<JobRecord>) {
    && (forall i | 0 <= i < |stored| :: SameJob(stored[0], stored[i]))
    && (forall i | 0 <= i < |stored| - 1 :: Ledger(stored[i].trace, stored[i + 1].trace))
    && (|stored| > 0 && Closed(stored[0].trace) ==> forall i | 0 <= i < |stored| :: TailOpen(stored[i].trace))
  }

  lemma BookWritten(stored: seq<JobRecord>, copy: JobRecord, open: Option<string>)
    requires Book(stored, copy, open)
    ensures Book(stored + [copy], copy, open)
  {
    var after := stored + [copy];
    forall i | 0 <= i < |after| - 1 ensures Ledger(after[i].trace, after[i + 1].trace) {
      if i == |stored| - 1 { assert after[i] == stored[|stored| - 1]; }
    }
  }

  lemma BookIsLedgered(stored: seq<JobRecord>, copy: JobRecord, open: Option<string>)
    requires Book(stored, copy, open)
    ensures Ledgered(stored)
  {
  }

  lemma BookKeepsCreation(stored: seq<JobRecord>, copy: JobRecord, open: Option<string>)
    requires Book(stored, copy, open)
    ensures copy.createdAt == stored[0].createdAt
  {
  }

  lemma BookTailOpen(stored: seq<JobRecord>, copy: JobRecord, open: Option<string>)
    requires Book(stored, copy, open)
    ensures Closed(stored[0].trace) ==> TailOpen(copy.trace)
  {
  }

  lemma BookStep(stored: seq<JobRecord>, before: JobRecord, open: Option<string>, after: JobRecord,
                 next: Option<string>)
    requires Book(stored, before, open) && SameJob(before, after)
    requires Ledger(before.trace, after.trace)
    requires Closed(stored[0].trace) ==> OpenIs(after.trace, next)
    ensures Book(stored, after, next)
  {
    LedgerTransitive(stored[|stored| - 1].trace, before.trace, after.trace);
  }

  lemma BookStart(found: JobRecord)
    ensures Book([found], found, None)
  {
    assert Ledger(found.trace, found.trace);
  }

  lemma BookSameTrace(stored: seq<JobRecord>, before: JobRecord, open: Option<string>, after: JobRecord)
    requires Book(stored, before, open) && SameJob(before, after) && before.trace == after.trace
    ensures Book(stored, after, open)
  {
  }

  /** Nothing but records of status `status` was stored, and no stored trace ends open. */
  ghost predicate Unstarted(stored: seq<JobRecord>, status: JobStatus) {
    && |stored| > 0
    && (forall i | 0 <= i < |stored| :: stored[i].status == status)
    && (Closed(stored[0].trace) ==> Closed(stored[|stored| - 1].trace))
  }

  lemma UnstartedWritten(stored: seq<JobRecord>, copy: JobRecord)
    requires Unstarted(stored, copy.status) && Book(stored, copy, None)
    ensures Unstarted(stored + [copy], copy.status)
  {
  }

  /** The timestamps of a job started at or after `from` and last touched by `now`. */
  ghost predicate Timed(job: JobRecord, from: int, now: int) {
    && job.startedAt.Some? && from <= job.startedAt.value <= job.updatedAt <= now
    && (job.status == Running ==> job.updatedAt == job.startedAt.value)
    && (job.status.Terminal() ==> job.finishedAt == Some(job.updatedAt))
  }

  /**
   Which stage the observer is told about: the stage that was running when the
   exception was raised, if one was; otherwise the last failed stage already there,
   which an earlier delivery may have left.
   */
  lemma ReportedStage(trace: seq<Stage>, at: int, error: string)
    requires TailOpen(trace)
    ensures LastOpen(trace, None).Some? ==>
              |trace| > 0 && IsOpen(trace[|trace| - 1]) &&
              LastFailedName(Interrupted(trace, at, error)) == Some(trace[|trace| - 1].name)
    ensures LastOpen(trace, None) == None ==>
              Closed(trace) && LastFailedName(Interrupted(trace, at, error)) == LastFailedName(trace)
  {
    LastOpenIsLast(trace, None);
    if LastOpen(trace, None).Some? {
      OpenStageIsReported(trace, at, Some(error));
    }
  }

  /** created <= started <= finished == updated. */
  ghost predicate Chronological(job: JobRecord) {
    && job.startedAt.Some? && job.finishedAt == Some(job.updatedAt)
    && job.createdAt <= job.startedAt.value <= job.updatedAt
  }

  /**
   What the exception handler stores: FAILED, or SUCCEEDED if the job had completed, with
   the error, no stage left open, and started <= finished == updated.
   */
  ghost predicate Handled(job: JobRecord, was: JobStatus, exc: string, from: int, found: JobRecord) {
    && job.status == (if was == Succeeded then Succeeded else Failed)
    && job.error == Some(ErrorInfo("processing_failed", exc))
    && (was != Succeeded ==> job.result == found.result)
    && (Closed(found.trace) ==> Closed(job.trace))
    && job.startedAt.Some? && from <= job.startedAt.value <= job.updatedAt && job.finishedAt == Some(job.updatedAt)
    && (found.createdAt <= from ==> Chronological(job))
  }

  lemma NothingStored()
    ensures Ledgered([])
  {
  }

  /** Starting a stage and finishing it leaves one finished entry at the end. */
  lemma FinishedOutline(trace: seq<Stage>, name: string, startedAt: int, status: StageStatus, at: int,
                        error: Option<string>)
    ensures Outline(Finished(Opened(trace, name, startedAt), name, status, at, error))
            == Outline(trace) + [Entry(name, status, error)]
  {
    FinishedOpened(trace, name, startedAt, status, at, error);
  }

  function Done(names: seq<string>): seq<Entry> {
    seq(|names|, i requires 0 <= i < |names| => Entry(names[i], StageSucceeded, None))
  }

  lemma DoneConcat(a: seq<string>, b: seq<string>)
    ensures Done(a + b) == Done(a) + Done(b)
  {
  }

  const MISSING_ASSET := "Asset was not found."

  const CLAIMING: seq<string> := ["worker_claimed", "asset_ref_loaded"]

  /** The stages of the `try` block, in order; a result that came with the submission is not polled for. */
  function ObtainStages(polled: bool): seq<string> {
    ["ml_submit"] + if polled then ["ml_poll"] else []
  }

  function RenderStages(polled: bool): seq<string> {
    ObtainStages(polled) + ["artifact_store", "completed"]
  }

  function AttemptStages(polled: bool): seq<string> {
    ["ml_probe", "asset_bytes_loaded"] + RenderStages(polled)
  }

  lemma FinishedKeepsLedger(trace: seq<Stage>, name: string, status: StageStatus, at: int, error: Option<string>)
    requires status != StageRunning
    ensures Ledger(trace, Finished(trace, name, status, at, error))
    ensures OpenIs(trace, Some(name)) ==> Closed(Finished(trace, name, status, at, error))
  {
    LastOpenIsLast(trace, Some(name));
  }

  lemma InterruptedKeepsLedger(trace: seq<Stage>, at: int, error: string)
    ensures Ledger(trace, Interrupted(trace, at, error))
    ensures TailOpen(trace) ==> Closed(Interrupted(trace, at, error))
  {
    LastOpenIsLast(trace, None);
  }

  lemma BookOpened(stored: seq<JobRecord>, before: JobRecord, name: string, at: int)
    requires Book(stored, before, None)
    ensures Book(stored, before.(trace := Opened(before.trace, name, at)), Some(name))
  {
    BookStep(stored, before, None, before.(trace := Opened(before.trace, name, at)), Some(name));
  }

  lemma BookRecorded(stored: seq<JobRecord>, before: JobRecord, name: string, status: StageStatus, at: int,
                     error: Option<string>)
    requires Book(stored, before, None) && status != StageRunning
    ensures Book(stored, before.(trace := Recorded(before.trace, name, status, at, error)), None)
  {
    BookStep(stored, before, None, before.(trace := Recorded(before.trace, name, status, at, error)), None);
  }

  lemma BookFinished(stored: seq<JobRecord>, before: JobRecord, name: string, status: StageStatus, at: int,
                     error: Option<string>)
    requires Book(stored, before, Some(name)) && status != StageRunning
    ensures Book(stored, before.(trace := Finished(before.trace, name, status, at, error)), None)
  {
    FinishedKeepsLedger(before.trace, name, status, at, error);
    BookStep(stored, before, Some(name), before.(trace := Finished(before.trace, name, status, at, error)), None);
  }

  lemma BookInterrupted(stored: seq<JobRecord>, before: JobRecord, open: Option<string>, at: int, error: string)
    requires Book(stored, before, open)
    ensures Book(stored, before.(trace := Interrupted(before.trace, at, error)), None)
  {
    InterruptedKeepsLedger(before.trace, at, error);
    BookStep(stored, before, open, before.(trace := Interrupted(before.trace, at, error)), None);
  }

  // ---- The poll loop ----

  /** How many of the first `n` polls carried an error. */
  function ErrorsBefore(errors: seq<bool>, n: nat): nat
    requires n <= |errors|
  {
    if n == 0 then 0 else ErrorsBefore(errors, n - 1) + if errors[n - 1] then 1 else 0
  }

  lemma {:induction false} ErrorsBeforePrefix(errors: seq<bool>, e: bool, n: nat)
    requires n <= |errors|
    ensures ErrorsBefore(errors + [e], n) == ErrorsBefore(errors, n)
  {
    if n > 0 {
      ErrorsBeforePrefix(errors, e, n - 1);
    }
  }

  function Max(a: int, b: int): int {
    if a > b then a else b
  }

  /**
   How a use case polls: its settings, and a time in microseconds that every poll takes at
   least, zero if nothing is known. With an interval of zero time must pass in the polls.
   */
  datatype Policy = Policy(ttlMs: int, intervalMs: int, pollTime: nat, maxRetries: int) {
    predicate Valid() {
      intervalMs != 0 || pollTime > 0
    }

    /** The least time between two polls; a negative interval makes `time.sleep` raise. */
    function Gap(): nat {
      Max(0, intervalMs) * 1000 + pollTime
    }

    /** The most polls a job can get. */
    function Bound(): nat
      requires Valid()
    {
      if ttlMs < 0 then 0 else if intervalMs < 0 then 1 else ttlMs * 1000 / Gap() + 1
    }
  }

  /** If polls take no known time, the bound is the quotient of the two settings, plus one. */
  lemma BoundIsQuotient(policy: Policy)
    requires policy.pollTime == 0 && policy.intervalMs >= 1 && policy.ttlMs >= 0
    ensures policy.Bound() == policy.ttlMs / policy.intervalMs + 1
  {
    var ttl, interval := policy.ttlMs, policy.intervalMs;
    var q, r := ttl / interval, ttl % interval;
    assert ttl * 1000 == q * (interval * 1000) + r * 1000;
    QuotientIsUnique(ttl * 1000, interval * 1000, q, r * 1000);
  }

  /** Without time to live there is no poll; a negative interval allows one. */
  lemma BoundAtTheEdges(policy: Policy)
    requires policy.Valid()
    ensures policy.ttlMs < 0 ==> policy.Bound() == 0
    ensures policy.ttlMs >= 0 && policy.intervalMs < 0 ==> policy.Bound() == 1
  {
  }

  lemma QuotientIsUnique(n: int, d: int, q: int, r: int)
    requires n == q * d + r && 0 <= r < d
    ensures n / d == q
  {
    Multiples(n / d - q, d);
    assert (n / d - q) * d == n / d * d - q * d;
  }

  lemma Multiples(k: int, d: int)
    requires d > 0
    ensures k >= 1 ==> k * d >= d
    ensures k <= -1 ==> k * d <= -d
  {
  }

  /** `n` gaps fit between the two clock readings. */
  predicate Paced(n: nat, gap: nat, from: int, now: int) {
    from + n * gap <= now
  }

  lemma NotPacedYet(gap: nat, now: int)
    ensures Paced(0, gap, now, now)
  {
  }

  lemma PaceStep(n: nat, gap: nat, from: int, before: int, now: int)
    requires Paced(n, gap, from, before)
    ensures before <= now ==> Paced(n, gap, from, now)
    ensures before + gap <= now ==> Paced(n + 1, gap, from, now)
  {
    assert (n + 1) * gap == n * gap + gap;
  }

  lemma PollFits(n: nat, policy: Policy, from: int, now: int)
    requires policy.Valid() && (policy.intervalMs < 0 ==> n == 0)
    requires Paced(n, policy.Gap(), from, now) && now <= from + policy.ttlMs * 1000
    ensures n + 1 <= policy.Bound()
  {
    if policy.intervalMs >= 0 {
      var gap, span := policy.Gap(), policy.ttlMs * 1000;
      assert 0 <= n * gap <= span;
      assert n * gap < (span / gap + 1) * gap;
    } else {
      assert policy.ttlMs >= 0;
    }
  }

  /** Each poll reported the number of error polls before it, which never passes the limit. */
  ghost predicate Reported(retryReports: seq<int>, errors: seq<bool>, limit: int) {
    && |retryReports| == |errors|
    && forall i | 0 <= i < |errors| :: retryReports[i] == ErrorsBefore(errors, i) <= limit
  }

  lemma ReportedOneMore(retryReports: seq<int>, errors: seq<bool>, limit: int, retries: int, failed: bool)
    requires Reported(retryReports, errors, limit) && retries == ErrorsBefore(errors, |errors|) <= limit
    ensures Reported(retryReports + [retries], errors + [failed], limit)
    ensures ErrorsBefore(errors + [failed], |errors| + 1) == retries + if failed then 1 else 0
  {
    forall i: nat | i <= |errors| ensures ErrorsBefore(errors + [failed], i) == ErrorsBefore(errors, i) {
      ErrorsBeforePrefix(errors, failed, i);
    }
  }

  /**
   The polls of one job: spaced by the gap, none after the deadline, at most one cancel and
   that one after the deadline; the retry count reported with each poll is the number of
   error polls before it, all of them, and never passes the limit.
   */
  ghost predicate PollLaw(pollTimes: seq<int>, pollErrors: seq<bool>, cancelTimes: seq<int>, retryReports: seq<int>,
                          deadline: int, policy: Policy)
    requires policy.Valid()
  {
    && |pollTimes| <= policy.Bound()
    && (forall i | 0 <= i < |pollTimes| :: pollTimes[i] <= deadline)
    && (forall i | 0 <= i < |pollTimes| - 1 :: pollTimes[i] + policy.Gap() <= pollTimes[i + 1])
    && |cancelTimes| <= 1
    && (forall i | 0 <= i < |cancelTimes| :: deadline < cancelTimes[i])
    && |retryReports| <= |pollTimes| && Reported(retryReports, pollErrors, Max(0, policy.maxRetries))
  }

  lemma NoPolls(deadline: int, policy: Policy)
    requires policy.Valid()
    ensures PollLaw([], [], [], [], deadline, policy) && ErrorsBefore([], 0) == 0
  {
  }

  lemma CancelledOnce(pollTimes: seq<int>, pollErrors: seq<bool>, retryReports: seq<int>, deadline: int, policy: Policy,
                      now: int)
    requires policy.Valid() && deadline < now
    requires PollLaw(pollTimes, pollErrors, [], retryReports, deadline, policy)
    ensures PollLaw(pollTimes, pollErrors, [now], retryReports, deadline, policy)
  {
  }

  lemma PolledOnce(pollTimes: seq<int>, pollErrors: seq<bool>, retryReports: seq<int>, deadline: int, policy: Policy,
                   now: int, failed: bool, retries: int)
    requires policy.Valid()
    requires PollLaw(pollTimes, pollErrors, [], retryReports, deadline, policy)
    requires |pollTimes| == |pollErrors| && now <= deadline && |pollTimes| + 1 <= policy.Bound()
    requires pollTimes != [] ==> pollTimes[|pollTimes| - 1] + policy.Gap() <= now
    requires retries == ErrorsBefore(pollErrors, |pollErrors|) <= Max(0, policy.maxRetries)
    ensures PollLaw(pollTimes + [now], pollErrors, [], retryReports, deadline, policy)
    ensures PollLaw(pollTimes + [now], pollErrors + [failed], [], retryReports + [retries], deadline, policy)
    ensures ErrorsBefore(pollErrors + [failed], |pollErrors| + 1) == retries + if failed then 1 else 0
  {
    ReportedOneMore(retryReports, pollErrors, Max(0, policy.maxRetries), retries, failed);
    hide Reported, ErrorsBefore;
  }

  // ---- The environment ----

  /** Some of the questions, in their order, have been asked since. */
  ghost predicate Asked(before: seq<Question>, after: seq<Question>, questions: seq<Question>) {
    before <= after <= before + questions
  }

  lemma NothingAsked(before: seq<Question>, questions: seq<Question>)
    ensures Asked(before, before, questions)
  {
  }

  lemma NothingMoreAsked(before: seq<Question>, after: seq<Question>, first: seq<Question>, rest: seq<Question>)
    requires Asked(before, after, first)
    ensures Asked(before, after, first + rest)
  {
    assert before + (first + rest) == before + first + rest;
  }

  lemma MoreAsked(before: seq<Question>, after: seq<Question>, first: seq<Question>, rest: seq<Question>)
    requires Asked(before + first, after, rest)
    ensures Asked(before, after, first + rest)
    ensures after == before + first + rest ==> after == before + (first + rest)
  {
    assert before + (first + rest) == before + first + rest;
  }

  /** The probe of the pipeline, and the observer's notice of the answer. */
  function ProbeTalk(capabilities: nat): seq<Question> {
    [ProbeAsked] + [CapabilitiesTold(capabilities)]
  }

  /** The submission, and the observer's notice of it. */
  function SubmitTalk(found: JobRecord, image: nat, mimeType: string, entry: InFlightJob): seq<Question> {
    [RenderAsked(PipelineContext(found.jobId, found.request, image, mimeType))] + [SubmittedTold(entry)]
  }

  function RenderTalk(found: JobRecord, image: nat, mimeType: string, entry: InFlightJob, finished: JobRecord)
    : seq<Question>
  {
    SubmitTalk(found, image, mimeType, entry) + [FinishedTold(finished)]
  }

  /** The entry the observer is given for a submission. */
  ghost predicate Announces(entry: InFlightJob, found: JobRecord, submission: Submission, deadlineAt: int) {
    && entry.jobId == found.jobId && entry.mode == submission.mode && entry.status == submission.status
    && entry.coreJobId == submission.coreJobId && entry.requestId == submission.requestId
    && entry.submitStartedAt.Some? && entry.ttlDeadlineAt == Some(deadlineAt)
    && entry.lastPollAt == None && entry.retryCount == 0 && entry.lastError == None
  }

  predicate InProgress(status: string) {
    status in {"queued", "running", "submitted", "processing"}
  }

  predicate Completed(answer: PollResult) {
    answer.result.Some? && answer.status in {"succeeded", "completed"}
  }

  /** An answer after which the job is polled again, given the errors tolerated so far. */
  predicate PollsAgain(answer: PollResult, retries: nat, maxRetries: int) {
    InProgress(answer.status) && (answer.error.Some? ==> answer.retryable && retries < maxRetries)
  }

  ghost predicate Flagged(answers: seq<PollResult>, errors: seq<bool>) {
    |answers| == |errors| && forall i | 0 <= i < |answers| :: errors[i] == answers[i].error.Some?
  }

  /** Every one of the first `n` answers asked for another poll. */
  ghost predicate AllPollAgain(answers: seq<PollResult>, errors: seq<bool>, n: nat, maxRetries: int)
    requires n <= |answers| == |errors|
  {
    forall i | 0 <= i < n :: PollsAgain(answers[i], ErrorsBefore(errors, i), maxRetries)
  }

  /**
   Why the polling ended, and with what. It ends as soon as an answer does not ask for
   another poll: with the output exactly if that answer completed the job. Otherwise a
   poll raised, the observer raised, sleeping raised, or the deadline passed, and only then
   is the job cancelled.
   */
  ghost predicate PollOutcome(answers: seq<PollResult>, errors: seq<bool>, polls: nat, cancelled: bool,
                              noticeRaised: bool, policy: Policy, r: Outcome<Output>)
  {
    && Flagged(answers, errors) && |answers| <= polls
    && (if cancelled || polls > |answers| || SleepRaised(answers, errors, noticeRaised, policy) then
          r.Raised? && !noticeRaised && AllPollAgain(answers, errors, |answers|, policy.maxRetries)
        else
          var n := |answers| - 1;
          && n >= 0 && AllPollAgain(answers, errors, n, policy.maxRetries)
          && (r.Ok? <==> !noticeRaised && Completed(answers[n]))
          && (r.Ok? ==> r.value == answers[n].result.value)
          && (r.Raised? && !noticeRaised && answers[n].error.Some? ==> r.message == answers[n].error.value)
          && (!noticeRaised ==> !PollsAgain(answers[n], ErrorsBefore(errors, n), policy.maxRetries)))
  }

  /** The interval is negative and the first answer asked for another poll. */
  ghost predicate SleepRaised(answers: seq<PollResult>, errors: seq<bool>, noticeRaised: bool, policy: Policy)
    requires Flagged(answers, errors)
  {
    policy.intervalMs < 0 && !noticeRaised && answers != []
      && AllPollAgain(answers, errors, |answers|, policy.maxRetries)
  }

  /** So far every answer asked for another poll; `errors` flags the answers with an error. */
  ghost predicate StillPolling(answers: seq<PollResult>, errors: seq<bool>, maxRetries: int) {
    && Flagged(answers, errors)
    && AllPollAgain(answers, errors, |answers|, maxRetries)
  }

  lemma NoAnswers(maxRetries: int)
    ensures StillPolling([], [], maxRetries)
  {
  }

  lemma CutShort(answers: seq<PollResult>, errors: seq<bool>, polls: nat, cancelled: bool, policy: Policy,
                 message: string)
    requires StillPolling(answers, errors, policy.maxRetries) && |answers| <= polls
    requires cancelled || |answers| < polls || (policy.intervalMs < 0 && answers != [])
    ensures PollOutcome(answers, errors, polls, cancelled, false, policy, Outcome.Raised(message))
  {
  }

  /** The branches of the loop decide exactly whether to poll again. */
  lemma Verdict(answer: PollResult, retries: nat, maxRetries: int)
    ensures Completed(answer) ==> answer.result.Some?
    ensures Completed(answer) || !InProgress(answer.status) ==> !PollsAgain(answer, retries, maxRetries)
    ensures InProgress(answer.status) ==> !Completed(answer)
    ensures InProgress(answer.status) ==>
              (PollsAgain(answer, retries, maxRetries) <==>
               answer.error.None? || (answer.retryable && retries < maxRetries))
  {
  }

  lemma OneMoreAnswer(answers: seq<PollResult>, errors: seq<bool>, answer: PollResult, maxRetries: int)
    requires StillPolling(answers, errors, maxRetries)
    ensures var answers', errors' := answers + [answer], errors + [answer.error.Some?];
            && Flagged(answers', errors') && AllPollAgain(answers', errors', |answers|, maxRetries)
            && ErrorsBefore(errors', |answers|) == ErrorsBefore(errors, |answers|)
            && (PollsAgain(answer, ErrorsBefore(errors, |answers|), maxRetries) ==>
                   StillPolling(answers', errors', maxRetries))
  {
    forall i | 0 <= i <= |answers| ensures ErrorsBefore(errors + [answer.error.Some?], i) == ErrorsBefore(errors, i) {
      ErrorsBeforePrefix(errors, answer.error.Some?, i);
    }
  }

  lemma LastAnswer(answers: seq<PollResult>, errors: seq<bool>, noticeRaised: bool, policy: Policy, r: Outcome<Output>)
    requires answers != [] && Flagged(answers, errors)
    requires AllPollAgain(answers, errors, |answers| - 1, policy.maxRetries)
    requires var answer := answers[|answers| - 1];
             && (r.Ok? <==> !noticeRaised && Completed(answer))
             && (r.Ok? ==> r.value == answer.result.value)
             && (r.Raised? && !noticeRaised && answer.error.Some? ==> r.message == answer.error.value)
             && (!noticeRaised ==> !PollsAgain(answer, ErrorsBefore(errors, |answers| - 1), policy.maxRetries))
    ensures PollOutcome(answers, errors, |answers|, false, noticeRaised, policy, r)
  {
    hide Completed, ErrorsBefore;
    if !noticeRaised {
      assert !AllPollAgain(answers, errors, |answers|, policy.maxRetries);
    }
    hide PollsAgain, AllPollAgain;
  }

  /** The statuses by name: which ones ask for another poll and which ones, with a result, complete the job. */
  lemma StatusesMean(answers: seq<PollResult>, errors: seq<bool>, polls: nat, cancelled: bool, noticeRaised: bool,
                     policy: Policy, r: Outcome<Output>)
    requires PollOutcome(answers, errors, polls, cancelled, noticeRaised, policy, r)
    ensures forall i | 0 <= i < |answers| - 1 ::
              && answers[i].status in {"queued", "running", "submitted", "processing"}
              && (answers[i].error.Some? ==> answers[i].retryable && ErrorsBefore(errors, i) < policy.maxRetries)
    ensures r.Ok? ==>
              && polls == |answers| > 0 && !cancelled && !noticeRaised
              && answers[polls - 1].status in {"succeeded", "completed"} && answers[polls - 1].result == Some(r.value)
    ensures polls == |answers| > 0 && !cancelled && !noticeRaised
            && answers[polls - 1].status in {"succeeded", "completed"} && answers[polls - 1].result.Some? ==>
              r.Ok?
    ensures polls == |answers| > 0 && !cancelled && !noticeRaised && policy.intervalMs >= 0
            && answers[polls - 1].status in {"queued", "running", "submitted", "processing"} ==>
              && r.Raised? && answers[polls - 1].error.Some?
              && (!answers[polls - 1].retryable || ErrorsBefore(errors, polls - 1) >= policy.maxRetries)
  {
    hide ErrorsBefore;
    if polls == |answers| > 0 {
      var last := answers[polls - 1];
      assert AllPollAgain(answers, errors, |answers|, policy.maxRetries) ==>
               PollsAgain(last, ErrorsBefore(errors, polls - 1), policy.maxRetries);
    }
    forall i | 0 <= i < |answers| - 1 ensures PollsAgain(answers[i], ErrorsBefore(errors, i), policy.maxRetries) {}
  }

  /** A finished job that was delivered again: one more skipped stage, and nothing else. */
  ghost predicate SkippedFrom(found: JobRecord, after: JobRecord) {
    && after == found.(trace := after.trace)
    && Outline(after.trace) == Outline(found.trace) + [Entry("terminal_noop", StageSkipped, None)]
  }

  function AnswerOf(r: Outcome<Submission>): WorkerProgram.SubmitAnswer {
    if r.Raised? then WorkerProgram.Refused
    else if r.value.result.Some? then WorkerProgram.Immediate
    else WorkerProgram.Accepted
  }

  /** The worker's private, mutable copy of a job record. */
  class Job {
    const jobId: string
    const request: RenderRequest
    const cacheKey: Option<string>
    const createdAt: int
    const cacheStatus: string
    const reusedExisting: bool
    var status: JobStatus
    var updatedAt: int
    var startedAt: Option<int>
    var finishedAt: Option<int>
    var error: Option<ErrorInfo>
    var result: Option<RenderResult>
    var trace: seq<Stage>

    constructor (record: JobRecord)
      ensures Snap() == record
    {
      jobId, request, cacheKey, createdAt :=
        record.jobId, record.request, record.cacheKey, record.createdAt;
      cacheStatus, reusedExisting := record.cacheStatus, record.reusedExisting;
      status, updatedAt, startedAt, finishedAt := record.status, record.updatedAt, record.startedAt, record.finishedAt;
      error, result, trace := record.error, record.result, record.trace;
    }

    function Snap(): JobRecord
      reads this
    {
      JobRecord(jobId, status, request, cacheKey, createdAt, updatedAt, startedAt, finishedAt,
                error, result, trace, cacheStatus, reusedExisting)
    }

    method ApplyDomainJob(entity: JobEntity)
      modifies this
      ensures Snap() == WithLife(old(Snap()), entity.Life())
    {
      status := entity.status;
      updatedAt := entity.updatedAt;
      startedAt := entity.startedAt;
      finishedAt := entity.finishedAt;
    }
  }

  /**
   The clock and every collaborator. An answer is arbitrary; the ghost fields record
   what was asked, and `local` is the state of the automaton after `log`.
   */
  class World {
    var clock: int
    const pollTime: nat                  // every poll takes at least this time
    ghost var log: seq<Action>
    ghost var local: Option<Local>
    ghost var stored: seq<JobRecord>
    ghost var faults: nat
    ghost var pollTimes: seq<int>
    ghost var pollErrors: seq<bool>
    ghost var cancelTimes: seq<int>
    ghost var retryReports: seq<int>
    ghost var answers: seq<PollResult>   // of the polls that did not raise
    ghost var refMissing: bool           // the asset store answered that the source asset is missing
    ghost var noticeRaised: bool         // the observer raised when told of a poll
    ghost var failureReports: seq<FailureReport>
    ghost var questions: seq<Question>
    ghost var raised: Option<string>     // the last exception a collaborator raised
    ghost var mimeType: string           // of the source asset, as the asset store answered
    ghost var image: nat                 // its content
    ghost var capabilities: nat          // the answer to the probe, known by a number
    ghost var entry: InFlightJob         // what the observer was told of the submission
    ghost var finished: JobRecord        // and of the completion
    ghost var puts: seq<Artifact>        // what the asset store stored
    ghost var refs: seq<AssetRef>        // the references it answered
    ghost var submission: Option<Submission>  // the pipeline's answer to the submission

    constructor (now: int, pollTime: nat)
      ensures Fresh() && clock == now && this.pollTime == pollTime
    {
      clock, this.pollTime := now, pollTime;
      log, stored, faults := [], [], 0;
      local := Some(Local.Start);
      pollTimes, pollErrors, cancelTimes, retryReports, failureReports := [], [], [], [], [];
      answers, noticeRaised, refMissing, puts, refs, submission := [], false, false, [], [], None;
      questions, mimeType, image, capabilities := [], "", 0, 0;
      raised := None;
      entry := *;
      finished := *;
    }

    /** Nothing has been asked yet. */
    ghost predicate Fresh()
      reads this
    {
      Valid() && log == [] && stored == [] && faults == 0 &&
      pollTimes == [] && pollErrors == [] && cancelTimes == [] && retryReports == [] && failureReports == [] &&
      answers == [] && !noticeRaised && !refMissing && puts == [] && refs == [] && submission == None
      && questions == []
    }

    ghost predicate Valid()
      reads `log, `local, `faults
    {
      && local == WorkerProgram.Run(log)
      && local.Some?
      && (faults == 0 ==> WorkerProgram.FaultFree(log))
    }

    ghost method Act(action: Action, fault: bool)
      requires Valid() && WorkerProgram.Step(local.value, action).Some?
      requires WorkerProgram.IsFault(local.value, action) ==> fault || faults > 0
      modifies `log, `local, `faults
      ensures Valid() && log == old(log) + [action]
      ensures local == WorkerProgram.Step(old(local).value, action)
      ensures faults == old(faults) + if fault then 1 else 0
    {
      WorkerProgram.RunSnoc(log, action);
      if !fault && faults == 0 {
        WorkerProgram.FaultFreeSnoc(log, action);
      }
      local := WorkerProgram.Step(local.value, action);
      log := log + [action];
      if fault {
        faults := faults + 1;
      }
    }

    ghost method Fault()
      requires Valid()
      modifies `faults
      ensures Valid() && faults == old(faults) + 1
    {
      faults := faults + 1;
    }

    method Now() returns (t: int)
      modifies `clock
      ensures t >= old(clock) && clock == t
    {
      assert clock >= clock;
      t :| t >= clock;
      clock := t;
    }

    method Sleep(milliseconds: int) returns (r: Outcome<()>)
      modifies `clock, `raised
      ensures raised == if r.Raised? then Some(r.message) else old(raised)
      ensures r.Raised? <==> milliseconds < 0
      ensures clock >= old(clock) + Max(0, milliseconds) * 1000
    {
      if milliseconds < 0 {
        r := Outcome.Raised("sleep length must be non-negative");
        Note(r);
        return;
      }
      Pass(milliseconds * 1000);
      return Ok(());
    }

    method Pass(time: nat)
      modifies `clock
      ensures clock >= old(clock) + time
    {
      assert clock + time >= clock + time;
      var t: int :| t >= clock + time;
      clock := t;
    }

    ghost method Note<T>(r: Outcome<T>)
      modifies `raised
      ensures raised == if r.Raised? then Some(r.message) else old(raised)
    {
      if r.Raised? {
        raised := Some(r.message);
      }
    }

    method GetJob(jobId: string) returns (r: Outcome<Option<JobRecord>>)
      requires Valid() && log == [] && local == Some(Local.Start)
      modifies `log, `local, `faults, `stored, `questions, `raised
      ensures raised == if r.Raised? then Some(r.message) else old(raised)
      ensures Valid() && questions == old(questions) + [JobAsked(jobId)]
      ensures r.Raised? ==> local == old(local) && faults > 0 && stored == old(stored)
      ensures r == Ok(None) ==> local == Some(Local.Aborted) && faults > 0 && stored == []
      ensures r.Ok? && r.value.Some? ==>
                && stored == [r.value.value]
                && local == WorkerProgram.Step(Local.Start, Action.Get(r.value))
                && faults == old(faults)
    {
      questions := questions + [JobAsked(jobId)];
      r := *;
      Note(r);
      if r.Ok? {
        Act(Action.Get(r.value), r.value == None);
        stored := if r.value.Some? then [r.value.value] else [];
      } else {
        Fault();
      }
    }

    method Update(job: Job, ghost open: Option<string>) returns (r: Outcome<()>)
      requires Valid() && Book(stored, job.Snap(), open)
      requires WorkerProgram.Step(local.value, Action.Write(job.Snap())).Some?
      requires WorkerProgram.Step(local.value, Action.WriteRaised).Some?
      requires WorkerProgram.IsFault(local.value, Action.Write(job.Snap())) ==> faults > 0
      modifies `log, `local, `faults, `stored, `raised
      ensures raised == if r.Raised? then Some(r.message) else old(raised)
      ensures Valid() && Book(stored, job.Snap(), open)
      ensures r.Ok? ==>
                && stored == old(stored) + [job.Snap()]
                && log == old(log) + [Action.Write(job.Snap())]
                && local == WorkerProgram.Step(old(local).value, Action.Write(job.Snap()))
                && faults == old(faults)
      ensures r.Raised? ==>
                && stored == old(stored)
                && log == old(log) + [Action.WriteRaised]
                && local == WorkerProgram.Step(old(local).value, Action.WriteRaised)
                && faults > 0
    {
      r := *;
      Note(r);
      if r.Ok? {
        BookWritten(stored, job.Snap(), open);
        Act(Action.Write(job.Snap()), false);
        stored := stored + [job.Snap()];
      } else {
        Act(Action.WriteRaised, true);
      }
    }

    /** The MIME type of the asset, if it is known. */
    method GetRef(assetId: string) returns (r: Outcome<Option<string>>)
      requires Valid()
      modifies `faults, `refMissing, `questions, `mimeType, `raised
      ensures raised == if r.Raised? then Some(r.message) else old(raised)
      ensures Valid() && refMissing == (r == Ok(None)) && questions == old(questions) + [RefAsked(assetId)]
      ensures r.Ok? && r.value.Some? ==> mimeType == r.value.value
      ensures r.Ok? && r.value.Some? ==> faults == old(faults)
      ensures !(r.Ok? && r.value.Some?) ==> faults > 0
    {
      r := *;
      Note(r);
      refMissing := r.Ok? && r.value == None;
      questions := questions + [RefAsked(assetId)];
      if r.Ok? && r.value.Some? {
        mimeType := r.value.value;
      }
      if !(r.Ok? && r.value.Some?) {
        Fault();
      }
    }

    method GetBytes(assetId: string) returns (r: Outcome<nat>)
      modifies `questions, `image, `raised
      ensures raised == if r.Raised? then Some(r.message) else old(raised)
      ensures questions == old(questions) + [BytesAsked(assetId)]
      ensures r.Ok? ==> image == r.value
    {
      r := *;
      Note(r);
      questions := questions + [BytesAsked(assetId)];
      if r.Ok? {
        image := r.value;
      }
    }

    method PutBytes(artifact: Artifact) returns (r: Outcome<AssetRef>)
      modifies `puts, `refs, `raised
      ensures raised == if r.Raised? then Some(r.message) else old(raised)
      ensures puts == if r.Ok? then old(puts) + [artifact] else old(puts)
      ensures refs == if r.Ok? then old(refs) + [r.value] else old(refs)
    {
      r := *;
      Note(r);
      if r.Ok? {
        puts := puts + [artifact];
        refs := refs + [r.value];
      }
    }

    method Probe() returns (r: Outcome<nat>)
      modifies `questions, `capabilities, `raised
      ensures raised == if r.Raised? then Some(r.message) else old(raised)
      ensures questions == old(questions) + [ProbeAsked]
      ensures r.Ok? ==> capabilities == r.value
    {
      r := *;
      Note(r);
      questions := questions + [ProbeAsked];
      if r.Ok? {
        capabilities := r.value;
      }
    }

    method Submit(context: PipelineContext) returns (r: Outcome<Submission>)
      requires Valid() && local.value.Live? && local.value.phase == WorkerProgram.UPDATES_BEFORE_SUBMIT
      modifies `log, `local, `faults, `submission, `questions, `raised
      ensures raised == if r.Raised? then Some(r.message) else old(raised)
      ensures Valid() && faults == old(faults) && questions == old(questions) + [RenderAsked(context)]
      ensures local == WorkerProgram.Step(old(local).value, Action.Submit(AnswerOf(r)))
      ensures submission == if r.Ok? then Some(r.value) else None
    {
      r := *;
      Note(r);
      Act(Action.Submit(AnswerOf(r)), false);
      questions := questions + [RenderAsked(context)];
      submission := if r.Ok? then Some(r.value) else None;
    }

    method Poll(submission: Submission) returns (r: Outcome<PollResult>)
      requires this.submission == Some(submission)
      modifies `clock, `pollTimes, `pollErrors, `answers, `raised
      ensures raised == if r.Raised? then Some(r.message) else old(raised)
      ensures clock >= old(clock) + pollTime
      ensures pollTimes == old(pollTimes) + [old(clock)]
      ensures answers == if r.Ok? then old(answers) + [r.value] else old(answers)
      ensures pollErrors == if r.Ok? then old(pollErrors) + [r.value.error.Some?] else old(pollErrors)
    {
      r := *;
      Note(r);
      pollTimes := pollTimes + [clock];
      if r.Ok? {
        pollErrors := pollErrors + [r.value.error.Some?];
        answers := answers + [r.value];
      }
      Pass(pollTime);
    }

    method Cancel(submission: Submission) returns (r: Outcome<()>)
      requires this.submission == Some(submission)
      modifies `cancelTimes, `raised
      ensures raised == if r.Raised? then Some(r.message) else old(raised)
      ensures cancelTimes == old(cancelTimes) + [clock]
    {
      r := *;
      Note(r);
      cancelTimes := cancelTimes + [clock];
    }

    method NotifyCapabilities(capabilities: nat) returns (r: Outcome<()>)
      modifies `questions, `raised
      ensures raised == if r.Raised? then Some(r.message) else old(raised)
      ensures questions == old(questions) + [CapabilitiesTold(capabilities)]
    {
      r := *;
      Note(r);
      questions := questions + [CapabilitiesTold(capabilities)];
    }

    method NotifySubmitted(entry: InFlightJob) returns (r: Outcome<()>)
      modifies `questions, `entry, `raised
      ensures raised == if r.Raised? then Some(r.message) else old(raised)
      ensures questions == old(questions) + [SubmittedTold(entry)] && this.entry == entry
    {
      r := *;
      Note(r);
      questions := questions + [SubmittedTold(entry)];
      this.entry := entry;
    }

    method NotifyFinished(job: JobRecord) returns (r: Outcome<()>)
      modifies `questions, `finished, `raised
      ensures raised == if r.Raised? then Some(r.message) else old(raised)
      ensures questions == old(questions) + [FinishedTold(job)] && finished == job
    {
      r := *;
      Note(r);
      questions := questions + [FinishedTold(job)];
      finished := job;
    }

    method NotifyPolled(retryCount: int) returns (r: Outcome<()>)
      modifies `retryReports, `noticeRaised, `raised
      ensures raised == if r.Raised? then Some(r.message) else old(raised)
      ensures retryReports == old(retryReports) + [retryCount]
      ensures noticeRaised == (old(noticeRaised) || r.Raised?)
    {
      r := *;
      Note(r);
      noticeRaised := noticeRaised || r.Raised?;
      retryReports := retryReports + [retryCount];
    }

    method NotifyFailed(jobId: string, error: string, stage: Option<string>) returns (r: Outcome<()>)
      modifies `failureReports, `raised
      ensures raised == if r.Raised? then Some(r.message) else old(raised)
      ensures failureReports == old(failureReports) + [FailureReport(jobId, error, stage)]
    {
      r := *;
      Note(r);
      failureReports := failureReports + [FailureReport(jobId, error, stage)];
    }
  }

  // ---- The use case ----

  /** The references to the artifacts that are debug images, or to the others, in order. */
  ghost function Placed(artifacts: seq<Artifact>, refs: seq<AssetRef>, debug: bool): seq<AssetRef>
    requires |refs| == |artifacts|
  {
    if artifacts == [] then []
    else
      var n := |artifacts| - 1;
      Placed(artifacts[..n], refs[..n], debug) + if (artifacts[n].kind == Debug) == debug then [refs[n]] else []
  }

  /** The result lists the reference to every artifact once, in order: debug images apart from the others. */
  ghost predicate Stores(result: RenderResult, output: Output, refs: seq<AssetRef>) {
    && |refs| == |output.artifacts|
    && result.images == Placed(output.artifacts, refs, false)
    && result.debugImages == Placed(output.artifacts, refs, true)
    && result.metrics == output.metrics && result.warnings == output.warnings
  }

  /** How many artifacts before `i` go into the same list. */
  function Rank(artifacts: seq<Artifact>, i: nat, debug: bool): nat
    requires i <= |artifacts|
  {
    if i == 0 then 0
    else Rank(artifacts, i - 1, debug) + if (artifacts[i - 1].kind == Debug) == debug then 1 else 0
  }

  lemma {:induction false} RankOfPrefix(artifacts: seq<Artifact>, n: nat, i: nat, debug: bool)
    requires i <= n <= |artifacts|
    ensures Rank(artifacts[..n], i, debug) == Rank(artifacts, i, debug)
    ensures Rank(artifacts, i, debug) <= Rank(artifacts, n, debug)
    decreases n
  {
    if i < n {
      RankOfPrefix(artifacts, n - 1, i, debug);
      RankOfPrefixStep(artifacts, n, i, debug);
    } else if i > 0 {
      RankOfPrefix(artifacts, n - 1, i - 1, debug);
      RankOfPrefixStep(artifacts, n, i - 1, debug);
    }
  }

  lemma {:induction false} RankOfPrefixStep(artifacts: seq<Artifact>, n: nat, i: nat, debug: bool)
    requires i <= n <= |artifacts|
    ensures Rank(artifacts[..n], i, debug) == Rank(artifacts, i, debug)
    decreases i
  {
    if i > 0 {
      RankOfPrefixStep(artifacts, n, i - 1, debug);
    }
  }

  lemma {:induction false} PlacedLengths(artifacts: seq<Artifact>, refs: seq<AssetRef>)
    requires |refs| == |artifacts|
    ensures |Placed(artifacts, refs, true)| == Rank(artifacts, |artifacts|, true)
    ensures |Placed(artifacts, refs, false)| == Rank(artifacts, |artifacts|, false)
    ensures |Placed(artifacts, refs, true)| + |Placed(artifacts, refs, false)| == |artifacts|
    decreases |artifacts|
  {
    if artifacts != [] {
      var n := |artifacts| - 1;
      RankOfPrefix(artifacts, n, n, true);
      RankOfPrefix(artifacts, n, n, false);
      PlacedLengths(artifacts[..n], refs[..n]);
    }
  }

  /** Where the reference to the `i`-th artifact is, and that the two lists hold nothing else. */
  lemma {:induction false} PlacedAt(artifacts: seq<Artifact>, refs: seq<AssetRef>, i: nat)
    requires |refs| == |artifacts| && i < |artifacts|
    ensures |Placed(artifacts, refs, true)| + |Placed(artifacts, refs, false)| == |artifacts|
    ensures var debug := artifacts[i].kind == Debug;
            && Rank(artifacts, i, debug) < |Placed(artifacts, refs, debug)|
            && Placed(artifacts, refs, debug)[Rank(artifacts, i, debug)] == refs[i]
    decreases |artifacts|
  {
    var n, debug := |artifacts| - 1, artifacts[i].kind == Debug;
    PlacedLengths(artifacts, refs);
    PlacedLengths(artifacts[..n], refs[..n]);
    RankOfPrefix(artifacts, n, i, debug);
    if i < n {
      PlacedAt(artifacts[..n], refs[..n], i);
      hide Rank;
    }
  }

  /** One more artifact and its reference go to the end of one of the lists. */
  lemma PlacedOneMore(artifacts: seq<Artifact>, refs: seq<AssetRef>, artifact: Artifact, ref: AssetRef, debug: bool)
    requires |refs| == |artifacts|
    ensures Placed(artifacts + [artifact], refs + [ref], debug)
            == Placed(artifacts, refs, debug) + if (artifact.kind == Debug) == debug then [ref] else []
  {
    assert (artifacts + [artifact])[..|artifacts|] == artifacts && (refs + [ref])[..|refs|] == refs;
  }

  /** The job when an exception left the `try`, and when its running stage was closed. */
  datatype Interruption = Interruption(
    trace: seq<Stage>,
    status: JobStatus,
    message: string,
    cause: Option<string>,  // the last exception a collaborator had raised
    at: int,
    recordedAt: int
  )

  /** The trace the exception handler stores. */
  function HandledTrace(i: Interruption): seq<Stage> {
    Recorded(Interrupted(i.trace, i.at, i.message), "failed", StageFailed, i.recordedAt, Some(i.message))
  }

  /**
   The trace the exception handler stores, entry by entry: an open entry, which is the last
   one, failed with the exception's message, all others as they were, and one more.
   */
  lemma HandledTraceMeans(i: Interruption)
    requires TailOpen(i.trace)
    ensures var t, n := HandledTrace(i), |i.trace|;
            && |t| == n + 1
            && t[n] == Stage("failed", StageFailed, i.recordedAt, Some(i.recordedAt), Some(i.message))
            && forall k | 0 <= k < n ::
                 t[k] == if i.trace[k].status == StageRunning && i.trace[k].finishedAt == None
                         then Stage(i.trace[k].name, StageFailed, i.trace[k].startedAt, Some(i.at), Some(i.message))
                         else i.trace[k]
  {
    LastOpenIsLast(i.trace, None);
  }

  /** The stages of an execution that ends well. */
  function SuccessStages(polled: bool): seq<string> {
    CLAIMING + AttemptStages(polled)
  }

  function ReportOf(i: Interruption): Option<string> {
    LastFailedName(Interrupted(i.trace, i.at, i.message))
  }

  class ProcessJobUseCase {
    const world: World
    const pollIntervalMs: int
    const jobTtlMs: int
    const maxRetries: int
    ghost var deadline: int
    ghost var entered: bool
    ghost var polled: Option<Outcome<Output>>  // how the polling ended
    ghost var interruption: Interruption

    constructor (world: World, pollIntervalMs: int, jobTtlMs: int, maxRetries: int)
      ensures this.world == world && this.pollIntervalMs == pollIntervalMs
      ensures this.jobTtlMs == jobTtlMs && this.maxRetries == maxRetries && !entered && polled == None
    {
      this.world, this.pollIntervalMs, this.jobTtlMs, this.maxRetries := world, pollIntervalMs, jobTtlMs, maxRetries;
      entered, polled := false, None;
    }

    // -- Stages --

    function Polling(): Policy {
      Policy(jobTtlMs, pollIntervalMs, world.pollTime, maxRetries)
    }

    method StartStage(job: Job, name: string)
      requires Book(world.stored, job.Snap(), None)
      modifies job`trace, world`clock
      ensures Book(world.stored, job.Snap(), Some(name))
      ensures world.clock >= old(world.clock)
      ensures job.trace == Opened(old(job.trace), name, world.clock)
    {
      hide Book;
      ghost var before := job.Snap();
      var now := world.Now();
      job.trace := job.trace + [Stage(name, StageRunning, now, None, None)];
      BookOpened(world.stored, before, name, now);
      assert job.Snap() == before.(trace := Opened(before.trace, name, now));
    }

    method FinishStage(job: Job, name: string, status: StageStatus, error: Option<string>)
      requires status != StageRunning
      requires Book(world.stored, job.Snap(), Some(name))
      modifies job`trace, world`clock
      ensures Book(world.stored, job.Snap(), None)
      ensures world.clock >= old(world.clock)
      ensures job.trace == Finished(old(job.trace), name, status, world.clock, error)
    {
      hide Book, Ledgered, Ledger, OpenIs;
      ghost var before := job.Snap();
      var now := world.Now();
      var i := |job.trace|;
      assert job.trace[..i] == job.trace;
      while i > 0
        invariant 0 <= i <= |job.trace|
        invariant job.Snap() == before
        invariant world.clock == now
        invariant LastOpen(before.trace, Some(name)) == LastOpen(before.trace[..i], Some(name))
      {
        i := i - 1;
        assert before.trace[..i + 1][..i] == before.trace[..i];
        var stage := job.trace[i];
        if stage.name == name && stage.status == StageRunning && stage.finishedAt == None {
          job.trace := job.trace[i := stage.(status := status, finishedAt := Some(now), error := error)];
          BookFinished(world.stored, before, name, status, now, error);
          assert job.Snap() == before.(trace := Finished(before.trace, name, status, now, error));
          return;
        }
        assert LastOpen(before.trace[..i + 1], Some(name)) == LastOpen(before.trace[..i], Some(name));
      }
      now := world.Now();
      job.trace := job.trace + [Stage(name, status, now, Some(now), error)];
      BookFinished(world.stored, before, name, status, now, error);
      assert job.Snap() == before.(trace := Finished(before.trace, name, status, now, error));
    }

    method FailRunningStage(job: Job, error: string, ghost open: Option<string>)
      requires Book(world.stored, job.Snap(), open)
      modifies job`trace, world`clock
      ensures Book(world.stored, job.Snap(), None)
      ensures world.clock >= old(world.clock)
      ensures job.trace == Interrupted(old(job.trace), world.clock, error)
    {
      hide Book, Ledgered, Ledger, OpenIs;
      ghost var before := job.Snap();
      var now := world.Now();
      var i := |job.trace|;
      assert job.trace[..i] == job.trace;
      while i > 0
        invariant 0 <= i <= |job.trace|
        invariant job.Snap() == before
        invariant world.clock == now
        invariant LastOpen(before.trace, None) == LastOpen(before.trace[..i], None)
      {
        i := i - 1;
        assert before.trace[..i + 1][..i] == before.trace[..i];
        var stage := job.trace[i];
        if stage.status == StageRunning && stage.finishedAt == None {
          job.trace := job.trace[i := stage.(status := StageFailed, finishedAt := Some(now), error := Some(error))];
          break;
        }
        assert LastOpen(before.trace[..i + 1], None) == LastOpen(before.trace[..i], None);
      }
      BookInterrupted(world.stored, before, open, now, error);
      assert job.Snap() == before.(trace := Interrupted(before.trace, now, error));
    }

    method RecordStage(job: Job, name: string, status: StageStatus, error: Option<string>)
      requires status != StageRunning
      requires Book(world.stored, job.Snap(), None)
      modifies job`trace, world`clock
      ensures Book(world.stored, job.Snap(), None)
      ensures world.clock >= old(world.clock)
      ensures job.trace == Recorded(old(job.trace), name, status, world.clock, error)
    {
      hide Book;
      ghost var before := job.Snap();
      var now := world.Now();
      job.trace := job.trace + [Stage(name, status, now, Some(now), error)];
      BookRecorded(world.stored, before, name, status, now, error);
      assert job.Snap() == before.(trace := Recorded(before.trace, name, status, now, error));
    }

    method LastFailedStageName(job: Job) returns (name: Option<string>)
      ensures name == LastFailedName(job.trace)
    {
      var i := |job.trace|;
      assert job.trace[..i] == job.trace;
      while i > 0
        invariant 0 <= i <= |job.trace|
        invariant LastFailedName(job.trace) == LastFailedName(job.trace[..i])
      {
        i := i - 1;
        assert job.trace[..i + 1][..i] == job.trace[..i];
        if job.trace[i].status == StageFailed {
          return Some(job.trace[i].name);
        }
      }
      return None;
    }

    // -- Execution --

    /** Inside the `try`: RUNNING is stored, nothing has raised yet. */
    ghost predicate Ready(job: Job, found: JobRecord, from: int, phase: nat, open: Option<string>)
      reads job, world`log, world`local, world`faults, world`stored, world`clock
    {
      && world.Valid() && world.local == Some(Local.Live(found, phase))
      && Book(world.stored, job.Snap(), open) && |world.stored| > 0 && world.stored[0] == found
      && job.status == Running && Timed(job.Snap(), from, world.clock)
      && job.jobId == found.jobId && job.cacheKey == found.cacheKey && job.request == found.request
      && job.error == found.error && job.result == found.result
    }

    /** An exception left the `try`, or the code after the completed job was stored. */
    ghost predicate Cut(job: Job, found: JobRecord, from: int, open: Option<string>)
      reads job, world`log, world`local, world`faults, world`stored, world`clock
    {
      && world.Valid() && world.local.Some?
      && Book(world.stored, job.Snap(), open) && |world.stored| > 0 && world.stored[0] == found
      && Timed(job.Snap(), from, world.clock)
      && job.jobId == found.jobId && job.cacheKey == found.cacheKey
      && (job.status == Running || job.status == Succeeded)
      && job.error == found.error && (job.status == Running ==> job.result == found.result)
      && Left(world.local.value, found, job.status == Succeeded)
    }

    /** The exception is one that a collaborator has just raised, or the one that ended the polling. */
    ghost predicate Caused(message: string)
      reads this`polled, world`raised
    {
      world.raised == Some(message) || polled == Some(Outcome.Raised(message))
    }

    /** A write or the submission has raised, or something else may have. */
    ghost predicate Left(local: Local, found: JobRecord, completed: bool) {
      || local == Local.Handling(found, completed)
      || (!completed && local.Live? && local.copy == found && WorkerProgram.MayInterrupt(local.phase))
      || (completed && local == Local.Settled(found, Succeeded, true))
    }

    lemma CutMeans(job: Job, found: JobRecord, from: int, open: Option<string>)
      requires Cut(job, found, from, open)
      ensures world.Valid() && Ledgered(world.stored) && |world.stored| > 0 && world.stored[0] == found
      ensures Timed(job.Snap(), from, world.clock) && job.status in {Running, Succeeded} && job.error == found.error
      ensures Closed(found.trace) ==> TailOpen(job.trace)
      ensures job.status == Succeeded && found.createdAt <= from ==> Chronological(job.Snap())
    {
      BookIsLedgered(world.stored, job.Snap(), open);
      BookTailOpen(world.stored, job.Snap(), open);
      assert job.createdAt == found.createdAt by { BookKeepsCreation(world.stored, job.Snap(), open); }
      hide Book, Ledgered;
    }

    /** An exception leaves `execute`. */
    ghost predicate MayRaise()
      reads world`log, world`local, world`faults
    {
      && world.Valid()
      && WorkerProgram.Step(world.local.value, Action.Raise) == Some(Local.Raised)
      && (WorkerProgram.IsFault(world.local.value, Action.Raise) ==> world.faults > 0)
    }

    ghost predicate MayReturn()
      reads world`log, world`local, world`faults
    {
      world.Valid() && WorkerProgram.Step(world.local.value, Action.Return) == Some(Local.Returned)
    }

    /** Before RUNNING is stored. */
    ghost predicate BeforeStart(job: Job, found: JobRecord, marked: bool)
      reads job, world`log, world`local, world`faults, world`stored, world`clock
    {
      && world.Valid() && world.local == Some(if marked then Local.Marked(found) else Local.Claimed(found))
      && Book(world.stored, job.Snap(), None) && |world.stored| > 0 && world.stored[0] == found
      && LifeOf(job.Snap()) == LifeOf(found) && !found.status.Terminal()
      && job.jobId == found.jobId && job.cacheKey == found.cacheKey && job.request == found.request
      && job.error == found.error && job.result == found.result
      && Unstarted(world.stored, found.status)
    }

    /** An exception before RUNNING was stored: every stored record has the status that was read. */
    ghost predicate StoppedEarly(found: JobRecord)
      reads world`log, world`local, world`faults, world`stored
    {
      && MayRaise() && |world.stored| > 0 && world.stored[0] == found
      && Unstarted(world.stored, found.status) && Ledgered(world.stored)
    }

    /** Lines 59-61: the claim is recorded and stored with the status that was read. */
    method MarkClaimed(job: Job, ghost found: JobRecord) returns (r: Outcome<()>)
      requires BeforeStart(job, found, false)
      modifies job`trace, world`clock, world`log, world`local, world`faults, world`raised, world`stored
      ensures world.clock >= old(world.clock)
      ensures r.Ok? ==> Outline(job.trace) == old(Outline(job.trace)) + Done(["worker_claimed"])
      ensures r.Ok? ==> BeforeStart(job, found, true)
      ensures r.Raised? ==> StoppedEarly(found)
    {
      hide Book, Ledgered, Unstarted, Outline;
      ghost var was := world.stored;
      ghost var before := job.trace;
      StartStage(job, "worker_claimed");
      ghost var startedAt := world.clock;
      FinishStage(job, "worker_claimed", StageSucceeded, None);
      FinishedOutline(before, "worker_claimed", startedAt, StageSucceeded, world.clock, None);
      UnstartedWritten(was, job.Snap());
      r := world.Update(job, None);
      BookIsLedgered(world.stored, job.Snap(), None);
    }

    /** The asset stage is stored as failed, unless that write raises. */
    ghost predicate MissingStored(before: seq<JobRecord>, after: seq<JobRecord>, log: seq<Action>, trace: seq<Stage>) {
      || (log != [] && log[|log| - 1] == Action.WriteRaised && after == before)
      || (|after| == |before| + 1 && after[..|before|] == before
          && Outline(after[|before|].trace)
             == Outline(trace) + [Entry("asset_ref_loaded", StageFailed, Some(MISSING_ASSET))])
    }

    method MissingRef(job: Job, ghost found: JobRecord, ghost before: seq<Stage>, ghost startedAt: int)
      returns (r: Outcome<()>)
      requires world.Valid() && world.local == Some(Local.Marked(found)) && world.faults > 0
      requires Book(world.stored, job.Snap(), Some("asset_ref_loaded")) && |world.stored| > 0
               && world.stored[0] == found
      requires job.status == found.status && job.jobId == found.jobId && job.cacheKey == found.cacheKey
      requires Unstarted(world.stored, found.status) && job.trace == Opened(before, "asset_ref_loaded", startedAt)
      modifies job`trace, world`clock, world`log, world`local, world`faults, world`raised, world`stored
      ensures world.clock >= old(world.clock) && r.Raised?
      ensures MissingStored(old(world.stored), world.stored, world.log, before)
      ensures StoppedEarly(found)
    {
      hide Book, Ledgered, Unstarted, Finished, Opened, Outline;
      FinishStage(job, "asset_ref_loaded", StageFailed, Some(MISSING_ASSET));
      FinishedOutline(before, "asset_ref_loaded", startedAt, StageFailed, world.clock, Some(MISSING_ASSET));
      UnstartedWritten(world.stored, job.Snap());
      r := world.Update(job, None);
      BookIsLedgered(world.stored, job.Snap(), None);
      return if r.Raised? then r else Outcome.Raised(MISSING_ASSET);
    }

    /** Lines 63-69: the source asset is looked up. */
    method LoadRef(job: Job, ghost found: JobRecord) returns (r: Outcome<string>)
      requires BeforeStart(job, found, true)
      modifies job`trace, world`clock, world`log, world`local, world`faults, world`raised, world`stored,
               world`refMissing, world`questions, world`mimeType
      ensures world.clock >= old(world.clock)
      ensures world.questions == old(world.questions) + [RefAsked(found.request.sourceAssetId)]
      ensures r.Ok? ==> world.mimeType == r.value
      ensures r.Ok? ==> Outline(job.trace) == old(Outline(job.trace)) + Done(["asset_ref_loaded"])
      ensures r.Ok? ==> !world.refMissing && world.stored == old(world.stored)
      ensures r.Raised? && !world.refMissing ==> world.stored == old(world.stored)
      ensures world.refMissing ==>
                  r.Raised? && MissingStored(old(world.stored), world.stored, world.log, old(job.trace))
      ensures r.Ok? ==> BeforeStart(job, found, true)
      ensures r.Raised? ==> StoppedEarly(found)
    {
      hide Book, Ledgered, Unstarted, Outline, MissingStored, Opened, Finished;
      BookIsLedgered(world.stored, job.Snap(), None);
      ghost var before := job.trace;
      StartStage(job, "asset_ref_loaded");
      ghost var startedAt := world.clock;
      var ref := world.GetRef(job.request.sourceAssetId);
      if ref.Raised? {
        return Outcome.Raised(ref.message);
      }
      if ref.value == None {
        var missing := MissingRef(job, found, before, startedAt);
        return Outcome.Raised(missing.message);
      }
      FinishStage(job, "asset_ref_loaded", StageSucceeded, None);
      FinishedOutline(before, "asset_ref_loaded", startedAt, StageSucceeded, world.clock, None);
      return Ok(ref.value.value);
    }

    /** Lines 71-73: the domain transition. */
    method MarkRunning(job: Job, ghost found: JobRecord) returns (r: Outcome<()>)
      requires BeforeStart(job, found, true)
      modifies job, world`clock
      ensures world.clock >= old(world.clock) && job.trace == old(job.trace)
      ensures r.Ok? <==> found.status == Queued
      ensures r.Ok? ==>
                && job.status == Running && Timed(job.Snap(), old(world.clock), world.clock)
                && Book(world.stored, job.Snap(), None)
                && job.error == found.error && job.result == found.result
    {
      hide Book, Unstarted;
      var entity := new JobEntity(job.jobId, LifeOf(job.Snap()));
      var now := world.Now();
      r := entity.Start(now);
      if r.Raised? {
        return;
      }
      ghost var before := job.Snap();
      job.ApplyDomainJob(entity);
      BookSameTrace(world.stored, before, None, job.Snap());
    }

    /** Lines 71-74: the domain transition, then RUNNING is stored. */
    method StartJob(job: Job, ghost found: JobRecord) returns (r: Outcome<()>)
      requires BeforeStart(job, found, true)
      modifies job, world`clock, world`log, world`local, world`faults, world`raised, world`stored
      ensures world.clock >= old(world.clock)
      ensures job.trace == old(job.trace)
      ensures r.Ok? ==> found.status == Queued && Ready(job, found, old(world.clock), 0, None)
      ensures r.Raised? ==> StoppedEarly(found)
    {
      hide Book, Ledgered, Unstarted, Timed;
      BookIsLedgered(world.stored, job.Snap(), None);
      r := MarkRunning(job, found);
      if r.Raised? {
        return;
      }
      r := world.Update(job, None);
    }

    method Claim(job: Job, ghost found: JobRecord) returns (r: Outcome<string>)
      requires world.Valid() && world.local == Some(Local.Claimed(found))
      requires world.stored == [found] && job.Snap() == found && !found.status.Terminal()
      modifies job, world`clock, world`log, world`local, world`faults, world`raised, world`stored, world`refMissing,
               world`questions, world`mimeType
      ensures world.clock >= old(world.clock)
      ensures Asked(old(world.questions), world.questions, [RefAsked(found.request.sourceAssetId)])
      ensures r.Ok? ==> world.questions == old(world.questions) + [RefAsked(found.request.sourceAssetId)]
      ensures r.Ok? ==> world.mimeType == r.value
      ensures r.Ok? ==> Outline(job.trace) == old(Outline(job.trace)) + Done(CLAIMING)
      ensures r.Ok? ==> found.status == Queued && Ready(job, found, old(world.clock), 0, None)
      ensures r.Raised? ==> StoppedEarly(found)
    {
      BookStart(found);
      hide Book, Outline;
      DoneConcat(["worker_claimed"], ["asset_ref_loaded"]);
      assert CLAIMING == ["worker_claimed"] + ["asset_ref_loaded"];
      var u := MarkClaimed(job, found);
      if u.Raised? { return Outcome.Raised(u.message); }
      r := LoadRef(job, found);
      if r.Raised? { return; }
      u := StartJob(job, found);
      if u.Raised? { return Outcome.Raised(u.message); }
    }

    lemma ReadyMeans(job: Job, found: JobRecord, from: int, phase: nat, open: Option<string>)
      requires Ready(job, found, from, phase, open)
      ensures job.jobId == found.jobId && job.request == found.request && job.status == Running
    {
    }

    lemma ReadyMayBeCut(job: Job, found: JobRecord, from: int, phase: nat, open: Option<string>)
      requires Ready(job, found, from, phase, open) && WorkerProgram.MayInterrupt(phase)
      ensures Cut(job, found, from, open)
    {
      hide Book, Timed;
    }

    /** A stage is started and stored. */
    method OpenStage(job: Job, name: string, ghost found: JobRecord, ghost from: int, ghost phase: nat)
      returns (r: Outcome<()>, ghost startedAt: int)
      requires Ready(job, found, from, phase, None)
      requires phase != WorkerProgram.UPDATES_BEFORE_SUBMIT && phase < WorkerProgram.LAST_PHASE
      modifies job`trace, world`clock, world`log, world`local, world`faults, world`raised, world`stored
      ensures world.clock >= old(world.clock) && job.trace == Opened(old(job.trace), name, startedAt)
      ensures r.Ok? ==> Ready(job, found, from, phase + 1, Some(name))
      ensures r.Raised? ==> Cut(job, found, from, Some(name)) && Caused(r.message)
    {
      hide Book, Ledgered, Opened;
      StartStage(job, name);
      startedAt := world.clock;
      r := world.Update(job, Some(name));
    }

    /** It is finished. */
    method CloseStage(job: Job, name: string, ghost found: JobRecord, ghost from: int, ghost phase: nat,
                      ghost before: seq<Stage>, ghost startedAt: int)
      requires Ready(job, found, from, phase, Some(name)) && job.trace == Opened(before, name, startedAt)
      modifies job`trace, world`clock
      ensures world.clock >= old(world.clock)
      ensures Ready(job, found, from, phase, None) && Outline(job.trace) == Outline(before) + Done([name])
    {
      hide Book, Ledgered, Opened, Finished, Outline;
      FinishStage(job, name, StageSucceeded, None);
      FinishedOutline(before, name, startedAt, StageSucceeded, world.clock, None);
    }

    method StoreUpdate(job: Job, ghost found: JobRecord, ghost from: int, ghost phase: nat) returns (r: Outcome<()>)
      requires Ready(job, found, from, phase, None)
      requires phase != WorkerProgram.UPDATES_BEFORE_SUBMIT && phase < WorkerProgram.LAST_PHASE
      modifies world`log, world`local, world`faults, world`raised, world`stored
      ensures r.Ok? ==> Ready(job, found, from, phase + 1, None)
      ensures r.Raised? ==> Cut(job, found, from, None) && Caused(r.message)
    {
      hide Book, Ledgered;
      r := world.Update(job, None);
    }

    method Probe(job: Job, ghost found: JobRecord, ghost from: int) returns (r: Outcome<()>, ghost open: Option<string>)
      requires Ready(job, found, from, 0, None)
      modifies job`trace, world`clock, world`log, world`local, world`faults, world`raised, world`stored,
               world`questions, world`capabilities
      ensures world.clock >= old(world.clock)
      ensures Asked(old(world.questions), world.questions, ProbeTalk(world.capabilities))
      ensures r.Ok? ==> world.questions == old(world.questions) + ProbeTalk(world.capabilities)
      ensures r.Ok? ==> Outline(job.trace) == old(Outline(job.trace)) + Done(["ml_probe"])
      ensures r.Ok? ==> Ready(job, found, from, 2, None)
      ensures r.Raised? ==> Cut(job, found, from, open) && Caused(r.message)
    {
      hide Ready, Cut, Opened, Outline, Done;
      ghost var before, startedAt := job.trace, 0;
      open := Some("ml_probe");
      r, startedAt := OpenStage(job, "ml_probe", found, from, 0);
      if r.Raised? { return; }
      ReadyMayBeCut(job, found, from, 1, open);
      var capabilities := world.Probe();
      if capabilities.Raised? { return Outcome.Raised(capabilities.message), open; }
      r := world.NotifyCapabilities(capabilities.value);
      if r.Raised? { return; }
      CloseStage(job, "ml_probe", found, from, 1, before, startedAt);
      open := None;
      r := StoreUpdate(job, found, from, 1);
    }

    method LoadBytes(job: Job, ghost found: JobRecord, ghost from: int)
      returns (r: Outcome<nat>, ghost open: Option<string>)
      requires Ready(job, found, from, 2, None)
      modifies job`trace, world`clock, world`log, world`local, world`faults, world`raised, world`stored,
               world`questions, world`image
      ensures world.clock >= old(world.clock)
      ensures Asked(old(world.questions), world.questions, [BytesAsked(found.request.sourceAssetId)])
      ensures r.Ok? ==> world.questions == old(world.questions) + [BytesAsked(found.request.sourceAssetId)]
      ensures r.Ok? ==> world.image == r.value
      ensures r.Ok? ==> Outline(job.trace) == old(Outline(job.trace)) + Done(["asset_bytes_loaded"])
      ensures r.Ok? ==> Ready(job, found, from, 4, None)
      ensures r.Raised? ==> Cut(job, found, from, open) && Caused(r.message)
    {
      hide Ready, Cut, Opened, Outline, Done;
      ghost var before, startedAt := job.trace, 0;
      open := Some("asset_bytes_loaded");
      assert job.request == found.request by { ReadyMeans(job, found, from, 2, None); }
      var u;
      u, startedAt := OpenStage(job, "asset_bytes_loaded", found, from, 2);
      if u.Raised? { return Outcome.Raised(u.message), open; }
      ReadyMayBeCut(job, found, from, 3, open);
      r := world.GetBytes(job.request.sourceAssetId);
      if r.Raised? { return; }
      CloseStage(job, "asset_bytes_loaded", found, from, 3, before, startedAt);
      open := None;
      u := StoreUpdate(job, found, from, 3);
      if u.Raised? { return Outcome.Raised(u.message), open; }
    }

    function PhaseAfter(submission: Submission): nat {
      if submission.result.Some? then WorkerProgram.RENDERED else WorkerProgram.SUBMITTED
    }

    method Send(job: Job, context: PipelineContext, ghost found: JobRecord, ghost from: int,
                ghost open: Option<string>)
      returns (r: Outcome<Submission>)
      requires Ready(job, found, from, WorkerProgram.UPDATES_BEFORE_SUBMIT, open)
      modifies world`log, world`local, world`faults, world`raised, world`submission, world`questions
      ensures world.questions == old(world.questions) + [RenderAsked(context)]
      ensures r.Ok? ==> Ready(job, found, from, PhaseAfter(r.value), open) && world.submission == Some(r.value)
      ensures r.Raised? ==> Cut(job, found, from, open) && Caused(r.message)
    {
      hide Book, Timed;
      r := world.Submit(context);
    }

    /** The two clock readings of the in-flight entry. */
    method StartClock(job: Job, ghost found: JobRecord, ghost from: int, ghost phase: nat)
      returns (submitStartedAt: int, now: int)
      requires Ready(job, found, from, phase, None)
      modifies world`clock
      ensures Ready(job, found, from, phase, None) && now == world.clock >= submitStartedAt >= old(world.clock)
    {
      hide Book;
      submitStartedAt := world.Now();
      now := world.Now();
    }

    method SubmitRender(job: Job, mimeType: string, image: nat, ghost found: JobRecord, ghost from: int)
      returns (r: Outcome<Submission>, deadlineAt: int, ghost open: Option<string>)
      requires Ready(job, found, from, 4, None)
      modifies this`deadline, job`trace, world`clock, world`log, world`local, world`faults, world`raised,
               world`stored, world`submission, world`questions, world`entry
      ensures world.clock >= old(world.clock)
      ensures Asked(old(world.questions), world.questions, SubmitTalk(found, image, mimeType, world.entry))
      ensures r.Ok? ==> world.questions == old(world.questions) + SubmitTalk(found, image, mimeType, world.entry)
      ensures r.Ok? ==> Announces(world.entry, found, r.value, deadlineAt)
      ensures r.Ok? ==> Outline(job.trace) == old(Outline(job.trace)) + Done(["ml_submit"])
      ensures r.Ok? ==> Ready(job, found, from, PhaseAfter(r.value), None) && world.submission == Some(r.value)
      ensures r.Ok? ==> deadlineAt == deadline == world.clock + jobTtlMs * 1000
      ensures r.Raised? ==> Cut(job, found, from, open) && Caused(r.message)
    {
      hide Ready, Cut, Opened, Outline, Done;
      deadlineAt := 0;
      ghost var before, startedAt := job.trace, 0;
      open := Some("ml_submit");
      ReadyMeans(job, found, from, 4, None);
      var context := PipelineContext(job.jobId, job.request, image, mimeType);
      var u;
      u, startedAt := OpenStage(job, "ml_submit", found, from, 4);
      if u.Raised? { return Outcome.Raised(u.message), deadlineAt, open; }
      r := Send(job, context, found, from, open);
      if r.Raised? { return; }
      CloseStage(job, "ml_submit", found, from, PhaseAfter(r.value), before, startedAt);
      open := None;
      var submitStartedAt, now := StartClock(job, found, from, PhaseAfter(r.value));
      deadlineAt := now + jobTtlMs * 1000;
      deadline := deadlineAt;
      ReadyMayBeCut(job, found, from, PhaseAfter(r.value), None);
      var submission := r.value;
      u := world.NotifySubmitted(InFlight.InFlightJob(job.jobId, submission.mode, submission.status,
                                                      submission.coreJobId, submission.requestId,
                                                      Some(submitStartedAt), None, Some(deadlineAt), 0, None));
      if u.Raised? { return Outcome.Raised(u.message), deadlineAt, None; }
    }

    /** Lines 139-149 and 153-157: what an answer makes of the loop; without a verdict the job is polled again. */
    method Judge(answer: PollResult, pollRetries: int, ghost answers: seq<PollResult>, ghost errors: seq<bool>)
      returns (verdict: Option<Outcome<Output>>)
      requires StillPolling(answers, errors, maxRetries)
      requires |answers| == |errors| && pollRetries == ErrorsBefore(errors, |errors|)
      ensures verdict.Some? ==>
                PollOutcome(answers + [answer], errors + [answer.error.Some?], |answers| + 1, false, false, Polling(),
                            verdict.value)
      ensures verdict.None? ==>
                && StillPolling(answers + [answer], errors + [answer.error.Some?], maxRetries)
                && (answer.error.Some? ==> pollRetries < maxRetries)
    {
      OneMoreAnswer(answers, errors, answer, maxRetries);
      Verdict(answer, pollRetries, maxRetries);
      hide StillPolling, PollOutcome, AllPollAgain, Flagged, InProgress, Completed, PollsAgain, ErrorsBefore;
      ghost var answers', errors' := answers + [answer], errors + [answer.error.Some?];
      if Completed(answer) {
        verdict := Some(Ok(answer.result.value));
        LastAnswer(answers', errors', false, Polling(), verdict.value);
      } else if !InProgress(answer.status) {
        verdict := Some(Outcome.Raised(if answer.error.Some? then answer.error.value else "processing_failed"));
        LastAnswer(answers', errors', false, Polling(), verdict.value);
      } else if answer.error.Some? && (!answer.retryable || pollRetries >= maxRetries) {
        verdict := Some(Outcome.Raised(answer.error.value));
        LastAnswer(answers', errors', false, Polling(), verdict.value);
      } else {
        verdict := None;
      }
    }

    method PollUntilDone(submission: Submission, deadlineAt: int) returns (r: Outcome<Output>)
      requires Polling().Valid() && world.submission == Some(submission)
      requires world.pollTimes == [] && world.pollErrors == [] && world.cancelTimes == [] && world.retryReports == []
               && world.answers == [] && !world.noticeRaised
      requires deadlineAt <= world.clock + jobTtlMs * 1000
      modifies world`clock, world`pollTimes, world`pollErrors, world`cancelTimes, world`retryReports, world`answers,
               world`noticeRaised, world`raised
      ensures world.clock >= old(world.clock)
      ensures PollLaw(world.pollTimes, world.pollErrors, world.cancelTimes, world.retryReports,
                      deadlineAt, Polling())
      ensures PollOutcome(world.answers, world.pollErrors, |world.pollTimes|, world.cancelTimes != [],
                          world.noticeRaised, Polling(), r)
      ensures r.Ok? ==>
                var n := |world.answers| - 1;
                n >= 0 && world.answers[n].status in {"succeeded", "completed"}
                && world.answers[n].result == Some(r.value)
      ensures forall i | 0 <= i < |world.answers| - 1 ::
                  world.answers[i].status in {"queued", "running", "submitted", "processing"}
    {
      r := PollToTheEnd(submission, deadlineAt);
      StatusesMean(world.answers, world.pollErrors, |world.pollTimes|, world.cancelTimes != [], world.noticeRaised,
                   Polling(), r);
    }

    /** Lines 131-147 and 152-156: one poll, the notice of it, and what its answer makes of the loop. */
    method PollOnce(submission: Submission, pollRetries: int, deadlineAt: int)
      returns (verdict: Option<Outcome<Output>>, failed: bool)
      requires Polling().Valid() && world.submission == Some(submission)
      requires |world.pollTimes| == |world.pollErrors| == |world.retryReports| == |world.answers|
      requires !world.noticeRaised && StillPolling(world.answers, world.pollErrors, maxRetries)
      requires pollRetries == ErrorsBefore(world.pollErrors, |world.pollErrors|) <= Max(0, maxRetries)
      requires PollLaw(world.pollTimes, world.pollErrors, [], world.retryReports, deadlineAt, Polling())
      requires world.cancelTimes == [] && world.clock <= deadlineAt && |world.pollTimes| + 1 <= Polling().Bound()
      requires world.pollTimes != [] ==> world.pollTimes[|world.pollTimes| - 1] + Polling().Gap() <= world.clock
      modifies world`clock, world`pollTimes, world`pollErrors, world`retryReports, world`answers, world`noticeRaised,
               world`raised
      ensures world.clock >= old(world.clock) + world.pollTime
      ensures world.pollTimes == old(world.pollTimes) + [old(world.clock)]
      ensures PollLaw(world.pollTimes, world.pollErrors, [], world.retryReports, deadlineAt, Polling())
      ensures verdict.Some? ==>
                PollOutcome(world.answers, world.pollErrors, |world.pollTimes|, false, world.noticeRaised, Polling(),
                            verdict.value)
      ensures verdict == None ==>
                && |world.pollTimes| == |world.pollErrors| == |world.retryReports| == |world.answers|
                && !world.noticeRaised && StillPolling(world.answers, world.pollErrors, maxRetries)
                && ErrorsBefore(world.pollErrors, |world.pollErrors|) == pollRetries + (if failed then 1 else 0)
                && (failed ==> pollRetries < maxRetries)
    {
      hide PollLaw, ErrorsBefore, StillPolling, PollOutcome, AllPollAgain, Flagged, Policy.Gap, Policy.Bound;
      ghost var times, errors, answers := world.pollTimes, world.pollErrors, world.answers;
      ghost var now := world.clock;
      failed := false;
      var poll := world.Poll(submission);
      PolledOnce(times, errors, world.retryReports, deadlineAt, Polling(),
                 now, poll.Ok? && poll.value.error.Some?, pollRetries);
      if poll.Raised? {
        CutShort(answers, errors, |times| + 1, false, Polling(), poll.message);
        return Some(Outcome.Raised(poll.message)), failed;
      }
      var result := poll.value;
      failed := result.error.Some?;
      OneMoreAnswer(answers, errors, result, maxRetries);
      var lastPollAt := world.Now();
      var e := world.NotifyPolled(pollRetries);
      if e.Raised? {
        verdict := Some(Outcome.Raised(e.message));
        LastAnswer(world.answers, world.pollErrors, true, Polling(), verdict.value);
        return;
      }
      verdict := Judge(result, pollRetries, answers, errors);
    }

    /** Lines 124-156: the loop. */
    method PollToTheEnd(submission: Submission, deadlineAt: int) returns (r: Outcome<Output>)
      requires Polling().Valid() && world.submission == Some(submission)
      requires world.pollTimes == [] && world.pollErrors == [] && world.cancelTimes == [] && world.retryReports == []
               && world.answers == [] && !world.noticeRaised
      requires deadlineAt <= world.clock + jobTtlMs * 1000
      modifies world`clock, world`pollTimes, world`pollErrors, world`cancelTimes, world`retryReports, world`answers,
               world`noticeRaised, world`raised
      ensures world.clock >= old(world.clock)
      ensures PollLaw(world.pollTimes, world.pollErrors, world.cancelTimes, world.retryReports,
                      deadlineAt, Polling())
      ensures PollOutcome(world.answers, world.pollErrors, |world.pollTimes|, world.cancelTimes != [],
                          world.noticeRaised, Polling(), r)
    {
      hide PollLaw, ErrorsBefore, StillPolling, PollOutcome, AllPollAgain, Flagged, Paced;
      NoPolls(deadlineAt, Polling());
      NoAnswers(maxRetries);
      var pollRetries := 0;
      ghost var start := world.clock;
      ghost var gap := Polling().Gap();
      assert gap == Max(0, pollIntervalMs) * 1000 + world.pollTime;
      hide Policy.Gap, Policy.Bound;
      NotPacedYet(gap, start);
      while true
        invariant |world.pollTimes| == |world.pollErrors| == |world.retryReports| == |world.answers|
        invariant !world.noticeRaised && StillPolling(world.answers, world.pollErrors, maxRetries)
        invariant start <= world.clock && Paced(|world.pollTimes|, gap, start, world.clock)
        invariant 0 <= pollRetries <= Max(0, maxRetries)
        invariant pollRetries == ErrorsBefore(world.pollErrors, |world.pollErrors|)
        invariant PollLaw(world.pollTimes, world.pollErrors, world.cancelTimes, world.retryReports,
                          deadlineAt, Polling())
        invariant world.cancelTimes == []
        invariant world.pollTimes != [] ==> world.pollTimes[|world.pollTimes| - 1] + gap <= world.clock
        invariant pollIntervalMs < 0 ==> world.pollTimes == []
        decreases deadlineAt - world.clock
      {
        ghost var times, errors, answers, turn := world.pollTimes, world.pollErrors, world.answers, world.clock;
        var now := world.Now();
        if now > deadlineAt {
          CancelledOnce(times, errors, world.retryReports, deadlineAt, Polling(), now);
          var c := world.Cancel(submission);
          assert world.cancelTimes == [now];
          r := Outcome.Raised(if c.Raised? then c.message else "exceeded TTL");
          CutShort(answers, errors, |times|, true, Polling(), r.message);
          return;
        }
        PaceStep(|times|, gap, start, turn, now);
        PollFits(|times|, Polling(), start, now);
        var verdict, failed := PollOnce(submission, pollRetries, deadlineAt);
        if verdict.Some? {
          return verdict.value;
        }
        if failed {
          pollRetries := pollRetries + 1;
        }
        var slept := world.Sleep(pollIntervalMs);
        if slept.Raised? {
          CutShort(world.answers, world.pollErrors, |times| + 1, false, Polling(), slept.message);
          return Outcome.Raised(slept.message);
        }
        PaceStep(|times|, gap, start, turn, world.clock);
      }
    }

    /** Lines 171-185: the artifacts are stored, under a stage of their own. */
    method KeepArtifacts(job: Job, output: Output, ghost found: JobRecord, ghost from: int)
      returns (r: Outcome<RenderResult>, ghost open: Option<string>)
      requires Ready(job, found, from, WorkerProgram.RENDERED, None)
      modifies job`trace, world`clock, world`log, world`local, world`faults, world`raised, world`stored, world`puts,
               world`refs
      ensures world.clock >= old(world.clock) && old(world.refs) <= world.refs
      ensures r.Ok? ==> Outline(job.trace) == old(Outline(job.trace)) + Done(["artifact_store"])
      ensures r.Ok? ==> Ready(job, found, from, WorkerProgram.LAST_PHASE, None)
      ensures r.Ok? ==> Stores(r.value, output, world.refs[|old(world.refs)|..])
      ensures r.Ok? ==> world.puts == old(world.puts) + output.artifacts
      ensures r.Raised? ==> Cut(job, found, from, open) && Caused(r.message)
    {
      hide Book, Ledgered, Opened, Finished, Stores, Outline;
      open := Some("artifact_store");
      ghost var before := job.trace;
      StartStage(job, "artifact_store");
      ghost var startedAt := world.clock;
      var u := world.Update(job, open);
      if u.Raised? { return Outcome.Raised(u.message), open; }
      r := StoreArtifacts(output);
      if r.Raised? { return; }
      FinishStage(job, "artifact_store", StageSucceeded, None);
      FinishedOutline(before, "artifact_store", startedAt, StageSucceeded, world.clock, None);
      open := None;
    }

    method CompleteJob(job: Job, output: Output, ghost found: JobRecord, ghost from: int)
      returns (r: Outcome<()>, ghost open: Option<string>)
      requires Ready(job, found, from, WorkerProgram.RENDERED, None)
      modifies job, world`clock, world`log, world`local, world`faults, world`raised, world`stored, world`puts,
               world`refs
      ensures world.clock >= old(world.clock) && old(world.refs) <= world.refs
      ensures r.Ok? ==> Outline(job.trace) == old(Outline(job.trace)) + Done(["artifact_store", "completed"])
      ensures r.Ok? ==>
                && Cut(job, found, from, None) && open == None
                && job.status == Succeeded && world.local == Some(Local.Settled(found, Succeeded, true))
                && |world.stored| > 0 && world.stored[|world.stored| - 1] == job.Snap()
      ensures job.status == Succeeded ==>
                && job.result.Some? && Stores(job.result.value, output, world.refs[|old(world.refs)|..])
                && world.puts == old(world.puts) + output.artifacts
      ensures r.Raised? ==> Cut(job, found, from, open) && Caused(r.message)
    {
      hide Book, Ledgered, Stores, Outline;
      var kept;
      kept, open := KeepArtifacts(job, output, found, from);
      if kept.Raised? { return Outcome.Raised(kept.message), open; }
      open := None;
      MarkSucceeded(job, kept.value, found, from);
      r := StoreCompleted(job, found, from);
    }

    /** Lines 187-195: the result and the domain transition. */
    method MarkSucceeded(job: Job, result: RenderResult, ghost found: JobRecord, ghost from: int)
      requires Ready(job, found, from, WorkerProgram.LAST_PHASE, None)
      modifies job, world`clock
      ensures world.clock >= old(world.clock) && job.trace == old(job.trace)
      ensures Book(world.stored, job.Snap(), None) && Timed(job.Snap(), from, world.clock)
      ensures job.status == Succeeded && job.result == Some(result) && job.error == old(job.error)
    {
      hide Book, Ledgered;
      ghost var before := job.Snap();
      job.result := Some(result);
      var entity := new JobEntity(job.jobId, LifeOf(job.Snap()));
      var now := world.Now();
      var completed := entity.Complete(now);
      assert completed.Ok?;
      job.ApplyDomainJob(entity);
      BookSameTrace(world.stored, before, None, job.Snap());
    }

    method StoreCompleted(job: Job, ghost found: JobRecord, ghost from: int)
      returns (r: Outcome<()>)
      requires world.Valid() && world.local == Some(Local.Live(found, WorkerProgram.LAST_PHASE))
      requires Book(world.stored, job.Snap(), None) && |world.stored| > 0 && world.stored[0] == found
      requires job.status == Succeeded && Timed(job.Snap(), from, world.clock) && job.error == found.error
      requires job.jobId == found.jobId && job.cacheKey == found.cacheKey
      modifies job`trace, world`clock, world`log, world`local, world`faults, world`raised, world`stored
      ensures world.clock >= old(world.clock)
      ensures r.Ok? ==> Outline(job.trace) == old(Outline(job.trace)) + Done(["completed"])
      ensures Cut(job, found, from, None) && (r.Raised? ==> Caused(r.message))
      ensures r.Ok? ==>
                && world.local == Some(Local.Settled(found, Succeeded, true))
                && world.stored[|world.stored| - 1] == job.Snap()
    {
      hide Book, Ledgered, Recorded, Outline;
      ghost var before := job.trace;
      RecordStage(job, "completed", StageSucceeded, None);
      RecordedOutline(before, "completed", StageSucceeded, world.clock, None);
      r := world.Update(job, None);
    }

    method StoreArtifacts(output: Output) returns (r: Outcome<RenderResult>)
      modifies world`puts, world`refs, world`raised
      ensures old(world.refs) <= world.refs
      ensures r.Raised? ==> world.raised == Some(r.message)
      ensures r.Ok? ==>
                && world.puts == old(world.puts) + output.artifacts
                && Stores(r.value, output, world.refs[|old(world.refs)|..])
    {
      var artifacts := output.artifacts;
      var images, debugImages := [], [];
      ghost var n, refs := |world.refs|, [];
      assert artifacts[..0] == [] && Placed([], [], false) == Placed([], [], true) == [];
      hide Placed;
      for i := 0 to |artifacts|
        invariant world.puts == old(world.puts) + artifacts[..i]
        invariant world.refs == old(world.refs) + refs && |refs| == i
        invariant images == Placed(artifacts[..i], refs, false) && debugImages == Placed(artifacts[..i], refs, true)
      {
        var ref := world.PutBytes(artifacts[i]);
        if ref.Raised? { return Outcome.Raised(ref.message); }
        assert artifacts[..i + 1] == artifacts[..i] + [artifacts[i]];
        PlacedOneMore(artifacts[..i], refs, artifacts[i], ref.value, false);
        PlacedOneMore(artifacts[..i], refs, artifacts[i], ref.value, true);
        refs := refs + [ref.value];
        if artifacts[i].kind == Debug {
          debugImages := debugImages + [ref.value];
        } else {
          images := images + [ref.value];
        }
      }
      assert artifacts[..|artifacts|] == artifacts && world.refs[n..] == refs;
      return Ok(RenderResult(images, debugImages, output.metrics, output.warnings));
    }

    /** The output the pipeline produced: with the submission, or by the last poll. */
    ghost function Produced(): Option<Output>
      reads this`polled, world`submission
    {
      if world.submission == None then None
      else if world.submission.value.result.Some? then world.submission.value.result
      else if polled.Some? && polled.value.Ok? then Some(polled.value.value)
      else None
    }

    /** The result lists the references to exactly the artifacts the pipeline produced, as the asset store answered. */
    ghost predicate Delivers(result: Option<RenderResult>, refs: seq<AssetRef>)
      reads this`polled, world`submission
    {
      Produced().Some? && result.Some? && Stores(result.value, Produced().value, refs)
    }

    /** How the polling ended, if there was any. */
    ghost predicate PolledMeans()
      reads this`polled, world`answers, world`pollErrors, world`pollTimes, world`cancelTimes, world`noticeRaised
    {
      match polled
      case None => world.answers == [] && world.pollTimes == [] && world.cancelTimes == []
      case Some(r) =>
        PollOutcome(world.answers, world.pollErrors, |world.pollTimes|, world.cancelTimes != [], world.noticeRaised,
                    Polling(), r)
    }

    /** Nothing has been polled yet. */
    ghost predicate Unpolled()
      reads this`polled, world`pollTimes, world`pollErrors, world`cancelTimes, world`retryReports, world`answers,
            world`noticeRaised
    {
      && polled == None && world.pollTimes == [] && world.pollErrors == [] && world.cancelTimes == []
      && world.retryReports == [] && world.answers == [] && !world.noticeRaised
    }

    lemma UnpolledMeans()
      requires Unpolled()
      ensures polled == None && world.pollTimes == [] && world.cancelTimes == []
    {
    }

    lemma StillNoPolls(deadline: int)
      requires Unpolled() && Polling().Valid()
      ensures PollLaw(world.pollTimes, world.pollErrors, world.cancelTimes, world.retryReports, deadline, Polling())
    {
      NoPolls(deadline, Polling());
    }

    lemma ProducedIs(output: Output)
      requires world.submission.Some?
      requires if world.submission.value.result.Some? then world.submission.value.result == Some(output)
               else polled == Some(Ok(output))
      ensures Produced() == Some(output)
    {
    }

    lemma NothingPolled()
      requires Unpolled()
      ensures PolledMeans()
    {
    }

    /** The completed job is stored, and nothing was cancelled. */
    ghost predicate WellDone(job: Job, found: JobRecord)
      reads job, world`local, world`stored, world`cancelTimes
    {
      && world.local == Some(Local.Settled(found, Succeeded, true))
      && |world.stored| > 0 && world.stored[|world.stored| - 1] == job.Snap()
      && job.status == Succeeded && job.result.Some? && world.cancelTimes == []
    }

    ghost function TalkAfterProbe(found: JobRecord, mimeType: string): seq<Question>
      reads world`image, world`entry, world`finished
    {
      [BytesAsked(found.request.sourceAssetId)]
      + RenderTalk(found, world.image, mimeType, world.entry, world.finished)
    }

    /** What the `try` block asks and tells. */
    ghost function Talk(found: JobRecord, mimeType: string): seq<Question>
      reads world`image, world`capabilities, world`entry, world`finished
    {
      ProbeTalk(world.capabilities) + TalkAfterProbe(found, mimeType)
    }

    /** The observer was told of this submission and of this job. */
    ghost predicate Told(job: JobRecord, found: JobRecord)
      reads this`deadline, world`entry, world`finished, world`submission
    {
      && world.submission.Some? && Announces(world.entry, found, world.submission.value, deadline)
      && world.finished == job
    }

    /** The polls so far, if any, obey the law, and the polling ended as its last answer says. */
    ghost predicate PollingKept()
      reads this`deadline, this`polled, world`pollTimes, world`pollErrors, world`cancelTimes, world`retryReports,
            world`answers, world`noticeRaised
    {
      && Polling().Valid() && PolledMeans()
      && PollLaw(world.pollTimes, world.pollErrors, world.cancelTimes, world.retryReports, deadline, Polling())
    }

    lemma StillKept()
      requires Unpolled() && Polling().Valid()
      ensures PollingKept()
    {
      StillNoPolls(deadline);
      NothingPolled();
    }

    /** Lines 76-156: the `try` block. */
    method Attempt(job: Job, mimeType: string, ghost found: JobRecord, ghost from: int)
      returns (r: Outcome<()>, ghost open: Option<string>)
      requires Polling().Valid()
      requires Ready(job, found, from, 0, None)
      requires Unpolled()
      modifies this`deadline, this`polled, job, world`clock, world`log, world`local, world`faults, world`raised,
               world`stored, world`pollTimes, world`pollErrors, world`cancelTimes, world`retryReports, world`answers,
               world`noticeRaised, world`puts, world`refs, world`submission, world`questions, world`image,
               world`capabilities, world`entry, world`finished
      ensures world.clock >= old(world.clock)
      ensures Asked(old(world.questions), world.questions, Talk(found, mimeType))
      ensures r.Ok? ==> world.questions == old(world.questions) + Talk(found, mimeType) && Told(job.Snap(), found)
      ensures r.Ok? ==> Outline(job.trace) == old(Outline(job.trace)) + Done(AttemptStages(world.pollTimes != []))
      ensures PollingKept()
      ensures Cut(job, found, from, open) && (r.Raised? ==> Caused(r.message))
      ensures r.Ok? ==> WellDone(job, found) && open == None
      ensures old(world.refs) <= world.refs
      ensures job.status == Succeeded ==>
                && Delivers(job.result, world.refs[|old(world.refs)|..])
                && world.puts == old(world.puts) + Produced().value.artifacts
    {
      hide Ready, Cut, Book, Ledgered, Opened, Finished, Timed, Stores, Outline, RenderStages, Delivers,
           PollingKept, Produced, WellDone, Asked, Unpolled, ProbeTalk,
           TalkAfterProbe, Told;
      StillKept();
      ReadyMeans(job, found, from, 0, None);
      ghost var asked := world.questions;
      r, open := Probe(job, found, from);
      NothingMoreAsked(asked, world.questions, ProbeTalk(world.capabilities), TalkAfterProbe(found, mimeType));
      if r.Raised? { return; }
      r, open := LoadAndRender(job, mimeType, found, from);
      MoreAsked(asked, world.questions, ProbeTalk(world.capabilities), TalkAfterProbe(found, mimeType));
    }

    /** Lines 89-156: the image is loaded and rendered. */
    method LoadAndRender(job: Job, mimeType: string, ghost found: JobRecord, ghost from: int)
      returns (r: Outcome<()>, ghost open: Option<string>)
      requires Polling().Valid()
      requires Ready(job, found, from, 2, None)
      requires Unpolled()
      modifies this`deadline, this`polled, job, world`clock, world`log, world`local, world`faults, world`raised,
               world`stored, world`pollTimes, world`pollErrors, world`cancelTimes, world`retryReports, world`answers,
               world`noticeRaised, world`puts, world`refs, world`submission, world`questions, world`image,
               world`entry, world`finished
      ensures world.clock >= old(world.clock)
      ensures Asked(old(world.questions), world.questions, TalkAfterProbe(found, mimeType))
      ensures r.Ok? ==> world.questions == old(world.questions) + TalkAfterProbe(found, mimeType)
      ensures r.Ok? ==> Told(job.Snap(), found)
      ensures r.Ok? ==>
                Outline(job.trace)
                == old(Outline(job.trace)) + Done(["asset_bytes_loaded"]) + Done(RenderStages(world.pollTimes != []))
      ensures PollingKept()
      ensures Cut(job, found, from, open) && (r.Raised? ==> Caused(r.message))
      ensures r.Ok? ==> WellDone(job, found) && open == None
      ensures old(world.refs) <= world.refs
      ensures job.status == Succeeded ==>
                && Delivers(job.result, world.refs[|old(world.refs)|..])
                && world.puts == old(world.puts) + Produced().value.artifacts
    {
      hide Ready, Cut, Book, Ledgered, Opened, Finished, Timed, Stores, Outline, RenderStages, Delivers,
           PollingKept, Produced, WellDone, Asked, Unpolled, RenderTalk, Told, Done;
      StillKept();
      ReadyMeans(job, found, from, 2, None);
      ghost var asked, bytes := world.questions, [BytesAsked(found.request.sourceAssetId)];
      var image;
      image, open := LoadBytes(job, found, from);
      NothingMoreAsked(asked, world.questions, bytes,
                       RenderTalk(found, world.image, mimeType, world.entry, world.finished));
      if image.Raised? { return Outcome.Raised(image.message), open; }
      r, open := Render(job, mimeType, image.value, found, from);
      MoreAsked(asked, world.questions, bytes,
                RenderTalk(found, world.image, mimeType, world.entry, world.finished));
    }

    /** Lines 101-156: the result comes with the submission, or it is polled for. */
    method Obtain(job: Job, mimeType: string, image: nat, ghost found: JobRecord, ghost from: int)
      returns (r: Outcome<Output>, ghost open: Option<string>)
      requires Polling().Valid()
      requires Ready(job, found, from, 4, None)
      requires Unpolled()
      modifies this`deadline, this`polled, job`trace, world`clock, world`log, world`local, world`faults,
               world`raised, world`stored, world`pollTimes, world`pollErrors, world`cancelTimes, world`retryReports,
               world`answers, world`noticeRaised, world`submission, world`questions, world`entry
      ensures world.clock >= old(world.clock)
      ensures Asked(old(world.questions), world.questions, SubmitTalk(found, image, mimeType, world.entry))
      ensures r.Ok? ==> world.questions == old(world.questions) + SubmitTalk(found, image, mimeType, world.entry)
      ensures r.Ok? ==> world.submission.Some? && Announces(world.entry, found, world.submission.value, deadline)
      ensures r.Ok? ==> Outline(job.trace) == old(Outline(job.trace)) + Done(ObtainStages(world.pollTimes != []))
      ensures PollingKept()
      ensures r.Ok? ==> Ready(job, found, from, WorkerProgram.RENDERED, None) && world.cancelTimes == []
      ensures r.Ok? ==> Produced() == Some(r.value)
      ensures r.Raised? ==> Cut(job, found, from, open) && Caused(r.message)
    {
      hide Ready, Cut, PollLaw, Outline, Produced, Unpolled, PolledMeans;
      NothingPolled();
      UnpolledMeans();
      var submission, deadlineAt;
      submission, deadlineAt, open := SubmitRender(job, mimeType, image, found, from);
      StillNoPolls(deadline);
      if submission.Raised? { return Outcome.Raised(submission.message), open; }
      if submission.value.result.Some? {
        r := Ok(submission.value.result.value);
      } else {
        r, open := AwaitResult(job, submission.value, deadlineAt, found, from);
        if r.Raised? { return; }
      }
      ProducedIs(r.value);
    }

    /** Lines 117-119 and 140-142. */
    method CompleteAndTell(job: Job, output: Output, ghost found: JobRecord, ghost from: int)
      returns (r: Outcome<()>, ghost open: Option<string>)
      requires Ready(job, found, from, WorkerProgram.RENDERED, None) && world.cancelTimes == []
      modifies job, world`clock, world`log, world`local, world`faults, world`raised, world`stored, world`puts,
               world`refs, world`questions, world`finished
      ensures world.clock >= old(world.clock) && old(world.refs) <= world.refs
      ensures Asked(old(world.questions), world.questions, [FinishedTold(world.finished)])
      ensures r.Ok? ==> world.questions == old(world.questions) + [FinishedTold(world.finished)]
      ensures r.Ok? ==> world.finished == job.Snap() && WellDone(job, found) && open == None
      ensures r.Ok? ==> Outline(job.trace) == old(Outline(job.trace)) + Done(["artifact_store", "completed"])
      ensures job.status == Succeeded ==>
                && job.result.Some? && Stores(job.result.value, output, world.refs[|old(world.refs)|..])
                && world.puts == old(world.puts) + output.artifacts
      ensures Cut(job, found, from, open) && (r.Raised? ==> Caused(r.message))
    {
      hide Ready, Cut, Stores, Outline, Done;
      r, open := CompleteJob(job, output, found, from);
      if r.Raised? { return; }
      r := world.NotifyFinished(job.Snap());
    }

    method Render(job: Job, mimeType: string, image: nat, ghost found: JobRecord, ghost from: int)
      returns (r: Outcome<()>, ghost open: Option<string>)
      requires Polling().Valid()
      requires Ready(job, found, from, 4, None)
      requires Unpolled()
      modifies this`deadline, this`polled, job, world`clock, world`log, world`local, world`faults, world`raised,
               world`stored, world`pollTimes, world`pollErrors, world`cancelTimes, world`retryReports, world`answers,
               world`noticeRaised, world`puts, world`refs, world`submission, world`questions, world`entry,
               world`finished
      ensures world.clock >= old(world.clock)
      ensures Asked(old(world.questions), world.questions,
                    RenderTalk(found, image, mimeType, world.entry, world.finished))
      ensures r.Ok? ==>
                && world.questions
                   == old(world.questions) + RenderTalk(found, image, mimeType, world.entry, world.finished)
                && Told(job.Snap(), found)
      ensures r.Ok? ==> Outline(job.trace) == old(Outline(job.trace)) + Done(RenderStages(world.pollTimes != []))
      ensures PollingKept()
      ensures Cut(job, found, from, open) && (r.Raised? ==> Caused(r.message))
      ensures r.Ok? ==> WellDone(job, found) && open == None
      ensures old(world.refs) <= world.refs
      ensures job.status == Succeeded ==>
                && Delivers(job.result, world.refs[|old(world.refs)|..])
                && world.puts == old(world.puts) + Produced().value.artifacts
    {
      hide Ready, Cut, Stores, Outline, Done, ObtainStages, Produced, Unpolled, PollingKept, Asked,
           SubmitTalk, Announces, WellDone, Caused;
      ReadyMeans(job, found, from, 4, None);
      var output;
      ghost var asked := world.questions;
      output, open := Obtain(job, mimeType, image, found, from);
      NothingMoreAsked(asked, world.questions, SubmitTalk(found, image, mimeType, world.entry),
                       [FinishedTold(world.finished)]);
      if output.Raised? { return Outcome.Raised(output.message), open; }
      r, open := CompleteAndTell(job, output.value, found, from);
      DoneConcat(ObtainStages(world.pollTimes != []), ["artifact_store", "completed"]);
      MoreAsked(asked, world.questions, SubmitTalk(found, image, mimeType, world.entry),
                [FinishedTold(world.finished)]);
    }

    lemma PollingEnded(r: Outcome<Output>)
      requires PollOutcome(world.answers, world.pollErrors, |world.pollTimes|, world.cancelTimes != [],
                           world.noticeRaised, Polling(), r)
      ensures r.Ok? ==> world.pollTimes != [] && world.cancelTimes == []
      ensures polled == Some(r) ==> PolledMeans()
    {
    }

    /** The poll loop leaves the job as it is; only time passes. */
    method Polled(job: Job, submission: Submission, deadlineAt: int, ghost found: JobRecord, ghost from: int,
                  ghost open: Option<string>)
      returns (r: Outcome<Output>)
      requires Polling().Valid() && Unpolled() && world.submission == Some(submission)
      requires deadlineAt <= world.clock + jobTtlMs * 1000
      requires Ready(job, found, from, WorkerProgram.RENDERED, open)
      modifies world`clock, world`pollTimes, world`pollErrors, world`cancelTimes, world`retryReports, world`answers,
               world`noticeRaised, world`raised
      ensures world.clock >= old(world.clock)
      ensures Ready(job, found, from, WorkerProgram.RENDERED, open)
      ensures PollLaw(world.pollTimes, world.pollErrors, world.cancelTimes, world.retryReports,
                      deadlineAt, Polling())
      ensures PollOutcome(world.answers, world.pollErrors, |world.pollTimes|, world.cancelTimes != [],
                          world.noticeRaised, Polling(), r)
    {
      hide Book, PollLaw, PollOutcome;
      r := PollUntilDone(submission, deadlineAt);
    }

    method AwaitResult(job: Job, submission: Submission, deadlineAt: int, ghost found: JobRecord, ghost from: int)
      returns (r: Outcome<Output>, ghost open: Option<string>)
      requires Polling().Valid()
      requires Ready(job, found, from, WorkerProgram.SUBMITTED, None)
      requires deadlineAt == world.clock + jobTtlMs * 1000
      requires Unpolled() && world.submission == Some(submission)
      modifies this`polled, job`trace, world`clock, world`log, world`local, world`faults, world`raised, world`stored,
               world`pollTimes, world`pollErrors, world`cancelTimes, world`retryReports, world`answers,
               world`noticeRaised
      ensures world.clock >= old(world.clock)
      ensures r.Ok? ==> Outline(job.trace) == old(Outline(job.trace)) + Done(["ml_poll"])
      ensures r.Ok? ==> world.pollTimes != [] && polled == Some(r)
      ensures PolledMeans()
      ensures PollLaw(world.pollTimes, world.pollErrors, world.cancelTimes, world.retryReports,
                      deadlineAt, Polling())
      ensures r.Ok? ==> Ready(job, found, from, WorkerProgram.RENDERED, None) && world.cancelTimes == []
      ensures r.Raised? ==> Cut(job, found, from, open) && Caused(r.message)
    {
      hide Ready, Cut, Opened, Outline, Done, PollLaw, PollOutcome;
      NoPolls(deadlineAt, Polling());
      NothingPolled();
      ghost var before, startedAt := job.trace, 0;
      open := Some("ml_poll");
      var u;
      u, startedAt := OpenStage(job, "ml_poll", found, from, WorkerProgram.SUBMITTED);
      if u.Raised? { return Outcome.Raised(u.message), open; }
      r := Polled(job, submission, deadlineAt, found, from, open);
      polled := Some(r);
      PollingEnded(r);
      if r.Raised? {
        ReadyMayBeCut(job, found, from, WorkerProgram.RENDERED, open);
        return;
      }
      CloseStage(job, "ml_poll", found, from, WorkerProgram.RENDERED, before, startedAt);
      open := None;
    }

    /** The exception is caught: `Handling` is entered, unless a write or the submission did so when it raised. */
    ghost method Interrupt(found: JobRecord, completed: bool)
      requires world.Valid() && Left(world.local.value, found, completed)
      modifies world`log, world`local, world`faults, world`raised
      ensures world.Valid() && world.local.value == Local.Handling(found, completed)
    {
      if !world.local.value.Handling? {
        world.Act(Action.Interrupt, false);
      }
    }

    /** Lines 157-168: the exception handler; the exception is raised again. */
    method Recover(job: Job, exc: string, ghost found: JobRecord, ghost from: int, ghost open: Option<string>)
      returns (r: Outcome<()>)
      requires Cut(job, found, from, open) && world.failureReports == [] && Caused(exc)
      modifies this`interruption, job, world`clock, world`log, world`local, world`faults, world`raised, world`stored,
               world`failureReports
      ensures r.Raised? && MayRaise() && Ledgered(world.stored) && |world.stored| > 0 && world.stored[0] == found
      ensures interruption.status == old(job.status) && interruption.trace == old(job.trace)
      ensures interruption.cause == old(world.raised)
      ensures |world.log| > 0
      ensures world.log[|world.log| - 1].Write? ==>
                && Handled(world.stored[|world.stored| - 1], interruption.status, exc, from, found)
                && interruption.message == exc && world.stored[|world.stored| - 1].trace == HandledTrace(interruption)
                && world.failureReports == [FailureReport(found.jobId, exc, ReportOf(interruption))]
                && world.stored[|world.stored| - 1].result == old(job.result)
    {
      hide Book, Ledgered, Interrupted, LastFailedName, Handled, Recorded;
      ghost var cause := world.raised;
      Interrupt(found, job.status == Succeeded);
      ghost var before := job.Snap();
      FailRunningStage(job, exc, open);
      interruption := Interruption(before.trace, before.status, exc, cause, world.clock, world.clock);
      var failureStage := LastFailedStageName(job);
      MarkHandled(job, exc, found, from);
      RecordFailure(job, exc, found, from, before.status);
      interruption := interruption.(recordedAt := world.clock);
      r := StoreFailure(job, exc, failureStage, found, before.status);
    }

    method StoreFailure(job: Job, exc: string, stage: Option<string>, ghost found: JobRecord, ghost was: JobStatus)
      returns (r: Outcome<()>)
      requires world.Valid() && Book(world.stored, job.Snap(), None) && |world.stored| > 0 && world.stored[0] == found
      requires job.jobId == found.jobId && job.cacheKey == found.cacheKey
      requires world.local.value == Local.Handling(found, job.status == Succeeded)
      requires job.status == Succeeded || job.status == Failed
      modifies world`log, world`local, world`faults, world`raised, world`stored, world`failureReports
      ensures r.Raised? && MayRaise() && Ledgered(world.stored) && |world.stored| > 0 && world.stored[0] == found
      ensures |world.log| > 0
      ensures world.log[|world.log| - 1].Write? ==>
                && world.stored[|world.stored| - 1] == job.Snap()
                && world.failureReports == old(world.failureReports) + [FailureReport(found.jobId, exc, stage)]
    {
      hide Book, Ledgered;
      r := world.Update(job, None);
      BookIsLedgered(world.stored, job.Snap(), None);
      if r.Raised? {
        return;
      }
      var e := world.NotifyFailed(job.jobId, exc, stage);
      return Outcome.Raised(if e.Raised? then e.message else exc);
    }

    method RecordFailure(job: Job, exc: string, ghost found: JobRecord, ghost from: int, ghost was: JobStatus)
      requires Book(world.stored, job.Snap(), None) && |world.stored| > 0 && world.stored[0] == found
      requires Timed(job.Snap(), from, world.clock)
      requires job.status == (if was == Succeeded then Succeeded else Failed)
      requires was != Succeeded ==> job.result == found.result
      requires job.error == Some(ErrorInfo("processing_failed", exc))
      modifies job`trace, world`clock
      ensures world.clock >= old(world.clock)
      ensures Book(world.stored, job.Snap(), None) && Handled(job.Snap(), was, exc, from, found)
      ensures job.trace == Recorded(old(job.trace), "failed", StageFailed, world.clock, Some(exc))
    {
      RecordStage(job, "failed", StageFailed, Some(exc));
    }

    method MarkHandled(job: Job, exc: string, ghost found: JobRecord, ghost from: int)
      requires Book(world.stored, job.Snap(), None)
      requires job.status in {Running, Succeeded} && Timed(job.Snap(), from, world.clock)
      modifies job, world`clock
      ensures world.clock >= old(world.clock) && job.trace == old(job.trace) && job.result == old(job.result)
      ensures Book(world.stored, job.Snap(), None) && Timed(job.Snap(), from, world.clock)
      ensures job.status == if old(job.status) == Succeeded then Succeeded else Failed
      ensures job.error == Some(ErrorInfo("processing_failed", exc))
    {
      hide Book, Ledgered;
      ghost var before := job.Snap();
      var entity := new JobEntity(job.jobId, LifeOf(job.Snap()));
      if !entity.status.Terminal() {
        var now := world.Now();
        var failed := entity.Fail(now);
        assert failed.Ok?;
        job.ApplyDomainJob(entity);
      }
      job.error := Some(ErrorInfo("processing_failed", exc));
      BookSameTrace(world.stored, before, None, job.Snap());
    }

    ghost method Exit(returned: bool)
      requires world.Valid()
      requires returned ==> MayReturn()
      requires !returned ==> MayRaise()
      modifies world`log, world`local, world`faults, world`raised
      ensures world.Valid() && world.faults == old(world.faults)
      ensures world.local == Some(if returned then Local.Returned else Local.Raised)
      ensures world.log == old(world.log) + [if returned then Action.Return else Action.Raise]
    {
      world.Act(if returned then Action.Return else Action.Raise, false);
    }

    /** What an execution that ended before RUNNING was stored, or returned, has done. */
    ghost predicate Outcomes(r: Outcome<JobRecord>, from: int)
      reads this, world`stored, world`clock, world`pollTimes, world`cancelTimes, world`submission, world`puts,
            world`refs
    {
      && (r.Ok? && entered ==> Delivers(r.value.result, world.refs) && world.puts == Produced().value.artifacts)
      && (r.Ok? ==> |world.stored| > 0 && r.value == world.stored[|world.stored| - 1])
      && (r.Ok? && entered ==> r.value.error == world.stored[0].error)
      && (r.Ok? ==> entered == !world.stored[0].status.Terminal())
      && (r.Ok? && entered ==> r.value.status == Succeeded && r.value.result.Some? && world.cancelTimes == [])
      && (r.Ok? && entered ==> Timed(r.value, from, world.clock))
      && (r.Ok? && entered && world.stored[0].createdAt <= from ==> Chronological(r.value))
      && (r.Ok? && entered ==>
            Outline(r.value.trace) == Outline(world.stored[0].trace) + Done(SuccessStages(world.pollTimes != [])))
      && (r.Ok? && !entered ==> SkippedFrom(world.stored[0], r.value))
      && (r.Raised? && !entered && |world.stored| > 0 ==> Unstarted(world.stored, world.stored[0].status))
      && (entered ==> |world.stored| > 0 && world.stored[0].status == Queued)
    }

    /** What an execution that raised after RUNNING was stored has left and reported. */
    ghost predicate Failure(from: int)
      reads this, world`stored, world`failureReports, world`submission, world`puts, world`refs
    {
      && |world.stored| > 0
      && interruption.status in {Running, Succeeded}
      && (interruption.cause == Some(interruption.message) || polled == Some(Outcome.Raised(interruption.message)))
      && Handled(world.stored[|world.stored| - 1], interruption.status, interruption.message, from, world.stored[0])
      && (Closed(world.stored[0].trace) ==> TailOpen(interruption.trace))
      && world.stored[|world.stored| - 1].trace == HandledTrace(interruption)
      && world.failureReports ==
         [FailureReport(world.stored[0].jobId, interruption.message, ReportOf(interruption))]
      && (interruption.status == Succeeded ==>
            && Delivers(world.stored[|world.stored| - 1].result, world.refs)
            && world.puts == Produced().value.artifacts)
    }

    /** What an execution that found a record still asks. */
    ghost function Questions(found: JobRecord): seq<Question>
      reads world`image, world`mimeType, world`capabilities, world`entry, world`finished
    {
      [RefAsked(found.request.sourceAssetId)] + Talk(found, world.mimeType)
    }

    /** The stores and the pipeline were asked in this order, for this job, its source asset and its request. */
    ghost predicate Questioned(jobId: string, r: Outcome<JobRecord>)
      reads this, world`questions, world`stored, world`image, world`mimeType, world`capabilities, world`entry,
            world`finished, world`submission
    {
      if world.stored == [] || world.stored[0].status.Terminal() then world.questions == [JobAsked(jobId)]
      else
        && Asked([JobAsked(jobId)], world.questions, Questions(world.stored[0]))
        && (r.Ok? && entered ==>
              world.questions == [JobAsked(jobId)] + Questions(world.stored[0]) && Told(r.value, world.stored[0]))
    }

    /** What holds however an execution ends. */
    ghost predicate Lawful()
      reads this`deadline, this`polled, world`stored, world`pollTimes, world`pollErrors, world`cancelTimes,
            world`retryReports, world`answers, world`noticeRaised
    {
      Ledgered(world.stored) && PollingKept()
    }

    /** What holds at the return or the raise. */
    ghost predicate EndsWell(r: Outcome<JobRecord>, from: int)
      reads this, world
    {
      && Outcomes(r, from)
      && (r.Ok? ==> MayReturn())
      && (r.Raised? ==> MayRaise())
      && (r.Raised? && entered ==> |world.log| > 0 && (world.log[|world.log| - 1].Write? ==> Failure(from)))
    }

    method Process(jobId: string) returns (r: Outcome<JobRecord>)
      requires Polling().Valid() && world.Fresh() && !entered && polled == None
      modifies this, world
      ensures Lawful()
      ensures EndsWell(r, old(world.clock)) && Questioned(jobId, r)
    {
      hide Book, Lawful, EndsWell, Unpolled, World.Fresh, Policy.Valid, Questioned;
      FreshIsUnpolled();
      var got := world.GetJob(jobId);
      if got.Raised? {
        NothingFound(jobId, got.message, old(world.clock));
        return Outcome.Raised(got.message);
      }
      if got.value == None {
        NothingFound(jobId, "Job was not found.", old(world.clock));
        return Outcome.Raised("Job was not found.");
      }
      var job := new Job(got.value.value);
      BookStart(got.value.value);
      hide Asked, Questions, Told;
      r := ProcessFound(job, got.value.value);
      FoundAndQuestioned(jobId, got.value.value, r);
    }

    lemma FreshIsUnpolled()
      requires world.Fresh() && polled == None
      ensures Unpolled() && world.Valid() && world.local == Some(Local.Start) && world.log == []
      ensures world.stored == [] && world.questions == [] && world.puts == [] && world.refs == []
      ensures world.failureReports == []
    {
    }

    /** Of an execution that found a job, the question for it came first. */
    lemma FoundAndQuestioned(jobId: string, found: JobRecord, r: Outcome<JobRecord>)
      requires |world.stored| > 0 && world.stored[0] == found
      requires if found.status.Terminal() then world.questions == [JobAsked(jobId)]
               else Asked([JobAsked(jobId)], world.questions, Questions(found))
      requires r.Ok? && entered ==> world.questions == [JobAsked(jobId)] + Questions(found) && Told(r.value, found)
      ensures Questioned(jobId, r)
    {
      hide Asked, Questions, Told;
    }

    /** An execution that found no job has stored nothing and asked for the job only. */
    lemma NothingFound(jobId: string, message: string, from: int)
      requires Polling().Valid() && Unpolled() && world.stored == [] && !entered && MayRaise()
      requires world.questions == [JobAsked(jobId)]
      ensures Lawful() && EndsWell(Outcome.Raised(message), from) && Questioned(jobId, Outcome.Raised(message))
    {
      hide MayRaise;
      StillKept();
      NothingStored();
    }

    /** Lines 54-168. */
    method ProcessFound(job: Job, ghost found: JobRecord) returns (r: Outcome<JobRecord>)
      requires Polling().Valid() && !entered && Unpolled()
      requires world.Valid()
      requires world.local == Some(if found.status.Terminal() then Local.Noop(found) else Local.Claimed(found))
      requires world.stored == [found] && job.Snap() == found && Book(world.stored, found, None)
      requires world.puts == [] && world.refs == [] && world.failureReports == []
      modifies this, job, world
      ensures Lawful()
      ensures EndsWell(r, old(world.clock)) && |world.stored| > 0 && world.stored[0] == found
      ensures if found.status.Terminal() then world.questions == old(world.questions)
              else Asked(old(world.questions), world.questions, Questions(found))
      ensures r.Ok? && entered ==> world.questions == old(world.questions) + Questions(found) && Told(r.value, found)
    {
      hide Book, Ledgered, PollLaw, Unstarted, Timed, Asked, Talk, Told, Failure, Outline, Done, SkippedFrom,
           Chronological, Ready, Delivers, PollingKept, Produced, Unpolled;
      StillKept();
      if job.status.Terminal() {
        r := TerminalNoop(job, found);
      } else {
        ghost var asked, ref := world.questions, [RefAsked(found.request.sourceAssetId)];
        var c := Claim(job, found);
        NothingMoreAsked(asked, world.questions, ref, Talk(found, world.mimeType));
        if c.Raised? { return Outcome.Raised(c.message); }
        entered := true;
        hide Outcomes;
        r := AttemptOrRecover(job, c.value, found, old(world.clock));
        MoreAsked(asked, world.questions, ref, Talk(found, world.mimeType));
      }
    }

    method AttemptOrRecover(job: Job, mimeType: string, ghost found: JobRecord, ghost from: int)
      returns (r: Outcome<JobRecord>)
      requires Polling().Valid() && entered
      requires Ready(job, found, from, 0, None) && found.status == Queued
      requires Unpolled() && world.puts == [] && world.refs == [] && world.mimeType == mimeType
      requires world.failureReports == []
      requires Outline(job.trace) == Outline(found.trace) + Done(CLAIMING)
      modifies this`deadline, this`interruption, this`polled, job, world`clock, world`log, world`local, world`faults,
               world`raised, world`stored, world`pollTimes, world`pollErrors, world`cancelTimes, world`retryReports,
               world`answers, world`noticeRaised, world`puts, world`refs, world`submission, world`questions,
               world`image, world`capabilities, world`entry, world`finished, world`failureReports
      ensures Lawful()
      ensures EndsWell(r, from) && |world.stored| > 0 && world.stored[0] == found
      ensures Asked(old(world.questions), world.questions, Talk(found, mimeType))
      ensures r.Ok? ==> world.questions == old(world.questions) + Talk(found, mimeType) && Told(r.value, found)
    {
      hide Book, Ledgered, PollLaw, Unstarted, Timed, Handled, Outline, Done, HandledTrace, Cut, Chronological,
           Ready, Delivers, PolledMeans, Produced, Unpolled, MayRaise, Left, Failure, Asked, Talk, Told, Lawful,
           EndsWell, Outcomes;
      var c;
      ghost var open;
      c, open := Attempt(job, mimeType, found, from);
      assert world.refs[0..] == world.refs;
      if c.Raised? {
        r := Handle(job, c.message, found, from, open);
      } else {
        r := Ok(job.Snap());
        CompletedEndsWell(job, found, from, open);
      }
      LawsKept();
    }

    lemma LawsKept()
      requires Ledgered(world.stored) && PollingKept()
      ensures Lawful()
    {
    }

    lemma CompletedEndsWell(job: Job, found: JobRecord, from: int, open: Option<string>)
      requires Cut(job, found, from, open) && entered && found.status == Queued
      requires WellDone(job, found)
      requires Outline(job.trace) == Outline(found.trace) + Done(CLAIMING) + Done(AttemptStages(world.pollTimes != []))
      requires Delivers(job.result, world.refs) && world.puts == Produced().value.artifacts
      ensures EndsWell(Ok(job.Snap()), from)
      ensures Ledgered(world.stored) && |world.stored| > 0 && world.stored[0] == found
    {
      hide Book, Ledgered, Timed, Outline, Done, Chronological, Delivers, Produced, Failure, SkippedFrom, Unstarted;
      CutMeans(job, found, from, open);
      DoneConcat(CLAIMING, AttemptStages(world.pollTimes != []));
      assert Outline(found.trace) + Done(CLAIMING) + Done(AttemptStages(world.pollTimes != []))
          == Outline(found.trace) + (Done(CLAIMING) + Done(AttemptStages(world.pollTimes != [])));
    }

    /** The exception leaves `execute` once the handler has run. */
    method Handle(job: Job, exc: string, ghost found: JobRecord, ghost from: int, ghost open: Option<string>)
      returns (r: Outcome<JobRecord>)
      requires Cut(job, found, from, open) && world.failureReports == [] && entered && found.status == Queued
      requires Caused(exc)
      requires job.status == Succeeded ==>
                 Delivers(job.result, world.refs) && world.puts == Produced().value.artifacts
      modifies this`interruption, job, world`clock, world`log, world`local, world`faults, world`raised, world`stored,
               world`failureReports
      ensures Ledgered(world.stored) && r.Raised? && EndsWell(r, from)
      ensures |world.stored| > 0 && world.stored[0] == found
    {
      hide Book, Ledgered, Timed, Handled, HandledTrace, Cut, Chronological, MayRaise, Left;
      CutMeans(job, found, from, open);
      var h := Recover(job, exc, found, from, open);
      return Outcome.Raised(h.message);
    }

    /** Lines 54-57: redelivery of a finished job. */
    method TerminalNoop(job: Job, ghost found: JobRecord) returns (r: Outcome<JobRecord>)
      requires world.Valid() && world.local == Some(Local.Noop(found)) && found.status.Terminal()
      requires world.stored == [found] && job.Snap() == found && Book(world.stored, found, None)
      modifies job`trace, world`clock, world`log, world`local, world`faults, world`raised, world`stored
      ensures Ledgered(world.stored) && |world.stored| > 0 && world.stored[0] == found && world.Valid()
      ensures r.Ok? ==> world.local == Some(Local.Skipped(found)) && SkippedFrom(found, r.value)
      ensures r.Ok? ==> r.value == world.stored[|world.stored| - 1]
      ensures r.Raised? ==> MayRaise() && Unstarted(world.stored, found.status)
    {
      hide Book, Ledgered, Recorded, Outline;
      RecordStage(job, "terminal_noop", StageSkipped, None);
      var u := world.Update(job, None);
      BookIsLedgered(world.stored, job.Snap(), None);
      if u.Raised? { return Outcome.Raised(u.message); }
      RecordedOutline(found.trace, "terminal_noop", StageSkipped, world.clock, None);
      return Ok(job.Snap());
    }

    /**
     One execution, whatever its environment does.

     - Its visible actions are a run of the worker automaton, ending in a return or a
       raise; without a store fault or a missing asset, they are a fault-free run.
     - The stored traces form a ledger.
     - A live job that returns has succeeded with a result, and was not cancelled; its
       trace gained exactly the stages of a successful execution, in order.
     - A finished job that returns gained one skipped stage and nothing else.
     - An execution that raised after RUNNING was stored has stored a terminal status,
       unless that very write raised; a completed job is never downgraded. The trace is
       the interrupted one with its running stage failed and one failed entry added.
     - Polling obeys `PollLaw`.
     */
    method Execute(jobId: string) returns (r: Outcome<JobRecord>)
      requires Polling().Valid() && world.Fresh() && !entered && polled == None
      modifies this, world
      ensures WorkerProgram.Run(world.log) == Some(if r.Ok? then Local.Returned else Local.Raised)
      ensures world.faults == 0 ==> WorkerProgram.FaultFree(world.log)
      ensures Ledgered(world.stored)
      ensures PollLaw(world.pollTimes, world.pollErrors, world.cancelTimes, world.retryReports,
                      deadline, Polling())
      ensures PolledMeans()
      ensures Outcomes(r, old(world.clock))
      ensures Questioned(jobId, r)
      ensures r.Raised? && entered ==> |world.log| > 1
      ensures r.Raised? && entered && world.log[|world.log| - 2].Write? ==> Failure(old(world.clock))
    {
      hide Ledgered, PollLaw, PolledMeans, Outcomes, Failure, Questioned;
      r := Process(jobId);
      Exit(r.Ok?);
    }
  }
}
