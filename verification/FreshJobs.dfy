/**
 When a cache key gets a second live, fresh job: the exact condition for one step of any
 run, and for whole runs.
 */
module FreshJobs {
  import opened Base
  import opened Domain
  import opened Contracts
  import opened JobStore
  import opened CreateJob
  import opened ManageJob
  import opened Delivery
  import opened DeliverySafety
  import opened Dedup

  /** Each key has at most one stored job that is live and fresh. */
  ghost predicate OneFresh(s: State) {
    forall a, b | IsFresh(s, a) && IsFresh(s, b) && s.repo.jobs[a].cacheKey == s.repo.jobs[b].cacheKey :: a == b
  }

  ghost predicate IsFresh(s: State, id: string) {
    id in s.repo.jobs && FreshLive(s.repo.jobs[id], s.now)
  }

  /** Another job of the same key is live and fresh. */
  ghost predicate OtherFresh(s: State, job: JobRecord) {
    exists id :: IsFresh(s, id) && id != job.jobId && s.repo.jobs[id].cacheKey == job.cacheKey
  }

  // ---- The store as a history of operations ----

  /** What a step does to the store. */
  function StoreOps(s: State, step: Step): seq<Op>
    requires step.OperatorFail? || step.OperatorDelete? ==> step.o in s.operators
  {
    match step
    case Create(jobId, request, key, cached, times) =>
      if Reusable(cached, s.now) then [] else [Op.Write(NewJob(jobId, request, key, cached, times))]
    case Work(_, Write(record)) => [Op.Write(record)]
    case OperatorFail(o, reason) => [Op.Write(MarkedFailed(s.operators[o], s.now, reason))]
    case OperatorDelete(o) => [Op.Delete(s.operators[o])]
    case _ => []
  }

  ghost function StoreHistory(steps: seq<Step>): seq<Op>
    requires Legal(steps)
  {
    if steps == [] then []
    else StoreHistory(steps[..|steps| - 1]) + StoreOps(StateAfter(steps[..|steps| - 1]), steps[|steps| - 1])
  }

  lemma StoreOpsStep(s: State, step: Step)
    requires Records(s) && Copies(s) && Enabled(s, step)
    ensures var ops := StoreOps(s, step);
            && |ops| <= 1
            && Next(s, step).repo == (if ops == [] then s.repo else JobStore.Apply(s.repo, ops[0], false))
            && AllGenuine(Next(s, step), ops)
    ensures forall id | id in s.created :: id in Next(s, step).created && Next(s, step).created[id] == s.created[id]
  {
    if step.Work? {
      GenuineWrite(s, step.d, step.action);
    }
    hide Copies, FindAnswer;
  }

  /** Every operation was on a record of a created job, under its key. */
  ghost predicate AllGenuine(s: State, history: seq<Op>) {
    forall i | 0 <= i < |history| :: Genuine(s, history[i].job.jobId, history[i].job)
  }

  lemma AllGenuineStays(s: State, t: State, history: seq<Op>, ops: seq<Op>)
    requires AllGenuine(s, history) && AllGenuine(t, ops)
    requires forall id | id in s.created :: id in t.created && t.created[id] == s.created[id]
    ensures AllGenuine(t, history + ops)
  {
  }

  lemma AppliedOps(history: seq<Op>, ops: seq<Op>, before: Repo, after: Repo)
    requires |ops| <= 1 && before == Replay(history, false)
    requires after == if ops == [] then before else JobStore.Apply(before, ops[0], false)
    ensures after == Replay(history + ops, false)
  {
    if ops == [] {
      assert history + ops == history;
    } else {
      assert ops == [ops[0]];
      ReplaySnoc(history, ops[0], false);
    }
  }

  /** The stored records and the index are what the history of store operations leaves. */
  lemma {:induction false} RepoIsReplay(steps: seq<Step>)
    requires Legal(steps)
    ensures Records(StateAfter(steps)) && Copies(StateAfter(steps))
    ensures StateAfter(steps).repo == Replay(StoreHistory(steps), false)
    ensures AllGenuine(StateAfter(steps), StoreHistory(steps))
    decreases |steps|
  {
    if steps != [] {
      var n := |steps| - 1;
      var s, step, history := StateAfter(steps[..n]), steps[n], StoreHistory(steps[..n]);
      RepoIsReplay(steps[..n]);
      RunKeepsGenuine(steps);
      StoreOpsStep(s, step);
      var ops := StoreOps(s, step);
      AllGenuineStays(s, Next(s, step), history, ops);
      AppliedOps(history, ops, s.repo, Next(s, step).repo);
      hide Records, Copies, Enabled, Next, StoreOps, AllGenuine, Replay, JobStore.Apply;
    }
  }

  /** A job never changes its key, and no id is empty. */
  lemma HistoryHasFixedKeys(steps: seq<Step>, key: string)
    requires Legal(steps)
    ensures FixedKeys(StoreHistory(steps))
    ensures LastWritten(StoreHistory(steps), key).Some? ==> LastWritten(StoreHistory(steps), key).value != ""
  {
    RepoIsReplay(steps);
    var history := StoreHistory(steps);
    if LastWritten(history, key).Some? {
      var i := LastWrittenWasWritten(history, key);
    }
  }

  // ---- The exact condition ----

  /**
   The lookup for a new job is blocked: the job last written under the key cannot be
   reused, or, when that job is no longer stored, a newest stored job of the key failed or
   was canceled and is the one the scan meets first.
   */
  ghost predicate Blocked(history: seq<Op>, key: string, cached: Option<JobRecord>, now: int) {
    if StillStored(history, key) then !Reusable(Some(Stored(history)[LastWritten(history, key).value]), now)
    else exists job :: IsNewest(Stored(history), key, job) && HasEndedBadly(job) && cached == Some(job)
  }

  predicate HasEndedBadly(job: JobRecord) {
    job.status == Failed || job.status == Canceled
  }

  ghost predicate AllNewest(history: seq<Op>, key: string, bad: bool) {
    forall job | IsNewest(Stored(history), key, job) :: HasEndedBadly(job) == bad
  }

  /**
   Which stored record decides when the last-written one is gone: the newest ones of the
   key, where they agree. Where they do not, the order of the scan decides, and either
   answer is possible.
   */
  lemma NewestDecide(history: seq<Op>, key: string, now: int)
    requires FixedKeys(history) && key != "" && !StillStored(history, key) && HasKey(Stored(history), key)
    ensures AllNewest(history, key, true) ==>
              forall cached | FindAnswer(Replay(history, false), key, cached, false) ::
                Blocked(history, key, cached, now)
    ensures AllNewest(history, key, false) ==>
              forall cached | FindAnswer(Replay(history, false), key, cached, false) ::
                !Blocked(history, key, cached, now)
    ensures forall job | IsNewest(Stored(history), key, job) ::
              && FindAnswer(Replay(history, false), key, Some(job), false)
              && (Blocked(history, key, Some(job), now) <==> HasEndedBadly(job))
  {
    IndexMeansLastWritten(history, key);
    ReplayJobs(history, false);
    forall cached | FindAnswer(Replay(history, false), key, cached, false)
      ensures cached.Some? && IsNewest(Stored(history), key, cached.value)
    {
      FindMeansHistory(history, key, cached, false);
    }
    hide Replay, FixedKeys, HasKey;
  }

  /** The step makes a second live, fresh job of a key. */
  ghost predicate Breaks(steps: seq<Step>, step: Step)
    requires Legal(steps)
  {
    var s := StateAfter(steps);
    match step
    case Create(jobId, request, key, cached, times) =>
      && HasFreshLive(s, key) && Blocked(StoreHistory(steps), key, cached, s.now)
      && s.now - times.updatedAt <= LIVE_CACHE_STALE_THRESHOLD
    case Work(_, Write(record)) => FreshLive(record, s.now) && OtherFresh(s, record)
    case _ => false
  }

  /** While a key has a fresh live job, its lookup misses exactly when it is blocked. */
  lemma BlockedIff(steps: seq<Step>, key: string, cached: Option<JobRecord>)
    requires Legal(steps) && key != "" && HasFreshLive(StateAfter(steps), key)
    requires FindAnswer(StateAfter(steps).repo, key, cached, false)
    ensures var s := StateAfter(steps);
            Blocked(StoreHistory(steps), key, cached, s.now) <==> !Reusable(cached, s.now)
  {
    var s, history := StateAfter(steps), StoreHistory(steps);
    RepoIsReplay(steps);
    HistoryHasFixedKeys(steps, key);
    FindMeansHistory(history, key, cached, false);
    ReplayJobs(history, false);
    hide Legal, StateAfter, Records, Copies, Replay, FindAnswer, StoreHistory, Genuine;
    var id :| id in s.repo.jobs && s.repo.jobs[id].cacheKey == Some(key) && FreshLive(s.repo.jobs[id], s.now);
    assert HasKey(Stored(history), key);
    if !StillStored(history, key) {
      assert IsNewest(Stored(history), key, cached.value);
      assert s.repo.jobs[id].updatedAt <= cached.value.updatedAt;
      match cached.value.status { case Queued => case Running => case Succeeded => case Failed => case Canceled => }
    }
  }

  /** Storing one record breaks the property iff it is fresh and another job of its key is. */
  lemma StoredBreaksIff(s: State, t: State, job: JobRecord)
    requires OneFresh(s) && t.now == s.now && t.repo.jobs == s.repo.jobs[job.jobId := job]
    ensures !OneFresh(t) <==> FreshLive(job, s.now) && OtherFresh(s, job)
  {
    if FreshLive(job, s.now) && OtherFresh(s, job) {
      var id :| IsFresh(s, id) && id != job.jobId && s.repo.jobs[id].cacheKey == job.cacheKey;
      assert IsFresh(t, id) && IsFresh(t, job.jobId);
    } else {
      forall a, b | IsFresh(t, a) && IsFresh(t, b) && t.repo.jobs[a].cacheKey == t.repo.jobs[b].cacheKey
          ensures a == b {
        assert a != job.jobId ==> IsFresh(s, a);
        assert b != job.jobId ==> IsFresh(s, b);
      }
    }
  }

  lemma FewerFresh(s: State, t: State)
    requires OneFresh(s)
    requires forall id | IsFresh(t, id) :: IsFresh(s, id) && t.repo.jobs[id] == s.repo.jobs[id]
    ensures OneFresh(t)
  {
  }

  /**
   From a state with at most one live, fresh job per key, a step of any run makes a second
   one exactly when it creates a job while the key has a fresh one and the lookup is
   blocked, or writes a live, fresh record while another job of its key is fresh.
   */
  lemma StepBreaksIff(steps: seq<Step>, step: Step)
    requires Legal(steps) && Enabled(StateAfter(steps), step) && OneFresh(StateAfter(steps))
    ensures !OneFresh(Next(StateAfter(steps), step)) <==> Breaks(steps, step)
  {
    RepoIsReplay(steps);
    match step {
      case Create(_, _, _, _, _) => CreateBreaksIff(steps, step);
      case Work(d, action) => WorkBreaksIff(StateAfter(steps), d, action);
      case _ => OthersKeepOneFresh(StateAfter(steps), step);
    }
    hide OneFresh, Enabled, Next, StateAfter, Legal, Records, Copies;
  }

  lemma WorkBreaksIff(s: State, d: nat, action: Action)
    requires Enabled(s, Step.Work(d, action)) && OneFresh(s)
    ensures !OneFresh(Next(s, Step.Work(d, action))) <==>
            action.Write? && FreshLive(action.record, s.now) && OtherFresh(s, action.record)
  {
    hide OneFresh;
    if action.Write? {
      StoredBreaksIff(s, Next(s, Step.Work(d, action)), action.record);
    } else {
      FewerFresh(s, Next(s, Step.Work(d, action)));
    }
  }

  lemma OthersKeepOneFresh(s: State, step: Step)
    requires Enabled(s, step) && OneFresh(s) && !step.Create? && !step.Work?
    ensures OneFresh(Next(s, step))
  {
    hide OneFresh;
    if step.OperatorFail? {
      StoredBreaksIff(s, Next(s, step), MarkedFailed(s.operators[step.o], s.now, step.reason));
    } else {
      FewerFresh(s, Next(s, step));
    }
  }

  lemma CreateBreaksIff(steps: seq<Step>, step: Step)
    requires Legal(steps) && Enabled(StateAfter(steps), step) && step.Create?
    requires Records(StateAfter(steps)) && OneFresh(StateAfter(steps))
    ensures !OneFresh(Next(StateAfter(steps), step)) <==> Breaks(steps, step)
  {
    var s := StateAfter(steps);
    if HasFreshLive(s, step.key) {
      BlockedIff(steps, step.key, step.cached);
    }
    assert step.jobId !in s.repo.jobs;
    hide Records, OneFresh, FindAnswer, Blocked, Legal, StateAfter;
    if Reusable(step.cached, s.now) {
      FewerFresh(s, Next(s, step));
    } else {
      var job := NewJob(step.jobId, step.request, step.key, step.cached, step.times);
      StoredBreaksIff(s, Next(s, step), job);
      assert FreshLive(job, s.now) <==> s.now - step.times.updatedAt <= LIVE_CACHE_STALE_THRESHOLD;
      hide FreshLive, NewJob;
      assert OtherFresh(s, job) <==> HasFreshLive(s, step.key);
    }
  }

  /** The run so far, at every moment, and none of its steps, respectively. */
  ghost predicate AlwaysOneFresh(steps: seq<Step>) {
    forall n | 0 <= n <= |steps| && Legal(steps[..n]) :: OneFresh(StateAfter(steps[..n]))
  }

  ghost predicate NoStepBreaks(steps: seq<Step>) {
    forall n | 0 <= n < |steps| && Legal(steps[..n]) :: !Breaks(steps[..n], steps[n])
  }

  lemma UnrollFresh(steps: seq<Step>)
    requires Legal(steps) && steps != [] && Legal(steps[..|steps| - 1])
    ensures var before := steps[..|steps| - 1];
            && (AlwaysOneFresh(steps) <==> AlwaysOneFresh(before) && OneFresh(StateAfter(steps)))
            && (NoStepBreaks(steps) <==> NoStepBreaks(before) && !Breaks(before, steps[|steps| - 1]))
            && (AlwaysOneFresh(before) ==> OneFresh(StateAfter(before)))
  {
    hide Legal, StateAfter, Breaks, OneFresh;
    var n := |steps| - 1;
    var before := steps[..n];
    forall m | 0 <= m <= n ensures before[..m] == steps[..m] {}
    forall m | 0 <= m < n ensures before[m] == steps[m] {}
    assert steps[..n + 1] == steps && before[..n] == before;
  }

  /**
   On any run each key has at most one live, fresh job at every moment exactly when no step
   breaks that.
   */
  lemma {:induction false} AlwaysOneFreshIff(steps: seq<Step>)
    requires Legal(steps)
    ensures AlwaysOneFresh(steps) <==> NoStepBreaks(steps)
    decreases |steps|
  {
    if steps == [] {
      NothingBreaks();
    } else {
      Unroll(steps);
      hide Legal, StateAfter, Breaks, OneFresh, Enabled, Next, AlwaysOneFresh, NoStepBreaks;
      var before := steps[..|steps| - 1];
      AlwaysOneFreshIff(before);
      UnrollFresh(steps);
      if OneFresh(StateAfter(before)) {
        StepBreaksIff(before, steps[|steps| - 1]);
      }
    }
  }

  lemma NothingBreaks()
    ensures AlwaysOneFresh([]) && NoStepBreaks([])
  {
    var none: seq<Step> := [];
    assert none[..0] == none;
  }
}
