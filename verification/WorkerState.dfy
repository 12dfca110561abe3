/**
 `WorkerStateService`: the worker's published runtime state, kept in memory, changed by
 observer calls and written to the state store.
 */
module WorkerState {
  import opened Base
  import opened Contracts
  import opened InFlight

  datatype Component = Component(
    name: string,
    available: bool,
    backendKind: Option<string>,
    modelVariant: Option<string>,
    supportsBatching: bool,
    supportsAsync: bool,
    fallbackReason: Option<string>
  )

  /** A snapshot of the service's capabilities. */
  datatype Capabilities = Capabilities(
    asyncEnabled: Option<bool>,
    executionDefaultBackend: Option<string>,
    refreshedAt: Option<int>,
    degraded: bool,
    notes: seq<string>,
    components: seq<Component>
  )

  datatype Probe = Probe(ok: bool, error: Option<string>)

  datatype RuntimeState = RuntimeState(
    status: string,
    lastJobId: Option<string>,
    lastError: Option<string>,
    updatedAt: Option<int>,
    startupAt: Option<int>,
    currentJobId: Option<string>,
    currentJobStartedAt: Option<int>,
    lastCompletedJobId: Option<string>,
    lastCompletedDurationMs: Option<int>,
    effectiveUrl: Option<string>,
    mlCoreMode: Option<string>,
    asyncEnabled: Option<bool>,
    capabilityRefreshError: Option<string>,
    capabilities: Option<Capabilities>,
    inFlight: seq<InFlightJob>,
    lastSubmitError: Option<string>,
    lastPollError: Option<string>,
    fallbackActive: bool,
    version: string,
    lastAction: Option<string>,
    lastWorkerProbe: Option<Probe>,
    lastMlProbe: Option<Probe>
  )

  const DEFAULT_STATE: RuntimeState :=
    RuntimeState("idle", None, None, None, None, None, None, None, None, None, None, None, None, None, [],
                 None, None, false, "", None, None, None)

  function HeadId(jobs: seq<InFlightJob>): Option<string> {
    if jobs == [] then None else Some(jobs[0].jobId)
  }

  function HeadStartedAt(jobs: seq<InFlightJob>): Option<int> {
    if jobs == [] then None else jobs[0].submitStartedAt
  }

  /**
   What every handler keeps: the status is "processing" exactly while jobs are in flight,
   the jobs are distinct, and the current job is the first of them.
   */
  ghost predicate Consistent(s: RuntimeState) {
    && Distinct(s.inFlight)
    && (s.status == "processing" <==> s.inFlight != [])
    && s.currentJobId == HeadId(s.inFlight)
    && s.currentJobStartedAt == HeadStartedAt(s.inFlight)
  }

  function Join(notes: seq<string>): string {
    if notes == [] then ""
    else if |notes| == 1 then notes[0]
    else notes[0] + "; " + Join(notes[1..])
  }

  // ---- The handlers, as changes of the state ----

  function WithJobs(s: RuntimeState, jobs: seq<InFlightJob>, jobId: string, idle: string): RuntimeState {
    s.(inFlight := jobs, status := if jobs != [] then "processing" else idle, lastJobId := Some(jobId),
       currentJobId := HeadId(jobs), currentJobStartedAt := HeadStartedAt(jobs))
  }

  function Submitted(s: RuntimeState, job: InFlightJob): RuntimeState {
    WithJobs(s, Upsert(s.inFlight, job), job.jobId, "processing").(lastSubmitError := None)
  }

  function Polled(s: RuntimeState, job: InFlightJob): RuntimeState {
    WithJobs(s, Upsert(s.inFlight, job), job.jobId, "idle").(lastPollError := job.lastError)
  }

  /** `duration` is known when the job has both of its timestamps. */
  function Finished(s: RuntimeState, jobId: string, duration: Option<int>): RuntimeState {
    WithJobs(s, Without(s.inFlight, jobId), jobId, "idle")
      .(lastError := None, lastSubmitError := None, lastPollError := None, lastCompletedJobId := Some(jobId),
        lastCompletedDurationMs := if duration.Some? then duration else s.lastCompletedDurationMs)
  }

  /** How long the job ran; `milliseconds` is the rounding of a span of microseconds. */
  function DurationOf(job: JobRecord, milliseconds: int -> int): Option<int> {
    if job.startedAt.Some? && job.finishedAt.Some?
    then Some(milliseconds(job.finishedAt.value - job.startedAt.value))
    else None
  }

  function FailedJob(s: RuntimeState, jobId: string, error: string, stage: Option<string>): RuntimeState {
    WithJobs(s, Without(s.inFlight, jobId), jobId, "error")
      .(lastError := Some(error),
        lastSubmitError := if stage == Some("ml_submit") then Some(error) else s.lastSubmitError,
        lastPollError := if stage == Some("ml_poll") then Some(error) else s.lastPollError)
  }

  function Refreshed(s: RuntimeState, c: Capabilities): RuntimeState {
    s.(capabilities := Some(c), mlCoreMode := Some(if c.asyncEnabled == Some(true) then "async" else "sync"),
       asyncEnabled := c.asyncEnabled, fallbackActive := c.degraded,
       capabilityRefreshError := if c.degraded && c.notes != [] then Some(Join(c.notes)) else None)
  }

  function Probed(s: RuntimeState, worker: Probe, ml: Probe): RuntimeState {
    s.(lastWorkerProbe := Some(worker), lastMlProbe := Some(ml),
       lastError := if worker.ok && ml.ok then None else if Truthy(worker.error) then worker.error else ml.error,
       status := if s.inFlight != [] then "processing" else if worker.ok then "idle" else "error")
  }

  function Stale(s: RuntimeState, url: Option<string>, version: string): bool {
    s.effectiveUrl != url || s.version != version
  }

  /** A changed service URL makes everything learnt about the old service void. */
  function Synced(s: RuntimeState, url: Option<string>, version: string): RuntimeState {
    (if s.effectiveUrl == url then s else
     s.(effectiveUrl := url, capabilities := None, mlCoreMode := None, asyncEnabled := None,
        capabilityRefreshError := None, fallbackActive := false, lastMlProbe := None))
    .(version := version)
  }

  function Stamped(s: RuntimeState, now: int, url: Option<string>, version: string): RuntimeState {
    Synced(s.(updatedAt := Some(now)), url, version)
  }

  /**
   The time stamp and the metadata sync, field by field: a new service address makes void
   what was learnt about the old service, everything else stays.
   */
  ghost predicate IsStamped(s: RuntimeState, t: RuntimeState, now: int, url: Option<string>, version: string) {
    && t.updatedAt == Some(now) && t.effectiveUrl == url && t.version == version
    && t.status == s.status && t.inFlight == s.inFlight && t.startupAt == s.startupAt
    && t.currentJobId == s.currentJobId && t.currentJobStartedAt == s.currentJobStartedAt
    && t.lastJobId == s.lastJobId && t.lastCompletedJobId == s.lastCompletedJobId
    && t.lastCompletedDurationMs == s.lastCompletedDurationMs
    && t.lastError == s.lastError && t.lastSubmitError == s.lastSubmitError && t.lastPollError == s.lastPollError
    && t.lastAction == s.lastAction && t.lastWorkerProbe == s.lastWorkerProbe
    && (url == s.effectiveUrl ==>
          && t.capabilities == s.capabilities && t.mlCoreMode == s.mlCoreMode && t.asyncEnabled == s.asyncEnabled
          && t.capabilityRefreshError == s.capabilityRefreshError && t.fallbackActive == s.fallbackActive
          && t.lastMlProbe == s.lastMlProbe)
    && (url != s.effectiveUrl ==>
          && t.capabilities == None && t.mlCoreMode == None && t.asyncEnabled == None
          && t.capabilityRefreshError == None && !t.fallbackActive && t.lastMlProbe == None)
  }

  lemma StampedMeans(s: RuntimeState, now: int, url: Option<string>, version: string)
    ensures IsStamped(s, Stamped(s, now, url, version), now, url, version)
  {
  }

  /** What a report of a job leaves besides the list: status and current job follow the list. */
  ghost predicate Follows(t: RuntimeState, jobId: string, idle: string) {
    && t.lastJobId == Some(jobId) && t.status == (if t.inFlight == [] then idle else "processing")
    && (t.inFlight == [] ==> t.currentJobId == None && t.currentJobStartedAt == None)
    && (t.inFlight != [] ==>
          t.currentJobId == Some(t.inFlight[0].jobId) && t.currentJobStartedAt == t.inFlight[0].submitStartedAt)
  }

  /** Only the list, the fields that follow it and the error fields differ. */
  ghost predicate OnlyJobs(s: RuntimeState, t: RuntimeState) {
    t == s.(inFlight := t.inFlight, status := t.status, lastJobId := t.lastJobId, currentJobId := t.currentJobId,
            currentJobStartedAt := t.currentJobStartedAt, lastError := t.lastError,
            lastSubmitError := t.lastSubmitError, lastPollError := t.lastPollError)
  }

  lemma SubmittedMeans(s: RuntimeState, job: InFlightJob)
    ensures var t := Submitted(s, job);
            && OnlyJobs(s, t) && Follows(t, job.jobId, "processing") && t.inFlight == Upsert(s.inFlight, job)
            && t.lastSubmitError == None && t.lastPollError == s.lastPollError && t.lastError == s.lastError
  {
  }

  lemma PolledMeans(s: RuntimeState, job: InFlightJob)
    ensures var t := Polled(s, job);
            && OnlyJobs(s, t) && Follows(t, job.jobId, "idle") && t.inFlight == Upsert(s.inFlight, job)
            && t.lastPollError == job.lastError && t.lastSubmitError == s.lastSubmitError && t.lastError == s.lastError
  {
  }

  lemma FinishedMeans(s: RuntimeState, jobId: string, duration: Option<int>)
    ensures var t := Finished(s, jobId, duration);
            && OnlyJobs(s, t.(lastCompletedJobId := s.lastCompletedJobId,
                              lastCompletedDurationMs := s.lastCompletedDurationMs))
            && Follows(t, jobId, "idle") && t.inFlight == Without(s.inFlight, jobId)
            && t.lastError == None && t.lastSubmitError == None && t.lastPollError == None
            && t.lastCompletedJobId == Some(jobId)
            && (duration.Some? ==> t.lastCompletedDurationMs == duration)
            && (duration == None ==> t.lastCompletedDurationMs == s.lastCompletedDurationMs)
  {
  }

  lemma FailedMeans(s: RuntimeState, jobId: string, error: string, stage: Option<string>)
    ensures var t := FailedJob(s, jobId, error, stage);
            && OnlyJobs(s, t) && Follows(t, jobId, "error") && t.inFlight == Without(s.inFlight, jobId)
            && t.lastError == Some(error)
            && (stage == Some("ml_submit") ==> t.lastSubmitError == Some(error) && t.lastPollError == s.lastPollError)
            && (stage == Some("ml_poll") ==> t.lastPollError == Some(error) && t.lastSubmitError == s.lastSubmitError)
            && (stage != Some("ml_submit") && stage != Some("ml_poll") ==>
                  t.lastSubmitError == s.lastSubmitError && t.lastPollError == s.lastPollError)
  {
    assert "ml_submit"[3] != "ml_poll"[3];
  }

  lemma RefreshedMeans(s: RuntimeState, c: Capabilities)
    ensures var t := Refreshed(s, c);
            && t == s.(capabilities := Some(c), asyncEnabled := c.asyncEnabled, fallbackActive := c.degraded,
                       mlCoreMode := t.mlCoreMode, capabilityRefreshError := t.capabilityRefreshError)
            && (c.asyncEnabled == Some(true) ==> t.mlCoreMode == Some("async"))
            && (c.asyncEnabled != Some(true) ==> t.mlCoreMode == Some("sync"))
            && (t.capabilityRefreshError.Some? <==> c.degraded && c.notes != [])
            && (|c.notes| == 1 && c.degraded ==> t.capabilityRefreshError == Some(c.notes[0]))
            && (|c.notes| == 2 && c.degraded ==> t.capabilityRefreshError == Some(c.notes[0] + "; " + c.notes[1]))
  {
    if |c.notes| == 2 {
      assert Join(c.notes[1..]) == c.notes[1];
      assert c.notes[0] + "; " + c.notes[1] == c.notes[0] + ("; " + c.notes[1]);
    }
  }

  lemma ProbedMeans(s: RuntimeState, worker: Probe, ml: Probe)
    ensures var t := Probed(s, worker, ml);
            && t == s.(lastWorkerProbe := Some(worker), lastMlProbe := Some(ml), lastError := t.lastError,
                       status := t.status)
            && (worker.ok && ml.ok ==> t.lastError == None)
            && (!(worker.ok && ml.ok) && worker.error.Some? && worker.error.value != "" ==>
                  t.lastError == worker.error)
            && (!(worker.ok && ml.ok) && (worker.error == None || worker.error.value == "") ==>
                  t.lastError == ml.error)
            && (s.inFlight != [] ==> t.status == "processing")
            && (s.inFlight == [] && worker.ok ==> t.status == "idle")
            && (s.inFlight == [] && !worker.ok ==> t.status == "error")
  {
  }

  lemma ReportsKeepConsistent(s: RuntimeState, job: InFlightJob)
    requires Consistent(s)
    ensures Consistent(Submitted(s, job)) && Consistent(Polled(s, job))
  {
    AfterKeepsDistinct(s.inFlight, Reported(job));
  }

  lemma LeavingKeepsConsistent(s: RuntimeState, jobId: string, duration: Option<int>, error: string,
                               stage: Option<string>)
    requires Consistent(s)
    ensures Consistent(Finished(s, jobId, duration)) && Consistent(FailedJob(s, jobId, error, stage))
  {
    AfterKeepsDistinct(s.inFlight, Left(jobId));
  }

  lemma OthersKeepConsistent(s: RuntimeState, c: Capabilities, worker: Probe, ml: Probe, action: string)
    requires Consistent(s)
    ensures Consistent(Refreshed(s, c)) && Consistent(Probed(s, worker, ml))
    ensures Consistent(s.(lastAction := Some(action))) && Consistent(Relaxed(s))
  {
  }

  lemma StampedKeepsConsistent(s: RuntimeState, now: int, url: Option<string>, version: string)
    requires Consistent(s)
    ensures Consistent(Stamped(s, now, url, version)) && Stamped(s, now, url, version).inFlight == s.inFlight
  {
  }

  predicate BootWrites(s: RuntimeState, url: Option<string>, version: string) {
    s.startupAt == None || (s.status != "idle" && s.inFlight == []) || Stale(s, url, version) || s.updatedAt == None
  }

  /** Boot records the first start, drops a left-over status and takes over the metadata. */
  function Booted(s: RuntimeState, now: int, url: Option<string>, version: string): RuntimeState {
    if !BootWrites(s, url, version) then s
    else
      Synced(s.(startupAt := if s.startupAt == None then Some(now) else s.startupAt,
                status := if s.inFlight == [] then "idle" else s.status), url, version)
      .(updatedAt := Some(now))
  }

  lemma BootedKeepsConsistent(s: RuntimeState, now: int, url: Option<string>, version: string)
    requires Consistent(s)
    ensures Consistent(Booted(s, now, url, version)) && Booted(s, now, url, version).inFlight == s.inFlight
  {
  }

  /** When boot writes, and what. */
  lemma BootedMeans(s: RuntimeState, now: int, url: Option<string>, version: string)
    ensures BootWrites(s, url, version) <==>
              || s.startupAt == None || (s.status != "idle" && s.inFlight == [])
              || s.effectiveUrl != url || s.version != version || s.updatedAt == None
    ensures !BootWrites(s, url, version) ==> Booted(s, now, url, version) == s
    ensures BootWrites(s, url, version) ==>
              IsStamped(s.(startupAt := if s.startupAt == None then Some(now) else s.startupAt,
                           status := if s.inFlight == [] then "idle" else s.status),
                        Booted(s, now, url, version), now, url, version)
  {
  }

  // ---- The idle heartbeat ----

  function Relaxed(s: RuntimeState): RuntimeState {
    if s.inFlight == [] && s.status != "idle" && s.lastError == None then s.(status := "idle") else s
  }

  predicate HeartbeatDue(s: RuntimeState, now: int, interval: int) {
    s.updatedAt == None || now - s.updatedAt.value >= interval
  }

  /** Nothing but the time can make an idle heartbeat write. */
  predicate Quiet(s: RuntimeState, url: Option<string>, version: string) {
    Relaxed(s) == s && !Stale(s, url, version)
  }

  predicate HeartbeatWrites(s: RuntimeState, now: int, url: Option<string>, version: string, interval: int) {
    Relaxed(s) != s || Stale(s, url, version) || HeartbeatDue(s, now, interval)
  }

  function Heartbeat(s: RuntimeState, now: int, url: Option<string>, version: string, interval: int): RuntimeState {
    if HeartbeatWrites(s, now, url, version, interval)
    then Synced(Relaxed(s), url, version).(updatedAt := Some(now))
    else s
  }

  /** When a heartbeat writes, and what. */
  lemma HeartbeatMeans(s: RuntimeState, now: int, url: Option<string>, version: string, interval: int)
    ensures HeartbeatWrites(s, now, url, version, interval) <==>
              || (s.inFlight == [] && s.status != "idle" && s.lastError == None)
              || s.effectiveUrl != url || s.version != version
              || s.updatedAt == None || now - s.updatedAt.value >= interval
    ensures !HeartbeatWrites(s, now, url, version, interval) ==> Heartbeat(s, now, url, version, interval) == s
    ensures HeartbeatWrites(s, now, url, version, interval) ==>
              IsStamped(s.(status := if s.inFlight == [] && s.lastError == None then "idle" else s.status),
                        Heartbeat(s, now, url, version, interval), now, url, version)
  {
  }

  /** The state after heartbeats at the given times. */
  function Heartbeats(s: RuntimeState, times: seq<int>, url: Option<string>, version: string,
                      interval: int)
    : RuntimeState
  {
    if times == [] then s
    else
      var n := |times| - 1;
      Heartbeat(Heartbeats(s, times[..n], url, version, interval), times[n], url, version, interval)
  }

  /** How many of them wrote to the store. */
  function HeartbeatStores(s: RuntimeState, times: seq<int>, url: Option<string>, version: string, interval: int): nat {
    if times == [] then 0
    else
      var before := times[..|times| - 1];
      HeartbeatStores(s, before, url, version, interval)
      + if HeartbeatWrites(Heartbeats(s, before, url, version, interval), times[|times| - 1], url, version, interval)
        then 1 else 0
  }

  lemma OneHeartbeat(s: RuntimeState, now: int, url: Option<string>, version: string, interval: int)
    requires Quiet(s, url, version)
    ensures HeartbeatWrites(s, now, url, version, interval) == HeartbeatDue(s, now, interval)
    ensures Heartbeat(s, now, url, version, interval) ==
            if HeartbeatDue(s, now, interval) then s.(updatedAt := Some(now)) else s
    ensures Quiet(Heartbeat(s, now, url, version, interval), url, version)
  {
  }

  lemma LastHeartbeat(s: RuntimeState, times: seq<int>, url: Option<string>, version: string, interval: int)
    requires times != []
    ensures var last := times[|times| - 1];
            var before := Heartbeats(s, times[..|times| - 1], url, version, interval);
            && Heartbeats(s, times, url, version, interval) == Heartbeat(before, last, url, version, interval)
            && HeartbeatStores(s, times, url, version, interval)
               == HeartbeatStores(s, times[..|times| - 1], url, version, interval)
                  + if HeartbeatWrites(before, last, url, version, interval) then 1 else 0
  {
    hide Heartbeat, HeartbeatWrites;
  }

  /** `n` intervals fit into the span. */
  predicate Spaced(n: int, interval: int, span: int) {
    n * interval <= span
  }

  lemma OneMoreInterval(n: int, interval: int, span: int, longer: int)
    ensures 0 <= longer ==> Spaced(0, interval, longer)
    ensures Spaced(n, interval, span) && span + interval <= longer ==> Spaced(n + 1, interval, longer)
  {
    assert (n + 1) * interval == n * interval + interval;
  }

  /** The writes so far fit the time since the first call, counted up to the last stamp. */
  lemma {:induction false} StampsAreSpaced(s: RuntimeState, times: seq<int>, url: Option<string>, version: string,
                                           interval: int)
    requires interval > 0 && Quiet(s, url, version) && times != []
    requires forall i, j | 0 <= i <= j < |times| :: times[i] <= times[j]
    ensures var after, writes := Heartbeats(s, times, url, version, interval),
            HeartbeatStores(s, times, url, version, interval);
            && Quiet(after, url, version)
            && after.updatedAt.Some? && times[|times| - 1] - after.updatedAt.value < interval
            && (writes > 0 ==> times[0] <= after.updatedAt.value <= times[|times| - 1]
                               && Spaced(writes - 1, interval, after.updatedAt.value - times[0]))
            && (writes == 0 ==> after == s)
    decreases |times|
  {
    hide Heartbeat, HeartbeatWrites, Quiet, Spaced;
    var n := |times| - 1;
    var before := times[..n];
    if n > 0 {
      StampsAreSpaced(s, before, url, version, interval);
      var writes := HeartbeatStores(s, before, url, version, interval);
      if writes > 0 {
        var stamp := Heartbeats(s, before, url, version, interval).updatedAt.value - times[0];
        OneMoreInterval(writes - 1, interval, stamp, times[n] - times[0]);
      }
    } else {
      assert before == [];
      assert Heartbeats(s, before, url, version, interval) == s;
      assert HeartbeatStores(s, before, url, version, interval) == 0;
    }
    OneMoreInterval(0, interval, 0, times[n] - times[0]);
    LastHeartbeat(s, times, url, version, interval);
    OneHeartbeat(Heartbeats(s, before, url, version, interval), times[n], url, version, interval);
    hide Heartbeats, HeartbeatStores;
  }

  /**
   Over any run of idle heartbeats with unchanged status and metadata, the store is
   written at most once per interval, plus one, and after every call the published state
   is younger than the interval.
   */
  lemma HeartbeatThrottle(s: RuntimeState, times: seq<int>, url: Option<string>, version: string, interval: int)
    requires interval > 0 && Quiet(s, url, version) && times != []
    requires forall i, j | 0 <= i <= j < |times| :: times[i] <= times[j]
    ensures HeartbeatStores(s, times, url, version, interval) <= (times[|times| - 1] - times[0]) / interval + 1
    ensures var after := Heartbeats(s, times, url, version, interval);
            after.updatedAt.Some? && times[|times| - 1] - after.updatedAt.value < interval
  {
    hide Heartbeat, HeartbeatWrites, Quiet, Heartbeats, HeartbeatStores, Spaced;
    MostWritesIsQuotient(times[|times| - 1] - times[0], interval);
    hide MostWrites;
    StampsAreSpaced(s, times, url, version, interval);
    var writes := HeartbeatStores(s, times, url, version, interval);
    if writes > 0 {
      var stamp := Heartbeats(s, times, url, version, interval).updatedAt.value;
      DivideSpan(writes - 1, stamp - times[0], times[|times| - 1] - times[0], interval);
    } else {
      OneMoreInterval(0, interval, 0, 0);
      DivideSpan(0, 0, times[|times| - 1] - times[0], interval);
    }
  }

  function MostWrites(span: int, interval: int): int
    requires interval > 0
  {
    span / interval + 1
  }

  lemma MostWritesIsQuotient(span: int, interval: int)
    requires interval > 0
    ensures MostWrites(span, interval) == span / interval + 1
  {
  }

  lemma DivideSpan(k: nat, part: int, span: int, interval: int)
    requires interval > 0 && Spaced(k, interval, part) && part <= span
    ensures k + 1 <= MostWrites(span, interval)
  {
    var q := span / interval;
    if k > q {
      ProductsGrow(q + 1, k, interval);
    }
  }

  lemma ProductsGrow(a: int, b: int, d: nat)
    requires a <= b
    ensures a * d <= b * d
  {
    assert (b - a) * d >= 0;
  }

  // ---- The service ----

  class WorkerStateService {
    var stored: RuntimeState            // the worker state store
    var runtimeUrl: Option<string>      // the runtime config store
    const configUrl: Option<string>
    const version: string
    const heartbeatInterval: int
    const milliseconds: int -> int      // whole milliseconds, by way of a float number of seconds
    var state: Option<RuntimeState>     // loaded on first use
    ghost var events: seq<Event>
    ghost var writes: nat

    function Current(): RuntimeState
      reads this
    {
      if state.Some? then state.value else stored
    }

    function Effective(): Option<string>
      reads this
    {
      if Truthy(runtimeUrl) then runtimeUrl else configUrl
    }

    /** The state is consistent, published, and its jobs in flight are the replay of the events. */
    ghost predicate Valid()
      reads this
    {
      && Consistent(Current()) && Current() == stored
      && Current().inFlight == Replay(events)
    }

    /** At any time the published list is explained by the calls made so far. */
    lemma PublishedMeansHistory() returns (first: seq<nat>, latest: seq<nat>)
      requires Valid()
      ensures Explained(events, stored.inFlight, first, latest)
      ensures stored.status == "processing" <==> stored.inFlight != []
      ensures stored.currentJobId == HeadId(stored.inFlight)
    {
      first, latest := ListMeansHistory(events);
    }

    /** `published` is what an earlier service has left in the store. */
    constructor (published: Option<RuntimeState>, runtimeUrl: Option<string>, configUrl: Option<string>,
                 version: string, heartbeatInterval: int, milliseconds: int -> int)
      requires published.Some? ==> Consistent(published.value)
      ensures Valid() && Current() == (if published.Some? then published.value else DEFAULT_STATE) && writes == 0
      ensures published == None ==>
                && Current().status == "idle" && Current().inFlight == [] && Current().startupAt == None
                && Current().updatedAt == None && Current().lastError == None && Current().capabilities == None
                && !Current().fallbackActive && Current().version == ""
    {
      var loaded := if published.Some? then published.value else DEFAULT_STATE;
      stored, state := loaded, None;
      this.runtimeUrl, this.configUrl, this.version, this.heartbeatInterval, this.milliseconds :=
          runtimeUrl, configUrl, version, heartbeatInterval, milliseconds;
      events := AllReported(loaded.inFlight);
      writes := 0;
      ReplayReports(loaded.inFlight);
    }

    method Load() returns (s: RuntimeState)
      modifies `state
      ensures s == old(Current()) && state == Some(s)
    {
      if state == None {
        state := Some(stored);
      }
      s := state.value;
    }

    method SyncMetadata(before: RuntimeState) returns (s: RuntimeState, changed: bool)
      ensures s == Synced(before, Effective(), version) && changed == Stale(before, Effective(), version)
    {
      s, changed := before, false;
      var url := if Truthy(runtimeUrl) then runtimeUrl else configUrl;
      if s.effectiveUrl != url {
        s := s.(effectiveUrl := url);
        s := s.(capabilities := None, mlCoreMode := None, asyncEnabled := None);
        s := s.(capabilityRefreshError := None, fallbackActive := false, lastMlProbe := None);
        changed := true;
      }
      if s.version != version {
        s := s.(version := version);
        changed := true;
      }
    }

    method Persist(s: RuntimeState, ghost event: Event)
      requires Valid() && Consistent(s) && s.inFlight == After(Current().inFlight, event)
      modifies `stored, `state, `events, `writes
      ensures Valid() && stored == s && Current() == s && events == old(events) + [event] && writes == old(writes) + 1
    {
      ReplaySnoc(events, event);
      stored := s;
      state := Some(stored);
      events := events + [event];
      writes := writes + 1;
    }

    /** `_upsert_in_flight_locked`: in place if the job is listed, appended otherwise. */
    method UpsertInFlight(jobs: seq<InFlightJob>, job: InFlightJob) returns (updated: seq<InFlightJob>)
      requires Distinct(jobs)
      ensures updated == Upsert(jobs, job)
    {
      var index := 0;
      while index < |jobs|
        invariant 0 <= index <= |jobs|
        invariant forall i | 0 <= i < index :: jobs[i].jobId != job.jobId
      {
        if jobs[index].jobId == job.jobId {
          UpsertFound(jobs, job, index);
          return jobs[index := job];
        }
        index := index + 1;
      }
      UpsertNew(jobs, job);
      return jobs + [job];
    }

    /** The list comprehension of `job_finished` and `job_failed`. */
    method RemoveInFlight(jobs: seq<InFlightJob>, jobId: string) returns (updated: seq<InFlightJob>)
      ensures updated == Without(jobs, jobId)
    {
      updated := [];
      assert jobs[..0] == [];
      for i := 0 to |jobs|
        invariant updated == Without(jobs[..i], jobId)
      {
        WithoutLast(jobs[..i], jobs[i], jobId);
        assert jobs[..i + 1] == jobs[..i] + [jobs[i]];
        if jobs[i].jobId != jobId {
          updated := updated + [jobs[i]];
        }
      }
      assert jobs[..|jobs|] == jobs;
    }

    method Boot(now: int)
      requires Valid()
      modifies `stored, `state, `events, `writes
      ensures Valid() && Current().inFlight == old(Current()).inFlight
      ensures Current() == Booted(old(Current()), now, Effective(), version)
      ensures writes == old(writes) + if BootWrites(old(Current()), Effective(), version) then 1 else 0
    {
      hide Consistent, Replay, Distinct;
      var s := Load();
      var changed := false;
      if s.startupAt == None {
        s := s.(startupAt := Some(now));
        changed := true;
      }
      if s.status != "idle" && s.inFlight == [] {
        s := s.(status := "idle");
        changed := true;
      }
      var synced;
      s, synced := SyncMetadata(s);
      changed := synced || changed;
      if s.updatedAt == None {
        changed := true;
      }
      if !changed {
        return;
      }
      s := s.(updatedAt := Some(now));
      BootedKeepsConsistent(Current(), now, Effective(), version);
      Persist(s, Unrelated);
    }

    method HeartbeatIdle(now: int)
      requires Valid()
      modifies `stored, `state, `events, `writes
      ensures Valid() && Current().inFlight == old(Current()).inFlight
      ensures Current() == Heartbeat(old(Current()), now, Effective(), version, heartbeatInterval)
      ensures writes == old(writes)
              + if HeartbeatWrites(old(Current()), now, Effective(), version, heartbeatInterval) then 1 else 0
    {
      hide Replay, Distinct;
      var s := Load();
      var changed := false;
      if s.inFlight == [] && s.status != "idle" && s.lastError == None {
        s := s.(status := "idle");
        changed := true;
      }
      var synced;
      s, synced := SyncMetadata(s);
      changed := synced || changed;
      if !changed && !HeartbeatDue(s, now, heartbeatInterval) {
        return;
      }
      s := s.(updatedAt := Some(now));
      Persist(s, Unrelated);
    }

    method CapabilitiesRefreshed(snapshot: Capabilities, now: int)
      requires Valid()
      modifies `stored, `state, `events, `writes
      ensures Valid() && events == old(events) + [Unrelated] && writes == old(writes) + 1
      ensures Current() == Stamped(Refreshed(old(Current()), snapshot), now, Effective(), version)
    {
      hide Consistent, Replay, Join, Synced;
      var s := Load();
      OthersKeepConsistent(s, snapshot, Probe(true, None), Probe(true, None), "");
      StampedKeepsConsistent(Refreshed(s, snapshot), now, Effective(), version);
      s := s.(capabilities := Some(snapshot),
              mlCoreMode := Some(if snapshot.asyncEnabled == Some(true) then "async" else "sync"),
              asyncEnabled := snapshot.asyncEnabled, fallbackActive := snapshot.degraded);
      var explained := snapshot.degraded && snapshot.notes != [];
      s := s.(capabilityRefreshError := if explained then Some(Join(snapshot.notes)) else None);
      s := s.(updatedAt := Some(now));
      var synced;
      s, synced := SyncMetadata(s);
      Persist(s, Unrelated);
    }

    method JobSubmitted(job: InFlightJob, now: int)
      requires Valid()
      modifies `stored, `state, `events, `writes
      ensures Valid() && events == old(events) + [Reported(job)] && writes == old(writes) + 1
      ensures Current() == Stamped(Submitted(old(Current()), job), now, Effective(), version)
    {
      hide Replay, Upsert, Synced;
      var s := Load();
      AfterKeepsDistinct(s.inFlight, Reported(job));
      ReportsKeepConsistent(s, job);
      StampedKeepsConsistent(Submitted(s, job), now, Effective(), version);
      hide Consistent;
      var jobs := UpsertInFlight(s.inFlight, job);
      s := s.(inFlight := jobs, status := "processing", lastJobId := Some(job.jobId));
      s := s.(currentJobId := if jobs != [] then Some(jobs[0].jobId) else Some(job.jobId));
      s := s.(currentJobStartedAt := if jobs != [] then jobs[0].submitStartedAt else job.submitStartedAt);
      s := s.(lastSubmitError := None, updatedAt := Some(now));
      var synced;
      s, synced := SyncMetadata(s);
      Persist(s, Reported(job));
    }

    method JobPolled(job: InFlightJob, now: int)
      requires Valid()
      modifies `stored, `state, `events, `writes
      ensures Valid() && events == old(events) + [Reported(job)] && writes == old(writes) + 1
      ensures Current() == Stamped(Polled(old(Current()), job), now, Effective(), version)
    {
      hide Replay, Upsert, Synced;
      var s := Load();
      ReportsKeepConsistent(s, job);
      StampedKeepsConsistent(Polled(s, job), now, Effective(), version);
      hide Consistent;
      var jobs := UpsertInFlight(s.inFlight, job);
      s := s.(inFlight := jobs, status := if jobs != [] then "processing" else "idle", lastJobId := Some(job.jobId));
      s := s.(currentJobId := HeadId(jobs), currentJobStartedAt := HeadStartedAt(jobs));
      s := s.(lastPollError := job.lastError, updatedAt := Some(now));
      var synced;
      s, synced := SyncMetadata(s);
      Persist(s, Reported(job));
    }

    method JobFinished(job: JobRecord, now: int)
      requires Valid()
      modifies `stored, `state, `events, `writes
      ensures Valid() && events == old(events) + [Left(job.jobId)] && writes == old(writes) + 1
      ensures Current() ==
              Stamped(Finished(old(Current()), job.jobId, DurationOf(job, milliseconds)), now, Effective(), version)
    {
      hide Replay, Without, Synced;
      var s := Load();
      var jobId := job.jobId;
      LeavingKeepsConsistent(s, jobId, DurationOf(job, milliseconds), "", None);
      StampedKeepsConsistent(Finished(s, jobId, DurationOf(job, milliseconds)), now, Effective(), version);
      hide Consistent;
      var jobs := RemoveInFlight(s.inFlight, jobId);
      s := s.(inFlight := jobs, status := if jobs != [] then "processing" else "idle", lastJobId := Some(jobId));
      s := s.(currentJobId := HeadId(jobs), currentJobStartedAt := HeadStartedAt(jobs));
      s := s.(lastError := None, lastSubmitError := None, lastPollError := None, lastCompletedJobId := Some(jobId));
      if job.startedAt.Some? && job.finishedAt.Some? {
        s := s.(lastCompletedDurationMs := Some(milliseconds(job.finishedAt.value - job.startedAt.value)));
      }
      s := s.(updatedAt := Some(now));
      var synced;
      s, synced := SyncMetadata(s);
      Persist(s, Left(jobId));
    }

    method JobFailed(jobId: string, error: string, stage: Option<string>, now: int)
      requires Valid()
      modifies `stored, `state, `events, `writes
      ensures Valid() && events == old(events) + [Left(jobId)] && writes == old(writes) + 1
      ensures Current() == Stamped(FailedJob(old(Current()), jobId, error, stage), now, Effective(), version)
      ensures Current().lastError == Some(error)
      ensures stage == Some("ml_submit") ==>
                Current().lastSubmitError == Some(error) && Current().lastPollError == old(Current()).lastPollError
      ensures stage == Some("ml_poll") ==>
                Current().lastPollError == Some(error) && Current().lastSubmitError == old(Current()).lastSubmitError
    {
      hide Replay, Without, Synced;
      var s := Load();
      FailedMeans(s, jobId, error, stage);
      StampedMeans(FailedJob(s, jobId, error, stage), now, Effective(), version);
      LeavingKeepsConsistent(s, jobId, None, error, stage);
      StampedKeepsConsistent(FailedJob(s, jobId, error, stage), now, Effective(), version);
      hide Consistent;
      var jobs := RemoveInFlight(s.inFlight, jobId);
      s := s.(inFlight := jobs, status := if jobs == [] then "error" else "processing", lastJobId := Some(jobId));
      s := s.(currentJobId := HeadId(jobs), currentJobStartedAt := HeadStartedAt(jobs), lastError := Some(error));
      if stage == Some("ml_submit") {
        s := s.(lastSubmitError := Some(error));
      } else if stage == Some("ml_poll") {
        s := s.(lastPollError := Some(error));
      }
      s := s.(updatedAt := Some(now));
      var synced;
      s, synced := SyncMetadata(s);
      Persist(s, Left(jobId));
    }

    method ActionState(action: string, now: int)
      requires Valid()
      modifies `stored, `state, `events, `writes
      ensures Valid() && events == old(events) + [Unrelated] && writes == old(writes) + 1
      ensures Current() == Stamped(old(Current()).(lastAction := Some(action)), now, Effective(), version)
    {
      var s := Load();
      s := s.(lastAction := Some(action));
      s := s.(updatedAt := Some(now));
      var synced;
      s, synced := SyncMetadata(s);
      Persist(s, Unrelated);
    }

    method DiagnosticProbe(worker: Probe, ml: Probe, now: int)
      requires Valid()
      modifies `stored, `state, `events, `writes
      ensures Valid() && events == old(events) + [Unrelated] && writes == old(writes) + 1
      ensures Current() == Stamped(Probed(old(Current()), worker, ml), now, Effective(), version)
    {
      hide Consistent, Replay, Synced;
      var s := Load();
      OthersKeepConsistent(s, Capabilities(None, None, None, false, [], []), worker, ml, "");
      StampedKeepsConsistent(Probed(s, worker, ml), now, Effective(), version);
      s := s.(lastWorkerProbe := Some(worker), lastMlProbe := Some(ml));
      var error := if Truthy(worker.error) then worker.error else ml.error;
      s := s.(lastError := if worker.ok && ml.ok then None else error);
      s := s.(status := if s.inFlight != [] then "processing" else if worker.ok then "idle" else "error");
      s := s.(updatedAt := Some(now));
      var synced;
      s, synced := SyncMetadata(s);
      Persist(s, Unrelated);
    }
  }
}
