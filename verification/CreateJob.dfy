/**
 `CreateJobUseCase.execute`: a request is answered with a stored job when one can be
 reused, otherwise with a new job, stored and then published.
 */
module CreateJob {
  import opened Base
  import opened Domain
  import opened Contracts
  import opened Trace
  import opened JobStore
  import opened JobRepositories
  import opened MemoryQueue
  import opened CacheKey

  const LIVE_CACHE_STALE_THRESHOLD := 300 * 1_000_000

  predicate IsLiveCacheStale(job: JobRecord, now: int) {
    now - job.updatedAt > LIVE_CACHE_STALE_THRESHOLD
  }

  /** Queued or running, and updated recently enough. */
  predicate FreshLive(job: JobRecord, now: int) {
    job.status.IsLive() && !IsLiveCacheStale(job, now)
  }

  predicate Reusable(cached: Option<JobRecord>, now: int) {
    cached.Some? && (cached.value.status == Succeeded || FreshLive(cached.value, now))
  }

  function StatusName(status: JobStatus): string {
    match status
    case Queued => "queued"
    case Running => "running"
    case Succeeded => "succeeded"
    case Failed => "failed"
    case Canceled => "canceled"
  }

  function Reuse(cached: JobRecord): JobRecord {
    cached.(cacheStatus := "hit-" + StatusName(cached.status), reusedExisting := true)
  }

  /** The clock readings of a new record and of its three trace entries. */
  datatype Times = Times(createdAt: int, updatedAt: int, madeAt: int, lookedUpAt: int, queuedAt: int)

  function NewJob(jobId: string, request: RenderRequest, key: string, cached: Option<JobRecord>, times: Times)
    : JobRecord
  {
    JobRecord(
      jobId, Queued, request, Some(key), times.createdAt, times.updatedAt, None, None, None, None,
      Recorded(Recorded(Recorded([], "created", StageSucceeded, times.madeAt, None),
                        "cache_lookup", StageSucceeded, times.lookedUpAt, None),
               "queued", StageSucceeded, times.queuedAt, None),
      if cached.Some? && cached.value.status.IsLive() then "miss-stale-" + StatusName(cached.value.status) else "miss",
      false)
  }

  /** The request, the key and the times of a new job, and nothing that only an execution knows. */
  ghost predicate IsNew(job: JobRecord, jobId: string, request: RenderRequest, key: string, cached: Option<JobRecord>,
                        times: Times)
  {
    && job.jobId == jobId && job.request == request && job.cacheKey == Some(key)
    && job.status == Queued && job.createdAt == times.createdAt && job.updatedAt == times.updatedAt
    && job.startedAt == None && job.finishedAt == None && job.error == None && job.result == None
    && !job.reusedExisting && job.cacheStatus == MissStatus(cached)
    && job.trace == [
         Stage("created", StageSucceeded, times.madeAt, Some(times.madeAt), None),
         Stage("cache_lookup", StageSucceeded, times.lookedUpAt, Some(times.lookedUpAt), None),
         Stage("queued", StageSucceeded, times.queuedAt, Some(times.queuedAt), None)]
  }

  /** Why nothing was reused: no job, one that ended badly, or a live one that is stale. */
  function MissStatus(cached: Option<JobRecord>): string {
    if cached.Some? && cached.value.status == Queued then "miss-stale-queued"
    else if cached.Some? && cached.value.status == Running then "miss-stale-running"
    else "miss"
  }

  /** The stored job with two fields changed, neither of which is stored. */
  ghost predicate IsHit(job: JobRecord, cached: JobRecord) {
    && job == cached.(cacheStatus := job.cacheStatus, reusedExisting := true)
    && (cached.status == Succeeded ==> job.cacheStatus == "hit-succeeded")
    && (cached.status == Queued ==> job.cacheStatus == "hit-queued")
    && (cached.status == Running ==> job.cacheStatus == "hit-running")
  }

  /** Succeeded, or live and updated at most 300 seconds ago. */
  predicate CanAnswer(cached: Option<JobRecord>, now: int) {
    cached.Some? && (
      || cached.value.status == Succeeded
      || ((cached.value.status == Queued || cached.value.status == Running)
          && now - cached.value.updatedAt <= 300_000_000))
  }

  lemma NewJobIsNew(jobId: string, request: RenderRequest, key: string, cached: Option<JobRecord>, times: Times)
    ensures IsNew(NewJob(jobId, request, key, cached, times), jobId, request, key, cached, times)
  {
  }

  lemma ReuseIsHit(cached: JobRecord)
    ensures IsHit(Reuse(cached), cached)
  {
  }

  lemma ReusableMeans(cached: Option<JobRecord>, now: int)
    ensures Reusable(cached, now) <==> CanAnswer(cached, now)
  {
  }

  /** A new job is QUEUED, with a closed trace and timestamps in order. */
  lemma NewJobIsClosed(jobId: string, request: RenderRequest, key: string, cached: Option<JobRecord>, times: Times)
    requires times.createdAt <= times.updatedAt
    ensures var job := NewJob(jobId, request, key, cached, times);
            job.status == Queued && Closed(job.trace) && Ordered(LifeOf(job))
  {
  }

  /**
   Which requests are answered with a stored job, over any history of the store: while the
   job last written under the key is stored, it alone decides; otherwise a job updated last
   does.
   */
  lemma ReuseIff(history: seq<Op>, key: string, cached: Option<JobRecord>, now: int)
    requires FixedKeys(history) && key != "" && FindAnswer(Replay(history, false), key, cached, false)
    ensures StillStored(history, key) && LastWritten(history, key).value != "" ==>
              (Reusable(cached, now) <==> Reusable(Some(Stored(history)[LastWritten(history, key).value]), now))
    ensures !(StillStored(history, key) && LastWritten(history, key).value != "") && HasKey(Stored(history), key) ==>
              cached.Some? && IsNewest(Stored(history), key, cached.value)
    ensures Reusable(cached, now) ==> HasKey(Stored(history), key)
  {
    FindMeansHistory(history, key, cached, false);
  }

  /** So a succeeded job behind a failed one written later is not reused, although the documentation promises it. */
  lemma SucceededBehindFailedIsNotReused(done: JobRecord, failed: JobRecord, key: string, cached: Option<JobRecord>,
                                         now: int)
    requires done.cacheKey == failed.cacheKey == Some(key) && key != "" && done.jobId != failed.jobId
             && failed.jobId != ""
    requires done.status == Succeeded && failed.status == Failed
    requires FindAnswer(Replay([Op.Write(done), Op.Write(failed)], false), key, cached, false)
    ensures cached == Some(failed) && !Reusable(cached, now)
  {
    var history := [Op.Write(done), Op.Write(failed)];
    assert history[..1] == [Op.Write(done)] && history[..1][..0] == [];
    assert LastWritten(history, key) == Some(failed.jobId);
    assert failed.jobId in Stored(history) && Stored(history)[failed.jobId] == failed;
    FindMeansHistory(history, key, cached, false);
  }

  /** The source hash of the command, or else what the asset store answers. */
  function SourceHash(given: Option<string>, stored: Outcome<string>): Outcome<string> {
    if Truthy(given) then Ok(given.value) else stored
  }

  lemma SourceHashMeans(given: string, stored: Outcome<string>)
    ensures given != "" ==> SourceHash(Some(given), stored) == Ok(given)
    ensures SourceHash(Some(""), stored) == stored && SourceHash(None, stored) == stored
  {
  }

  class CreateJobUseCase {
    const repository: FileJobRepository
    const queue: InMemoryJobQueue
    const digest: string -> string

    constructor (repository: FileJobRepository, queue: InMemoryJobQueue, digest: string -> string)
      ensures this.repository == repository && this.queue == queue && this.digest == digest
    {
      this.repository, this.queue, this.digest := repository, queue, digest;
    }

    /**
     `storedHash` is the answer of the asset store, `jobId` a new UUID, `now` the reading
     for the staleness test. The key is the digest of the hash and the normalized request.
     A reuse leaves store and queue as they are; a new job is stored with its index entry
     and publishes exactly one message.
     */
    method Execute(request: RenderRequest, sourceHash: Option<string>, storedHash: Outcome<string>, jobId: string,
                   now: int, times: Times)
      returns (r: Outcome<JobRecord>, ghost cached: Option<JobRecord>)
      requires repository.Valid() && queue.Valid()
      modifies repository, queue
      ensures repository.Valid() && queue.Valid()
      ensures r.Ok? <==> SourceHash(sourceHash, storedHash).Ok?
      ensures r.Ok? ==> (r.value.reusedExisting <==> CanAnswer(cached, now))
      ensures r.Ok? && CanAnswer(cached, now) ==> IsHit(r.value, cached.value)
      ensures r.Ok? && !CanAnswer(cached, now) ==>
                IsNew(r.value, jobId, request, RequestKey(digest, SourceHash(sourceHash, storedHash).value, request),
                      cached, times)
      ensures r.Ok? ==>
                FindAnswer(old(repository.View()),
                  RequestKey(digest, SourceHash(sourceHash, storedHash).value, request), cached, false)
      ensures r.Raised? || Reusable(cached, now) ==>
                && repository.View() == old(repository.View())
                && queue.items == old(queue.items) && queue.published == old(queue.published)
      ensures r.Ok? && Reusable(cached, now) ==>
                && r.value == Reuse(cached.value)
                && r.value.jobId in repository.files && repository.files[r.value.jobId] == cached.value
      ensures r.Ok? && !Reusable(cached, now) ==>
                && r.value == NewJob(jobId, request,
                                     RequestKey(digest, SourceHash(sourceHash, storedHash).value, request),
                                     cached, times)
                && repository.View() == Put(old(repository.View()), r.value)
                && |queue.items| == |old(queue.items)| + 1 && queue.items[..|old(queue.items)|] == old(queue.items)
                && queue.items[|old(queue.items)|].jobId == jobId
    {
      cached := None;
      var hash := if Truthy(sourceHash) then Ok(sourceHash.value) else storedHash;
      if hash.Raised? {
        return Outcome.Raised(hash.message), cached;
      }
      var key := digest(Payload(hash.value, request));
      assert key == RequestKey(digest, hash.value, request);
      hide RequestKey, Payload, FindAnswer, Reusable, NewJob, Put, Reuse, IsNew, IsHit, CanAnswer;
      var job;
      job, cached := CreateOrReuse(request, key, jobId, now, times);
      return Ok(job), cached;
    }

    /** Lines 30-69. */
    method CreateOrReuse(request: RenderRequest, key: string, jobId: string, now: int, times: Times)
      returns (job: JobRecord, ghost cached: Option<JobRecord>)
      requires repository.Valid() && queue.Valid()
      modifies repository, queue
      ensures repository.Valid() && queue.Valid()
      ensures FindAnswer(old(repository.View()), key, cached, false)
      ensures job.reusedExisting <==> CanAnswer(cached, now)
      ensures CanAnswer(cached, now) ==> IsHit(job, cached.value)
      ensures !CanAnswer(cached, now) ==> IsNew(job, jobId, request, key, cached, times)
      ensures Reusable(cached, now) ==>
                && job == Reuse(cached.value)
                && job.jobId in repository.files && repository.files[job.jobId] == cached.value
                && repository.View() == old(repository.View())
                && queue.items == old(queue.items) && queue.published == old(queue.published)
      ensures !Reusable(cached, now) ==>
                && job == NewJob(jobId, request, key, cached, times)
                && repository.View() == Put(old(repository.View()), job)
                && |queue.items| == |old(queue.items)| + 1 && queue.items[..|old(queue.items)|] == old(queue.items)
                && queue.items[|old(queue.items)|].jobId == jobId
    {
      var found := repository.FindByRequestCacheKey(key);
      cached := found;
      ReusableMeans(found, now);
      NewJobIsNew(jobId, request, key, found, times);
      if found.Some? { ReuseIsHit(found.value); }
      hide IsNew, IsHit, CanAnswer;
      if found.Some? && found.value.status == Succeeded {
        FoundIsStored(repository, key, found);
        return found.value.(cacheStatus := "hit-succeeded", reusedExisting := true), cached;
      }
      if found.Some? && found.value.status in {Queued, Running} && !IsLiveCacheStale(found.value, now) {
        FoundIsStored(repository, key, found);
        return found.value.(cacheStatus := "hit-" + StatusName(found.value.status), reusedExisting := true), cached;
      }
      var cacheStatus := "miss";
      if found.Some? && found.value.status in {Queued, Running} {
        cacheStatus := "miss-stale-" + StatusName(found.value.status);
      }
      job := NewJob(jobId, request, key, found, times).(cacheStatus := cacheStatus);
      repository.Create(job);
      queue.Publish(job.jobId);
    }
  }

  lemma FoundIsStored(repository: FileJobRepository, key: string, found: Option<JobRecord>)
    requires repository.Valid() && FindAnswer(repository.View(), key, found, false) && found.Some?
    ensures found.value.jobId in repository.files && repository.files[found.value.jobId] == found.value
  {
    ReplayIsKeyed(repository.history, false);
  }
}
