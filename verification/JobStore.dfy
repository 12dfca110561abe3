/**
 The job store: stored records and the request-cache index that short-cuts a scan,
 as values, related to the history of writes and deletes that produced them.
 */
module JobStore {
  import opened Base
  import opened Contracts

  /** Stored records by id, and for each cache key the id its index entry points at. */
  datatype Repo = Repo(jobs: map<string, JobRecord>, index: map<string, string>)

  const EMPTY_REPO: Repo := Repo(map[], map[])

  function Put(repo: Repo, job: JobRecord): Repo {
    Repo(repo.jobs[job.jobId := job],
         if Truthy(job.cacheKey) then repo.index[job.cacheKey.value := job.jobId] else repo.index)
  }

  /** The record an index entry leads to, unless the entry dangles or points at another key's job. */
  function Indexed(repo: Repo, key: string): Option<JobRecord> {
    if key in repo.index && repo.index[key] != "" && repo.index[key] in repo.jobs
       && repo.jobs[repo.index[key]].cacheKey == Some(key)
    then Some(repo.jobs[repo.index[key]])
    else None
  }

  /** The memory store looks the entry up without asking whether the id is empty. */
  function IndexedInMemory(repo: Repo, key: string): Option<JobRecord> {
    if key in repo.index && repo.index[key] in repo.jobs && repo.jobs[repo.index[key]].cacheKey == Some(key)
    then Some(repo.jobs[repo.index[key]])
    else None
  }

  /** `delete` of the file and memory stores: the index entry goes if it points at this job. */
  function Remove(repo: Repo, job: JobRecord): Repo {
    Repo(repo.jobs - {job.jobId},
         if Truthy(job.cacheKey) && job.cacheKey.value in repo.index && repo.index[job.cacheKey.value] == job.jobId
         then repo.index - {job.cacheKey.value}
         else repo.index)
  }

  /** `delete` of the S3 store: it follows the index only after the record is gone. */
  function RemoveS3(repo: Repo, job: JobRecord): Repo {
    var gone := Repo(repo.jobs - {job.jobId}, repo.index);
    if Truthy(job.cacheKey) && Indexed(gone, job.cacheKey.value).Some?
        && Indexed(gone, job.cacheKey.value).value.jobId == job.jobId
    then Repo(gone.jobs, gone.index - {job.cacheKey.value})
    else gone
  }

  /** `job` is stored under `key` and no other such job was updated later. */
  ghost predicate IsNewest(jobs: map<string, JobRecord>, key: string, job: JobRecord) {
    && job.jobId in jobs && jobs[job.jobId] == job && job.cacheKey == Some(key)
    && forall id | id in jobs && jobs[id].cacheKey == Some(key) :: jobs[id].updatedAt <= job.updatedAt
  }

  ghost predicate HasKey(jobs: map<string, JobRecord>, key: string) {
    exists id :: id in jobs && jobs[id].cacheKey == Some(key)
  }

  /** What the fallback scan may answer: a newest match, if there is a match. */
  ghost predicate ScanAnswer(jobs: map<string, JobRecord>, key: string, answer: Option<JobRecord>) {
    match answer
    case None => !HasKey(jobs, key)
    case Some(job) => IsNewest(jobs, key, job)
  }

  /** What `find_by_request_cache_key` of the file and memory stores may answer. */
  ghost predicate FindAnswer(repo: Repo, key: string, answer: Option<JobRecord>, inMemory: bool) {
    var indexed := if inMemory then IndexedInMemory(repo, key) else Indexed(repo, key);
    if indexed.Some? then answer == indexed else ScanAnswer(repo.jobs, key, answer)
  }

  ghost predicate Keyed(jobs: map<string, JobRecord>) {
    forall id | id in jobs :: jobs[id].jobId == id
  }

  // ---- Histories ----

  datatype Op = Write(job: JobRecord) | Delete(job: JobRecord)

  /** A job never changes its cache key. */
  ghost predicate FixedKeys(history: seq<Op>) {
    forall i, j | 0 <= i < |history| && 0 <= j < |history| ::
      history[i].job.jobId == history[j].job.jobId ==> history[i].job.cacheKey == history[j].job.cacheKey
  }

  function Stored(history: seq<Op>): map<string, JobRecord> {
    if history == [] then map[]
    else
      var before := Stored(history[..|history| - 1]);
      match history[|history| - 1]
      case Write(job) => before[job.jobId := job]
      case Delete(job) => before - {job.jobId}
  }

  /** The id of the job last written under `key`, deleted since or not. */
  function LastWritten(history: seq<Op>, key: string): Option<string> {
    if history == [] then None
    else
      var op := history[|history| - 1];
      if op.Write? && op.job.cacheKey == Some(key) then Some(op.job.jobId)
      else LastWritten(history[..|history| - 1], key)
  }

  function Apply(repo: Repo, op: Op, s3: bool): Repo {
    match op
    case Write(job) => Put(repo, job)
    case Delete(job) => (if s3 then RemoveS3(repo, job) else Remove(repo, job))
  }

  /** The store a history of operations leaves, with the given `delete`. */
  function Replay(history: seq<Op>, s3: bool): Repo {
    if history == [] then EMPTY_REPO
    else
      Apply(Replay(history[..|history| - 1], s3), history[|history| - 1], s3)
  }

  lemma ReplaySnoc(history: seq<Op>, op: Op, s3: bool)
    ensures Replay(history + [op], s3) == Apply(Replay(history, s3), op, s3)
  {
    assert (history + [op])[..|history|] == history;
  }

  ghost predicate StillStored(history: seq<Op>, key: string) {
    LastWritten(history, key).Some? && LastWritten(history, key).value in Stored(history)
  }

  lemma FixedKeysPrefix(history: seq<Op>, n: nat)
    requires FixedKeys(history) && n <= |history|
    ensures FixedKeys(history[..n])
  {
  }

  /** Every stored record was written, under its own id. */
  lemma {:induction false} StoredWasWritten(history: seq<Op>, id: string) returns (i: nat)
    requires id in Stored(history)
    ensures i < |history| && history[i] == Write(Stored(history)[id]) && Stored(history)[id].jobId == id
    decreases |history|
  {
    var n := |history| - 1;
    if history[n].Write? && history[n].job.jobId == id {
      i := n;
    } else {
      i := StoredWasWritten(history[..n], id);
    }
  }

  lemma {:induction false} LastWrittenWasWritten(history: seq<Op>, key: string) returns (i: nat)
    requires LastWritten(history, key).Some?
    ensures i < |history| && history[i].Write? && history[i].job.cacheKey == Some(key)
    ensures history[i].job.jobId == LastWritten(history, key).value
    decreases |history|
  {
    var n := |history| - 1;
    if history[n].Write? && history[n].job.cacheKey == Some(key) {
      i := n;
    } else {
      i := LastWrittenWasWritten(history[..n], key);
    }
  }

  lemma {:induction false} ReplayJobs(history: seq<Op>, s3: bool)
    ensures Replay(history, s3).jobs == Stored(history)
    decreases |history|
  {
    if history != [] {
      ReplayJobs(history[..|history| - 1], s3);
    }
  }

  /**
   The index of the file and memory stores after any history: an entry for a key exists
   exactly while the job last written under that key is still stored, and points at it.
   */
  lemma {:induction false} IndexMeansLastWritten(history: seq<Op>, key: string)
    requires FixedKeys(history) && key != ""
    ensures key in Replay(history, false).index <==> StillStored(history, key)
    ensures StillStored(history, key) ==> Replay(history, false).index[key] == LastWritten(history, key).value
    decreases |history|
  {
    if history != [] {
      var n := |history| - 1;
      var before := history[..n];
      FixedKeysPrefix(history, n);
      IndexMeansLastWritten(before, key);
      ReplayJobs(before, false);
      var op := history[n];
      if LastWritten(before, key).Some? && LastWritten(before, key).value == op.job.jobId {
        var i := LastWrittenWasWritten(before, key);
        assert history[i].job.jobId == history[n].job.jobId;
      }
    }
  }

  /** The S3 index is never cleaned: after any history an entry points at the job last written, stored or not. */
  lemma {:induction false} S3IndexDangles(history: seq<Op>, key: string)
    requires key != ""
    ensures key in Replay(history, true).index <==> LastWritten(history, key).Some?
    ensures LastWritten(history, key).Some? ==> Replay(history, true).index[key] == LastWritten(history, key).value
    decreases |history|
  {
    if history != [] {
      var n := |history| - 1;
      var before := history[..n];
      S3IndexDangles(before, key);
      var op := history[n];
      if op.Delete? {
        S3DeleteKeepsIndex(before, op.job);
      }
    }
  }

  lemma S3DeleteKeepsIndex(history: seq<Op>, job: JobRecord)
    ensures RemoveS3(Replay(history, true), job).index == Replay(history, true).index
  {
    var repo := Replay(history, true);
    ReplayJobs(history, true);
    if Truthy(job.cacheKey) {
      var gone := Repo(repo.jobs - {job.jobId}, repo.index);
      var found := Indexed(gone, job.cacheKey.value);
      if found.Some? {
        var id := repo.index[job.cacheKey.value];
        var i := StoredWasWritten(history, id);
      }
    }
  }

  /**
   The lookup against history: an answer exists iff a job with the key is stored, namely
   the last-written one if it is still stored, otherwise one updated last.
   */
  lemma FindMeansHistory(history: seq<Op>, key: string, answer: Option<JobRecord>, inMemory: bool)
    requires FixedKeys(history) && key != ""
    requires FindAnswer(Replay(history, false), key, answer, inMemory)
    ensures answer.Some? <==> HasKey(Stored(history), key)
    ensures StillStored(history, key) && (inMemory || LastWritten(history, key).value != "") ==>
              answer == Some(Stored(history)[LastWritten(history, key).value])
    ensures !(StillStored(history, key) && (inMemory || LastWritten(history, key).value != "")) && answer.Some? ==>
              IsNewest(Stored(history), key, answer.value)
  {
    IndexMeansLastWritten(history, key);
    ReplayJobs(history, false);
    if StillStored(history, key) {
      LastWrittenHasKey(history, key);
    }
  }

  /** While it is stored, the job last written under a key still has that key. */
  lemma LastWrittenHasKey(history: seq<Op>, key: string)
    requires FixedKeys(history) && StillStored(history, key)
    ensures Stored(history)[LastWritten(history, key).value].cacheKey == Some(key)
  {
    var id := LastWritten(history, key).value;
    var i := LastWrittenWasWritten(history, key);
    var j := StoredWasWritten(history, id);
    assert history[i].job.jobId == history[j].job.jobId;
  }

  /**
   The index-only S3 lookup over the same history is `None` or the file store's answer,
   and is an answer exactly while the last-written job is stored: dangling entries never show.
   */
  lemma S3LookupUnderApproximates(history: seq<Op>, key: string, answer: Option<JobRecord>)
    requires FixedKeys(history) && key != ""
    requires FindAnswer(Replay(history, false), key, answer, false)
    ensures Indexed(Replay(history, true), key).Some? <==>
                StillStored(history, key) && LastWritten(history, key).value != ""
    ensures Indexed(Replay(history, true), key).Some? ==> Indexed(Replay(history, true), key) == answer
  {
    S3IndexDangles(history, key);
    ReplayJobs(history, true);
    FindMeansHistory(history, key, answer, false);
    if StillStored(history, key) {
      LastWrittenHasKey(history, key);
    }
  }

  /** The empty key is never indexed: such a lookup always scans. */
  lemma {:induction false} EmptyKeyIsNotIndexed(history: seq<Op>, s3: bool)
    ensures "" !in Replay(history, s3).index
    ensures IndexedInMemory(Replay(history, s3), "") == None && Indexed(Replay(history, s3), "") == None
    decreases |history|
  {
    if history != [] {
      EmptyKeyIsNotIndexed(history[..|history| - 1], s3);
    }
  }
}
