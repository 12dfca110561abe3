/** The file, memory and S3 job repositories, each related to the history of calls made on it. */
module JobRepositories {
  import opened Base
  import opened Contracts
  import opened JobStore
  import opened Sorting

  function UpdatedAt(): JobRecord -> int {
    (job: JobRecord) => job.updatedAt
  }

  /** `matches` lists exactly the stored records of a key: the head of the sorted list is a newest one. */
  lemma NewestMatch(jobs: map<string, JobRecord>, key: string, matches: seq<JobRecord>)
    requires matches != [] && Keyed(jobs)
    requires forall job | job in matches :: job.jobId in jobs && jobs[job.jobId] == job && job.cacheKey == Some(key)
    requires forall id | id in jobs && jobs[id].cacheKey == Some(key) :: jobs[id] in matches
    ensures SortDescending(matches, UpdatedAt()) != []
    ensures IsNewest(jobs, key, SortDescending(matches, UpdatedAt())[0])
  {
    var i := HeadIsFirstLargest(matches, UpdatedAt());
    assert matches[i] in matches;
    forall id | id in jobs && jobs[id].cacheKey == Some(key) ensures jobs[id].updatedAt <= matches[i].updatedAt {
      var j :| 0 <= j < |matches| && matches[j] == jobs[id];
      assert UpdatedAt()(matches[j]) <= UpdatedAt()(matches[i]);
    }
  }

  lemma ReplayIsKeyed(history: seq<Op>, s3: bool)
    ensures Keyed(Replay(history, s3).jobs)
  {
    ReplayJobs(history, s3);
    forall id | id in Stored(history) ensures Stored(history)[id].jobId == id {
      var i := StoredWasWritten(history, id);
    }
  }

  /** The fallback scan of the file and memory stores: the records in any order, filtered, sorted, headed. */
  method Scan(jobs: map<string, JobRecord>, key: string) returns (answer: Option<JobRecord>)
    requires Keyed(jobs)
    ensures ScanAnswer(jobs, key, answer)
  {
    var matches: seq<JobRecord> := [];
    var left := jobs.Keys;
    while left != {}
      invariant left <= jobs.Keys
      invariant forall job | job in matches :: job.jobId in jobs && jobs[job.jobId] == job && job.cacheKey == Some(key)
      invariant forall id | id in jobs && id !in left && jobs[id].cacheKey == Some(key) :: jobs[id] in matches
      decreases left
    {
      var id :| id in left;
      left := left - {id};
      if jobs[id].cacheKey == Some(key) {
        matches := matches + [jobs[id]];
      }
    }
    if matches == [] {
      return None;
    }
    NewestMatch(jobs, key, matches);
    var sorted := SortDescending(matches, UpdatedAt());
    return Some(sorted[0]);
  }

  class FileJobRepository {
    var files: map<string, JobRecord>
    var indexFiles: map<string, string>
    ghost var history: seq<Op>

    ghost predicate Valid()
      reads this
    {
      View() == Replay(history, false)
    }

    function View(): Repo
      reads this
    {
      Repo(files, indexFiles)
    }

    constructor ()
      ensures Valid() && history == []
    {
      files, indexFiles, history := map[], map[], [];
    }

    method Create(job: JobRecord)
      requires Valid()
      modifies this
      ensures Valid() && history == old(history) + [Op.Write(job)]
      ensures View() == Put(old(View()), job)
    {
      WriteFiles(job);
    }

    method Update(job: JobRecord)
      requires Valid()
      modifies this
      ensures Valid() && history == old(history) + [Op.Write(job)]
      ensures View() == Put(old(View()), job)
    {
      WriteFiles(job);
    }

    method WriteFiles(job: JobRecord)
      requires Valid()
      modifies this
      ensures Valid() && history == old(history) + [Op.Write(job)]
      ensures View() == Put(old(View()), job)
    {
      files := files[job.jobId := job];
      if Truthy(job.cacheKey) {
        indexFiles := indexFiles[job.cacheKey.value := job.jobId];
      }
      ReplaySnoc(history, Op.Write(job), false);
      history := history + [Op.Write(job)];
    }

    method Get(jobId: string) returns (job: Option<JobRecord>)
      ensures job == if jobId in files then Some(files[jobId]) else None
    {
      if jobId !in files {
        return None;
      }
      return Some(files[jobId]);
    }

    method Delete(job: JobRecord)
      requires Valid()
      modifies this
      ensures Valid() && history == old(history) + [Op.Delete(job)]
      ensures View() == Remove(old(View()), job)
    {
      if job.jobId in files {
        files := files - {job.jobId};
      }
      if Truthy(job.cacheKey) {
        var key := job.cacheKey.value;
        if key in indexFiles {
          if indexFiles[key] == job.jobId {
            indexFiles := indexFiles - {key};
          }
        }
      }
      ReplaySnoc(history, Op.Delete(job), false);
      history := history + [Op.Delete(job)];
    }

    method GetIndexed(key: string) returns (job: Option<JobRecord>)
      ensures job == Indexed(View(), key)
    {
      if key !in indexFiles {
        return None;
      }
      var jobId := indexFiles[key];
      if jobId == "" {
        return None;
      }
      var found := Get(jobId);
      if found == None || found.value.cacheKey != Some(key) {
        return None;
      }
      return found;
    }

    method FindByRequestCacheKey(key: string) returns (answer: Option<JobRecord>)
      requires Valid()
      ensures FindAnswer(View(), key, answer, false)
      ensures FixedKeys(history) && key != "" && StillStored(history, key) && LastWritten(history, key).value != "" ==>
                answer == Some(Stored(history)[LastWritten(history, key).value])
      ensures FixedKeys(history) && key != "" ==> (answer.Some? <==> HasKey(Stored(history), key))
    {
      answer := GetIndexed(key);
      if answer == None {
        ReplayIsKeyed(history, false);
        answer := Scan(files, key);
      }
      if FixedKeys(history) && key != "" {
        FindMeansHistory(history, key, answer, false);
      }
    }
  }

  class InMemoryJobRepository {
    var storage: map<string, JobRecord>
    var requestCacheIndex: map<string, string>
    ghost var history: seq<Op>

    ghost predicate Valid()
      reads this
    {
      View() == Replay(history, false)
    }

    function View(): Repo
      reads this
    {
      Repo(storage, requestCacheIndex)
    }

    constructor ()
      ensures Valid() && history == []
    {
      storage, requestCacheIndex, history := map[], map[], [];
    }

    method Create(job: JobRecord)
      requires Valid()
      modifies this
      ensures Valid() && history == old(history) + [Op.Write(job)]
      ensures View() == Put(old(View()), job)
    {
      storage := storage[job.jobId := job];
      Index(job);
      ReplaySnoc(history, Op.Write(job), false);
      history := history + [Op.Write(job)];
    }

    method Update(job: JobRecord)
      requires Valid()
      modifies this
      ensures Valid() && history == old(history) + [Op.Write(job)]
      ensures View() == Put(old(View()), job)
    {
      storage := storage[job.jobId := job];
      Index(job);
      ReplaySnoc(history, Op.Write(job), false);
      history := history + [Op.Write(job)];
    }

    method Index(job: JobRecord)
      modifies `requestCacheIndex
      ensures requestCacheIndex ==
              if Truthy(job.cacheKey) then old(requestCacheIndex)[job.cacheKey.value := job.jobId]
                  else old(requestCacheIndex)
    {
      if !Truthy(job.cacheKey) {
        return;
      }
      requestCacheIndex := requestCacheIndex[job.cacheKey.value := job.jobId];
    }

    method Delete(job: JobRecord)
      requires Valid()
      modifies this
      ensures Valid() && history == old(history) + [Op.Delete(job)]
      ensures View() == Remove(old(View()), job)
    {
      hide Replay;
      ReplaySnoc(history, Op.Delete(job), false);
      ghost var before := View();
      storage := storage - {job.jobId};
      if Truthy(job.cacheKey) && job.cacheKey.value in requestCacheIndex
          && requestCacheIndex[job.cacheKey.value] == job.jobId {
        requestCacheIndex := requestCacheIndex - {job.cacheKey.value};
      }
      assert View() == Remove(before, job);
      history := history + [Op.Delete(job)];
    }

    method FindByRequestCacheKey(key: string) returns (answer: Option<JobRecord>)
      requires Valid()
      ensures FindAnswer(View(), key, answer, true)
      ensures FixedKeys(history) && key != "" && StillStored(history, key) ==>
                answer == Some(Stored(history)[LastWritten(history, key).value])
      ensures FixedKeys(history) && key != "" ==> (answer.Some? <==> HasKey(Stored(history), key))
    {
      if FixedKeys(history) && key != "" {
        forall a | FindAnswer(View(), key, a, true)
          ensures StillStored(history, key) ==> a == Some(Stored(history)[LastWritten(history, key).value])
          ensures a.Some? <==> HasKey(Stored(history), key)
        {
          FindMeansHistory(history, key, a, true);
        }
      }
      if key in requestCacheIndex {
        var jobId := requestCacheIndex[key];
        if jobId in storage && storage[jobId].cacheKey == Some(key) {
          return Some(storage[jobId]);
        }
      }
      ReplayIsKeyed(history, false);
      answer := Scan(storage, key);
    }
  }

  class S3JobRepository {
    var jobObjects: map<string, JobRecord>
    var indexObjects: map<string, string>
    ghost var history: seq<Op>

    ghost predicate Valid()
      reads this
    {
      View() == Replay(history, true)
    }

    function View(): Repo
      reads this
    {
      Repo(jobObjects, indexObjects)
    }

    constructor ()
      ensures Valid() && history == []
    {
      jobObjects, indexObjects, history := map[], map[], [];
    }

    method WriteObjects(job: JobRecord)
      requires Valid()
      modifies this
      ensures Valid() && history == old(history) + [Op.Write(job)]
      ensures View() == Put(old(View()), job)
    {
      jobObjects := jobObjects[job.jobId := job];
      if Truthy(job.cacheKey) {
        indexObjects := indexObjects[job.cacheKey.value := job.jobId];
      }
      ReplaySnoc(history, Op.Write(job), true);
      history := history + [Op.Write(job)];
    }

    method GetIndexed(key: string) returns (job: Option<JobRecord>)
      ensures job == Indexed(View(), key)
    {
      if key !in indexObjects {
        return None;
      }
      var jobId := indexObjects[key];
      if jobId == "" || jobId !in jobObjects || jobObjects[jobId].cacheKey != Some(key) {
        return None;
      }
      return Some(jobObjects[jobId]);
    }

    /** The index object is never deleted: the record is already gone when the index is followed. */
    method Delete(job: JobRecord)
      requires Valid()
      modifies this
      ensures Valid() && history == old(history) + [Op.Delete(job)]
      ensures View() == RemoveS3(old(View()), job)
      ensures indexObjects == old(indexObjects)
    {
      jobObjects := jobObjects - {job.jobId};
      if Truthy(job.cacheKey) {
        var indexed := GetIndexed(job.cacheKey.value);
        if indexed.Some? && indexed.value.jobId == job.jobId {
          indexObjects := indexObjects - {job.cacheKey.value};
        }
      }
      S3DeleteKeepsIndex(history, job);
      ReplaySnoc(history, Op.Delete(job), true);
      history := history + [Op.Delete(job)];
    }

    method FindByRequestCacheKey(key: string) returns (answer: Option<JobRecord>)
      requires Valid()
      ensures answer == Indexed(View(), key)
      ensures FixedKeys(history) && key != "" ==>
                (answer.Some? <==> StillStored(history, key) && LastWritten(history, key).value != "")
      ensures FixedKeys(history) && key != "" && answer.Some? ==>
                answer == Some(Stored(history)[LastWritten(history, key).value])
    {
      answer := GetIndexed(key);
      if FixedKeys(history) && key != "" {
        S3IndexDangles(history, key);
        ReplayJobs(history, true);
        if StillStored(history, key) {
          LastWrittenHasKey(history, key);
        }
      }
    }
  }
}
