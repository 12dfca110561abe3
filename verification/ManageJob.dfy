/** The operator's `mark_failed` and `delete`: a read, then a write of the whole record or a removal. */
module ManageJob {
  import opened Base
  import opened Domain
  import opened Contracts
  import opened Trace
  import opened JobStore
  import opened JobRepositories

  /** What `mark_failed` makes of the record it read, whatever its status. */
  function MarkedFailed(job: JobRecord, now: int, reason: string): JobRecord {
    job.(status := Failed, updatedAt := now,
         finishedAt := if job.finishedAt.Some? then job.finishedAt else Some(now),
         error := Some(ErrorInfo("operator_marked_failed", reason)),
         trace := Recorded(job.trace, "operator_mark_failed", StageFailed, now, Some(reason)))
  }

  /**
   The operator's record is FAILED with the operator's error; a finish time and a result
   are kept, the trace gains one failed entry.
   */
  lemma MarkedFailedExtends(job: JobRecord, now: int, reason: string)
    ensures var marked := MarkedFailed(job, now, reason);
            marked.status.Terminal() && SameJob(job, marked) && Ledger(job.trace, marked.trace)
            && (Closed(job.trace) ==> Closed(marked.trace)) && marked.result == job.result
            && marked.status == Failed && marked.updatedAt == now && marked.startedAt == job.startedAt
            && (job.finishedAt.Some? ==> marked.finishedAt == job.finishedAt)
            && (job.finishedAt == None ==> marked.finishedAt == Some(now))
            && marked.error == Some(ErrorInfo("operator_marked_failed", reason))
            && Outline(marked.trace) == Outline(job.trace) + [Entry("operator_mark_failed", StageFailed, Some(reason))]
            && marked.trace[|job.trace|].startedAt == now && marked.trace[|job.trace|].finishedAt == Some(now)
  {
  }

  class ManageJobUseCase {
    const repository: FileJobRepository

    constructor (repository: FileJobRepository)
      ensures this.repository == repository
    {
      this.repository := repository;
    }

    method MarkFailed(jobId: string, reason: string, now: int) returns (r: Outcome<JobRecord>)
      requires repository.Valid()
      modifies repository
      ensures repository.Valid()
      ensures r.Ok? <==> jobId in old(repository.files)
      ensures r.Ok? ==> r.value == MarkedFailed(old(repository.files)[jobId], now, reason)
                        && repository.View() == Put(old(repository.View()), r.value)
      ensures r.Raised? ==> repository.View() == old(repository.View())
    {
      var found := repository.Get(jobId);
      if found == None {
        return Raised("Job was not found.");
      }
      var job := found.value;
      job := job.(status := Failed);
      job := job.(updatedAt := now);
      job := job.(finishedAt := if job.finishedAt.Some? then job.finishedAt else Some(now));
      job := job.(error := Some(ErrorInfo("operator_marked_failed", reason)));
      job := job.(trace := job.trace + [Stage("operator_mark_failed", StageFailed, now, Some(now), Some(reason))]);
      repository.Update(job);
      return Ok(job);
    }

    method Delete(jobId: string) returns (r: Outcome<()>)
      requires repository.Valid()
      modifies repository
      ensures repository.Valid()
      ensures r.Ok? <==> jobId in old(repository.files)
      ensures r.Ok? ==>
                && repository.View() == Remove(old(repository.View()), old(repository.files)[jobId])
                && jobId !in repository.files
      ensures r.Raised? ==> repository.View() == old(repository.View())
    {
      var found := repository.Get(jobId);
      if found == None {
        return Raised("Job was not found.");
      }
      ReplayIsKeyed(repository.history, false);
      repository.Delete(found.value);
      return Ok(());
    }
  }
}
