/**
 The job lifecycle that the domain package owns: the statuses and the guarded
 transitions `start`, `complete`, `fail` and `cancel`.
 */
module Domain {
  import opened Base

  datatype JobStatus = Queued | Running | Succeeded | Failed | Canceled {

    predicate Terminal() {
      Succeeded? || Failed? || Canceled?
    }

    predicate IsLive() {
      Queued? || Running?
    }
  }

  lemma TerminalOrLive(status: JobStatus)
    ensures status.Terminal() <==> status in {Succeeded, Failed, Canceled}
    ensures status.IsLive() <==> status in {Queued, Running}
  {
  }

  /** The value of an entity: status and timestamps (integers, in microseconds). */
  datatype Lifecycle = Lifecycle(
    status: JobStatus,
    createdAt: int,
    updatedAt: int,
    startedAt: Option<int>,
    finishedAt: Option<int>
  )

  datatype Transition = StartJob | CompleteJob | FailJob | CancelJob

  /** Which transition the domain allows from which status. */
  predicate Allowed(status: JobStatus, action: Transition) {
    match action
    case StartJob => status == Queued
    case CompleteJob => status == Running
    case FailJob => !status.Terminal()
    case CancelJob => !status.Terminal()
  }

  /** The state after `action` at time `now`; a refused action changes nothing. */
  function After(life: Lifecycle, action: Transition, now: int): Lifecycle {
    if !Allowed(life.status, action) then life else
    match action
    case StartJob => life.(status := Running, startedAt := Some(now), updatedAt := now)
    case CompleteJob => life.(status := Succeeded, finishedAt := Some(now), updatedAt := now)
    case FailJob => life.(status := Failed, finishedAt := Some(now), updatedAt := now)
    case CancelJob => life.(status := Canceled, finishedAt := Some(now), updatedAt := now)
  }

  class JobEntity {
    const jobId: string
    var status: JobStatus
    const createdAt: int
    var updatedAt: int
    var startedAt: Option<int>
    var finishedAt: Option<int>

    constructor (jobId: string, life: Lifecycle)
      ensures this.jobId == jobId && Life() == life
    {
      this.jobId := jobId;
      status := life.status;
      createdAt := life.createdAt;
      updatedAt := life.updatedAt;
      startedAt := life.startedAt;
      finishedAt := life.finishedAt;
    }

    function Life(): Lifecycle
      reads this
    {
      Lifecycle(status, createdAt, updatedAt, startedAt, finishedAt)
    }

    method Start(now: int) returns (r: Outcome<()>)
      modifies this
      ensures r.Ok? <==> Allowed(old(status), StartJob)
      ensures r.Ok? <==> old(status) == Queued
      ensures r.Ok? ==> status == Running && startedAt == Some(now) && finishedAt == old(finishedAt)
      ensures r.Ok? ==> updatedAt == now
      ensures r.Raised? ==> Life() == old(Life())
      ensures Life() == After(old(Life()), StartJob, now)
    {
      if status != Queued {
        return Raised("Cannot start job from this state.");
      }
      status := Running;
      startedAt := Some(now);
      updatedAt := now;
      return Ok(());
    }

    method Complete(now: int) returns (r: Outcome<()>)
      modifies this
      ensures r.Ok? <==> Allowed(old(status), CompleteJob)
      ensures r.Ok? <==> old(status) == Running
      ensures r.Ok? ==> status == Succeeded && startedAt == old(startedAt) && finishedAt == Some(now)
      ensures r.Ok? ==> updatedAt == now
      ensures r.Raised? ==> Life() == old(Life())
      ensures Life() == After(old(Life()), CompleteJob, now)
    {
      if status != Running {
        return Raised("Cannot complete job from this state.");
      }
      status := Succeeded;
      finishedAt := Some(now);
      updatedAt := now;
      return Ok(());
    }

    method Fail(now: int) returns (r: Outcome<()>)
      modifies this
      ensures r.Ok? <==> Allowed(old(status), FailJob)
      ensures r.Ok? <==> old(status) == Queued || old(status) == Running
      ensures r.Ok? ==> status == Failed && startedAt == old(startedAt) && finishedAt == Some(now)
      ensures r.Ok? ==> updatedAt == now
      ensures r.Raised? ==> Life() == old(Life())
      ensures Life() == After(old(Life()), FailJob, now)
    {
      if status.Terminal() {
        return Raised("Cannot fail terminal job.");
      }
      status := Failed;
      finishedAt := Some(now);
      updatedAt := now;
      return Ok(());
    }

    method Cancel(now: int) returns (r: Outcome<()>)
      modifies this
      ensures r.Ok? <==> Allowed(old(status), CancelJob)
      ensures r.Ok? <==> old(status) == Queued || old(status) == Running
      ensures r.Ok? ==> status == Canceled && startedAt == old(startedAt) && finishedAt == Some(now)
      ensures r.Ok? ==> updatedAt == now
      ensures r.Raised? ==> Life() == old(Life())
      ensures Life() == After(old(Life()), CancelJob, now)
    {
      if status.Terminal() {
        return Raised("Cannot cancel terminal job.");
      }
      status := Canceled;
      finishedAt := Some(now);
      updatedAt := now;
      return Ok(());
    }
  }

  /** A call of the entity: the action and the clock reading passed to it. */
  datatype Call = Call(action: Transition, now: int)

  function Run(life: Lifecycle, calls: seq<Call>): Lifecycle
    decreases |calls|
  {
    if calls == [] then life
    else Run(After(life, calls[0].action, calls[0].now), calls[1..])
  }

  /** The clock never steps back over the calls, and never before `from`. */
  ghost predicate Monotone(from: int, calls: seq<Call>) {
    (forall i | 0 <= i < |calls| :: from <= calls[i].now) &&
    (forall i, j | 0 <= i < j < |calls| :: calls[i].now <= calls[j].now)
  }

  /** What the timestamps of a job mean. */
  ghost predicate Ordered(life: Lifecycle) {
    && life.createdAt <= life.updatedAt
    && (life.status == Queued ==> life.startedAt == None && life.finishedAt == None)
    && (life.status == Running ==> life.startedAt == Some(life.updatedAt) && life.finishedAt == None)
    && (life.status == Succeeded ==> life.startedAt.Some?)
    && (life.startedAt.Some? ==> life.createdAt <= life.startedAt.value <= life.updatedAt)
    && (life.status.Terminal() ==> life.finishedAt == Some(life.updatedAt))
  }

  /**
   Every run of entity calls under a monotone clock, refused calls included, keeps
   created <= started <= finished == updated; a terminal job never changes again, a
   job never returns to QUEUED, and it succeeded only by way of RUNNING.
   */
  lemma {:induction false} LifecycleSafety(life: Lifecycle, calls: seq<Call>)
    requires Ordered(life) && Monotone(life.updatedAt, calls)
    ensures Ordered(Run(life, calls))
    ensures life.status.Terminal() ==> Run(life, calls) == life
    ensures life.status != Queued ==> Run(life, calls).status != Queued
    ensures life.status == Running ==> Run(life, calls).startedAt == life.startedAt
    ensures Run(life, calls).status == Succeeded ==> Run(life, calls).startedAt.Some?
    decreases |calls|
  {
    if calls != [] {
      LifecycleSafety(After(life, calls[0].action, calls[0].now), calls[1..]);
    }
  }
}
