/**
 Draining the queue: with source assets present, stores that do not raise, no operator
 deletes and exclusive delivery, every message is delivered at most twice.
 */
module Draining {
  import opened Domain
  import opened CreateJob
  import opened Delivery
  import opened DeliverySafety
  import WorkerProgram

  ghost predicate Fault(s: State, step: Step)
    requires Enabled(s, step)
  {
    || step.OperatorDelete?
    || step.Redeliver?
    || step.Drop?
    || (step.Work? && WorkerProgram.IsFault(s.inFlight[step.d].local, step.action))
  }

  ghost predicate Smooth(steps: seq<Step>)
    requires Legal(steps)
  {
    steps == [] ||
    (Smooth(steps[..|steps| - 1]) && !Fault(StateAfter(steps[..|steps| - 1]), steps[|steps| - 1]))
  }

  ghost predicate StoredTerminal(s: State, jobId: string) {
    jobId in s.repo.jobs && s.repo.jobs[jobId].status.Terminal()
  }

  /** The stored record is queued or terminal: its last execution did not leave it running. */
  ghost predicate AtRest(s: State, jobId: string) {
    jobId in s.repo.jobs && s.repo.jobs[jobId].status != Running
  }

  /** How often the message of a job has been delivered while it is pending. */
  ghost predicate PendingFits(s: State, jobId: string) {
    && AtRest(s, jobId)
    && s.received[jobId] <= 1
    && (s.received[jobId] == 1 ==> StoredTerminal(s, jobId))
  }

  /** A first delivery ends with a terminal record; a second finds one and returns. */
  ghost predicate ClaimFits(s: State, claim: Claim) {
    var id := claim.jobId;
    && id in s.repo.jobs
    && 1 <= s.received[id] <= 2
    && match claim.local
       case Start => AtRest(s, id) && (s.received[id] == 2 ==> StoredTerminal(s, id))
       case Noop(copy) => copy.status.Terminal() && StoredTerminal(s, id)
       case Skipped(_) => StoredTerminal(s, id)
       case Claimed(copy) => copy.status == Queued && s.received[id] == 1
       case Marked(copy) => copy.status == Queued && s.received[id] == 1
       case Live(_, phase) => phase <= WorkerProgram.LAST_PHASE && s.received[id] == 1
       case Handling(_, _) => s.received[id] == 1
       case Settled(_, _, _) => StoredTerminal(s, id) && s.received[id] == 1
       case Aborted => false
       case Returned => StoredTerminal(s, id)
       case Raised => StoredTerminal(s, id) && s.received[id] == 1
  }

  ghost predicate Counts(s: State) {
    && (forall id | id in s.created :: id in s.repo.jobs && s.received[id] <= 2)
    && (forall id | id !in s.created :: s.received[id] == 0)
    && (forall id | id in s.unpublished :: AtRest(s, id) && s.received[id] == 0)
  }

  ghost predicate Waiting(s: State) {
    forall id | id in s.pending :: PendingFits(s, id)
  }

  ghost predicate Claims(s: State) {
    forall d | d in s.inFlight :: ClaimFits(s, s.inFlight[d])
  }

  ghost predicate Everywhere(s: State) {
    && s.dropped == {}
    && forall id | id in s.created :: id in s.unpublished || id in s.pending || id in s.acked || IsInFlight(s, id)
  }

  ghost predicate Budgeted(s: State) {
    Counts(s) && Waiting(s) && Claims(s) && Everywhere(s)
  }

  /** The record of a job is the same in both states, or its newer record is terminal. */
  ghost predicate SameOrEnded(s: State, t: State, jobId: string) {
    jobId in s.repo.jobs ==>
      jobId in t.repo.jobs && (t.repo.jobs[jobId] == s.repo.jobs[jobId] || t.repo.jobs[jobId].status.Terminal())
  }

  lemma FitsStay(s: State, t: State, jobId: string)
    requires SameOrEnded(s, t, jobId) && t.received[jobId] == s.received[jobId]
    ensures PendingFits(s, jobId) ==> PendingFits(t, jobId)
    ensures AtRest(s, jobId) ==> AtRest(t, jobId)
    ensures forall local :: ClaimFits(s, Claim(jobId, local)) ==> ClaimFits(t, Claim(jobId, local))
  {
  }

  lemma CreateKeepsBudget(s: State, step: Step)
    requires Inv(s) && Budgeted(s) && Enabled(s, step) && step.Create?
    ensures Budgeted(Next(s, step))
  {
    if !Reusable(step.cached, s.now) {
      CreateKeepsEverywhere(s, step);
      var t, id := Next(s, step), step.jobId;
      assert id !in s.repo.jobs && id !in s.pending && id !in s.unpublished;
      assert s.received[id] == 0;
      forall d | d in s.inFlight ensures s.inFlight[d].jobId != id {}
      assert AtRest(t, id);
      assert t.repo.jobs == s.repo.jobs[id := t.repo.jobs[id]];
      assert t.received == s.received && t.pending == s.pending && t.inFlight == s.inFlight;
      assert t.unpublished == s.unpublished + {id} && t.created == s.created[id := step.key];
      hide Inv, Enabled, Next, Everywhere;
      OneJobCreated(s, t, id);
    }
  }

  lemma OneJobCreated(s: State, t: State, id: string)
    requires Counts(s) && Waiting(s) && Claims(s)
    requires id !in s.pending && s.received[id] == 0 && AtRest(t, id) && id in t.created
    requires forall d | d in s.inFlight :: s.inFlight[d].jobId != id
    requires t.repo.jobs == s.repo.jobs[id := t.repo.jobs[id]]
    requires t.received == s.received && t.pending == s.pending && t.inFlight == s.inFlight
    requires t.unpublished == s.unpublished + {id} && t.created == s.created[id := t.created[id]]
    ensures Counts(t) && Waiting(t) && Claims(t)
  {
    forall x | x != id
      ensures PendingFits(s, x) ==> PendingFits(t, x)
      ensures AtRest(s, x) ==> AtRest(t, x)
    {
      FitsStay(s, t, x);
    }
    forall e | e in t.inFlight ensures ClaimFits(t, t.inFlight[e]) {
      assert ClaimFits(s, s.inFlight[e]);
      FitsStay(s, t, s.inFlight[e].jobId);
      assert s.inFlight[e] == Claim(s.inFlight[e].jobId, s.inFlight[e].local);
    }
    hide PendingFits, ClaimFits, AtRest;
  }

  lemma CreateKeepsEverywhere(s: State, step: Step)
    requires Everywhere(s) && Enabled(s, step) && step.Create? && !Reusable(step.cached, s.now)
    ensures Everywhere(Next(s, step))
  {
    var t := Next(s, step);
    forall id | id in t.created ensures id in t.unpublished || id in t.pending || id in t.acked || IsInFlight(t, id) {
      if id in s.created && id !in s.acked {
        LocatedStays(s, step, id);
      }
    }
  }

  lemma EverywhereStays(s: State, step: Step)
    requires Enabled(s, step) && !step.Create? && !step.Drop? && Everywhere(s)
    ensures Everywhere(Next(s, step))
  {
    var t := Next(s, step);
    forall id | id in t.created ensures id in t.unpublished || id in t.pending || id in t.acked || IsInFlight(t, id) {
      if !(step.Ack? && s.inFlight[step.d].jobId == id) && id !in s.acked {
        LocatedStays(s, step, id);
      }
    }
  }

  lemma QueueKeepsBudget(s: State, step: Step)
    requires Inv(s) && Budgeted(s) && Enabled(s, step) && IsQueueStep(step) && !step.Drop?
    ensures Budgeted(Next(s, step))
  {
    EverywhereStays(s, step);
    QueueKeepsCounts(s, step);
    QueueKeepsWaiting(s, step);
    QueueKeepsClaims(s, step);
  }

  lemma QueueKeepsCounts(s: State, step: Step)
    requires Inv(s) && Budgeted(s) && Enabled(s, step) && IsQueueStep(step) && !step.Drop?
    ensures Counts(Next(s, step))
  {
    hide NoOrphan, Locals, Started, Records, Claims, Everywhere;
    var t := Next(s, step);
    if step.Receive? {
      assert PendingFits(s, step.jobId);
    }
    forall id | id in t.unpublished ensures AtRest(t, id) && t.received[id] == 0 {
      assert id in s.unpublished;
    }
  }

  lemma QueueKeepsWaiting(s: State, step: Step)
    requires Inv(s) && Budgeted(s) && Enabled(s, step) && IsQueueStep(step) && !step.Drop?
    ensures Waiting(Next(s, step))
  {
    hide NoOrphan, Locals, Started, Records, Everywhere;
    var t := Next(s, step);
    if step.Nack? {
      assert ClaimFits(s, s.inFlight[step.d]);
    }
    hide Claims, ClaimFits;
    forall id | id in t.pending ensures PendingFits(t, id) {
      if id in s.pending {
        assert PendingFits(s, id);
      }
    }
  }

  lemma QueueKeepsClaims(s: State, step: Step)
    requires Inv(s) && Budgeted(s) && Enabled(s, step) && IsQueueStep(step) && !step.Drop?
    ensures Claims(Next(s, step))
  {
    hide NoOrphan, Locals, Started, Records, Everywhere, Counts;
    var t := Next(s, step);
    if step.Receive? {
      assert PendingFits(s, step.jobId);
      assert ClaimFits(t, t.inFlight[step.d]);
    }
    hide ClaimFits, Waiting;
    forall d | d in t.inFlight ensures ClaimFits(t, t.inFlight[d]) {
      if d in s.inFlight && !(step.Receive? && d == step.d) {
        assert ClaimFits(s, s.inFlight[d]);
        FitsStay(s, t, s.inFlight[d].jobId);
        assert s.inFlight[d] == Claim(s.inFlight[d].jobId, s.inFlight[d].local);
      }
    }
  }

  lemma OperatorKeepsBudget(s: State, step: Step)
    requires Inv(s) && Budgeted(s) && Enabled(s, step) && (step.OperatorRead? || step.OperatorFail?)
    ensures Budgeted(Next(s, step))
  {
    EverywhereStays(s, step);
    OperatorEndsAtMost(s, step);
    hide Inv, Everywhere, Next, Enabled, SameOrEnded, Counts, Waiting, Claims;
    StoreOnlyEnds(s, Next(s, step));
  }

  lemma OperatorEndsAtMost(s: State, step: Step)
    requires Records(s) && Enabled(s, step) && (step.OperatorRead? || step.OperatorFail?)
    ensures var t := Next(s, step);
            && t.received == s.received && t.created == s.created && t.unpublished == s.unpublished
            && t.pending == s.pending && t.inFlight == s.inFlight
            && forall id :: SameOrEnded(s, t, id)
  {
    OperatorOnlyEnds(s, step);
    var t := Next(s, step);
    forall id ensures SameOrEnded(s, t, id) {
      if id in s.repo.jobs { assert id in t.repo.jobs; }
    }
  }

  lemma StoreOnlyEnds(s: State, t: State)
    requires Counts(s) && Waiting(s) && Claims(s)
    requires forall id :: SameOrEnded(s, t, id)
    requires t.received == s.received && t.created == s.created && t.unpublished == s.unpublished
    requires t.pending == s.pending && t.inFlight == s.inFlight
    ensures Counts(t) && Waiting(t) && Claims(t)
  {
    hide PendingFits, ClaimFits, AtRest;
    forall id ensures PendingFits(s, id) ==> PendingFits(t, id)
      ensures AtRest(s, id) ==> AtRest(t, id)
      ensures id in s.repo.jobs ==> id in t.repo.jobs
    {
      assert SameOrEnded(s, t, id);
      FitsStay(s, t, id);
    }
    forall d | d in t.inFlight ensures ClaimFits(t, t.inFlight[d]) {
      assert ClaimFits(s, s.inFlight[d]);
      FitsStay(s, t, s.inFlight[d].jobId);
      assert s.inFlight[d] == Claim(s.inFlight[d].jobId, s.inFlight[d].local);
    }
  }

  lemma WorkKeepsBudget(s: State, d: nat, action: Action)
    requires Inv(s) && Budgeted(s) && Enabled(s, Step.Work(d, action)) && !Fault(s, Step.Work(d, action))
    ensures Budgeted(Next(s, Step.Work(d, action)))
  {
    EverywhereStays(s, Step.Work(d, action));
    assert ClaimFits(s, s.inFlight[d]);
    WorkFits(s, d, action);
    WorkIsLocal(s, d, action);
    var t := Worked(s, d, action);
    hide Inv, Enabled, Fault, Worked, Next, Everywhere;
    OneJobWorked(s, t, d);
  }

  /** An execution's action touches its own record and its own entry only. */
  lemma WorkIsLocal(s: State, d: nat, action: Action)
    requires Inv(s) && Enabled(s, Step.Work(d, action))
    ensures var t, id := Worked(s, d, action), s.inFlight[d].jobId;
            && t.received == s.received && t.created == s.created && t.unpublished == s.unpublished
               && t.pending == s.pending
            && t.inFlight == s.inFlight[d := t.inFlight[d]]
            && (forall x | x != id :: SameOrEnded(s, t, x))
            && id !in s.unpublished + s.pending
            && (forall e | e in s.inFlight && e != d :: s.inFlight[e].jobId != id)
  {
    WorkStoresOwnJob(s, d, action);
    var t, id := Worked(s, d, action), s.inFlight[d].jobId;
    hide NoOrphan, Locals, Started, Records;
    forall x | x != id ensures SameOrEnded(s, t, x) {
      assert Lookup(t.repo, x) == Lookup(s.repo, x);
    }
  }

  lemma OneJobWorked(s: State, t: State, d: nat)
    requires Counts(s) && Waiting(s) && Claims(s) && d in s.inFlight && d in t.inFlight
    requires t.received == s.received && t.created == s.created && t.unpublished == s.unpublished
             && t.pending == s.pending
    requires t.inFlight == s.inFlight[d := t.inFlight[d]] && ClaimFits(t, t.inFlight[d])
    requires var id := s.inFlight[d].jobId;
             && (forall x | x != id :: SameOrEnded(s, t, x))
             && id in t.repo.jobs && id !in s.unpublished + s.pending
             && (forall e | e in s.inFlight && e != d :: s.inFlight[e].jobId != id)
    ensures Counts(t) && Waiting(t) && Claims(t)
  {
    var id := s.inFlight[d].jobId;
    hide PendingFits, ClaimFits, AtRest;
    forall x | x != id
      ensures PendingFits(s, x) ==> PendingFits(t, x)
      ensures AtRest(s, x) ==> AtRest(t, x)
      ensures x in s.repo.jobs ==> x in t.repo.jobs
    {
      assert SameOrEnded(s, t, x);
      FitsStay(s, t, x);
    }
    forall e | e in t.inFlight ensures ClaimFits(t, t.inFlight[e]) {
      if e != d {
        assert ClaimFits(s, s.inFlight[e]);
        FitsStay(s, t, s.inFlight[e].jobId);
        assert s.inFlight[e] == Claim(s.inFlight[e].jobId, s.inFlight[e].local);
      }
    }
  }

  lemma WorkFits(s: State, d: nat, action: Action)
    requires Inv(s) && Enabled(s, Step.Work(d, action)) && !Fault(s, Step.Work(d, action))
    requires ClaimFits(s, s.inFlight[d])
    ensures ClaimFits(Worked(s, d, action), Worked(s, d, action).inFlight[d])
    ensures s.inFlight[d].jobId in Worked(s, d, action).repo.jobs
  {
    assert LocalFits(s, s.inFlight[d]);
    WrittenIsGenuine(s, d, action);
    assert s.inFlight[d].local.Settled? ==> s.inFlight[d].local.status.Terminal();
    hide Inv, LocalFits;
    if action.Get? {
      ReadFits(s, d, action);
    } else {
      LaterFits(s, d, action);
    }
  }

  lemma ReadFits(s: State, d: nat, action: Action)
    requires Enabled(s, Step.Work(d, action)) && !Fault(s, Step.Work(d, action)) && action.Get?
    requires ClaimFits(s, s.inFlight[d])
    ensures ClaimFits(Worked(s, d, action), Worked(s, d, action).inFlight[d])
    ensures s.inFlight[d].jobId in Worked(s, d, action).repo.jobs
  {
    var copy := s.repo.jobs[s.inFlight[d].jobId];
    match copy.status { case Queued => case Running => case Succeeded => case Failed => case Canceled => }
  }

  lemma LaterFits(s: State, d: nat, action: Action)
    requires Enabled(s, Step.Work(d, action)) && !Fault(s, Step.Work(d, action)) && !action.Get?
    requires ClaimFits(s, s.inFlight[d])
    requires action.Write? ==> Genuine(s, s.inFlight[d].jobId, action.record)
    requires s.inFlight[d].local.Settled? ==> s.inFlight[d].local.status.Terminal()
    ensures ClaimFits(Worked(s, d, action), Worked(s, d, action).inFlight[d])
    ensures s.inFlight[d].jobId in Worked(s, d, action).repo.jobs
  {
    var t, id := Worked(s, d, action), s.inFlight[d].jobId;
    assert action.Write? ==> id in t.repo.jobs && t.repo.jobs[id] == action.record;
  }

  lemma {:induction false} SmoothIsBudgeted(steps: seq<Step>)
    requires Legal(steps) && Smooth(steps)
    ensures Inv(StateAfter(steps)) && Budgeted(StateAfter(steps))
    decreases |steps|
  {
    if steps != [] {
      var n := |steps| - 1;
      SmoothIsBudgeted(steps[..n]);
      hide Inv, Budgeted, Enabled, Next, Fault;
      StepKeepsBoth(StateAfter(steps[..n]), steps[n]);
    }
  }

  lemma StepKeepsBoth(s: State, step: Step)
    requires Inv(s) && Budgeted(s) && Enabled(s, step) && !Fault(s, step)
    ensures Inv(Next(s, step)) && Budgeted(Next(s, step))
  {
    hide Inv, Budgeted;
    StepKeepsInv(s, step);
    match step {
      case Create(_, _, _, _, _) => CreateKeepsBudget(s, step);
      case Work(d, action) => WorkKeepsBudget(s, d, action);
      case OperatorRead(_, _) => OperatorKeepsBudget(s, step);
      case OperatorFail(_, _) => OperatorKeepsBudget(s, step);
      case _ => QueueKeepsBudget(s, step);
    }
  }

  /** In a fault-free run every message is delivered at most twice: a failure costs one redelivery, a terminal no-op. */
  lemma DeliveredAtMostTwice(steps: seq<Step>, jobId: string)
    requires Legal(steps) && Smooth(steps)
    ensures StateAfter(steps).received[jobId] <= 2
    ensures StateAfter(steps).received[jobId] == 2 ==> StoredTerminal(StateAfter(steps), jobId)
  {
    SmoothIsBudgeted(steps);
    var s := StateAfter(steps);
    if s.received[jobId] == 2 {
      assert jobId in s.created;
      SecondDeliveryIsTerminal(s, jobId);
    }
  }

  lemma SecondDeliveryIsTerminal(s: State, jobId: string)
    requires Inv(s) && Budgeted(s) && s.received[jobId] == 2
    ensures StoredTerminal(s, jobId)
  {
    if IsInFlight(s, jobId) {
      var d :| d in s.inFlight && s.inFlight[d].jobId == jobId;
      assert ClaimFits(s, s.inFlight[d]);
    } else {
      assert jobId in s.acked;
      assert jobId in s.repo.jobs && !s.repo.jobs[jobId].status.IsLive();
      match s.repo.jobs[jobId].status {
        case Queued => case Running => case Succeeded => case Failed => case Canceled =>
      }
    }
  }

  ghost function Published(s: State): set<string> {
    s.created.Keys - s.unpublished
  }

  /** A multiset over `support` with no element more than twice. */
  lemma {:induction false} AtMostTwiceEach(m: multiset<string>, support: set<string>)
    requires forall x :: m[x] <= 2 && (m[x] > 0 ==> x in support)
    ensures |m| <= 2 * |support|
    ensures (exists x :: x in support && m[x] <= 1) ==> |m| < 2 * |support|
    decreases |support|
  {
    if support == {} {
      assert m == multiset{};
    } else {
      var x :| x in support;
      if y :| y in support && m[y] <= 1 {
        x := y;
      }
      var rest := m[x := 0];
      assert |m| == |rest| + m[x];
      AtMostTwiceEach(rest, support - {x});
    }
  }

  /**
   Draining: n published messages take at most 2n deliveries; while one is pending the
   budget is not used up; when nothing is pending or in flight all n are acknowledged,
   and after 2n deliveries nothing is pending.
   */
  lemma DrainsWithinTwoDeliveriesEach(steps: seq<Step>)
    requires Legal(steps) && Smooth(steps)
    ensures var s := StateAfter(steps);
            && |s.received| <= 2 * |Published(s)|
            && (s.pending != {} ==> |s.received| < 2 * |Published(s)|)
            && (s.pending == {} && s.inFlight.Keys == {} ==> s.acked == Published(s))
            && (|s.received| == 2 * |Published(s)| ==> s.pending == {})
  {
    SmoothIsBudgeted(steps);
    hide StateAfter, Legal, Smooth;
    BudgetHolds(StateAfter(steps));
  }

  lemma BudgetHolds(s: State)
    requires Inv(s) && Budgeted(s)
    ensures |s.received| <= 2 * |Published(s)|
    ensures s.pending != {} ==> |s.received| < 2 * |Published(s)|
    ensures s.pending == {} && s.inFlight.Keys == {} ==> s.acked == Published(s)
  {
    ReceivedIsBounded(s);
    if s.pending == {} && s.inFlight.Keys == {} {
      DrainedIsAcked(s);
    }
  }

  lemma ReceivedIsBounded(s: State)
    requires Inv(s) && Budgeted(s)
    ensures |s.received| <= 2 * |Published(s)|
    ensures s.pending != {} ==> |s.received| < 2 * |Published(s)|
  {
    hide Locals, Records, Started, NoOrphan, Claims, Everywhere;
    forall x ensures s.received[x] <= 2 && (s.received[x] > 0 ==> x in Published(s)) {
      if x in s.created && x !in s.unpublished {}
    }
    if id :| id in s.pending {
      assert PendingFits(s, id);
      assert id in Published(s) && s.received[id] <= 1;
    }
    hide Counts, Waiting, Places;
    AtMostTwiceEach(s.received, Published(s));
  }

  lemma DrainedIsAcked(s: State)
    requires Inv(s) && Budgeted(s) && s.pending == {} && s.inFlight.Keys == {}
    ensures s.acked == Published(s)
  {
    hide Locals, Records, Started, NoOrphan, Claims, Counts, Waiting;
    forall id ensures !IsInFlight(s, id) {
      assert forall d :: d !in s.inFlight.Keys;
    }
    hide IsInFlight;
  }
}
