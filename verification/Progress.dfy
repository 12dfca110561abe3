/**
 Draining makes progress: in a fault-free run only boundedly many steps of the queue and
 the executions are possible, one is possible while anything is pending or in flight, and
 so every such run that goes on as long as it can acknowledges every message.
 */
module Progress {
  import opened Base
  import opened Domain
  import opened Contracts
  import opened Delivery
  import opened DeliverySafety
  import opened Draining
  import WorkerProgram

  predicate IsDrainStep(step: Step) {
    step.Receive? || step.Work? || step.Ack? || step.Nack?
  }

  predicate AllDrain(steps: seq<Step>) {
    forall i | 0 <= i < |steps| :: IsDrainStep(steps[i])
  }

  /** How far all deliveries in flight are from being settled. */
  ghost function TotalDistance(inFlight: map<nat, Claim>): nat
    decreases inFlight.Keys
  {
    if inFlight == map[] then 0
    else
      var d :| d in inFlight;
      WorkerProgram.Distance(inFlight[d].local) + TotalDistance(inFlight - {d})
  }

  lemma {:induction false} TotalWithout(inFlight: map<nat, Claim>, d: nat)
    requires d in inFlight
    ensures TotalDistance(inFlight) == WorkerProgram.Distance(inFlight[d].local) + TotalDistance(inFlight - {d})
    decreases inFlight.Keys
  {
    var e :| e in inFlight
      && TotalDistance(inFlight) == WorkerProgram.Distance(inFlight[e].local) + TotalDistance(inFlight - {e});
    if e != d {
      TotalWithout(inFlight - {e}, d);
      TotalWithout(inFlight - {d}, e);
      assert inFlight - {e} - {d} == inFlight - {d} - {e};
    }
  }

  lemma TotalUpdated(inFlight: map<nat, Claim>, d: nat, claim: Claim)
    requires d in inFlight
    ensures TotalDistance(inFlight[d := claim]) + WorkerProgram.Distance(inFlight[d].local)
         == TotalDistance(inFlight) + WorkerProgram.Distance(claim.local)
  {
    TotalWithout(inFlight, d);
    TotalWithout(inFlight[d := claim], d);
    assert inFlight[d := claim] - {d} == inFlight - {d};
  }

  lemma TotalAdded(inFlight: map<nat, Claim>, d: nat, claim: Claim)
    requires d !in inFlight
    ensures TotalDistance(inFlight[d := claim]) == TotalDistance(inFlight) + WorkerProgram.Distance(claim.local)
  {
    TotalWithout(inFlight[d := claim], d);
    assert inFlight[d := claim] - {d} == inFlight;
  }

  function Deliveries(s: State): int {
    2 * Size(s.created.Keys - s.unpublished) - |s.received|
  }

  function Size(ids: set<string>): nat {
    |ids|
  }

  /** What is left to do: deliveries still allowed, each worth more than a whole execution, and executions under way. */
  ghost function Remaining(s: State): int {
    17 * Deliveries(s) + TotalDistance(s.inFlight)
  }

  lemma ReceiveIsCloser(s: State, d: nat, jobId: string)
    requires Enabled(s, Step.Receive(d, jobId))
    ensures Remaining(Next(s, Step.Receive(d, jobId))) < Remaining(s)
  {
    TotalAdded(s.inFlight, d, Claim(jobId, Local.Start));
    hide TotalDistance, Size;
    assert |s.received + multiset{jobId}| == |s.received| + 1;
  }

  lemma WorkIsCloser(s: State, d: nat, action: Action)
    requires Enabled(s, Step.Work(d, action))
    ensures Remaining(Next(s, Step.Work(d, action))) < Remaining(s)
  {
    var t := Next(s, Step.Work(d, action));
    WorkerProgram.StepsAreBounded(s.inFlight[d].local, action);
    TotalUpdated(s.inFlight, d, t.inFlight[d]);
    assert t.inFlight == s.inFlight[d := t.inFlight[d]];
    assert t.created == s.created && t.unpublished == s.unpublished && t.received == s.received;
    hide TotalDistance, Size, Next, Enabled, WorkerProgram.Step, WorkerProgram.Distance;
  }

  lemma SettlingIsCloser(s: State, step: Step)
    requires Enabled(s, step) && (step.Ack? || step.Nack?)
    ensures Remaining(Next(s, step)) < Remaining(s)
  {
    var t := Next(s, step);
    assert t.inFlight == s.inFlight - {step.d} && t.created == s.created && t.unpublished == s.unpublished;
    assert t.received == s.received && WorkerProgram.Distance(s.inFlight[step.d].local) == 1;
    hide TotalDistance, Size, Next, Enabled, WorkerProgram.Distance;
    TotalWithout(s.inFlight, step.d);
  }

  /** Every step of the queue and of the executions leaves less to do. */
  lemma DrainStepIsCloser(s: State, step: Step)
    requires Enabled(s, step) && IsDrainStep(step)
    ensures Remaining(Next(s, step)) < Remaining(s)
  {
    match step {
      case Receive(d, jobId) => ReceiveIsCloser(s, d, jobId);
      case Work(d, action) => WorkIsCloser(s, d, action);
      case _ => SettlingIsCloser(s, step);
    }
    hide Remaining, Enabled, Next;
  }

  /** What an execution may do next without a fault; `found` is the stored record. */
  function NextAction(local: Local, found: Option<JobRecord>): Action {
    match local
    case Start => Action.Get(found)
    case Noop(copy) => Action.Write(copy)
    case Claimed(copy) => Action.Write(copy)
    case Marked(copy) => Action.Write(copy.(status := Running))
    case Live(copy, phase) =>
      if phase == WorkerProgram.UPDATES_BEFORE_SUBMIT then Action.Submit(WorkerProgram.Accepted)
      else if phase < WorkerProgram.LAST_PHASE then Action.Write(copy.(status := Running))
      else Action.Write(copy.(status := Succeeded))
    case Handling(copy, completed) => Action.Write(copy.(status := WorkerProgram.HandledStatus(completed)))
    case Settled(_, _, clean) => if clean then Action.Return else Action.Raise
    case _ => Action.Return
  }

  lemma NextActionIsPossible(local: Local, found: Option<JobRecord>)
    requires !local.Returned? && !local.Raised? && !local.Aborted? && found.Some?
    requires local.Marked? ==> local.copy.status == Queued
    requires local.Live? ==> local.phase <= WorkerProgram.LAST_PHASE
    ensures WorkerProgram.Step(local, NextAction(local, found)).Some?
    ensures !WorkerProgram.IsFault(local, NextAction(local, found))
    ensures NextAction(local, found).Get? ==> NextAction(local, found).found == found
  {
  }

  /** While something is pending or in flight, some step goes on without a fault. */
  lemma SomethingGoesOn(s: State) returns (step: Step)
    requires Budgeted(s) && (s.pending != {} || s.inFlight != map[])
    ensures IsDrainStep(step) && Enabled(s, step) && !Fault(s, step)
  {
    if s.inFlight == map[] {
      var jobId :| jobId in s.pending;
      step := Step.Receive(0, jobId);
    } else {
      var d :| d in s.inFlight;
      step := ExecutionGoesOn(s, d);
    }
  }

  lemma ExecutionGoesOn(s: State, d: nat) returns (step: Step)
    requires Budgeted(s) && d in s.inFlight
    ensures IsDrainStep(step) && Enabled(s, step) && !Fault(s, step)
  {
    var local, found := s.inFlight[d].local, Lookup(s.repo, s.inFlight[d].jobId);
    assert ClaimFits(s, s.inFlight[d]);
    hide Budgeted;
    if local.Returned? {
      step := Step.Ack(d);
    } else if local.Raised? {
      step := Step.Nack(d);
    } else {
      assert found.Some? && !local.Aborted? && (local.Marked? ==> local.copy.status == Queued)
             && (local.Live? ==> local.phase <= WorkerProgram.LAST_PHASE);
      NextActionIsPossible(local, found);
      hide ClaimFits, NextAction, WorkerProgram.Step, WorkerProgram.IsFault, Lookup;
      step := Step.Work(d, NextAction(local, found));
      assert NextAction(local, found).Get? ==> NextAction(local, found).found == found;
    }
  }

  lemma RemainingIsNatural(steps: seq<Step>)
    requires Legal(steps) && Smooth(steps)
    ensures Remaining(StateAfter(steps)) >= 0
  {
    SmoothIsBudgeted(steps);
    var s := StateAfter(steps);
    hide Legal, StateAfter, Smooth;
    BudgetHolds(s);
    assert Size(s.created.Keys - s.unpublished) == |Published(s)|;
  }

  /** A fault-free continuation by steps of the queue and the executions is no longer than what was left to do. */
  lemma DrainingIsBounded(steps: seq<Step>, more: seq<Step>)
    requires Legal(steps) && Legal(steps + more) && Smooth(steps + more) && AllDrain(more)
    ensures Smooth(steps) && |more| <= Remaining(StateAfter(steps))
  {
    DrainingUsesUp(steps, more);
    RemainingIsNatural(steps + more);
    hide Legal, StateAfter, Smooth, Remaining;
  }

  lemma {:induction false} DrainingUsesUp(steps: seq<Step>, more: seq<Step>)
    requires Legal(steps) && Legal(steps + more) && Smooth(steps + more) && AllDrain(more)
    ensures Smooth(steps) && |more| + Remaining(StateAfter(steps + more)) <= Remaining(StateAfter(steps))
    decreases |more|
  {
    if more == [] {
      assert steps + more == steps;
    } else {
      var n := |more| - 1;
      UnrollMore(steps, more);
      SmoothShorter(steps, more);
      DrainingUsesUp(steps, more[..n]);
      hide Enabled, Next, Legal, StateAfter, Smooth, Remaining;
      DrainStepIsCloser(StateAfter(steps + more[..n]), more[n]);
    }
  }

  lemma SmoothShorter(steps: seq<Step>, more: seq<Step>)
    requires Legal(steps + more) && more != [] && Smooth(steps + more)
    ensures Legal(steps + more[..|more| - 1]) && Smooth(steps + more[..|more| - 1])
  {
    assert (steps + more)[..|steps + more| - 1] == steps + more[..|more| - 1];
  }

  /** A fault-free run has ended draining: nothing of the queue or the executions can go on without a fault. */
  ghost predicate Exhausted(s: State) {
    forall step | IsDrainStep(step) && Enabled(s, step) :: Fault(s, step)
  }

  lemma NothingGoesOn(s: State)
    requires s.pending == {} && s.inFlight == map[]
    ensures Exhausted(s)
  {
  }

  /** Every fault-free run that drains for as long as it can ends with every published message acknowledged. */
  lemma ExhaustedMeansDrained(steps: seq<Step>)
    requires Legal(steps) && Smooth(steps)
    ensures var s := StateAfter(steps);
            Exhausted(s) <==> s.pending == {} && s.inFlight == map[]
    ensures Exhausted(StateAfter(steps)) ==> StateAfter(steps).acked == Published(StateAfter(steps))
  {
    SmoothIsBudgeted(steps);
    var s := StateAfter(steps);
    if s.pending != {} || s.inFlight != map[] {
      var step := SomethingGoesOn(s);
      assert IsDrainStep(step) && Enabled(s, step);
    } else {
      NothingGoesOn(s);
      assert s.inFlight.Keys == {};
      hide Inv, Budgeted, Enabled, Fault, Legal, StateAfter;
      BudgetHolds(s);
    }
  }

  lemma GoOn(steps: seq<Step>) returns (longer: seq<Step>)
    requires Legal(steps) && Smooth(steps)
    requires StateAfter(steps).pending != {} || StateAfter(steps).inFlight != map[]
    ensures |longer| == |steps| + 1 && longer[..|steps|] == steps && IsDrainStep(longer[|steps|])
    ensures Legal(longer) && Smooth(longer) && Remaining(StateAfter(longer)) < Remaining(StateAfter(steps))
  {
    SmoothIsBudgeted(steps);
    var s := StateAfter(steps);
    var step := SomethingGoesOn(s);
    DrainStepIsCloser(s, step);
    longer := Extend(steps, step);
    hide Inv, Budgeted, Remaining, Enabled, Next, Fault;
    assert longer[..|longer| - 1] == steps;
  }

  /** From every fault-free run, draining can be finished without a fault. */
  lemma {:induction false} CanBeDrained(steps: seq<Step>) returns (more: seq<Step>)
    requires Legal(steps) && Smooth(steps)
    ensures Legal(steps + more) && Smooth(steps + more) && AllDrain(more)
    ensures StateAfter(steps + more).pending == {} && StateAfter(steps + more).inFlight == map[]
    decreases Remaining(StateAfter(steps))
  {
    hide Legal, StateAfter, Smooth, Remaining, AllDrain;
    assert AllDrain([]) by { NoneIsDrain(); }
    if StateAfter(steps).pending == {} && StateAfter(steps).inFlight == map[] {
      more := [];
      assert steps + more == steps;
    } else {
      RemainingIsNatural(steps);
      var longer := GoOn(steps);
      var rest := CanBeDrained(longer);
      more := [longer[|steps|]] + rest;
      Joined(steps, longer, rest);
    }
  }

  lemma NoneIsDrain()
    ensures AllDrain([])
  {
  }

  lemma Joined(steps: seq<Step>, longer: seq<Step>, rest: seq<Step>)
    requires |longer| == |steps| + 1 && longer[..|steps|] == steps && IsDrainStep(longer[|steps|]) && AllDrain(rest)
    ensures steps + ([longer[|steps|]] + rest) == longer + rest && AllDrain([longer[|steps|]] + rest)
  {
  }
}
