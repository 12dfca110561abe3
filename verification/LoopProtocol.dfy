/**
 What the worker loop sees of the delivery protocol, and the steps of the protocol that
 are the loop's own: it receives, and it settles or loses what it received. A turn of the
 loop is such a sequence of steps; whatever the other participants do in between, it is
 part of a run of the protocol.
 */
module LoopProtocol {
  import opened Delivery
  import WorkerProgram

  type Local = WorkerProgram.Local

  /** The queue and the deliveries in flight, by job. */
  datatype View = View(pending: set<string>, inFlight: map<nat, string>, acked: set<string>, dropped: set<string>)

  predicate IsLoops(step: Step) {
    step.Receive? || step.Ack? || step.Nack? || step.Drop?
  }

  /** The loop can take the step. */
  predicate Allows(view: View, step: Step) {
    match step
    case Receive(d, jobId) => d !in view.inFlight && jobId in view.pending
    case Ack(d) => d in view.inFlight
    case Nack(d) => d in view.inFlight
    case Drop(d) => d in view.inFlight
    case _ => false
  }

  function After(view: View, step: Step): View
    requires Allows(view, step)
  {
    match step
    case Receive(d, jobId) => view.(pending := view.pending - {jobId}, inFlight := view.inFlight[d := jobId])
    case Ack(d) => view.(inFlight := view.inFlight - {d}, acked := view.acked + {view.inFlight[d]})
    case Nack(d) => view.(inFlight := view.inFlight - {d}, pending := view.pending + {view.inFlight[d]})
    case Drop(d) => view.(inFlight := view.inFlight - {d}, dropped := view.dropped + {view.inFlight[d]})
  }

  /** The loop's steps, one after another, lead from one view to the other. */
  ghost predicate Leads(view: View, steps: seq<Step>, last: View)
    decreases |steps|
  {
    if steps == [] then view == last
    else Allows(view, steps[0]) && Leads(After(view, steps[0]), steps[1..], last)
  }

  lemma {:induction false} LeadsOn(view: View, steps: seq<Step>, middle: View, more: seq<Step>, last: View)
    requires Leads(view, steps, middle) && Leads(middle, more, last)
    ensures Leads(view, steps + more, last)
    decreases |steps|
  {
    if steps == [] {
      assert steps + more == more;
    } else {
      assert (steps + more)[1..] == steps[1..] + more;
      LeadsOn(After(view, steps[0]), steps[1..], middle, more, last);
    }
  }

  lemma LeadsOneMore(view: View, steps: seq<Step>, middle: View, step: Step)
    requires Leads(view, steps, middle) && Allows(middle, step)
    ensures Leads(view, steps + [step], After(middle, step))
  {
    assert Leads(middle, [step], After(middle, step));
    LeadsOn(view, steps, middle, [step], After(middle, step));
  }

  /** Every step settles an execution by how it has ended: true for a return, false for a raise. */
  ghost predicate SettleBy(steps: seq<Step>, results: map<nat, bool>) {
    forall step | step in steps ::
      match step
      case Ack(d) => d in results && results[d]
      case Nack(d) => d in results && !results[d]
      case Drop(d) => d in results && !results[d]
      case _ => false
  }

  /** Each of the executions is settled or dropped by one of the steps. */
  ghost predicate SettleEach(steps: seq<Step>, futures: set<nat>) {
    forall f | f in futures :: Ack(f) in steps || Nack(f) in steps || Drop(f) in steps
  }

  ghost predicate OnlyReceive(steps: seq<Step>) {
    forall step | step in steps :: step.Receive?
  }

  /**
   One turn: what had ended is settled, messages are received, what has ended since is
   settled. Unless it was cut short, all executions in flight at the start that had ended
   by then are settled, and all in flight after receiving that have ended since.
   */
  ghost predicate IsTurn(steps: seq<Step>, first: map<nat, bool>, second: map<nat, bool>, before: set<nat>,
                         filled: set<nat>, cutShort: bool)
  {
    exists drained, received, redrained ::
      && steps == drained + received + redrained
      && SettleBy(drained, first) && OnlyReceive(received) && SettleBy(redrained, second)
      && (!cutShort ==> SettleEach(drained, before * first.Keys) && SettleEach(redrained, filled * second.Keys))
  }

  // ---- The view of a state of the protocol ----

  /** The view agrees with the state, except that messages may have been published since. */
  ghost predicate Sees(view: View, s: State) {
    && view.pending <= s.pending && view.acked == s.acked && view.dropped == s.dropped
    && view.inFlight == map d | d in s.inFlight :: s.inFlight[d].jobId
  }

  /** An execution the step settles has ended, and in the way the step says. */
  ghost predicate HasEnded(s: State, step: Step) {
    match step
    case Ack(d) => d in s.inFlight ==> s.inFlight[d].local == Local.Returned
    case Nack(d) => d in s.inFlight ==> s.inFlight[d].local == Local.Raised
    case Drop(d) => d in s.inFlight ==> s.inFlight[d].local == Local.Raised
    case _ => true
  }

  /** A step the loop can take is a step of the protocol, with the same effect. */
  lemma LoopStepIsSimulated(view: View, s: State, step: Step)
    requires Sees(view, s) && Allows(view, step) && HasEnded(s, step)
    ensures Enabled(s, step) && Sees(After(view, step), Next(s, step))
  {
  }

  lemma WorkKeepsView(view: View, s: State, d: nat, action: Action)
    requires Sees(view, s) && Enabled(s, Work(d, action))
    ensures Sees(view, Next(s, Work(d, action)))
  {
    WorkIsWorked(s, d, action);
    hide Enabled, Next, WorkerProgram.Step;
    assert forall e | e in s.inFlight :: Worked(s, d, action).inFlight[e].jobId == s.inFlight[e].jobId;
  }

  /** No step of another participant changes what the loop sees, but for a publication. */
  lemma OthersKeepView(view: View, s: State, step: Step)
    requires Sees(view, s) && Enabled(s, step) && !IsLoops(step) && !step.Redeliver?
    ensures Sees(view, Next(s, step))
  {
    if step.Work? {
      WorkKeepsView(view, s, step.d, step.action);
    }
  }

  // ---- Turns within runs ----

  /** The loop's own steps among those of everybody. */
  ghost function Loops(all: seq<Step>): seq<Step> {
    if all == [] then []
    else (if IsLoops(all[0]) then [all[0]] else []) + Loops(all[1..])
  }

  /**
   From `s` on, the steps of the others are possible when they are taken, no message is
   delivered twice at a time, and the loop settles only what has ended. Nothing is assumed
   of the loop's steps besides.
   */
  ghost predicate OthersCanStep(s: State, all: seq<Step>)
    decreases |all|
  {
    all == [] || (
      && (if IsLoops(all[0]) then HasEnded(s, all[0]) else Enabled(s, all[0]) && !all[0].Redeliver?)
      && (Enabled(s, all[0]) ==> OthersCanStep(Next(s, all[0]), all[1..])))
  }

  /** The first of the steps is possible, and what was asked of all of them holds for the rest. */
  lemma FirstStep(s: State, all: seq<Step>, view: View, last: View) returns (next: View)
    requires all != [] && Sees(view, s) && OthersCanStep(s, all) && Leads(view, Loops(all), last)
    ensures Enabled(s, all[0]) && Sees(next, Next(s, all[0]))
    ensures OthersCanStep(Next(s, all[0]), all[1..]) && Leads(next, Loops(all[1..]), last)
  {
    hide Enabled, Next, Sees, HasEnded, Allows, After;
    if IsLoops(all[0]) {
      assert Loops(all)[0] == all[0] && Loops(all)[1..] == Loops(all[1..]);
      LoopStepIsSimulated(view, s, all[0]);
      next := After(view, all[0]);
    } else {
      assert Loops(all) == Loops(all[1..]);
      OthersKeepView(view, s, all[0]);
      next := view;
    }
  }

  /**
   Whatever the others do between the steps of the loop, the whole is a run of the
   protocol, and at its end the protocol is where the loop's own steps have led.
   */
  lemma {:induction false} TurnIsInARun(steps: seq<Step>, all: seq<Step>, view: View, last: View)
    requires Legal(steps) && Sees(view, StateAfter(steps))
    requires OthersCanStep(StateAfter(steps), all) && Leads(view, Loops(all), last)
    ensures Legal(steps + all) && Sees(last, StateAfter(steps + all))
    decreases |all|
  {
    hide Enabled, Next, Sees, OthersCanStep, Legal, StateAfter;
    if all == [] {
      assert steps + all == steps;
    } else {
      assert steps + all == steps + [all[0]] + all[1..];
      hide Leads, Loops;
      var next := FirstStep(StateAfter(steps), all, view, last);
      var longer := Extend(steps, all[0]);
      TurnIsInARun(longer, all[1..], next, last);
    }
  }
}
