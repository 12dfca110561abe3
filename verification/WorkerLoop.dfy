/**
 The worker loop: a bounded set of executions in flight, each holding one delivery,
 acknowledged when the execution returns and put back when it raises.
 */
module WorkerLoop {
  import opened LoopProtocol
  import opened MemoryQueue
  import Delivery

  type Step = Delivery.Step
  type Entries = map<nat, MemoryQueueDelivery>

  /** The messages held under some of the futures. */
  ghost function MessagesOf(entries: Entries, futures: set<nat>): set<Message> {
    set f | f in futures && f in entries :: entries[f].message
  }

  ghost function Held(entries: Entries): set<Message> {
    MessagesOf(entries, entries.Keys)
  }

  /** No two entries hold the same message. */
  ghost predicate Apart(entries: Entries) {
    forall f, g | f in entries && g in entries && f != g :: entries[f].message != entries[g].message
  }

  function Size(entries: Entries): nat {
    |entries|
  }

  /** Every future is older than `next`, and its delivery is one of `open`. */
  ghost predicate Among(entries: Entries, open: set<MemoryQueueDelivery>, next: nat) {
    forall f | f in entries :: f < next && entries[f] in open
  }

  ghost function Ending(results: map<nat, bool>, returned: bool): set<nat> {
    set f | f in results && results[f] == returned
  }

  lemma HeldLess(entries: Entries, f: nat, open: set<MemoryQueueDelivery>, next: nat)
    requires Apart(entries) && f in entries
    ensures Apart(entries - {f})
    ensures Held(entries - {f}) == Held(entries) - {entries[f].message}
    ensures entries[f].message in Held(entries)
    ensures Among(entries, open, next) ==> entries[f] in open && Among(entries - {f}, open - {entries[f]}, next)
    ensures Size(entries - {f}) == Size(entries) - 1
  {
    assert (entries - {f}).Keys == entries.Keys - {f};
    assert |entries.Keys - {f}| == |entries.Keys| - 1;
    forall m | m in Held(entries - {f}) ensures m in Held(entries) && m != entries[f].message {
      var g :| g in entries - {f} && entries[g].message == m;
    }
    forall m | m in Held(entries) && m != entries[f].message ensures m in Held(entries - {f}) {
      var g :| g in entries && entries[g].message == m;
      assert g in entries - {f};
    }
  }

  lemma HeldMore(entries: Entries, f: nat, delivery: MemoryQueueDelivery)
    requires Apart(entries) && f !in entries && delivery.message !in Held(entries)
    ensures Apart(entries[f := delivery])
    ensures Held(entries[f := delivery]) == Held(entries) + {delivery.message}
  {
    var after := entries[f := delivery];
    assert after - {f} == entries;
    forall g | g in entries ensures entries[g].message != delivery.message {
      assert entries[g].message in Held(entries);
    }
    HeldLess(after, f, {}, 0);
  }

  lemma SizeMore(entries: Entries, f: nat, delivery: MemoryQueueDelivery)
    requires f !in entries
    ensures Size(entries[f := delivery]) == Size(entries) + 1
  {
    assert entries[f := delivery].Keys == entries.Keys + {f};
  }

  lemma MessagesOfOneMore(entries: Entries, futures: set<nat>, f: nat, verdict: set<nat>)
    requires f in entries
    ensures MessagesOf(entries, (futures + {f}) * verdict) ==
            MessagesOf(entries, futures * verdict) + if f in verdict then {entries[f].message} else {}
  {
    if f !in verdict {
      assert (futures + {f}) * verdict == futures * verdict;
    }
  }

  lemma TakenIn(claimed: set<Message>, held: set<Message>, dropped: set<Message>, m: Message)
    requires claimed == held + dropped + {m} && held !! dropped && m !in held + dropped
    ensures claimed == (held + {m}) + dropped && (held + {m}) !! dropped
  {
  }

  /** The first messages of `items0` have become entries, in number and in content; `items` is left. */
  ghost predicate Moved(before: Entries, after: Entries, items0: seq<Message>, items: seq<Message>) {
    var n := |items0| - |items|;
    && n >= 0 && items == items0[n..]
    && Size(after) == Size(before) + n
    && Held(after) == Held(before) + Elements(items0[..n])
  }

  lemma NothingMoved(entries: Entries, items: seq<Message>)
    ensures Moved(entries, entries, items, items)
  {
  }

  lemma MovedOneMore(before: Entries, entries: Entries, after: Entries, items0: seq<Message>, items: seq<Message>,
                     rest: seq<Message>, m: Message)
    requires Moved(before, entries, items0, items) && items == [m] + rest
    requires Size(after) == Size(entries) + 1 && Held(after) == Held(entries) + {m}
    ensures Moved(before, after, items0, rest) && |rest| < |items| <= |items0|
  {
    var n := |items0| - |items|;
    assert items0[n] == items[0] == m && items0[n + 1..] == items[1..] == rest;
    assert items0[..n + 1] == items0[..n] + [m];
    assert Elements(items0[..n + 1]) == Elements(items0[..n]) + {m};
    hide Size, Held, Elements;
  }

  // ---- What the protocol sees of the loop ----

  ghost function JobsOf(messages: set<Message>): set<string> {
    set m | m in messages :: m.jobId
  }

  /** No job has two messages. */
  ghost predicate OneEach(messages: set<Message>) {
    forall m, n | m in messages && n in messages && m != n :: m.jobId != n.jobId
  }

  ghost function ViewOf(items: seq<Message>, entries: Entries, acked: set<Message>, dropped: set<Message>): View {
    View(JobsOf(Elements(items)), map f | f in entries :: entries[f].message.jobId, JobsOf(acked), JobsOf(dropped))
  }

  lemma ReceiveIsAStep(items: seq<Message>, rest: seq<Message>, entries: Entries, f: nat, delivery: MemoryQueueDelivery,
                       acked: set<Message>, dropped: set<Message>)
    requires items == [delivery.message] + rest && NoDuplicates(items) && OneEach(Elements(items)) && f !in entries
    ensures var step := Step.Receive(f, delivery.message.jobId);
            var view := ViewOf(items, entries, acked, dropped);
            && Allows(view, step)
            && After(view, step) == ViewOf(rest, entries[f := delivery], acked, dropped)
  {
    var m := delivery.message;
    assert items[0] == m && items[1..] == rest;
    assert m !in rest;
    assert JobsOf(Elements(rest)) == JobsOf(Elements(items)) - {m.jobId} by {
      assert m in Elements(items);
      forall n | n in rest ensures n in Elements(items) && n.jobId != m.jobId {}
    }
  }

  lemma SettleIsAStep(items: seq<Message>, entries: Entries, f: nat, acked: set<Message>, dropped: set<Message>)
    requires f in entries
    ensures var m := entries[f].message;
            var view := ViewOf(items, entries, acked, dropped);
            && Allows(view, Step.Ack(f)) && Allows(view, Step.Nack(f)) && Allows(view, Step.Drop(f))
            && After(view, Step.Ack(f)) == ViewOf([] + items, entries - {f}, acked + {m}, dropped)
            && After(view, Step.Nack(f)) == ViewOf([m] + items, entries - {f}, acked + {}, dropped)
            && After(view, Step.Drop(f)) == ViewOf([] + items, entries - {f}, acked + {}, dropped + {m})
  {
    var m := entries[f].message;
    assert JobsOf(acked + {m}) == JobsOf(acked) + {m.jobId};
    assert JobsOf(dropped + {m}) == JobsOf(dropped) + {m.jobId};
    assert JobsOf(Elements(items) + {m}) == JobsOf(Elements(items)) + {m.jobId};
    assert acked + {} == acked;
    ElementsAfter(items, m);
  }

  /** The step by which an ended execution is settled. */
  function Settlement(f: nat, returned: bool, raised: bool): Step {
    if returned then Step.Ack(f) else if raised then Step.Drop(f) else Step.Nack(f)
  }

  /** The jobs whose executions the steps settle as failed, in order. */
  ghost function FailedBy(steps: seq<Step>, entries: Entries): seq<string> {
    if steps == [] then []
    else
      var last := steps[|steps| - 1];
      FailedBy(steps[..|steps| - 1], entries)
      + if (last.Nack? || last.Drop?) && last.d in entries then [entries[last.d].message.jobId] else []
  }

  lemma FailedByOneMore(steps: seq<Step>, entries: Entries, f: nat, returned: bool, raised: bool)
    requires f in entries
    ensures FailedBy(steps + [Settlement(f, returned, raised)], entries)
            == FailedBy(steps, entries) + if returned then [] else [entries[f].message.jobId]
  {
    var step := Settlement(f, returned, raised);
    assert (steps + [step])[..|steps|] == steps;
  }

  /** What a turn found in between: the queue after the first drain, and map and queue after receiving. */
  datatype Turn = Turn(offered: seq<Message>, filled: Entries, waiting: seq<Message>)

  /** The entries that were there still are, and the others are younger. */
  ghost predicate Keeps(before: Entries, after: Entries, next: nat) {
    && (forall f | f in before :: f in after && after[f] == before[f])
    && (forall f | f in after && f !in before :: f >= next)
  }

  lemma NothingStarted(entries: Entries, next: nat)
    ensures Keeps(entries, entries, next)
  {
  }

  lemma KeepsMore(before: Entries, after: Entries, next: nat, f: nat, delivery: MemoryQueueDelivery)
    requires Keeps(before, after, next) && next <= f && f !in after
    ensures Keeps(before, after[f := delivery], next)
  {
  }

  class WorkerLoop {
    const queue: InMemoryJobQueue
    const maxInFlightJobs: nat
    var inFlight: Entries
    var nextFuture: nat
    ghost var dropped: set<Message>
    ghost var open: set<MemoryQueueDelivery>  // the deliveries held in `inFlight`
    ghost var failures: seq<string>           // the jobs reported to the state service as failed
    ghost var heartbeats: nat                 // idle heartbeats

    ghost function Seen(): View
      reads `inFlight, `dropped, queue`items, queue`acked
    {
      ViewOf(queue.items, inFlight, queue.acked, dropped)
    }

    ghost predicate StillOpen(deliveries: set<MemoryQueueDelivery>)
      reads deliveries
    {
      forall d | d in deliveries :: d.queue == queue && !d.done
    }

    ghost predicate AllOpen()
      reads this, open
    {
      Among(inFlight, open, nextFuture) && StillOpen(open)
    }

    /**
     Capacity; every entry holds one open delivery of its own; and conservation: with the
     queue's own partition, a published message is pending, held here, acknowledged, or
     was dropped when the state service raised.
     */
    ghost predicate Valid()
      reads this, queue, open
    {
      && queue.Valid()
      && 1 <= maxInFlightJobs && Size(inFlight) <= maxInFlightJobs
      && AllOpen() && Apart(inFlight)
      && queue.claimed == Held(inFlight) + dropped && Held(inFlight) !! dropped
    }

    constructor (queue: InMemoryJobQueue, maxInFlightJobs: int)
      requires queue.Valid() && queue.claimed == {}
      ensures Valid() && this.queue == queue && inFlight == map[] && dropped == {} && failures == [] && heartbeats == 0
      ensures this.maxInFlightJobs == if maxInFlightJobs < 1 then 1 else maxInFlightJobs
    {
      this.queue := queue;
      this.maxInFlightJobs := if maxInFlightJobs < 1 then 1 else maxInFlightJobs;
      inFlight, nextFuture, dropped, open, failures, heartbeats := map[], 0, {}, {}, [], 0;
    }

    /** `delivery` has left the dictionary and is not settled yet. */
    ghost predicate Loose(delivery: MemoryQueueDelivery)
      reads this, queue, delivery, open
    {
      && queue.Valid() && delivery.queue == queue && !delivery.done
      && 1 <= maxInFlightJobs && Size(inFlight) < maxInFlightJobs
      && AllOpen() && Apart(inFlight) && delivery !in open
      && queue.claimed == Held(inFlight) + dropped + {delivery.message} && Held(inFlight) !! dropped
      && delivery.message !in Held(inFlight) + dropped
    }

    method Pop(future: nat) returns (delivery: MemoryQueueDelivery)
      requires Valid() && future in inFlight
      modifies `inFlight, `open
      ensures delivery in old(open) && open == old(open) - {delivery}
      ensures delivery == old(inFlight)[future] && inFlight == old(inFlight) - {future} && Loose(delivery)
    {
      HeldLess(inFlight, future, open, nextFuture);
      hide Apart, Among, Size, MessagesOf, Held, NoDuplicates, Elements;
      delivery := inFlight[future];
      inFlight := inFlight - {future};
      open := open - {delivery};
    }

    /**
     One ended execution: its delivery is acknowledged if it returned, put back if it
     raised. `job_failed` of the state service may raise; the delivery is then dropped.
     */
    method Settle(delivery: MemoryQueueDelivery, returned: bool) returns (raised: bool)
      requires Loose(delivery)
      modifies `dropped, `failures, queue`items, queue`claimed, queue`acked, delivery
      ensures failures == old(failures) + if returned then [] else [delivery.message.jobId]
      ensures Valid() && queue.published == old(queue.published)
      ensures raised ==> !returned && dropped == old(dropped) + {delivery.message}
      ensures !raised ==> dropped == old(dropped) && delivery.done
      ensures queue.acked == old(queue.acked) + if returned then {delivery.message} else {}
      ensures queue.items == (if returned || raised then [] else [delivery.message]) + old(queue.items)
    {
      hide Apart, Among, Size, MessagesOf, Held, NoDuplicates, Elements;
      raised := false;
      if returned {
        delivery.Ack();
      } else {
        failures := failures + [delivery.message.jobId];
        raised := *;
        if raised {
          dropped := dropped + {delivery.message};
        } else {
          delivery.Nack();
        }
      }
    }

    method SettleFuture(future: nat, returned: bool) returns (raised: bool, ghost step: Step)
      requires Valid() && future in inFlight
      modifies `inFlight, `open, `dropped, `failures, queue`items, queue`claimed, queue`acked, open
      ensures failures == old(failures) + if returned then [] else [old(inFlight)[future].message.jobId]
      ensures Valid() && queue.published == old(queue.published) && open <= old(open)
      ensures inFlight == old(inFlight) - {future}
      ensures raised ==> !returned && dropped == old(dropped) + {old(inFlight)[future].message}
      ensures !raised ==> dropped == old(dropped)
      ensures queue.acked == old(queue.acked) + if returned then {old(inFlight)[future].message} else {}
      ensures queue.items == (if returned || raised then [] else [old(inFlight)[future].message]) + old(queue.items)
      ensures step == Settlement(future, returned, raised)
      ensures Allows(old(Seen()), step) && Seen() == After(old(Seen()), step)
    {
      hide Apart, Among, Size, MessagesOf, Held, NoDuplicates, Elements, ViewOf, Allows, After;
      SettleIsAStep(queue.items, inFlight, future, queue.acked, dropped);
      var delivery := Pop(future);
      raised := Settle(delivery, returned);
      step := Settlement(future, returned, raised);
    }

    /**
     `results` holds the executions that have ended: true for a return, false for a raise.
     Without a raise of the state service every one of them is settled, acknowledged iff
     it returned, put back iff it raised, and nothing else changes.
     */
    method DrainFinished(results: map<nat, bool>) returns (processed: bool, raised: bool, ghost steps: seq<Step>)
      requires Valid()
      modifies `inFlight, `open, `dropped, `failures, queue`items, queue`claimed, queue`acked, open
      ensures open <= old(open)
      ensures Valid() && queue.published == old(queue.published)
      ensures inFlight.Keys <= old(inFlight).Keys && forall f | f in inFlight :: inFlight[f] == old(inFlight)[f]
      ensures !raised ==> dropped == old(dropped) && inFlight == old(inFlight) - results.Keys
      ensures !raised ==>
                queue.acked == old(queue.acked) + MessagesOf(old(inFlight), old(inFlight).Keys * Ending(results, true))
      ensures !raised ==>
                Elements(queue.items)
                == old(Elements(queue.items)) + MessagesOf(old(inFlight), old(inFlight).Keys * Ending(results, false))
      ensures !raised ==> (processed <==> old(inFlight).Keys * results.Keys != {})
      ensures !raised && !processed ==> inFlight == old(inFlight) && queue.items == old(queue.items)
      ensures processed ==> old(inFlight).Keys != {}
      ensures raised ==> exists f | f in old(inFlight) ::
                  f in Ending(results, false) && dropped == old(dropped) + {old(inFlight)[f].message}
      ensures SettleBy(steps, results) && Leads(old(Seen()), steps, Seen())
      ensures failures == old(failures) + FailedBy(steps, old(inFlight))
      ensures !raised ==> SettleEach(steps, old(inFlight).Keys * results.Keys)
    {
      hide Apart, Among, Size, MessagesOf, Held, NoDuplicates, Elements, Ending, Rest, Booked, ViewOf, Allows, After,
           Leads, SettleBy, SettleEach, FailedBy, Told;
      ghost var before, items, acked := inFlight, queue.items, queue.acked;
      ghost var seen, failed := Seen(), failures;
      processed, raised := false, false;
      var completed := inFlight.Keys * results.Keys;
      NothingSettled(before, results, acked, items);
      steps := [];
      NothingTold(before, results, seen, failed);
      while completed != {}
        invariant completed == inFlight.Keys * results.Keys
        invariant open <= old(open)
        invariant Rest(before, inFlight, results.Keys)
        invariant Valid() && queue.published == old(queue.published) && dropped == old(dropped)
        invariant Booked(before, inFlight, results, acked, items, queue.acked, queue.items)
        invariant processed <==> inFlight.Keys != before.Keys
        invariant !processed ==> inFlight == before && queue.items == items
        invariant Told(before, inFlight.Keys, results, steps, seen, Seen(), failed, failures)
        decreases completed
      {
        var future :| future in completed;
        completed := completed - {future};
        SettleStep(before, inFlight, results, future, acked, items, queue.acked, queue.items);
        ghost var rest, told, view := inFlight.Keys, failures, Seen();
        ghost var step;
        raised, step := SettleFuture(future, results[future]);
        assert inFlight.Keys == rest - {future};
        ToldOneMore(before, rest, results, steps, seen, view, failed, told, future, raised);
        steps := steps + [step];
        if raised {
          TellsAll(before, inFlight.Keys, results, steps, seen, Seen(), failed, failures);
          RaisedFor(before, results, future);
          return;
        }
        processed := true;
      }
      AllSettled(before, inFlight, results, acked, items, queue.acked, queue.items);
      TellsAll(before, inFlight.Keys, results, steps, seen, Seen(), failed, failures);
    }

    /** A message is taken from the queue and its execution is started. */
    method Start(delivery: MemoryQueueDelivery)
      requires Loose(delivery)
      modifies `inFlight, `open, `nextFuture
      ensures Valid() && delivery in open && open == old(open) + {delivery}
      ensures inFlight == old(inFlight)[old(nextFuture) := delivery] && old(nextFuture) !in old(inFlight)
      ensures nextFuture == old(nextFuture) + 1
    {
      Fresh(inFlight, open, nextFuture, delivery);
      HeldMore(inFlight, nextFuture, delivery);
      SizeMore(inFlight, nextFuture, delivery);
      hide Apart, Among, Size, MessagesOf, Held, NoDuplicates, Elements;
      TakenIn(queue.claimed, Held(inFlight), dropped, delivery.message);
      assert StillOpen(open + {delivery});
      hide StillOpen;
      inFlight := inFlight[nextFuture := delivery];
      open := open + {delivery};
      nextFuture := nextFuture + 1;
      assert AllOpen();
      hide AllOpen;
    }

    /** The inner loop of `tick`: the front of the queue moves in, up to capacity or until the queue is empty. */
    method Fill() returns (received: bool, ghost steps: seq<Step>)
      requires Valid()
      modifies `inFlight, `open, `nextFuture, queue`items, queue`claimed
      ensures Valid() && queue.published == old(queue.published) && queue.acked == old(queue.acked)
      ensures fresh(open - old(open))
      ensures Moved(old(inFlight), inFlight, old(queue.items), queue.items)
      ensures Keeps(old(inFlight), inFlight, old(nextFuture))
      ensures queue.items == [] || Size(inFlight) == maxInFlightJobs
      ensures received <==> |queue.items| < |old(queue.items)|
      ensures received ==> inFlight.Keys != {}
      ensures !received ==> inFlight == old(inFlight) && queue.items == old(queue.items)
      ensures OnlyReceive(steps) && (OneEach(queue.published) ==> Leads(old(Seen()), steps, Seen()))
    {
      hide Apart, Among, Size, MessagesOf, Held, NoDuplicates, Elements, Moved, ViewOf, Allows, After, Leads, OneEach,
           Keeps;
      received, steps := false, [];
      NoSteps(Seen(), map[]);
      NothingMoved(inFlight, queue.items);
      NothingStarted(inFlight, nextFuture);
      while Size(inFlight) < maxInFlightJobs
        invariant Valid() && queue.published == old(queue.published) && queue.acked == old(queue.acked)
                  && dropped == old(dropped)
        invariant fresh(open - old(open))
        invariant Moved(old(inFlight), inFlight, old(queue.items), queue.items)
        invariant Keeps(old(inFlight), inFlight, old(nextFuture)) && old(nextFuture) <= nextFuture
        invariant |queue.items| <= |old(queue.items)| && (received <==> |queue.items| < |old(queue.items)|)
        invariant received ==> inFlight.Keys != {}
        invariant !received ==> inFlight == old(inFlight) && queue.items == old(queue.items)
        invariant OnlyReceive(steps) && (OneEach(queue.published) ==> Leads(old(Seen()), steps, Seen()))
        decreases |queue.items|
      {
        ghost var entries, items, seen := inFlight, queue.items, Seen();
        ghost var before := queue.claimed + queue.acked;
        var delivery := queue.Receive();
        if delivery == null {
          break;
        }
        assert Loose(delivery);
        ghost var future := nextFuture;
        Fresh(inFlight, open, future, delivery);
        HeldMore(inFlight, future, delivery);
        SizeMore(inFlight, future, delivery);
        KeepsMore(old(inFlight), inFlight, old(nextFuture), future, delivery);
        Start(delivery);
        assert future in inFlight.Keys;
        MovedOneMore(old(inFlight), entries, inFlight, old(queue.items), items, queue.items, delivery.message);
        if OneEach(queue.published) {
          SomeOfEach(queue.published, items, before);
          ReceiveIsAStep(items, queue.items, entries, future, delivery, queue.acked, dropped);
          LeadsOneMore(old(Seen()), steps, seen, Step.Receive(future, delivery.message.jobId));
        }
        steps := steps + [Step.Receive(future, delivery.message.jobId)];
        received := true;
      }
    }

    /**
     One turn of the loop; `first` and `second` are the executions that have ended when it
     drains. Unless the state service raises, it reports idleness exactly when nothing was
     in flight or pending, and then nothing is. To the protocol the turn is `steps`.
     */
    method Tick(first: map<nat, bool>, second: map<nat, bool>)
      returns (busy: bool, raised: bool, ghost steps: seq<Step>, ghost turn: Turn)
      requires Valid()
      modifies this, queue`items, queue`claimed, queue`acked, open
      ensures Valid() && queue.published == old(queue.published)
      ensures !raised ==>
                && Elements(turn.offered)
                   == old(Elements(queue.items))
                      + MessagesOf(old(inFlight), old(inFlight).Keys * Ending(first, false))
                && Moved(old(inFlight) - first.Keys, turn.filled, turn.offered, turn.waiting)
                && Keeps(old(inFlight) - first.Keys, turn.filled, old(nextFuture))
                && (turn.waiting == [] || Size(turn.filled) == maxInFlightJobs)
                && inFlight == turn.filled - second.Keys
                && Elements(queue.items)
                   == Elements(turn.waiting) + MessagesOf(turn.filled, turn.filled.Keys * Ending(second, false))
                && queue.acked
                   == old(queue.acked) + MessagesOf(old(inFlight), old(inFlight).Keys * Ending(first, true))
                      + MessagesOf(turn.filled, turn.filled.Keys * Ending(second, true))
      ensures !raised ==> heartbeats == old(heartbeats) + if busy then 0 else 1
      ensures !raised ==> dropped == old(dropped)
      ensures !raised ==> (busy <==> old(inFlight).Keys != {} || old(queue.items) != [])
      ensures !raised && !busy ==> inFlight.Keys == {} && queue.items == []
      ensures IsTurn(steps, first, second, old(inFlight).Keys, turn.filled.Keys, raised)
      ensures (OneEach(queue.published) ==> Leads(old(Seen()), steps, Seen()))
    {
      hide Apart, Among, Size, MessagesOf, Held, NoDuplicates, Elements, Ending, Moved, ViewOf, Leads, OneEach,
           SettleBy, SettleEach, OnlyReceive, IsTurn, FailedBy, Keeps;
      ghost var seen, entries := Seen(), inFlight;
      turn := Turn([], map[], []);
      var processed;
      processed, raised, steps := DrainFinished(first);
      if raised {
        CutTurn(steps, first, second, entries.Keys, turn.filled.Keys);
        return false, true, steps, turn;
      }
      ghost var offered := queue.items;
      ghost var drain, middle := steps, Seen();
      var received;
      ghost var fill;
      received, fill := Fill();
      ghost var last := Seen();
      turn := Turn(offered, inFlight, queue.items);
      var drained;
      ghost var redrain;
      drained, raised, redrain := DrainFinished(second);
      steps := drain + fill + redrain;
      TurnHasParts(drain, fill, redrain, first, second, entries.Keys, turn.filled.Keys, raised);
      if OneEach(queue.published) {
        LeadsOn(seen, drain, middle, fill, last);
        LeadsOn(seen, drain + fill, last, redrain, Seen());
      }
      if raised { return false, true, steps, turn; }
      processed := drained || received || processed;
      if !processed && inFlight.Keys == {} {
        heartbeats := heartbeats + 1;
        raised := *;
        EmptySize(inFlight);
        TurnHasParts(drain, fill, redrain, first, second, entries.Keys, turn.filled.Keys, raised);
        return false, raised, steps, turn;
      }
      return true, false, steps, turn;
    }
  }

  /** `rest` is `before` without some of the `ended` entries. */
  ghost predicate Rest(before: Entries, rest: Entries, ended: set<nat>) {
    && (forall f | f in rest :: f in before) && (forall f | f in before && f !in rest :: f in ended)
    && forall f | f in rest :: rest[f] == before[f]
  }

  /** The entries gone from `before` are acknowledged or pending again, by their verdict. */
  ghost predicate Booked(before: Entries, rest: Entries, results: map<nat, bool>, acked0: set<Message>,
                         items0: seq<Message>, acked: set<Message>, items: seq<Message>) {
    && acked == acked0 + MessagesOf(before, (before.Keys - rest.Keys) * Ending(results, true))
    && Elements(items) == Elements(items0) + MessagesOf(before, (before.Keys - rest.Keys) * Ending(results, false))
  }

  lemma NothingSettled(before: Entries, results: map<nat, bool>, acked: set<Message>, items: seq<Message>)
    ensures Rest(before, before, results.Keys) && Booked(before, before, results, acked, items, acked, items)
  {
    assert before.Keys - before.Keys == {};
  }

  lemma SettleStep(before: Entries, rest: Entries, results: map<nat, bool>, f: nat, acked0: set<Message>,
                   items0: seq<Message>, acked: set<Message>, items: seq<Message>)
    requires Rest(before, rest, results.Keys) && f in rest && f in results
    requires Booked(before, rest, results, acked0, items0, acked, items)
    ensures Rest(before, rest - {f}, results.Keys) && rest[f] == before[f]
    ensures results[f] ==> Booked(before, rest - {f}, results, acked0, items0, acked + {before[f].message}, [] + items)
    ensures !results[f] ==> Booked(before, rest - {f}, results, acked0, items0, acked + {}, [before[f].message] + items)
    ensures (rest - {f}).Keys != before.Keys
  {
    assert before.Keys - (rest - {f}).Keys == before.Keys - rest.Keys + {f};
    MessagesOfOneMore(before, before.Keys - rest.Keys, f, Ending(results, true));
    MessagesOfOneMore(before, before.Keys - rest.Keys, f, Ending(results, false));
    ElementsAfter(items, before[f].message);
    assert f !in (rest - {f}).Keys;
  }

  lemma RaisedFor(before: Entries, results: map<nat, bool>, f: nat)
    requires f in before && f in results && !results[f]
    ensures f in Ending(results, false)
  {
  }

  lemma AllSettled(before: Entries, rest: Entries, results: map<nat, bool>, acked0: set<Message>, items0: seq<Message>,
                   acked: set<Message>, items: seq<Message>)
    requires Rest(before, rest, results.Keys) && rest.Keys * results.Keys == {}
    requires Booked(before, rest, results, acked0, items0, acked, items)
    ensures rest == before - results.Keys && rest.Keys <= before.Keys && forall f | f in rest :: rest[f] == before[f]
    ensures rest.Keys != before.Keys <==> before.Keys * results.Keys != {}
    ensures acked == acked0 + MessagesOf(before, before.Keys * Ending(results, true))
    ensures Elements(items) == Elements(items0) + MessagesOf(before, before.Keys * Ending(results, false))
  {
    forall f | f in before && f !in results ensures f in rest {}
    forall f | f in rest ensures f !in results {
      assert f !in rest.Keys * results.Keys;
    }
    assert rest.Keys == before.Keys - results.Keys;
    if f :| f in before.Keys * results.Keys {
      assert f in before.Keys && f !in rest.Keys;
    } else {
      assert before.Keys * results.Keys == {};
      forall f | f in before ensures f in rest {
        assert f !in before.Keys * results.Keys;
      }
      assert rest.Keys == before.Keys;
    }
    assert (before.Keys - rest.Keys) * Ending(results, true) == before.Keys * Ending(results, true);
    assert (before.Keys - rest.Keys) * Ending(results, false) == before.Keys * Ending(results, false);
  }

  lemma NoSteps(view: View, results: map<nat, bool>)
    ensures SettleBy([], results) && Leads(view, [], view)
  {
  }

  lemma SettleByOneMore(steps: seq<Step>, results: map<nat, bool>, f: nat, raised: bool)
    requires SettleBy(steps, results) && f in results && (raised ==> !results[f])
    ensures SettleBy(steps + [Settlement(f, results[f], raised)], results)
  {
  }

  lemma TurnHasParts(drain: seq<Step>, fill: seq<Step>, redrain: seq<Step>, first: map<nat, bool>,
                     second: map<nat, bool>, before: set<nat>, filled: set<nat>, cutShort: bool)
    requires SettleBy(drain, first) && OnlyReceive(fill) && SettleBy(redrain, second)
    requires !cutShort ==> SettleEach(drain, before * first.Keys) && SettleEach(redrain, filled * second.Keys)
    ensures IsTurn(drain + fill + redrain, first, second, before, filled, cutShort)
  {
  }

  /** A turn whose first drain raised ends there. */
  lemma CutTurn(drain: seq<Step>, first: map<nat, bool>, second: map<nat, bool>, before: set<nat>, filled: set<nat>)
    requires SettleBy(drain, first)
    ensures IsTurn(drain, first, second, before, filled, true)
  {
    assert OnlyReceive([]) && SettleBy([], second);
    TurnHasParts(drain, [], [], first, second, before, filled, true);
    assert drain + [] + [] == drain;
  }

  /**
   The steps so far settle the executions that are gone from `before`, by their verdict,
   they lead from one view to the other, and the failed jobs are reported.
   */
  ghost predicate Told(before: Entries, rest: set<nat>, results: map<nat, bool>, steps: seq<Step>, first: View,
                       last: View, failures0: seq<string>, failures: seq<string>)
  {
    && SettleBy(steps, results) && Leads(first, steps, last) && SettleEach(steps, before.Keys - rest)
    && failures == failures0 + FailedBy(steps, before)
  }

  lemma NothingTold(before: Entries, results: map<nat, bool>, view: View, failures: seq<string>)
    ensures Told(before, before.Keys, results, [], view, view, failures, failures)
  {
  }

  lemma ToldOneMore(before: Entries, rest: set<nat>, results: map<nat, bool>, steps: seq<Step>, first: View,
                    last: View, failures0: seq<string>, failures: seq<string>, f: nat, raised: bool)
    requires Told(before, rest, results, steps, first, last, failures0, failures)
    requires f in before && f in results && (raised ==> !results[f]) && Allows(last, Settlement(f, results[f], raised))
    ensures var step := Settlement(f, results[f], raised);
            Told(before, rest - {f}, results, steps + [step], first, After(last, step), failures0,
                 failures + if results[f] then [] else [before[f].message.jobId])
  {
    LeadsOneMore(first, steps, last, Settlement(f, results[f], raised));
    SettleByOneMore(steps, results, f, raised);
    FailedByOneMore(steps, before, f, results[f], raised);
    SettleEachOneMore(steps, before.Keys, rest, f, results[f], raised);
    hide Allows, After, Leads, SettleBy, SettleEach, FailedBy, Settlement;
  }

  lemma TellsAll(before: Entries, rest: set<nat>, results: map<nat, bool>, steps: seq<Step>, first: View,
                 last: View, failures0: seq<string>, failures: seq<string>)
    requires Told(before, rest, results, steps, first, last, failures0, failures)
    ensures SettleBy(steps, results) && Leads(first, steps, last)
    ensures failures == failures0 + FailedBy(steps, before)
    ensures rest * results.Keys == {} ==> SettleEach(steps, before.Keys * results.Keys)
  {
    if rest * results.Keys == {} {
      AllEndedSettled(steps, before.Keys, rest, results.Keys);
    }
  }

  lemma SettleEachOneMore(steps: seq<Step>, before: set<nat>, rest: set<nat>, f: nat, returned: bool, raised: bool)
    requires SettleEach(steps, before - rest)
    ensures SettleEach(steps + [Settlement(f, returned, raised)], before - (rest - {f}))
  {
    var step := Settlement(f, returned, raised);
    assert step in steps + [step];
    forall g | g in before - (rest - {f}) && g != f
      ensures Step.Ack(g) in steps + [step] || Step.Nack(g) in steps + [step] || Step.Drop(g) in steps + [step]
    {
      assert g in before - rest;
    }
  }

  lemma AllEndedSettled(steps: seq<Step>, before: set<nat>, rest: set<nat>, ended: set<nat>)
    requires SettleEach(steps, before - rest) && rest * ended == {}
    ensures SettleEach(steps, before * ended)
  {
    forall f | f in before * ended ensures f in before - rest {
      assert f !in rest * ended;
    }
  }

  lemma SomeOfEach(messages: set<Message>, items: seq<Message>, others: set<Message>)
    requires messages == Elements(items) + others && OneEach(messages)
    ensures OneEach(Elements(items))
  {
  }

  lemma ElementsAfter(items: seq<Message>, m: Message)
    ensures Elements([m] + items) == Elements(items) + {m}
    ensures Elements([] + items) == Elements(items)
  {
    assert [] + items == items;
  }

  lemma Fresh(entries: Entries, open: set<MemoryQueueDelivery>, next: nat, delivery: MemoryQueueDelivery)
    requires Among(entries, open, next)
    ensures next !in entries && Among(entries[next := delivery], open + {delivery}, next + 1)
  {
  }

  lemma EmptySize(entries: Entries)
    requires entries.Keys == {}
    ensures Size(entries) == 0
  {
  }
}
