/**
 The worker action store as transitions on its list of records, and what every run of
 them keeps: the store is a queue ordered by request time, each command is taken at most
 once, and none is lost.
 */
module ActionStore {
  import opened Base
  import opened Sorting

  datatype ActionStatus = Queued | Running | Succeeded | Failed

  datatype Command =
    | RestartWorkerProcess
    | RestartContainer
    | GitUpdateRebuildRestart
    | ClearRuntimeOverride
    | DiagnosticProbe
    | Unsupported(name: string)

  datatype Action = Action(
    commandId: string,
    command: Command,
    requestedAt: int,
    status: ActionStatus,
    startedAt: Option<int>,
    finishedAt: Option<int>,
    errorText: Option<string>
  )

  /** Sorting by it in descending order puts the earliest request first. */
  const Earliness: Action -> int := (action: Action) => -action.requestedAt

  function QueuedOf(items: seq<Action>): seq<Action> {
    if items == [] then []
    else (if items[0].status == Queued then [items[0]] else []) + QueuedOf(items[1..])
  }

  /** The queued actions in the order in which they will be taken. */
  function Waiting(items: seq<Action>): seq<Action> {
    SortDescending(QueuedOf(items), Earliness)
  }

  /** `update`: the first record with the command's id is replaced, or the record appended. */
  function Replaced(items: seq<Action>, action: Action): seq<Action> {
    if items == [] then [action]
    else if items[0].commandId == action.commandId then [action] + items[1..]
    else [items[0]] + Replaced(items[1..], action)
  }

  function Ids(items: seq<Action>): seq<string> {
    seq(|items|, i requires 0 <= i < |items| => items[i].commandId)
  }

  ghost predicate Distinct(items: seq<Action>) {
    forall i, j | 0 <= i < j < |items| :: items[i].commandId != items[j].commandId
  }

  ghost predicate Stored(items: seq<Action>, commandId: string) {
    exists i :: 0 <= i < |items| && items[i].commandId == commandId
  }

  /** The command is in the store and no longer queued. */
  ghost predicate HasLeftQueue(items: seq<Action>, commandId: string) {
    exists i :: 0 <= i < |items| && items[i].commandId == commandId && items[i].status != Queued
  }

  datatype Op = Enqueue(action: Action) | Take | WriteBack(action: Action)

  function Apply(items: seq<Action>, op: Op): seq<Action> {
    match op
    case Enqueue(action) => items + [action]
    case Take => if Waiting(items) == [] then items else Replaced(items, Waiting(items)[0].(status := Running))
    case WriteBack(action) => Replaced(items, action)
  }

  /** Fresh ids are enqueued as queued; only commands that were taken are written back. */
  ghost predicate Allowed(items: seq<Action>, op: Op) {
    match op
    case Enqueue(action) => action.status == Queued && !Stored(items, action.commandId)
    case Take => true
    case WriteBack(action) => action.status != Queued && HasLeftQueue(items, action.commandId)
  }

  function ItemsAfter(ops: seq<Op>): seq<Action> {
    if ops == [] then [] else Apply(ItemsAfter(ops[..|ops| - 1]), ops[|ops| - 1])
  }

  function TakenBy(queue: seq<Action>, op: Op): seq<Action> {
    if op.Take? && queue != [] then [queue[0]] else []
  }

  /** The actions handed out by `take_next`, in order. */
  function Taken(ops: seq<Op>): seq<Action> {
    if ops == [] then []
    else
      var before := ops[..|ops| - 1];
      Taken(before) + TakenBy(Waiting(ItemsAfter(before)), ops[|ops| - 1])
  }

  function EnqueuedBy(op: Op): seq<Action> {
    if op.Enqueue? then [op.action] else []
  }

  function Enqueued(ops: seq<Op>): seq<Action> {
    if ops == [] then []
    else Enqueued(ops[..|ops| - 1]) + EnqueuedBy(ops[|ops| - 1])
  }

  ghost predicate Legal(ops: seq<Op>) {
    ops != [] ==> Legal(ops[..|ops| - 1]) && Allowed(ItemsAfter(ops[..|ops| - 1]), ops[|ops| - 1])
  }

  // ---- The simple form: a queue ordered by request time ----

  function QueueStep(queue: seq<Action>, op: Op): seq<Action> {
    match op
    case Enqueue(action) => Arrive(queue, action, Earliness)
    case Take => if queue == [] then [] else queue[1..]
    case WriteBack(_) => queue
  }

  // ---- One step ----

  lemma {:induction false} QueuedOfConcat(a: seq<Action>, b: seq<Action>)
    ensures QueuedOf(a + b) == QueuedOf(a) + QueuedOf(b)
    decreases |a|
  {
    if a == [] {
      assert a + b == b;
    } else {
      var first := if a[0].status == Queued then [a[0]] else [];
      assert (a + b)[0] == a[0] && (a + b)[1..] == a[1..] + b;
      QueuedOfConcat(a[1..], b);
      assert first + (QueuedOf(a[1..]) + QueuedOf(b)) == (first + QueuedOf(a[1..])) + QueuedOf(b);
    }
  }

  lemma {:induction false} QueuedOfIsStored(items: seq<Action>, i: nat)
    requires i < |QueuedOf(items)|
    ensures QueuedOf(items)[i] in items && QueuedOf(items)[i].status == Queued
    decreases |items|
  {
    if items[0].status == Queued {
      if i > 0 { QueuedOfIsStored(items[1..], i - 1); }
    } else {
      QueuedOfIsStored(items[1..], i);
    }
  }

  /** Replacing keeps every record but the first one of the command. */
  lemma {:induction false} ReplacedAt(items: seq<Action>, action: Action, p: nat)
    requires Distinct(items) && p < |items| && items[p].commandId == action.commandId
    ensures Replaced(items, action) == items[p := action]
    decreases |items|
  {
    if p > 0 {
      ReplacedAt(items[1..], action, p - 1);
      assert items[p := action] == [items[0]] + items[1..][p - 1 := action];
    }
  }

  /** Writing back a command that has left the queue leaves the queue alone. */
  lemma {:induction false} WriteBackKeepsQueue(items: seq<Action>, action: Action, p: nat)
    requires Distinct(items) && p < |items| && items[p].commandId == action.commandId
    requires items[p].status != Queued && action.status != Queued
    ensures QueuedOf(items[p := action]) == QueuedOf(items)
  {
    var head, tail := items[..p], items[p + 1..];
    assert items == head + ([items[p]] + tail);
    assert items[p := action] == head + ([action] + tail);
    QueuedOfConcat(head, [items[p]] + tail);
    QueuedOfConcat(head, [action] + tail);
    QueuedOfConcat([items[p]], tail);
    QueuedOfConcat([action], tail);
  }

  /** Starting the `i`-th queued action takes it, and nothing else, out of the queue. */
  lemma {:induction false} StartLeavesQueue(items: seq<Action>, i: nat) returns (p: nat)
    requires i < |QueuedOf(items)|
    ensures p < |items| && items[p] == QueuedOf(items)[i]
    ensures QueuedOf(items[p := items[p].(status := Running)]) == Drop(QueuedOf(items), i)
    decreases |items|
  {
    var rest := items[1..];
    if items[0].status == Queued && i == 0 {
      p := 0;
      assert items[0 := items[0].(status := Running)][1..] == rest;
      assert Drop([items[0]] + QueuedOf(rest), 0) == QueuedOf(rest);
    } else {
      var queued := items[0].status == Queued;
      var q := StartLeavesQueue(rest, if queued then i - 1 else i);
      p := q + 1;
      var started := rest[q].(status := Running);
      assert items[p := started][1..] == rest[q := started] && items[p := started][0] == items[0];
      if queued {
        assert Drop([items[0]] + QueuedOf(rest), i) == [items[0]] + Drop(QueuedOf(rest), i - 1);
      }
    }
  }

  lemma TakeStep(items: seq<Action>) returns (p: nat)
    requires Distinct(items) && Waiting(items) != []
    ensures p < |items| && items[p] == Waiting(items)[0] && items[p].status == Queued
    ensures Apply(items, Take) == items[p := items[p].(status := Running)]
    ensures Waiting(Apply(items, Take)) == Waiting(items)[1..]
    ensures forall i | 0 <= i < |items| && items[i].status == Queued :: items[p].requestedAt <= items[i].requestedAt
  {
    var queued := QueuedOf(items);
    var i := HeadIsFirstLargest(queued, Earliness);
    p := StartLeavesQueue(items, i);
    QueuedOfIsStored(items, i);
    ReplacedAt(items, items[p].(status := Running), p);
    SortWithoutHead(queued, Earliness, i);
    forall j | 0 <= j < |items| && items[j].status == Queued ensures items[p].requestedAt <= items[j].requestedAt {
      var k := QueuedIsListed(items, j);
      assert Earliness(queued[k]) <= Earliness(queued[i]);
    }
  }

  lemma {:induction false} QueuedIsListed(items: seq<Action>, j: nat) returns (k: nat)
    requires j < |items| && items[j].status == Queued
    ensures k < |QueuedOf(items)| && QueuedOf(items)[k] == items[j]
    decreases |items|
  {
    if j == 0 {
      k := 0;
    } else {
      k := QueuedIsListed(items[1..], j - 1);
      if items[0].status == Queued { k := k + 1; }
    }
  }

  lemma ReplacingKeepsIds(items: seq<Action>, action: Action, p: nat)
    requires Distinct(items) && p < |items| && items[p].commandId == action.commandId
    ensures Distinct(items[p := action]) && Ids(items[p := action]) == Ids(items)
  {
    var updated := items[p := action];
    assert Ids(updated) == Ids(items);
    assert forall i | 0 <= i < |items| :: updated[i].commandId == items[i].commandId;
  }

  /** Every allowed step keeps the ids distinct and acts on the waiting actions like the queue. */
  lemma StepRefinesQueue(items: seq<Action>, op: Op)
    requires Distinct(items) && Allowed(items, op)
    ensures Distinct(Apply(items, op))
    ensures Waiting(Apply(items, op)) == QueueStep(Waiting(items), op)
    ensures Ids(Apply(items, op)) == Ids(items) + Ids(EnqueuedBy(op))
  {
    assert Ids([]) == [];
    hide SortDescending, Ids, QueuedOf, Replaced, Drop, Distinct;
    match op {
      case Enqueue(action) =>
        EnqueueKeepsIds(items, action);
        QueuedOfConcat(items, [action]);
        SortOfArrival(QueuedOf(items), action, Earliness);
        QueuedOfOne(action);
      case Take =>
        if Waiting(items) != [] {
          var p := TakeStep(items);
          ReplacingKeepsIds(items, items[p].(status := Running), p);
        }
      case WriteBack(action) =>
        var p :| 0 <= p < |items| && items[p].commandId == action.commandId && items[p].status != Queued;
        ReplacedAt(items, action, p);
        WriteBackKeepsQueue(items, action, p);
        ReplacingKeepsIds(items, action, p);
    }
  }

  lemma QueuedOfOne(action: Action)
    ensures QueuedOf([action]) == if action.status == Queued then [action] else []
  {
  }

  lemma EnqueueKeepsIds(items: seq<Action>, action: Action)
    requires Distinct(items) && !Stored(items, action.commandId)
    ensures Distinct(items + [action]) && Ids(items + [action]) == Ids(items) + Ids([action])
  {
  }

  // ---- Runs ----

  function QueueAfter(ops: seq<Op>): seq<Action> {
    if ops == [] then [] else QueueStep(QueueAfter(ops[..|ops| - 1]), ops[|ops| - 1])
  }

  function QueueTaken(ops: seq<Op>): seq<Action> {
    if ops == [] then []
    else
      var queue := QueueAfter(ops[..|ops| - 1]);
      QueueTaken(ops[..|ops| - 1]) + TakenBy(queue, ops[|ops| - 1])
  }

  /** Over every run the store hands out exactly what the ordered queue hands out. */
  lemma {:induction false} StoreRefinesQueue(ops: seq<Op>)
    requires Legal(ops)
    ensures Distinct(ItemsAfter(ops))
    ensures Waiting(ItemsAfter(ops)) == QueueAfter(ops) && Taken(ops) == QueueTaken(ops)
    ensures Ids(ItemsAfter(ops)) == Ids(Enqueued(ops))
    decreases |ops|
  {
    if ops != [] {
      var before, op := ops[..|ops| - 1], ops[|ops| - 1];
      StoreRefinesQueue(before);
      StepRefinesQueue(ItemsAfter(before), op);
      IdsConcat(Enqueued(before), EnqueuedBy(op));
    }
  }

  lemma IdsConcat(a: seq<Action>, b: seq<Action>)
    ensures Ids(a + b) == Ids(a) + Ids(b)
  {
  }

  lemma {:induction false} ArriveAddsOne(queue: seq<Action>, action: Action)
    ensures multiset(Ids(Arrive(queue, action, Earliness))) == multiset(Ids(queue)) + multiset{action.commandId}
    decreases |queue|
  {
    if queue == [] || Earliness(queue[0]) < Earliness(action) {
      IdsConcat([action], queue);
    } else {
      ArriveAddsOne(queue[1..], action);
      IdsConcat([queue[0]], Arrive(queue[1..], action, Earliness));
      IdsConcat([queue[0]], queue[1..]);
      assert queue == [queue[0]] + queue[1..];
    }
  }

  lemma QueueStepConserves(queue: seq<Action>, op: Op)
    ensures multiset(Ids(queue)) + multiset(Ids(EnqueuedBy(op)))
            == multiset(Ids(TakenBy(queue, op))) + multiset(Ids(QueueStep(queue, op)))
  {
    match op {
      case Enqueue(action) => ArriveAddsOne(queue, action);
      case Take =>
        if queue != [] {
          IdsConcat([queue[0]], queue[1..]);
          assert queue == [queue[0]] + queue[1..];
        }
      case WriteBack(_) =>
    }
  }

  lemma Regroup(taken: multiset<string>, queue: multiset<string>, in': multiset<string>, out: multiset<string>,
                queue': multiset<string>)
    requires queue + in' == out + queue'
    ensures (taken + queue) + in' == (taken + out) + queue'
  {
    assert (taken + queue) + in' == taken + (queue + in');
  }

  /** No command is lost and none is handed out twice: enqueued = taken + waiting. */
  lemma {:induction false} QueueConserves(ops: seq<Op>)
    ensures multiset(Ids(Enqueued(ops))) == multiset(Ids(QueueTaken(ops))) + multiset(Ids(QueueAfter(ops)))
    decreases |ops|
  {
    if ops != [] {
      var before, op := ops[..|ops| - 1], ops[|ops| - 1];
      var queue := QueueAfter(before);
      QueueConserves(before);
      QueueStepConserves(queue, op);
      IdsConcat(QueueTaken(before), TakenBy(queue, op));
      IdsConcat(Enqueued(before), EnqueuedBy(op));
      hide Ids, TakenBy, EnqueuedBy, QueueStep;
      assert multiset(Ids(Enqueued(ops))) == multiset(Ids(Enqueued(before))) + multiset(Ids(EnqueuedBy(op)));
      assert multiset(Ids(QueueTaken(ops))) == multiset(Ids(QueueTaken(before))) + multiset(Ids(TakenBy(queue, op)));
      assert QueueAfter(ops) == QueueStep(queue, op);
      Regroup(multiset(Ids(QueueTaken(before))), multiset(Ids(queue)), multiset(Ids(EnqueuedBy(op))),
              multiset(Ids(TakenBy(queue, op))), multiset(Ids(QueueStep(queue, op))));
    }
  }

  lemma {:induction false} DistinctIdsCountOnce(items: seq<Action>, commandId: string)
    requires Distinct(items)
    ensures multiset(Ids(items))[commandId] == if Stored(items, commandId) then 1 else 0
    decreases |items|
  {
    if items != [] {
      var n := |items| - 1;
      assert items == items[..n] + [items[n]];
      IdsConcat(items[..n], [items[n]]);
      DistinctIdsCountOnce(items[..n], commandId);
      if items[n].commandId == commandId {
        assert !Stored(items[..n], commandId);
      } else {
        assert Stored(items, commandId) <==> Stored(items[..n], commandId) by {
          if i :| 0 <= i < |items| && items[i].commandId == commandId {
            assert items[..n][i].commandId == commandId;
          }
        }
      }
    }
  }

  /**
   Over every run with fresh ids each command is handed out at most once, and a stored
   command that was not handed out is still waiting.
   */
  lemma EachCommandIsTakenAtMostOnce(ops: seq<Op>, commandId: string)
    requires Legal(ops)
    ensures multiset(Ids(Taken(ops)))[commandId] + multiset(Ids(Waiting(ItemsAfter(ops))))[commandId]
            == if Stored(ItemsAfter(ops), commandId) then 1 else 0
  {
    StoreRefinesQueue(ops);
    QueueConserves(ops);
    DistinctIdsCountOnce(ItemsAfter(ops), commandId);
  }

  function Takes(ops: seq<Op>): nat {
    if ops == [] then 0 else Takes(ops[..|ops| - 1]) + if ops[|ops| - 1].Take? then 1 else 0
  }

  /** One more step that is no request takes the first waiting action, or leaves them all. */
  lemma DrainStep(ops: seq<Op>, op: Op)
    requires Legal(ops) && Allowed(ItemsAfter(ops), op) && !op.Enqueue?
    ensures var waiting := Waiting(ItemsAfter(ops));
            && Taken(ops + [op]) == Taken(ops) + (if op.Take? then waiting[..Least(1, |waiting|)] else [])
            && Waiting(ItemsAfter(ops + [op])) == if op.Take? then waiting[Least(1, |waiting|)..] else waiting
  {
    RunSnoc(ops, op);
    StoreRefinesQueue(ops);
    StepRefinesQueue(ItemsAfter(ops), op);
    hide Waiting, ItemsAfter, Taken, Legal, Apply;
  }

  function Least(a: nat, b: nat): nat {
    if a <= b then a else b
  }

  lemma LastOp(ops: seq<Op>, more: seq<Op>)
    requires Legal(ops + more) && more != []
    ensures var before := more[..|more| - 1];
            && Legal(ops + before) && Allowed(ItemsAfter(ops + before), more[|more| - 1])
            && ops + more == (ops + before) + [more[|more| - 1]]
  {
    assert (ops + more)[..|ops + more| - 1] == ops + more[..|more| - 1];
    assert (ops + more)[|ops + more| - 1] == more[|more| - 1];
    hide Allowed, ItemsAfter;
  }

  /**
   Without further requests the actions are handed out in the order of their request
   times: `k` takes hand out the first `k` waiting ones, so the queue is empty after as
   many takes as there were queued actions.
   */
  lemma {:induction false} DrainsInOrder(ops: seq<Op>, more: seq<Op>)
    requires Legal(ops + more) && forall i | 0 <= i < |more| :: !more[i].Enqueue?
    ensures var waiting := Waiting(ItemsAfter(ops));
            var done := Least(Takes(more), |waiting|);
            && Taken(ops + more) == Taken(ops) + waiting[..done]
            && Waiting(ItemsAfter(ops + more)) == waiting[done..]
    decreases |more|
  {
    hide Waiting, ItemsAfter, Taken, Legal, Allowed;
    if more == [] {
      assert ops + more == ops;
    } else {
      var before, op := more[..|more| - 1], more[|more| - 1];
      LastOp(ops, more);
      DrainsInOrder(ops, before);
      DrainStep(ops + before, op);
    }
  }

  /** The waiting actions are ordered by request time. */
  lemma WaitingIsOrdered(items: seq<Action>)
    ensures forall i, j | 0 <= i < j < |Waiting(items)| ::
                Waiting(items)[i].requestedAt <= Waiting(items)[j].requestedAt
  {
    var waiting := Waiting(items);
    SortDescendingSorts(QueuedOf(items), Earliness);
    forall i, j | 0 <= i < j < |waiting| ensures waiting[i].requestedAt <= waiting[j].requestedAt {
      assert Earliness(waiting[i]) >= Earliness(waiting[j]);
    }
  }

  lemma RunSnoc(ops: seq<Op>, op: Op)
    ensures ItemsAfter(ops + [op]) == Apply(ItemsAfter(ops), op)
    ensures Taken(ops + [op]) == Taken(ops) + TakenBy(Waiting(ItemsAfter(ops)), op)
    ensures Legal(ops) && Allowed(ItemsAfter(ops), op) ==> Legal(ops + [op])
  {
    assert (ops + [op])[..|ops|] == ops;
  }

  // ---- Commands left behind ----

  /** The actions handed out in the continuation. */
  function TakenSince(ops: seq<Op>, more: seq<Op>): seq<Action> {
    if more == [] then []
    else
      var before := more[..|more| - 1];
      TakenSince(ops, before) + TakenBy(Waiting(ItemsAfter(ops + before)), more[|more| - 1])
  }

  /** In the continuation only commands that were handed out in it are written back. */
  ghost predicate Controlled(ops: seq<Op>, more: seq<Op>) {
    more != [] ==>
      var before, op := more[..|more| - 1], more[|more| - 1];
      && Controlled(ops, before)
      && (op.WriteBack? ==> op.action.commandId in Ids(TakenSince(ops, before)))
  }

  /** One step leaves a record alone that is not queued, unless it is written back. */
  lemma StepKeepsRecord(items: seq<Action>, op: Op, p: nat)
    requires Distinct(items) && Allowed(items, op) && p < |items| && items[p].status != Queued
    requires op.WriteBack? ==> op.action.commandId != items[p].commandId
    ensures p < |Apply(items, op)| && Apply(items, op)[p] == items[p]
    ensures items[p].commandId !in Ids(TakenBy(Waiting(items), op))
  {
    match op {
      case Enqueue(_) =>
      case Take =>
        if Waiting(items) != [] {
          var q := TakeStep(items);
        }
      case WriteBack(action) =>
        var q :| 0 <= q < |items| && items[q].commandId == action.commandId && items[q].status != Queued;
        ReplacedAt(items, action, q);
    }
  }

  /**
   A record that has left the queue stays as it is over every continuation that writes back
   only what it takes: nobody ever settles a command that its own turn left running.
   */
  lemma {:induction false} LeftBehindStays(ops: seq<Op>, more: seq<Op>, p: nat)
    requires Legal(ops + more) && Controlled(ops, more)
    requires p < |ItemsAfter(ops)| && ItemsAfter(ops)[p].status != Queued
    ensures p < |ItemsAfter(ops + more)| && ItemsAfter(ops + more)[p] == ItemsAfter(ops)[p]
    ensures ItemsAfter(ops)[p].commandId !in Ids(TakenSince(ops, more))
    decreases |more|
  {
    if more == [] {
      assert ops + more == ops;
    } else {
      var before, op := more[..|more| - 1], more[|more| - 1];
      LastOp(ops, more);
      LeftBehindStays(ops, before, p);
      StoreRefinesQueue(ops + before);
      RunSnoc(ops + before, op);
      IdsConcat(TakenSince(ops, before), TakenBy(Waiting(ItemsAfter(ops + before)), op));
      hide Legal, ItemsAfter, Waiting, Allowed, Apply, Ids, TakenBy;
      StepKeepsRecord(ItemsAfter(ops + before), op, p);
    }
  }
}
