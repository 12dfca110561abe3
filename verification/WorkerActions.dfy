/**
 The in-memory action store, the executor that carries an operator's command out, and the
 control loop that feeds it.
 */
module WorkerActions {
  import opened Base
  import opened Sorting
  import opened ActionStore

  class MemoryWorkerActionStore {
    var items: seq<Action>
    ghost var ops: seq<Op>

    /** The items are those of a run with fresh ids. */
    ghost predicate Valid()
      reads this
    {
      Legal(ops) && items == ItemsAfter(ops)
    }

    constructor ()
      ensures Valid() && items == [] && ops == []
    {
      items, ops := [], [];
    }

    method Enqueue(action: Action) returns (r: Action)
      modifies this
      ensures items == old(items) + [action] && ops == old(ops) + [Op.Enqueue(action)] && r == action
      ensures old(Valid() && Allowed(items, Op.Enqueue(action))) ==> Valid()
    {
      RunSnoc(ops, Op.Enqueue(action));
      items := items + [action];
      ops := ops + [Op.Enqueue(action)];
      r := action;
    }

    /** The list comprehension of `take_next`. */
    method Pending() returns (pending: seq<Action>)
      ensures pending == QueuedOf(items)
    {
      pending := [];
      assert items[0..] == items;
      for i := 0 to |items|
        invariant pending + QueuedOf(items[i..]) == QueuedOf(items)
      {
        assert items[i..][1..] == items[i + 1..];
        if items[i].status == Queued {
          pending := pending + [items[i]];
        }
      }
      assert items[|items|..] == [];
    }

    /** Hands out the earliest queued action, marked running; ties go to the one enqueued first. */
    method TakeNext() returns (taken: Option<Action>)
      requires Valid()
      modifies this
      ensures Valid() && ops == old(ops) + [Take]
      ensures Waiting(items) == QueueStep(old(Waiting(items)), Take)
      ensures taken == if old(Waiting(items)) == [] then None else Some(old(Waiting(items)[0].(status := Running)))
      ensures taken.Some? ==> HasLeftQueue(items, taken.value.commandId)
    {
      RunSnoc(ops, Take);
      StoreRefinesQueue(ops);
      var pending := Pending();
      ops := ops + [Take];
      if pending == [] {
        return None;
      }
      ghost var p := TakeStep(items);
      pending := SortDescending(pending, Earliness);
      hide SortDescending, QueuedOf, Replaced, Legal, ItemsAfter;
      var action := pending[0].(status := Running);
      Put(action);
      assert items[p] == action;
      return Some(action);
    }

    /** Replaces the first record with the command's id, or appends. */
    method Put(action: Action)
      modifies `items
      ensures items == Replaced(old(items), action)
    {
      assert items[0..] == items;
      for index := 0 to |items|
        invariant items == old(items)
        invariant forall i | 0 <= i < index :: items[i].commandId != action.commandId
        invariant items[..index] + Replaced(items[index..], action) == Replaced(items, action)
      {
        assert items[index..][1..] == items[index + 1..];
        if items[index].commandId == action.commandId {
          items := items[index := action];
          return;
        }
      }
      assert items[|items|..] == [];
      items := items + [action];
    }

    method Update(action: Action) returns (r: Action)
      modifies this
      ensures items == Replaced(old(items), action) && ops == old(ops) + [WriteBack(action)] && r == action
      ensures old(Valid() && Allowed(items, WriteBack(action))) ==> Valid()
    {
      RunSnoc(ops, WriteBack(action));
      Put(action);
      ops := ops + [WriteBack(action)];
      r := action;
    }
  }

  // ---- The executor ----

  /** What carrying a command out does to the world. */
  datatype Effect = ProcessRestart | ContainerRestart | UpdateHelper(commandId: string) | OverrideCleared
    | ProbePublished(ok: bool, error: Option<string>)  // the answer of the render service

  /** The effect a command is for. */
  predicate Serves(effect: Effect, action: Action) {
    match action.command
    case RestartWorkerProcess => effect == ProcessRestart
    case RestartContainer => effect == ContainerRestart
    case GitUpdateRebuildRestart => effect == UpdateHelper(action.commandId)
    case ClearRuntimeOverride => effect == OverrideCleared
    case DiagnosticProbe => effect.ProbePublished?
    case Unsupported(_) => false
  }

  /** Container self-management is needed and switched off, or nobody knows the command. */
  predicate Refused(command: Command, selfManageEnabled: bool) {
    command.Unsupported? || ((command.RestartContainer? || command.GitUpdateRebuildRestart?) && !selfManageEnabled)
  }

  /** A failed probe of the render service leaves its error in an action that has succeeded. */
  function ErrorAfter(action: Action, effect: Effect): Option<string> {
    if effect.ProbePublished? && !effect.ok && Truthy(effect.error) then effect.error else action.errorText
  }

  /** Succeeded or failed, with both times in order. */
  predicate Settled(action: Action) {
    && (action.status == Succeeded || action.status == Failed)
    && action.startedAt.Some? && action.finishedAt.Some? && action.startedAt.value <= action.finishedAt.value
  }

  /** Between the two moments the log grew by write-backs of one command, never as queued. */
  ghost predicate OnlyWritesBack(before: seq<Op>, after: seq<Op>, commandId: string) {
    && |before| < |after| && after[..|before|] == before
    && forall i | |before| <= i < |after| ::
         after[i].WriteBack? && after[i].action.commandId == commandId && after[i].action.status != Queued
  }

  lemma WriteBackStays(items: seq<Action>, action: Action)
    requires Distinct(items) && HasLeftQueue(items, action.commandId) && action.status != Queued
    ensures HasLeftQueue(Replaced(items, action), action.commandId)
    ensures Waiting(Replaced(items, action)) == Waiting(items)
    ensures action in Replaced(items, action)
  {
    var p :| 0 <= p < |items| && items[p].commandId == action.commandId && items[p].status != Queued;
    ReplacedAt(items, action, p);
    WriteBackKeepsQueue(items, action, p);
    assert items[p := action][p] == action;
  }

  class WorkerActionExecutor {
    const store: MemoryWorkerActionStore
    const selfManageEnabled: bool
    var clock: int
    ghost var effects: seq<Effect>
    ghost var reported: seq<Op>  // the operations of the store when the last effect took place

    constructor (store: MemoryWorkerActionStore, selfManageEnabled: bool)
      ensures this.store == store && this.selfManageEnabled == selfManageEnabled && effects == []
    {
      this.store, this.selfManageEnabled, effects, reported := store, selfManageEnabled, [], [];
    }

    method Now() returns (now: int)
      modifies `clock
      ensures now == clock >= old(clock)
    {
      now :| now >= clock;
      clock := now;
    }

    /** A call into the outside that may raise, before or instead of having its effect. */
    method CarryOut(effect: Effect) returns (r: Outcome<()>)
      modifies `effects, `reported
      ensures effects == old(effects) + if r.Ok? then [effect] else []
      ensures r.Ok? ==> reported == store.ops
    {
      r := *;
      if r.Ok? {
        effects, reported := effects + [effect], store.ops;
      }
    }

    /** Writes the action back and publishes it in the worker state, which may raise. */
    method Report(action: Action) returns (r: Outcome<()>)
      requires store.Valid() && HasLeftQueue(store.items, action.commandId) && action.status != Queued
      modifies store
      ensures store.Valid() && HasLeftQueue(store.items, action.commandId)
      ensures Waiting(store.items) == old(Waiting(store.items)) && action in store.items
      ensures store.ops == old(store.ops) + [WriteBack(action)]
    {
      StoreRefinesQueue(store.ops);
      WriteBackStays(store.items, action);
      var _ := store.Update(action);
      r := *;
    }

    /** The body of the `try`: `a` is the action as the body leaves it. */
    method Attempt(action: Action) returns (a: Action, r: Outcome<()>)
      requires store.Valid() && HasLeftQueue(store.items, action.commandId) && action.status == Running
      modifies this`effects, this`reported, store
      ensures store.Valid() && HasLeftQueue(store.items, action.commandId)
      ensures Waiting(store.items) == old(Waiting(store.items))
      ensures store.ops == old(store.ops) || OnlyWritesBack(old(store.ops), store.ops, action.commandId)
      ensures a.commandId == action.commandId && a.command == action.command && a.status != Queued
      ensures a.startedAt == action.startedAt && a.requestedAt == action.requestedAt
              && a.finishedAt == action.finishedAt
      ensures a == action.(status := a.status, errorText := a.errorText)
      ensures r.Ok? ==>
                && !Refused(action.command, selfManageEnabled)
                && |effects| == |old(effects)| + 1 && effects[..|old(effects)|] == old(effects)
                && Serves(effects[|old(effects)|], action)
                && a.status == (if action.command.GitUpdateRebuildRestart? then Running else Succeeded)
                && a.errorText == ErrorAfter(action, effects[|old(effects)|])
                && (a.status == Running ==> store.ops == old(store.ops) + [WriteBack(a)] && a in store.items)
                && (action.command.GitUpdateRebuildRestart? ==> reported == old(store.ops))
                && (action.command.RestartWorkerProcess? || action.command.RestartContainer? ==>
                      reported == old(store.ops) + [WriteBack(action.(status := Succeeded))])
      ensures r.Raised? ==>
                || effects == old(effects)
                || (action.command.GitUpdateRebuildRestart? && selfManageEnabled
                    && effects == old(effects) + [UpdateHelper(action.commandId)])
      ensures Refused(action.command, selfManageEnabled) ==>
                effects == old(effects) && store.ops == old(store.ops) && a == action
      ensures Refused(action.command, selfManageEnabled) && !action.command.Unsupported? ==>
                r == Outcome.Raised("Container self-management is disabled.")
    {
      hide Waiting, Replaced, HasLeftQueue, ItemsAfter, Legal;
      a := action;
      match action.command {
        case ClearRuntimeOverride =>
          r := CarryOut(OverrideCleared);
          if r.Ok? {
            a := a.(status := Succeeded);
          }
        case DiagnosticProbe =>
          var mlOk: bool := *;
          var mlError: Option<string> := *;
          r := CarryOut(ProbePublished(mlOk, mlError));
          if r.Ok? {
            if !mlOk && Truthy(mlError) {
              a := a.(errorText := mlError);
            }
            a := a.(status := Succeeded);
          }
        case RestartWorkerProcess =>
          a := a.(status := Succeeded);
          r := Report(a);
          if r.Ok? {
            r := CarryOut(ProcessRestart);
          }
        case RestartContainer =>
          if !selfManageEnabled {
            return a, Outcome.Raised("Container self-management is disabled.");
          }
          a := a.(status := Succeeded);
          r := Report(a);
          if r.Ok? {
            r := CarryOut(ContainerRestart);
          }
        case GitUpdateRebuildRestart =>
          if !selfManageEnabled {
            return a, Outcome.Raised("Container self-management is disabled.");
          }
          r := CarryOut(UpdateHelper(a.commandId));
          if r.Ok? {
            a := a.(status := Running);
            r := Report(a);
          }
        case Unsupported(name) =>
          r := Outcome.Raised("Unsupported action");
      }
    }

    /**
     `execute`. A returned action is the one last written back, and it is settled, or it is
     an update whose detached helper was launched. It has succeeded only if its effect took
     place, and failed without effect unless it is an update. A restart is reported as
     succeeded before it takes place, an update helper is launched before it is reported.
     */
    method Execute(action: Action) returns (r: Outcome<Action>)
      requires store.Valid() && HasLeftQueue(store.items, action.commandId)
      modifies this`clock, this`effects, this`reported, store
      ensures store.Valid() && Waiting(store.items) == old(Waiting(store.items))
      ensures OnlyWritesBack(old(store.ops), store.ops, action.commandId)
      ensures r.Ok? ==>
                && store.ops[|store.ops| - 1] == WriteBack(r.value) && r.value in store.items
                && (Settled(r.value) || (r.value.status == Running && r.value.command.GitUpdateRebuildRestart?))
                && r.value == action.(status := r.value.status, startedAt := r.value.startedAt,
                                      finishedAt := r.value.finishedAt, errorText := r.value.errorText)
                && r.value.startedAt.Some? && old(clock) <= r.value.startedAt.value <= clock
                && (Settled(r.value) ==> r.value.finishedAt.value <= clock)
      ensures store.ops[|old(store.ops)|].action ==
              action.(status := Running, startedAt := store.ops[|old(store.ops)|].action.startedAt)
      ensures r.Ok? && r.value.status != Failed ==>
                && !Refused(action.command, selfManageEnabled)
                && |effects| == |old(effects)| + 1 && effects[..|old(effects)|] == old(effects)
                && Serves(effects[|old(effects)|], action)
                && r.value.errorText == ErrorAfter(action, effects[|old(effects)|])
                && (r.value.status == Running <==> action.command.GitUpdateRebuildRestart?)
      ensures r.Ok? && r.value.status != Failed
              && (action.command.RestartWorkerProcess? || action.command.RestartContainer?) ==>
                && |reported| == |old(store.ops)| + 2 && reported[..|old(store.ops)|] == old(store.ops)
                && reported[|reported| - 1].WriteBack? && reported[|reported| - 1].action.status == Succeeded
      ensures r.Ok? && r.value.status == Running ==> |reported| == |old(store.ops)| + 1
      ensures r.Ok? && r.value.status == Failed && effects != old(effects) ==>
                action.command.GitUpdateRebuildRestart? && selfManageEnabled
      ensures r.Ok? && r.value.status == Failed ==> r.value.errorText.Some?
      ensures Refused(action.command, selfManageEnabled) ==>
                effects == old(effects) && (r.Ok? ==> r.value.status == Failed)
      ensures r.Ok? && Refused(action.command, selfManageEnabled) && !action.command.Unsupported? ==>
                r.value.errorText == Some("Container self-management is disabled.")
      ensures store.ops[|store.ops| - 1].action in store.items
      ensures r.Raised? ==>
                || Settled(store.ops[|store.ops| - 1].action)
                || (store.ops[|store.ops| - 1].action.status == Running && effects == old(effects)
                    && |store.ops| == |old(store.ops)| + 1)
    {
      hide Waiting, Replaced, HasLeftQueue, ItemsAfter, Legal;
      var startedAt := Now();
      var a := action.(startedAt := Some(startedAt), status := Running);
      var reported := Report(a);
      if reported.Raised? {
        return Outcome.Raised(reported.message);
      }
      var outcome;
      a, outcome := Attempt(a);
      if outcome.Raised? {
        a := a.(status := Failed, errorText := Some(outcome.message));
      }
      if a.status == Succeeded || a.status == Failed {
        var finishedAt := Now();
        a := a.(finishedAt := Some(finishedAt));
        reported := Report(a);
        if reported.Raised? {
          return Outcome.Raised(reported.message);
        }
      }
      return Ok(a);
    }
  }

  // ---- The control loop ----

  /** A turn of the loop takes a command and writes back only that one. */
  ghost predicate IsTurn(ops: seq<Op>, turn: seq<Op>) {
    && turn != [] && turn[0] == Take
    && forall i | 1 <= i < |turn| ::
         && turn[i].WriteBack? && turn[i].action.status != Queued
         && Waiting(ItemsAfter(ops)) != [] && turn[i].action.commandId == Waiting(ItemsAfter(ops))[0].commandId
  }

  lemma OneMoreOp(ops: seq<Op>, more: seq<Op>, op: Op)
    requires Controlled(ops, more)
    requires op.WriteBack? ==> op.action.commandId in Ids(TakenSince(ops, more))
    ensures Controlled(ops, more + [op])
    ensures Ids(TakenSince(ops, more + [op]))
            == Ids(TakenSince(ops, more)) + Ids(TakenBy(Waiting(ItemsAfter(ops + more)), op))
  {
    assert (more + [op])[..|more|] == more;
    IdsConcat(TakenSince(ops, more), TakenBy(Waiting(ItemsAfter(ops + more)), op));
    hide ItemsAfter, Waiting, Ids, TakenBy;
  }

  lemma FirstIsTaken(waiting: seq<Action>)
    requires waiting != []
    ensures waiting[0].commandId in Ids(TakenBy(waiting, Take))
  {
    assert Ids(TakenBy(waiting, Take))[0] == waiting[0].commandId;
  }

  /** Requests and turns of the loop, in any number and order, write back only what they take. */
  lemma {:induction false} TurnIsControlled(ops: seq<Op>, more: seq<Op>, turn: seq<Op>, n: nat)
    requires Controlled(ops, more) && IsTurn(ops + more, turn) && n <= |turn|
    ensures Controlled(ops, more + turn[..n])
    ensures n > 0 && Waiting(ItemsAfter(ops + more)) != [] ==>
              Waiting(ItemsAfter(ops + more))[0].commandId in Ids(TakenSince(ops, more + turn[..n]))
    decreases n
  {
    hide ItemsAfter, Waiting, Ids, TakenBy, TakenSince, Controlled;
    if n == 0 {
      assert more + turn[..0] == more;
    } else {
      TurnIsControlled(ops, more, turn, n - 1);
      assert more + turn[..n] == (more + turn[..n - 1]) + [turn[n - 1]];
      OneMoreOp(ops, more + turn[..n - 1], turn[n - 1]);
      if n == 1 {
        assert more + turn[..0] == more;
        if Waiting(ItemsAfter(ops + more)) != [] { FirstIsTaken(Waiting(ItemsAfter(ops + more))); }
      }
    }
  }

  lemma RequestIsControlled(ops: seq<Op>, more: seq<Op>, action: Action)
    requires Controlled(ops, more)
    ensures Controlled(ops, more + [Op.Enqueue(action)])
  {
    assert (more + [Op.Enqueue(action)])[..|more|] == more;
  }

  /** A command that its turn left RUNNING stays RUNNING over every continuation by requests and turns. */
  lemma LeftRunningStays(ops: seq<Op>, more: seq<Op>, action: Action)
    requires Legal(ops + more) && Controlled(ops, more) && action in ItemsAfter(ops) && action.status == Running
    ensures action in ItemsAfter(ops + more)
  {
    var p :| 0 <= p < |ItemsAfter(ops)| && ItemsAfter(ops)[p] == action;
    LeftBehindStays(ops, more, p);
  }

  class WorkerControlLoop {
    const executor: WorkerActionExecutor

    constructor (executor: WorkerActionExecutor)
      ensures this.executor == executor
    {
      this.executor := executor;
    }

    /** One command at a time: exactly the first waiting action leaves the queue, and is executed. */
    method Tick() returns (r: Outcome<bool>)
      requires executor.store.Valid()
      modifies executor`clock, executor`effects, executor`reported, executor.store
      ensures executor.store.Valid()
      ensures Waiting(executor.store.items) == QueueStep(old(Waiting(executor.store.items)), Take)
      ensures old(Waiting(executor.store.items)) == [] ==> r == Ok(false) && executor.effects == old(executor.effects)
      ensures old(Waiting(executor.store.items)) != [] ==> r != Ok(false)
      ensures |old(executor.store.ops)| <= |executor.store.ops|
      ensures executor.store.ops[..|old(executor.store.ops)|] == old(executor.store.ops)
      ensures IsTurn(old(executor.store.ops), executor.store.ops[|old(executor.store.ops)|..])
    {
      var action := executor.store.TakeNext();
      if action == None {
        return Ok(false);
      }
      var executed := executor.Execute(action.value);
      if executed.Raised? {
        return Outcome.Raised(executed.message);
      }
      return Ok(true);
    }
  }
}
