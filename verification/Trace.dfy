/**
 The diagnostic trace of a job: a list of stages that is only ever extended, whose
 running entries are closed in place.
 */
module Trace {
  import opened Base
  import opened Contracts

  predicate IsOpen(stage: Stage) {
    stage.status == StageRunning && stage.finishedAt == None
  }

  /** The largest index of an open stage called `name` (or of any open stage, for `None`). */
  function LastOpen(trace: seq<Stage>, name: Option<string>): (r: Option<nat>)
    ensures r.Some? ==> r.value < |trace|
  {
    if trace == [] then None
    else
      var n := |trace| - 1;
      if IsOpen(trace[n]) && (name == None || name == Some(trace[n].name)) then Some(n)
      else LastOpen(trace[..n], name)
  }

  function Opened(trace: seq<Stage>, name: string, at: int): seq<Stage> {
    trace + [Stage(name, StageRunning, at, None, None)]
  }

  function Recorded(trace: seq<Stage>, name: string, status: StageStatus, at: int, error: Option<string>): seq<Stage> {
    trace + [Stage(name, status, at, Some(at), error)]
  }

  function Close(stage: Stage, status: StageStatus, at: int, error: Option<string>): Stage {
    stage.(status := status, finishedAt := Some(at), error := error)
  }

  /** The name of the last failed stage: what is reported to the observer of a failure. */
  function LastFailedName(trace: seq<Stage>): Option<string> {
    if trace == [] then None
    else if trace[|trace| - 1].status == StageFailed then Some(trace[|trace| - 1].name)
    else LastFailedName(trace[..|trace| - 1])
  }

  // ---- The ledger ----

  /** Entry `b` is entry `a`, or `a` was open and `b` is the same stage, closed. */
  predicate Settles(a: Stage, b: Stage) {
    a == b || (IsOpen(a) && b.finishedAt.Some? && b.status != StageRunning &&
               b.name == a.name && b.startedAt == a.startedAt)
  }

  /** `after` extends `before`: nothing removed or reordered, finished entries untouched. */
  ghost predicate Ledger(before: seq<Stage>, after: seq<Stage>) {
    |before| <= |after| && forall i | 0 <= i < |before| :: Settles(before[i], after[i])
  }

  ghost predicate Closed(trace: seq<Stage>) {
    forall i | 0 <= i < |trace| :: !IsOpen(trace[i])
  }

  /** At most one entry is open, and it is the last one. */
  ghost predicate TailOpen(trace: seq<Stage>) {
    forall i | 0 <= i < |trace| - 1 :: !IsOpen(trace[i])
  }

  lemma LedgerTransitive(a: seq<Stage>, b: seq<Stage>, c: seq<Stage>)
    requires Ledger(a, b) && Ledger(b, c)
    ensures Ledger(a, c)
  {
    forall i | 0 <= i < |a| ensures Settles(a[i], c[i]) {
      assert Settles(a[i], b[i]) && Settles(b[i], c[i]);
    }
  }

  /** The search from the end finds exactly the last matching open entry. */
  lemma {:induction false} LastOpenIsLast(trace: seq<Stage>, name: Option<string>)
    ensures var r := LastOpen(trace, name);
            match r
            case None => forall i | 0 <= i < |trace| ::
                !(IsOpen(trace[i]) && (name == None || name == Some(trace[i].name)))
            case Some(k) =>
              && IsOpen(trace[k]) && (name == None || name == Some(trace[k].name))
              && forall i | k < i < |trace| :: !(IsOpen(trace[i]) && (name == None || name == Some(trace[i].name)))
    decreases |trace|
  {
    if trace != [] {
      var n := |trace| - 1;
      LastOpenIsLast(trace[..n], name);
      forall i | 0 <= i < n ensures trace[..n][i] == trace[i] {}
    }
  }

  /** In a trace whose only open entry is the last, failing it makes it the reported stage. */
  lemma OpenStageIsReported(trace: seq<Stage>, at: int, error: Option<string>)
    requires TailOpen(trace) && LastOpen(trace, None).Some?
    ensures LastOpen(trace, None).value == |trace| - 1
    ensures LastFailedName(trace[|trace| - 1 := Close(trace[|trace| - 1], StageFailed, at, error)])
            == Some(trace[|trace| - 1].name)
  {
    LastOpenIsLast(trace, None);
  }

  /** `LastFailedName` finds exactly the last failed entry. */
  lemma {:induction false} LastFailedIsLast(trace: seq<Stage>)
    ensures LastFailedName(trace) == None <==> forall i | 0 <= i < |trace| :: trace[i].status != StageFailed
    ensures LastFailedName(trace).Some? ==>
              exists k | 0 <= k < |trace| ::
                trace[k].status == StageFailed && Some(trace[k].name) == LastFailedName(trace)
                                             && forall i | k < i < |trace| :: trace[i].status != StageFailed
    decreases |trace|
  {
    if trace != [] && trace[|trace| - 1].status != StageFailed {
      var n := |trace| - 1;
      LastFailedIsLast(trace[..n]);
      forall i | 0 <= i < n ensures trace[..n][i] == trace[i] {}
      if LastFailedName(trace[..n]).Some? {
        var k :| 0 <= k < n && trace[..n][k].status == StageFailed
          && Some(trace[..n][k].name) == LastFailedName(trace[..n])
                 && forall i | k < i < n :: trace[..n][i].status != StageFailed;
        assert trace[k].status == StageFailed && Some(trace[k].name) == LastFailedName(trace);
        forall i | k < i < |trace| ensures trace[i].status != StageFailed {
          if i < n { assert trace[..n][i] == trace[i]; }
        }
      }
    }
  }

  /** A stage without its times. */
  datatype Entry = Entry(name: string, status: StageStatus, error: Option<string>)

  /** The stages, in order. */
  function Outline(trace: seq<Stage>): seq<Entry> {
    seq(|trace|, i requires 0 <= i < |trace| => Entry(trace[i].name, trace[i].status, trace[i].error))
  }

  lemma RecordedOutline(trace: seq<Stage>, name: string, status: StageStatus, at: int, error: Option<string>)
    ensures Outline(Recorded(trace, name, status, at, error)) == Outline(trace) + [Entry(name, status, error)]
  {
  }

  /** The result of closing the last open stage called `name`, or of recording it when there is none. */
  function Finished(trace: seq<Stage>, name: string, status: StageStatus, at: int, error: Option<string>): seq<Stage> {
    match LastOpen(trace, Some(name))
    case None => Recorded(trace, name, status, at, error)
    case Some(k) => trace[k := Close(trace[k], status, at, error)]
  }

  /** The trace after the exception handler closed the running stage. */
  function Interrupted(trace: seq<Stage>, at: int, error: string): seq<Stage> {
    match LastOpen(trace, None)
    case None => trace
    case Some(k) => trace[k := Close(trace[k], StageFailed, at, Some(error))]
  }

  /** Starting a stage and finishing it adds one finished entry. */
  lemma FinishedOpened(trace: seq<Stage>, name: string, startedAt: int, status: StageStatus, at: int,
                       error: Option<string>)
    ensures Finished(Opened(trace, name, startedAt), name, status, at, error)
         == trace + [Stage(name, status, startedAt, Some(at), error)]
  {
    var after := Opened(trace, name, startedAt);
    assert LastOpen(after, Some(name)) == Some(|trace|);
    assert after[..|trace|] == trace;
  }
}
