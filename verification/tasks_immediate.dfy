/**
  `ImmediateBackend` of `django/tasks/backends/immediate.py`: a task runs as
  soon as it is enqueued, or when the surrounding transaction commits. The
  task function itself is foreign code, so what it does is an input: it
  returns a value, raises an exception, or is interrupted from the keyboard.
 */
module ImmediateTaskBackend {
  import opened Common
  import opened TaskData
  import opened TaskBackends

  /**
    What calling the task function does. `Raised(None)` is an exception that
    `exception_to_dict` could not record (the backend only logs that).
   */
  datatype CallOutcome = Returned(value: Json) | Raised(data: Option<ExceptionData>) | Interrupted

  /** The three readings of `timezone.now()` one execution takes, in order. */
  datatype Clock = Clock(enqueuedAt: DateTime, startedAt: DateTime, finishedAt: DateTime)

  /**
    The state of the result object after `_execute_task`: finished, or left
    half-updated when a `KeyboardInterrupt` escapes.
   */
  datatype Execution = Finished(result: TaskResult) | InterruptedAt(partial: TaskResult)

  predicate SameIdentity(a: TaskResult, b: TaskResult) {
    a.task == b.task && a.id == b.id && a.args == b.args && a.kwargs == b.kwargs && a.backend == b.backend
  }

  /** `ImmediateBackend._execute_task` */
  function ExecuteTask(tr: TaskResult, clock: Clock, outcome: CallOutcome): (e: Execution)
    ensures e.InterruptedAt? <==> outcome.Interrupted?
    ensures e.InterruptedAt? ==> var p := e.partial;
      && SameIdentity(p, tr) && p.status == tr.status && p.finishedAt == tr.finishedAt
      && p.enqueuedAt == Some(clock.enqueuedAt) && p.startedAt == Some(clock.startedAt)
    ensures e.Finished? ==> var r := e.result;
      && SameIdentity(r, tr) && r.status in {Complete, Failed}
      && r.enqueuedAt == Some(clock.enqueuedAt) && r.startedAt == Some(clock.startedAt)
      && r.finishedAt == Some(clock.finishedAt)
    ensures outcome.Returned? ==>
      e.Finished? && e.result.status == Complete && e.result.returnValue == outcome.value
      && e.result.exceptionData == tr.exceptionData
    ensures outcome.Raised? ==>
      e.Finished? && e.result.status == Failed && e.result.returnValue == tr.returnValue
      && e.result.exceptionData == (if outcome.data.Some? then outcome.data else tr.exceptionData)
  {
    var started := tr.(enqueuedAt := Some(clock.enqueuedAt), startedAt := Some(clock.startedAt));
    match outcome
    case Returned(v) =>
      Finished(started.(returnValue := v, finishedAt := Some(clock.finishedAt), status := Complete))
    case Raised(data) =>
      var finished := started.(finishedAt := Some(clock.finishedAt));
      var recorded := if data.Some? then finished.(exceptionData := data) else finished;
      Finished(recorded.(status := Failed))
    case Interrupted =>
      InterruptedAt(started)
  }

  datatype ImmediateState = ImmediateState(backend: Backend, pendingCommit: seq<TaskResult>)

  /**
    `ImmediateBackend.enqueue`: validate, build a NEW result, then run it now
    or register the run for the commit. A keyboard interrupt escapes.
   */
  function Enqueue(s: ImmediateState, env: DbEnv, t: Task, id: string, args: seq<Json>,
                   kwargs: map<string, Json>, clock: Clock, outcome: CallOutcome)
    : (r: Result<(ImmediateState, TaskResult), TaskError>)
    ensures ValidateTask(s.backend, t).Fail? ==> r == Err(Violations(s.backend, t)[0])
    ensures r.Ok? ==> var (s', res) := r.value;
      && res.task == t && res.id == id && res.backend == s.backend.alias
      && res.args == args && res.kwargs == kwargs && s'.backend == s.backend
    ensures r.Ok? && EnqueueOnCommitFor(env, s.backend, t) ==> var (s', res) := r.value;
      && res.status == New && res.enqueuedAt.None? && res.startedAt.None? && res.finishedAt.None?
      && s'.pendingCommit == s.pendingCommit + [res]
    ensures ValidateTask(s.backend, t).Pass? && !EnqueueOnCommitFor(env, s.backend, t) ==>
      && (r.Err? <==> outcome.Interrupted?)
      && (r.Err? ==> r.error == KeyboardInterrupt)
      && (r.Ok? ==> r.value.0 == s && r.value.1.status in {Complete, Failed}
                    && r.value.1.finishedAt == Some(clock.finishedAt))
  {
    match ValidateTask(s.backend, t)
    case Fail(e) => Err(e)
    case Pass =>
      var tr := TaskResult(t, id, New, None, None, None, args, kwargs, s.backend.alias, JNull, None);
      if EnqueueOnCommitFor(env, s.backend, t) then
        Ok((s.(pendingCommit := s.pendingCommit + [tr]), tr))
      else
        match ExecuteTask(tr, clock, outcome)
        case Finished(res) => Ok((s, res))
        case InterruptedAt(_) => Err(KeyboardInterrupt)
  }

  /**
    The transaction commits: the pending executions run in order, and a
    keyboard interrupt stops the ones after it. One clock and one call
    outcome per pending execution.
   */
  function Commit(pending: seq<TaskResult>, clocks: seq<Clock>, outcomes: seq<CallOutcome>): (runs: seq<Execution>)
    requires |clocks| == |pending| && |outcomes| == |pending|
    ensures |runs| <= |pending|
    ensures forall i :: 0 <= i < |runs| ==> runs[i] == ExecuteTask(pending[i], clocks[i], outcomes[i])
    ensures forall i :: 0 <= i < |runs| - 1 ==> runs[i].Finished?
    ensures |runs| < |pending| ==> |runs| > 0 && runs[|runs| - 1].InterruptedAt?
  {
    if |pending| == 0 then []
    else
      var first := ExecuteTask(pending[0], clocks[0], outcomes[0]);
      if first.InterruptedAt? then [first]
      else [first] + Commit(pending[1..], clocks[1..], outcomes[1..])
  }

  /**
    The result object registered at position `i` as it stands once the
    commit has run: `_execute_task` updates that very object in place, so
    whoever holds it sees the execution; one the interrupt kept from running
    is left as it was registered.
   */
  function AfterCommit(pending: seq<TaskResult>, runs: seq<Execution>, i: nat): (r: TaskResult)
    requires i < |pending| && |runs| <= |pending|
    ensures i >= |runs| ==> r == pending[i]
    ensures i < |runs| ==> r == (if runs[i].Finished? then runs[i].result else runs[i].partial)
  {
    if i >= |runs| then pending[i]
    else if runs[i].Finished? then runs[i].result
    else runs[i].partial
  }

  /** The commit reaches every execution that no earlier one interrupted. */
  lemma {:induction false} CommitReaches(pending: seq<TaskResult>, clocks: seq<Clock>, outcomes: seq<CallOutcome>, i: nat)
    requires |clocks| == |pending| && |outcomes| == |pending| && i < |pending|
    requires forall j :: 0 <= j < i ==> !outcomes[j].Interrupted?
    ensures i < |Commit(pending, clocks, outcomes)|
    decreases i
  {
    if i > 0 {
      assert !outcomes[0].Interrupted?;
      CommitReaches(pending[1..], clocks[1..], outcomes[1..], i - 1);
    }
  }

  /**
    A result `enqueue` handed back while waiting for the commit: it is the
    last pending execution, and once the commit has run (no earlier task
    interrupted from the keyboard) the caller's object is the outcome of
    its execution, COMPLETE or FAILED with all three stamps, or stopped
    half-way by an interrupt of its own.
   */
  lemma DeferredResultUpdatedByCommit(s: ImmediateState, env: DbEnv, t: Task, id: string, args: seq<Json>,
                                      kwargs: map<string, Json>, clock: Clock, outcome: CallOutcome,
                                      clocks: seq<Clock>, outcomes: seq<CallOutcome>)
    requires Enqueue(s, env, t, id, args, kwargs, clock, outcome).Ok? && EnqueueOnCommitFor(env, s.backend, t)
    requires |clocks| == |s.pendingCommit| + 1 && |outcomes| == |s.pendingCommit| + 1
    requires forall j :: 0 <= j < |s.pendingCommit| ==> !outcomes[j].Interrupted?
    ensures var (s', res) := Enqueue(s, env, t, id, args, kwargs, clock, outcome).value;
      var i := |s.pendingCommit|;
      var runs := Commit(s'.pendingCommit, clocks, outcomes);
      var seen := AfterCommit(s'.pendingCommit, runs, i);
      && s'.pendingCommit[i] == res
      && i < |runs| && runs[i] == ExecuteTask(res, clocks[i], outcomes[i])
      && SameIdentity(seen, res)
      && seen.enqueuedAt == Some(clocks[i].enqueuedAt) && seen.startedAt == Some(clocks[i].startedAt)
      && (!outcomes[i].Interrupted? ==>
            seen.status in {Complete, Failed} && seen.finishedAt == Some(clocks[i].finishedAt))
      && (outcomes[i].Interrupted? ==> seen.status == New && seen.finishedAt.None?)
  {
    var (s', res) := Enqueue(s, env, t, id, args, kwargs, clock, outcome).value;
    CommitReaches(s'.pendingCommit, clocks, outcomes, |s.pendingCommit|);
  }

  /** After a normal return the result's `return_value` is the returned value. */
  lemma ReturnedValueIsReadable(tr: TaskResult, clock: Clock, v: Json)
    ensures var e := ExecuteTask(tr, clock, Returned(v));
      e.Finished? && ReturnValue(e.result) == Ok(v)
  {
  }

  /**
    After a recorded exception, `return_value` raises "Task failed" and
    `exception`/`traceback` expose what was recorded.
   */
  lemma RaisedExceptionIsReadable(tr: TaskResult, clock: Clock, d: ExceptionData)
    ensures var e := ExecuteTask(tr, clock, Raised(Some(d)));
      && e.Finished?
      && ReturnValue(e.result) == Err(ValueError(MsgTaskFailed))
      && Exception(e.result) == Some(d)
      && Traceback(e.result) == Some(d.excTraceback)
  {
  }

  /**
    An exception that could not be recorded still fails the task, and a fresh
    result then reports no exception.
   */
  lemma UnrecordedExceptionFailsWithoutData(tr: TaskResult, clock: Clock)
    requires tr.exceptionData.None?
    ensures var e := ExecuteTask(tr, clock, Raised(None));
      e.Finished? && e.result.status == Failed && Exception(e.result).None?
  {
  }

  /** With a clock that does not run backwards, the three stamps are ordered. */
  lemma TimestampsOrdered(tr: TaskResult, clock: Clock, outcome: CallOutcome)
    requires clock.enqueuedAt.instant <= clock.startedAt.instant <= clock.finishedAt.instant
    requires !outcome.Interrupted?
    ensures var r := ExecuteTask(tr, clock, outcome).result;
      r.enqueuedAt.value.instant <= r.startedAt.value.instant <= r.finishedAt.value.instant
  {
  }
}
