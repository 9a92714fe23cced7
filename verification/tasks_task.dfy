/**
  The background-task records of `django/tasks/task.py`: the immutable `Task`,
  the `TaskResult` a backend hands out, and the accessors whose behaviour
  depends on the result's status.
 */
module TaskData {
  import opened Common

  const DefaultTaskBackendAlias: string := "default"
  const DefaultQueueName: string := "default"
  const MinPriority: int := -100
  const MaxPriority: int := 100
  const DefaultPriority: int := 0

  const MsgTaskFailed: string := "Task failed"
  const MsgNotFinished: string := "Task has not finished yet"

  datatype ResultStatus = New | Running | Failed | Complete

  /** A point in time; `aware` is whether it carries a time zone. */
  datatype DateTime = DateTime(instant: int, aware: bool)

  /** `run_after` as passed to `using`: a datetime, or a timedelta in seconds. */
  datatype RunAfterArg = At(when: DateTime) | After(seconds: int)

  /**
    The identity of a task function together with the two facts about it the
    backends inspect.
   */
  datatype TaskFunc = TaskFunc(name: string, isGlobal: bool, isCoroutine: bool)

  /** JSON-normalised arguments and return values. */
  datatype Json =
    | JNull
    | JBool(b: bool)
    | JInt(i: int)
    | JStr(s: string)
    | JList(items: seq<Json>)
    | JObject(fields: map<string, Json>)

  /** What `exception_to_dict` records about an exception. */
  datatype ExceptionData = ExceptionData(excType: string, excMessage: string, excTraceback: string)

  /**
    The `Task` dataclass. `priority` is a real so that a non-whole priority
    such as 3.1 can be represented and rejected.
   */
  datatype Task = Task(
    priority: real,
    func: TaskFunc,
    backend: string,
    queueName: string,
    runAfter: Option<DateTime>,
    enqueueOnCommit: Option<bool>)

  datatype TaskResult = TaskResult(
    task: Task,
    id: string,
    status: ResultStatus,
    enqueuedAt: Option<DateTime>,
    startedAt: Option<DateTime>,
    finishedAt: Option<DateTime>,
    args: seq<Json>,
    kwargs: map<string, Json>,
    backend: string,
    returnValue: Json,
    exceptionData: Option<ExceptionData>)

  /** The optional arguments of `Task.using`; `None` means "not passed". */
  datatype UsingArgs = UsingArgs(
    priority: Option<real>,
    queueName: Option<string>,
    runAfter: Option<RunAfterArg>,
    backend: Option<string>)

  const NoChanges: UsingArgs := UsingArgs(None, None, None, None)

  /** The value a `run_after` argument is stored as, given the current time. */
  function ResolveRunAfter(arg: RunAfterArg, now: DateTime): (r: DateTime)
    ensures arg.At? ==> r == arg.when
    ensures arg.After? ==> r.instant == now.instant + arg.seconds && r.aware == now.aware
  {
    match arg
    case At(when) => when
    case After(seconds) => DateTime(now.instant + seconds, now.aware)
  }

  /**
    The task `dataclasses.replace` builds in `Task.using`, before the new
    task's backend validates it.
   */
  function ApplyUsing(t: Task, args: UsingArgs, now: DateTime): (r: Task)
    ensures r.func == t.func && r.enqueueOnCommit == t.enqueueOnCommit
    ensures r.priority == args.priority.GetOr(t.priority)
    ensures r.queueName == args.queueName.GetOr(t.queueName)
    ensures r.backend == args.backend.GetOr(t.backend)
    ensures args.runAfter.None? ==> r.runAfter == t.runAfter
    ensures args.runAfter.Some? ==> r.runAfter == Some(ResolveRunAfter(args.runAfter.value, now))
  {
    t.(priority := args.priority.GetOr(t.priority),
       queueName := args.queueName.GetOr(t.queueName),
       runAfter := if args.runAfter.Some? then Some(ResolveRunAfter(args.runAfter.value, now)) else t.runAfter,
       backend := args.backend.GetOr(t.backend))
  }

  /** `using()` with no arguments changes nothing. */
  lemma ApplyUsingNothingIsIdentity(t: Task, now: DateTime)
    ensures ApplyUsing(t, NoChanges, now) == t
  {
  }

  /**
    Chained `using` calls compose: a field set by the first call survives a
    second call that does not mention it (the chained test in the suite).
   */
  lemma ApplyUsingChained(t: Task, a: UsingArgs, b: UsingArgs, now: DateTime)
    ensures var r := ApplyUsing(ApplyUsing(t, a, now), b, now);
      && (b.priority.None? ==> r.priority == a.priority.GetOr(t.priority))
      && (b.queueName.None? ==> r.queueName == a.queueName.GetOr(t.queueName))
      && (b.backend.None? ==> r.backend == a.backend.GetOr(t.backend))
      && (b.runAfter.None? && a.runAfter.Some? ==> r.runAfter == Some(ResolveRunAfter(a.runAfter.value, now)))
  {
  }

  datatype TaskError =
    | InvalidTask(message: string)
    | InvalidTaskBackend(alias: string)
    | ResultDoesNotExist(resultId: string)
    | ValueError(message: string)
    | NotImplemented
    | KeyboardInterrupt

  /**
    `TaskResult.return_value`: raises unless the task completed, with a
    message that distinguishes failure from "not finished yet".
   */
  function ReturnValue(r: TaskResult): (v: Result<Json, TaskError>)
    ensures v.Ok? <==> r.status == Complete
    ensures v.Ok? ==> v.value == r.returnValue
    ensures r.status == Failed ==> v == Err(ValueError(MsgTaskFailed))
    ensures r.status in {New, Running} ==> v == Err(ValueError(MsgNotFinished))
  {
    if r.status == Failed then Err(ValueError(MsgTaskFailed))
    else if r.status != Complete then Err(ValueError(MsgNotFinished))
    else Ok(r.returnValue)
  }

  /** `TaskResult.exception`: the recorded exception, only for a failed task. */
  function Exception(r: TaskResult): (e: Option<ExceptionData>)
    ensures e.Some? <==> r.status == Failed && r.exceptionData.Some?
    ensures e.Some? ==> e == r.exceptionData
  {
    if r.status == Failed && r.exceptionData.Some? then r.exceptionData else None
  }

  /** `TaskResult.traceback`: the recorded traceback text, only for a failed task. */
  function Traceback(r: TaskResult): (tb: Option<string>)
    ensures tb.Some? <==> Exception(r).Some?
    ensures tb.Some? ==> tb.value == Exception(r).value.excTraceback
  {
    if r.status == Failed && r.exceptionData.Some? then Some(r.exceptionData.value.excTraceback) else None
  }

  /** The six attributes named in `TASK_REFRESH_ATTRS` agree. */
  predicate RefreshAttrsAgree(a: TaskResult, b: TaskResult) {
    && a.exceptionData == b.exceptionData
    && a.returnValue == b.returnValue
    && a.finishedAt == b.finishedAt
    && a.startedAt == b.startedAt
    && a.status == b.status
    && a.enqueuedAt == b.enqueuedAt
  }

  /**
    The loop of `TaskResult.refresh`: copy the refresh attributes of the
    stored result onto `r`, leaving its identity fields alone.
   */
  function CopyRefreshAttrs(r: TaskResult, stored: TaskResult): (r': TaskResult)
    ensures RefreshAttrsAgree(r', stored)
    ensures r'.task == r.task && r'.id == r.id && r'.args == r.args
    ensures r'.kwargs == r.kwargs && r'.backend == r.backend
  {
    r.(exceptionData := stored.exceptionData,
       returnValue := stored.returnValue,
       finishedAt := stored.finishedAt,
       startedAt := stored.startedAt,
       status := stored.status,
       enqueuedAt := stored.enqueuedAt)
  }

  /** Refreshing twice is the same as refreshing once from the later copy. */
  lemma CopyRefreshAttrsLastWins(r: TaskResult, a: TaskResult, b: TaskResult)
    ensures CopyRefreshAttrs(CopyRefreshAttrs(r, a), b) == CopyRefreshAttrs(r, b)
  {
  }

  /** Refreshing from an unchanged copy leaves the result as it was. */
  lemma CopyRefreshAttrsFromSelf(r: TaskResult, stored: TaskResult)
    requires RefreshAttrsAgree(r, stored)
    ensures CopyRefreshAttrs(r, stored) == r
  {
  }
}
