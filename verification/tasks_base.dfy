/**
  `BaseTaskBackend` of `django/tasks/backends/base.py`: backend options and
  feature flags, task validation, the enqueue-on-commit decision and the
  system check. The alias-to-backend registry (`tasks[alias]`) and the two
  task.py operations that validate through it — constructing a `Task` and
  `Task.using` — live here too, because both call `validate_task`.
 */
module TaskBackends {
  import opened Common
  import opened TaskData

  const MsgNotGlobal: string := "Task function must be a globally importable function"
  const MsgNoAsync: string := "Backend does not support async tasks"
  const MsgBadPriority: string := "priority must be a whole number between -100 and 100"
  const MsgNoDefer: string := "Backend does not support run_after"
  const MsgNaiveRunAfter: string := "run_after must be an aware datetime"
  const MsgOnCommitNoDatabases: string := "`ENQUEUE_ON_COMMIT` cannot be used when no databases are configured"
  const HintOnCommitNoDatabases: string := "Set `ENQUEUE_ON_COMMIT` to False"

  function MsgBadQueue(queue: string): string {
    "Queue '" + queue + "' is not valid for backend"
  }

  /** The backend classes of the core and the feature flags each declares. */
  datatype BackendKind = BaseBackend | DummyBackend | ImmediateBackend

  function SupportsDefer(k: BackendKind): bool {
    k == DummyBackend
  }

  function SupportsAsyncTask(k: BackendKind): bool {
    k != BaseBackend
  }

  /** The `OPTIONS` dict; a missing key is `None`. */
  datatype BackendOptions = BackendOptions(
    alias: string,
    queues: Option<seq<string>>,
    enqueueOnCommit: Option<bool>)

  datatype Backend = Backend(
    kind: BackendKind,
    alias: string,
    queues: set<string>,
    enqueueOnCommit: bool)

  /** `BaseTaskBackend.__init__`: queues default to `{"default"}`, on-commit to true. */
  function NewBackend(kind: BackendKind, options: BackendOptions): (b: Backend)
    ensures b.kind == kind && b.alias == options.alias
    ensures options.queues.None? ==> b.queues == {DefaultQueueName}
    ensures options.queues.Some? ==> forall q :: q in b.queues <==> q in options.queues.value
    ensures b.enqueueOnCommit <==> options.enqueueOnCommit != Some(false)
  {
    var qs := if options.queues.Some? then options.queues.value else [DefaultQueueName];
    var queues := set q | q in qs;
    Backend(kind, options.alias, queues, options.enqueueOnCommit.GetOr(true))
  }

  /** Python's `int()` on a number truncates toward zero. */
  function TruncToInt(x: real): int {
    if x >= 0.0 then x.Floor else -((-x).Floor)
  }

  /** The priority test as written: out of range, or `int(p) != p`, is rejected. */
  predicate PriorityAccepted(p: real) {
    !(p < MinPriority as real || p > MaxPriority as real || TruncToInt(p) as real != p)
  }

  /** A priority is accepted exactly when it is a whole number in [-100, 100]. */
  lemma PriorityAcceptedIffWholeInRange(p: real)
    ensures PriorityAccepted(p) <==> (p.Floor as real == p && -100.0 <= p <= 100.0)
  {
    if p < 0.0 {
      var q := -p;
      assert TruncToInt(p) == -(q.Floor);
      if q.Floor as real == q {
        assert (-(q.Floor)) as real == p;
        assert p.Floor == -(q.Floor);
      }
      if p.Floor as real == p {
        assert (-(p.Floor)) as real == q;
        assert q.Floor == -(p.Floor);
      }
    }
  }

  /**
    Every check of `validate_task` that `t` fails on backend `b`, in the order
    the checks are made. A reference definition for `ValidateTask`.
   */
  function Violations(b: Backend, t: Task): seq<TaskError> {
    (if !t.func.isGlobal then [InvalidTask(MsgNotGlobal)] else [])
    + (if !SupportsAsyncTask(b.kind) && t.func.isCoroutine then [InvalidTask(MsgNoAsync)] else [])
    + (if !PriorityAccepted(t.priority) then [InvalidTask(MsgBadPriority)] else [])
    + (if !SupportsDefer(b.kind) && t.runAfter.Some? then [InvalidTask(MsgNoDefer)] else [])
    + (if t.runAfter.Some? && !t.runAfter.value.aware then [InvalidTask(MsgNaiveRunAfter)] else [])
    + (if |b.queues| > 0 && t.queueName !in b.queues then [InvalidTask(MsgBadQueue(t.queueName))] else [])
  }

  /** `BaseTaskBackend.validate_task`: raises at the first failing check. */
  function ValidateTask(b: Backend, t: Task): (r: Outcome<TaskError>)
    ensures r.Pass? <==> |Violations(b, t)| == 0
    ensures r.Fail? ==> r.error == Violations(b, t)[0]
    ensures r.Pass? ==> PriorityAccepted(t.priority)
    ensures r.Pass? && t.runAfter.Some? ==> SupportsDefer(b.kind) && t.runAfter.value.aware
    ensures r.Pass? && |b.queues| > 0 ==> t.queueName in b.queues
  {
    if !t.func.isGlobal then Fail(InvalidTask(MsgNotGlobal))
    else if !SupportsAsyncTask(b.kind) && t.func.isCoroutine then Fail(InvalidTask(MsgNoAsync))
    else if !PriorityAccepted(t.priority) then Fail(InvalidTask(MsgBadPriority))
    else if !SupportsDefer(b.kind) && t.runAfter.Some? then Fail(InvalidTask(MsgNoDefer))
    else if t.runAfter.Some? && !t.runAfter.value.aware then Fail(InvalidTask(MsgNaiveRunAfter))
    else if |b.queues| > 0 && t.queueName !in b.queues then Fail(InvalidTask(MsgBadQueue(t.queueName)))
    else Pass
  }

  /** A non-global function is refused whatever else holds. */
  lemma NonGlobalAlwaysRejected(b: Backend, t: Task)
    requires !t.func.isGlobal
    ensures ValidateTask(b, t) == Fail(InvalidTask(MsgNotGlobal))
  {
  }

  /**
    A coroutine function is refused by a backend without async support, and
    treated like a plain function by one with it.
   */
  lemma CoroutineRejectedUnlessAsync(b: Backend, t: Task)
    requires t.func.isGlobal && t.func.isCoroutine
    ensures !SupportsAsyncTask(b.kind) ==> ValidateTask(b, t) == Fail(InvalidTask(MsgNoAsync))
    ensures SupportsAsyncTask(b.kind) ==>
      ValidateTask(b, t) == ValidateTask(b, t.(func := t.func.(isCoroutine := false)))
  {
  }

  /** A database connection; `disabled` is a connection replaced by `_DatabaseFailure`. */
  datatype Connection = Connection(alias: string, disabled: bool)

  /** The database configuration the on-commit decision consults. */
  datatype DbEnv = DbEnv(hasDatabases: bool, connections: seq<Connection>)

  predicate AnyDisabled(conns: seq<Connection>) {
    exists i :: 0 <= i < |conns| && conns[i].disabled
  }

  /** The loop over `connections.all()`. */
  function FindDisabled(conns: seq<Connection>): (r: bool)
    ensures r <==> AnyDisabled(conns)
  {
    if |conns| == 0 then false
    else if conns[0].disabled then true
    else
      assert forall i :: 1 <= i < |conns| ==> conns[i] == conns[1..][i - 1];
      FindDisabled(conns[1..])
  }

  /**
    `_get_enqueue_on_commit_for_task`: false without databases or with a
    disabled connection; otherwise the task's own setting, falling back to the
    backend's.
   */
  function EnqueueOnCommitFor(env: DbEnv, b: Backend, t: Task): (r: bool)
    ensures !env.hasDatabases ==> !r
    ensures AnyDisabled(env.connections) ==> !r
    ensures env.hasDatabases && !AnyDisabled(env.connections) && t.enqueueOnCommit.Some? ==> r == t.enqueueOnCommit.value
    ensures env.hasDatabases && !AnyDisabled(env.connections) && t.enqueueOnCommit.None? ==> r == b.enqueueOnCommit
  {
    if !env.hasDatabases then false
    else if FindDisabled(env.connections) then false
    else if t.enqueueOnCommit.Some? then t.enqueueOnCommit.value
    else b.enqueueOnCommit
  }

  datatype CheckMessage = CheckError(msg: string, hint: string)

  /** `BaseTaskBackend.check` */
  function Check(b: Backend, env: DbEnv): (msgs: seq<CheckMessage>)
    ensures |msgs| <= 1
    ensures |msgs| == 1 <==> b.enqueueOnCommit && !env.hasDatabases
    ensures |msgs| == 1 ==> msgs[0] == CheckError(MsgOnCommitNoDatabases, HintOnCommitNoDatabases)
  {
    if b.enqueueOnCommit && !env.hasDatabases then
      [CheckError(MsgOnCommitNoDatabases, HintOnCommitNoDatabases)]
    else []
  }

  /**
    A backend whose check is clean never waits for a commit that cannot come:
    without databases it does not enqueue on commit.
   */
  lemma CleanCheckMeansNoDanglingOnCommit(b: Backend, env: DbEnv, t: Task)
    requires Check(b, env) == [] && t.enqueueOnCommit.None?
    ensures EnqueueOnCommitFor(env, b, t) ==> b.enqueueOnCommit && env.hasDatabases
  {
  }

  /** The configured backends by alias (`django.tasks.tasks`). */
  type Registry = map<string, Backend>

  /** `tasks[alias]`: an unknown alias raises `InvalidTaskBackendError`. */
  function GetBackend(reg: Registry, alias: string): (r: Result<Backend, TaskError>)
    ensures r.Ok? <==> alias in reg
    ensures r.Ok? ==> r.value == reg[alias]
    ensures r.Err? ==> r.error == InvalidTaskBackend(alias)
  {
    if alias in reg then Ok(reg[alias]) else Err(InvalidTaskBackend(alias))
  }

  /** A task that `Task.__post_init__` lets through. */
  predicate Constructible(reg: Registry, t: Task) {
    t.backend in reg && ValidateTask(reg[t.backend], t).Pass?
  }

  /** `Task(...)`: the dataclass constructor validates against the task's backend. */
  function NewTask(reg: Registry, t: Task): (r: Result<Task, TaskError>)
    ensures r.Ok? <==> Constructible(reg, t)
    ensures r.Ok? ==> r.value == t
    ensures t.backend !in reg ==> r == Err(InvalidTaskBackend(t.backend))
    ensures t.backend in reg && r.Err? ==> r.error == Violations(reg[t.backend], t)[0]
  {
    var b :- GetBackend(reg, t.backend);
    match ValidateTask(b, t)
    case Pass => Ok(t)
    case Fail(e) => Err(e)
  }

  /**
    The keyword arguments of the `task()` decorator; `None` stands for an
    argument that was not passed, which takes its default.
   */
  datatype TaskOptions = TaskOptions(
    priority: Option<real>,
    queueName: Option<string>,
    backend: Option<string>,
    enqueueOnCommit: Option<bool>)

  /** The alias the decorator looks up: the one passed, or `DEFAULT_TASK_BACKEND_ALIAS`. */
  function DecoratorAlias(opts: TaskOptions): string {
    opts.backend.GetOr(DefaultTaskBackendAlias)
  }

  /** The task the decorator hands to `task_class`, before `__post_init__` validates it. */
  function Built(f: TaskFunc, opts: TaskOptions): Task {
    Task(opts.priority.GetOr(DefaultPriority as real), f, DecoratorAlias(opts),
         opts.queueName.GetOr(DefaultQueueName), None, opts.enqueueOnCommit)
  }

  /**
    The `task()` decorator applied to `f`: the backend is looked up first,
    then the task it builds is validated by that backend, and the first
    violation is raised.
   */
  function DecorateTask(reg: Registry, f: TaskFunc, opts: TaskOptions): (r: Result<Task, TaskError>)
    ensures r.Ok? ==> Constructible(reg, r.value) && r.value.func == f && r.value.runAfter.None?
    ensures r.Ok? ==> r.value.priority == opts.priority.GetOr(DefaultPriority as real)
    ensures r.Ok? ==> r.value.queueName == opts.queueName.GetOr(DefaultQueueName)
    ensures r.Ok? ==> r.value.backend == opts.backend.GetOr(DefaultTaskBackendAlias)
    ensures r.Ok? ==> r.value.enqueueOnCommit == opts.enqueueOnCommit
    ensures DecoratorAlias(opts) !in reg ==> r == Err(InvalidTaskBackend(DecoratorAlias(opts)))
    ensures DecoratorAlias(opts) in reg ==> (r.Ok? <==> ValidateTask(reg[DecoratorAlias(opts)], Built(f, opts)).Pass?)
    ensures DecoratorAlias(opts) in reg && r.Err? ==> r.error == Violations(reg[DecoratorAlias(opts)], Built(f, opts))[0]
  {
    var alias := DecoratorAlias(opts);
    var _ :- GetBackend(reg, alias);
    NewTask(reg, Built(f, opts))
  }

  /**
    `Task.using`: a functional update followed by the new task's validation.
    The receiver is a value and cannot change; the result differs from it in
    exactly the passed fields.
   */
  function Using(reg: Registry, t: Task, args: UsingArgs, now: DateTime): (r: Result<Task, TaskError>)
    ensures r.Ok? <==> Constructible(reg, ApplyUsing(t, args, now))
    ensures r.Ok? ==> r.value == ApplyUsing(t, args, now)
    ensures r.Err? && ApplyUsing(t, args, now).backend !in reg ==> r.error == InvalidTaskBackend(ApplyUsing(t, args, now).backend)
  {
    NewTask(reg, ApplyUsing(t, args, now))
  }

  /** `using()` without arguments on a valid task returns an equal task. */
  lemma UsingNothingReturnsEqualTask(reg: Registry, t: Task, now: DateTime)
    requires Constructible(reg, t)
    ensures Using(reg, t, NoChanges, now) == Ok(t)
  {
    ApplyUsingNothingIsIdentity(t, now);
  }

  /** An out-of-range or fractional priority makes `using` fail with the priority message. */
  lemma UsingBadPriorityFails(reg: Registry, t: Task, p: real, now: DateTime)
    requires Constructible(reg, t)
    requires !(p.Floor as real == p && -100.0 <= p <= 100.0)
    ensures Using(reg, t, UsingArgs(Some(p), None, None, None), now) == Err(InvalidTask(MsgBadPriority))
  {
    PriorityAcceptedIffWholeInRange(p);
    PriorityAcceptedIffWholeInRange(t.priority);
  }

  /** A whole priority in range keeps a valid task valid. */
  lemma UsingGoodPrioritySucceeds(reg: Registry, t: Task, p: real, now: DateTime)
    requires Constructible(reg, t)
    requires p.Floor as real == p && -100.0 <= p <= 100.0
    ensures Using(reg, t, UsingArgs(Some(p), None, None, None), now) == Ok(t.(priority := p))
  {
    PriorityAcceptedIffWholeInRange(p);
  }
}
