/**
  `DummyBackend` of `django/tasks/backends/dummy.py`: enqueued results are
  kept in a list and never run. A transaction's `on_commit` hook is modelled
  as a list of pending store callbacks that `Commit` runs in order.
 */
module DummyTaskBackend {
  import opened Common
  import opened TaskData
  import opened TaskBackends

  datatype DummyState = DummyState(
    backend: Backend,
    results: seq<TaskResult>,
    pendingCommit: seq<TaskResult>)

  /** `DummyBackend.__init__`: the base initialisation and an empty result list. */
  function NewDummyBackend(options: BackendOptions): (s: DummyState)
    ensures s.backend == NewBackend(DummyBackend, options)
    ensures s.results == [] && s.pendingCommit == []
  {
    DummyState(NewBackend(DummyBackend, options), [], [])
  }

  /** The result `enqueue` builds before deciding when to store it. */
  function NewResult(b: Backend, t: Task, id: string, args: seq<Json>, kwargs: map<string, Json>): (r: TaskResult)
    ensures r.task == t && r.id == id && r.status == New && r.backend == b.alias
    ensures r.enqueuedAt.None? && r.startedAt.None? && r.finishedAt.None?
    ensures r.args == args && r.kwargs == kwargs
    ensures r.returnValue == JNull && r.exceptionData.None?
  {
    TaskResult(t, id, New, None, None, None, args, kwargs, b.alias, JNull, None)
  }

  /** `_store_result`: stamp `enqueued_at` and append. */
  function StoreResult(s: DummyState, r: TaskResult, now: DateTime): (s': DummyState)
    ensures s'.results == s.results + [r.(enqueuedAt := Some(now))]
    ensures s'.backend == s.backend && s'.pendingCommit == s.pendingCommit
  {
    s.(results := s.results + [r.(enqueuedAt := Some(now))])
  }

  /**
    `DummyBackend.enqueue`: validate, build a NEW result, then either store it
    now or register the store for the commit. The caller receives a copy.
   */
  function Enqueue(s: DummyState, env: DbEnv, t: Task, id: string, args: seq<Json>,
                   kwargs: map<string, Json>, now: DateTime): (r: Result<(DummyState, TaskResult), TaskError>)
    ensures r.Err? <==> ValidateTask(s.backend, t).Fail?
    ensures r.Err? ==> r.error == Violations(s.backend, t)[0]
    ensures r.Ok? ==> var (s', res) := r.value;
      && res.task == t && res.id == id && res.status == New && res.backend == s.backend.alias
      && res.startedAt.None? && res.finishedAt.None? && s'.backend == s.backend
    ensures r.Ok? && EnqueueOnCommitFor(env, s.backend, t) ==> var (s', res) := r.value;
      && s'.results == s.results && s'.pendingCommit == s.pendingCommit + [res]
      && res.enqueuedAt.None?
    ensures r.Ok? && !EnqueueOnCommitFor(env, s.backend, t) ==> var (s', res) := r.value;
      && s'.results == s.results + [res] && s'.pendingCommit == s.pendingCommit
      && res.enqueuedAt == Some(now)
  {
    match ValidateTask(s.backend, t)
    case Fail(e) => Err(e)
    case Pass =>
      var result := NewResult(s.backend, t, id, args, kwargs);
      if EnqueueOnCommitFor(env, s.backend, t) then
        Ok((s.(pendingCommit := s.pendingCommit + [result]), result))
      else
        var s' := StoreResult(s, result, now);
        Ok((s', s'.results[|s'.results| - 1]))
  }

  /** The results the pending callbacks store, in registration order. */
  function Stamped(pending: seq<TaskResult>, now: DateTime): (r: seq<TaskResult>)
    ensures |r| == |pending|
    ensures forall i :: 0 <= i < |pending| ==> r[i] == pending[i].(enqueuedAt := Some(now))
  {
    if |pending| == 0 then [] else [pending[0].(enqueuedAt := Some(now))] + Stamped(pending[1..], now)
  }

  /** The transaction commits: every pending `_store_result` runs, in order. */
  function Commit(s: DummyState, now: DateTime): (s': DummyState)
    ensures s'.results == s.results + Stamped(s.pendingCommit, now)
    ensures s'.pendingCommit == [] && s'.backend == s.backend
    decreases |s.pendingCommit|
  {
    if |s.pendingCommit| == 0 then s
    else
      var s1 := StoreResult(s, s.pendingCommit[0], now).(pendingCommit := s.pendingCommit[1..]);
      CommitStep(s.results, s.pendingCommit, now);
      Commit(s1, now)
  }

  /** Storing the first pending result, then the rest, stores them all. */
  lemma CommitStep(results: seq<TaskResult>, pending: seq<TaskResult>, now: DateTime)
    requires |pending| > 0
    ensures (results + [pending[0].(enqueuedAt := Some(now))]) + Stamped(pending[1..], now)
      == results + Stamped(pending, now)
  {
    var first := pending[0].(enqueuedAt := Some(now));
    assert Stamped(pending, now) == [first] + Stamped(pending[1..], now);
  }

  /** The position of the first result with the given id (the `next(...)` generator). */
  function FindResult(results: seq<TaskResult>, id: string): (r: Option<nat>)
    ensures r.Some? ==> r.value < |results| && results[r.value].id == id
    ensures r.Some? ==> forall j :: 0 <= j < r.value ==> results[j].id != id
    ensures r.None? ==> forall j :: 0 <= j < |results| ==> results[j].id != id
  {
    if |results| == 0 then None
    else if results[0].id == id then Some(0)
    else
      match FindResult(results[1..], id)
      case None => None
      case Some(k) => Some(k + 1)
  }

  /** `DummyBackend.get_result`: the first stored result with that id. */
  function GetResult(s: DummyState, id: string): (r: Result<TaskResult, TaskError>)
    ensures r.Ok? ==> r.value.id == id
    ensures r.Ok? ==> exists i :: (0 <= i < |s.results| && s.results[i] == r.value
                                   && forall j :: 0 <= j < i ==> s.results[j].id != id)
    ensures r.Err? <==> forall j :: 0 <= j < |s.results| ==> s.results[j].id != id
    ensures r.Err? ==> r.error == ResultDoesNotExist(id)
  {
    match FindResult(s.results, id)
    case None => Err(ResultDoesNotExist(id))
    case Some(i) => Ok(s.results[i])
  }

  /** `TaskResult.refresh` against this backend. */
  function Refresh(s: DummyState, r: TaskResult): (r': Result<TaskResult, TaskError>)
    ensures r'.Err? <==> GetResult(s, r.id).Err?
    ensures r'.Ok? ==> RefreshAttrsAgree(r'.value, GetResult(s, r.id).value)
    ensures r'.Ok? ==> (r'.value.task == r.task && r'.value.id == r.id && r'.value.args == r.args
      && r'.value.kwargs == r.kwargs && r'.value.backend == r.backend)
  {
    var stored :- GetResult(s, r.id);
    Ok(CopyRefreshAttrs(r, stored))
  }

  /** `Task.get_result`: a stored result of a different task function does not count. */
  function TaskGetResult(s: DummyState, t: Task, id: string): (r: Result<TaskResult, TaskError>)
    ensures r.Ok? ==> r == GetResult(s, id) && r.value.task.func == t.func
    ensures GetResult(s, id).Ok? && GetResult(s, id).value.task.func != t.func ==> r == Err(ResultDoesNotExist(id))
    ensures GetResult(s, id).Err? ==> r == GetResult(s, id)
  {
    var result :- GetResult(s, id);
    if result.task.func != t.func then Err(ResultDoesNotExist(id)) else Ok(result)
  }

  /** `DummyBackend.clear` */
  function Clear(s: DummyState): (s': DummyState)
    ensures s'.results == [] && s'.backend == s.backend && s'.pendingCommit == s.pendingCommit
    ensures forall id :: GetResult(s', id) == Err(ResultDoesNotExist(id))
  {
    s.(results := [])
  }

  predicate FreshId(s: DummyState, id: string) {
    (forall j :: 0 <= j < |s.results| ==> s.results[j].id != id)
    && (forall j :: 0 <= j < |s.pendingCommit| ==> s.pendingCommit[j].id != id)
  }

  /** Lookup past a prefix that does not hold the id. */
  lemma FindResultPastPrefix(prefix: seq<TaskResult>, rest: seq<TaskResult>, id: string)
    requires forall j :: 0 <= j < |prefix| ==> prefix[j].id != id
    ensures FindResult(prefix + rest, id) ==
      (match FindResult(rest, id) case None => None case Some(k) => Some(|prefix| + k))
  {
    var all := prefix + rest;
    match FindResult(rest, id)
    case None =>
      assert forall j :: 0 <= j < |all| ==> all[j].id != id by {
        forall j | 0 <= j < |all| ensures all[j].id != id {
          if j >= |prefix| { assert all[j] == rest[j - |prefix|]; }
        }
      }
    case Some(k) =>
      assert all[|prefix| + k] == rest[k];
      assert FindResult(all, id).Some?;
  }

  /**
    Without a commit wait, the result `enqueue` returns is the one `get_result`
    finds under its id (the suite's `test_get_result`).
   */
  lemma EnqueueThenGetResult(s: DummyState, env: DbEnv, t: Task, id: string, args: seq<Json>,
                             kwargs: map<string, Json>, now: DateTime)
    requires FreshId(s, id)
    requires ValidateTask(s.backend, t).Pass? && !EnqueueOnCommitFor(env, s.backend, t)
    ensures var r := Enqueue(s, env, t, id, args, kwargs, now);
      r.Ok? && GetResult(r.value.0, id) == Ok(r.value.1)
  {
    var r := Enqueue(s, env, t, id, args, kwargs, now);
    var (s', res) := r.value;
    FindResultPastPrefix(s.results, [res], id);
  }

  /**
    With a commit wait, nothing is stored until the commit; afterwards a
    refresh of the returned copy picks up the `enqueued_at` stamp (the suite's
    `test_wait_until_transaction_by_default`).
   */
  lemma DeferredEnqueueVisibleAfterCommit(s: DummyState, env: DbEnv, t: Task, id: string, args: seq<Json>,
                                          kwargs: map<string, Json>, now: DateTime, commitTime: DateTime)
    requires FreshId(s, id) && s.pendingCommit == []
    requires ValidateTask(s.backend, t).Pass? && EnqueueOnCommitFor(env, s.backend, t)
    ensures var r := Enqueue(s, env, t, id, args, kwargs, now);
      && r.Ok? && r.value.0.results == s.results && r.value.1.enqueuedAt.None?
      && Refresh(Commit(r.value.0, commitTime), r.value.1) == Ok(r.value.1.(enqueuedAt := Some(commitTime)))
  {
    var r := Enqueue(s, env, t, id, args, kwargs, now);
    var (s', res) := r.value;
    var s'' := Commit(s', commitTime);
    assert s'.pendingCommit == [res];
    assert Stamped([res], commitTime) == [res.(enqueuedAt := Some(commitTime))];
    FindResultPastPrefix(s.results, [res.(enqueuedAt := Some(commitTime))], id);
  }

  /**
    The copy a caller holds does not follow later changes to the stored
    result until it is refreshed; after `refresh` it carries the stored status
    (the suite's `test_refresh_result`).
   */
  lemma RefreshSeesStoredChange(s: DummyState, i: nat, status: ResultStatus, held: TaskResult)
    requires i < |s.results| && s.results[i].id == held.id
    requires forall j :: 0 <= j < i ==> s.results[j].id != held.id
    ensures var s' := s.(results := s.results[i := s.results[i].(status := status)]);
      Refresh(s', held).Ok? && Refresh(s', held).value.status == status
  {
    var s' := s.(results := s.results[i := s.results[i].(status := status)]);
    FindResultPastPrefix(s'.results[..i], s'.results[i..], held.id);
    assert s'.results[..i] + s'.results[i..] == s'.results;
  }
}
