# Django core pieces, modelled in Dafny

This project models a set of small, self-contained pieces of the Django web
framework and proves properties of them. Each piece is a state machine, a
validator or a decision function. Clocks, databases, client libraries and
the template engine around each piece become parameters.

- **Background tasks** (`django/tasks/`). A `Task` is an immutable record,
  and `using` updates it functionally. `TaskResult` has a status-driven
  `return_value`, plus `exception`, `traceback` and a `refresh` that copies
  exactly six attributes. `validate_task` checks a task against its backend
  and raises the first failing check. `_get_enqueue_on_commit_for_task`
  resolves a three-level default. The dummy backend keeps a list of
  results. The immediate backend runs a task at once and moves its result
  from NEW to COMPLETE or FAILED. `transaction.on_commit` is a list of
  pending callbacks that `Commit` runs in order (modules `TaskData`,
  `TaskBackends`, `DummyTaskBackend`, `ImmediateTaskBackend`).
- **Template block resolution and tag arguments**
  (`django/template/loader_tags.py`). `BlockContext` maps block names to
  queues. Rendering a block pops it and pushes it back. `{% extends %}`
  adds the blocks of each level of a template chain. `construct_relative_path`
  normalises `./` and `../` names. `do_block`, `do_extends` and `do_include`
  check their arguments (modules `TemplateBlocks`, `TemplatePaths`,
  `TemplateTags`).
- **Memcached backend** (`django/core/cache/backends/memcached.py`). It
  covers server-string splitting, the conversion of timeouts around the
  30-day threshold, and key making. It also covers `get`/`set`/`add`/
  `delete`, `get_many`/`set_many`, and `incr`/`decr` with their sign swap
  and missing-key errors. The server is an abstract map from made keys to
  entries (module `MemcachedCache`).
- **Admin list filters** (`django/contrib/admin/filters.py`). The filter
  registry has a priority index, and `create` returns the first match. A
  filter's constructor moves its query parameters into `used_parameters`.
  The module also covers the `has_output` rules and the calendar arithmetic
  behind the "Today / Past 7 days / This month / This year" links (modules
  `AdminFilters`, `AdminDateFilter`).
- **PostgreSQL schema editor** (`django/db/backends/postgresql/schema.py`).
  It decides when the second `_like` index is created or dropped, when a
  `USING` cast is added, and how a serial type is rewritten into five
  statements (module `PgSchema`).
- **Small rule functions**:
  - `RelatedObject` accessor and cache names (`RelatedObjects`).
  - The lazy-field fetching modes and `lazy_mode` (`FetchingModes`).
  - The `shell` command's namespace and report (`ShellCommand`).
  - The deprecated-settings check (`SettingsDeprecation`).
  - The CSP view decorators (`CspDecorators`).
  - The deprecated `ordering` argument of the PostgreSQL aggregates
    (`AggregateOrdering`).

`Common` holds the shared pieces: `Option`, `Result`, string helpers,
ASCII lower-casing, decimal printing, and Python's `repr` of a string.

Integers are unbounded, as Python's `int` is, with one exception: the
memcached server keeps counters as unsigned 64-bit numbers, so `incr` wraps
modulo 2^64 and a counter or delta of 2^64 or more is refused. `timezone.now()`, `time.time()`, `uuid4()` and
whatever a client library reports (a write accepted, a missing key) are
parameters of the functions that use them.

## Model

| member | source | states |
|---|---|---|
| TaskData.ResolveRunAfter | django/tasks/task.py:89-93 | a `timedelta` is stored as the current time plus the delta (keeping its awareness); a datetime is stored as given |
| TaskData.ApplyUsing | django/tasks/task.py:83-97 | each of priority, queue name, backend and run_after takes the passed value when one is passed and keeps the original's otherwise; the function and `enqueue_on_commit` are never changed |
| TaskData.ApplyUsingNothingIsIdentity | django/tasks/task.py:83-97 | `using()` with no arguments gives back an equal task |
| TaskData.ApplyUsingChained | django/tasks/task.py:83-97 | a field set by one `using` call survives a later call that does not mention it |
| TaskData.ReturnValue | django/tasks/task.py:235-249 | a value exactly for COMPLETE, and then the stored one; FAILED raises "Task failed"; NEW and RUNNING raise "Task has not finished yet" |
| TaskData.Exception | django/tasks/task.py:216-222 | present exactly when the status is FAILED and exception data was recorded, and then it is that data |
| TaskData.Traceback | django/tasks/task.py:224-233 | present exactly when `exception` is, and then it is the recorded traceback text |
| TaskData.CopyRefreshAttrs | django/tasks/task.py:251-258 | afterwards the six refresh attributes equal the stored copy's, while task, id, args, kwargs and backend are the receiver's |
| TaskData.CopyRefreshAttrsLastWins | django/tasks/task.py:251-258 | refreshing twice leaves what refreshing once from the later copy leaves |
| TaskData.CopyRefreshAttrsFromSelf | django/tasks/task.py:251-258 | refreshing from a copy that already agrees changes nothing |
| TaskBackends.NewBackend | django/tasks/backends/base.py:27-32 | queues are the configured ones, or exactly `{"default"}` when none are configured; `enqueue_on_commit` holds unless configured false |
| TaskBackends.PriorityAcceptedIffWholeInRange | django/tasks/backends/base.py:66-74 | the priority test (out of range, or `int(p) != p` with truncation toward zero) accepts exactly the whole numbers from -100 to 100 |
| TaskBackends.ValidateTask | django/tasks/backends/base.py:54-85 | passes exactly when no check fails; on failure raises the error of the first failing check in source order (global function, async support, priority, defer support, awareness, queue membership) |
| TaskBackends.NonGlobalAlwaysRejected | django/tasks/backends/base.py:58-61 | a function that is not globally importable is refused with that message whatever else holds |
| TaskBackends.CoroutineRejectedUnlessAsync | django/tasks/backends/base.py:63-64 | a coroutine function is refused by a backend without async support, and judged like a plain function by one with it |
| TaskBackends.FindDisabled | django/tasks/backends/base.py:45-47 | the loop finds a disabled connection exactly when one exists |
| TaskBackends.EnqueueOnCommitFor | django/tasks/backends/base.py:34-52 | false without databases or with a disabled connection; otherwise the task's own boolean if it has one, else the backend's setting |
| TaskBackends.Check | django/tasks/backends/base.py:119-125 | exactly one error, with the fixed message and hint, when `enqueue_on_commit` is set and no databases are configured; none otherwise |
| TaskBackends.CleanCheckMeansNoDanglingOnCommit | django/tasks/backends/base.py:40-52 | when the check is clean, a task without its own setting waits for a commit only if databases exist |
| TaskBackends.GetBackend | django/tasks/task.py:145-148 | the backend configured under the alias, or `InvalidTaskBackend` for an unknown alias |
| TaskBackends.NewTask | django/tasks/task.py:61-62 | a task is constructed exactly when its backend exists and validates it; otherwise the error is the unknown alias or the first failed check |
| TaskBackends.DecorateTask | django/tasks/task.py:156-181 | an unknown backend alias raises `InvalidTaskBackend`; otherwise the task is built exactly when that backend's checks all pass, and a failure raises the first failed check; the built task keeps the function and the passed options, each omitted one defaulting to priority 0, queue and backend "default", and has no run_after |
| TaskBackends.Using | django/tasks/task.py:71-97 | the result is the functionally updated task, and succeeds exactly when that task passes its backend's validation |
| TaskBackends.UsingNothingReturnsEqualTask | django/tasks/task.py:83-97 | `using()` with no arguments on a valid task returns an equal task |
| TaskBackends.UsingBadPriorityFails | django/tasks/backends/base.py:66-74 | `using(priority=p)` with a fractional or out-of-range p fails with the priority message |
| TaskBackends.UsingGoodPrioritySucceeds | django/tasks/backends/base.py:66-74 | `using(priority=p)` with a whole p in range keeps a valid task valid and changes only its priority |
| DummyTaskBackend.NewDummyBackend | django/tasks/backends/dummy.py:19-22 | the base initialisation with an empty result list |
| DummyTaskBackend.NewResult | django/tasks/backends/dummy.py:32-42 | the new result is NEW, carries the task, id, arguments and backend alias, and has no timestamps, return value or exception |
| DummyTaskBackend.StoreResult | django/tasks/backends/dummy.py:24-27 | appends the result stamped with `enqueued_at`, and nothing else changes |
| DummyTaskBackend.Enqueue | django/tasks/backends/dummy.py:29-50 | an invalid task raises the first failed check and stores nothing; a valid one returns a NEW result that is appended, stamped, at once when not waiting for a commit, and otherwise only registered for the commit |
| DummyTaskBackend.Stamped | django/tasks/backends/dummy.py:24-26 | the pending results in order, each with `enqueued_at` set to the commit time |
| DummyTaskBackend.Commit | django/tasks/backends/dummy.py:44-45 | committing appends every pending result in registration order, stamped, and empties the pending list |
| DummyTaskBackend.FindResult | django/tasks/backends/dummy.py:55 | the position of the first result with the id, or none when no result has it |
| DummyTaskBackend.GetResult | django/tasks/backends/dummy.py:53-57 | the earliest stored result with that id; `ResultDoesNotExist` exactly when none has it |
| DummyTaskBackend.Refresh | django/tasks/task.py:251-258 | fails exactly when the id is unknown; otherwise the six refresh attributes come from the stored result and the identity fields stay |
| DummyTaskBackend.TaskGetResult | django/tasks/task.py:111-121 | a stored result of another task function is reported as not existing; otherwise the backend's answer |
| DummyTaskBackend.Clear | django/tasks/backends/dummy.py:59-60 | no result remains, so every lookup fails |
| DummyTaskBackend.FindResultPastPrefix | django/tasks/backends/dummy.py:55 | a lookup passes over a prefix that does not hold the id |
| DummyTaskBackend.EnqueueThenGetResult | django/tasks/backends/dummy.py:44-57 | without a commit wait, `get_result` under the new id returns the result `enqueue` returned |
| DummyTaskBackend.DeferredEnqueueVisibleAfterCommit | django/tasks/backends/dummy.py:44-50 | with a commit wait nothing is stored until the commit; afterwards refreshing the returned copy adds exactly the `enqueued_at` stamp |
| DummyTaskBackend.RefreshSeesStoredChange | django/tasks/backends/dummy.py:49-50 | a caller's copy picks up a later change of the stored status only through `refresh` |
| ImmediateTaskBackend.ExecuteTask | django/tasks/backends/immediate.py:22-62 | `enqueued_at` then `started_at` are set before the call; a return gives COMPLETE with the value, an exception gives FAILED with the exception data when it could be recorded, both with `finished_at`; a keyboard interrupt escapes with the result half-updated |
| ImmediateTaskBackend.Enqueue | django/tasks/backends/immediate.py:64-84 | an invalid task raises the first failed check; a valid one runs at once (ending COMPLETE or FAILED, or propagating a keyboard interrupt) unless it waits for a commit, when the result handed back is NEW without timestamps and is the one queued for the commit |
| ImmediateTaskBackend.DeferredResultUpdatedByCommit | django/tasks/backends/immediate.py:22-84 | the result handed back while waiting is the last queued execution; once the commit reaches it, the same result object carries the enqueue and start times and ends COMPLETE or FAILED with a finish time, or stays NEW on a keyboard interrupt |
| ImmediateTaskBackend.Commit | django/tasks/backends/immediate.py:79-80 | the pending executions run in registration order, and a keyboard interrupt stops the ones after it |
| ImmediateTaskBackend.ReturnedValueIsReadable | django/tasks/backends/immediate.py:36-43 | after a normal return, `return_value` gives the returned value |
| ImmediateTaskBackend.RaisedExceptionIsReadable | django/tasks/backends/immediate.py:44-57 | after a recorded exception, `return_value` raises "Task failed" and `exception` and `traceback` give what was recorded |
| ImmediateTaskBackend.UnrecordedExceptionFailsWithoutData | django/tasks/backends/immediate.py:50-55 | an exception that could not be recorded still fails the task, which then reports no exception |
| ImmediateTaskBackend.TimestampsOrdered | django/tasks/backends/immediate.py:26-59 | with a clock that does not run backwards, enqueued, started and finished times are in order |
| TemplateBlocks.AddBlocks | django/template/loader_tags.py:29-31 | each given block goes to the front of its name's queue; every other queue is unchanged |
| TemplateBlocks.Pop | django/template/loader_tags.py:33-37 | removes and returns the last block of the queue, or returns None and changes nothing when the queue is empty; other queues are untouched |
| TemplateBlocks.Push | django/template/loader_tags.py:39-40 | appends to the named queue only |
| TemplateBlocks.GetBlock | django/template/loader_tags.py:42-46 | the block `pop` would return, without removing it; None exactly for an empty queue |
| TemplateBlocks.PushThenPop | django/template/loader_tags.py:33-40 | a pushed block is the next one popped, and that pop restores every queue |
| TemplateBlocks.PopThenPush | django/template/loader_tags.py:33-40 | pushing back a popped block restores the context exactly |
| TemplateBlocks.RenderBlock | django/template/loader_tags.py:56-73 | a render that does not raise leaves the block context as it found it |
| TemplateBlocks.RenderPopped | django/template/loader_tags.py:63-72 | rendering the most derived block pops it and pushes it back, so a successful render restores the context |
| TemplateBlocks.RenderNodes | django/template/loader_tags.py:61 | rendering a node list in order leaves the block context as it was unless a node raises |
| TemplateBlocks.RenderNode | django/template/loader_tags.py:75-85 | `{{ block.super }}` renders the next block of that name, nothing when there is none, and raises outside a block context; the context is restored on success |
| TemplateBlocks.OverrideIgnoresPlaceholderBody | django/template/loader_tags.py:63-70 | once the context holds a block of that name, the placeholder's own body does not affect the output |
| TemplateBlocks.ExtendsRender | django/template/loader_tags.py:151-170 | the extending template's blocks are added first, then the parent's blocks only when the parent's first non-text node is not an `extends` |
| TemplateBlocks.RenderChainAddsAll | django/template/loader_tags.py:151-170 | rendering a chain of templates level by level adds every level's blocks, child first |
| TemplateBlocks.AddChainQueues | django/template/loader_tags.py:29-31 | after a chain is added, each queue holds the chain's blocks of that name base first, in front of what it held |
| TemplateBlocks.ChildBlockPoppedFirst | django/template/loader_tags.py:29-37 | from an empty context the first pop returns the most derived template's block, and the rest of the chain remains for `{{ block.super }}` |
| TemplatePaths.NormPathDotsFirst | django/template/loader_tags.py:264-269 | in the normalised name, `..` components can only form a prefix |
| TemplatePaths.CheckResolvedAsWritten | django/template/loader_tags.py:271-283 | a resolved name starting with `../` or equal to the template's own name without leading slashes is refused; any other is returned in double quotes |
| TemplatePaths.ConstructRelativePathAsWritten | django/template/loader_tags.py:253-283 | a name that is not a quoted `./` or `../` path is returned unchanged; a relative one is resolved against the template's directory and checked as written |
| TemplatePaths.ResolvesToParent | django/template/loader_tags.py:264-269 | from the top-level template `index.html`, `'../'` resolves to `..` |
| TemplatePaths.AsWrittenAcceptsParentDirectory | django/template/loader_tags.py:271-275 | the code as written accepts `'../'` in a top-level template and returns `".."`, which names the parent of the loader root |
| TemplatePaths.ChecksLetParentThrough | django/template/loader_tags.py:271-283 | the checks as written let the resolved name `..` through |
| TemplatePaths.CheckResolved | django/template/loader_tags.py:271-283 | the checks with the corrected containment test refuse exactly `..`, names starting with `../`, and the template's own name |
| TemplatePaths.ConstructRelativePath | django/template/loader_tags.py:253-283 | corrected: a non-relative name is unchanged; an accepted relative name never contains a `..` component and is never the template itself; whatever the code as written refuses is refused too |
| TemplatePaths.EscapesOnlyThroughLeadingDots | django/template/loader_tags.py:264-271 | a normalised name has a `..` component exactly when it is `..` or starts with `../`, so the corrected test is exact |
| TemplateTags.DoBlock | django/template/loader_tags.py:224-250 | accepted exactly when the tag has one argument, the name is new to this parser, and the closing tag is `endblock` or `endblock <name>`; each refusal raises its own error, checked in that order; an accepted name is recorded |
| TemplateTags.LoadedStayDistinct | django/template/loader_tags.py:236-241 | the block names a parser records stay distinct |
| TemplateTags.SecondBlockRejected | django/template/loader_tags.py:237-238 | once a block name is accepted, the same parser refuses it again whatever closing tag follows |
| TemplateTags.DoExtends | django/template/loader_tags.py:286-306 | exactly one argument, resolved against the template's name by the code as written (its error comes first), and no second `extends` in the rest of the template; otherwise the matching error; the parent is the as-written resolved name |
| TemplateTags.ExtendsAcceptsParentDirectory | django/template/loader_tags.py:299-301 | `{% extends '../' %}` in the top-level `index.html` is accepted with the parent `".."`, as the code is written |
| TemplateTags.ExtendsParentName | django/template/loader_tags.py:301 | a plain parent name passes through unchanged; a relative one is quoted, stays below the loader root unless it is `..` itself, and is not the template itself |
| TemplateTags.WordRun | django/template/loader_tags.py:340 | the length of the leading run of word characters, and it is maximal |
| TemplateTags.KwargRun | django/template/loader_tags.py:340 | `token_kwargs` consumes exactly the leading bits of the form `name=value` |
| TemplateTags.Kwargs | django/template/loader_tags.py:340 | every consumed bit's name is a key, and the last bit's value wins for its name |
| TemplateTags.KwargsKeysFromBits | django/template/loader_tags.py:340 | every key of the mapping is the name of a consumed bit |
| TemplateTags.DoInclude | django/template/loader_tags.py:309-355 | fewer than two bits raise the at-least-one-argument error; a bad option list raises its error, then an unresolvable name raises the path error; an accepted tag's template expression is the name resolved by the code as written |
| TemplateTags.IncludeAcceptsParentDirectory | django/template/loader_tags.py:348-352 | `{% include '../' %}` in the top-level `index.html` is accepted with the template `".."`, as the code is written |
| TemplateTags.ParseOptionsAcceptsValid | django/template/loader_tags.py:332-349 | the option loop accepts exactly the lists in which every bit is `with`, `only` or a keyword argument following `with`, `with` is followed by at least one keyword argument, and neither option appears twice |
| TemplateTags.ParsedOptionsMeaning | django/template/loader_tags.py:339-350 | after an accepted loop, `only` is set exactly when listed, and the `with` mapping is the one read after the listed `with` |
| TemplateTags.IncludeAcceptedIff | django/template/loader_tags.py:326-352 | `do_include` accepts exactly a template name that the code as written resolves, followed by a valid option list |
| TemplateTags.IncludeOptionsMeaning | django/template/loader_tags.py:350-355 | `isolated_context` is true exactly when `only` is listed; the extra context is empty without `with` and otherwise the mapping that follows it |
| MemcachedCache.Servers | django/core/cache/backends/memcached.py:25-28 | a server string is split at every `;` and `,`, giving at least one piece with no separator in it; a list of servers is kept as given |
| MemcachedCache.ServersRoundTrip | django/core/cache/backends/memcached.py:25-26 | servers joined with either separator are recovered exactly |
| MemcachedCache.EffectiveTimeout | django/core/cache/backends/memcached.py:54-55 | an omitted timeout is the cache's default; `None` and a number pass through |
| MemcachedCache.GetBackendTimeout | django/core/cache/backends/memcached.py:49-74 | `None` becomes 0 (never expire) and 0 becomes -1 (expire at once) |
| MemcachedCache.BackendTimeoutKeepsMeaning | django/core/cache/backends/memcached.py:57-74 | the memcached server reads the converted timeout with Django's meaning: `None` never expires, zero or negative expires at once, and a positive timeout, beyond 30 days included, expires that many seconds from now |
| MemcachedCache.ZeroOnlyForNoTimeout | django/core/cache/backends/memcached.py:57-74 | the converted timeout is 0 exactly when the effective timeout is `None` |
| MemcachedCache.MakeKey | django/core/cache/backends/memcached.py:77 | a made key ends with `:` followed by the caller's key |
| MemcachedCache.MakeKeyInjective | django/core/cache/backends/memcached.py:95-97 | two keys under one prefix and version give the same made key only when they are equal, which `get_many` relies on to map answers back |
| MemcachedCache.Set | django/core/cache/backends/memcached.py:84-88 | an accepted write stores the value with the server expiry of the converted timeout (never, or that many seconds from now); a refused one deletes the key; no other key changes |
| MemcachedCache.Get | django/core/cache/backends/memcached.py:80-82 | the value of a live entry under the made key; an absent or expired entry gives the default |
| MemcachedCache.NoStaleValueAfterSet | django/core/cache/backends/memcached.py:86-88 | after `set`, a read at any later time gives the new value while its timeout has not run out and the default afterwards, never an older value |
| MemcachedCache.NonPositiveTimeoutReadsDefault | django/core/cache/backends/memcached.py:57-74 | after `set` with a zero or negative timeout, even a read at the same instant gives the default |
| MemcachedCache.StoredValueReadBack | django/core/cache/backends/memcached.py:80-88 | after an accepted `set` with no timeout or a positive one, a read before that many seconds pass gives the new value |
| MemcachedCache.Add | django/core/cache/backends/memcached.py:76-78 | `add` writes exactly when no live entry is under the made key (an expired one counts as absent) and says whether it did; a live key is left alone |
| MemcachedCache.AddThenGet | django/core/cache/backends/memcached.py:76-82 | a successful `add` with a positive timeout is read back at once; a failed one leaves the earlier live value readable |
| MemcachedCache.Delete | django/core/cache/backends/memcached.py:90-92 | the made key is gone and every other key is unchanged |
| MemcachedCache.DeleteMany | django/core/cache/backends/memcached.py:149-150 | every given key is gone and every other key is unchanged |
| MemcachedCache.Clear | django/core/cache/backends/memcached.py:152-153 | the store is empty |
| MemcachedCache.KeyMap | django/core/cache/backends/memcached.py:95 | every caller key has its made key in the map, and every entry maps a made key back to the caller key that made it |
| MemcachedCache.GetManyByCallerKeys | django/core/cache/backends/memcached.py:94-97 | a caller key is in the answer exactly when it is one of the keys asked for and holds a live entry, and its value is the stored one |
| MemcachedCache.OriginalKeys | django/core/cache/backends/memcached.py:141-145 | every item's made key maps back to a caller key that made it |
| MemcachedCache.SetMany | django/core/cache/backends/memcached.py:139-147 | the failed keys come back as the caller's keys, in the library's order; every item that did not fail is stored with the converted timeout |
| MemcachedCache.FailedOriginals | django/core/cache/backends/memcached.py:147 | each failed made key is translated back to a caller key that makes it |
| MemcachedCache.WriteItems | django/core/cache/backends/memcached.py:146 | the items not reported as failed are written, and no key outside the items changes |
| MemcachedCache.LibraryCount | django/core/cache/backends/memcached.py:107-109 | the library's counter operation: a missing or expired key is reported the library's way; a non-numeric value, a counter or delta of 2^64 or more is an error; `incr` adds modulo 2^64 and `decr` subtracts without going below zero, keeping the expiration |
| MemcachedCache.IncrementWraps | django/core/cache/backends/memcached.py:103-119 | `incr` on the counter 2^64 - 1 by 1 gives 0: the server counter is unsigned 64-bit |
| MemcachedCache.Converted | django/core/cache/backends/memcached.py:115-118 | the library's not-found exception and a `None` answer both become `ValueError("Key '…' not found")` |
| MemcachedCache.IncrAsWritten | django/core/cache/backends/memcached.py:103-119 | a negative delta goes to the library's `decr` outside the not-found conversion; a non-negative delta behaves as the corrected `incr` |
| MemcachedCache.DecrAsWritten | django/core/cache/backends/memcached.py:121-137 | the mirror image of `incr` as written |
| MemcachedCache.AsWrittenSkipsNotFoundConversion | django/core/cache/backends/memcached.py:106-107 | as written, `incr(key, -1)` on a missing key returns `None` or lets the library's exception escape instead of raising `ValueError` |
| MemcachedCache.Incr | django/core/cache/backends/memcached.py:103-119 | a missing or expired key raises `ValueError` whatever the library does; a counter becomes `n + delta` modulo 2^64, or floored at zero for a negative delta, with its expiration kept |
| MemcachedCache.Decr | django/core/cache/backends/memcached.py:121-137 | a missing or expired key raises `ValueError`; a counter becomes `n - delta` floored at zero, or `n + |delta|` modulo 2^64 for a negative delta |
| MemcachedCache.NegativeDeltaSwaps | django/core/cache/backends/memcached.py:105-107 | `incr(k, -d)` is `decr(k, d)` for every delta |
| MemcachedCache.AsWrittenAgreesWithoutMissingKey | django/core/cache/backends/memcached.py:103-137 | on a present key the code as written and the corrected operations give the same answer |
| AdminFilters.Register | django/contrib/admin/filters.py:141-151 | a priority registration is inserted at the priority index, which moves one place on, with the entries before and after it kept; any other registration is appended and leaves the index alone |
| AdminFilters.RegisterAll | django/contrib/admin/filters.py:141-151 | each call adds exactly one entry, and the priority index stays within the list |
| AdminFilters.RegisterAllOrders | django/contrib/admin/filters.py:142-151 | whatever the order of the calls, the list holds every priority registration, in call order, ahead of every other one, in call order, and the priority index is the number of priority registrations |
| AdminFilters.PriorityStep | django/contrib/admin/filters.py:143-149 | a priority registration goes right after the earlier priority entries |
| AdminFilters.OrdinaryStep | django/contrib/admin/filters.py:150-151 | any other registration goes at the end |
| AdminFilters.FirstMatch | django/contrib/admin/filters.py:155-157 | the position of the first entry whose test accepts the field, and none exactly when no test does |
| AdminFilters.Create | django/contrib/admin/filters.py:153-159 | the class of the first entry whose test accepts the field, and None exactly when no test accepts it |
| AdminFilters.AlwaysTrueShadows | django/contrib/admin/filters.py:152-158 | once an always-true test is in the list, `create` finds a class at or before it for every field |
| AdminFilters.EntriesOf | django/contrib/admin/filters.py:224-410 | the entries of the registrations, in call order |
| AdminFilters.NoPriorityInOrder | django/contrib/admin/filters.py:150-151 | without priority registrations the list is the entries in call order |
| AdminFilters.FirstMatchIs | django/contrib/admin/filters.py:155-159 | the loop stops at the first accepting entry |
| AdminFilters.DefaultEntries | django/contrib/admin/filters.py:224-410 | the module's five registrations give the five entries in order, with no priority entry |
| AdminFilters.DefaultCreate | django/contrib/admin/filters.py:224-410 | with the built-in registrations every field gets a filter: related, then boolean, then choices, then date, and all-values for the rest |
| AdminFilters.PriorityOverrides | django/contrib/admin/filters.py:141-158 | a priority registration made after the built-ins wins for every field its test accepts, and other fields keep their built-in filter |
| AdminFilters.FirstMatchPastHead | django/contrib/admin/filters.py:155-157 | an entry that rejects the field only shifts the match by one |
| AdminFilters.LateOrdinaryUnreachable | django/contrib/admin/filters.py:410 | a registration without priority made after the built-ins is never chosen |
| AdminFilters.Consume | django/contrib/admin/filters.py:127-130 | the expected parameters present in `params` move to `used_parameters`, prepared; the rest of `params` stays as it was |
| AdminFilters.SimpleInit | django/contrib/admin/filters.py:25-77 | no title raises the title error first, then no `parameter_name` raises its own; otherwise the parameter, if present, moves from `params` to `used_parameters` unchanged, and missing lookups become an empty list |
| AdminFilters.SimpleValue | django/contrib/admin/filters.py:82-88 | `value()` is the string the request gave for the parameter, and absent otherwise |
| AdminFilters.SimpleValueIff | django/contrib/admin/filters.py:71-88 | after construction `value()` is None exactly when the request lacked the parameter, and `has_output` holds exactly when there are lookup choices |
| AdminFilters.Prepare | django/contrib/admin/filters.py:163-375 | each built-in filter expects the parameter names its constructor derives from the field path, and starts with no used parameters |
| AdminFilters.WithUsed | django/contrib/admin/filters.py:127-130 | recording the used parameters changes neither the expected names nor `has_output` |
| AdminFilters.FieldInit | django/contrib/admin/filters.py:121-176 | a date filter whose windows leave the calendar fails first; otherwise construction succeeds exactly when the field has a title; on success the expected parameters present move to `used_parameters`, prepared, and the others stay in `params` |
| AdminFilters.RelatedHasOutputIff | django/contrib/admin/filters.py:179-192 | a related-field filter has output exactly when its choices plus the "(None)" choice of a nullable or many-to-many field number at least two |
| AdminFilters.OtherFiltersHaveOutput | django/contrib/admin/filters.py:132-133 | every other built-in field filter has output |
| AdminFilters.ConsumePartitions | django/contrib/admin/filters.py:127-130 | parameters are moved, never lost or invented: what stays and what is used are disjoint and together make up the request's parameters |
| AdminDateFilter.DaysBeforeYear | django/contrib/admin/filters.py:307-312 | the reference count of days before a year is at least 365 per earlier year |
| AdminDateFilter.YearStep | django/contrib/admin/filters.py:309-312 | a year's first day comes the year's length after the previous year's first day |
| AdminDateFilter.MonthStep | django/contrib/admin/filters.py:311 | a month's first day comes the month's length after the previous month's first day |
| AdminDateFilter.LastMonth | django/contrib/admin/filters.py:309 | the twelve months fill the year exactly |
| AdminDateFilter.StepAcrossMonth | django/contrib/admin/filters.py:307 | the last day of a month is followed by the first of the next month |
| AdminDateFilter.StepAcrossYear | django/contrib/admin/filters.py:307 | December 31 is followed by January 1 of the next year |
| AdminDateFilter.NextDay | django/contrib/admin/filters.py:307 | `today + 1 day` is the valid date one day later, and fails only on 9999-12-31 |
| AdminDateFilter.PrevDay | django/contrib/admin/filters.py:323 | one day back is the valid date one day earlier, and fails only on 0001-01-01 |
| AdminDateFilter.MinusDays | django/contrib/admin/filters.py:323 | `today - n days` is the valid date `n` days earlier, and fails exactly when that would precede 0001-01-01 |
| AdminDateFilter.FirstDay | django/contrib/admin/filters.py:323 | no valid date precedes 0001-01-01 |
| AdminDateFilter.FirstOfMonth | django/contrib/admin/filters.py:327 | `today.replace(day=1)` is the same month's first day, `day - 1` days earlier |
| AdminDateFilter.FirstOfYear | django/contrib/admin/filters.py:331 | `today.replace(month=1, day=1)` is the first day of the same year |
| AdminDateFilter.NextMonth | django/contrib/admin/filters.py:308-311 | the first of the following month, December rolling to January of the next year, one month's length after the first of this month; only December of 9999 fails, with `year 10000 is out of range` |
| AdminDateFilter.NextYear | django/contrib/admin/filters.py:312 | January 1 of the next year, one year's length after the first of this one; fails exactly in year 9999 |
| AdminDateFilter.Windows | django/contrib/admin/filters.py:303-334 | the four windows exist exactly for dates from 0001-01-08 to 9998-12-31; on 9999-12-31 and in the first week `OverflowError("date value out of range")` is raised, on any other day of 9999 `ValueError("year 10000 is out of range")` |
| AdminDateFilter.WindowsOkIff | django/contrib/admin/filters.py:303-334 | construction fails exactly for dates in the first week of 0001-01 or in the year 9999, by the calendar rather than by day counts |
| AdminDateFilter.WindowsContainToday | django/contrib/admin/filters.py:316-333 | every window contains today, and they last one day, eight days, the month and the year |
| AdminDateFilter.MonthWindowContainsToday | django/contrib/admin/filters.py:326-329 | "This month" contains today and lasts the month |
| AdminDateFilter.YearWindowContainsToday | django/contrib/admin/filters.py:330-333 | "This year" contains today and lasts the year |
| AdminDateFilter.WindowsValid | django/contrib/admin/filters.py:316-333 | every window is made of valid dates |
| AdminDateFilter.LastMonthBound | django/contrib/admin/filters.py:331-332 | a date's day of the year never exceeds the year's length |
| AdminDateFilter.Links | django/contrib/admin/filters.py:314-334 | "Any date" with no parameters, then "Today", "Past 7 days", "This month" and "This year", each setting exactly `<path>__gte` to its window's first day and `<path>__lt` to the day after its last; built exactly when the windows are, with their error otherwise |
| AdminDateFilter.LinksOf | django/contrib/admin/filters.py:316-334 | five links: "Any date" with no parameters, then the four titled links in order, each setting exactly its window's two bounds |
| AdminDateFilter.WindowLink | django/contrib/admin/filters.py:318-333 | the link has the given title and sets exactly `<path>__gte` to the window's first day and `<path>__lt` to the day after its last, as `str` prints them |
| AdminDateFilter.DateParams | django/contrib/admin/filters.py:293-295 | exactly the request's parameters whose names start with `<path>__`, with their values |
| AdminDateFilter.Selected | django/contrib/admin/filters.py:341-348 | a link is selected exactly when the date parameters equal its parameters |
| AdminDateFilter.AnyDateSelectedIff | django/contrib/admin/filters.py:317-344 | "Any date" is selected exactly when the request has no parameter under the field's path |
| PgSchema.StripQuotes | django/db/backends/postgresql/schema.py:114-117 | one pair of surrounding double quotes is dropped, and a name not in quotes is kept |
| PgSchema.QuoteName | django/db/backends/postgresql/schema.py:122-130 | the result is always in double quotes |
| PgSchema.StripQuoteRoundTrip | django/db/backends/postgresql/schema.py:114-130 | stripping undoes quoting for a name that does not start with a quote |
| PgSchema.BaseDataTypes | django/db/backends/postgresql/schema.py:62-67 | an array field yields exactly one base data type |
| PgSchema.Innermost | django/db/backends/postgresql/schema.py:64-67 | the innermost base field of nested arrays is not itself an array |
| PgSchema.BaseDataTypesInnermost | django/db/backends/postgresql/schema.py:62-67 | however deep the nesting, the base data type is the innermost element's data type |
| PgSchema.ArrayCastIff | django/db/backends/postgresql/schema.py:107-110 | between two array fields the `USING` cast is added exactly when the innermost element types differ |
| PgSchema.AlterColumnType | django/db/backends/postgresql/schema.py:102-112 | the statement starts `ALTER COLUMN <column> TYPE <type>` and is longer exactly when the cast is added |
| PgSchema.SerialStatements | django/db/backends/postgresql/schema.py:127-166 | exactly five statements, in order: drop the sequence, create it, set the column default, `setval`, and `OWNED BY` |
| PgSchema.Statement | django/db/backends/postgresql/schema.py:10-13 | a statement starts with its keywords, followed by the rest |
| PgSchema.AlterColumnTypeSql | django/db/backends/postgresql/schema.py:101-182 | the cast decision always reaches the fragment: a new serial type, in any case, becomes its integer type plus the five sequence statements; otherwise the fragment is `ALTER COLUMN <column> TYPE <type>` with the cast, plus one drop of `<table>_<column>_seq` exactly when leaving a serial type |
| PgSchema.GenericAlterColumnType | django/db/backends/postgresql/schema.py:101-112 | the generic builder fills the template just set: a fragment starting `ALTER COLUMN <column> TYPE <type>` and no other statement |
| PgSchema.ArrayAlterCastsIff | django/db/backends/postgresql/schema.py:107-112 | changing an array column to a type that is not serial casts exactly when the innermost element types differ |
| PgSchema.SerialCaseInsensitive | django/db/backends/postgresql/schema.py:116-123 | the serial pseudo-types are recognised whatever their case |
| PgSchema.SerialThereAndBack | django/db/backends/postgresql/schema.py:116-180 | the sequence created when a column becomes serial is the one dropped when it later stops being serial |
| PgSchema.SerialToInteger | django/db/backends/postgresql/schema.py:115 | `serial` maps to `integer`, and `integer` is not a serial type |
| PgSchema.CreateIndexTemplate | django/db/backends/postgresql/schema.py:15-22 | the create template starts `CREATE INDEX`, and with `CONCURRENTLY` exactly when asked |
| PgSchema.DeleteIndexTemplate | django/db/backends/postgresql/schema.py:23-24 | the drop template starts `DROP INDEX`, and with `CONCURRENTLY` exactly when asked |
| PgSchema.LikeIndex | django/db/backends/postgresql/schema.py:69-99 | a `_like` index is requested exactly for an indexed or unique column whose type starts `varchar` or `text` and has no `[`, with the matching operator class and the non-concurrent template |
| PgSchema.FieldIndexes | django/db/backends/postgresql/schema.py:47-52 | the generic indexes unchanged, followed by the `_like` index exactly when there is one |
| PgSchema.AlterField | django/db/backends/postgresql/schema.py:184-210 | the generic alteration always runs; the `_like` index is dropped first exactly when an indexed column leaves the varchar, text or citext family, created exactly when an index or unique was added and the new type needs one, and dropped last exactly when unique went with no index left |
| PgSchema.NeverCreateAndDrop | django/db/backends/postgresql/schema.py:201-210 | after the generic step the `_like` index is created or dropped, never both |
| RelatedObjects.Name | django/db/models/related.py:30 | the name is the app label, a colon, and the model name |
| RelatedObjects.NameSplits | django/db/models/related.py:30-31 | when the app label has no colon, the name splits at its first colon into the app label and `var_name` |
| RelatedObjects.Front | django/db/models/related.py:73-76 | classifies the front of a `%` template: a character other than `%` is copied as itself, and every supported piece is consumed |
| RelatedObjects.FormatNames | django/db/models/related.py:73-76 | a template without `%` is returned unchanged |
| RelatedObjects.FrontModelName | django/db/models/related.py:74 | a template starting with `%(model_name)s` starts with that key |
| RelatedObjects.FrontAppLabel | django/db/models/related.py:75 | a template starting with `%(app_label)s` starts with that key |
| RelatedObjects.FormatModelNameFirst | django/db/models/related.py:73-74 | a `%(model_name)s` at the front is replaced by the model name and the rest is formatted on |
| RelatedObjects.FormatAppLabelFirst | django/db/models/related.py:73-75 | a `%(app_label)s` at the front is replaced by the app label and the rest is formatted on |
| RelatedObjects.FormatLiteralFirst | django/db/models/related.py:73-76 | a character other than `%` at the front is copied and the rest is formatted on |
| RelatedObjects.FormatModelNameAlone | django/db/models/related.py:73-76 | the template `%(model_name)s` alone gives the model name |
| RelatedObjects.FormatKeysJoined | django/db/models/related.py:73-76 | the two keys joined by any character other than `%` give the app label and model name joined by it |
| RelatedObjects.FormatUsualTemplate | django/db/models/related.py:73-76 | `%(app_label)s_%(model_name)s` gives the app label, `_`, and the model name |
| RelatedObjects.AccessorName | django/db/models/related.py:61-79 | none exactly for a symmetrical many-to-many of a model onto itself; else a set `related_name`; else, for a single object, the model name; else the formatted `default_related_name`, which alone can fail; else `<model_name>_set` |
| RelatedObjects.SymmetricalSelfHasNoAccessor | django/db/models/related.py:67-69 | a symmetrical many-to-many of a model onto itself has no accessor, whatever names are declared |
| RelatedObjects.DefaultRelatedNameAccessor | django/db/models/related.py:72-76 | with the usual `default_related_name` the accessor is the lower-cased app label and model name joined by `_` |
| RelatedObjects.CacheName | django/db/models/related.py:81-82 | the cache name is `_<accessor>_cache`, `_None_cache` for no accessor, and fails exactly when the accessor does |
| RelatedObjects.CacheNameRoundTrip | django/db/models/related.py:81-82 | the accessor is read back by dropping the leading `_` and trailing `_cache` |
| RelatedObjects.Choices | django/db/models/related.py:41-47 | the blank choice comes first when asked for, then the rows, unchanged |
| RelatedObjects.ChoicesWithoutBlank | django/db/models/related.py:41-47 | without the blank choice the choices are exactly the rows |
| RelatedObjects.EditableFields | django/db/models/related.py:54-56 | a field is kept exactly when it is one of the model's fields or many-to-many fields, editable, and not the relation's own field; the kept plain fields come first in declaration order, then the kept many-to-many fields in theirs |
| FetchingModes.Current | django/db/models/fields/fetching.py:63-64 | the thread's override when one is set, else the process default |
| FetchingModes.SetDefault | django/db/models/fields/fetching.py:40-44 | a callable becomes the default and leaves the override alone; anything else raises `TypeError("mode must be callable.")` and changes nothing |
| FetchingModes.SetDefaultVisibleOutsideBlocks | django/db/models/fields/fetching.py:40-44 | a new default is what `get_fetching_mode` returns only where no `lazy_mode` block is active |
| FetchingModes.Enter | django/db/models/fields/fetching.py:48-53 | a non-callable mode raises `TypeError` before any state changes; otherwise the mode becomes current, the default is untouched, and the override it replaced is saved |
| FetchingModes.Exit | django/db/models/fields/fetching.py:56-60 | leaving the block puts back exactly the saved override, deleting it when there was none, and keeps the default as it stands |
| FetchingModes.ExitRestores | django/db/models/fields/fetching.py:52-60 | whatever the body did to the override, and whether or not it raised, leaving the block restores the override it found and keeps the body's changes to the default |
| FetchingModes.NestedBlocks | django/db/models/fields/fetching.py:47-60 | in nested blocks the inner mode applies inside, the outer one after it, and the state after both is the state before |
| FetchingModes.OutermostExitUsesDefault | django/db/models/fields/fetching.py:57-64 | after the outermost block, `get_fetching_mode` falls back to the default as it stands at that moment |
| FetchingModes.LivePeers | django/db/models/fields/fetching.py:12-16 | the live peers are exactly the weak references that still resolve |
| FetchingModes.LivePeersAppend | django/db/models/fields/fetching.py:12-16 | the live peers of two runs of references are those of the first run followed by those of the second |
| FetchingModes.LivePeersSingle | django/db/models/fields/fetching.py:12-16 | a reference still alive contributes its instance and a collected one nothing; with LivePeersAppend this fixes the order |
| FetchingModes.Apply | django/db/models/fields/fetching.py:6-33 | `FETCH_ONE` fetches the instance alone; `FETCH_PEERS` fetches the live peers, or the instance alone when peers are not tracked; `RAISE`, and only it, raises `LazyFieldAccess` naming the class and field |
| CspDecorators.Apply | django/views/decorators/csp.py:6-83 | `csp_enforced` and `csp_report_only` set their own policy attribute on the view's response; `csp_exempt` sets to `True` exactly the flags it was asked for; no other attribute changes |
| CspDecorators.ExemptDefaultNoop | django/views/decorators/csp.py:52-58 | `@csp_exempt()` with the default arguments leaves the response as it was |
| CspDecorators.ApplyIdempotent | django/views/decorators/csp.py:6-83 | applying a decorator twice marks the response as applying it once |
| CspDecorators.EnforcedAndReportOnlyIndependent | django/views/decorators/csp.py:13-37 | stacked enforced and report-only decorators set both policies, in either order, and nothing else |
| CspDecorators.OuterPolicyWins | django/views/decorators/csp.py:20-22 | of two stacked policies of one kind, the outer decorator's is the one left on the response |
| CspDecorators.ExemptionsAccumulate | django/views/decorators/csp.py:53-57 | two stacked exemptions set the union of their flags |
| ShellCommand.Assign | django/core/management/commands/shell.py:155-157 | dict assignment: the value is stored, a new key goes last and an existing key keeps its place |
| ShellCommand.InsertModels | django/core/management/commands/shell.py:153-155 | every namespace entry from the models is a model class stored under its own class name |
| ShellCommand.FirstNamed | django/core/management/commands/shell.py:146-155 | the first model of `get_models()` with a given class name and a module, absent exactly when there is none |
| ShellCommand.EarliestModelWins | django/core/management/commands/shell.py:153-155 | because the models are inserted in reverse, a class name is in the namespace exactly when some model with a module bears it, and it maps to the earliest such model |
| ShellCommand.ModulesKeys | django/core/management/commands/shell.py:147-151 | the `<label>_models` names are exactly those of the apps that have a models module |
| ShellCommand.InsertModules | django/core/management/commands/shell.py:156-157 | the namespace gains exactly the `<label>_models` keys, and model entries not shadowed by one keep their values |
| ShellCommand.ModulesEntryIff | django/core/management/commands/shell.py:145-158 | an app's `<label>_models` entry exists exactly when the app has a models module, barring a model class of that name |
| ShellCommand.OwnModulesKey | django/core/management/commands/shell.py:147-151 | an app's `<label>_models` name is listed exactly when it has a models module |
| ShellCommand.ReportedEntries | django/core/management/commands/shell.py:128-134 | the reported entries are exactly the model classes whose qualified name has no dot, each with its module |
| ShellCommand.GroupCollects | django/core/management/commands/shell.py:127-136 | each module's list holds exactly the reported names from that module, in namespace order, and every such module has a list |
| ShellCommand.Report | django/core/management/commands/shell.py:118-143 | the namespace is returned unchanged; nothing is written below verbosity 1, the object count at 1, and from 2 on one `from <module> import <names>` line per module in order of first appearance |
| ShellCommand.ChooseShell | django/core/management/commands/shell.py:176-185 | the requested interface alone, or IPython, bpython and plain Python in order, is tried; the first that imports is started, and when none does the error names the last one tried |
| ShellCommand.FirstImportable | django/core/management/commands/shell.py:180-185 | succeeds exactly when some candidate imports, with the first such candidate |
| ShellCommand.NoInterfaceFailureNamesPython | django/core/management/commands/shell.py:177-185 | with no interface requested, failure always names plain Python |
| SettingsDeprecation.WarningFor | django/core/checks/settings_deprecation.py:69-74 | every warning has id `settings.W001`, the fixed hint, and a message starting "You still use " |
| SettingsDeprecation.PlainMessage | django/core/checks/settings_deprecation.py:71 | for a plain name the message quotes it in single quotes, as `repr` does |
| SettingsDeprecation.FlaggedMembers | django/core/checks/settings_deprecation.py:67-68 | a name is flagged exactly when it is an attribute of the settings and in the deprecated tuple |
| SettingsDeprecation.Warnings | django/core/checks/settings_deprecation.py:66-77 | one warning per flagged attribute, in the order the attributes are enumerated |
| SettingsDeprecation.DeprecatedSettingsVariables | django/core/checks/settings_deprecation.py:5-77 | every warning is a `settings.W001` warning, and there are none exactly when no attribute is in the deprecated tuple |
| SettingsDeprecation.FlaggedAppend | django/core/checks/settings_deprecation.py:67 | warnings follow the enumeration order: the names flagged in two runs of attributes are those of the first run, then those of the second |
| SettingsDeprecation.FlaggedEmptyIff | django/core/checks/settings_deprecation.py:67-68 | nothing is flagged exactly when no attribute is deprecated |
| SettingsDeprecation.FlaggedOnce | django/core/checks/settings_deprecation.py:67-68 | attributes come from a dict, so each deprecated attribute is warned about once |
| SettingsDeprecation.MembershipOnly | django/core/checks/settings_deprecation.py:10-68 | the test is membership: tuples with the same names, in any order and with any repetitions, give the same warnings |
| SettingsDeprecation.RepeatedNameHarmless | django/core/checks/settings_deprecation.py:30-58 | the names the tuple lists twice give no second warning |
| SettingsDeprecation.TransactionsManagedWarns | django/core/checks/settings_deprecation.py:67-75 | settings holding `TRANSACTIONS_MANAGED` and no other deprecated name give exactly one warning |
| AggregateOrdering.Init | django/contrib/postgres/aggregates/mixins.py:7-19 | both orderings given raise `TypeError`; `ordering` alone becomes `order_by` with one deprecation warning; otherwise `order_by` passes through silently; expressions and extra arguments are passed on unchanged |
| AggregateOrdering.OrderingSameAsOrderBy | django/contrib/postgres/aggregates/mixins.py:11-19 | an ordering passed as `ordering` reaches the parent exactly as one passed as `order_by` |
| AggregateOrdering.DefaultsPassEmpty | django/contrib/postgres/aggregates/mixins.py:7-19 | with the defaults the parent gets an empty `order_by` and nothing warns |
| AggregateOrdering.FirstDefined | django/contrib/postgres/aggregates/mixins.py:23 | attribute lookup finds the first base, left to right, that defines `allow_order_by`, and none when no base does |
| AggregateOrdering.DefineClass | django/contrib/postgres/aggregates/mixins.py:22-32 | a class warns exactly when one of its bases is or derives from `OrderableAggMixin`; its own `allow_order_by` wins over the inherited one |
| AggregateOrdering.MixinFirstAllowsOrderBy | django/contrib/postgres/aggregates/mixins.py:23-31 | an aggregate listing the mixin first warns once and allows `order_by` |
| AggregateOrdering.ChainFromMixin | django/contrib/postgres/aggregates/mixins.py:22-32 | every class of a chain of subclasses below the mixin warns once, and the last still allows `order_by` |

## Left out

- Async twins are not modelled: `aenqueue`, `aget_result`, `acall` and `arefresh` of the tasks, and the coroutine branch of each CSP decorator. Each only awaits the synchronous logic that is modelled.
- `Task.call`, `Task.enqueue` and `module_path` are not modelled. They call the function, forward to the backend, or read Python's import machinery.
- Signals, logging, `import_string` backend loading and check registration are not modelled. Neither are `json_normalize` and `exception_to_dict`: a task's return value and its exception data are opaque values here.
- Django's `transaction.on_commit` also runs a callback at once outside an atomic block. The transaction module is not part of this model, so the "wait for a commit" decision is an input.
- asgiref's `Local` is modelled as a single slot: the fetching-mode override of one thread.
- TaskBackends.DecorateTask: an explicit `None` for priority, queue or backend is treated as the option being omitted, so the default is used. The source passes an explicit `None` on to `Task`.
- FetchingModes.Apply: requires a built-in mode. A project's own callable mode is named but its behaviour cannot be seen.
- Template rendering beyond the block context is not modelled: variable resolution, `IncludeNode.render`, `ExtendsNode.find_template`/`get_parent` and the loaders. Node output is an input.
- `token_kwargs` lives in `django/template/base.py`, which is not part of this model. It is modelled as consuming the leading bits of the form `name=value`, with `name` made of ASCII word characters.
- TemplateTags.DoExtends, TemplateTags.DoInclude: the tags follow the code as written, so they accept a relative name that normalises to `..`; the corrected check is stated separately (see Findings).
- TemplateTags.WordRun: `\w` is taken as ASCII letters, digits and `_`. Python's `\w` also matches other Unicode letters.
- Common.Lower: ASCII only, as are every use of it (`new_type.lower()` in the schema editor, the names in `default_related_name`).
- RelatedObjects.FormatNames: supports plain text, `%%`, `%(model_name)s` and `%(app_label)s`. Any other `%` conversion is an error here, whereas Python's `%` formatting would accept some of them.
- `get_choices`' `limit_to_currently_related` and the query behind the rows are ORM work; the rows are an input. `get_db_prep_lookup`, `get_path_info` and `__repr__` only forward to the field.
- Memcached network code is not modelled: the `__get` wire protocol, socket retries, client construction, pickling, `close` and `touch`. Server eviction under memory pressure is not modelled either: an entry lives until its expiry, it is deleted, or the cache is cleared.
- MemcachedCache.GetBackendTimeout: covers whole-second timeouts only; float timeouts are not modelled.
- `make_key` uses Django's default key function, `prefix:version:key`. A project's own `KEY_FUNCTION` and key validation warnings are not modelled.
- The PostgreSQL editor's statement builders are opaque: `_create_index_sql`, `_delete_index_sql`, `_create_index_name` and `_alter_field`. The model records the request made of them.
- PgSchema.GenericAlterColumnType: the generic `_alter_column_type_sql` in django/db/backends/base/schema.py is not part of this model. It is taken as filling `sql_alter_column_type` with the quoted column and the new type and adding no statements; the base editor's handling of collations and comments is not modelled.
- `quote_value` (psycopg2 adaptation), `_index_columns`, `add_index`, `remove_index` and SQL execution are not modelled.
- PgSchema.QuoteName: models the backend's `quote_name`, which is not part of this model, as keeping a name already in double quotes and quoting any other.
- PgSchema.StripQuotes: models `strip_quotes` from `django/db/backends/utils.py`, which is not part of this model.
- `RelatedOnlyFieldListFilter`, `AllValuesFieldListFilter`'s queryset, every `queryset()` and `choices()` query string, and translated titles are ORM or UI work and are not modelled.
- `prepare_lookup_value` is not part of this model; a used field parameter records the key and raw value it was prepared from.
- AdminFilters.Register: the registry is one list. A subclass that assigns its own `_take_priority_index` would shadow the class attribute, and that is not modelled.
- `timezone.localtime` and the time zone itself are not modelled. The local date and its UTC offset are inputs.
- The interactive shells are not modelled: IPython, bpython, `code.interact`, readline, PYTHONSTARTUP files, and the `-c` and stdin paths that `exec` code. Whether an interface imports is an input.
- `vars(settings)` is an input: the attribute names in enumeration order.
- AggregateOrdering.Init: orderings are sequences, and Python truthiness is "non-empty".
- AggregateOrdering.DefineClass: attribute lookup is modelled as the first base that defines `allow_order_by`, left to right. This is the MRO for the single-inheritance and mixin-first hierarchies the lemmas use, not full C3 linearisation.
- The test module for the settings check imports `check_deprecated_settings` (tests/check_framework/test_settings_deprecation.py:2). The module defines only `deprecated_settings_variables` (django/core/checks/settings_deprecation.py:5). The model follows the module.
- `lazy_mode` raises `TypeError("on_delete must be callable.")` (django/db/models/fields/fetching.py:50). The text names the wrong argument; the model keeps it as written.

## Findings

| source | as written | input that shows it | evidently intended | confidence | as-written member | corrected member |
|---|---|---|---|---|---|---|
| django/template/loader_tags.py:271-275 | only a normalised name starting with `../` is refused | `{% include '../' %}` in the top-level template `index.html` normalises to `..` and is returned as `".."` | every name that leaves the loader root is refused, `..` itself included | not executed | TemplatePaths.AsWrittenAcceptsParentDirectory | TemplatePaths.ConstructRelativePath |
| django/core/cache/backends/memcached.py:103-119 | a negative delta goes straight to the library, outside the not-found conversion | `incr("missing", -1)` returns the library's `None`, or lets its own not-found exception escape | a missing key raises `ValueError` whatever the sign of the delta | not executed | MemcachedCache.AsWrittenSkipsNotFoundConversion | MemcachedCache.Incr |
