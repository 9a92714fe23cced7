/**
  The registry and parameter logic of the admin list filters in
  `django/contrib/admin/filters.py`. `FieldListFilter` keeps one class-wide
  list of `(test, filter class)` pairs: a registration that takes priority
  goes in at the priority index, which then moves one place on, and any
  other registration is appended; `create` picks the first pair whose test
  accepts the field. A filter's constructor moves the query parameters it
  expects from the request's `params` into its own `used_parameters`.
 */
module AdminFilters {
  import opened Common
  import AdminDateFilter

  // ---- fields ----

  /** The field classes the built-in tests tell apart. */
  datatype FieldClass =
    | BooleanField
    | NullBooleanField
    | DateField
    | DateTimeField       // a subclass of DateField
    | OtherField(name: string)

  /**
    A field's `verbose_name` as `getattr` sees it: reverse relations have no
    such attribute at all, and a model field's may still be None.
   */
  datatype VerboseName = NoAttribute | NoneValue | Named(name: string)

  datatype Field = Field(
    cls: FieldClass,
    remoteField: bool,        // `f.remote_field` is truthy
    hasChoices: bool,         // `bool(f.choices)`
    nullable: bool,           // `f.null`
    isRelation: bool,
    manyToMany: bool,
    verboseName: VerboseName,
    targetFieldName: string   // `f.target_field.name`, used by relations
  )

  // ---- the registry ----

  /** The tests registered with `FieldListFilter.register`. */
  datatype FieldTest =
    | HasRemoteField                 // lambda f: f.remote_field
    | IsBooleanField                 // isinstance(f, (BooleanField, NullBooleanField))
    | HasChoices                     // lambda f: bool(f.choices)
    | IsDateField                    // isinstance(f, DateField)
    | AlwaysTrue                     // lambda f: True
    | AcceptsClasses(classes: set<FieldClass>)   // a project's own test, by field class

  predicate Accepts(t: FieldTest, f: Field) {
    match t
    case HasRemoteField => f.remoteField
    case IsBooleanField => f.cls == BooleanField || f.cls == NullBooleanField
    case HasChoices => f.hasChoices
    case IsDateField => f.cls == DateField || f.cls == DateTimeField
    case AlwaysTrue => true
    case AcceptsClasses(classes) => f.cls in classes
  }

  datatype BuiltinFilter =
    | RelatedFieldListFilter
    | BooleanFieldListFilter
    | ChoicesFieldListFilter
    | DateFieldListFilter
    | AllValuesFieldListFilter

  datatype FilterClass = Builtin(b: BuiltinFilter) | Custom(name: string)

  datatype Entry = Entry(test: FieldTest, filter: FilterClass)

  /** `_field_list_filters` and `_take_priority_index`. */
  datatype Registry = Registry(entries: seq<Entry>, priorityIndex: nat) {
    predicate Valid() {
      priorityIndex <= |entries|
    }
  }

  const Empty: Registry := Registry([], 0)

  /** `FieldListFilter.register(test, list_filter_class, take_priority)` */
  function Register(reg: Registry, e: Entry, takePriority: bool): (r: Registry)
    requires reg.Valid()
    ensures r.Valid() && |r.entries| == |reg.entries| + 1
    ensures takePriority ==> (r.priorityIndex == reg.priorityIndex + 1
      && r.entries[reg.priorityIndex] == e
      && r.entries[..reg.priorityIndex] == reg.entries[..reg.priorityIndex]
      && r.entries[reg.priorityIndex + 1..] == reg.entries[reg.priorityIndex..])
    ensures !takePriority ==> (r.priorityIndex == reg.priorityIndex
      && r.entries[..|reg.entries|] == reg.entries && r.entries[|reg.entries|] == e)
  {
    if takePriority then
      var p := reg.priorityIndex;
      Registry(reg.entries[..p] + [e] + reg.entries[p..], p + 1)
    else
      Registry(reg.entries + [e], reg.priorityIndex)
  }

  /** One call of `register`. */
  datatype Registration = Registration(entry: Entry, takePriority: bool)

  /** The registry after the calls in `regs`, in order, from an empty one. */
  function RegisterAll(regs: seq<Registration>): (r: Registry)
    ensures r.Valid() && |r.entries| == |regs|
    decreases |regs|
  {
    if regs == [] then Empty
    else
      var last := regs[|regs| - 1];
      Register(RegisterAll(regs[..|regs| - 1]), last.entry, last.takePriority)
  }

  /** The entries of the registrations that asked for priority, in call order. */
  function Prioritised(regs: seq<Registration>): seq<Entry>
    decreases |regs|
  {
    if regs == [] then []
    else
      var last := regs[|regs| - 1];
      Prioritised(regs[..|regs| - 1]) + (if last.takePriority then [last.entry] else [])
  }

  /** The entries of the other registrations, in call order. */
  function Ordinary(regs: seq<Registration>): seq<Entry>
    decreases |regs|
  {
    if regs == [] then []
    else
      var last := regs[|regs| - 1];
      Ordinary(regs[..|regs| - 1]) + (if last.takePriority then [] else [last.entry])
  }

  /**
    Whatever the order of the calls, the registry holds every priority
    registration, in call order, ahead of every other one, in call order;
    the priority index sits right after the last priority entry.
   */
  lemma {:induction false} RegisterAllOrders(regs: seq<Registration>)
    ensures RegisterAll(regs).entries == Prioritised(regs) + Ordinary(regs)
    ensures RegisterAll(regs).priorityIndex == |Prioritised(regs)|
    decreases |regs|
  {
    if regs != [] {
      var init := regs[..|regs| - 1];
      var last := regs[|regs| - 1];
      RegisterAllOrders(init);
      var prev := RegisterAll(init);
      var p := Prioritised(init);
      var o := Ordinary(init);
      assert RegisterAll(regs) == Register(prev, last.entry, last.takePriority);
      if last.takePriority {
        assert Prioritised(regs) == p + [last.entry] && Ordinary(regs) == o + [];
        assert o + [] == o;
        PriorityStep(prev, p, o, last.entry);
      } else {
        assert Prioritised(regs) == p + [] && Ordinary(regs) == o + [last.entry];
        assert p + [] == p;
        OrdinaryStep(prev, p, o, last.entry);
      }
    }
  }

  /** A priority registration goes right after the earlier priority entries. */
  lemma PriorityStep(prev: Registry, p: seq<Entry>, o: seq<Entry>, e: Entry)
    requires prev.entries == p + o && prev.priorityIndex == |p|
    ensures Register(prev, e, true) == Registry(p + [e] + o, |p| + 1)
  {
    assert prev.entries[..|p|] == p && prev.entries[|p|..] == o;
  }

  /** Any other registration goes at the end. */
  lemma OrdinaryStep(prev: Registry, p: seq<Entry>, o: seq<Entry>, e: Entry)
    requires prev.entries == p + o && prev.priorityIndex == |p|
    ensures Register(prev, e, false) == Registry(p + (o + [e]), |p|)
  {
    assert (p + o) + [e] == p + (o + [e]);
  }

  /**
    The position of the first entry whose test accepts `f`: the loop of
    `create`.
   */
  function FirstMatch(entries: seq<Entry>, f: Field): (r: Option<nat>)
    ensures r.Some? ==> (r.value < |entries| && Accepts(entries[r.value].test, f)
      && forall j :: 0 <= j < r.value ==> !Accepts(entries[j].test, f))
    ensures r.None? <==> forall j :: 0 <= j < |entries| ==> !Accepts(entries[j].test, f)
    decreases |entries|
  {
    if entries == [] then None
    else if Accepts(entries[0].test, f) then Some(0)
    else
      match FirstMatch(entries[1..], f)
      case None => None
      case Some(i) => Some(i + 1)
  }

  /**
    `FieldListFilter.create`: the filter class chosen for `f`, or None when
    no test accepts it (and `create` falls off its loop).
   */
  function Create(reg: Registry, f: Field): (r: Option<FilterClass>)
    ensures r.Some? <==> exists j :: 0 <= j < |reg.entries| && Accepts(reg.entries[j].test, f)
    ensures r.Some? ==> exists j :: (0 <= j < |reg.entries| && reg.entries[j].filter == r.value
      && Accepts(reg.entries[j].test, f)
      && forall k :: 0 <= k < j ==> !Accepts(reg.entries[k].test, f))
  {
    match FirstMatch(reg.entries, f)
    case None => None
    case Some(i) => Some(reg.entries[i].filter)
  }

  /**
    Once an always-true test is in the list, `create` never returns None,
    and nothing registered behind it (later, without priority) is ever
    chosen.
   */
  lemma AlwaysTrueShadows(entries: seq<Entry>, k: nat, f: Field)
    requires k < |entries| && entries[k].test == AlwaysTrue
    ensures FirstMatch(entries, f).Some? && FirstMatch(entries, f).value <= k
  {
  }

  /** The five registrations the module makes, in the order it makes them. */
  const DefaultRegistrations: seq<Registration> := [
    Registration(Entry(HasRemoteField, Builtin(RelatedFieldListFilter)), false),
    Registration(Entry(IsBooleanField, Builtin(BooleanFieldListFilter)), false),
    Registration(Entry(HasChoices, Builtin(ChoicesFieldListFilter)), false),
    Registration(Entry(IsDateField, Builtin(DateFieldListFilter)), false),
    Registration(Entry(AlwaysTrue, Builtin(AllValuesFieldListFilter)), false)
  ]

  /** The filter the built-in registrations pick, written as the order of preference. */
  function DefaultChoice(f: Field): BuiltinFilter {
    if f.remoteField then RelatedFieldListFilter
    else if f.cls == BooleanField || f.cls == NullBooleanField then BooleanFieldListFilter
    else if f.hasChoices then ChoicesFieldListFilter
    else if f.cls == DateField || f.cls == DateTimeField then DateFieldListFilter
    else AllValuesFieldListFilter
  }

  /** The entries of `regs`, in call order. */
  function EntriesOf(regs: seq<Registration>): (r: seq<Entry>)
    ensures |r| == |regs| && forall i :: 0 <= i < |regs| ==> r[i] == regs[i].entry
  {
    seq(|regs|, i requires 0 <= i < |regs| => regs[i].entry)
  }

  /** Without priority registrations, the registry is the entries in call order. */
  lemma {:induction false} NoPriorityInOrder(regs: seq<Registration>)
    requires forall i :: 0 <= i < |regs| ==> !regs[i].takePriority
    ensures RegisterAll(regs) == Registry(EntriesOf(regs), 0)
    decreases |regs|
  {
    if regs != [] {
      var init := regs[..|regs| - 1];
      NoPriorityInOrder(init);
      assert EntriesOf(init) + [regs[|regs| - 1].entry] == EntriesOf(regs);
    }
  }

  /** `create` stops at position `k` when it is the first that accepts. */
  lemma FirstMatchIs(entries: seq<Entry>, f: Field, k: nat)
    requires k < |entries| && Accepts(entries[k].test, f)
    requires forall j :: 0 <= j < k ==> !Accepts(entries[j].test, f)
    ensures FirstMatch(entries, f) == Some(k)
  {
    assert Accepts(entries[k].test, f);
  }

  /** The built-in registry, entry by entry. */
  lemma DefaultEntries()
    ensures RegisterAll(DefaultRegistrations) == Registry(EntriesOf(DefaultRegistrations), 0)
    ensures |EntriesOf(DefaultRegistrations)| == 5
  {
    NoPriorityInOrder(DefaultRegistrations);
  }

  /**
    With only the built-in registrations, every field gets a filter: a
    relation first, then a boolean, a field with choices, a date, and the
    all-values filter for the rest.
   */
  lemma DefaultCreate(f: Field)
    ensures Create(RegisterAll(DefaultRegistrations), f) == Some(Builtin(DefaultChoice(f)))
  {
    DefaultEntries();
    var es := EntriesOf(DefaultRegistrations);
    var k := if f.remoteField then 0
      else if f.cls == BooleanField || f.cls == NullBooleanField then 1
      else if f.hasChoices then 2
      else if f.cls == DateField || f.cls == DateTimeField then 3
      else 4;
    FirstMatchIs(es, f, k);
  }

  /**
    A project's priority registration overrides the built-ins for every
    field its test accepts, even when registered after them; other fields
    keep their built-in filter.
   */
  lemma PriorityOverrides(e: Entry, f: Field)
    ensures Create(Register(RegisterAll(DefaultRegistrations), e, true), f)
      == if Accepts(e.test, f) then Some(e.filter) else Some(Builtin(DefaultChoice(f)))
  {
    DefaultEntries();
    var es := EntriesOf(DefaultRegistrations);
    var after := Register(RegisterAll(DefaultRegistrations), e, true);
    assert after.entries == [e] + es by {
      assert after.entries == es[..0] + [e] + es[0..];
    }
    if !Accepts(e.test, f) {
      DefaultCreate(f);
      FirstMatchPastHead(e, es, f);
    }
  }

  /** An entry that rejects the field only shifts where the match is found. */
  lemma FirstMatchPastHead(e: Entry, es: seq<Entry>, f: Field)
    requires !Accepts(e.test, f)
    ensures FirstMatch([e] + es, f) == match FirstMatch(es, f) case None => None case Some(k) => Some(k + 1)
  {
    assert ([e] + es)[1..] == es;
  }

  /**
    A registration without priority made after the built-ins is never
    chosen: the always-true entry ahead of it accepts every field.
   */
  lemma LateOrdinaryUnreachable(e: Entry, f: Field)
    ensures Create(Register(RegisterAll(DefaultRegistrations), e, false), f)
      == Some(Builtin(DefaultChoice(f)))
  {
    DefaultCreate(f);
    DefaultEntries();
    var es := EntriesOf(DefaultRegistrations);
    var after := Register(RegisterAll(DefaultRegistrations), e, false);
    assert after.entries[..5] == es;
    var k := FirstMatch(es, f).value;
    FirstMatchIs(after.entries, f, k);
  }

  // ---- parameter consumption ----

  /**
    A value moved into `used_parameters`: `SimpleListFilter` keeps the raw
    string, field filters store `prepare_lookup_value(key, value)`, whose
    definition is not part of this model.
   */
  datatype UsedValue = Raw(value: string) | Prepared(key: string, value: string)

  /**
    The loop `for p in expected: if p in params: used[p] = prepare(p,
    params.pop(p))`.
   */
  function Consume(params: map<string, string>, expected: seq<string>, used: map<string, UsedValue>)
    : (r: (map<string, string>, map<string, UsedValue>))
    ensures r.0.Keys == params.Keys - Names(expected)
    ensures forall k :: k in r.0 ==> r.0[k] == params[k]
    ensures r.1.Keys == used.Keys + (params.Keys * Names(expected))
    ensures forall k :: k in r.1 ==>
      r.1[k] == if k in params.Keys * Names(expected) then Prepared(k, params[k]) else used[k]
    decreases |expected|
  {
    if expected == [] then (params, used)
    else
      var p, rest := expected[0], expected[1..];
      assert Names(expected) == {p} + Names(rest);
      assert forall k :: k in expected <==> k == p || k in rest;
      if p in params then
        Consume(params - {p}, rest, used[p := Prepared(p, params[p])])
      else
        Consume(params, rest, used)
  }

  /** The names in `expected`, as a set. */
  function Names(expected: seq<string>): set<string> {
    set p | p in expected
  }

  // ---- ListFilter and SimpleListFilter ----

  datatype FilterError =
    | ImproperlyConfigured(msg: string)
    | DateOutOfRange(error: AdminDateFilter.DateError)

  function MsgNoTitle(className: string): string {
    "The list filter '" + className + "' does not specify a 'title'."
  }

  function MsgNoParameterName(className: string): string {
    "The list filter '" + className + "' does not specify a 'parameter_name'."
  }

  /**
    A constructed `SimpleListFilter`; `lookups` is what the subclass's
    `lookups()` returned (None becomes the empty list).
   */
  datatype SimpleFilter = SimpleFilter(
    parameterName: string,
    used: map<string, UsedValue>,
    lookupChoices: seq<(string, string)>)

  /**
    `SimpleListFilter.__init__`: the title check of `ListFilter` first,
    then `parameter_name`; the parameter, when present, moves from `params`
    into `used_parameters` untouched.
   */
  function SimpleInit(className: string, title: Option<string>, parameterName: Option<string>,
                      params: map<string, string>, lookups: Option<seq<(string, string)>>)
    : (r: Result<(SimpleFilter, map<string, string>), FilterError>)
    ensures title.None? ==> r == Err(ImproperlyConfigured(MsgNoTitle(className)))
    ensures title.Some? && parameterName.None? ==> r == Err(ImproperlyConfigured(MsgNoParameterName(className)))
    ensures r.Ok? <==> title.Some? && parameterName.Some?
    ensures r.Ok? ==> (
      var (f, rest) := r.value;
      var p := parameterName.value;
      && f.parameterName == p
      && rest.Keys == params.Keys - {p}
      && (forall k :: k in rest ==> rest[k] == params[k])
      && (f.used.Keys == if p in params then {p} else {})
      && (p in params ==> f.used[p] == Raw(params[p]))
      && f.lookupChoices == lookups.GetOr([]))
  {
    if title.None? then Err(ImproperlyConfigured(MsgNoTitle(className)))
    else if parameterName.None? then Err(ImproperlyConfigured(MsgNoParameterName(className)))
    else
      var p := parameterName.value;
      if p in params then
        Ok((SimpleFilter(p, map[p := Raw(params[p])], lookups.GetOr([])), params - {p}))
      else
        Ok((SimpleFilter(p, map[], lookups.GetOr([])), params))
  }

  /** `SimpleListFilter.value()` */
  function SimpleValue(f: SimpleFilter): (r: Option<string>)
    ensures r.Some? <==> f.parameterName in f.used && f.used[f.parameterName].Raw?
  {
    if f.parameterName in f.used && f.used[f.parameterName].Raw? then
      Some(f.used[f.parameterName].value)
    else None
  }

  /** `SimpleListFilter.has_output()` */
  predicate SimpleHasOutput(f: SimpleFilter) {
    |f.lookupChoices| > 0
  }

  /**
    After construction, `value()` is None exactly when the request did not
    carry the filter's parameter, and otherwise is the request's string.
   */
  lemma SimpleValueIff(className: string, title: Option<string>, parameterName: Option<string>,
                       params: map<string, string>, lookups: Option<seq<(string, string)>>)
    requires SimpleInit(className, title, parameterName, params, lookups).Ok?
    ensures var f := SimpleInit(className, title, parameterName, params, lookups).value.0;
      && (SimpleValue(f).None? <==> parameterName.value !in params)
      && (SimpleValue(f).Some? ==> SimpleValue(f).value == params[parameterName.value])
      && (SimpleHasOutput(f) <==> lookups.Some? && |lookups.value| > 0)
  {
  }

  // ---- the field filters ----

  /**
    A constructed field filter, one variant per built-in class, each with
    the parameter names its `__init__` computes from the field path.
   */
  datatype FieldFilter =
    | RelatedFilter(title: string, used: map<string, UsedValue>, lookupKwarg: string,
                    lookupKwargIsnull: string, lookupChoices: seq<(string, string)>, includeEmptyChoice: bool)
    | BooleanFilter(title: string, used: map<string, UsedValue>, lookupKwarg: string, lookupKwarg2: string)
    | ChoicesFilter(title: string, used: map<string, UsedValue>, lookupKwarg: string)
    | DateFilter(title: string, used: map<string, UsedValue>, lookupKwargSince: string,
                 lookupKwargUntil: string, links: seq<AdminDateFilter.Link>, dateParams: map<string, string>)
    | AllValuesFilter(title: string, used: map<string, UsedValue>, lookupKwarg: string, lookupKwargIsnull: string)

  /** `expected_parameters()` of each class. */
  function Expected(f: FieldFilter): seq<string> {
    match f
    case RelatedFilter(_, _, kw, kwIsnull, _, _) => [kw, kwIsnull]
    case BooleanFilter(_, _, kw, kw2) => [kw, kw2]
    case ChoicesFilter(_, _, kw) => [kw]
    case DateFilter(_, _, since, until, _, _) => [since, until]
    case AllValuesFilter(_, _, kw, kwIsnull) => [kw, kwIsnull]
  }

  /**
    `has_output()`: a related-field filter needs more than one choice,
    counting the "(None)" choice that a nullable field or a many-to-many
    relation adds; every other field filter always has output.
   */
  predicate HasOutput(f: FieldFilter) {
    match f
    case RelatedFilter(_, _, _, _, choices, includeEmpty) =>
      |choices| + (if includeEmpty then 1 else 0) > 1
    case _ => true
  }

  /** What a field filter's constructor reads besides the field, path and parameters. */
  datatype Environment = Environment(
    today: AdminDateFilter.Date,        // the local date of `timezone.now()`
    utcOffset: Option<string>,          // its UTC offset when time zone support is on
    otherModelVerboseName: string,      // `other_model._meta.verbose_name` of a relation
    relatedChoices: seq<(string, string)>)   // `field.get_choices(include_blank=False)`

  /** `getattr(field, 'verbose_name', field_path)`, checked by `ListFilter.__init__`. */
  function Title(f: Field, fieldPath: string): Option<string> {
    match f.verboseName
    case NoAttribute => Some(fieldPath)
    case NoneValue => None
    case Named(n) => Some(n)
  }

  /** The class name in the `ImproperlyConfigured` message. */
  function ClassName(b: BuiltinFilter): string {
    match b
    case RelatedFieldListFilter => "RelatedFieldListFilter"
    case BooleanFieldListFilter => "BooleanFieldListFilter"
    case ChoicesFieldListFilter => "ChoicesFieldListFilter"
    case DateFieldListFilter => "DateFieldListFilter"
    case AllValuesFieldListFilter => "AllValuesFieldListFilter"
  }

  /** The expected parameter names of each class, from the field path. */
  function ExpectedFor(b: BuiltinFilter, f: Field, fieldPath: string): seq<string> {
    match b
    case RelatedFieldListFilter => [fieldPath + "__" + f.targetFieldName + "__exact", fieldPath + "__isnull"]
    case BooleanFieldListFilter => [fieldPath + "__exact", fieldPath + "__isnull"]
    case ChoicesFieldListFilter => [fieldPath + "__exact"]
    case DateFieldListFilter => [fieldPath + "__gte", fieldPath + "__lt"]
    case AllValuesFieldListFilter => [fieldPath, fieldPath + "__isnull"]
  }

  /** `str(today)` for a `DateTimeField` is midnight with the offset; for a `DateField` the date. */
  function DateKind(f: Field, env: Environment): AdminDateFilter.FieldKind {
    if f.cls == DateTimeField then AdminDateFilter.DateTimeAt(env.utcOffset)
    else AdminDateFilter.DateOnly
  }

  /** The field filter before the parameters are consumed, or the date error its `__init__` raises first. */
  function Prepare(b: BuiltinFilter, f: Field, fieldPath: string, params: map<string, string>,
                   env: Environment, title: string): (r: Result<FieldFilter, FilterError>)
    requires AdminDateFilter.ValidDate(env.today)
    ensures r.Ok? ==> Expected(r.value) == ExpectedFor(b, f, fieldPath) && r.value.used == map[]
  {
    match b
    case RelatedFieldListFilter =>
      Ok(RelatedFilter(title, map[], fieldPath + "__" + f.targetFieldName + "__exact", fieldPath + "__isnull",
                       env.relatedChoices, f.nullable || (f.isRelation && f.manyToMany)))
    case BooleanFieldListFilter =>
      Ok(BooleanFilter(title, map[], fieldPath + "__exact", fieldPath + "__isnull"))
    case ChoicesFieldListFilter =>
      Ok(ChoicesFilter(title, map[], fieldPath + "__exact"))
    case DateFieldListFilter =>
      var links := AdminDateFilter.Links(fieldPath, env.today, DateKind(f, env));
      if links.Err? then Err(DateOutOfRange(links.error))
      else
        Ok(DateFilter(title, map[], fieldPath + "__gte", fieldPath + "__lt", links.value,
                      AdminDateFilter.DateParams(fieldPath, params)))
    case AllValuesFieldListFilter =>
      Ok(AllValuesFilter(title, map[], fieldPath, fieldPath + "__isnull"))
  }

  function WithUsed(f: FieldFilter, used: map<string, UsedValue>): (r: FieldFilter)
    ensures r.used == used && Expected(r) == Expected(f) && HasOutput(r) == HasOutput(f)
  {
    f.(used := used)
  }

  /**
    The constructor of a built-in field filter: the date filter computes its
    windows before anything else, then `ListFilter.__init__` checks the
    title, then the expected parameters move out of `params`. A related
    field filter afterwards replaces the title by the field's verbose name
    or the related model's.
   */
  function FieldInit(b: BuiltinFilter, f: Field, fieldPath: string, params: map<string, string>, env: Environment)
    : (r: Result<(FieldFilter, map<string, string>), FilterError>)
    requires AdminDateFilter.ValidDate(env.today)
    ensures b == DateFieldListFilter && !AdminDateFilter.Windows(env.today).Ok? ==>
      r.Err? && r.error.DateOutOfRange?
    ensures (b != DateFieldListFilter || AdminDateFilter.Windows(env.today).Ok?) ==>
      (r.Ok? <==> Title(f, fieldPath).Some?)
    ensures r.Err? && r.error.ImproperlyConfigured? ==> r.error.msg == MsgNoTitle(ClassName(b))
    ensures r.Ok? ==> (
      var (filter, rest) := r.value;
      var expected := ExpectedFor(b, f, fieldPath);
      && Expected(filter) == expected
      && rest.Keys == params.Keys - Names(expected)
      && (forall k :: k in rest ==> rest[k] == params[k])
      && filter.used.Keys == params.Keys * Names(expected)
      && (forall k :: k in filter.used ==> filter.used[k] == Prepared(k, params[k])))
  {
    var title := Title(f, fieldPath);
    var prepared := Prepare(b, f, fieldPath, params, env, title.GetOr(fieldPath));
    if prepared.Err? then Err(prepared.error)
    else if title.None? then Err(ImproperlyConfigured(MsgNoTitle(ClassName(b))))
    else
      var filter := prepared.value;
      var (rest, used) := Consume(params, Expected(filter), map[]);
      var finalTitle :=
        if b == RelatedFieldListFilter && f.verboseName.NoAttribute? then env.otherModelVerboseName
        else title.value;
      Ok((WithUsed(filter, used).(title := finalTitle), rest))
  }

  /**
    A related-field filter shows itself exactly when its choices plus the
    "(None)" choice of a nullable or many-to-many field number at least two.
   */
  lemma RelatedHasOutputIff(f: Field, fieldPath: string, params: map<string, string>, env: Environment)
    requires AdminDateFilter.ValidDate(env.today)
    requires FieldInit(RelatedFieldListFilter, f, fieldPath, params, env).Ok?
    ensures HasOutput(FieldInit(RelatedFieldListFilter, f, fieldPath, params, env).value.0)
      <==> |env.relatedChoices| + (if f.nullable || (f.isRelation && f.manyToMany) then 1 else 0) >= 2
  {
  }

  /** Every other built-in field filter always has output. */
  lemma OtherFiltersHaveOutput(b: BuiltinFilter, f: Field, fieldPath: string, params: map<string, string>,
                               env: Environment)
    requires AdminDateFilter.ValidDate(env.today) && b != RelatedFieldListFilter
    requires FieldInit(b, f, fieldPath, params, env).Ok?
    ensures HasOutput(FieldInit(b, f, fieldPath, params, env).value.0)
  {
  }

  /**
    Parameters are only moved, never lost or invented: what stays in
    `params` and what the filter used together make up the request's
    parameters.
   */
  lemma ConsumePartitions(b: BuiltinFilter, f: Field, fieldPath: string, params: map<string, string>,
                          env: Environment)
    requires AdminDateFilter.ValidDate(env.today)
    requires FieldInit(b, f, fieldPath, params, env).Ok?
    ensures var (filter, rest) := FieldInit(b, f, fieldPath, params, env).value;
      && rest.Keys + filter.used.Keys == params.Keys
      && rest.Keys !! filter.used.Keys
  {
  }
}
