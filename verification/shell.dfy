/**
  The namespace logic of the `shell` management command in
  `django/core/management/commands/shell.py`: which names the interactive
  shell starts with, what it reports about them, and which interpreter it
  falls back to. Python dicts keep insertion order; `ODict` models that.
 */
module ShellCommand {
  import opened Common

  // ---- insertion-ordered dictionaries ----

  /** A Python dict: its keys in insertion order and the values they map to. */
  datatype ODict<V> = ODict(keys: seq<string>, values: map<string, V>) {
    ghost predicate Valid() {
      (forall i, j :: 0 <= i < j < |keys| ==> keys[i] != keys[j])
      && (forall k :: k in values <==> k in keys)
    }
  }

  function EmptyDict<V>(): (d: ODict<V>)
    ensures d.Valid() && |d.keys| == 0
  {
    ODict([], map[])
  }

  /** `d[k] = v`: a new key goes last, an existing one keeps its place. */
  function Assign<V>(d: ODict<V>, k: string, v: V): (r: ODict<V>)
    requires d.Valid()
    ensures r.Valid()
    ensures r.values == d.values[k := v]
    ensures k in d.values ==> r.keys == d.keys
    ensures k !in d.values ==> r.keys == d.keys + [k]
  {
    if k in d.values then ODict(d.keys, d.values[k := v])
    else ODict(d.keys + [k], d.values[k := v])
  }

  // ---- the namespace ----

  /**
    An object put in the namespace, with the attributes the report reads:
    a model class has `__name__`, `__module__` and `__qualname__`; an app's
    models module has only a name.
   */
  datatype Obj = ModelClass(name: string, moduleName: string, qualname: string) | ModelsModule(path: string)

  /** An installed app: its label and its models module, None when it has none. */
  datatype AppConfig = AppConfig(appLabel: string, modelsModule: Option<Obj>)

  /** The namespace after inserting `models` last to first, skipping those with an empty `__module__`. */
  function InsertModels(models: seq<Obj>): (r: ODict<Obj>)
    requires forall i :: 0 <= i < |models| ==> models[i].ModelClass?
    ensures r.Valid()
    ensures forall k :: k in r.values ==> r.values[k].ModelClass? && r.values[k].name == k
    decreases |models|
  {
    if models == [] then EmptyDict()
    else
      var rest := InsertModels(models[1..]);
      var m := models[0];
      if m.moduleName != "" then Assign(rest, m.name, m) else rest
  }

  /** The first model of `models` with the given name and a module, if any. */
  function FirstNamed(models: seq<Obj>, name: string): (r: Option<Obj>)
    requires forall i :: 0 <= i < |models| ==> models[i].ModelClass?
    ensures r.Some? ==> r.value in models && r.value.name == name && r.value.moduleName != ""
    ensures r.None? <==> forall i :: 0 <= i < |models| ==> models[i].name != name || models[i].moduleName == ""
    decreases |models|
  {
    if models == [] then None
    else if models[0].name == name && models[0].moduleName != "" then Some(models[0])
    else FirstNamed(models[1..], name)
  }

  /**
    Inserting in reverse lets the earliest model win a clash of class
    names: each name maps to the first model of `get_models()` that bears
    it, and models with an empty `__module__` are left out.
   */
  lemma {:induction false} EarliestModelWins(models: seq<Obj>, name: string)
    requires forall i :: 0 <= i < |models| ==> models[i].ModelClass?
    ensures name in InsertModels(models).values <==> FirstNamed(models, name).Some?
    ensures name in InsertModels(models).values ==> InsertModels(models).values[name] == FirstNamed(models, name).value
    decreases |models|
  {
    if models != [] {
      EarliestModelWins(models[1..], name);
    }
  }

  /** The `<label>_models` names of the apps that have a models module. */
  function ModulesKeys(apps: seq<AppConfig>): (r: set<string>)
    ensures forall k :: k in r <==>
      (exists i :: 0 <= i < |apps| && apps[i].modelsModule.Some? && apps[i].appLabel + "_models" == k)
    decreases |apps|
  {
    if apps == [] then {}
    else
      var rest := ModulesKeys(apps[1..]);
      assert forall i :: 0 <= i < |apps[1..]| ==> apps[1..][i] == apps[i + 1];
      (if apps[0].modelsModule.Some? then {apps[0].appLabel + "_models"} else {}) + rest
  }

  /** `<label>_models` for each app that has a models module, in app order. */
  function InsertModules(d: ODict<Obj>, apps: seq<AppConfig>): (r: ODict<Obj>)
    requires d.Valid()
    ensures r.Valid()
    ensures r.values.Keys == d.values.Keys + ModulesKeys(apps)
    ensures forall k :: k in d.values && k !in ModulesKeys(apps) ==> r.values[k] == d.values[k]
    decreases |apps|
  {
    if apps == [] then d
    else
      var a := apps[0];
      var next := if a.modelsModule.Some? then Assign(d, a.appLabel + "_models", a.modelsModule.value) else d;
      InsertModules(next, apps[1..])
  }

  /** `get_namespace()`: the models, then one entry per app with a models module. */
  function Namespace(models: seq<Obj>, apps: seq<AppConfig>): (r: ODict<Obj>)
    requires forall i :: 0 <= i < |models| ==> models[i].ModelClass?
    ensures r.Valid()
  {
    InsertModules(InsertModels(models), apps)
  }

  /**
    An app's `<label>_models` entry exists exactly when the app has a models
    module (or a model happens to bear that name).
   */
  lemma ModulesEntryIff(models: seq<Obj>, apps: seq<AppConfig>, j: nat)
    requires forall i :: 0 <= i < |models| ==> models[i].ModelClass?
    requires j < |apps| && FirstNamed(models, apps[j].appLabel + "_models").None?
    requires forall i :: 0 <= i < |apps| && apps[i].appLabel == apps[j].appLabel ==> apps[i].modelsModule.None? == apps[j].modelsModule.None?
    ensures apps[j].appLabel + "_models" in Namespace(models, apps).values <==> apps[j].modelsModule.Some?
  {
    var k := apps[j].appLabel + "_models";
    var d := InsertModels(models);
    EarliestModelWins(models, k);
    OwnModulesKey(apps, j);
    assert Namespace(models, apps).values.Keys == d.values.Keys + ModulesKeys(apps);
  }

  /**
    When apps sharing a label agree on having a models module, an app's
    `<label>_models` is listed exactly when it has one.
   */
  lemma OwnModulesKey(apps: seq<AppConfig>, j: nat)
    requires j < |apps|
    requires forall i :: 0 <= i < |apps| && apps[i].appLabel == apps[j].appLabel ==> apps[i].modelsModule.None? == apps[j].modelsModule.None?
    ensures apps[j].appLabel + "_models" in ModulesKeys(apps) <==> apps[j].modelsModule.Some?
  {
    var k := apps[j].appLabel + "_models";
    if apps[j].modelsModule.Some? {
      assert k in ModulesKeys(apps);
    } else if k in ModulesKeys(apps) {
      var i :| 0 <= i < |apps| && apps[i].modelsModule.Some? && apps[i].appLabel + "_models" == k;
      SuffixCancels(apps[i].appLabel, apps[j].appLabel, "_models");
      assert false;
    }
  }

  lemma SuffixCancels(a: string, b: string, s: string)
    requires a + s == b + s
    ensures a == b
  {
    assert |a| == |b|;
    assert a == (a + s)[..|a|];
    assert b == (b + s)[..|b|];
  }

  // ---- the report ----

  /** Objects the verbose report lists: those with `__module__` and a `__qualname__` without a dot. */
  predicate Reported(o: Obj) {
    o.ModelClass? && !HasChar(o.qualname, '.')
  }

  /** `(name, module)` for the reported entries of the namespace, in namespace order. */
  function ReportedEntries(d: ODict<Obj>): (r: seq<(string, string)>)
    requires d.Valid()
    ensures forall e :: e in r ==> e.0 in d.values && Reported(d.values[e.0]) && e.1 == d.values[e.0].moduleName
    ensures forall k :: k in d.values && Reported(d.values[k]) ==> (k, d.values[k].moduleName) in r
  {
    ReportedIn(d.keys, d.values)
  }

  function ReportedIn(keys: seq<string>, values: map<string, Obj>): (r: seq<(string, string)>)
    requires forall k :: k in keys ==> k in values
    ensures forall e :: e in r ==> e.0 in keys && Reported(values[e.0]) && e.1 == values[e.0].moduleName
    ensures forall k :: k in keys && Reported(values[k]) ==> (k, values[k].moduleName) in r
    decreases |keys|
  {
    if keys == [] then []
    else
      var rest := ReportedIn(keys[1..], values);
      assert forall k :: k in keys <==> k == keys[0] || k in keys[1..];
      if Reported(values[keys[0]]) then [(keys[0], values[keys[0]].moduleName)] + rest else rest
  }

  /** The names of `entries` that come from `module`, in order. */
  function NamesFrom(entries: seq<(string, string)>, moduleName: string): seq<string>
    decreases |entries|
  {
    if entries == [] then []
    else
      var last := entries[|entries| - 1];
      NamesFrom(entries[..|entries| - 1], moduleName) + (if last.1 == moduleName then [last.0] else [])
  }

  /** `imports_by_module`: names grouped by module, modules in order of first appearance. */
  function Group(entries: seq<(string, string)>): (r: ODict<seq<string>>)
    ensures r.Valid()
    decreases |entries|
  {
    if entries == [] then EmptyDict()
    else
      var d := Group(entries[..|entries| - 1]);
      var (name, moduleName) := entries[|entries| - 1];
      var collected := if moduleName in d.values then d.values[moduleName] else [];
      Assign(d, moduleName, collected + [name])
  }

  /**
    Each module's list holds exactly the names from that module, in
    namespace order, and every module of an entry has a list.
   */
  lemma {:induction false} GroupCollects(entries: seq<(string, string)>)
    ensures forall m :: m in Group(entries).values <==> exists e :: e in entries && e.1 == m
    ensures forall m :: m in Group(entries).values ==> Group(entries).values[m] == NamesFrom(entries, m)
    decreases |entries|
  {
    if entries != [] {
      var init := entries[..|entries| - 1];
      var last := entries[|entries| - 1];
      GroupCollects(init);
      assert forall e :: e in entries <==> e in init || e == last;
      forall m | m !in Group(init).values && m != last.1
        ensures NamesFrom(entries, m) == []
      {
        NamesFromAbsent(init, m);
      }
      if last.1 !in Group(init).values {
        NamesFromAbsent(init, last.1);
      }
    }
  }

  lemma {:induction false} NamesFromAbsent(entries: seq<(string, string)>, m: string)
    requires forall e :: e in entries ==> e.1 != m
    ensures NamesFrom(entries, m) == []
    decreases |entries|
  {
    if entries != [] {
      var init := entries[..|entries| - 1];
      assert forall e :: e in init ==> e in entries;
      NamesFromAbsent(init, m);
    }
  }

  /**
    `get_and_report_namespace(verbosity)`: the namespace, unchanged, and the
    lines written: none at verbosity 0, the count at 1, one `from ...
    import ...` line per module from 2 on.
   */
  function Report(d: ODict<Obj>, verbosity: int): (r: (ODict<Obj>, seq<string>))
    requires d.Valid()
    ensures r.0 == d
    ensures verbosity < 1 ==> r.1 == []
    ensures verbosity == 1 ==> r.1 == [NatToString(|d.keys|) + " objects imported automatically"]
    ensures verbosity >= 2 ==> |r.1| == |Group(ReportedEntries(d)).keys|
    ensures verbosity >= 2 ==> forall i :: 0 <= i < |r.1| ==>
      var g := Group(ReportedEntries(d));
      r.1[i] == "from " + g.keys[i] + " import " + Join(NamesFrom(ReportedEntries(d), g.keys[i]), ", ")
  {
    if verbosity == 1 then (d, [NatToString(|d.keys|) + " objects imported automatically"])
    else if verbosity >= 2 then
      var g := Group(ReportedEntries(d));
      GroupCollects(ReportedEntries(d));
      (d, seq(|g.keys|, i requires 0 <= i < |g.keys| => "from " + g.keys[i] + " import " + Join(g.values[g.keys[i]], ", ")))
    else (d, [])
  }

  // ---- choosing the interpreter ----

  const Shells: seq<string> := ["ipython", "bpython", "python"]

  datatype CommandError = CommandError(msg: string)

  /** `s` is the first of `tried` that is importable. */
  predicate FirstIn(tried: seq<string>, s: string, importable: set<string>) {
    exists i :: 0 <= i < |tried| && tried[i] == s && forall j :: 0 <= j < i ==> tried[j] !in importable
  }

  /**
    The interpreter `handle` starts: the requested interface alone, or
    IPython, bpython and plain Python in that order; the first whose import
    succeeds (`importable`). When none does, the error names the last one
    tried.
   */
  function ChooseShell(interface: Option<string>, importable: set<string>): (r: Result<string, CommandError>)
    requires interface.Some? ==> interface.value in Shells
    ensures var tried := if Truthy(interface) then [interface.value] else Shells;
      && (r.Ok? <==> exists s :: s in tried && s in importable)
      && (r.Ok? ==> r.value in importable && FirstIn(tried, r.value, importable))
      && (r.Err? ==> r.error.msg == "Couldn't import " + tried[|tried| - 1] + " interface.")
  {
    var tried := if Truthy(interface) then [interface.value] else Shells;
    FirstImportable(tried, importable)
  }

  function FirstImportable(tried: seq<string>, importable: set<string>): (r: Result<string, CommandError>)
    requires |tried| >= 1
    ensures r.Ok? <==> exists s :: s in tried && s in importable
    ensures r.Ok? ==> r.value in importable && FirstIn(tried, r.value, importable)
    ensures r.Err? ==> r.error.msg == "Couldn't import " + tried[|tried| - 1] + " interface."
    decreases |tried|
  {
    if tried[0] in importable then Ok(tried[0])
    else if |tried| == 1 then Err(CommandError("Couldn't import " + tried[0] + " interface."))
    else
      var r := FirstImportable(tried[1..], importable);
      assert forall s :: s in tried <==> s == tried[0] || s in tried[1..];
      if r.Ok? then
        var i :| 0 <= i < |tried[1..]| && tried[1..][i] == r.value && forall j :: 0 <= j < i ==> tried[1..][j] !in importable;
        assert tried[i + 1] == r.value;
        r
      else r
  }

  /** Without a requested interface, failure always names plain Python. */
  lemma NoInterfaceFailureNamesPython(importable: set<string>)
    requires ChooseShell(None, importable).Err?
    ensures ChooseShell(None, importable).error.msg == "Couldn't import python interface."
  {
  }
}
