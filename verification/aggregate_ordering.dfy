/**
  The deprecated `ordering` argument of the PostgreSQL aggregates
  (`django/contrib/postgres/aggregates/mixins.py`): `ordering` is renamed
  `order_by` on the way to the parent constructor, with a deprecation
  warning, and subclassing `OrderableAggMixin` itself is deprecated.
  Orderings are sequences of expressions, and an empty one is falsy.
 */
module AggregateOrdering {
  import opened Common

  /** A `RemovedInDjango60Warning`, by its message. */
  datatype Warning = RemovedInDjango60Warning(msg: string)

  datatype TypeError = TypeError(msg: string)

  const MsgBothProvided: string := "order_by and ordering both provided."
  const MsgOrderingDeprecated: string := "The ordering argument is deprecated. Use order_by instead."
  const MsgMixinDeprecated: string := "OrderableAggMixin is deprecated. Use Aggregate and allow_order_by " + "instead."

  /** What `_DeprecatedOrdering.__init__` hands to the next `__init__`. */
  datatype ParentArgs = ParentArgs(expressions: seq<string>, orderBy: seq<string>, extra: map<string, string>)

  /**
    `_DeprecatedOrdering.__init__(*expressions, ordering=..., order_by=..., **extra)`:
    both orderings given is an error; `ordering` alone becomes `order_by`
    and warns; otherwise `order_by` passes through as given (empty by
    default). The expressions and extra keyword arguments are passed on
    unchanged.
   */
  function Init(expressions: seq<string>, ordering: seq<string>, orderBy: seq<string>, extra: map<string, string>)
    : (r: Result<(ParentArgs, seq<Warning>), TypeError>)
    ensures r.Err? <==> ordering != [] && orderBy != []
    ensures r.Err? ==> r.error == TypeError(MsgBothProvided)
    ensures r.Ok? ==> r.value.0.expressions == expressions && r.value.0.extra == extra
    ensures r.Ok? && ordering != [] ==> r.value.0.orderBy == ordering
    ensures r.Ok? && ordering == [] ==> r.value.0.orderBy == orderBy
    ensures r.Ok? ==> (r.value.1 == [] <==> ordering == [])
    ensures r.Ok? ==> forall w :: w in r.value.1 ==> w == RemovedInDjango60Warning(MsgOrderingDeprecated)
  {
    if ordering != [] && orderBy != [] then Err(TypeError(MsgBothProvided))
    else if ordering != [] then Ok((ParentArgs(expressions, ordering, extra), [RemovedInDjango60Warning(MsgOrderingDeprecated)]))
    else Ok((ParentArgs(expressions, orderBy, extra), []))
  }

  /**
    Passing an ordering as `ordering` reaches the parent exactly as passing
    it as `order_by` does; only the warning differs.
   */
  lemma OrderingSameAsOrderBy(expressions: seq<string>, o: seq<string>, extra: map<string, string>)
    ensures Init(expressions, o, [], extra).Ok? && Init(expressions, [], o, extra).Ok?
    ensures Init(expressions, o, [], extra).value.0 == Init(expressions, [], o, extra).value.0
    ensures Init(expressions, [], o, extra).value.1 == []
  {
  }

  /** With the defaults the parent gets an empty `order_by` and nothing warns. */
  lemma DefaultsPassEmpty(expressions: seq<string>, extra: map<string, string>)
    ensures Init(expressions, [], [], extra) == Ok((ParentArgs(expressions, [], extra), []))
  {
  }

  // ---- subclassing the mixin ----

  /**
    A class in an aggregate hierarchy: whether it is `OrderableAggMixin` or
    derives from it, and the `allow_order_by` its attribute lookup finds,
    absent when no class in its ancestry defines one.
   */
  datatype AggClass = AggClass(name: string, derivesFromMixin: bool, allowOrderBy: Option<bool>)

  /** `OrderableAggMixin` itself; defining it warns about nothing. */
  const OrderableAggMixin: AggClass := AggClass("OrderableAggMixin", true, Some(true))

  /** The first value a base defines, searching the bases left to right. */
  function FirstDefined(bases: seq<AggClass>): (r: Option<bool>)
    ensures r.None? <==> forall i :: 0 <= i < |bases| ==> bases[i].allowOrderBy.None?
    ensures r.Some? ==> exists i :: (0 <= i < |bases| && bases[i].allowOrderBy == r
      && forall j :: 0 <= j < i ==> bases[j].allowOrderBy.None?)
    decreases |bases|
  {
    if bases == [] then None
    else if bases[0].allowOrderBy.Some? then bases[0].allowOrderBy
    else
      var r := FirstDefined(bases[1..]);
      assert forall i :: 1 <= i < |bases| ==> bases[i] == bases[1..][i - 1];
      r
  }

  /**
    A class statement `class name(*bases)`, optionally assigning its own
    `allow_order_by`: the class, and the warning `__init_subclass__` raises
    when one of the bases is or derives from the mixin.
   */
  function DefineClass(name: string, bases: seq<AggClass>, ownAllowOrderBy: Option<bool>): (r: (AggClass, seq<Warning>))
    ensures r.0.derivesFromMixin <==> exists b :: b in bases && b.derivesFromMixin
    ensures r.1 == (if r.0.derivesFromMixin then [RemovedInDjango60Warning(MsgMixinDeprecated)] else [])
    ensures ownAllowOrderBy.Some? ==> r.0.allowOrderBy == ownAllowOrderBy
    ensures ownAllowOrderBy.None? ==> r.0.allowOrderBy == FirstDefined(bases)
  {
    var derives := exists b :: b in bases && b.derivesFromMixin;
    var allow := if ownAllowOrderBy.Some? then ownAllowOrderBy else FirstDefined(bases);
    (AggClass(name, derives, allow), if derives then [RemovedInDjango60Warning(MsgMixinDeprecated)] else [])
  }

  /**
    An aggregate declared as `class Agg(OrderableAggMixin, ...)` without
    its own `allow_order_by` warns once and allows `order_by`, whatever
    the later bases say.
   */
  lemma MixinFirstAllowsOrderBy(name: string, others: seq<AggClass>)
    ensures var (c, ws) := DefineClass(name, [OrderableAggMixin] + others, None);
      c.derivesFromMixin && c.allowOrderBy == Some(true)
      && ws == [RemovedInDjango60Warning(MsgMixinDeprecated)]
  {
    assert OrderableAggMixin in [OrderableAggMixin] + others;
  }

  /** A chain of subclasses, each deriving from the one before, none assigning `allow_order_by`. */
  function Chain(top: AggClass, names: seq<string>): (r: (AggClass, seq<Warning>))
    decreases |names|
  {
    if names == [] then (top, [])
    else
      var (parent, ws) := Chain(top, names[..|names| - 1]);
      var (c, w) := DefineClass(names[|names| - 1], [parent], None);
      (c, ws + w)
  }

  /**
    However deep below the mixin a class is declared, it still allows
    `order_by`, and every class of the chain warned once.
   */
  lemma {:induction false} ChainFromMixin(names: seq<string>)
    ensures var (c, ws) := Chain(OrderableAggMixin, names);
      c.derivesFromMixin && c.allowOrderBy == Some(true)
      && |ws| == |names|
      && forall w :: w in ws ==> w == RemovedInDjango60Warning(MsgMixinDeprecated)
    decreases |names|
  {
    if names != [] {
      ChainFromMixin(names[..|names| - 1]);
      var (parent, ws) := Chain(OrderableAggMixin, names[..|names| - 1]);
      assert parent in [parent];
      assert FirstDefined([parent]) == parent.allowOrderBy;
    }
  }
}
