/**
  The view decorators of `django/views/decorators/csp.py`. Each wraps a view
  and marks the response the view returns: `csp_enforced` and
  `csp_report_only` attach a policy for the middleware to use in place of
  the configured one, and `csp_exempt` marks the response so that the
  middleware sends no header of the chosen kinds. A response is modelled by
  its attributes; the wrapped view is whatever produced that response.
 */
module CspDecorators {
  /** A policy dict: directive name to its sources. */
  type Policy = map<string, seq<string>>

  /** The value of a response attribute. */
  datatype Value = PolicyValue(policy: Policy) | Flag(on: bool) | OtherValue(text: string)

  datatype Response = Response(attrs: map<string, Value>)

  const ConfigAttr: string := "_csp_config"
  const ConfigRoAttr: string := "_csp_config_ro"
  const ExemptAttr: string := "_csp_exempt"
  const ExemptRoAttr: string := "_csp_exempt_ro"

  /** `csp_enforced(policy)`, `csp_report_only(policy)` and `csp_exempt(enforced, report_only)`. */
  datatype Decorator =
    | Enforced(policy: Policy)
    | ReportOnly(policy: Policy)
    | Exempt(enforced: bool, reportOnly: bool)

  /** The exemption with the default arguments, `@csp_exempt()`. */
  const ExemptDefault: Decorator := Exempt(false, false)

  /** Every attribute other than `touched` is the same in both responses. */
  predicate OthersKept(before: Response, after: Response, touched: set<string>) {
    && (forall k :: k in before.attrs && k !in touched ==> k in after.attrs && after.attrs[k] == before.attrs[k])
    && (forall k :: k in after.attrs && k !in touched ==> k in before.attrs)
  }

  /** The response has attribute `attr` with value `v`. */
  predicate Holds(resp: Response, attr: string, v: Value) {
    attr in resp.attrs && resp.attrs[attr] == v
  }

  /** When `on`, `attr` is set to True; otherwise it is as it was, present or not. */
  predicate FlagSetIf(before: Response, after: Response, attr: string, on: bool) {
    if on then Holds(after, attr, Flag(true))
    else ((attr in after.attrs <==> attr in before.attrs)
      && (attr in before.attrs ==> after.attrs[attr] == before.attrs[attr]))
  }

  /**
    What the wrapper does to the response the view returned: set the one
    attribute its kind names, and nothing else. The same response object
    is returned, so a decorated view returns its view's response, marked.
   */
  function Apply(d: Decorator, resp: Response): (r: Response)
    ensures d.Enforced? ==> Holds(r, ConfigAttr, PolicyValue(d.policy)) && OthersKept(resp, r, {ConfigAttr})
    ensures d.ReportOnly? ==> Holds(r, ConfigRoAttr, PolicyValue(d.policy)) && OthersKept(resp, r, {ConfigRoAttr})
    ensures d.Exempt? ==> OthersKept(resp, r, {ExemptAttr, ExemptRoAttr})
    ensures d.Exempt? ==> FlagSetIf(resp, r, ExemptAttr, d.enforced) && FlagSetIf(resp, r, ExemptRoAttr, d.reportOnly)
  {
    match d
    case Enforced(p) => Response(resp.attrs[ConfigAttr := PolicyValue(p)])
    case ReportOnly(p) => Response(resp.attrs[ConfigRoAttr := PolicyValue(p)])
    case Exempt(enforced, reportOnly) =>
      var a1 := if reportOnly then resp.attrs[ExemptRoAttr := Flag(true)] else resp.attrs;
      var a2 := if enforced then a1[ExemptAttr := Flag(true)] else a1;
      Response(a2)
  }

  /** `@csp_exempt()` with no arguments leaves the response as it was. */
  lemma ExemptDefaultNoop(resp: Response)
    ensures Apply(ExemptDefault, resp) == resp
  {
  }

  /** Applying the same decorator twice marks the response as applying it once. */
  lemma ApplyIdempotent(d: Decorator, resp: Response)
    ensures Apply(d, Apply(d, resp)) == Apply(d, resp)
  {
  }

  /**
    Stacking `@csp_enforced(p)` above `@csp_report_only(q)`: the lower
    decorator wraps the view, so it marks the response first. Both policies
    are set, independently: the other order gives the same response, and
    nothing else changes.
   */
  lemma EnforcedAndReportOnlyIndependent(p: Policy, q: Policy, resp: Response)
    ensures var r := Apply(Enforced(p), Apply(ReportOnly(q), resp));
      && r == Apply(ReportOnly(q), Apply(Enforced(p), resp))
      && Holds(r, ConfigAttr, PolicyValue(p)) && Holds(r, ConfigRoAttr, PolicyValue(q))
      && OthersKept(resp, r, {ConfigAttr, ConfigRoAttr})
  {
    var r := Apply(Enforced(p), Apply(ReportOnly(q), resp));
    assert r.attrs == resp.attrs[ConfigRoAttr := PolicyValue(q)][ConfigAttr := PolicyValue(p)];
  }

  /** Of two stacked policies of the same kind, the outer decorator's is the one that stays. */
  lemma OuterPolicyWins(p: Policy, q: Policy, resp: Response)
    ensures Holds(Apply(Enforced(p), Apply(Enforced(q), resp)), ConfigAttr, PolicyValue(p))
    ensures Holds(Apply(ReportOnly(p), Apply(ReportOnly(q), resp)), ConfigRoAttr, PolicyValue(p))
  {
  }

  /** Exemptions accumulate: two stacked exemptions set the union of their flags. */
  lemma ExemptionsAccumulate(e1: bool, r1: bool, e2: bool, r2: bool, resp: Response)
    ensures Apply(Exempt(e1, r1), Apply(Exempt(e2, r2), resp)) == Apply(Exempt(e1 || e2, r1 || r2), resp)
  {
  }
}
