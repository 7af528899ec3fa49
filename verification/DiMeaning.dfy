/** What a handler is called with, read off the declarations alone: which source each parameter has,
    and what value. A plan built and run gives exactly that. */
module DiMeaning {
  import opened Wrappers
  import opened DiPlans
  import opened DiGraphs
  import opened DiResolving
  import opened DiRefinement

  // ---- the source of a parameter

  /** It can be passed by name, and no marker is on it. */
  predicate Plainly(d: ParamDecl) {
    d.kind.Named? && d.marker.NoMarker?
  }

  /** A Request on an HTTP route, a WebSocket on a websocket one; without an annotation by the
      name "request" or "websocket". */
  predicate AsksForConnection(site: Site, d: ParamDecl) {
    && Plainly(d) && d.name !in site.converters
    && (match site.scope
        case Http => d.annotation.RequestClass? || (d.annotation.Unannotated? && d.name == "request")
        case WebSocket => d.annotation.WebSocketClass? || (d.annotation.Unannotated? && d.name == "websocket"))
  }

  predicate AsksForDependency(d: ParamDecl) {
    d.kind.Named? && d.marker.Depends?
  }

  /** Neither of the two connection names, when there is no annotation. */
  predicate OrdinaryName(d: ParamDecl) {
    d.annotation.Unannotated? ==> d.name != "request" && d.name != "websocket"
  }

  /** Named in the route, with no annotation or the converter's own type. */
  predicate AsksForPath(site: Site, d: ParamDecl) {
    && Plainly(d) && OrdinaryName(d) && d.name in site.converters
    && (d.annotation.Unannotated? ||
         (d.annotation.Typed? && !d.annotation.isList && d.annotation.item == Some(site.converters[d.name])))
  }

  /** Of a type that a query string can give; without an annotation, text with a default. */
  predicate AsksForQuery(site: Site, d: ParamDecl) {
    && Plainly(d) && OrdinaryName(d) && d.name !in site.converters
    && ((d.annotation.Unannotated? && d.default.Some?) || (d.annotation.Typed? && d.annotation.item.Some?))
  }

  function ItemOf(d: ParamDecl): Scalar {
    if d.annotation.Typed? && d.annotation.item.Some? then d.annotation.item.value else Str
  }

  predicate IsListOf(d: ParamDecl) {
    d.annotation.Typed? && d.annotation.isList
  }

  predicate OptionalOf(d: ParamDecl) {
    d.annotation.Typed? && d.annotation.optional
  }

  /** The order of the tests in the loop makes no difference to this reading of them. */
  lemma ClassifyExact(site: Site, d: ParamDecl)
    ensures Classify(site, d).Connection? <==> AsksForConnection(site, d)
    ensures Classify(site, d).Path? <==> AsksForPath(site, d)
    ensures Classify(site, d).Query? <==> AsksForQuery(site, d)
    ensures Classify(site, d).Dependent? <==> AsksForDependency(d)
    ensures AsksForDependency(d) ==> Classify(site, d) == Dependent(d.marker.target, d.marker.useCache)
    ensures AsksForQuery(site, d) ==> Classify(site, d) == Query(ItemOf(d), IsListOf(d), OptionalOf(d))
  {
    assert "request" != "websocket" by {
      assert |"request"| != |"websocket"|;
    }
  }

  /** Everything else is refused when the plan is built. */
  lemma RefusedExact(site: Site, d: ParamDecl)
    ensures Classify(site, d).Refused? <==>
      !AsksForConnection(site, d) && !AsksForPath(site, d) && !AsksForQuery(site, d) && !AsksForDependency(d)
    ensures Classify(site, d) == Refused(WrongConnection) <==>
      Plainly(d) && (match site.scope case Http => d.annotation.WebSocketClass? case WebSocket => d.annotation.RequestClass?)
    ensures Classify(site, d) == Refused(ReadsAsQuery) <==>
      Plainly(d) && d.annotation.Unannotated? && d.name == (match site.scope case Http => "websocket" case WebSocket => "request")
  {
    ClassifyExact(site, d);
    assert "request" != "websocket" by {
      assert |"request"| != |"websocket"|;
    }
  }

  // ---- the value of a query parameter

  function Carried(env: Env, name: string): seq<string> {
    if name in env.query then env.query[name] else []
  }

  /** How many of the raw values do not parse. */
  function Failures(env: Env, item: Scalar, raw: seq<string>): nat {
    if raw == [] then 0 else (if env.parse(item, raw[0]).Some? then 0 else 1) + Failures(env, item, raw[1..])
  }

  /** The parsed values, or None for one that does not parse. */
  function Parsed(env: Env, item: Scalar, raw: seq<string>): seq<Value> {
    seq(|raw|, k requires 0 <= k < |raw| =>
      match env.parse(item, raw[k])
      case Some(value) => value
      case None => PyNone)
  }

  /** Not carried: the default, else None for an optional one, else "missing" under its name.
      Carried: the first value parsed, or every value of a list in order; and an error for each
      value that does not parse. */
  function Meant(env: Env, d: ParamDecl): Scanned {
    var raw, item := Carried(env, d.name), ItemOf(d);
    if |raw| == 0 then
      match d.default
      case Some(value) => Got(value)
      case None => if OptionalOf(d) then Got(PyNone) else Bad([Missing(d.name)])
    else
      var read := if IsListOf(d) then raw else raw[..1];
      var failures := Failures(env, item, read);
      if failures > 0 then Bad(seq(failures, _ => NotParsed(d.name, item)))
      else if IsListOf(d) then Got(PyList(Parsed(env, item, read)))
      else Got(Parsed(env, item, read)[0])
  }

  lemma {:induction false} FailuresBehind(env: Env, item: Scalar, raw: seq<string>, last: string)
    ensures Failures(env, item, raw + [last]) == Failures(env, item, raw) + if env.parse(item, last).Some? then 0 else 1
    decreases |raw|
  {
    var all := raw + [last];
    if raw == [] {
      assert all[1..] == [];
    } else {
      assert all[1..] == raw[1..] + [last] && all[0] == raw[0];
      FailuresBehind(env, item, raw[1..], last);
    }
  }

  /** The loop's values and errors are the parses and the failures. */
  lemma {:induction false} ConvertedMeans(env: Env, name: string, item: Scalar, raw: seq<string>)
    ensures var all := Converted(env, name, item, raw);
      && all.errors == seq(Failures(env, item, raw), _ => NotParsed(name, item))
      && (all.errors == [] ==> all.values == Parsed(env, item, raw))
    decreases |raw|
  {
    if raw != [] {
      var front, last := raw[..|raw| - 1], raw[|raw| - 1];
      ConvertedMeans(env, name, item, front);
      FailuresBehind(env, item, front, last);
      assert raw == front + [last];
      hide Failures;
      if env.parse(item, last).Some? {
        assert Parsed(env, item, raw) == Parsed(env, item, front) + [env.parse(item, last).value];
      }
    }
  }

  lemma OneFailure(env: Env, item: Scalar, raw: string)
    ensures Failures(env, item, [raw]) == if env.parse(item, raw).Some? then 0 else 1
  {
    assert [raw][1..] == [];
  }

  /** A specification made from a declaration is scanned as the declaration means. */
  lemma ScanMeans(env: Env, d: ParamDecl, spec: QuerySpec)
    requires spec == QuerySpec(spec.place, d.name, ItemOf(d), IsListOf(d), OptionalOf(d), d.default)
    ensures Scan(env, spec) == Meant(env, d)
  {
    var raw := Carried(env, d.name);
    if raw != [] {
      if IsListOf(d) {
        ConvertedMeans(env, d.name, ItemOf(d), raw);
      } else {
        OneFailure(env, ItemOf(d), raw[0]);
        assert raw[..1] == [raw[0]];
      }
      hide Failures, Converted;
    }
  }

  // ---- the whole tree

  /** The dependency that a parameter asks for can be evaluated: it is there and not on the way. */
  predicate Reachable(site: Site, seen: set<CallId>, call: CallId, target: CallId) {
    site.Inspectable(target) && target !in seen + {call}
  }

  /** What the first n parameters of a callable come to: each from its own source, a dependency
      called with what its own parameters come to; the first exception stands. */
  function Declared(site: Site, env: Env, call: CallId, seen: set<CallId>, n: nat): Outcome
    requires site.Inspectable(call) && call !in seen && n <= |site.graph[call].decls|
    decreases Left(site, seen), 1, n
  {
    if n == 0 then Kwargs(map[])
    else
      match Declared(site, env, call, seen, n - 1)
      case Raised(e) => Raised(e)
      case Kwargs(kwargs) =>
        var d := site.graph[call].decls[n - 1];
        match DeclaredParam(site, env, call, seen, d)
        case Raises(e) => Raised(e)
        case Returns(value) => Kwargs(kwargs[d.name := value])
  }

  function DeclaredParam(site: Site, env: Env, call: CallId, seen: set<CallId>, d: ParamDecl): Called
    requires site.Inspectable(call) && call !in seen
    decreases Left(site, seen), 0, 0
  {
    if AsksForDependency(d) then
      var target := d.marker.target;
      if !Reachable(site, seen, call, target) then Raises(PyNone)
      else
        FewerLeft(site, seen, call);
        match Declared(site, env, target, seen + {call}, |site.graph[target].decls|)
        case Raised(e) => Raises(e)
        case Kwargs(kwargs) => env.call(target, kwargs)
    else if AsksForConnection(site, d) then Returns(PyConnection)
    else if AsksForPath(site, d) then Returns(env.path(d.name))
    else
      match Meant(env, d)
      case Got(value) => Returns(value)
      case Bad(_) => Returns(PyNone)
  }

  /** The errors of every query parameter in the tree, in the order of the declarations. */
  function DeclaredErrors(site: Site, env: Env, call: CallId, seen: set<CallId>, n: nat): seq<QueryError>
    requires site.Inspectable(call) && call !in seen && n <= |site.graph[call].decls|
    decreases Left(site, seen), 1, n
  {
    if n == 0 then []
    else DeclaredErrors(site, env, call, seen, n - 1) + ParamErrors(site, env, call, seen, site.graph[call].decls[n - 1])
  }

  function ParamErrors(site: Site, env: Env, call: CallId, seen: set<CallId>, d: ParamDecl): seq<QueryError>
    requires site.Inspectable(call) && call !in seen
    decreases Left(site, seen), 0, 0
  {
    if AsksForDependency(d) then
      var target := d.marker.target;
      if !Reachable(site, seen, call, target) then []
      else
        FewerLeft(site, seen, call);
        DeclaredErrors(site, env, target, seen + {call}, |site.graph[target].decls|)
    else if AsksForQuery(site, d) then
      match Meant(env, d)
      case Got(_) => []
      case Bad(errors) => errors
    else []
  }

  /** A parameter as it was built. */
  lemma BuiltParam(site: Site, call: CallId, seen: set<CallId>, at: Place, i: nat)
    requires Build(site, call, seen, at).Ok? && i < |site.graph[call].decls|
    ensures i < |Build(site, call, seen, at).value.params|
    ensures BuildParam(site, call, seen, at, i) == Ok(Build(site, call, seen, at).value.params[i])
  {
    EachBuilt(site, call, seen, at, |site.graph[call].decls|, i);
    hide BuildParam;
  }

  lemma DependencyBuilt(site: Site, call: CallId, seen: set<CallId>, at: Place, i: nat)
    requires site.Inspectable(call) && call !in seen && i < |site.graph[call].decls|
    requires BuildParam(site, call, seen, at, i).Ok? && AsksForDependency(site.graph[call].decls[i])
    ensures var d, param := site.graph[call].decls[i], BuildParam(site, call, seen, at, i).value;
      && Reachable(site, seen, call, d.marker.target)
      && Left(site, seen + {call}) < Left(site, seen)
      && Build(site, d.marker.target, seen + {call}, at + [i]).Ok?
      && param.FromDependency? && param.name == d.name && param.dependency.call == d.marker.target
      && param.dependency.plan == Build(site, d.marker.target, seen + {call}, at + [i]).value
  {
    ClassifyExact(site, site.graph[call].decls[i]);
    FewerLeft(site, seen, call);
    hide Classify;
  }

  lemma {:induction false} PlainIsDeclared(site: Site, env: Env, call: CallId, seen: set<CallId>, at: Place, n: nat)
    requires Build(site, call, seen, at).Ok? && n <= |site.graph[call].decls|
    ensures n <= |Build(site, call, seen, at).value.params|
    ensures PlainUpTo(env, Build(site, call, seen, at).value, n) == Declared(site, env, call, seen, n)
    decreases Left(site, seen), 1, n
  {
    if n > 0 {
      var plan := Build(site, call, seen, at).value;
      PlainIsDeclared(site, env, call, seen, at, n - 1);
      BuiltParam(site, call, seen, at, n - 1);
      ParamIsDeclared(site, env, call, seen, at, n - 1);
      hide Build, BuildParam, PlainParam, DeclaredParam;
    }
  }

  lemma {:induction false} ParamIsDeclared(site: Site, env: Env, call: CallId, seen: set<CallId>, at: Place, i: nat)
    requires site.Inspectable(call) && call !in seen && i < |site.graph[call].decls|
    requires BuildParam(site, call, seen, at, i).Ok?
    ensures var d, param := site.graph[call].decls[i], BuildParam(site, call, seen, at, i).value;
      param.name == d.name && PlainParam(env, param) == DeclaredParam(site, env, call, seen, d)
    decreases Left(site, seen), 0, 0
  {
    var d := site.graph[call].decls[i];
    ClassifyExact(site, d);
    if AsksForDependency(d) {
      DependencyBuilt(site, call, seen, at, i);
      var target := d.marker.target;
      PlainIsDeclared(site, env, target, seen + {call}, at + [i], |site.graph[target].decls|);
      BuiltSize(site, target, seen + {call}, at + [i]);
      hide BuildParam, Build, Classify;
    } else if AsksForQuery(site, d) {
      hide Classify;
      ScanMeans(env, d, BuildParam(site, call, seen, at, i).value.query);
    }
  }

  lemma BuiltSize(site: Site, call: CallId, seen: set<CallId>, at: Place)
    requires Build(site, call, seen, at).Ok?
    ensures |Build(site, call, seen, at).value.params| == |site.graph[call].decls|
  {
  }

  lemma {:induction false} ErrorsAreDeclared(site: Site, env: Env, call: CallId, seen: set<CallId>, at: Place, n: nat)
    requires Build(site, call, seen, at).Ok? && n <= |site.graph[call].decls|
    ensures n <= |Build(site, call, seen, at).value.params|
    ensures TreeErrors(env, Build(site, call, seen, at).value, n) == DeclaredErrors(site, env, call, seen, n)
    decreases Left(site, seen), 1, n
  {
    if n > 0 {
      var plan := Build(site, call, seen, at).value;
      ErrorsAreDeclared(site, env, call, seen, at, n - 1);
      BuiltParam(site, call, seen, at, n - 1);
      ParamErrorsAreDeclared(site, env, call, seen, at, n - 1);
      LastErrors(env, plan, n);
      hide Build, BuildParam, TreeErrors, PlanErrors, ParamErrors;
    }
  }

  /** The errors below one parameter of a plan. */
  function PlanErrors(env: Env, param: Param): seq<QueryError> {
    match param
    case FromQuery(_, spec) => SpecErrors(env, spec)
    case FromDependency(_, dep) => TreeErrors(env, dep.plan, |dep.plan.params|)
    case _ => []
  }

  lemma LastErrors(env: Env, plan: Plan, n: nat)
    requires 0 < n <= |plan.params|
    ensures TreeErrors(env, plan, n) == TreeErrors(env, plan, n - 1) + PlanErrors(env, plan.params[n - 1])
  {
  }

  lemma {:induction false} ParamErrorsAreDeclared(site: Site, env: Env, call: CallId, seen: set<CallId>, at: Place, i: nat)
    requires site.Inspectable(call) && call !in seen && i < |site.graph[call].decls|
    requires BuildParam(site, call, seen, at, i).Ok?
    ensures PlanErrors(env, BuildParam(site, call, seen, at, i).value) == ParamErrors(site, env, call, seen, site.graph[call].decls[i])
    decreases Left(site, seen), 0, 0
  {
    var d := site.graph[call].decls[i];
    ClassifyExact(site, d);
    if AsksForDependency(d) {
      DependencyBuilt(site, call, seen, at, i);
      var target := d.marker.target;
      ErrorsAreDeclared(site, env, target, seen + {call}, at + [i], |site.graph[target].decls|);
      BuiltSize(site, target, seen + {call}, at + [i]);
      hide BuildParam, Build, Classify, TreeErrors, DeclaredErrors;
    } else if AsksForQuery(site, d) {
      hide Classify, Scan, Meant;
      ScanMeans(env, d, BuildParam(site, call, seen, at, i).value.query);
    }
  }

  /** A plan built for a handler and run on a request: the errors of every query parameter in its
      tree, or the handler's arguments, as the declarations have them. */
  lemma ResolveIsDeclared(site: Site, env: Env, call: CallId)
    requires Build(site, call, {}, []).Ok?
    ensures var plan, n := Build(site, call, {}, []).value, |site.graph[call].decls|;
      && Ready(env, plan)
      && Resolve(env, plan).answer ==
           (var errors := DeclaredErrors(site, env, call, {}, n);
            if errors != [] then Invalid(errors) else Done(Declared(site, env, call, {}, n)))
  {
    ResolveIsPlain(env, site, call);
    BuiltSize(site, call, {}, []);
    hide Build, Resolve, Ready, PlainUpTo, TreeErrors;
    PlainIsDeclared(site, env, call, {}, [], |site.graph[call].decls|);
    ErrorsAreDeclared(site, env, call, {}, [], |site.graph[call].decls|);
  }
}
