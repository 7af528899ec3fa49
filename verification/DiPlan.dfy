/** Building a handler's plan: each parameter classified once, dependencies planned
    recursively, cycles refused, and the query parameters of the whole tree flattened. */
module DiPlans {
  import opened Wrappers

  type CallId = nat

  /** The types a query string or a path segment can be converted to. */
  datatype Scalar = Str | Int | Float | Bool | Uuid

  /** A value an application can see; objects stand for themselves. */
  datatype Value = PyNone | PyConnection | PyList(items: seq<Value>) | PyObject(id: int)

  /** An annotation without its metadata. A `Typed` one is unwrapped as far as it goes;
      `item` is None for a type that no query string can produce. */
  datatype Annotation = Unannotated | RequestClass | WebSocketClass | Typed(item: Option<Scalar>, isList: bool, optional: bool)

  datatype Kind = Named | Variadic | PositionalOnly

  /** What `_find_depends` found. */
  datatype Marker = NoMarker | Conflicting | Depends(target: CallId, useCache: bool)

  datatype ParamDecl = ParamDecl(
    name: string, kind: Kind, marker: Marker, annotation: Annotation, default: Option<Value>)

  /** A callable as `inspect` sees it. */
  datatype Callable =
    | NoSignature
    | NoHints
    | Callable(decls: seq<ParamDecl>, isAsync: bool, isAsyncGen: bool, isSyncGen: bool)

  datatype Scope = Http | WebSocket

  /** What one route's plan is built from. */
  datatype Site = Site(graph: map<CallId, Callable>, converters: map<string, Scalar>, scope: Scope)
  {
    predicate Inspectable(call: CallId) {
      call in graph && graph[call].Callable?
    }
  }

  datatype Error =
    | Circular | NotInspectable | BadHints
    | VariadicParam | PositionalParam | TwoMarkers
    | WrongConnection | NameClash | ReadsAsQuery | PathDisagrees | NothingToResolve | Unsupported

  /** Where a parameter stands in the tree: the indices that lead to it. It plays the part of
      the object's identity. */
  type Place = seq<nat>

  datatype QuerySpec = QuerySpec(
    place: Place, name: string, item: Scalar, isList: bool, optional: bool, default: Option<Value>)

  datatype Dependency = Dependency(
    call: CallId, plan: Plan, useCache: bool, isAsync: bool, isAsyncGen: bool, isSyncGen: bool)
  {
    predicate IsGenerator() {
      isAsyncGen || isSyncGen
    }
  }

  datatype Param =
    | FromConnection(name: string)
    | FromPath(name: string)
    | FromQuery(name: string, query: QuerySpec)
    | FromDependency(name: string, dependency: Dependency)

  datatype Plan = Plan(params: seq<Param>, querySpecs: seq<QuerySpec>, needsTeardown: bool, isTrivial: bool)

  datatype Result<T> = Ok(value: T) | Fail(error: Error)

  // ---- one parameter

  datatype Class =
    | Refused(error: Error)
    | Connection
    | Path
    | Query(item: Scalar, isList: bool, optional: bool)
    | Dependent(target: CallId, useCache: bool)

  function Wanted(scope: Scope): Annotation {
    if scope == Http then RequestClass else WebSocketClass
  }

  function Other(scope: Scope): Annotation {
    if scope == Http then WebSocketClass else RequestClass
  }

  function ConnectionName(scope: Scope): string {
    if scope == Http then "request" else "websocket"
  }

  function OtherName(scope: Scope): string {
    if scope == Http then "websocket" else "request"
  }

  /** `_check_path_annotation`. */
  predicate PathAgrees(annotation: Annotation, converter: Scalar) {
    || annotation.Unannotated?
    || (annotation.Typed? && !annotation.isList && annotation.item == Some(converter))
  }

  /** `_build_query_spec`, short of the object. */
  function ClassifyQuery(d: ParamDecl): Class {
    match d.annotation
    case Unannotated => if d.default.None? then Refused(NothingToResolve) else Query(Str, false, false)
    case Typed(Some(item), isList, optional) => Query(item, isList, optional)
    case _ => Refused(Unsupported)
  }

  /** The body of the loop in `build_plan`, in its order of precedence. */
  function Classify(site: Site, d: ParamDecl): Class {
    if d.kind.Variadic? then Refused(VariadicParam)
    else if d.kind.PositionalOnly? then Refused(PositionalParam)
    else if d.marker.Conflicting? then Refused(TwoMarkers)
    else if d.marker.Depends? then Dependent(d.marker.target, d.marker.useCache)
    else if d.annotation == Other(site.scope) then Refused(WrongConnection)
    else if d.annotation == Wanted(site.scope) || (d.annotation.Unannotated? && d.name == ConnectionName(site.scope)) then
      if d.name in site.converters then Refused(NameClash) else Connection
    else if d.annotation.Unannotated? && d.name == OtherName(site.scope) then Refused(ReadsAsQuery)
    else if d.name in site.converters then
      if PathAgrees(d.annotation, site.converters[d.name]) then Path else Refused(PathDisagrees)
    else ClassifyQuery(d)
  }

  // ---- the plan

  /** `_flatten_query_specs`. */
  function Flattened(params: seq<Param>): seq<QuerySpec>
    decreases |params|
  {
    if params == [] then []
    else
      var last := params[|params| - 1];
      Flattened(params[..|params| - 1]) +
      match last
      case FromQuery(_, spec) => [spec]
      case FromDependency(_, dep) => dep.plan.querySpecs
      case _ => []
  }

  /** `_any_teardown`. */
  predicate AnyTeardown(params: seq<Param>) {
    exists i :: 0 <= i < |params| && NeedsTeardown(params[i])
  }

  predicate NeedsTeardown(param: Param) {
    param.FromDependency? && (param.dependency.IsGenerator() || param.dependency.plan.needsTeardown)
  }

  function Finished(params: seq<Param>): Plan {
    Plan(params, Flattened(params), AnyTeardown(params), |params| == 1 && params[0].FromConnection?)
  }

  /** How many callables are not yet on the way from the handler. */
  function Left(site: Site, seen: set<CallId>): nat {
    |site.graph.Keys - seen|
  }

  lemma FewerLeft(site: Site, seen: set<CallId>, call: CallId)
    requires call in site.graph && call !in seen
    ensures Left(site, seen + {call}) < Left(site, seen)
  {
    assert site.graph.Keys - (seen + {call}) == site.graph.Keys - seen - {call};
  }

  /** `build_plan`. It terminates on every graph: each level has one more callable behind it. */
  function Build(site: Site, call: CallId, seen: set<CallId>, at: Place): (r: Result<Plan>)
    ensures r.Ok? ==> site.Inspectable(call) && call !in seen
    decreases Left(site, seen), 2, 0
  {
    if call in seen then Fail(Circular)
    else if call !in site.graph || site.graph[call].NoSignature? then Fail(NotInspectable)
    else if site.graph[call].NoHints? then Fail(BadHints)
    else
      match BuildUpTo(site, call, seen, at, |site.graph[call].decls|)
      case Fail(e) => Fail(e)
      case Ok(params) => Ok(Finished(params))
  }

  /** The first n parameters. */
  function BuildUpTo(site: Site, call: CallId, seen: set<CallId>, at: Place, n: nat): (r: Result<seq<Param>>)
    requires site.Inspectable(call) && call !in seen && n <= |site.graph[call].decls|
    ensures r.Ok? ==> |r.value| == n
    decreases Left(site, seen), 1, n
  {
    if n == 0 then Ok([])
    else
      match BuildUpTo(site, call, seen, at, n - 1)
      case Fail(e) => Fail(e)
      case Ok(params) =>
        match BuildParam(site, call, seen, at, n - 1)
        case Fail(e) => Fail(e)
        case Ok(param) => Ok(params + [param])
  }

  function BuildParam(site: Site, call: CallId, seen: set<CallId>, at: Place, i: nat): Result<Param>
    requires site.Inspectable(call) && call !in seen && i < |site.graph[call].decls|
    decreases Left(site, seen), 0, 0
  {
    var d := site.graph[call].decls[i];
    match Classify(site, d)
    case Refused(e) => Fail(e)
    case Connection => Ok(FromConnection(d.name))
    case Path => Ok(FromPath(d.name))
    case Query(item, isList, optional) =>
      Ok(FromQuery(d.name, QuerySpec(at + [i], d.name, item, isList, optional, d.default)))
    case Dependent(target, useCache) =>
      FewerLeft(site, seen, call);
      match Build(site, target, seen + {call}, at + [i])
      case Fail(e) => Fail(e)
      case Ok(plan) =>
        var c := site.graph[target];
        Ok(FromDependency(d.name, Dependency(target, plan, useCache, c.isAsync, c.isAsyncGen, c.isSyncGen)))
  }

  // ---- the same, step by step

  lemma {:induction false} FailStays(site: Site, call: CallId, seen: set<CallId>, at: Place, i: nat, n: nat)
    requires site.Inspectable(call) && call !in seen && i <= n <= |site.graph[call].decls|
    requires BuildUpTo(site, call, seen, at, i).Fail?
    ensures BuildUpTo(site, call, seen, at, n) == BuildUpTo(site, call, seen, at, i)
    decreases n
  {
    if i < n {
      FailStays(site, call, seen, at, i, n - 1);
    }
  }

  /** `_flatten_query_specs`. */
  method FlattenQuerySpecs(params: seq<Param>) returns (specs: seq<QuerySpec>)
    ensures specs == Flattened(params)
  {
    specs := [];
    for i := 0 to |params|
      invariant specs == Flattened(params[..i])
    {
      assert params[..i + 1][..i] == params[..i];
      match params[i] {
        case FromQuery(_, spec) => specs := specs + [spec];
        case FromDependency(_, dep) => specs := specs + dep.plan.querySpecs;
        case _ =>
          assert specs + [] == specs;
      }
    }
    assert params[..|params|] == params;
  }

  /** `_any_teardown`. */
  method FindTeardown(params: seq<Param>) returns (found: bool)
    ensures found == AnyTeardown(params)
  {
    for i := 0 to |params|
      invariant forall j :: 0 <= j < i ==> !NeedsTeardown(params[j])
    {
      if params[i].FromDependency? && (params[i].dependency.IsGenerator() || params[i].dependency.plan.needsTeardown) {
        assert NeedsTeardown(params[i]);
        return true;
      }
    }
    found := false;
  }

  /** `build_plan`. */
  method BuildPlan(site: Site, call: CallId, seen: set<CallId>, at: Place) returns (r: Result<Plan>)
    ensures r == Build(site, call, seen, at)
    decreases Left(site, seen), 1
  {
    if call in seen {
      return Fail(Circular);
    }
    if call !in site.graph || site.graph[call].NoSignature? {
      return Fail(NotInspectable);
    }
    if site.graph[call].NoHints? {
      return Fail(BadHints);
    }
    var params: seq<Param> := [];
    var decls := site.graph[call].decls;
    for i := 0 to |decls|
      invariant BuildUpTo(site, call, seen, at, i) == Ok(params)
    {
      var param := PlanParam(site, call, seen, at, i);
      if param.Fail? {
        FailStays(site, call, seen, at, i + 1, |decls|);
        return Fail(param.error);
      }
      params := params + [param.value];
    }
    var specs := FlattenQuerySpecs(params);
    var teardown := FindTeardown(params);
    r := Ok(Plan(params, specs, teardown, |params| == 1 && params[0].FromConnection?));
  }

  /** One turn of the loop in `build_plan`, with `_build_dependency` and `_build_query_spec`. */
  method PlanParam(site: Site, call: CallId, seen: set<CallId>, at: Place, i: nat) returns (r: Result<Param>)
    requires site.Inspectable(call) && call !in seen && i < |site.graph[call].decls|
    ensures r == BuildParam(site, call, seen, at, i)
    decreases Left(site, seen), 0
  {
    var d := site.graph[call].decls[i];
    match Classify(site, d) {
      case Refused(e) => r := Fail(e);
      case Connection => r := Ok(FromConnection(d.name));
      case Path => r := Ok(FromPath(d.name));
      case Query(item, isList, optional) =>
        r := Ok(FromQuery(d.name, QuerySpec(at + [i], d.name, item, isList, optional, d.default)));
      case Dependent(target, useCache) =>
        FewerLeft(site, seen, call);
        var plan := BuildPlan(site, target, seen + {call}, at + [i]);
        if plan.Fail? {
          return Fail(plan.error);
        }
        var c := site.graph[target];
        r := Ok(FromDependency(d.name, Dependency(target, plan.value, useCache, c.isAsync, c.isAsyncGen, c.isSyncGen)));
    }
  }
}
