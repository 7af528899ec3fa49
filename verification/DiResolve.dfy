/** Executing a plan against one connection: every query parameter first, then the
    dependencies, with a cache by callable and a stack of entered generators. Beside it,
    the plain recursion that it must agree with. */
module DiResolving {
  import opened Wrappers
  import opened DiPlans
  import opened DiGraphs

  type Kwargs = map<string, Value>

  /** What calling a dependency comes to. */
  datatype Called = Returns(value: Value) | Raises(error: Value)

  /** One request. `call` is what the callables do: pure, as the caller promises. */
  datatype Env = Env(
    path: string -> Value,
    query: map<string, seq<string>>,
    parse: (Scalar, string) -> Option<Value>,
    call: (CallId, Kwargs) -> Called)

  // ---- query parameters

  datatype QueryError = Missing(name: string) | NotParsed(name: string, item: Scalar)

  datatype Scanned = Got(value: Value) | Bad(errors: seq<QueryError>)

  /** `get_list`. */
  function RawValues(env: Env, name: string): seq<string> {
    if name in env.query then env.query[name] else []
  }

  /** A parameter that the query string does not carry. */
  function Absent(spec: QuerySpec): Scanned {
    if spec.default.Some? then Got(spec.default.value)
    else if spec.optional then Got(PyNone)
    else Bad([Missing(spec.name)])
  }

  /** `_convert`. */
  function Convert(env: Env, name: string, item: Scalar, raw: string): Scanned {
    match env.parse(item, raw)
    case Some(value) => Got(value)
    case None => Bad([NotParsed(name, item)])
  }

  datatype Conversion = Conversion(values: seq<Value>, errors: seq<QueryError>)
  {
    function Plus(next: Scanned): Conversion {
      match next
      case Got(value) => Conversion(values + [value], errors)
      case Bad(more) => Conversion(values, errors + more)
    }
  }

  /** The values that convert, and the errors of those that do not. */
  function Converted(env: Env, name: string, item: Scalar, raw: seq<string>): Conversion
    decreases |raw|
  {
    if raw == [] then Conversion([], [])
    else Converted(env, name, item, raw[..|raw| - 1]).Plus(Convert(env, name, item, raw[|raw| - 1]))
  }

  /** `_resolve_query`. */
  function Scan(env: Env, spec: QuerySpec): Scanned {
    var raw := RawValues(env, spec.name);
    if raw == [] then Absent(spec)
    else if spec.isList then
      var all := Converted(env, spec.name, spec.item, raw);
      if all.errors == [] then Got(PyList(all.values)) else Bad(all.errors)
    else Convert(env, spec.name, spec.item, raw[0])
  }

  /** `_resolve_all_scalars`: the values by identity, and every error in order. */
  function Scalars(env: Env, specs: seq<QuerySpec>): map<Place, Value>
    decreases |specs|
  {
    if specs == [] then map[]
    else
      var values := Scalars(env, specs[..|specs| - 1]);
      match Scan(env, specs[|specs| - 1])
      case Got(value) => values[specs[|specs| - 1].place := value]
      case Bad(_) => values
  }

  function Errors(env: Env, specs: seq<QuerySpec>): seq<QueryError>
    decreases |specs|
  {
    if specs == [] then []
    else
      Errors(env, specs[..|specs| - 1]) + SpecErrors(env, specs[|specs| - 1])
  }

  function SpecErrors(env: Env, spec: QuerySpec): seq<QueryError> {
    match Scan(env, spec)
    case Got(_) => []
    case Bad(errors) => errors
  }

  // ---- the plain recursion

  datatype Outcome = Kwargs(kwargs: Kwargs) | Raised(error: Value)
  {
    /** One more keyword argument; the first exception stands. */
    function Plus(name: string, called: Called): Outcome {
      match this
      case Raised(_) => this
      case Kwargs(kwargs) =>
        match called
        case Raises(e) => Raised(e)
        case Returns(value) => Kwargs(kwargs[name := value])
    }
  }

  /** Every parameter afresh, every dependency called each time it is named. */
  function PlainUpTo(env: Env, plan: Plan, n: nat): Outcome
    requires n <= |plan.params|
    decreases plan, n
  {
    if n == 0 then Kwargs(map[])
    else PlainUpTo(env, plan, n - 1).Plus(plan.params[n - 1].name, PlainParam(env, plan.params[n - 1]))
  }

  function PlainParam(env: Env, param: Param): Called
    decreases param, 0
  {
    match param
    case FromConnection(_) => Returns(PyConnection)
    case FromPath(name) => Returns(env.path(name))
    case FromQuery(_, spec) => Returns(QueryValue(env, spec))
    case FromDependency(_, dep) =>
      match PlainUpTo(env, dep.plan, |dep.plan.params|)
      case Raised(e) => Raises(e)
      case Kwargs(kwargs) => env.call(dep.call, kwargs)
  }

  function QueryValue(env: Env, spec: QuerySpec): Value {
    match Scan(env, spec)
    case Got(value) => value
    case Bad(_) => PyNone
  }

  /** The errors of the query parameters below the first n parameters, by a walk of the tree. */
  function TreeErrors(env: Env, plan: Plan, n: nat): seq<QueryError>
    requires n <= |plan.params|
    decreases plan, n
  {
    if n == 0 then []
    else
      TreeErrors(env, plan, n - 1) +
      match plan.params[n - 1]
      case FromQuery(_, spec) => SpecErrors(env, spec)
      case FromDependency(_, dep) => TreeErrors(env, dep.plan, |dep.plan.params|)
      case _ => []
  }

  datatype Answer = Invalid(errors: seq<QueryError>) | Done(outcome: Outcome)

  /** The reference: refuse if any query parameter anywhere is wrong, else evaluate plainly. */
  function Plain(env: Env, plan: Plan): Answer {
    var errors := TreeErrors(env, plan, |plan.params|);
    if errors != [] then Invalid(errors) else Done(PlainUpTo(env, plan, |plan.params|))
  }

  // ---- the execution

  /** One call of a dependency; `uses` are the earlier calls whose values it was passed. */
  datatype Invocation = Invocation(call: CallId, uses: set<nat>, generator: bool, returned: bool)

  /** A cached value and the call it came from. */
  datatype Entry = Entry(value: Value, origin: nat)

  /** `stack` names the generator calls entered, in order. `log` is history. */
  datatype Exec = Exec(cache: map<CallId, Entry>, log: seq<Invocation>, stack: seq<nat>)
  {
    /** `_call_dependency`, and the cache behind it. */
    function Invoke(env: Env, dep: Dependency, kwargs: Kwargs, uses: set<nat>): Exec {
      var index := |log|;
      match env.call(dep.call, kwargs)
      case Raises(_) => this.(log := log + [Invocation(dep.call, uses, dep.IsGenerator(), false)])
      case Returns(value) =>
        Exec(if dep.useCache then cache[dep.call := Entry(value, index)] else cache,
             log + [Invocation(dep.call, uses, dep.IsGenerator(), true)],
             if dep.IsGenerator() then stack + [index] else stack)
    }
  }

  const IDLE := Exec(map[], [], [])

  datatype Supplied = Supplied(called: Called, uses: set<nat>, exec: Exec)

  datatype Filled = Filled(outcome: Outcome, uses: set<nat>, exec: Exec)
  {
    /** One more keyword argument. */
    function Plus(name: string, s: Supplied): Filled
      requires outcome.Kwargs?
    {
      match s.called
      case Raises(e) => Filled(Raised(e), uses, s.exec)
      case Returns(value) => Filled(Kwargs(outcome.kwargs[name := value]), uses + s.uses, s.exec)
    }
  }

  /** The values of pass one are there for the whole tree. */
  predicate Covers(scalars: map<Place, Value>, plan: Plan)
    decreases plan
  {
    forall i :: 0 <= i < |plan.params| ==> ParamCovers(scalars, plan.params[i])
  }

  predicate ParamCovers(scalars: map<Place, Value>, param: Param)
    decreases param
  {
    && (param.FromQuery? ==> param.query.place in scalars)
    && (param.FromDependency? ==> Covers(scalars, param.dependency.plan))
  }

  /** `_resolve_params`, up to the first n parameters. */
  function ResolveUpTo(env: Env, plan: Plan, scalars: map<Place, Value>, x: Exec, n: nat): Filled
    requires n <= |plan.params| && Covers(scalars, plan)
    decreases plan, n
  {
    if n == 0 then Filled(Kwargs(map[]), {}, x)
    else
      var before := ResolveUpTo(env, plan, scalars, x, n - 1);
      if before.outcome.Raised? then before
      else
        assert ParamCovers(scalars, plan.params[n - 1]);
        before.Plus(plan.params[n - 1].name, ResolveParam(env, plan.params[n - 1], scalars, before.exec))
  }

  function ResolveParam(env: Env, param: Param, scalars: map<Place, Value>, x: Exec): Supplied
    requires ParamCovers(scalars, param)
    decreases param, 1
  {
    match param
    case FromConnection(_) => Supplied(Returns(PyConnection), {}, x)
    case FromPath(name) => Supplied(Returns(env.path(name)), {}, x)
    case FromQuery(_, spec) => Supplied(Returns(scalars[spec.place]), {}, x)
    case FromDependency(_, dep) => ResolveDependency(env, dep, scalars, x)
  }

  /** `_resolve_dependency`. */
  function ResolveDependency(env: Env, dep: Dependency, scalars: map<Place, Value>, x: Exec): Supplied
    requires Covers(scalars, dep.plan)
    decreases dep, 0
  {
    if dep.useCache && dep.call in x.cache then
      Supplied(Returns(x.cache[dep.call].value), {x.cache[dep.call].origin}, x)
    else
      var filled := ResolveUpTo(env, dep.plan, scalars, x, |dep.plan.params|);
      match filled.outcome
      case Raised(e) => Supplied(Raises(e), {}, filled.exec)
      case Kwargs(kwargs) =>
        Supplied(env.call(dep.call, kwargs), {|filled.exec.log|}, filled.exec.Invoke(env, dep, kwargs, filled.uses))
  }

  datatype Resolution = Resolution(answer: Answer, exec: Exec)

  /** `resolve`. The flattened query parameters are those of the tree. */
  function Resolve(env: Env, plan: Plan): Resolution
    requires plan.isTrivial ==> |plan.params| > 0
    requires Errors(env, plan.querySpecs) == [] ==> Covers(Scalars(env, plan.querySpecs), plan)
  {
    if plan.isTrivial then Resolution(Done(Kwargs(map[plan.params[0].name := PyConnection])), IDLE)
    else
      var errors := Errors(env, plan.querySpecs);
      if errors != [] then Resolution(Invalid(errors), IDLE)
      else
        var filled := ResolveUpTo(env, plan, Scalars(env, plan.querySpecs), IDLE, |plan.params|);
        Resolution(Done(filled.outcome), filled.exec)
  }

  // ---- the same, step by step

  /** `_resolve_query`. */
  method ResolveQuery(env: Env, spec: QuerySpec) returns (r: Scanned)
    ensures r == Scan(env, spec)
  {
    var raw := RawValues(env, spec.name);
    if raw == [] {
      return Absent(spec);
    }
    if !spec.isList {
      return Convert(env, spec.name, spec.item, raw[0]);
    }
    var values: seq<Value>, errors: seq<QueryError> := [], [];
    for i := 0 to |raw|
      invariant Conversion(values, errors) == Converted(env, spec.name, spec.item, raw[..i])
    {
      assert raw[..i + 1][..i] == raw[..i];
      match Convert(env, spec.name, spec.item, raw[i]) {
        case Got(value) => values := values + [value];
        case Bad(more) => errors := errors + more;
      }
    }
    assert raw[..|raw|] == raw;
    r := if errors == [] then Got(PyList(values)) else Bad(errors);
  }

  /** `_resolve_all_scalars`. */
  method ResolveAllScalars(env: Env, specs: seq<QuerySpec>) returns (values: map<Place, Value>, errors: seq<QueryError>)
    ensures values == Scalars(env, specs) && errors == Errors(env, specs)
  {
    values, errors := map[], [];
    for i := 0 to |specs|
      invariant values == Scalars(env, specs[..i]) && errors == Errors(env, specs[..i])
    {
      assert specs[..i + 1][..i] == specs[..i];
      var scanned := ResolveQuery(env, specs[i]);
      match scanned {
        case Got(value) => values := values[specs[i].place := value];
        case Bad(more) => errors := errors + more;
      }
    }
    assert specs[..|specs|] == specs;
  }

  lemma {:induction false} RaisedStays(env: Env, plan: Plan, scalars: map<Place, Value>, x: Exec, i: nat, n: nat)
    requires i <= n <= |plan.params| && Covers(scalars, plan)
    requires ResolveUpTo(env, plan, scalars, x, i).outcome.Raised?
    ensures ResolveUpTo(env, plan, scalars, x, n) == ResolveUpTo(env, plan, scalars, x, i)
    decreases n
  {
    if i < n {
      RaisedStays(env, plan, scalars, x, i, n - 1);
    }
  }

  lemma TeardownBelow(plan: Plan, i: nat)
    requires i < |plan.params| && plan.params[i].FromDependency? && !HasGenerator(plan)
    ensures !HasGenerator(plan.params[i].dependency.plan) && !plan.params[i].dependency.IsGenerator()
  {
  }

  /** The state of one `resolve`: its cache and the exit stack, which is there only when the
      plan has something to tear down. */
  class Resolver {
    const env: Env
    const scalars: map<Place, Value>
    const hasStack: bool
    var cache: map<CallId, Entry>
    var stack: seq<nat>
    var calls: nat
    ghost var log: seq<Invocation>

    ghost function View(): Exec
      reads this
    {
      Exec(cache, log, stack)
    }

    ghost predicate Valid()
      reads this
    {
      calls == |log|
    }

    constructor (env: Env, scalars: map<Place, Value>, hasStack: bool)
      ensures this.env == env && this.scalars == scalars && this.hasStack == hasStack
      ensures Valid() && View() == IDLE
    {
      this.env, this.scalars, this.hasStack := env, scalars, hasStack;
      cache, stack, calls, log := map[], [], 0, [];
    }

    /** `_call_dependency`: a generator is entered on the stack, which must be there. */
    method CallDependency(dep: Dependency, kwargs: Kwargs, ghost uses: set<nat>) returns (called: Called)
      requires Valid() && (dep.IsGenerator() ==> hasStack)
      modifies this`stack, this`calls, this`log
      ensures Valid() && called == env.call(dep.call, kwargs)
      ensures log == old(log) + [Invocation(dep.call, uses, dep.IsGenerator(), called.Returns?)]
      ensures stack == if dep.IsGenerator() && called.Returns? then old(stack) + [old(calls)] else old(stack)
    {
      called := env.call(dep.call, kwargs);
      log := log + [Invocation(dep.call, uses, dep.IsGenerator(), called.Returns?)];
      if (dep.isAsyncGen || dep.isSyncGen) && called.Returns? {
        stack := stack + [calls];
      }
      calls := calls + 1;
    }

    /** `_resolve_dependency`. */
    method SupplyDependency(dep: Dependency) returns (called: Called, ghost uses: set<nat>)
      requires Valid() && Covers(scalars, dep.plan)
      requires dep.IsGenerator() || HasGenerator(dep.plan) ==> hasStack
      modifies this
      ensures Valid()
      ensures Supplied(called, uses, View()) == ResolveDependency(env, dep, scalars, old(View()))
      decreases dep, 0
    {
      var key := dep.call;
      if dep.useCache && key in cache {
        return Returns(cache[key].value), {cache[key].origin};
      }
      var outcome: Outcome;
      ghost var passed: set<nat>;
      outcome, passed := ResolveParams(dep.plan);
      if outcome.Raised? {
        return Raises(outcome.error), {};
      }
      var index := calls;
      called := CallDependency(dep, outcome.kwargs, passed);
      uses := {index};
      if dep.useCache && called.Returns? {
        cache := cache[key := Entry(called.value, index)];
      }
    }

    /** `_resolve_params`. */
    method ResolveParams(plan: Plan) returns (outcome: Outcome, ghost uses: set<nat>)
      requires Valid() && Covers(scalars, plan)
      requires HasGenerator(plan) ==> hasStack
      modifies this
      ensures Valid()
      ensures Filled(outcome, uses, View()) == ResolveUpTo(env, plan, scalars, old(View()), |plan.params|)
      decreases plan, 1
    {
      var kwargs: Kwargs := map[];
      uses := {};
      for i := 0 to |plan.params|
        invariant Valid()
        invariant ResolveUpTo(env, plan, scalars, old(View()), i) == Filled(Kwargs(kwargs), uses, View())
      {
        var param := plan.params[i];
        assert ParamCovers(scalars, param);
        var called: Called;
        ghost var used: set<nat> := {};
        match param {
          case FromConnection(_) => called := Returns(PyConnection);
          case FromPath(name) => called := Returns(env.path(name));
          case FromQuery(_, spec) => called := Returns(scalars[spec.place]);
          case FromDependency(_, dep) =>
            if !hasStack {
              TeardownBelow(plan, i);
            }
            called, used := SupplyDependency(dep);
        }
        if called.Raises? {
          RaisedStays(env, plan, scalars, old(View()), i + 1, |plan.params|);
          return Raised(called.error), uses;
        }
        kwargs := kwargs[param.name := called.value];
        uses := uses + used;
      }
      outcome := Kwargs(kwargs);
    }
  }

  /** `resolve`, given an exit stack whenever the plan asks for one. `exec` is what it did: the
      calls, the cache and the stack. */
  method RunPlan(env: Env, plan: Plan) returns (answer: Answer, ghost exec: Exec)
    requires plan.isTrivial ==> |plan.params| > 0
    requires Errors(env, plan.querySpecs) == [] ==> Covers(Scalars(env, plan.querySpecs), plan)
    requires plan.needsTeardown == HasGenerator(plan)
    ensures answer == Resolve(env, plan).answer
    ensures exec == Resolve(env, plan).exec
  {
    if plan.isTrivial {
      return Done(Kwargs(map[plan.params[0].name := PyConnection])), IDLE;
    }
    var scalars, errors := ResolveAllScalars(env, plan.querySpecs);
    if errors != [] {
      return Invalid(errors), IDLE;
    }
    var resolver := new Resolver(env, scalars, plan.needsTeardown);
    var outcome: Outcome;
    ghost var uses: set<nat>;
    outcome, uses := resolver.ResolveParams(plan);
    answer, exec := Done(outcome), resolver.View();
  }
}
