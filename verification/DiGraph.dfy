/** What a successful plan, and a refused one, say about the dependency graph. */
module DiGraphs {
  import opened DiPlans

  // ---- reachability

  predicate DependsOn(site: Site, d: ParamDecl, target: CallId) {
    Classify(site, d).Dependent? && Classify(site, d).target == target
  }

  predicate Edge(site: Site, a: CallId, b: CallId) {
    site.Inspectable(a) && exists i :: 0 <= i < |site.graph[a].decls| && DependsOn(site, site.graph[a].decls[i], b)
  }

  /** A walk along dependencies that starts at `call`. */
  predicate IsPath(site: Site, call: CallId, path: seq<CallId>) {
    && path != [] && path[0] == call
    && forall k :: 0 <= k < |path| - 1 ==> Edge(site, path[k], path[k + 1])
  }

  predicate Repeats(path: seq<CallId>) {
    exists i, j :: 0 <= i < j < |path| && path[i] == path[j]
  }

  predicate Meets(path: seq<CallId>, seen: set<CallId>) {
    exists i :: 0 <= i < |path| && path[i] in seen
  }

  /** A callable that can be inspected and none of whose parameters is refused. */
  predicate Sound(site: Site, call: CallId) {
    site.Inspectable(call) && forall i :: 0 <= i < |site.graph[call].decls| ==> !Classify(site, site.graph[call].decls[i]).Refused?
  }

  function Last(path: seq<CallId>): CallId
    requires path != []
  {
    path[|path| - 1]
  }

  // ---- success

  /** Every parameter of a plan that was built was built. */
  lemma {:induction false} EachBuilt(site: Site, call: CallId, seen: set<CallId>, at: Place, n: nat, i: nat)
    requires site.Inspectable(call) && call !in seen && i < n <= |site.graph[call].decls|
    requires BuildUpTo(site, call, seen, at, n).Ok?
    ensures BuildParam(site, call, seen, at, i) == Ok(BuildUpTo(site, call, seen, at, n).value[i])
    decreases n
  {
    if i < n - 1 {
      EachBuilt(site, call, seen, at, n - 1, i);
    }
  }

  lemma BuiltIsSound(site: Site, call: CallId, seen: set<CallId>, at: Place)
    requires Build(site, call, seen, at).Ok?
    ensures Sound(site, call) && call !in seen
  {
    var n := |site.graph[call].decls|;
    forall i | 0 <= i < n ensures !Classify(site, site.graph[call].decls[i]).Refused? {
      EachBuilt(site, call, seen, at, n, i);
    }
  }

  lemma StepOfPath(site: Site, call: CallId, path: seq<CallId>) returns (i: nat)
    requires IsPath(site, call, path) && |path| > 1
    ensures site.Inspectable(call) && i < |site.graph[call].decls| && DependsOn(site, site.graph[call].decls[i], path[1])
    ensures IsPath(site, path[1], path[1..])
  {
    assert Edge(site, path[0], path[0 + 1]);
    i :| 0 <= i < |site.graph[call].decls| && DependsOn(site, site.graph[call].decls[i], path[1]);
    forall k | 0 <= k < |path[1..]| - 1 ensures Edge(site, path[1..][k], path[1..][k + 1]) {
      assert Edge(site, path[k + 1], path[k + 1 + 1]);
    }
  }

  /** Behind a plan every walk is free of repetition and ends at a sound callable. */
  lemma {:induction false} SuccessIsClear(site: Site, call: CallId, seen: set<CallId>, at: Place, path: seq<CallId>)
    requires Build(site, call, seen, at).Ok? && IsPath(site, call, path)
    ensures !Repeats(path) && !Meets(path, seen) && Sound(site, Last(path))
    decreases |path|
  {
    BuiltIsSound(site, call, seen, at);
    if |path| > 1 {
      var i := StepOfPath(site, call, path);
      EachBuilt(site, call, seen, at, |site.graph[call].decls|, i);
      SuccessIsClear(site, path[1], seen + {call}, at + [i], path[1..]);
      var rest := path[1..];
      assert forall k :: 1 <= k < |path| ==> path[k] == rest[k - 1];
      forall k | 0 <= k < |rest| ensures rest[k] !in seen && rest[k] != call {
        assert rest[k] !in seen + {call};
      }
    }
  }

  // ---- failure

  /** The parameter at which building stopped. */
  lemma {:induction false} FirstFailure(site: Site, call: CallId, seen: set<CallId>, at: Place, n: nat) returns (i: nat)
    requires site.Inspectable(call) && call !in seen && n <= |site.graph[call].decls|
    requires BuildUpTo(site, call, seen, at, n).Fail?
    ensures i < n && BuildParam(site, call, seen, at, i) == Fail(BuildUpTo(site, call, seen, at, n).error)
    decreases n
  {
    if BuildUpTo(site, call, seen, at, n - 1).Fail? {
      i := FirstFailure(site, call, seen, at, n - 1);
    } else {
      i := n - 1;
    }
  }

  /** A refusal has a walk to show for it: one that comes back to where it was, when the
      error is the circular one, and otherwise one that ends at an unsound callable. */
  lemma {:induction false} FailureWitness(site: Site, call: CallId, seen: set<CallId>, at: Place) returns (path: seq<CallId>)
    requires Build(site, call, seen, at).Fail?
    ensures IsPath(site, call, path)
    ensures if Build(site, call, seen, at).error.Circular? then Repeats(path) || Meets(path, seen)
            else !Sound(site, Last(path))
    decreases Left(site, seen)
  {
    path := [call];
    if call in seen {
      assert path[0] in seen;
    } else if site.Inspectable(call) {
      var i := FirstFailure(site, call, seen, at, |site.graph[call].decls|);
      var d := site.graph[call].decls[i];
      if Classify(site, d).Dependent? {
        var target := Classify(site, d).target;
        FewerLeft(site, seen, call);
        var rest := FailureWitness(site, target, seen + {call}, at + [i]);
        assert DependsOn(site, d, target);
        path := Extended(site, call, target, rest, seen);
      } else {
        NoCircularClass(site, d);
      }
    }
  }

  lemma NoCircularClass(site: Site, d: ParamDecl)
    ensures Classify(site, d) != Refused(Circular)
  {
  }

  lemma Extended(site: Site, call: CallId, target: CallId, rest: seq<CallId>, seen: set<CallId>) returns (path: seq<CallId>)
    requires Edge(site, call, target) && IsPath(site, target, rest)
    ensures path == [call] + rest && IsPath(site, call, path) && Last(path) == Last(rest)
    ensures Repeats(rest) || Meets(rest, seen + {call}) ==> Repeats(path) || Meets(path, seen)
  {
    path := [call] + rest;
    forall k | 0 <= k < |path| - 1 ensures Edge(site, path[k], path[k + 1]) {
      if k > 0 {
        assert Edge(site, rest[k - 1], rest[k - 1 + 1]);
      }
    }
    if Repeats(rest) {
      var i, j :| 0 <= i < j < |rest| && rest[i] == rest[j];
      assert path[i + 1] == path[j + 1];
    } else if Meets(rest, seen + {call}) {
      var i :| 0 <= i < |rest| && rest[i] in seen + {call};
      assert path[i + 1] == rest[i];
      assert path[0] == call;
    }
  }

  /** A plan exists exactly when the graph that the handler reaches has no cycle and nothing
      in it is refused. */
  lemma PlannedIffAcyclic(site: Site, call: CallId, at: Place)
    ensures Build(site, call, {}, at).Ok? <==>
      forall path :: IsPath(site, call, path) ==> !Repeats(path) && Sound(site, Last(path))
  {
    if Build(site, call, {}, at).Ok? {
      forall path | IsPath(site, call, path) ensures !Repeats(path) && Sound(site, Last(path)) {
        SuccessIsClear(site, call, {}, at, path);
      }
    } else {
      var path := FailureWitness(site, call, {}, at);
    }
  }

  /** A circular dependency is reported only when a walk from the handler meets itself. */
  lemma CircularMeansCycle(site: Site, call: CallId, at: Place) returns (path: seq<CallId>)
    requires Build(site, call, {}, at) == Fail(Circular)
    ensures IsPath(site, call, path) && Repeats(path)
  {
    path := FailureWitness(site, call, {}, at);
  }

  // ---- the plan follows the graph

  /** The plan is one for that callable: parameter by parameter what its declaration says. */
  ghost predicate Fits(site: Site, call: CallId, plan: Plan)
    decreases plan, 1
  {
    && site.Inspectable(call)
    && |plan.params| == |site.graph[call].decls|
    && plan == Finished(plan.params)
    && forall i :: 0 <= i < |plan.params| ==> ParamFits(site, site.graph[call].decls[i], plan.params[i])
  }

  ghost predicate ParamFits(site: Site, d: ParamDecl, param: Param)
    decreases param, 0
  {
    match Classify(site, d)
    case Refused(_) => false
    case Connection => param == FromConnection(d.name)
    case Path => param == FromPath(d.name)
    case Query(item, isList, optional) =>
      && param.FromQuery? && param.name == d.name
      && param.query == QuerySpec(param.query.place, d.name, item, isList, optional, d.default)
    case Dependent(target, useCache) =>
      && param.FromDependency? && param.name == d.name && Fits(site, target, param.dependency.plan)
      && var c := site.graph[target];
         param.dependency == Dependency(target, param.dependency.plan, useCache, c.isAsync, c.isAsyncGen, c.isSyncGen)
  }

  /** Each query parameter's place is where it stands in the tree. */
  predicate Placed(plan: Plan, at: Place)
    decreases plan
  {
    forall i :: 0 <= i < |plan.params| ==> ParamPlaced(plan.params[i], at + [i])
  }

  predicate ParamPlaced(param: Param, at: Place)
    decreases param
  {
    && (param.FromQuery? ==> param.query.place == at)
    && (param.FromDependency? ==> Placed(param.dependency.plan, at))
  }

  lemma {:induction false} BuildFits(site: Site, call: CallId, seen: set<CallId>, at: Place)
    requires Build(site, call, seen, at).Ok?
    ensures Fits(site, call, Build(site, call, seen, at).value)
    ensures Placed(Build(site, call, seen, at).value, at)
    decreases Left(site, seen)
  {
    var plan := Build(site, call, seen, at).value;
    forall i | 0 <= i < |plan.params|
      ensures ParamFits(site, site.graph[call].decls[i], plan.params[i]) && ParamPlaced(plan.params[i], at + [i])
    {
      EachBuilt(site, call, seen, at, |plan.params|, i);
      var d := site.graph[call].decls[i];
      if Classify(site, d).Dependent? {
        FewerLeft(site, seen, call);
        BuildFits(site, Classify(site, d).target, seen + {call}, at + [i]);
      }
    }
  }

  // ---- the flattened fields are a full walk

  /** Every query parameter below the first n parameters, in order, dependencies in place. */
  function WalkSpecs(plan: Plan, n: nat): seq<QuerySpec>
    requires n <= |plan.params|
    decreases plan, n
  {
    if n == 0 then []
    else
      WalkSpecs(plan, n - 1) + ParamSpecs(plan.params[n - 1])
  }

  function ParamSpecs(param: Param): seq<QuerySpec>
    decreases param, 0
  {
    match param
    case FromQuery(_, spec) => [spec]
    case FromDependency(_, dep) => WalkSpecs(dep.plan, |dep.plan.params|)
    case _ => []
  }

  /** Some dependency at any depth is a generator. */
  predicate HasGenerator(plan: Plan)
    decreases plan
  {
    exists i :: 0 <= i < |plan.params| && plan.params[i].FromDependency? &&
      (plan.params[i].dependency.IsGenerator() || HasGenerator(plan.params[i].dependency.plan))
  }

  lemma {:induction false} FlattenedIsWalk(site: Site, call: CallId, plan: Plan, n: nat)
    requires Fits(site, call, plan) && n <= |plan.params|
    ensures Flattened(plan.params[..n]) == WalkSpecs(plan, n)
    decreases plan, n
  {
    if n > 0 {
      assert plan.params[..n][..n - 1] == plan.params[..n - 1];
      FlattenedIsWalk(site, call, plan, n - 1);
      var param := plan.params[n - 1];
      assert ParamFits(site, site.graph[call].decls[n - 1], param);
      if param.FromDependency? {
        var dep := param.dependency;
        FlattenedIsWalk(site, dep.call, dep.plan, |dep.plan.params|);
        assert dep.plan.params[..|dep.plan.params|] == dep.plan.params;
      }
    }
  }

  lemma {:induction false} TeardownIsWalk(site: Site, call: CallId, plan: Plan)
    requires Fits(site, call, plan)
    ensures plan.needsTeardown == HasGenerator(plan)
    decreases plan
  {
    forall i | 0 <= i < |plan.params| && plan.params[i].FromDependency?
      ensures plan.params[i].dependency.plan.needsTeardown == HasGenerator(plan.params[i].dependency.plan)
    {
      assert ParamFits(site, site.graph[call].decls[i], plan.params[i]);
      TeardownIsWalk(site, plan.params[i].dependency.call, plan.params[i].dependency.plan);
    }
    if plan.needsTeardown {
      var i :| 0 <= i < |plan.params| && NeedsTeardown(plan.params[i]);
    }
    if HasGenerator(plan) {
      var i :| 0 <= i < |plan.params| && plan.params[i].FromDependency? &&
        (plan.params[i].dependency.IsGenerator() || HasGenerator(plan.params[i].dependency.plan));
      assert NeedsTeardown(plan.params[i]);
    }
  }

  /** A plan's flattened query parameters and its teardown flag are those of its whole tree. */
  lemma FlatFieldsAreTheTree(site: Site, call: CallId, at: Place)
    requires Build(site, call, {}, at).Ok?
    ensures var plan := Build(site, call, {}, at).value;
      && plan.querySpecs == WalkSpecs(plan, |plan.params|)
      && plan.needsTeardown == HasGenerator(plan)
  {
    BuildFits(site, call, {}, at);
    var plan := Build(site, call, {}, at).value;
    FlattenedIsWalk(site, call, plan, |plan.params|);
    assert plan.params[..|plan.params|] == plan.params;
    TeardownIsWalk(site, call, plan);
  }
}
