/** Cached execution of a plan against the plain recursion: the same answer, no callable
    called before every query parameter is known to be good, cached callables called at
    most once, and generators torn down before what they were given. */
module DiRefinement {
  import opened DiPlans
  import opened DiGraphs
  import opened DiResolving

  // ---- pass one

  predicate Distinct(specs: seq<QuerySpec>) {
    forall i, j :: 0 <= i < j < |specs| ==> specs[i].place != specs[j].place
  }

  /** A place below `at`, under one of its first n parameters. */
  predicate Under(place: Place, at: Place, n: nat) {
    |at| < |place| && place[..|at|] == at && place[|at|] < n
  }

  predicate AllUnder(specs: seq<QuerySpec>, at: Place, n: nat) {
    forall k :: 0 <= k < |specs| ==> Under(specs[k].place, at, n)
  }

  /** Every place lies under parameter i itself. */
  predicate AllAt(specs: seq<QuerySpec>, at: Place, i: nat) {
    forall k :: 0 <= k < |specs| ==> Under(specs[k].place, at, i + 1) && !Under(specs[k].place, at, i)
  }

  lemma UnderDeeper(specs: seq<QuerySpec>, at: Place, i: nat, m: nat)
    requires AllUnder(specs, at + [i], m)
    ensures AllAt(specs, at, i)
  {
    forall k | 0 <= k < |specs| ensures Under(specs[k].place, at, i + 1) && !Under(specs[k].place, at, i) {
      var place := specs[k].place;
      assert Under(place, at + [i], m);
      assert place[..|at| + 1] == at + [i];
      assert place[|at|] == place[..|at| + 1][|at|] == i;
      assert place[..|at|] == place[..|at| + 1][..|at|] == at;
    }
  }

  lemma JoinDistinct(a: seq<QuerySpec>, b: seq<QuerySpec>, at: Place, n: nat)
    requires Distinct(a) && AllUnder(a, at, n) && Distinct(b) && AllAt(b, at, n)
    ensures Distinct(a + b) && AllUnder(a + b, at, n + 1)
  {
    var all := a + b;
    forall i, j | 0 <= i < j < |all| ensures all[i].place != all[j].place {
      if i < |a| {
        assert Under(a[i].place, at, n);
      }
      if j >= |a| {
        assert all[j] == b[j - |a|];
        assert !Under(b[j - |a|].place, at, n);
      }
    }
    forall k | 0 <= k < |all| ensures Under(all[k].place, at, n + 1) {
      if k < |a| {
        assert Under(a[k].place, at, n);
      } else {
        assert Under(b[k - |a|].place, at, n + 1);
      }
    }
  }

  /** No two query parameters of a tree share an identity. */
  lemma {:induction false} WalkDistinct(plan: Plan, at: Place, n: nat)
    requires Placed(plan, at) && n <= |plan.params|
    ensures Distinct(WalkSpecs(plan, n)) && AllUnder(WalkSpecs(plan, n), at, n)
    decreases plan, n
  {
    if n > 0 {
      WalkDistinct(plan, at, n - 1);
      assert ParamPlaced(plan.params[n - 1], at + [n - 1]);
      hide Placed, Distinct, AllUnder, AllAt;
      ParamDistinct(plan.params[n - 1], at, n - 1);
      hide ParamPlaced;
      JoinDistinct(WalkSpecs(plan, n - 1), ParamSpecs(plan.params[n - 1]), at, n - 1);
    }
  }

  lemma {:induction false} ParamDistinct(param: Param, at: Place, i: nat)
    requires ParamPlaced(param, at + [i])
    ensures Distinct(ParamSpecs(param)) && AllAt(ParamSpecs(param), at, i)
    decreases param, 0
  {
    if param.FromDependency? {
      var plan := param.dependency.plan;
      WalkDistinct(plan, at + [i], |plan.params|);
      UnderDeeper(WalkSpecs(plan, |plan.params|), at, i, |plan.params|);
    }
  }

  predicate Scored(env: Env, scalars: map<Place, Value>, spec: QuerySpec) {
    spec.place in scalars && scalars[spec.place] == QueryValue(env, spec)
  }

  predicate AllScored(env: Env, scalars: map<Place, Value>, specs: seq<QuerySpec>) {
    forall k :: 0 <= k < |specs| ==> Scored(env, scalars, specs[k])
  }

  /** The map keyed by identity holds every parameter's own value. */
  lemma {:induction false} ScalarsAreValues(env: Env, specs: seq<QuerySpec>)
    requires Distinct(specs) && Errors(env, specs) == []
    ensures AllScored(env, Scalars(env, specs), specs)
    decreases |specs|
  {
    if specs != [] {
      hide *;
      var n := |specs| - 1;
      LastScalar(env, specs);
      DistinctBefore(specs);
      ScalarsAreValues(env, specs[..n]);
      ScoredOneMore(env, Scalars(env, specs[..n]), specs);
    }
  }

  lemma DistinctBefore(specs: seq<QuerySpec>)
    requires specs != [] && Distinct(specs)
    ensures Distinct(specs[..|specs| - 1])
  {
  }

  lemma ScoredOneMore(env: Env, scalars: map<Place, Value>, specs: seq<QuerySpec>)
    requires specs != [] && Distinct(specs) && AllScored(env, scalars, specs[..|specs| - 1])
    ensures var last := specs[|specs| - 1]; AllScored(env, scalars[last.place := QueryValue(env, last)], specs)
  {
    var n := |specs| - 1;
    hide Scored, QueryValue;
    forall k | 0 <= k < |specs| ensures Scored(env, scalars[specs[n].place := QueryValue(env, specs[n])], specs[k]) {
      if k < n {
        assert specs[..n][k] == specs[k];
      }
      StillScored(env, scalars, specs[n], specs[k]);
    }
  }

  lemma StillScored(env: Env, scalars: map<Place, Value>, last: QuerySpec, spec: QuerySpec)
    requires spec == last || (spec.place != last.place && Scored(env, scalars, spec))
    ensures Scored(env, scalars[last.place := QueryValue(env, last)], spec)
  {
  }

  lemma LastScalar(env: Env, specs: seq<QuerySpec>)
    requires specs != [] && Errors(env, specs) == []
    ensures var n := |specs| - 1;
      && Errors(env, specs[..n]) == []
      && Scalars(env, specs) == Scalars(env, specs[..n])[specs[n].place := QueryValue(env, specs[n])]
  {
    BadHasErrors(env, specs[|specs| - 1]);
    hide Scan;
  }

  /** A parameter that fails says why. */
  lemma BadHasErrors(env: Env, spec: QuerySpec)
    ensures Scan(env, spec).Bad? ==> Scan(env, spec).errors != []
  {
  }

  /** Pass one holds, for every query parameter of the tree, its value. */
  predicate Right(env: Env, scalars: map<Place, Value>, plan: Plan)
    decreases plan
  {
    forall i :: 0 <= i < |plan.params| ==> ParamRight(env, scalars, plan.params[i])
  }

  predicate ParamRight(env: Env, scalars: map<Place, Value>, param: Param)
    decreases param
  {
    && (param.FromQuery? ==> Scored(env, scalars, param.query))
    && (param.FromDependency? ==> Right(env, scalars, param.dependency.plan))
  }

  lemma {:induction false} RightCovers(env: Env, scalars: map<Place, Value>, plan: Plan)
    requires Right(env, scalars, plan)
    ensures Covers(scalars, plan)
    decreases plan
  {
    forall i | 0 <= i < |plan.params| ensures ParamCovers(scalars, plan.params[i]) {
      assert ParamRight(env, scalars, plan.params[i]);
      if plan.params[i].FromDependency? {
        RightCovers(env, scalars, plan.params[i].dependency.plan);
      }
    }
  }

  lemma {:induction false} ScoredIsRight(env: Env, scalars: map<Place, Value>, plan: Plan, n: nat)
    requires n <= |plan.params| && AllScored(env, scalars, WalkSpecs(plan, n))
    ensures forall i :: 0 <= i < n ==> ParamRight(env, scalars, plan.params[i])
    decreases plan, n
  {
    if n > 0 {
      hide AllScored, ParamRight, ParamSpecs;
      ScoredInParts(env, scalars, WalkSpecs(plan, n - 1), ParamSpecs(plan.params[n - 1]));
      ScoredIsRight(env, scalars, plan, n - 1);
      ScoredParamIsRight(env, scalars, plan.params[n - 1]);
    }
  }

  lemma {:induction false} ScoredParamIsRight(env: Env, scalars: map<Place, Value>, param: Param)
    requires AllScored(env, scalars, ParamSpecs(param))
    ensures ParamRight(env, scalars, param)
    decreases param, 0
  {
    if param.FromDependency? {
      ScoredIsRight(env, scalars, param.dependency.plan, |param.dependency.plan.params|);
    } else if param.FromQuery? {
      assert ParamSpecs(param)[0] == param.query;
    }
  }

  lemma ScoredInParts(env: Env, scalars: map<Place, Value>, a: seq<QuerySpec>, b: seq<QuerySpec>)
    requires AllScored(env, scalars, a + b)
    ensures AllScored(env, scalars, a) && AllScored(env, scalars, b)
  {
    forall k | 0 <= k < |a| ensures Scored(env, scalars, a[k]) {
      assert (a + b)[k] == a[k];
    }
    forall k | 0 <= k < |b| ensures Scored(env, scalars, b[k]) {
      assert (a + b)[|a| + k] == b[k];
    }
  }

  lemma {:induction false} ErrorsJoin(env: Env, a: seq<QuerySpec>, b: seq<QuerySpec>)
    ensures Errors(env, a + b) == Errors(env, a) + Errors(env, b)
    decreases |b|
  {
    hide SpecErrors;
    if b == [] {
      assert a + b == a;
    } else {
      var n := |b| - 1;
      ErrorsJoin(env, a, b[..n]);
      assert (a + b)[..|a| + n] == a + b[..n];
      assert Errors(env, a) + Errors(env, b[..n]) + SpecErrors(env, b[n]) == Errors(env, a) + (Errors(env, b[..n]) + SpecErrors(env, b[n]));
    }
  }

  lemma ErrorsOfOne(env: Env, spec: QuerySpec)
    ensures Errors(env, [spec]) == SpecErrors(env, spec)
  {
    assert [spec][..0] == [];
  }

  /** The one loop over the flattened parameters finds the errors of the tree walk, in order. */
  lemma {:induction false} ErrorsAreTheTrees(env: Env, plan: Plan, n: nat)
    requires n <= |plan.params|
    ensures Errors(env, WalkSpecs(plan, n)) == TreeErrors(env, plan, n)
    decreases plan, n
  {
    hide Errors, SpecErrors;
    if n == 0 {
      NoErrors(env);
    } else {
      ErrorsAreTheTrees(env, plan, n - 1);
      var param := plan.params[n - 1];
      ErrorsJoin(env, WalkSpecs(plan, n - 1), ParamSpecs(param));
      match param {
        case FromQuery(_, spec) => ErrorsOfOne(env, spec);
        case FromDependency(_, dep) => ErrorsAreTheTrees(env, dep.plan, |dep.plan.params|);
        case _ => NoErrors(env);
      }
    }
  }

  lemma NoErrors(env: Env)
    ensures Errors(env, []) == []
  {
  }

  // ---- pass two gives the plain values

  /** Two plans of one callable evaluate alike. */
  lemma {:induction false} SamePlain(env: Env, site: Site, call: CallId, p: Plan, q: Plan, n: nat)
    requires Fits(site, call, p) && Fits(site, call, q) && n <= |p.params|
    ensures PlainUpTo(env, p, n) == PlainUpTo(env, q, n)
    decreases p, n
  {
    hide *;
    SameArity(site, call, p, q);
    if n > 0 {
      FitsEach(site, call, p, n - 1);
      FitsEach(site, call, q, n - 1);
      SamePlain(env, site, call, p, q, n - 1);
      SamePlainParam(env, site, site.graph[call].decls[n - 1], p.params[n - 1], q.params[n - 1]);
    }
    PlainLast(env, p, n);
    PlainLast(env, q, n);
  }

  lemma PlainLast(env: Env, p: Plan, n: nat)
    requires n <= |p.params|
    ensures PlainUpTo(env, p, n) ==
      if n == 0 then Kwargs(map[])
      else PlainUpTo(env, p, n - 1).Plus(p.params[n - 1].name, PlainParam(env, p.params[n - 1]))
  {
  }

  lemma SameArity(site: Site, call: CallId, p: Plan, q: Plan)
    requires Fits(site, call, p) && Fits(site, call, q)
    ensures |p.params| == |q.params|
  {
  }

  lemma FitsEach(site: Site, call: CallId, plan: Plan, i: nat)
    requires Fits(site, call, plan) && i < |plan.params|
    ensures site.Inspectable(call) && |plan.params| == |site.graph[call].decls|
    ensures ParamFits(site, site.graph[call].decls[i], plan.params[i])
  {
  }

  lemma {:induction false} SamePlainParam(env: Env, site: Site, d: ParamDecl, a: Param, b: Param)
    requires ParamFits(site, d, a) && ParamFits(site, d, b)
    ensures PlainParam(env, a) == PlainParam(env, b) && a.name == b.name
    decreases a, 0
  {
    hide Classify, Scan;
    if Classify(site, d).Dependent? {
      SamePlain(env, site, Classify(site, d).target, a.dependency.plan, b.dependency.plan, |a.dependency.plan.params|);
    } else if Classify(site, d).Query? {
      SameScan(env, a.query, b.query);
    }
  }

  /** A query parameter's value does not depend on where it stands. */
  lemma SameScan(env: Env, a: QuerySpec, b: QuerySpec)
    requires a == b.(place := a.place)
    ensures Scan(env, a) == Scan(env, b)
  {
  }

  function PlainCall(env: Env, call: CallId, plan: Plan): Called {
    match PlainUpTo(env, plan, |plan.params|)
    case Raised(e) => Raises(e)
    case Kwargs(kwargs) => env.call(call, kwargs)
  }

  /** A cached value is what any plan of the callable evaluates to. */
  ghost predicate EntryRight(env: Env, site: Site, call: CallId, value: Value) {
    forall plan :: Fits(site, call, plan) ==> PlainCall(env, call, plan) == Returns(value)
  }

  ghost predicate CacheRight(env: Env, site: Site, x: Exec) {
    forall call :: call in x.cache ==> EntryRight(env, site, call, x.cache[call].value)
  }

  lemma NewEntryRight(env: Env, site: Site, call: CallId, plan: Plan, value: Value)
    requires Fits(site, call, plan) && PlainCall(env, call, plan) == Returns(value)
    ensures EntryRight(env, site, call, value)
  {
    forall other | Fits(site, call, other) ensures PlainCall(env, call, other) == Returns(value) {
      SamePlain(env, site, call, plan, other, |plan.params|);
    }
  }

  lemma {:induction false} ResolveAgrees(env: Env, site: Site, call: CallId, plan: Plan, scalars: map<Place, Value>, x: Exec, n: nat)
    requires Fits(site, call, plan) && n <= |plan.params|
    requires Right(env, scalars, plan) && Covers(scalars, plan) && CacheRight(env, site, x)
    ensures var filled := ResolveUpTo(env, plan, scalars, x, n);
      filled.outcome == PlainUpTo(env, plan, n) && CacheRight(env, site, filled.exec)
    decreases plan, n
  {
    if n > 0 {
      ResolveAgrees(env, site, call, plan, scalars, x, n - 1);
      var before := ResolveUpTo(env, plan, scalars, x, n - 1);
      var param := plan.params[n - 1];
      assert ParamFits(site, site.graph[call].decls[n - 1], param) && ParamRight(env, scalars, param) && ParamCovers(scalars, param);
      hide Fits, ParamFits, Right, ParamRight, CacheRight, Classify, PlainParam, ResolveParam;
      if before.outcome.Kwargs? {
        ParamAgrees(env, site, site.graph[call].decls[n - 1], param, scalars, before.exec);
      }
    }
  }

  lemma {:induction false} ParamAgrees(env: Env, site: Site, d: ParamDecl, param: Param, scalars: map<Place, Value>, x: Exec)
    requires ParamFits(site, d, param)
    requires ParamRight(env, scalars, param) && ParamCovers(scalars, param) && CacheRight(env, site, x)
    ensures var s := ResolveParam(env, param, scalars, x);
      s.called == PlainParam(env, param) && CacheRight(env, site, s.exec)
    decreases param, 1
  {
    hide Classify, CacheRight, Fits, Right;
    if param.FromDependency? {
      DependencyAgrees(env, site, param.dependency, scalars, x);
    }
  }

  lemma {:induction false} DependencyAgrees(env: Env, site: Site, dep: Dependency, scalars: map<Place, Value>, x: Exec)
    requires Fits(site, dep.call, dep.plan)
    requires Right(env, scalars, dep.plan) && Covers(scalars, dep.plan) && CacheRight(env, site, x)
    ensures var s := ResolveDependency(env, dep, scalars, x);
      s.called == PlainCall(env, dep.call, dep.plan) && CacheRight(env, site, s.exec)
    decreases dep, 0
  {
    if dep.useCache && dep.call in x.cache {
      assert EntryRight(env, site, dep.call, x.cache[dep.call].value);
    } else {
      ResolveAgrees(env, site, dep.call, dep.plan, scalars, x, |dep.plan.params|);
      var filled := ResolveUpTo(env, dep.plan, scalars, x, |dep.plan.params|);
      var s := ResolveDependency(env, dep, scalars, x);
      if s.called.Returns? {
        NewEntryRight(env, site, dep.call, dep.plan, s.called.value);
        forall c | c in s.exec.cache ensures EntryRight(env, site, c, s.exec.cache[c].value) {
          if c in filled.exec.cache {
            assert EntryRight(env, site, c, filled.exec.cache[c].value);
          }
        }
      }
    }
  }

  // ---- the whole of resolve

  /** What `resolve` relies on, and every plan that was built provides. */
  predicate Ready(env: Env, plan: Plan) {
    && (plan.isTrivial ==> |plan.params| > 0)
    && (Errors(env, plan.querySpecs) == [] ==> Covers(Scalars(env, plan.querySpecs), plan))
    && plan.needsTeardown == HasGenerator(plan)
  }

  lemma BuiltIsReady(env: Env, site: Site, call: CallId)
    requires Build(site, call, {}, []).Ok?
    ensures var plan := Build(site, call, {}, []).value;
      && Ready(env, plan) && Fits(site, call, plan)
      && plan.querySpecs == WalkSpecs(plan, |plan.params|)
      && (Errors(env, plan.querySpecs) == [] ==> Right(env, Scalars(env, plan.querySpecs), plan))
  {
    var plan := Build(site, call, {}, []).value;
    BuildFits(site, call, {}, []);
    FlatFieldsAreTheTree(site, call, []);
    WalkDistinct(plan, [], |plan.params|);
    if Errors(env, plan.querySpecs) == [] {
      ScalarsAreValues(env, plan.querySpecs);
      hide Scalars, Errors;
      ScoredIsRight(env, Scalars(env, plan.querySpecs), plan, |plan.params|);
      RightCovers(env, Scalars(env, plan.querySpecs), plan);
    }
  }

  /** The optimised execution refines the plain one: cache, flattened parameters and the
      trivial fast path change no answer. */
  lemma ResolveIsPlain(env: Env, site: Site, call: CallId)
    requires Build(site, call, {}, []).Ok?
    ensures var plan := Build(site, call, {}, []).value;
      Ready(env, plan) && Resolve(env, plan).answer == Plain(env, plan)
  {
    var plan := Build(site, call, {}, []).value;
    BuiltIsReady(env, site, call);
    ErrorsAreTheTrees(env, plan, |plan.params|);
    if plan.isTrivial {
      TrivialIsPlain(env, plan);
    } else if Errors(env, plan.querySpecs) == [] {
      ResolveAgrees(env, site, call, plan, Scalars(env, plan.querySpecs), IDLE, |plan.params|);
    }
  }

  lemma TrivialIsPlain(env: Env, plan: Plan)
    requires |plan.params| == 1 && plan.params[0].FromConnection?
    ensures Plain(env, plan) == Done(Kwargs(map[plan.params[0].name := PyConnection]))
  {
    var param := plan.params[0];
    assert PlainUpTo(env, plan, 0) == Kwargs(map[]);
    assert PlainUpTo(env, plan, 1) == Kwargs(map[][param.name := PyConnection]);
    assert TreeErrors(env, plan, 0) == [];
    assert TreeErrors(env, plan, 1) == [] + [];
  }

  /** A wrong query parameter anywhere in the tree: every error is reported, in order, and
      not one callable has been called. */
  lemma NothingRunsOnBadQuery(env: Env, site: Site, call: CallId)
    requires Build(site, call, {}, []).Ok?
    ensures var plan := Build(site, call, {}, []).value;
      Ready(env, plan) &&
      (TreeErrors(env, plan, |plan.params|) != [] ==>
        Resolve(env, plan) == Resolution(Invalid(TreeErrors(env, plan, |plan.params|)), IDLE))
  {
    BuiltIsReady(env, site, call);
    var plan := Build(site, call, {}, []).value;
    ErrorsAreTheTrees(env, plan, |plan.params|);
    if plan.isTrivial {
      TrivialIsPlain(env, plan);
    }
  }

  // ---- cached callables run once

  function Runs(log: seq<Invocation>, call: CallId): nat
    decreases |log|
  {
    if log == [] then 0
    else Runs(log[..|log| - 1], call) + (if log[|log| - 1].call == call then 1 else 0)
  }

  lemma RunsMore(log: seq<Invocation>, call: CallId, i: Invocation)
    ensures Runs(log + [i], call) == Runs(log, call) + (if i.call == call then 1 else 0)
  {
    assert (log + [i])[..|log|] == log;
  }

  /** `call` is named somewhere in the tree. */
  predicate Mentions(plan: Plan, call: CallId)
    decreases plan
  {
    exists i :: 0 <= i < |plan.params| && ParamMentions(plan.params[i], call)
  }

  predicate ParamMentions(param: Param, call: CallId)
    decreases param
  {
    param.FromDependency? && (param.dependency.call == call || Mentions(param.dependency.plan, call))
  }

  /** Wherever `call` is named, it is cached. */
  predicate AlwaysCached(plan: Plan, call: CallId)
    decreases plan
  {
    forall i :: 0 <= i < |plan.params| ==> ParamCached(plan.params[i], call)
  }

  predicate ParamCached(param: Param, call: CallId)
    decreases param
  {
    param.FromDependency? ==>
      (param.dependency.call == call ==> param.dependency.useCache) && AlwaysCached(param.dependency.plan, call)
  }

  function Size(plan: Plan, n: nat): nat
    requires n <= |plan.params|
    decreases plan, n
  {
    if n == 0 then 0
    else
      var param := plan.params[n - 1];
      Size(plan, n - 1) + 1 +
      (if param.FromDependency? then Size(param.dependency.plan, |param.dependency.plan.params|) + 1 else 0)
  }

  lemma {:induction false} SameSize(site: Site, call: CallId, p: Plan, q: Plan, n: nat)
    requires Fits(site, call, p) && Fits(site, call, q) && n <= |p.params|
    ensures Size(p, n) == Size(q, n)
    decreases p, n
  {
    if n > 0 {
      SameSize(site, call, p, q, n - 1);
      var d, a, b := site.graph[call].decls[n - 1], p.params[n - 1], q.params[n - 1];
      assert ParamFits(site, d, a) && ParamFits(site, d, b);
      if Classify(site, d).Dependent? {
        SameSize(site, Classify(site, d).target, a.dependency.plan, b.dependency.plan, |a.dependency.plan.params|);
      }
    }
  }

  lemma {:induction false} SizeOfPart(plan: Plan, i: nat, n: nat)
    requires i < n <= |plan.params| && plan.params[i].FromDependency?
    ensures Size(plan.params[i].dependency.plan, |plan.params[i].dependency.plan.params|) < Size(plan, n)
    decreases n
  {
    if i < n - 1 {
      SizeOfPart(plan, i, n - 1);
    }
  }

  /** A callable named in a tree has a smaller plan in it. */
  lemma {:induction false} MentionedIsSmaller(site: Site, owner: CallId, plan: Plan, call: CallId) returns (part: Plan)
    requires Fits(site, owner, plan) && Mentions(plan, call)
    ensures Fits(site, call, part) && Size(part, |part.params|) < Size(plan, |plan.params|)
    decreases plan
  {
    var i :| 0 <= i < |plan.params| && ParamMentions(plan.params[i], call);
    assert ParamFits(site, site.graph[owner].decls[i], plan.params[i]);
    var dep := plan.params[i].dependency;
    SizeOfPart(plan, i, |plan.params|);
    if dep.call == call {
      part := dep.plan;
    } else {
      part := MentionedIsSmaller(site, dep.call, dep.plan, call);
    }
  }

  /** No plan names its own callable. */
  lemma NotInItself(site: Site, call: CallId, plan: Plan)
    requires Fits(site, call, plan)
    ensures !Mentions(plan, call)
  {
    if Mentions(plan, call) {
      var part := MentionedIsSmaller(site, call, plan, call);
      SameSize(site, call, part, plan, |part.params|);
    }
  }

  /** Executing a plan that does not name `call` neither calls nor caches it. */
  lemma {:induction false} Untouched(env: Env, plan: Plan, scalars: map<Place, Value>, x: Exec, n: nat, call: CallId)
    requires n <= |plan.params| && Covers(scalars, plan) && !Mentions(plan, call)
    ensures var y := ResolveUpTo(env, plan, scalars, x, n).exec;
      Runs(y.log, call) == Runs(x.log, call) && (call in y.cache <==> call in x.cache)
    decreases plan, n
  {
    if n > 0 {
      Untouched(env, plan, scalars, x, n - 1, call);
      var before := ResolveUpTo(env, plan, scalars, x, n - 1);
      var param := plan.params[n - 1];
      assert ParamCovers(scalars, param) && !ParamMentions(param, call);
      if before.outcome.Kwargs? && param.FromDependency? {
        var dep := param.dependency;
        Untouched(env, dep.plan, scalars, before.exec, |dep.plan.params|, call);
        InvokeRuns(env, dep, scalars, before.exec, call);
      }
    }
  }

  /** What one dependency adds to the count: its own call, unless it was cached or never
      came to it. */
  lemma InvokeRuns(env: Env, dep: Dependency, scalars: map<Place, Value>, x: Exec, call: CallId)
    requires Covers(scalars, dep.plan)
    ensures var s, y := ResolveDependency(env, dep, scalars, x), ResolveUpTo(env, dep.plan, scalars, x, |dep.plan.params|);
      if dep.useCache && dep.call in x.cache then s.exec == x && s.called.Returns?
      else if y.outcome.Raised? then s.exec == y.exec && s.called.Raises?
      else
        && Runs(s.exec.log, call) == Runs(y.exec.log, call) + (if dep.call == call then 1 else 0)
        && (call in s.exec.cache <==> call in y.exec.cache || (call == dep.call && dep.useCache && s.called.Returns?))
  {
    var y := ResolveUpTo(env, dep.plan, scalars, x, |dep.plan.params|);
    if y.outcome.Kwargs? {
      var s := ResolveDependency(env, dep, scalars, x);
      RunsMore(y.exec.log, call, Invocation(dep.call, y.uses, dep.IsGenerator(), true));
      RunsMore(y.exec.log, call, Invocation(dep.call, y.uses, dep.IsGenerator(), false));
    }
  }

  /** As long as nothing raised, a callable has run exactly if it is cached. */
  predicate RunAsCached(x: Exec, call: CallId) {
    Runs(x.log, call) == if call in x.cache then 1 else 0
  }

  lemma {:induction false} CachedRunsOnce(env: Env, site: Site, owner: CallId, plan: Plan, scalars: map<Place, Value>, x: Exec, n: nat, call: CallId)
    requires Fits(site, owner, plan) && n <= |plan.params| && Covers(scalars, plan)
    requires AlwaysCached(plan, call) && RunAsCached(x, call)
    ensures var y := ResolveUpTo(env, plan, scalars, x, n);
      (y.outcome.Kwargs? ==> RunAsCached(y.exec, call)) && Runs(y.exec.log, call) <= 1
    decreases plan, n
  {
    if n > 0 {
      CachedRunsOnce(env, site, owner, plan, scalars, x, n - 1, call);
      var before := ResolveUpTo(env, plan, scalars, x, n - 1);
      var param := plan.params[n - 1];
      assert ParamFits(site, site.graph[owner].decls[n - 1], param) && ParamCovers(scalars, param) && ParamCached(param, call);
      hide Fits, Covers, AlwaysCached, RunAsCached, Classify;
      if before.outcome.Kwargs? && param.FromDependency? {
        DependencyRunsOnce(env, site, param.dependency, scalars, before.exec, call);
      }
    }
  }

  lemma {:induction false} DependencyRunsOnce(env: Env, site: Site, dep: Dependency, scalars: map<Place, Value>, x: Exec, call: CallId)
    requires Fits(site, dep.call, dep.plan) && Covers(scalars, dep.plan)
    requires (dep.call == call ==> dep.useCache) && AlwaysCached(dep.plan, call) && RunAsCached(x, call)
    ensures var s := ResolveDependency(env, dep, scalars, x);
      (s.called.Returns? ==> RunAsCached(s.exec, call)) && Runs(s.exec.log, call) <= 1
    decreases dep, 0
  {
    CachedRunsOnce(env, site, dep.call, dep.plan, scalars, x, |dep.plan.params|, call);
    InvokeRuns(env, dep, scalars, x, call);
    if dep.call == call {
      NotInItself(site, call, dep.plan);
      Untouched(env, dep.plan, scalars, x, |dep.plan.params|, call);
    }
    hide Fits, Runs, Covers, AlwaysCached, ResolveUpTo;
  }

  /** A callable whose every marker in the tree uses the cache is called at most once. */
  lemma CalledAtMostOnce(env: Env, site: Site, handler: CallId, call: CallId)
    requires Build(site, handler, {}, []).Ok?
    requires AlwaysCached(Build(site, handler, {}, []).value, call)
    ensures var plan := Build(site, handler, {}, []).value;
      Ready(env, plan) && Runs(Resolve(env, plan).exec.log, call) <= 1
  {
    var plan := Build(site, handler, {}, []).value;
    BuiltIsReady(env, site, handler);
    if !plan.isTrivial && Errors(env, plan.querySpecs) == [] {
      CachedRunsOnce(env, site, handler, plan, Scalars(env, plan.querySpecs), IDLE, |plan.params|, call);
    }
  }

  // ---- teardown

  /** Calls use only earlier calls, and the stack holds exactly the generators entered, in order. */
  ghost predicate LogOk(x: Exec) {
    && (forall i, u :: 0 <= i < |x.log| && u in x.log[i].uses ==> u < i)
    && (forall i, j :: 0 <= i < j < |x.stack| ==> x.stack[i] < x.stack[j])
    && (forall i :: 0 <= i < |x.stack| ==> IsEntered(x.log, x.stack[i]))
    && (forall i :: IsEntered(x.log, i) ==> i in x.stack)
    && (forall c :: c in x.cache ==> IsCallOf(x.log, x.cache[c].origin, c))
  }

  /** A call of a generator that got as far as its yield. */
  predicate IsEntered(log: seq<Invocation>, i: nat) {
    i < |log| && log[i].generator && log[i].returned
  }

  predicate IsCallOf(log: seq<Invocation>, i: nat, call: CallId) {
    i < |log| && log[i].call == call && log[i].returned
  }

  lemma InvokeKeepsLog(env: Env, dep: Dependency, x: Exec, kwargs: Kwargs, uses: set<nat>)
    requires LogOk(x) && forall u :: u in uses ==> u < |x.log|
    ensures LogOk(x.Invoke(env, dep, kwargs, uses)) && |x.Invoke(env, dep, kwargs, uses).log| == |x.log| + 1
  {
    var y := x.Invoke(env, dep, kwargs, uses);
    forall i: nat | IsEntered(y.log, i) ensures i in y.stack {
      if i < |x.log| {
        assert IsEntered(x.log, i);
      } else {
        assert y.stack[|x.stack|] == i;
      }
    }
    forall i | 0 <= i < |y.stack| ensures IsEntered(y.log, y.stack[i]) {
      if i < |x.stack| {
        assert IsEntered(x.log, x.stack[i]);
      }
    }
    forall c | c in y.cache ensures IsCallOf(y.log, y.cache[c].origin, c) {
      if c in x.cache && y.cache[c] == x.cache[c] {
        assert IsCallOf(x.log, x.cache[c].origin, c);
      }
    }
  }

  lemma {:induction false} ResolveKeepsLog(env: Env, plan: Plan, scalars: map<Place, Value>, x: Exec, n: nat)
    requires n <= |plan.params| && Covers(scalars, plan) && LogOk(x)
    ensures var y := ResolveUpTo(env, plan, scalars, x, n);
      LogOk(y.exec) && |x.log| <= |y.exec.log| && forall u :: u in y.uses ==> u < |y.exec.log|
    decreases plan, n
  {
    if n > 0 {
      ResolveKeepsLog(env, plan, scalars, x, n - 1);
      var before := ResolveUpTo(env, plan, scalars, x, n - 1);
      var param := plan.params[n - 1];
      assert ParamCovers(scalars, param);
      if before.outcome.Kwargs? && param.FromDependency? {
        hide LogOk;
        DependencyKeepsLog(env, param.dependency, scalars, before.exec);
      }
    }
  }

  lemma {:induction false} DependencyKeepsLog(env: Env, dep: Dependency, scalars: map<Place, Value>, x: Exec)
    requires Covers(scalars, dep.plan) && LogOk(x)
    ensures var s := ResolveDependency(env, dep, scalars, x);
      LogOk(s.exec) && |x.log| <= |s.exec.log| && forall u :: u in s.uses ==> u < |s.exec.log|
    decreases dep, 0
  {
    hide LogOk;
    if dep.useCache && dep.call in x.cache {
      OriginInLog(x, dep.call);
    } else {
      ResolveKeepsLog(env, dep.plan, scalars, x, |dep.plan.params|);
      var y := ResolveUpTo(env, dep.plan, scalars, x, |dep.plan.params|);
      if y.outcome.Kwargs? {
        InvokeKeepsLog(env, dep, y.exec, y.outcome.kwargs, y.uses);
      }
    }
  }

  lemma OriginInLog(x: Exec, call: CallId)
    requires LogOk(x) && call in x.cache
    ensures x.cache[call].origin < |x.log|
  {
    assert IsCallOf(x.log, x.cache[call].origin, call);
  }

  /** Call a was given call b's value, perhaps through other calls. */
  predicate Consumed(log: seq<Invocation>, a: nat, b: nat)
    decreases a
  {
    a < |log| && exists u :: u in log[a].uses && (u == b || (u < a && Consumed(log, u, b)))
  }

  lemma {:induction false} ConsumedIsEarlier(x: Exec, a: nat, b: nat)
    requires LogOk(x) && Consumed(x.log, a, b)
    ensures b < a
    decreases a
  {
    var u :| u in x.log[a].uses && (u == b || (u < a && Consumed(x.log, u, b)));
    if u != b {
      ConsumedIsEarlier(x, u, b);
    }
  }

  /** The exit stack unwinds last in, first out. */
  function Teardown(x: Exec): (r: seq<nat>)
    ensures |r| == |x.stack|
    ensures forall i :: 0 <= i < |r| ==> r[i] == x.stack[|x.stack| - 1 - i]
  {
    seq(|x.stack|, i requires 0 <= i < |x.stack| => x.stack[|x.stack| - 1 - i])
  }

  /** Every generator that was entered is torn down, once, and before every generator whose
      value it was given, directly or through other dependencies, cached or not. */
  lemma TornDownBeforeItsInputs(env: Env, site: Site, handler: CallId)
    requires Build(site, handler, {}, []).Ok?
    ensures Ready(env, Build(site, handler, {}, []).value)
    ensures var x := Resolve(env, Build(site, handler, {}, []).value).exec;
      && (forall i :: IsEntered(x.log, i) <==> i in Teardown(x))
      && (forall i, j :: 0 <= i < j < |Teardown(x)| ==> Teardown(x)[i] != Teardown(x)[j])
      && (forall i, j :: 0 <= i < |Teardown(x)| && 0 <= j < |Teardown(x)| && Consumed(x.log, Teardown(x)[i], Teardown(x)[j])
            ==> i < j)
  {
    ResolvedLogOk(env, site, handler);
    hide *;
    UnwindsInOrder(Resolve(env, Build(site, handler, {}, []).value).exec);
  }

  lemma ResolvedLogOk(env: Env, site: Site, handler: CallId)
    requires Build(site, handler, {}, []).Ok?
    ensures var plan := Build(site, handler, {}, []).value;
      Ready(env, plan) && LogOk(Resolve(env, plan).exec)
  {
    var plan := Build(site, handler, {}, []).value;
    BuiltIsReady(env, site, handler);
    hide Build, Ready, Fits;
    if !plan.isTrivial && Errors(env, plan.querySpecs) == [] {
      ResolveKeepsLog(env, plan, Scalars(env, plan.querySpecs), IDLE, |plan.params|);
    }
  }

  lemma UnwindsInOrder(x: Exec)
    requires LogOk(x)
    ensures forall i :: IsEntered(x.log, i) <==> i in Teardown(x)
    ensures forall i, j :: 0 <= i < j < |Teardown(x)| ==> Teardown(x)[i] != Teardown(x)[j]
    ensures forall i, j :: (0 <= i < |Teardown(x)| && 0 <= j < |Teardown(x)| &&
      Consumed(x.log, Teardown(x)[i], Teardown(x)[j])) ==> i < j
  {
    ReverseHasTheSame(x.stack, Teardown(x));
    forall i, j | 0 <= i < j < |Teardown(x)| ensures Teardown(x)[i] > Teardown(x)[j] {
      LaterIsHigher(x, i, j);
    }
    forall i, j | 0 <= i < |Teardown(x)| && 0 <= j < |Teardown(x)| && Consumed(x.log, Teardown(x)[i], Teardown(x)[j])
      ensures i < j
    {
      ConsumedIsEarlier(x, Teardown(x)[i], Teardown(x)[j]);
    }
    forall i: nat | i in Teardown(x) ensures IsEntered(x.log, i) {
      EnteredIfStacked(x, i);
    }
    hide Teardown;
  }

  lemma EnteredIfStacked(x: Exec, i: nat)
    requires LogOk(x) && i in x.stack
    ensures IsEntered(x.log, i)
  {
  }

  lemma LaterIsHigher(x: Exec, i: nat, j: nat)
    requires LogOk(x) && i < j < |x.stack|
    ensures Teardown(x)[i] > Teardown(x)[j]
  {
  }

  lemma ReverseHasTheSame(s: seq<nat>, r: seq<nat>)
    requires |r| == |s| && forall i :: 0 <= i < |r| ==> r[i] == s[|s| - 1 - i]
    ensures forall v: nat :: v in r <==> v in s
  {
    forall v: nat | v in s ensures v in r {
      var k :| 0 <= k < |s| && s[k] == v;
      assert r[|s| - 1 - k] == v;
    }
  }

  // ---- no stack where none is needed

  predicate NoGenerators(x: Exec) {
    forall i :: 0 <= i < |x.log| ==> !x.log[i].generator
  }

  lemma {:induction false} NoneEntered(env: Env, plan: Plan, scalars: map<Place, Value>, x: Exec, n: nat)
    requires n <= |plan.params| && Covers(scalars, plan) && !HasGenerator(plan) && NoGenerators(x)
    ensures NoGenerators(ResolveUpTo(env, plan, scalars, x, n).exec)
    decreases plan, n
  {
    if n > 0 {
      NoneEntered(env, plan, scalars, x, n - 1);
      var before := ResolveUpTo(env, plan, scalars, x, n - 1);
      var param := plan.params[n - 1];
      assert ParamCovers(scalars, param);
      if before.outcome.Kwargs? && param.FromDependency? {
        TeardownBelow(plan, n - 1);
        NoneEnteredBelow(env, param.dependency, scalars, before.exec);
      }
    }
  }

  lemma {:induction false} NoneEnteredBelow(env: Env, dep: Dependency, scalars: map<Place, Value>, x: Exec)
    requires Covers(scalars, dep.plan) && !dep.IsGenerator() && !HasGenerator(dep.plan) && NoGenerators(x)
    ensures NoGenerators(ResolveDependency(env, dep, scalars, x).exec)
    decreases dep, 0
  {
    NoneEntered(env, dep.plan, scalars, x, |dep.plan.params|);
  }

  /** A plan that asks for no exit stack never calls a generator, cached or not. */
  lemma NoTeardownNoGenerator(env: Env, site: Site, handler: CallId)
    requires Build(site, handler, {}, []).Ok? && !Build(site, handler, {}, []).value.needsTeardown
    ensures var plan := Build(site, handler, {}, []).value;
      Ready(env, plan) && NoGenerators(Resolve(env, plan).exec)
  {
    var plan := Build(site, handler, {}, []).value;
    BuiltIsReady(env, site, handler);
    if !plan.isTrivial && Errors(env, plan.querySpecs) == [] {
      NoneEntered(env, plan, Scalars(env, plan.querySpecs), IDLE, |plan.params|);
    }
  }
}
