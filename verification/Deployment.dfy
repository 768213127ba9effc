/** installation/deployment.py (build_module_deployment_plan) against the runtime
    that reads its plan: app/capabilities/deployment.py, work_registry.py and
    execution.py. */
module Deployment {
  import opened Wrappers

  // --------------------------------------------------------------- contracts

  datatype FunctionId = DocumentExtract | TextEmbed | TextGenerate | OtherFunction(name: string)

  datatype Grade = Declared | ContractVerified | QualityVerified | OtherGrade

  /** One way to provide a function; contractOk covers the versions, schemas and
      adapter compared by validate_function_contract. */
  datatype Candidate = Candidate(
    model: Option<string>, provider: Option<string>, role: string, preferredRole: Option<string>,
    grade: Grade, evidence: Option<string>, declaration: Option<string>, contractOk: bool)

  type Providers = map<FunctionId, seq<Candidate>>
  type Routes = map<FunctionId, string>

  /** FUNCTION_REGISTRY: the role a function prefers. */
  function PreferredRole(f: FunctionId): Option<string> {
    match f
    case DocumentExtract => Some("parser")
    case TextEmbed => Some("embedding")
    case TextGenerate => Some("llm")
    case OtherFunction(_) => None
  }

  predicate Named(reference: Option<string>) {
    reference.Some? && reference.value != ""
  }

  /** candidate_identity is defined: exactly one non-empty reference. */
  predicate Identified(c: Candidate) {
    && (c.model.Some? ==> c.model.value != "") && (c.provider.Some? ==> c.provider.value != "")
    && (c.model.Some? <==> c.provider.None?)
  }

  function Identity(c: Candidate): string {
    if Named(c.model) then c.model.value else if Named(c.provider) then c.provider.value else ""
  }

  /** Good enough to be used without being asked for. */
  predicate Verified(f: FunctionId, c: Candidate) {
    c.grade == QualityVerified || ((f == TextGenerate || f == TextEmbed) && c.grade == ContractVerified)
  }

  predicate RoleEnabled(bindings: map<string, bool>, role: string) {
    role in bindings && bindings[role]
  }

  predicate Usable(f: FunctionId, bindings: map<string, bool>, c: Candidate) {
    Verified(f, c) && RoleEnabled(bindings, c.role)
  }

  function UsableIn(f: FunctionId, bindings: map<string, bool>, s: seq<Candidate>): (r: seq<Candidate>)
    ensures forall c :: c in r <==> c in s && Usable(f, bindings, c)
  {
    Those(s, UsableFor(f, bindings))
  }

  function UsableFor(f: FunctionId, bindings: map<string, bool>): Candidate -> bool {
    c => Usable(f, bindings, c)
  }

  function InRole(role: string): Candidate -> bool {
    (c: Candidate) => c.role == role
  }

  // ----------------------------------------------------------------- the plan

  /** The parts of a schema-4 plan that route work. */
  datatype Plan = Plan(
    providers: Providers, routes: Routes, bindings: map<string, bool>,
    models: map<string, string>, registrations: map<string, string>)

  function CandidatesOf(providers: Providers, f: FunctionId): seq<Candidate> {
    if f in providers then providers[f] else []
  }

  // -------------------------------------------------------------- the resolver

  function FindBy(s: seq<Candidate>, id: string): (found: Option<Candidate>)
    ensures found.Some? ==> found.value in s && Identity(found.value) == id
    ensures found.None? ==> forall c :: c in s ==> Identity(c) != id
  {
    if s == [] then None else if Identity(s[0]) == id then Some(s[0]) else FindBy(s[1..], id)
  }

  function FindModel(s: seq<Candidate>, id: string): Option<Candidate> {
    if s == [] then None else if s[0].model == Some(id) then Some(s[0]) else FindModel(s[1..], id)
  }

  function FindProvider(s: seq<Candidate>, id: string): Option<Candidate> {
    if s == [] then None else if s[0].provider == Some(id) then Some(s[0]) else FindProvider(s[1..], id)
  }

  /** matching or eligible */
  function Prefer(s: seq<Candidate>, role: Option<string>): seq<Candidate> {
    if !Named(role) then s
    else
      var matching := Those(s, InRole(role.value));
      if matching != [] then matching else s
  }

  /** resolve_function_provider on a schema-4 snapshot */
  function Resolve(
    plan: Plan, f: FunctionId, model: Option<string>, provider: Option<string>, preferred: Option<string>)
    : Result<Candidate, string>
  {
    var candidates := CandidatesOf(plan.providers, f);
    if Named(model) && Named(provider) then Err("Select either a model or a model-free provider")
    else if Named(model) || Named(provider) then
      var chosen :=
        if Named(provider) then FindProvider(candidates, provider.value) else FindModel(candidates, model.value);
      if chosen.None? then Err("Selected model does not declare function")
      else if !RoleEnabled(plan.bindings, chosen.value.role) then Err("Selected function provider is disabled")
      else Ok(chosen.value)
    else
      var routed := if f in plan.routes && plan.routes[f] != "" then FindBy(candidates, plan.routes[f]) else None;
      if routed.Some? then
        if RoleEnabled(plan.bindings, routed.value.role)
          then Ok(routed.value) else Err("Default function provider is disabled")
      else if preferred.None? && PreferredRole(f).None? then Err("Unknown function contract")
      else
        var role := if preferred.Some? then preferred else PreferredRole(f);
        var eligible := Prefer(UsableIn(f, plan.bindings, candidates), role);
        if |eligible| == 1 then Ok(eligible[0])
        else if |eligible| > 1 then Err("Multiple eligible models")
        else Err("No enabled verified provider")
  }

  // --------------------------------------------------------------- the builder

  /** metadata filled in, contract validated */
  function Completed(f: FunctionId, c: Candidate): Candidate {
    if c.preferredRole.None? then c.(preferredRole := PreferredRole(f)) else c
  }

  predicate ContractValid(f: FunctionId, c: Candidate) {
    PreferredRole(f).Some? && c.preferredRole == PreferredRole(f) && c.contractOk
  }

  predicate Evidenced(c: Candidate) {
    c.grade == ContractVerified || c.grade == QualityVerified
  }

  /** The candidate's evidence was not judged applicable to what was observed. */
  predicate Invalidated(f: FunctionId, c: Candidate, applicable: set<(string, FunctionId)>) {
    Evidenced(c) && (Identity(c), f) !in applicable
  }

  /** Such evidence counts no more. */
  function Downgraded(f: FunctionId, c: Candidate, applicable: set<(string, FunctionId)>): Candidate {
    if Invalidated(f, c, applicable)
    then c.(grade := Declared, evidence := None, declaration := Some("revalidation"))
    else c
  }

  predicate CandidateOk(c: Candidate, models: map<string, string>, registrations: map<string, string>) {
    var known := if Named(c.provider) then registrations else models;
    && Identified(c) && Identity(c) in known && known[Identity(c)] == c.role
    && c.grade != OtherGrade
    && (c.grade == Declared ==> Named(c.declaration))
    && (c.grade == ContractVerified || c.grade == QualityVerified ==> Named(c.evidence))
  }

  ghost predicate IdentitiesDiffer(s: seq<Candidate>) {
    forall i, j :: 0 <= i < j < |s| ==> Identity(s[i]) != Identity(s[j])
  }

  ghost predicate ListOk(s: seq<Candidate>, models: map<string, string>, registrations: map<string, string>) {
    IdentitiesDiffer(s) && forall c :: c in s ==> CandidateOk(c, models, registrations)
  }

  /** An explicit route selects a usable candidate. */
  ghost predicate RouteOk(providers: Providers, bindings: map<string, bool>, f: FunctionId, id: string) {
    exists c :: c in CandidatesOf(providers, f) && Identity(c) == id && Usable(f, bindings, c)
  }

  /** The loop that completes and validates one function's candidates. */
  method CompleteAll(f: FunctionId, s: seq<Candidate>) returns (ok: bool, done: seq<Candidate>)
    ensures ok ==> |done| == |s| && forall k :: 0 <= k < |s| ==>
      done[k] == Completed(f, s[k]) && ContractValid(f, done[k])
    ensures !ok ==> exists c :: c in s && !ContractValid(f, Completed(f, c))
  {
    done := [];
    for i := 0 to |s|
      invariant |done| == i
      invariant forall k :: 0 <= k < i ==> done[k] == Completed(f, s[k]) && ContractValid(f, done[k])
    {
      var c := Completed(f, s[i]);
      if !ContractValid(f, c) {
        return false, done;
      }
      done := done + [c];
    }
    ok := true;
  }

  /** The loop that applies the observations to one function's candidates, and
      withdraws an explicit route that they invalidate. */
  method ApplyObservations(f: FunctionId, s: seq<Candidate>, applicable: set<(string, FunctionId)>, routes: Routes)
    returns (done: seq<Candidate>, left: Routes)
    ensures |done| == |s| && forall k :: 0 <= k < |s| ==> done[k] == Downgraded(f, s[k], applicable)
    ensures left == routes || (f in routes && left == routes - {f})
    ensures f in left <==>
      f in routes && forall k :: 0 <= k < |s| && Identity(s[k]) == routes[f] ==> !Invalidated(f, s[k], applicable)
  {
    done, left := [], routes;
    for i := 0 to |s|
      invariant |done| == i && forall k :: 0 <= k < i ==> done[k] == Downgraded(f, s[k], applicable)
      invariant left == routes || (f in routes && left == routes - {f})
      invariant f in left <==>
        f in routes && forall k :: 0 <= k < i && Identity(s[k]) == routes[f] ==> !Invalidated(f, s[k], applicable)
    {
      var c := s[i];
      if Invalidated(f, c, applicable) {
        c := c.(evidence := None);
        c := c.(grade := Declared, declaration := Some("revalidation"));
        if f in left && left[f] == Identity(s[i]) {
          left := left - {f};
        }
      }
      done := done + [c];
    }
  }

  // ------------------------------------------------------------ default routes

  function PreferredRoles(s: seq<Candidate>): set<string> {
    set c | c in s && Named(c.preferredRole) :: c.preferredRole.value
  }

  /** The usable candidates, narrowed to the preferred role if they agree on one. */
  function Narrowed(s: seq<Candidate>): seq<Candidate> {
    if |PreferredRoles(s)| != 1 then s
    else
      var preferred := Those(s, InRole(FirstPreferred(s)));
      if preferred != [] then preferred else s
  }

  /** next(iter(preferred_roles)), when there is only one */
  function FirstPreferred(s: seq<Candidate>): string {
    if s == [] then "" else if Named(s[0].preferredRole) then s[0].preferredRole.value else FirstPreferred(s[1..])
  }

  /** The route inferred for a function without an explicit one. */
  function Inferred(f: FunctionId, bindings: map<string, bool>, s: seq<Candidate>): Option<string> {
    var narrowed := Narrowed(UsableIn(f, bindings, s));
    if |narrowed| == 1 then Some(Identity(narrowed[0])) else None
  }

  ghost predicate AllContractsValid(f: FunctionId, s: seq<Candidate>) {
    forall c :: c in s ==> ContractValid(f, c)
  }

  /** What a plan of the builder satisfies. */
  ghost predicate Built(plan: Plan) {
    && (forall f :: f in plan.providers ==>
          AllContractsValid(f, plan.providers[f]) && ListOk(plan.providers[f], plan.models, plan.registrations))
    && (forall f :: f in plan.routes ==> RouteOk(plan.providers, plan.bindings, f, plan.routes[f]))
    && forall f :: f in plan.providers && f !in plan.routes ==> Inferred(f, plan.bindings, plan.providers[f]) == None
  }

  lemma PreferIsNarrowed(f: FunctionId, s: seq<Candidate>)
    requires AllContractsValid(f, s)
    ensures Narrowed(s) == Prefer(s, PreferredRole(f))
  {
    if s == [] {
      assert PreferredRoles(s) == {};
    } else {
      assert ContractValid(f, s[0]);
      var role := PreferredRole(f).value;
      assert s[0].preferredRole == Some(role);
      assert PreferredRoles(s) == {role};
    }
  }

  lemma UniqueIdentity(s: seq<Candidate>, a: Candidate, b: Candidate)
    requires IdentitiesDiffer(s) && a in s && b in s && Identity(a) == Identity(b)
    ensures a == b
  {
  }

  /** MAIN RESULT. At run time a function asked for without naming a model is
      served exactly when the plan has a default route for it, and then by the
      one candidate that route names, which is usable. */
  lemma ResolverFollowsBuilder(plan: Plan, f: FunctionId)
    requires Built(plan)
    ensures
      var r := Resolve(plan, f, None, None, None);
      && (r.Ok? <==> f in plan.routes)
      && (r.Ok? ==> r.value in CandidatesOf(plan.providers, f) && Identity(r.value) == plan.routes[f]
                    && Usable(f, plan.bindings, r.value)
                    && forall c :: c in CandidatesOf(plan.providers, f) && Identity(c) == plan.routes[f] ==>
                       c == r.value)
  {
    var candidates := CandidatesOf(plan.providers, f);
    if f in plan.routes {
      assert RouteOk(plan.providers, plan.bindings, f, plan.routes[f]);
      var c :| c in candidates && Identity(c) == plan.routes[f] && Usable(f, plan.bindings, c);
      assert f in plan.providers && ListOk(candidates, plan.models, plan.registrations);
      assert CandidateOk(c, plan.models, plan.registrations);
      UniqueIdentity(candidates, c, FindBy(candidates, plan.routes[f]).value);
      forall other | other in candidates && Identity(other) == plan.routes[f] ensures other == c {
        UniqueIdentity(candidates, c, other);
      }
    } else {
      NoRouteNoProvider(plan, f);
    }
  }

  lemma NoRouteNoProvider(plan: Plan, f: FunctionId)
    requires Built(plan) && f !in plan.routes
    ensures Resolve(plan, f, None, None, None).Err?
  {
    var usable := UsableIn(f, plan.bindings, CandidatesOf(plan.providers, f));
    if f in plan.providers {
      assert AllContractsValid(f, plan.providers[f]);
      PreferIsNarrowed(f, usable);
      assert Inferred(f, plan.bindings, plan.providers[f]) == None;
    } else {
      assert usable == [];
    }
  }

  /** Nothing usable rests on evidence that was judged inapplicable. */
  ghost predicate Applicable(plan: Plan, applicable: set<(string, FunctionId)>) {
    forall f, c :: f in plan.providers && c in plan.providers[f] && Verified(f, c) ==> (Identity(c), f) in applicable
  }

  /** MAIN RESULT. With observations, whatever the runtime routes to had its
      evidence judged applicable. */
  lemma RoutedIsApplicable(plan: Plan, f: FunctionId, applicable: set<(string, FunctionId)>)
    requires Built(plan) && Applicable(plan, applicable) && Resolve(plan, f, None, None, None).Ok?
    ensures f in plan.routes && (plan.routes[f], f) in applicable
  {
    ResolverFollowsBuilder(plan, f);
    hide Resolve;
  }

  // ------------------------------------------------------------------- building

  /** The validation loop with its set of identities seen so far. */
  method CheckList(s: seq<Candidate>, models: map<string, string>, registrations: map<string, string>)
    returns (ok: bool)
    ensures ok <==> ListOk(s, models, registrations)
  {
    var seen: set<string> := {};
    for i := 0 to |s|
      invariant forall id :: id in seen <==> exists k :: 0 <= k < i && Identity(s[k]) == id
      invariant forall j, k :: 0 <= j < k < i ==> Identity(s[j]) != Identity(s[k])
      invariant forall k :: 0 <= k < i ==> CandidateOk(s[k], models, registrations)
    {
      if !CandidateOk(s[i], models, registrations) || Identity(s[i]) in seen {
        return false;
      }
      seen := seen + {Identity(s[i])};
    }
    ok := true;
  }

  method CheckRoutes(providers: Providers, bindings: map<string, bool>, routes: Routes) returns (ok: bool)
    ensures ok <==> RoutesOk(providers, bindings, routes)
  {
    var rest := routes.Keys;
    while rest != {}
      invariant rest <= routes.Keys
      invariant forall f :: f in routes.Keys - rest ==> RouteOk(providers, bindings, f, routes[f])
      decreases |rest|
    {
      var f :| f in rest;
      rest := rest - {f};
      if !exists c | c in CandidatesOf(providers, f) :: Identity(c) == routes[f] && Usable(f, bindings, c) {
        return false;
      }
    }
    ok := true;
  }

  /** Two different embedding models are registered between the lists. */
  predicate SecondEmbedding(s: seq<Candidate>, t: seq<Candidate>) {
    exists i, j :: 0 <= i < |s| && 0 <= j < |t| && s[i].role == "embedding" && t[j].role == "embedding"
      && s[i].model != t[j].model
  }

  /** The server installs and registers at most one embedding model. */
  predicate OneEmbedding(bindings: map<string, bool>, models: map<string, string>, providers: Providers) {
    && ("embedding" in bindings ==>
          forall m, n :: m in models && n in models && models[m] == "embedding" && models[n] == "embedding" ==> m == n)
    && forall f, g :: f in providers && g in providers ==> !SecondEmbedding(providers[f], providers[g])
  }

  /** One function's candidates through completion and observations. */
  predicate Follows(f: FunctionId, raw: seq<Candidate>, done: seq<Candidate>,
      observed: Option<set<(string, FunctionId)>>)
  {
    && |done| == |raw|
    && (forall k :: 0 <= k < |raw| ==> ContractValid(f, Completed(f, raw[k])))
    && forall k :: 0 <= k < |raw| ==> done[k] == AfterObservation(f, Completed(f, raw[k]), observed)
  }

  function AfterObservation(f: FunctionId, c: Candidate, observed: Option<set<(string, FunctionId)>>): Candidate {
    if observed.Some? then Downgraded(f, c, observed.value) else c
  }

  /** The explicit route survives the observations. */
  predicate Stands(f: FunctionId, raw: seq<Candidate>, id: string, observed: Option<set<(string, FunctionId)>>) {
    observed.Some? ==> forall k :: 0 <= k < |raw| && Identity(raw[k]) == id ==>
      !Invalidated(f, Completed(f, raw[k]), observed.value)
  }

  /** The candidates of all functions, completed and graded by what was observed. */
  ghost function Graded(entries: Providers, observed: Option<set<(string, FunctionId)>>): Providers {
    map f | f in entries :: GradedList(f, entries[f], observed)
  }

  ghost function GradedList(f: FunctionId, raw: seq<Candidate>,
      observed: Option<set<(string, FunctionId)>>): seq<Candidate>
  {
    seq(|raw|, k requires 0 <= k < |raw| => AfterObservation(f, Completed(f, raw[k]), observed))
  }

  lemma FollowsIsGraded(
    entries: Providers, explicit: Routes, providers: Providers, routes: Routes,
    observed: Option<set<(string, FunctionId)>>)
    requires providers.Keys == entries.Keys && forall f :: f in entries ==>
      Follows(f, entries[f], providers[f], observed)
    requires forall f :: f in routes <==>
      f in explicit && (f in entries ==> Stands(f, entries[f], explicit[f], observed))
    requires forall f :: f in routes ==> routes[f] == explicit[f]
    ensures providers == Graded(entries, observed) && routes == Standing(entries, explicit, observed)
    ensures ContractsOk(entries)
  {
    forall f | f in entries ensures providers[f] == GradedList(f, entries[f], observed) {
      assert Follows(f, entries[f], providers[f], observed);
    }
    forall f, c | f in entries && c in entries[f] ensures ContractValid(f, Completed(f, c)) {
      assert Follows(f, entries[f], providers[f], observed);
    }
  }

  /** What the builder asks of its input: contracts are compatible, the graded
      candidates identified, installed and evidenced, an explicit route that the
      observations leave standing selects a usable one, and there is one
      embedding model. */
  ghost predicate Buildable(
    entries: Providers, bindings: map<string, bool>, models: map<string, string>, registrations: map<string, string>,
    explicit: Routes, observed: Option<set<(string, FunctionId)>>)
  {
    var graded := Graded(entries, observed);
    && ContractsOk(entries)
    && ListsOk(graded, models, registrations)
    && RoutesOk(graded, bindings, Standing(entries, explicit, observed))
    && OneEmbedding(bindings, models, graded)
  }

  ghost predicate ContractsOk(entries: Providers) {
    forall f, c :: f in entries && c in entries[f] ==> ContractValid(f, Completed(f, c))
  }

  ghost predicate ListsOk(providers: Providers, models: map<string, string>, registrations: map<string, string>) {
    forall f :: f in providers ==> ListOk(providers[f], models, registrations)
  }

  ghost predicate RoutesOk(providers: Providers, bindings: map<string, bool>, routes: Routes) {
    forall f :: f in routes ==> RouteOk(providers, bindings, f, routes[f])
  }

  /** The explicit routes that the observations leave standing. */
  ghost function Standing(entries: Providers, explicit: Routes, observed: Option<set<(string, FunctionId)>>): Routes {
    map f | f in explicit && (f in entries ==> Stands(f, entries[f], explicit[f], observed)) :: explicit[f]
  }

  /** The first two loops over all functions. */
  method Prepare(entries: Providers, explicit: Routes, observed: Option<set<(string, FunctionId)>>)
    returns (ok: bool, providers: Providers, routes: Routes)
    ensures ok <==> ContractsOk(entries)
    ensures ok ==> providers == Graded(entries, observed) && routes == Standing(entries, explicit, observed)
  {
    hide Follows, Stands, ContractValid, Graded, Standing;
    providers, routes := map[], explicit;
    var rest := entries.Keys;
    while rest != {}
      invariant rest <= entries.Keys && providers.Keys == entries.Keys - rest
      invariant forall f :: f in providers ==> Follows(f, entries[f], providers[f], observed)
      invariant forall f :: f in routes <==>
        f in explicit && (f in providers ==> Stands(f, entries[f], explicit[f], observed))
      invariant forall f :: f in routes ==> routes[f] == explicit[f]
      decreases |rest|
    {
      var f :| f in rest;
      rest := rest - {f};
      var valid, done := CompleteAll(f, entries[f]);
      if !valid {
        return false, providers, routes;
      }
      var graded, left := done, routes;
      if observed.Some? {
        graded, left := ApplyObservations(f, done, observed.value, routes);
      }
      OneFollows(f, entries[f], done, graded, observed, routes, left);
      providers, routes := providers[f := graded], left;
    }
    FollowsIsGraded(entries, explicit, providers, routes, observed);
    ok := true;
  }

  lemma OneFollows(
    f: FunctionId, raw: seq<Candidate>, done: seq<Candidate>, graded: seq<Candidate>,
    observed: Option<set<(string, FunctionId)>>, routes: Routes, left: Routes)
    requires |done| == |raw| && forall k :: 0 <= k < |raw| ==>
      done[k] == Completed(f, raw[k]) && ContractValid(f, done[k])
    requires |graded| == |done|
    requires observed.None? ==> graded == done && left == routes
    requires observed.Some? ==> forall k :: 0 <= k < |done| ==> graded[k] == Downgraded(f, done[k], observed.value)
    requires observed.Some? && f in routes ==>
      (f in left <==>
        forall k :: 0 <= k < |done| && Identity(done[k]) == routes[f] ==> !Invalidated(f, done[k], observed.value))
    ensures Follows(f, raw, graded, observed)
    ensures f in routes ==> (f in left <==> Stands(f, raw, routes[f], observed))
  {
  }

  /** The plan keeps these routes, and every other route it has is inferred. */
  ghost predicate Completes(plan: Plan, standing: Routes) {
    && (forall f :: f in standing ==> f in plan.routes && plan.routes[f] == standing[f])
    && forall f :: f in plan.routes && f !in standing ==>
         Inferred(f, plan.bindings, CandidatesOf(plan.providers, f)) == Some(plan.routes[f])
  }

  lemma BuildableIs(
    entries: Providers, bindings: map<string, bool>, models: map<string, string>, registrations: map<string, string>,
    explicit: Routes, observed: Option<set<(string, FunctionId)>>, providers: Providers, routes: Routes)
    requires providers == Graded(entries, observed) && routes == Standing(entries, explicit, observed)
    ensures Buildable(entries, bindings, models, registrations, explicit, observed) <==>
      ContractsOk(entries) && ListsOk(providers, models, registrations) && RoutesOk(providers, bindings, routes)
      && OneEmbedding(bindings, models, providers)
  {
  }

  /** What the builder refuses. */
  method CheckInput(
    entries: Providers, bindings: map<string, bool>, models: map<string, string>, registrations: map<string, string>,
    explicit: Routes, observed: Option<set<(string, FunctionId)>>)
    returns (refusal: Option<string>, providers: Providers, routes: Routes)
    ensures refusal.None? <==> Buildable(entries, bindings, models, registrations, explicit, observed)
    ensures refusal.None? ==> providers == Graded(entries, observed) && routes == Standing(entries, explicit, observed)
  {
    hide OneEmbedding, Graded, ContractsOk, ListsOk, RoutesOk, Standing;
    var ok;
    ok, providers, routes := Prepare(entries, explicit, observed);
    if !ok {
      return Some("Incompatible function contract"), providers, routes;
    }
    BuildableIs(entries, bindings, models, registrations, explicit, observed, providers, routes);
    hide Buildable;
    var listed := CheckAll(providers, models, registrations);
    if !listed {
      return Some("Invalid candidate"), providers, routes;
    }
    if !OneEmbedding(bindings, models, providers) {
      return Some("The server may register only one embedding model"), providers, routes;
    }
    var selecting := CheckRoutes(providers, bindings, routes);
    refusal := if selecting then None else Some("Default route must select a verified provider");
  }

  /** build_module_deployment_plan, the routing of functions. */
  method Build(
    entries: Providers, bindings: map<string, bool>, models: map<string, string>, registrations: map<string, string>,
    explicit: Routes, observed: Option<set<(string, FunctionId)>>)
    returns (result: Result<Plan, string>)
    ensures result.Ok? <==> Buildable(entries, bindings, models, registrations, explicit, observed)
    ensures result.Ok? ==>
      var plan := result.value;
      && Built(plan) && plan.bindings == bindings && plan.models == models && plan.registrations == registrations
      && plan.providers == Graded(entries, observed)
      && (observed.Some? ==> Applicable(plan, observed.value))
      && Completes(plan, Standing(entries, explicit, observed))
  {
    hide Inferred, Built, Applicable, OneEmbedding, Graded, ContractsOk, ListsOk, RoutesOk, Standing, Completes;
    var refusal, providers, routes := CheckInput(entries, bindings, models, registrations, explicit, observed);
    if refusal.Some? {
      return Err(refusal.value);
    }
    var all := InferRoutes(providers, bindings, routes, models, registrations);
    var plan := Plan(providers, all, bindings, models, registrations);
    BuiltFrom(entries, plan, observed);
    result := Ok(plan);
  }

  lemma BuiltFrom(entries: Providers, plan: Plan, observed: Option<set<(string, FunctionId)>>)
    requires ContractsOk(entries) && plan.providers == Graded(entries, observed)
    requires ListsOk(plan.providers, plan.models, plan.registrations)
    requires RoutesOk(plan.providers, plan.bindings, plan.routes)
    requires forall f :: f in plan.providers && f !in plan.routes ==>
      Inferred(f, plan.bindings, plan.providers[f]) == None
    ensures Built(plan) && (observed.Some? ==> Applicable(plan, observed.value))
  {
  }

  method CheckAll(providers: Providers, models: map<string, string>, registrations: map<string, string>)
    returns (ok: bool)
    ensures ok <==> ListsOk(providers, models, registrations)
  {
    hide ListOk;
    var rest := providers.Keys;
    while rest != {}
      invariant rest <= providers.Keys
      invariant forall f :: f in providers.Keys - rest ==> ListOk(providers[f], models, registrations)
      decreases |rest|
    {
      var f :| f in rest;
      rest := rest - {f};
      var fine := CheckList(providers[f], models, registrations);
      if !fine {
        return false;
      }
    }
    ok := true;
  }

  /** The loop that infers a route for every function without one. */
  method InferRoutes(
    providers: Providers, bindings: map<string, bool>, routes: Routes,
    models: map<string, string>, registrations: map<string, string>) returns (all: Routes)
    requires RoutesOk(providers, bindings, routes)
    ensures RoutesOk(providers, bindings, all)
    ensures Completes(Plan(providers, all, bindings, models, registrations), routes)
    ensures forall f :: f in providers && f !in all ==> Inferred(f, bindings, providers[f]) == None
  {
    hide RouteOk, Inferred;
    all := routes;
    var rest := providers.Keys;
    while rest != {}
      invariant rest <= providers.Keys
      invariant forall f :: f in routes ==> f in all && all[f] == routes[f]
      invariant forall f :: f in all ==> RouteOk(providers, bindings, f, all[f])
      invariant forall f :: f in all && f !in routes ==>
        f !in rest && Inferred(f, bindings, CandidatesOf(providers, f)) == Some(all[f])
      invariant forall f :: f in providers.Keys - rest && f !in all ==> Inferred(f, bindings, providers[f]) == None
      decreases |rest|
    {
      var f :| f in rest;
      rest := rest - {f};
      if f !in routes {
        var route := Inferred(f, bindings, providers[f]);
        if route.Some? {
          InferredIsOk(providers, bindings, f);
          all := all[f := route.value];
        }
      }
    }
  }

  lemma InferredIsOk(providers: Providers, bindings: map<string, bool>, f: FunctionId)
    requires f in providers && Inferred(f, bindings, providers[f]).Some?
    ensures RouteOk(providers, bindings, f, Inferred(f, bindings, providers[f]).value)
  {
  }
}
