/** The work half of a deployment plan: capabilities, executor roles, services and
    work routes of installation/deployment.py, and the admission check of
    app/capabilities/work_registry.py and execution.py that reads them. */
module WorkRoutes {
  import opened Wrappers
  import Modules

  datatype WorkDefinition = WorkDefinition(capability: string, role: string, queue: string, task: string,
    fields: seq<string>)
  datatype RoleSpec = RoleSpec(transport: string, configSource: string, service: Option<string>)
  datatype Capability = Capability(dependencies: seq<string>, roles: set<string>)
  datatype Module = Module(capabilities: seq<string>, providers: map<string, bool>, workKinds: set<string>)

  /** The static registries shipped with the application. */
  datatype Registry = Registry(
    work: map<string, WorkDefinition>, roles: map<string, RoleSpec>, capabilities: map<string, Capability>)

  datatype WorkPlan = WorkPlan(
    installed: seq<string>, enabled: seq<string>, bindings: map<string, bool>,
    executionRoles: map<string, RoleSpec>, workRoutes: map<string, WorkDefinition>, services: seq<string>)

  // ------------------------------------------------- what a selection asks for

  ghost predicate Declared(modules: seq<Module>, role: string) {
    exists i :: 0 <= i < |modules| && role in modules[i].providers
  }

  /** The last module that declares the role has it on or off by default. */
  ghost predicate Default(modules: seq<Module>, role: string, on: bool) {
    exists i :: 0 <= i < |modules| && role in modules[i].providers && modules[i].providers[role] == on
      && forall j :: i < j < |modules| ==> role !in modules[j].providers
  }

  ghost predicate RoleOn(modules: seq<Module>, disabled: set<string>, role: string) {
    Default(modules, role, true) && role !in disabled
  }

  ghost predicate Installed(modules: seq<Module>, c: string) {
    exists i :: 0 <= i < |modules| && c in modules[i].capabilities
  }

  /** An installed capability whose executor roles are all on. */
  ghost predicate CapabilityOn(registry: Registry, modules: seq<Module>, disabled: set<string>, c: string) {
    && Installed(modules, c) && c in registry.capabilities
    && forall role :: role in registry.capabilities[c].roles ==> RoleOn(modules, disabled, role)
  }

  ghost predicate Selected(modules: seq<Module>, kind: string) {
    exists i :: 0 <= i < |modules| && kind in modules[i].workKinds
  }

  ghost predicate RouteOn(registry: Registry, modules: seq<Module>, disabled: set<string>, kind: string) {
    && kind in registry.work && Selected(modules, kind)
    && RoleOn(modules, disabled, registry.work[kind].role)
    && CapabilityOn(registry, modules, disabled, registry.work[kind].capability)
  }

  /** The capabilities with what they depend on. */
  function AllGraph(registry: Registry): Modules.Graph {
    map c | c in registry.capabilities :: registry.capabilities[c].dependencies
  }

  ghost function OnGraph(registry: Registry, modules: seq<Module>, disabled: set<string>): Modules.Graph {
    map c | c in registry.capabilities && CapabilityOn(registry, modules, disabled, c) ::
      registry.capabilities[c].dependencies
  }

  /** The four refusals: an unknown role is disabled, an unknown capability
      installed, one that is on leads to one that is off or into a cycle, or a role
      that is on has no executor. */
  ghost predicate Refused(registry: Registry, modules: seq<Module>, disabled: set<string>) {
    || (exists role :: role in disabled && !Declared(modules, role))
    || (exists c :: Installed(modules, c) && c !in registry.capabilities)
    || (exists c ::
         CapabilityOn(registry, modules, disabled, c) && Modules.Defect(OnGraph(registry, modules, disabled), c))
    || (exists role :: RoleOn(modules, disabled, role) && role !in registry.roles)
  }

  ghost predicate NoTwice(s: seq<string>) {
    forall i, j :: 0 <= i < j < |s| ==> s[i] != s[j]
  }

  /** Whatever comes earlier in r was mentioned earlier in s. */
  ghost predicate FirstSeen(r: seq<string>, s: seq<string>) {
    forall i, j :: 0 <= i < j < |r| ==> SeenBefore(r[i], r[j], s)
  }

  /** s mentions x before it ever mentions y. */
  ghost predicate SeenBefore(x: string, y: string, s: seq<string>) {
    exists k :: 0 <= k < |s| && s[k] == x && y !in s[..k + 1]
  }

  /** All there is to know about the plan. */
  ghost predicate PlanIs(
    registry: Registry, modules: seq<Module>, disabled: set<string>, order: seq<string>, core: seq<string>,
    plan: WorkPlan)
  {
    && InOrder(plan.installed, modules) && (forall c :: c in plan.installed <==> Installed(modules, c))
    && InOrder(plan.enabled, modules)
    && (forall c :: c in plan.enabled <==> CapabilityOn(registry, modules, disabled, c))
    && BindingsAre(modules, disabled, plan.bindings)
    && RolesAre(registry, modules, disabled, plan.executionRoles)
    && RoutesAre(registry, modules, disabled, plan.workRoutes)
    && ServicesAre(registry, modules, disabled, order, core, plan.services)
  }

  /** Capabilities once each, as the modules first mention them. */
  ghost predicate InOrder(s: seq<string>, modules: seq<Module>) {
    NoTwice(s) && FirstSeen(s, AllCapabilities(modules))
  }

  ghost predicate BindingsAre(modules: seq<Module>, disabled: set<string>, bindings: map<string, bool>) {
    && (forall role :: role in bindings <==> Declared(modules, role))
    && forall role :: role in bindings ==> (bindings[role] <==> RoleOn(modules, disabled, role))
  }

  ghost predicate RolesAre(registry: Registry, modules: seq<Module>, disabled: set<string>,
      roles: map<string, RoleSpec>)
  {
    && (forall role :: role in roles <==> RoleOn(modules, disabled, role))
    && forall role :: role in roles ==> role in registry.roles && roles[role] == registry.roles[role]
  }

  ghost predicate RoutesAre(
    registry: Registry, modules: seq<Module>, disabled: set<string>, routes: map<string, WorkDefinition>)
  {
    && (forall kind :: kind in routes <==> RouteOn(registry, modules, disabled, kind))
    && forall kind :: kind in routes ==> kind in registry.work && routes[kind] == registry.work[kind]
  }

  /** A role that is on runs in this service. */
  ghost predicate ServiceNeeded(registry: Registry, modules: seq<Module>, disabled: set<string>, order: seq<string>,
      x: string)
  {
    exists role :: role in order && role in registry.roles && RoleOn(modules, disabled, role)
      && registry.roles[role].service == Some(x)
  }

  ghost predicate ServicesAre(
    registry: Registry, modules: seq<Module>, disabled: set<string>, order: seq<string>, core: seq<string>,
    services: seq<string>)
  {
    && core <= services && NoTwice(services[|core|..])
    && forall x :: x in services[|core|..] <==> ServiceNeeded(registry, modules, disabled, order, x)
  }

  // ---------------------------------------------------------------- computing

  /** tuple(dict.fromkeys(...)): first occurrences, in order. */
  function Unique(s: seq<string>): (r: seq<string>)
    ensures forall x :: x in r <==> x in s
    ensures NoTwice(r)
  {
    if s == [] then []
    else
      var before := Unique(s[..|s| - 1]);
      assert s == s[..|s| - 1] + [s[|s| - 1]];
      if s[|s| - 1] in before then before else before + [s[|s| - 1]]
  }

  lemma {:induction false} UniqueFirstSeen(s: seq<string>)
    ensures FirstSeen(Unique(s), s)
  {
    if s != [] {
      var front, last := s[..|s| - 1], s[|s| - 1];
      UniqueFirstSeen(front);
      var r := Unique(s);
      assert s == front + [last];
      forall i, j | 0 <= i < j < |r| ensures SeenBefore(r[i], r[j], s) {
        if j < |Unique(front)| {
          assert SeenBefore(Unique(front)[i], Unique(front)[j], front);
          SeenStays(r[i], r[j], front, last);
        } else {
          assert r[i] in front && r[j] !in front;
          SeenFirst(r[i], r[j], front, last);
        }
      }
    }
  }

  lemma SeenStays(x: string, y: string, front: seq<string>, last: string)
    requires SeenBefore(x, y, front)
    ensures SeenBefore(x, y, front + [last])
  {
    var k :| 0 <= k < |front| && front[k] == x && y !in front[..k + 1];
    assert (front + [last])[..k + 1] == front[..k + 1] && (front + [last])[k] == x;
  }

  lemma SeenFirst(x: string, y: string, front: seq<string>, last: string)
    requires x in front && y !in front
    ensures SeenBefore(x, y, front + [last])
  {
    var k :| 0 <= k < |front| && front[k] == x;
    assert (front + [last])[..k + 1] == front[..k + 1] && (front + [last])[k] == x;
  }

  function AllCapabilities(modules: seq<Module>): seq<string> {
    if modules == [] then [] else modules[0].capabilities + AllCapabilities(modules[1..])
  }

  lemma {:induction false} AllAreInstalled(modules: seq<Module>, c: string)
    ensures c in AllCapabilities(modules) <==> Installed(modules, c)
  {
    if modules != [] {
      AllAreInstalled(modules[1..], c);
      if Installed(modules[1..], c) {
        var i :| 0 <= i < |modules[1..]| && c in modules[1..][i].capabilities;
        assert c in modules[i + 1].capabilities;
      }
      if i :| 0 <= i < |modules| && c in modules[i].capabilities {
        assert i > 0 ==> c in modules[1..][i - 1].capabilities;
      }
    }
  }

  /** {role: requirement}: a later module's requirement for the same role wins. */
  function Requirements(modules: seq<Module>): map<string, bool> {
    if modules == [] then map[]
    else Requirements(modules[..|modules| - 1]) + modules[|modules| - 1].providers
  }

  lemma {:induction false} RequirementsAre(modules: seq<Module>, role: string)
    ensures role in Requirements(modules) <==> Declared(modules, role)
    ensures role in Requirements(modules) ==> (Requirements(modules)[role] <==> Default(modules, role, true))
  {
    if modules != [] {
      var front, last := modules[..|modules| - 1], modules[|modules| - 1];
      RequirementsAre(front, role);
      if role in last.providers {
        assert role in modules[|modules| - 1].providers;
      } else {
        if i :| 0 <= i < |front| && role in front[i].providers {
          assert role in modules[i].providers;
        }
        DefaultStays(modules, role);
      }
    }
  }

  /** A module that does not declare the role leaves its default alone. */
  lemma DefaultStays(modules: seq<Module>, role: string)
    requires modules != [] && role !in modules[|modules| - 1].providers
    ensures Default(modules, role, true) <==> Default(modules[..|modules| - 1], role, true)
  {
    var front := modules[..|modules| - 1];
    if Default(front, role, true) {
      var i :| 0 <= i < |front| && role in front[i].providers && front[i].providers[role]
        && forall j :: i < j < |front| ==> role !in front[j].providers;
      forall j | i < j < |modules| ensures role !in modules[j].providers {
        assert j < |front| ==> modules[j] == front[j];
      }
      assert modules[i] == front[i];
    }
    if Default(modules, role, true) {
      var i :| 0 <= i < |modules| && role in modules[i].providers && modules[i].providers[role]
        && forall j :: i < j < |modules| ==> role !in modules[j].providers;
      assert front[i] == modules[i];
    }
  }

  /** Capabilities whose executor roles are all on. */
  function Served(registry: Registry, roles: set<string>): set<string> {
    set c | c in registry.capabilities && registry.capabilities[c].roles <= roles
  }

  function Keep(s: seq<string>, keep: set<string>): (r: seq<string>)
    ensures forall x :: x in r <==> x in s && x in keep
  {
    if s == [] then []
    else if s[|s| - 1] in keep then Keep(s[..|s| - 1], keep) + [s[|s| - 1]]
    else Keep(s[..|s| - 1], keep)
  }

  lemma {:induction false} KeepKeeps(s: seq<string>, keep: set<string>, all: seq<string>)
    requires NoTwice(s) && FirstSeen(s, all)
    ensures NoTwice(Keep(s, keep)) && FirstSeen(Keep(s, keep), all)
  {
    hide SeenBefore;
    if s != [] {
      var front, last := s[..|s| - 1], s[|s| - 1];
      assert forall i, j :: 0 <= i < j < |front| ==> SeenBefore(s[i], s[j], all) && s[i] != s[j];
      KeepKeeps(front, keep, all);
      var r := Keep(front, keep);
      forall i | 0 <= i < |r| ensures r[i] != last && SeenBefore(r[i], last, all) {
        assert r[i] in r;
        var m :| 0 <= m < |front| && front[m] == r[i];
        assert s[m] == r[i] && s[|s| - 1] == last;
      }
    }
  }

  /** Roles in registry order, each with the service it runs in. */
  function ServicesOf(registry: Registry, order: seq<string>, roles: set<string>): (r: seq<string>)
    ensures forall x :: x in r <==>
      exists role :: role in order && role in roles && role in registry.roles && registry.roles[role].service == Some(x)
  {
    if order == [] then []
    else
      var rest := ServicesOf(registry, order[1..], roles);
      assert forall role :: role in order <==> role == order[0] || role in order[1..];
      if order[0] in roles && order[0] in registry.roles && registry.roles[order[0]].service.Some?
      then [registry.roles[order[0]].service.value] + rest
      else rest
  }

  // The pieces of the plan, one by one.

  lemma InstalledIs(modules: seq<Module>)
    ensures InOrder(Unique(AllCapabilities(modules)), modules)
    ensures forall c :: c in Unique(AllCapabilities(modules)) <==> Installed(modules, c)
  {
    UniqueFirstSeen(AllCapabilities(modules));
    forall c ensures c in Unique(AllCapabilities(modules)) <==> Installed(modules, c) {
      AllAreInstalled(modules, c);
    }
  }

  lemma BindingsOf(modules: seq<Module>, disabled: set<string>, bindings: map<string, bool>, roles: set<string>)
    requires bindings == map role | role in Requirements(modules) :: Requirements(modules)[role] && role !in disabled
    requires roles == set role | role in bindings && bindings[role]
    ensures BindingsAre(modules, disabled, bindings) && bindings.Keys == Requirements(modules).Keys
    ensures forall role :: role in roles <==> RoleOn(modules, disabled, role)
    ensures !(disabled <= bindings.Keys) ==> exists role :: role in disabled && !Declared(modules, role)
    ensures disabled <= bindings.Keys ==> forall role :: role in disabled ==> Declared(modules, role)
  {
    forall role
      ensures role in Requirements(modules) <==> Declared(modules, role)
      ensures role in Requirements(modules) ==> (Requirements(modules)[role] <==> Default(modules, role, true))
      ensures Default(modules, role, true) ==> Declared(modules, role)
    {
      RequirementsAre(modules, role);
    }
    hide Requirements, Declared, Default;
  }

  lemma EnabledIs(
    registry: Registry, modules: seq<Module>, disabled: set<string>, roles: set<string>, installed: seq<string>,
    enabled: seq<string>)
    requires InOrder(installed, modules) && forall c :: c in installed <==> Installed(modules, c)
    requires forall role :: role in roles <==> RoleOn(modules, disabled, role)
    requires enabled == Keep(installed, Served(registry, roles))
    ensures InOrder(enabled, modules) && forall c :: c in enabled <==> CapabilityOn(registry, modules, disabled, c)
  {
    KeepKeeps(installed, Served(registry, roles), AllCapabilities(modules));
    hide Installed, RoleOn, NoTwice, FirstSeen, Keep;
  }

  lemma GraphIs(
    registry: Registry, modules: seq<Module>, disabled: set<string>, enabled: seq<string>, graph: Modules.Graph)
    requires forall c :: c in enabled <==> CapabilityOn(registry, modules, disabled, c)
    requires graph == map c | c in enabled && c in registry.capabilities :: registry.capabilities[c].dependencies
    ensures graph == OnGraph(registry, modules, disabled)
    ensures forall c :: c in enabled ==> c in graph
  {
    hide Installed, RoleOn;
  }

  lemma RoutesOf(
    registry: Registry, modules: seq<Module>, disabled: set<string>, roles: set<string>, enabled: seq<string>,
    routes: map<string, WorkDefinition>)
    requires forall role :: role in roles <==> RoleOn(modules, disabled, role)
    requires forall c :: c in enabled <==> CapabilityOn(registry, modules, disabled, c)
    requires routes == map kind | kind in registry.work && kind in KindsOf(modules)
      && registry.work[kind].capability in enabled && registry.work[kind].role in roles :: registry.work[kind]
    ensures RoutesAre(registry, modules, disabled, routes)
  {
    hide RoleOn, CapabilityOn;
    forall kind ensures kind in KindsOf(modules) <==> Selected(modules, kind) {
      KindsAre(modules, kind);
    }
    hide KindsOf, Selected;
  }

  function KindsOf(modules: seq<Module>): set<string> {
    set m, k | m in modules && k in m.workKinds :: k
  }

  lemma KindsAre(modules: seq<Module>, kind: string)
    ensures kind in KindsOf(modules) <==> Selected(modules, kind)
  {
    if m :| m in modules && kind in m.workKinds {
      var i :| 0 <= i < |modules| && modules[i] == m;
    }
  }

  lemma ServicesAreThose(
    registry: Registry, modules: seq<Module>, disabled: set<string>, order: seq<string>, core: seq<string>,
    roles: set<string>)
    requires forall role :: role in roles <==> RoleOn(modules, disabled, role)
    ensures ServicesAre(registry, modules, disabled, order, core, core + Unique(ServicesOf(registry, order, roles)))
  {
    hide RoleOn, Unique, ServicesOf;
    var optional := Unique(ServicesOf(registry, order, roles));
    assert (core + optional)[|core|..] == optional;
    forall x ensures x in optional <==> ServiceNeeded(registry, modules, disabled, order, x) {
      if x in optional {
        var role :| role in order && role in roles && role in registry.roles && registry.roles[role].service == Some(x);
        assert RoleOn(modules, disabled, role);
      }
    }
  }

  /** What the method tests one after the other is the refusal. */
  lemma RefusedIs(
    registry: Registry, modules: seq<Module>, disabled: set<string>, known: bool, resolved: bool,
    roles: set<string>, installed: seq<string>, enabled: seq<string>)
    requires forall c :: c in installed <==> Installed(modules, c)
    requires forall c :: c in enabled <==> CapabilityOn(registry, modules, disabled, c)
    requires forall role :: role in roles <==> RoleOn(modules, disabled, role)
    requires if known then forall role :: role in disabled ==> Declared(modules, role)
             else exists role :: role in disabled && !Declared(modules, role)
    requires resolved <==> forall c :: c in enabled ==> !Modules.Defect(OnGraph(registry, modules, disabled), c)
    ensures Refused(registry, modules, disabled) <==>
      !known || (exists c :: c in installed && c !in registry.capabilities) || !resolved
        || !(roles <= registry.roles.Keys)
  {
    hide Installed, CapabilityOn, RoleOn, Declared, OnGraph;
  }

  /** What is advertised for the roles and capabilities that are on. */
  method Advertise(
    registry: Registry, modules: seq<Module>, ghost disabled: set<string>, order: seq<string>, core: seq<string>,
    roles: set<string>, enabled: seq<string>)
    returns (executionRoles: map<string, RoleSpec>, workRoutes: map<string, WorkDefinition>, services: seq<string>)
    requires forall role :: role in roles <==> RoleOn(modules, disabled, role)
    requires forall c :: c in enabled <==> CapabilityOn(registry, modules, disabled, c)
    requires roles <= registry.roles.Keys
    ensures RolesAre(registry, modules, disabled, executionRoles)
    ensures RoutesAre(registry, modules, disabled, workRoutes)
    ensures ServicesAre(registry, modules, disabled, order, core, services)
  {
    hide Unique, RoleOn, CapabilityOn, RoutesAre, ServicesAre, KindsOf, ServicesOf;
    services := core + Unique(ServicesOf(registry, order, roles));
    executionRoles := map role | role in roles :: registry.roles[role];
    workRoutes := map kind | kind in registry.work && kind in KindsOf(modules)
      && registry.work[kind].capability in enabled && registry.work[kind].role in roles :: registry.work[kind];
    RoutesOf(registry, modules, disabled, roles, enabled, workRoutes);
    ServicesAreThose(registry, modules, disabled, order, core, roles);
  }

  /** build_module_deployment_plan from the resolved modules; `order` lists the
      registered roles, `core` the services that always run. */
  method BuildWorkPlan(
    registry: Registry, modules: seq<Module>, disabled: set<string>, order: seq<string>, core: seq<string>)
    returns (result: Result<WorkPlan, string>)
    ensures result.Ok? <==> !Refused(registry, modules, disabled)
    ensures result.Ok? ==> PlanIs(registry, modules, disabled, order, core, result.value)
  {
    hide Unique, Keep, Requirements, AllCapabilities, Refused, RoleOn, CapabilityOn, InOrder, Installed, Declared,
         OnGraph, BindingsAre, RoutesAre, ServicesAre, KindsOf, ServicesOf;
    var installed := Unique(AllCapabilities(modules));
    InstalledIs(modules);
    var requirements := Requirements(modules);
    var bindings := map role | role in requirements :: requirements[role] && role !in disabled;
    var roles := set role | role in bindings && bindings[role];
    BindingsOf(modules, disabled, bindings, roles);
    var enabled := Keep(installed, Served(registry, roles));
    EnabledIs(registry, modules, disabled, roles, installed, enabled);
    var graph := map c | c in enabled && c in registry.capabilities :: registry.capabilities[c].dependencies;
    GraphIs(registry, modules, disabled, enabled, graph);
    var resolved, configOrder := Modules.ResolveModules(graph, enabled);
    RefusedIs(registry, modules, disabled, disabled <= requirements.Keys, resolved, roles, installed, enabled);
    if !(disabled <= requirements.Keys) {
      return Err("Unknown provider roles");
    }
    if exists c | c in installed :: c !in registry.capabilities {
      return Err("Unknown capability");
    }
    if !resolved {
      return Err("Capability requires another");
    }
    if !(roles <= registry.roles.Keys) {
      return Err("Unknown execution role");
    }
    var executionRoles, workRoutes, services := Advertise(registry, modules, disabled, order, core, roles, enabled);
    result := Ok(WorkPlan(installed, enabled, bindings, executionRoles, workRoutes, services));
  }

  // -------------------------------------------------------------- admission

  /** require_registered_role */
  predicate RoleAdmitted(plan: WorkPlan, registry: Registry, role: string) {
    role in registry.roles && role in plan.executionRoles && plan.executionRoles[role] == registry.roles[role]
  }

  /** require_registered_work */
  predicate WorkAdmitted(plan: WorkPlan, registry: Registry, kind: string) {
    && kind in registry.work
    && kind in plan.workRoutes && plan.workRoutes[kind] == registry.work[kind]
    && registry.work[kind].capability in plan.enabled
    && RoleAdmitted(plan, registry, registry.work[kind].role)
  }

  /** The runtime admits exactly the work the plan advertises: the selected work
      whose role and capability are on. */
  lemma AdvertisedIsAdmitted(
    registry: Registry, modules: seq<Module>, disabled: set<string>, order: seq<string>, core: seq<string>,
    plan: WorkPlan,
    kind: string)
    requires PlanIs(registry, modules, disabled, order, core, plan)
    ensures WorkAdmitted(plan, registry, kind) <==> RouteOn(registry, modules, disabled, kind)
    ensures kind in plan.workRoutes <==> RouteOn(registry, modules, disabled, kind)
  {
    hide RoleOn, CapabilityOn, Selected, InOrder, BindingsAre, ServicesAre;
  }

  /** In a plan that was not refused, whatever a capability that is on depends on,
      directly or through others, is on. */
  lemma {:induction false} AllTheWayOn(
    registry: Registry, modules: seq<Module>, disabled: set<string>, chain: seq<string>, k: nat)
    requires !Refused(registry, modules, disabled)
    requires Modules.Chain(AllGraph(registry), chain) && CapabilityOn(registry, modules, disabled, chain[0])
      && k < |chain|
    ensures CapabilityOn(registry, modules, disabled, chain[k])
  {
    hide Installed, RoleOn;
    if k > 0 {
      AllTheWayOn(registry, modules, disabled, chain, k - 1);
      var graph, step := OnGraph(registry, modules, disabled), [chain[k - 1], chain[k]];
      assert Modules.Chain(graph, step);
      assert !Modules.Defect(graph, chain[k - 1]);
      assert !Modules.BadEnd(graph, step);
    }
  }

  /** MAIN RESULT. Every capability an advertised route needs, directly or through
      others, is enabled, and each executor role that serves it is bound and
      registered. */
  lemma NeedsAreServed(
    registry: Registry, modules: seq<Module>, disabled: set<string>, order: seq<string>, core: seq<string>,
    plan: WorkPlan,
    kind: string, chain: seq<string>)
    requires !Refused(registry, modules, disabled) && PlanIs(registry, modules, disabled, order, core, plan)
    requires kind in plan.workRoutes && Modules.Chain(AllGraph(registry), chain)
      && chain[0] == plan.workRoutes[kind].capability
    ensures
      var needed := chain[|chain| - 1];
      && needed in plan.enabled && needed in registry.capabilities
      && forall role :: role in registry.capabilities[needed].roles ==> RoleAdmitted(plan, registry, role)
  {
    AllTheWayOn(registry, modules, disabled, chain, |chain| - 1);
    hide RoleOn, Selected, InOrder, BindingsAre, ServicesAre, Refused, Installed;
  }

  // ------------------------------------------------------- disabling one role

  /** The route runs in the role, or needs a capability that does. */
  ghost predicate NeedsRole(registry: Registry, work: WorkDefinition, role: string) {
    || work.role == role
    || exists chain ::
       Modules.Chain(AllGraph(registry), chain) && chain[0] == work.capability && RunsIn(registry, chain, role)
  }

  predicate RunsIn(registry: Registry, chain: seq<string>, role: string) {
    chain != [] && chain[|chain| - 1] in registry.capabilities
      && role in registry.capabilities[chain[|chain| - 1]].roles
  }

  lemma RolesWithout(modules: seq<Module>, disabled: set<string>, role: string, other: string)
    ensures RoleOn(modules, disabled + {role}, other) <==> RoleOn(modules, disabled, other) && other != role
  {
  }

  lemma CapabilitiesWithout(registry: Registry, modules: seq<Module>, disabled: set<string>, role: string, c: string)
    ensures CapabilityOn(registry, modules, disabled + {role}, c) <==>
      CapabilityOn(registry, modules, disabled, c) && role !in registry.capabilities[c].roles
    ensures CapabilityOn(registry, modules, disabled, c) ==> c in registry.capabilities
  {
    forall other
      ensures RoleOn(modules, disabled + {role}, other) <==> RoleOn(modules, disabled, other) && other != role
    {
      RolesWithout(modules, disabled, role, other);
    }
    hide RoleOn, Installed;
  }

  /** MAIN RESULT. Disabling one more role removes exactly the routes that need it,
      directly or through capabilities, adds none and leaves the others as they
      were. */
  lemma DisablingRemovesExactly(
    registry: Registry, modules: seq<Module>, disabled: set<string>, role: string,
    order: seq<string>, core: seq<string>, before: WorkPlan, after: WorkPlan, kind: string)
    requires PlanIs(registry, modules, disabled, order, core, before)
    requires !Refused(registry, modules, disabled + {role})
      && PlanIs(registry, modules, disabled + {role}, order, core, after)
    ensures kind in after.workRoutes <==>
      kind in before.workRoutes && !NeedsRole(registry, before.workRoutes[kind], role)
    ensures kind in after.workRoutes ==> after.workRoutes[kind] == before.workRoutes[kind]
  {
    hide Selected, InOrder, BindingsAre, ServicesAre, RolesAre, RoleOn, Refused, CapabilityOn;
    assert RoutesAre(registry, modules, disabled, before.workRoutes);
    assert RoutesAre(registry, modules, disabled + {role}, after.workRoutes);
    hide PlanIs;
    if kind in registry.work {
      var work := registry.work[kind];
      RolesWithout(modules, disabled, role, work.role);
      CapabilitiesWithout(registry, modules, disabled, role, work.capability);
      if RouteOn(registry, modules, disabled + {role}, kind) {
        NeverNeeded(registry, modules, disabled, role, work);
      } else if RouteOn(registry, modules, disabled, kind) && work.role != role {
        DirectlyNeeded(registry, modules, disabled, role, work);
      }
    }
  }

  lemma NeverNeeded(registry: Registry, modules: seq<Module>, disabled: set<string>, role: string, work: WorkDefinition)
    requires !Refused(registry, modules, disabled + {role}) && work.role != role
    requires CapabilityOn(registry, modules, disabled + {role}, work.capability)
    ensures !NeedsRole(registry, work, role)
  {
    forall chain | Modules.Chain(AllGraph(registry), chain) && chain[0] == work.capability
      ensures !RunsIn(registry, chain, role)
    {
      AllTheWayOn(registry, modules, disabled + {role}, chain, |chain| - 1);
      CapabilitiesWithout(registry, modules, disabled, role, chain[|chain| - 1]);
    }
  }

  lemma DirectlyNeeded(registry: Registry, modules: seq<Module>, disabled: set<string>, role: string,
      work: WorkDefinition)
    requires work.capability in registry.capabilities && role in registry.capabilities[work.capability].roles
    ensures NeedsRole(registry, work, role)
  {
    var chain := [work.capability];
    assert Modules.Chain(AllGraph(registry), chain) && RunsIn(registry, chain, role);
  }

  /** What stays on with the role off depends on nothing that goes off with it. */
  ghost predicate Separable(registry: Registry, modules: seq<Module>, disabled: set<string>, role: string) {
    forall c, d ::
      (&& CapabilityOn(registry, modules, disabled, c) && role !in registry.capabilities[c].roles
       && d in registry.capabilities[c].dependencies && d in registry.capabilities)
      ==> role !in registry.capabilities[d].roles
  }

  /** MAIN RESULT. From a selection that was accepted one more role can be disabled
      exactly if it is declared and separable. */
  lemma DisablingIsAccepted(registry: Registry, modules: seq<Module>, disabled: set<string>, role: string)
    requires !Refused(registry, modules, disabled)
    ensures !Refused(registry, modules, disabled + {role}) <==>
      Declared(modules, role) && Separable(registry, modules, disabled, role)
  {
    hide Declared, Installed, RoleOn, CapabilityOn, Separable;
    forall other
      ensures RoleOn(modules, disabled + {role}, other) <==> RoleOn(modules, disabled, other) && other != role
    {
      RolesWithout(modules, disabled, role, other);
    }
    var less := disabled + {role};
    if Separable(registry, modules, disabled, role) {
      forall c | CapabilityOn(registry, modules, less, c) ensures !Modules.Defect(OnGraph(registry, modules, less), c) {
        SeparableIsServed(registry, modules, disabled, role, c);
      }
    } else {
      InseparableIsDefect(registry, modules, disabled, role);
    }
  }

  lemma SeparableIsServed(registry: Registry, modules: seq<Module>, disabled: set<string>, role: string, c: string)
    requires !Refused(registry, modules, disabled) && Separable(registry, modules, disabled, role)
    requires CapabilityOn(registry, modules, disabled + {role}, c)
    ensures !Modules.Defect(OnGraph(registry, modules, disabled + {role}), c)
  {
    var graph, less := OnGraph(registry, modules, disabled), OnGraph(registry, modules, disabled + {role});
    forall x ensures x in less <==> x in graph && role !in registry.capabilities[x].roles {
      CapabilitiesWithout(registry, modules, disabled, role, x);
    }
    hide CapabilityOn, Installed, RoleOn;
    forall chain | Modules.Chain(less, chain) && chain[0] == c ensures !Modules.BadEnd(less, chain) {
      assert Modules.Chain(graph, chain);
      assert c in graph && !Modules.Defect(graph, c);
      assert !Modules.BadEnd(graph, chain);
      if |chain| > 1 {
        assert chain[|chain| - 2] in less && chain[|chain| - 1] in graph[chain[|chain| - 2]];
      }
    }
  }

  lemma InseparableIsDefect(registry: Registry, modules: seq<Module>, disabled: set<string>, role: string)
    requires !Separable(registry, modules, disabled, role)
    ensures exists c ::
      CapabilityOn(registry, modules, disabled + {role}, c)
        && Modules.Defect(OnGraph(registry, modules, disabled + {role}), c)
  {
    var c, d :| CapabilityOn(registry, modules, disabled, c) && role !in registry.capabilities[c].roles
      && d in registry.capabilities[c].dependencies && d in registry.capabilities
      && role in registry.capabilities[d].roles;
    CapabilitiesWithout(registry, modules, disabled, role, c);
    CapabilitiesWithout(registry, modules, disabled, role, d);
    hide CapabilityOn, Installed, RoleOn;
    var graph, chain := OnGraph(registry, modules, disabled + {role}), [c, d];
    assert Modules.Chain(graph, chain) && Modules.BadEnd(graph, chain);
  }

  /** An optional service is started exactly when a role that is on runs in it, and
      then once. */
  lemma ServicesFollowRoles(
    registry: Registry, modules: seq<Module>, disabled: set<string>, order: seq<string>, core: seq<string>,
    plan: WorkPlan,
    service: string)
    requires PlanIs(registry, modules, disabled, order, core, plan)
    requires forall role :: role in registry.roles <==> role in order
    ensures service in plan.services <==>
      service in core
        || exists role :: role in plan.executionRoles && plan.executionRoles[role].service == Some(service)
  {
    hide RoleOn, InOrder, BindingsAre, RoutesAre;
    assert plan.services == core + plan.services[|core|..];
    if ServiceNeeded(registry, modules, disabled, order, service) {
      var role :| role in order && role in registry.roles && RoleOn(modules, disabled, role)
        && registry.roles[role].service == Some(service);
      assert role in plan.executionRoles;
    }
  }
}
