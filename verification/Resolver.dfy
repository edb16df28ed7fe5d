/** Resolving configuration step by step, with its provenance (src/config/resolver.rs). */
module Resolver {
  import opened Bytes
  import opened Configuration
  import opened Policy
  import opened Provenance
  import opened ResolutionRules

  lemma DoneGrows<T>(all: set<T>, todo: set<T>, x: T)
    requires x in todo && todo <= all
    ensures all - (todo - {x}) == all - todo + {x}
  {
  }

  // ----- Providers -----

  function GlobalCommands(g: GlobalConfig, names: set<Name>): (leaves: set<Path>)
    ensures forall p :: p in leaves <==>
              p.ProviderCommand? && p.provider in names && p.provider in g.providers && g.providers[p.provider].Some?
  {
    set name | name in names && name in g.providers && g.providers[name].Some? :: ProviderCommand(name)
  }

  function GlobalOrigins(): Path -> Origin {
    leaf => Direct(Global, leaf)
  }

  /** One provider's command: its own, or the one already bound to its name. */
  method ResolveProvider(c: Defaults, g: GlobalConfig, name: Name, providers: map<Name, Command>) returns (r: Option<Command>)
    requires name in g.providers
    requires name in providers <==> name in c.providers
    requires name in providers ==> providers[name] == c.providers[name]
    ensures r.Some? <==> ProviderOk(c, g, name)
    ensures r.Some? ==> r == CommandOf(c, g, name)
  {
    if !ValidName(name) {
      return None;
    }
    var command := g.providers[name];
    if command.None? && name in providers {
      command := Some(providers[name]);
    }
    if command.None? || !CommandOk(command.value) {
      return None;
    }
    r := command;
  }

  /** The bindings once some of the global providers are resolved. */
  ghost predicate BindsProviders(c: Defaults, g: GlobalConfig, names: set<Name>, providers: map<Name, Command>) {
    && providers.Keys == c.providers.Keys + names
    && (forall name | name in names :: ProviderOk(c, g, name) && Some(providers[name]) == CommandOf(c, g, name))
    && (forall name | name in c.providers && name !in names :: providers[name] == c.providers[name])
  }

  lemma OneMoreProvider(c: Defaults, g: GlobalConfig, names: set<Name>, name: Name, providers: map<Name, Command>)
    requires BindsProviders(c, g, names, providers) && ProviderOk(c, g, name)
    ensures BindsProviders(c, g, names + {name}, providers[name := CommandOf(c, g, name).value])
  {
  }

  /** Only a command that the global configuration gives itself is recorded as global. */
  method RecordCommand(g: GlobalConfig, name: Name, record: Record)
    requires name in g.providers
    modifies record
    ensures Overlays(old(record.entries), record.entries, GlobalCommands(g, {name}), GlobalOrigins())
  {
    if g.providers[name].Some? {
      record.Assigned(ProviderCommand(name), Global);
    }
  }

  lemma AllProvidersAreBound(c: Defaults, g: GlobalConfig, providers: map<Name, Command>)
    requires BindsProviders(c, g, g.providers.Keys, providers)
    ensures ProvidersOk(c, g) && providers == ProvidersOf(c, g)
  {
  }

  method ResolveProviders(c: Defaults, g: GlobalConfig, record: Record) returns (r: Option<map<Name, Command>>)
    modifies record
    ensures r.Some? <==> ProvidersOk(c, g)
    ensures r.Some? ==> r.value == ProvidersOf(c, g)
    ensures r.Some? ==> Overlays(old(record.entries), record.entries, GlobalCommands(g, g.providers.Keys), GlobalOrigins())
  {
    var providers := c.providers;
    var todo := g.providers.Keys;
    while todo != {}
      invariant todo <= g.providers.Keys && BindsProviders(c, g, g.providers.Keys - todo, providers)
      invariant Overlays(old(record.entries), record.entries, GlobalCommands(g, g.providers.Keys - todo), GlobalOrigins())
      decreases todo
    {
      var name :| name in todo;
      var command := ResolveProvider(c, g, name, providers);
      if command.None? {
        return None;
      }
      OneMoreProvider(c, g, g.providers.Keys - todo, name, providers);
      providers := providers[name := command.value];
      DoneGrows(g.providers.Keys, todo, name);
      ghost var before := record.entries;
      RecordCommand(g, name, record);
      OverlaysCompose(old(record.entries), before, record.entries, GlobalCommands(g, g.providers.Keys - todo),
                      GlobalCommands(g, {name}), GlobalOrigins());
      GlobalCommandsGrow(g, todo, name);
      todo := todo - {name};
    }
    assert g.providers.Keys - todo == g.providers.Keys;
    AllProvidersAreBound(c, g, providers);
    r := Some(providers);
  }

  lemma GlobalCommandsGrow(g: GlobalConfig, todo: set<Name>, name: Name)
    requires name in todo && todo <= g.providers.Keys
    ensures GlobalCommands(g, g.providers.Keys - todo) + GlobalCommands(g, {name}) ==
              GlobalCommands(g, g.providers.Keys - (todo - {name}))
  {
  }

  // ----- Limits -----

  function SuppliedLimit(value: Option<nat>, limit: Limit): set<Path> {
    if value.Some? then {LimitOf(limit)} else {}
  }

  function SuppliedLimits(input: LimitOverrides): (leaves: set<Path>)
    ensures forall p :: p in leaves <==> p.LimitOf? && input.Get(p.limit).Some?
  {
    SuppliedLimit(input.concurrentAgents, ConcurrentAgents) + SuppliedLimit(input.agentsPerRun, AgentsPerRun)
    + SuppliedLimit(input.spawnsPerMinute, SpawnsPerMinute)
  }

  function LayerOrigins(layer: Layer): Path -> Origin {
    leaf => Direct(layer, leaf)
  }

  /** Accepts one limit if it is positive and intersection with the ceiling leaves it alone. */
  method ApplyLimit(value: Option<nat>, bounded: nat, limit: Limit, layer: Layer, record: Record) returns (ok: bool)
    modifies record
    ensures ok <==> value.Some? ==> value.value > 0 && value.value == bounded
    ensures ok ==> Overlays(old(record.entries), record.entries, SuppliedLimit(value, limit), LayerOrigins(layer))
  {
    if value.Some? {
      if value.value == 0 || value.value != bounded {
        return false;
      }
      record.Assigned(LimitOf(limit), layer);
    }
    ok := true;
  }

  /** Overrides limits within a ceiling that the current ones already respect. */
  method ApplyLimits(
      current: Limits, input: LimitOverrides, ceiling: Option<Limits>, layer: Layer, record: Record)
    returns (r: Option<Limits>)
    requires ceiling.Some? ==> BelowLimits(current, ceiling.value)
    modifies record
    ensures r.Some? <==> LimitsOk(input, ceiling)
    ensures r.Some? ==> r.value == Overridden(current, input)
    ensures r.Some? && ceiling.Some? ==> BelowLimits(r.value, ceiling.value)
    ensures r.Some? ==> Overlays(old(record.entries), record.entries, SuppliedLimits(input), LayerOrigins(layer))
  {
    var requested := Limits(
      if input.concurrentAgents.Some? then input.concurrentAgents.value else current.concurrentAgents,
      if input.agentsPerRun.Some? then input.agentsPerRun.value else current.agentsPerRun,
      if input.spawnsPerMinute.Some? then input.spawnsPerMinute.value else current.spawnsPerMinute);
    var bounded := if ceiling.Some? then IntersectLimits(requested, ceiling.value) else requested;
    CeilingsLeaveLimitsAlone(current, input, ceiling, requested, bounded);
    var ok := ApplyLimit(input.concurrentAgents, bounded.concurrentAgents, ConcurrentAgents, layer, record);
    if !ok {
      return None;
    }
    ghost var first := record.entries;
    ok := ApplyLimit(input.agentsPerRun, bounded.agentsPerRun, AgentsPerRun, layer, record);
    if !ok {
      return None;
    }
    ghost var second := record.entries;
    ok := ApplyLimit(input.spawnsPerMinute, bounded.spawnsPerMinute, SpawnsPerMinute, layer, record);
    if !ok {
      return None;
    }
    var origins := LayerOrigins(layer);
    OverlaysCompose(old(record.entries), first, second, SuppliedLimit(input.concurrentAgents, ConcurrentAgents),
                    SuppliedLimit(input.agentsPerRun, AgentsPerRun), origins);
    OverlaysCompose(old(record.entries), second, record.entries,
                    SuppliedLimit(input.concurrentAgents, ConcurrentAgents) + SuppliedLimit(input.agentsPerRun, AgentsPerRun),
                    SuppliedLimit(input.spawnsPerMinute, SpawnsPerMinute), origins);
    r := Some(bounded);
  }

  /** Intersection with a ceiling changes a supplied limit exactly if that exceeds it, and no other limit. */
  lemma CeilingsLeaveLimitsAlone(
      current: Limits, input: LimitOverrides, ceiling: Option<Limits>, requested: Limits, bounded: Limits)
    requires ceiling.Some? ==> BelowLimits(current, ceiling.value)
    requires requested == Overridden(current, input)
    requires bounded == if ceiling.Some? then IntersectLimits(requested, ceiling.value) else requested
    ensures LimitsOk(input, ceiling) <==>
              && (input.concurrentAgents.Some? ==>
                    input.concurrentAgents.value > 0 && input.concurrentAgents.value == bounded.concurrentAgents)
              && (input.agentsPerRun.Some? ==>
                    input.agentsPerRun.value > 0 && input.agentsPerRun.value == bounded.agentsPerRun)
              && (input.spawnsPerMinute.Some? ==>
                    input.spawnsPerMinute.value > 0 && input.spawnsPerMinute.value == bounded.spawnsPerMinute)
    ensures LimitsOk(input, ceiling) ==> bounded == requested
    ensures ceiling.Some? ==> BelowLimits(bounded, ceiling.value)
  {
    if ceiling.Some? {
      assert current.Get(ConcurrentAgents) <= ceiling.value.Get(ConcurrentAgents);
      assert current.Get(AgentsPerRun) <= ceiling.value.Get(AgentsPerRun);
      assert current.Get(SpawnsPerMinute) <= ceiling.value.Get(SpawnsPerMinute);
    }
  }

  // ----- Supervision -----

  const BOUNDS: seq<Bound> :=
    [RestartWindow, LaunchAttempts, RestartBackoff, StartupTimeout, JobTimeout, InterruptGrace, ShutdownTimeout, IdleTimeout]

  function SuppliedBounds(input: SupervisionOverrides, bounds: seq<Bound>): (leaves: set<Path>)
    ensures forall p :: p in leaves <==> p.SupervisionOf? && p.bound in bounds && input.Get(p.bound).Some?
  {
    set i | 0 <= i < |bounds| && input.Get(bounds[i]).Some? :: SupervisionOf(bounds[i])
  }

  function WithBound(policy: Supervision, input: SupervisionOverrides, bound: Bound): Supervision {
    if input.Get(bound).Some? then policy.Set(bound, input.Get(bound).value) else policy
  }

  method ApplyBound(policy: Supervision, input: SupervisionOverrides, bound: Bound, record: Record)
    returns (r: Option<Supervision>)
    modifies record
    ensures r.Some? <==> BoundOk(bound, input.Get(bound))
    ensures r.Some? ==> r.value == WithBound(policy, input, bound)
    ensures r.Some? ==> Overlays(old(record.entries), record.entries, SuppliedBounds(input, [bound]), GlobalOrigins())
  {
    var value := input.Get(bound);
    if value.None? {
      return Some(policy);
    }
    var least := if bound == IdleTimeout then 0 else 1;
    if value.value < least || value.value > MAXIMUM_BOUND {
      return None;
    }
    record.Assigned(SupervisionOf(bound), Global);
    r := Some(policy.Set(bound, value.value));
  }

  lemma AllBoundsAreListed()
    ensures forall bound: Bound :: bound in BOUNDS
  {
    forall bound: Bound
      ensures bound in BOUNDS
    {
      match bound
      case RestartWindow => assert BOUNDS[0] == bound;
      case LaunchAttempts => assert BOUNDS[1] == bound;
      case RestartBackoff => assert BOUNDS[2] == bound;
      case StartupTimeout => assert BOUNDS[3] == bound;
      case JobTimeout => assert BOUNDS[4] == bound;
      case InterruptGrace => assert BOUNDS[5] == bound;
      case ShutdownTimeout => assert BOUNDS[6] == bound;
      case IdleTimeout => assert BOUNDS[7] == bound;
    }
  }

  /** The policy after the first bounds have been applied to the compiled one. */
  ghost predicate BoundsApplied(c: Defaults, input: SupervisionOverrides, n: nat, policy: Supervision)
    requires n <= |BOUNDS|
  {
    && (forall k | 0 <= k < n :: BoundOk(BOUNDS[k], input.Get(BOUNDS[k])))
    && forall k | 0 <= k < |BOUNDS| ::
         policy.Get(BOUNDS[k]) ==
           if k < n then OrElse(input.Get(BOUNDS[k]), c.supervision.Get(BOUNDS[k])) else c.supervision.Get(BOUNDS[k])
  }

  lemma OneMoreBound(c: Defaults, input: SupervisionOverrides, n: nat, policy: Supervision)
    requires n < |BOUNDS| && BoundsApplied(c, input, n, policy) && BoundOk(BOUNDS[n], input.Get(BOUNDS[n]))
    ensures BoundsApplied(c, input, n + 1, WithBound(policy, input, BOUNDS[n]))
  {
    forall k | 0 <= k < |BOUNDS|
      ensures k != n ==> WithBound(policy, input, BOUNDS[n]).Get(BOUNDS[k]) == policy.Get(BOUNDS[k])
    {
      SettingOneBound(policy, input, BOUNDS[n], BOUNDS[k]);
    }
    SettingOneBound(policy, input, BOUNDS[n], BOUNDS[n]);
  }

  lemma SuppliedBoundsGrow(input: SupervisionOverrides, n: nat)
    requires n < |BOUNDS|
    ensures SuppliedBounds(input, BOUNDS[..n]) + SuppliedBounds(input, [BOUNDS[n]]) == SuppliedBounds(input, BOUNDS[..n + 1])
  {
    hide SuppliedBounds;
    assert BOUNDS[..n + 1] == BOUNDS[..n] + [BOUNDS[n]];
  }

  /** Bounds must be positive, idle shutdown may be off, and interrupts must fit into the shutdown. */
  method ResolveSupervision(c: Defaults, input: SupervisionOverrides, record: Record) returns (r: Option<Supervision>)
    modifies record
    ensures r.Some? <==> SupervisionOk(c, input)
    ensures r.Some? ==> r.value == SupervisionFor(c, input)
    ensures r.Some? ==> Overlays(old(record.entries), record.entries, SuppliedBounds(input, BOUNDS), GlobalOrigins())
  {
    var policy := c.supervision;
    for i := 0 to |BOUNDS|
      invariant BoundsApplied(c, input, i, policy)
      invariant Overlays(old(record.entries), record.entries, SuppliedBounds(input, BOUNDS[..i]), GlobalOrigins())
    {
      ghost var before := record.entries;
      var applied := ApplyBound(policy, input, BOUNDS[i], record);
      if applied.None? {
        return None;
      }
      OneMoreBound(c, input, i, policy);
      OverlaysCompose(old(record.entries), before, record.entries, SuppliedBounds(input, BOUNDS[..i]),
                      SuppliedBounds(input, [BOUNDS[i]]), GlobalOrigins());
      SuppliedBoundsGrow(input, i);
      policy := applied.value;
    }
    assert BOUNDS[..|BOUNDS|] == BOUNDS;
    AllBoundsAreApplied(c, input, policy);
    if policy.interruptGrace >= policy.shutdownTimeout {
      return None;
    }
    r := Some(policy);
  }

  lemma AllBoundsAreApplied(c: Defaults, input: SupervisionOverrides, policy: Supervision)
    requires BoundsApplied(c, input, |BOUNDS|, policy)
    ensures policy == SupervisionFor(c, input) && forall bound: Bound :: BoundOk(bound, input.Get(bound))
  {
    AllBoundsAreListed();
    forall bound: Bound
      ensures BoundOk(bound, input.Get(bound))
    {
      assert bound in BOUNDS;
    }
    SupervisionIsItsBounds(c, policy, SupervisionFor(c, input), input);
  }

  lemma SettingOneBound(policy: Supervision, input: SupervisionOverrides, bound: Bound, other: Bound)
    ensures WithBound(policy, input, bound).Get(other) ==
              if other == bound then OrElse(input.Get(bound), policy.Get(bound)) else policy.Get(other)
  {
  }

  lemma SupervisionIsItsBounds(c: Defaults, policy: Supervision, expected: Supervision, input: SupervisionOverrides)
    requires expected == SupervisionFor(c, input)
    requires forall k | 0 <= k < |BOUNDS| ::
               policy.Get(BOUNDS[k]) == OrElse(input.Get(BOUNDS[k]), c.supervision.Get(BOUNDS[k]))
    ensures policy == expected
  {
    assert policy.Get(BOUNDS[0]) == expected.restartWindow && policy.Get(BOUNDS[1]) == expected.launchAttempts;
    assert policy.Get(BOUNDS[2]) == expected.restartBackoff && policy.Get(BOUNDS[3]) == expected.startupTimeout;
    assert policy.Get(BOUNDS[4]) == expected.jobTimeout && policy.Get(BOUNDS[5]) == expected.interruptGrace;
    assert policy.Get(BOUNDS[6]) == expected.shutdownTimeout && policy.Get(BOUNDS[7]) == expected.idleTimeout;
  }

  // ----- Profiles and archetypes -----

  function ResolveProfiles(inputs: map<Name, ProfileInput>): Option<map<Name, Profile>> {
    if ProfilesOk(inputs) then Some(ProfilesOf(inputs)) else None
  }

  method ResolveRole(name: Name, role: RoleInput, profiles: set<Name>, providers: set<Name>)
    returns (r: Option<RoleDefinition>)
    ensures r.Some? <==> RoleOk(name, role, profiles, providers)
    ensures r.Some? ==> r.value == ResolvedRole(role)
  {
    if !ValidName(name) || role.provider.None? || role.provider.value !in providers {
      return None;
    }
    if role.profile.None? || role.profile.value !in profiles {
      return None;
    }
    if role.capabilities.None? || !ParsableGrants(role.capabilities.value) || role.mode.None? || role.workspace.None? {
      return None;
    }
    r := Some(ResolvedRole(role));
  }

  /** The roles and profiles of an archetype once some of its roles are resolved. */
  ghost predicate DefinesRoles(
      input: ArchetypeInput, names: set<Name>, profiles: map<Name, Profile>, providers: set<Name>,
      roles: map<Name, RoleDefinition>, used: map<Name, Profile>)
  {
    && roles.Keys == names && names <= input.roles.Keys
    && (forall name | name in names ::
          RoleOk(name, input.roles[name], profiles.Keys, providers) && roles[name] == ResolvedRole(input.roles[name])
          && roles[name].profile in used)
    && (forall profile | profile in used ::
          profile in profiles && used[profile] == profiles[profile] && profile in UsedProfiles(input))
  }

  lemma AllRolesAreDefined(
      reference: string, input: ArchetypeInput, profiles: map<Name, Profile>, providers: set<Name>,
      roles: map<Name, RoleDefinition>, used: map<Name, Profile>)
    requires DefinesRoles(input, input.roles.Keys, profiles, providers, roles, used)
    requires ArchetypeOk(input, profiles.Keys, providers)
    ensures Archetype(reference, input.lead.value, used, roles) == ResolvedArchetype(reference, input, profiles, providers)
  {
    var expected := ResolvedArchetype(reference, input, profiles, providers);
    assert roles == expected.roles;
    forall profile
      ensures profile in used <==> profile in expected.profiles
    {
      if profile in expected.profiles {
        var name :| name in input.roles && input.roles[name].profile == Some(profile);
        assert roles[name].profile == profile;
      }
    }
    assert used == expected.profiles;
  }

  method ResolveArchetype(
      reference: string, input: ArchetypeInput, profiles: map<Name, Profile>, providers: map<Name, Command>)
    returns (r: Option<Archetype>)
    ensures r.Some? <==> ArchetypeOk(input, profiles.Keys, providers.Keys)
    ensures r.Some? ==> r.value == ResolvedArchetype(reference, input, profiles, providers.Keys)
  {
    if input.lead.None? {
      return None;
    }
    var roles: map<Name, RoleDefinition> := map[];
    var used: map<Name, Profile> := map[];
    var todo := input.roles.Keys;
    while todo != {}
      invariant todo <= input.roles.Keys
      invariant DefinesRoles(input, input.roles.Keys - todo, profiles, providers.Keys, roles, used)
      decreases todo
    {
      var name :| name in todo;
      var role := ResolveRole(name, input.roles[name], profiles.Keys, providers.Keys);
      if role.None? {
        return None;
      }
      used := used[role.value.profile := profiles[role.value.profile]];
      roles := roles[name := role.value];
      todo := todo - {name};
    }
    assert input.roles.Keys - todo == input.roles.Keys;
    var lead := input.lead.value;
    if lead !in roles || roles[lead].mode != InteractiveMode || roles[lead].workspace == WorktreeWorkspace {
      return None;
    }
    AllRolesAreDefined(reference, input, profiles, providers.Keys, roles, used);
    r := Some(Archetype(reference, lead, used, roles));
  }

  /** The definitions available once some of the global ones are resolved. */
  ghost predicate DefinesArchetypes(c: Defaults, g: GlobalConfig, references: set<string>, profiles: map<Name, Profile>, providers: set<Name>,
      archetypes: map<string, Archetype>)
  {
    && references <= g.archetypes.Keys && archetypes.Keys == {c.builtin.reference} + references
    && (forall reference | reference in references ::
          && ValidReference(reference, "global") && ArchetypeOk(g.archetypes[reference], profiles.Keys, providers)
          && archetypes[reference] == ResolvedArchetype(reference, g.archetypes[reference], profiles, providers))
    && (c.builtin.reference !in references ==> archetypes[c.builtin.reference] == c.builtin)
  }

  lemma OneMoreArchetype(c: Defaults, g: GlobalConfig, references: set<string>, reference: string, profiles: map<Name, Profile>, providers: set<Name>,
      archetypes: map<string, Archetype>)
    requires DefinesArchetypes(c, g, references, profiles, providers, archetypes) && reference in g.archetypes
    requires ValidReference(reference, "global") && ArchetypeOk(g.archetypes[reference], profiles.Keys, providers)
    ensures DefinesArchetypes(c, g, references + {reference}, profiles, providers,
              archetypes[reference := ResolvedArchetype(reference, g.archetypes[reference], profiles, providers)])
  {
    hide ArchetypeOk, ValidReference, ResolvedArchetype;
  }

  lemma AllArchetypesAreDefined(c: Defaults, g: GlobalConfig, archetypes: map<string, Archetype>)
    requires ProfilesOk(g.profiles)
    requires DefinesArchetypes(c, g, g.archetypes.Keys, ProfilesOf(g.profiles), ProvidersOf(c, g).Keys, archetypes)
    ensures ArchetypesOk(c, g) && ReferencesOk(g)
    ensures forall reference :: reference in archetypes <==> IsDefined(c, g, reference)
  {
    hide ArchetypeOk, ValidReference, ResolvedArchetype, ProvidersOf, ProfileOk;
    assert ProfilesOf(g.profiles).Keys == g.profiles.Keys;
  }

  lemma DefinedArchetype(c: Defaults, g: GlobalConfig, archetypes: map<string, Archetype>, reference: string)
    requires ArchetypesOk(c, g) && IsDefined(c, g, reference) && reference in archetypes
    requires DefinesArchetypes(c, g, g.archetypes.Keys, ProfilesOf(g.profiles), ProvidersOf(c, g).Keys, archetypes)
    ensures archetypes[reference] == DefinitionOf(c, g, reference)
  {
  }

  method ResolveDefinition(
      reference: string, input: ArchetypeInput, profiles: map<Name, Profile>, providers: map<Name, Command>)
    returns (r: Option<Archetype>)
    ensures r.Some? <==> ValidReference(reference, "global") && ArchetypeOk(input, profiles.Keys, providers.Keys)
    ensures r.Some? ==> r.value == ResolvedArchetype(reference, input, profiles, providers.Keys)
  {
    if !ValidReference(reference, "global") {
      return None;
    }
    r := ResolveArchetype(reference, input, profiles, providers);
  }

  /** Every definition that can be selected: the compiled one and all valid global ones. */
  method ResolveArchetypes(c: Defaults, g: GlobalConfig, profiles: map<Name, Profile>, providers: map<Name, Command>)
    returns (r: Option<map<string, Archetype>>)
    ensures r.Some? <==>
              ReferencesOk(g) && forall reference | reference in g.archetypes ::
                ArchetypeOk(g.archetypes[reference], profiles.Keys, providers.Keys)
    ensures r.Some? ==> DefinesArchetypes(c, g, g.archetypes.Keys, profiles, providers.Keys, r.value)
  {
    hide ArchetypeOk, ValidReference, ResolvedArchetype;
    var archetypes := map[c.builtin.reference := c.builtin];
    var todo := g.archetypes.Keys;
    while todo != {}
      invariant todo <= g.archetypes.Keys
      invariant DefinesArchetypes(c, g, g.archetypes.Keys - todo, profiles, providers.Keys, archetypes)
      decreases todo
    {
      var reference :| reference in todo;
      var archetype := ResolveDefinition(reference, g.archetypes[reference], profiles, providers);
      if archetype.None? {
        return None;
      }
      OneMoreArchetype(c, g, g.archetypes.Keys - todo, reference, profiles, providers.Keys, archetypes);
      DoneGrows(g.archetypes.Keys, todo, reference);
      archetypes := archetypes[reference := archetype.value];
      todo := todo - {reference};
    }
    assert g.archetypes.Keys - todo == g.archetypes.Keys;
    r := Some(archetypes);
  }

  // ----- Restrictions -----

  function SuppliedPolicy(restrictions: map<Name, Restriction>, names: set<Name>): (leaves: set<Path>)
    ensures forall p :: p in leaves <==> Restricts(restrictions, p) && p.role in names
  {
    set p | p in RoleLeaves(names) && Restricts(restrictions, p)
  }

  function RestrictionOrigins(
      layer: Layer, profiles: map<Name, ProfileInput>, restrictions: map<Name, Restriction>): Path -> Origin
  {
    leaf => RestrictionOrigin(layer, profiles, restrictions, leaf)
  }

  /** Every role stays within its archetype's. */
  predicate WithinArchetype(a: Archetype, roles: map<Name, EffectiveRole>)
    requires Complete(a)
  {
    && roles.Keys == a.roles.Keys
    && forall name | name in a.roles ::
         && BelowCapacity(roles[name].maxInstances, a.roles[name].maxInstances)
         && BelowProfile(roles[name].profile, a.profiles[a.roles[name].profile])
         && ValidProfile(roles[name].profile)
  }

  /** Asking for a restricted role passes the intersection checks exactly if the restriction is within bounds. */
  lemma BoundedExactlyWithinArchetype(a: Archetype, profiles: map<Name, Profile>, name: Name, role: EffectiveRole, r: Restriction)
    requires Complete(a) && name in a.roles && (forall profile | profile in profiles :: ValidProfile(profiles[profile]))
    requires r.profile.Some? ==> r.profile.value in profiles
    requires BelowCapacity(role.maxInstances, a.roles[name].maxInstances) && ValidProfile(role.profile)
    requires BelowProfile(role.profile, a.profiles[a.roles[name].profile])
    ensures var requested := Restricted(role, profiles, r);
            var bounded := IntersectRoles(requested, UnrestrictedRole(a, a.roles[name]));
            && (bounded.maxInstances == requested.maxInstances <==>
                  (r.maxInstances.Some? ==> BelowCapacity(r.maxInstances, a.roles[name].maxInstances)))
            && (bounded.profile == requested.profile <==>
                  (r.profile.Some? ==> BelowProfile(profiles[r.profile.value], a.profiles[a.roles[name].profile])))
            && bounded.enabled == requested.enabled
  {
    var baseline := a.profiles[a.roles[name].profile];
    var requested := Restricted(role, profiles, r);
    IntersectionIsTheMeet(requested.profile, baseline, requested.profile);
  }

  /** The roles once some of the restrictions are applied. */
  ghost predicate AppliesRestrictions(
      a: Archetype, before: map<Name, EffectiveRole>, profiles: map<Name, Profile>,
      restrictions: map<Name, Restriction>, names: set<Name>, roles: map<Name, EffectiveRole>)
    requires Complete(a)
  {
    && names <= restrictions.Keys && roles.Keys == before.Keys && WithinArchetype(a, roles)
    && (forall name | name in names :: RestrictionOk(a, profiles, name, restrictions[name]))
    && forall name | name in roles ::
         roles[name] ==
           if name in names then Restricted(before[name], profiles, restrictions[name]) else before[name]
  }

  lemma OneMoreRestriction(
      a: Archetype, before: map<Name, EffectiveRole>, profiles: map<Name, Profile>,
      restrictions: map<Name, Restriction>, names: set<Name>, name: Name, roles: map<Name, EffectiveRole>)
    requires Complete(a) && AppliesRestrictions(a, before, profiles, restrictions, names, roles)
    requires name in restrictions && name !in names && RestrictionOk(a, profiles, name, restrictions[name])
    requires name in roles && WithinArchetype(a, roles[name := Restricted(roles[name], profiles, restrictions[name])])
    ensures AppliesRestrictions(
              a, before, profiles, restrictions, names + {name},
              roles[name := Restricted(roles[name], profiles, restrictions[name])])
  {
  }

  /** The effective policy while restrictions are applied to it. */
  class EffectiveConfig {
    const archetype: Archetype
    const record: Record
    var roles: map<Name, EffectiveRole>

    constructor (archetype: Archetype, record: Record)
      requires Complete(archetype)
      ensures this.archetype == archetype && this.record == record && roles == UnrestrictedRoles(archetype)
    {
      this.archetype, this.record, roles := archetype, record, UnrestrictedRoles(archetype);
    }

    /** Applies one layer's restrictions, each within the trusted archetype. */
    method ApplyRoles(
        restrictions: map<Name, Restriction>, profiles: map<Name, Profile>,
        inputs: map<Name, ProfileInput>, layer: Layer)
      returns (ok: bool)
      requires Complete(archetype) && WithinArchetype(archetype, roles)
      requires ProfilesOk(inputs) && profiles == ProfilesOf(inputs)
      modifies this, record
      ensures ok <==> RestrictionsOk(archetype, profiles, restrictions)
      ensures ok ==> roles == RestrictedRoles(old(roles), profiles, restrictions) && WithinArchetype(archetype, roles)
      ensures ok ==> Overlays(old(record.entries), record.entries, SuppliedPolicy(restrictions, restrictions.Keys),
                              RestrictionOrigins(layer, inputs, restrictions))
    {
      hide SuppliedPolicy, Restricted, RestrictionOrigin, ValidProfile;
      var todo := restrictions.Keys;
      ghost var origins := RestrictionOrigins(layer, inputs, restrictions);
      ResolvedProfilesAreValid(inputs);
      while todo != {}
        invariant todo <= restrictions.Keys
        invariant AppliesRestrictions(archetype, old(roles), profiles, restrictions, restrictions.Keys - todo, roles)
        invariant Overlays(old(record.entries), record.entries,
                           SuppliedPolicy(restrictions, restrictions.Keys - todo), origins)
        decreases todo
      {
        var name :| name in todo;
        var restricted := RestrictRole(name, restrictions[name], profiles);
        if restricted.None? {
          return false;
        }
        OneMoreRestriction(archetype, old(roles), profiles, restrictions, restrictions.Keys - todo, name, roles);
        roles := roles[name := restricted.value];
        DoneGrows(restrictions.Keys, todo, name);
        ghost var before := record.entries;
        RecordRestriction(name, restrictions, inputs, layer);
        OverlaysCompose(old(record.entries), before, record.entries,
                        SuppliedPolicy(restrictions, restrictions.Keys - todo),
                        SuppliedPolicy(restrictions, {name}), origins);
        SuppliedPolicyGrows(restrictions, todo, name);
        todo := todo - {name};
      }
      assert restrictions.Keys - todo == restrictions.Keys;
      assert roles == RestrictedRoles(old(roles), profiles, restrictions);
      ok := true;
    }

    /** One role's policy with its restriction applied, unless that exceeds the archetype. */
    method RestrictRole(name: Name, restriction: Restriction, profiles: map<Name, Profile>)
      returns (r: Option<EffectiveRole>)
      requires Complete(archetype) && WithinArchetype(archetype, roles)
      requires forall profile | profile in profiles :: ValidProfile(profiles[profile])
      ensures r.Some? <==> RestrictionOk(archetype, profiles, name, restriction)
      ensures r.Some? ==> r.value == Restricted(roles[name], profiles, restriction)
      ensures r.Some? ==> WithinArchetype(archetype, roles[name := r.value])
    {
      if name !in archetype.roles {
        return None;
      }
      var baseline := archetype.roles[name];
      var requested := roles[name];
      if restriction.enabled.Some? {
        if !restriction.enabled.value && name == archetype.lead {
          return None;
        }
        requested := requested.(enabled := restriction.enabled.value);
      }
      if restriction.maxInstances.Some? {
        requested := requested.(maxInstances := restriction.maxInstances);
      }
      if restriction.profile.Some? {
        if restriction.profile.value !in profiles {
          return None;
        }
        requested := requested.(profile := profiles[restriction.profile.value]);
      }
      var ceiling := EffectiveRole(true, baseline.maxInstances, archetype.profiles[baseline.profile]);
      var bounded := IntersectRoles(requested, ceiling);
      BoundedExactlyWithinArchetype(archetype, profiles, name, roles[name], restriction);
      if requested.maxInstances != bounded.maxInstances || requested.profile != bounded.profile {
        return None;
      }
      r := Some(bounded);
    }

    method RecordRestriction(
        name: Name, restrictions: map<Name, Restriction>, inputs: map<Name, ProfileInput>, layer: Layer)
      requires name in restrictions
      requires restrictions[name].profile.Some? ==> restrictions[name].profile.value in inputs
      modifies record
      ensures Overlays(old(record.entries), record.entries, SuppliedPolicy(restrictions, {name}),
                       RestrictionOrigins(layer, inputs, restrictions))
    {
      var restriction := restrictions[name];
      ghost var origins := RestrictionOrigins(layer, inputs, restrictions);
      if restriction.enabled.Some? {
        record.Assigned(RoleEnabled(name), layer);
      }
      ghost var first, enabled := record.entries, if restriction.enabled.Some? then {RoleEnabled(name)} else {};
      if restriction.maxInstances.Some? {
        record.Assigned(RoleCapacity(name), layer);
      }
      ghost var second, sized := record.entries, if restriction.maxInstances.Some? then {RoleCapacity(name)} else {};
      OverlaysCompose(old(record.entries), first, second, enabled, sized, origins);
      if restriction.profile.Some? {
        RecordParts(name, restriction.profile.value, restrictions, inputs, layer);
        OverlaysCompose(old(record.entries), second, record.entries, enabled + sized, PartLeaves(name), origins);
      }
      SuppliedPolicyOf(restrictions, name);
    }

    method RecordParts(
        name: Name, profile: Name, ghost restrictions: map<Name, Restriction>, inputs: map<Name, ProfileInput>,
        layer: Layer)
      requires profile in inputs && name in restrictions && restrictions[name].profile == Some(profile)
      modifies record
      ensures Overlays(old(record.entries), record.entries, PartLeaves(name), RestrictionOrigins(layer, inputs, restrictions))
    {
      ghost var before, origins := record.entries, RestrictionOrigins(layer, inputs, restrictions);
      RecordPart(name, profile, inputs, layer, FilesystemPart);
      RecordPart(name, profile, inputs, layer, NetworkPart);
      RecordPart(name, profile, inputs, layer, ApprovalsPart);
      RecordPart(name, profile, inputs, layer, ReviewerPart);
      ghost var parts := part => RestrictionOrigin(layer, inputs, restrictions, RoleProfile(name, part));
      assert record.entries == WithParts(before, name, parts);
      PartsOverlay(before, name, parts, origins);
    }

    method RecordPart(name: Name, profile: Name, inputs: map<Name, ProfileInput>, layer: Layer, part: Part)
      requires profile in inputs
      modifies record
      ensures record.entries == old(record.entries)[RoleProfile(name, part) :=
                Origin(TrustedOrigin(inputs, profile, part).source, Some(Source(layer, ProfileSelector(name))))]
    {
      var defaulted := part == ReviewerPart && inputs[profile].reviewer.None?;
      record.Insert(RoleProfile(name, part), Origin(
        Source(if defaulted then Compiled else Global, TrustedProfile(profile, part)),
        Some(Source(layer, ProfileSelector(name)))));
    }
  }

  lemma SuppliedPolicyOf(restrictions: map<Name, Restriction>, name: Name)
    requires name in restrictions
    ensures var r := restrictions[name];
            SuppliedPolicy(restrictions, {name}) ==
              (if r.enabled.Some? then {RoleEnabled(name)} else {})
              + (if r.maxInstances.Some? then {RoleCapacity(name)} else {})
              + (if r.profile.Some? then PartLeaves(name) else {})
  {
  }

  lemma SuppliedPolicyGrows(restrictions: map<Name, Restriction>, todo: set<Name>, name: Name)
    requires name in todo && todo <= restrictions.Keys
    ensures SuppliedPolicy(restrictions, restrictions.Keys - todo) + SuppliedPolicy(restrictions, {name}) ==
              SuppliedPolicy(restrictions, restrictions.Keys - (todo - {name}))
  {
  }
}
