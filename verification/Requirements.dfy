/** What acceptance demands of inputs, and so guarantees of effective configurations (src/config/resolver.rs). */
module Requirements {
  import opened Bytes
  import opened Configuration
  import opened Policy
  import opened ResolutionRules

  // ----- The checks one by one -----

  /** A command needs a nonempty program, and no argument may hold a NUL. */
  lemma CommandsAreAcceptedExactly(command: Command)
    ensures CommandOk(command) <==>
              && |command| > 0 && |command[0]| > 0
              && forall i, j | 0 <= i < |command| && 0 <= j < |command[i]| :: command[i][j] as int != 0
  {
    if CommandOk(command) {
      forall i, j | 0 <= i < |command| && 0 <= j < |command[i]|
        ensures command[i][j] as int != 0
      {
        assert command[i] in command && command[i][j] in command[i];
      }
    } else if |command| > 0 && |command[0]| > 0 {
      var argument :| argument in command && '\0' in argument;
      var i :| 0 <= i < |command| && command[i] == argument;
      var j :| 0 <= j < |argument| && argument[j] == '\0';
      assert command[i][j] as int == 0;
    }
  }

  /** Allowed roots must be absolute paths. */
  lemma RootsAreAcceptedExactly(g: GlobalConfig)
    ensures RootsOk(g) <==>
              match g.roots
              case None => true
              case Some(roots) => forall i | 0 <= i < |roots| :: |roots[i]| > 0 && roots[i][0] as int == 47
  {
    if !RootsOk(g) {
      var path :| path in g.roots.value && !IsAbsolute(path);
      var i :| 0 <= i < |g.roots.value| && g.roots.value[i] == path;
    } else if g.roots.Some? {
      forall i | 0 <= i < |g.roots.value|
        ensures |g.roots.value[i]| > 0 && g.roots.value[i][0] as int == 47
      {
        assert g.roots.value[i] in g.roots.value;
      }
    }
  }

  /** A profile needs a valid name and three policies that do not contradict each other or the reviewer. */
  lemma ProfilesAreAcceptedExactly(name: Name, input: ProfileInput)
    ensures ProfileOk(name, input) <==>
              && ValidName(name)
              && match (input.filesystem, input.network, input.approvals)
                 case (Some(filesystem), Some(network), Some(approvals)) =>
                   && (filesystem.Unrestricted? ==> network.ProviderDefault?)
                   && (approvals.Never? ==> input.reviewer.None? || input.reviewer.value.User?)
                 case _ => false
    ensures ProfileOk(name, input) ==>
              ResolvedProfile(input) == Profile(
                input.filesystem.value, input.network.value, input.approvals.value,
                match input.reviewer case Some(reviewer) => reviewer case None => User)
  {
  }

  /** Roles on a read-only workspace must be read-only, or disabled. */
  lemma WorkspacesAreHonoredExactly(a: Archetype, roles: map<Name, EffectiveRole>)
    ensures !HonorsWorkspaces(a, roles) <==>
              exists name :: name in a.roles && name in roles && roles[name].enabled
                             && a.roles[name].workspace.ReadOnlyWorkspace? && !roles[name].profile.filesystem.ReadOnlyFiles?
  {
  }

  // ----- What an effective configuration is therefore known to satisfy -----

  /** Commands can be run, roots are absolute, and nothing was left to include. */
  lemma EffectiveCommandsCanBeRun(c: Defaults, g: GlobalConfig, p: Overrides, o: Overrides, name: Name)
    requires Sound(c) && Acceptable(c, g, p, o) && name in g.providers
    ensures var e := EffectiveOf(c, g, p, o);
            && g.includes.None? && ValidName(name) && name in e.providers
            && |e.providers[name]| > 0 && |e.providers[name][0]| > 0
            && (forall i, j | 0 <= i < |e.providers[name]| && 0 <= j < |e.providers[name][i]| ::
                  e.providers[name][i][j] as int != 0)
            && forall i | 0 <= i < |e.roots| :: |e.roots[i]| > 0 && e.roots[i][0] as int == 47
  {
    hide ArchetypesOk, OverridesOk, DefinitionOf, FinalRoles, CommandOk;
    assert ProviderOk(c, g, name);
    CommandsAreAcceptedExactly(CommandOf(c, g, name).value);
    RootsAreAcceptedExactly(g);
  }

  /** No limit ends at zero, and none ends above what the compiled and global values allow. */
  lemma EffectiveLimitsArePositive(c: Defaults, g: GlobalConfig, p: Overrides, o: Overrides, limit: Limit)
    requires Sound(c) && Acceptable(c, g, p, o) && c.limits.Get(limit) > 0
    ensures var trusted := match g.limits.Get(limit) case Some(value) => value case None => c.limits.Get(limit);
            0 < EffectiveOf(c, g, p, o).limits.Get(limit) <= trusted
  {
    hide ArchetypesOk, DefinitionOf, FinalRoles, ProvidersOf, ProvidersOk, RestrictionsOk, HonorsWorkspaces, AllowsUnrestricted;
    match limit
    case ConcurrentAgents =>
    case AgentsPerRun =>
    case SpawnsPerMinute =>
  }

  /** Every bound that was set is positive, except that idle shutdown may be off; and an interrupt fits into a shutdown. */
  lemma EffectiveBoundsAreUsable(c: Defaults, g: GlobalConfig, p: Overrides, o: Overrides, bound: Bound)
    requires Sound(c) && Acceptable(c, g, p, o)
    ensures var s := EffectiveOf(c, g, p, o).supervision;
            && s.interruptGrace < s.shutdownTimeout
            && (match g.supervision.Get(bound)
                case Some(value) =>
                  && s.Get(bound) == value && 0 <= value <= 9223372036854775
                  && (value == 0 ==> bound.IdleTimeout?)
                case None => s.Get(bound) == c.supervision.Get(bound))
  {
    hide ArchetypesOk, OverridesOk, DefinitionOf, FinalRoles, ProvidersOf, ProvidersOk, LimitsOk;
    assert BoundOk(bound, g.supervision.Get(bound));
  }

  /** No profile contradicts itself; a role's own profile is among them. */
  lemma EffectiveProfilesAreConsistent(c: Defaults, g: GlobalConfig, p: Overrides, o: Overrides, name: Name)
    requires Sound(c) && Acceptable(c, g, p, o) && ReferenceOf(c, g, p, o) in g.archetypes
    requires name in EffectiveOf(c, g, p, o).archetype.profiles
    ensures var profile := EffectiveOf(c, g, p, o).archetype.profiles[name];
            && !(profile.filesystem.Unrestricted? && profile.network.Deny?)
            && !(profile.approvals.Never? && profile.reviewer.AutoReview?)
            && ValidName(name) && name in g.profiles
  {
    hide OverridesOk, PolicyOk, FinalRoles, ProvidersOf, ArchetypeOk;
    var reference := ReferenceOf(c, g, p, o);
    assert ArchetypeOk(g.archetypes[reference], g.profiles.Keys, ProvidersOf(c, g).Keys);
    assert ProfileOk(name, g.profiles[name]);
    ProfilesAreAcceptedExactly(name, g.profiles[name]);
  }

  /** The lead of a global archetype is one of its roles, interactive, outside worktrees, and cannot be disabled. */
  lemma EffectiveLeadsCanLead(c: Defaults, g: GlobalConfig, p: Overrides, o: Overrides)
    requires Sound(c) && Acceptable(c, g, p, o) && ReferenceOf(c, g, p, o) in g.archetypes
    ensures var e := EffectiveOf(c, g, p, o);
            && e.archetype.lead in e.archetype.roles && e.archetype.lead in e.roles && e.roles[e.archetype.lead].enabled
            && e.archetype.roles[e.archetype.lead].mode.InteractiveMode?
            && !e.archetype.roles[e.archetype.lead].workspace.WorktreeWorkspace?
  {
    var reference := ReferenceOf(c, g, p, o);
    var input, profiles := g.archetypes[reference], ProfilesOf(g.profiles);
    DefinitionsAreComplete(c, g, reference);
    assert ArchetypeOk(input, g.profiles.Keys, ProvidersOf(c, g).Keys);
    assert RoleOk(input.lead.value, input.roles[input.lead.value], g.profiles.Keys, ProvidersOf(c, g).Keys);
    LeadsStayEnabled(DefinitionOf(c, g, reference), profiles, p, o);
    hide PolicyOk, ProvidersOf, RestrictedRoles, RestrictionsOk, LimitsOk, HonorsWorkspaces, AllowsUnrestricted;
  }

  lemma LeadsStayEnabled(a: Archetype, profiles: map<Name, Profile>, p: Overrides, o: Overrides)
    requires Complete(a) && a.lead in a.roles
    requires RestrictionsOk(a, profiles, p.roles) && RestrictionsOk(a, profiles, o.roles)
    ensures var roles := RestrictedRoles(RestrictedRoles(UnrestrictedRoles(a), profiles, p.roles), profiles, o.roles);
            a.lead in roles && roles[a.lead].enabled
  {
    assert a.lead in p.roles ==> RestrictionOk(a, profiles, a.lead, p.roles[a.lead]);
    assert a.lead in o.roles ==> RestrictionOk(a, profiles, a.lead, o.roles[a.lead]);
  }

  /** An enabled role on a read-only workspace has a read-only file system. */
  lemma EffectiveReadersCannotWrite(c: Defaults, g: GlobalConfig, p: Overrides, o: Overrides, name: Name)
    requires Sound(c) && Acceptable(c, g, p, o)
    requires name in EffectiveOf(c, g, p, o).roles && name in EffectiveOf(c, g, p, o).archetype.roles
    requires EffectiveOf(c, g, p, o).roles[name].enabled
    requires EffectiveOf(c, g, p, o).archetype.roles[name].workspace == ReadOnlyWorkspace
    ensures EffectiveOf(c, g, p, o).roles[name].profile.filesystem == ReadOnlyFiles
  {
    hide PolicyOk, ArchetypesOk, FinalRoles, DefinitionOf, LimitsOk, RestrictionsOk, AllowsUnrestricted;
  }

  /** Every role of a global archetype has a valid name, a bound provider and a known profile. */
  lemma EffectiveRolesAreBound(c: Defaults, g: GlobalConfig, p: Overrides, o: Overrides, name: Name)
    requires Sound(c) && Acceptable(c, g, p, o) && ReferenceOf(c, g, p, o) in g.archetypes
    requires name in EffectiveOf(c, g, p, o).archetype.roles
    ensures var e := EffectiveOf(c, g, p, o);
            && ValidName(name) && e.archetype.roles[name].provider in e.providers
            && e.archetype.roles[name].profile in e.archetype.profiles && e.archetype.roles[name].profile in g.profiles
  {
    hide PolicyOk, OverridesOk, FinalRoles, ProvidersOf;
    var reference := ReferenceOf(c, g, p, o);
    var input := g.archetypes[reference];
    DefinitionsAreComplete(c, g, reference);
    assert ArchetypeOk(input, g.profiles.Keys, ProvidersOf(c, g).Keys);
    assert RoleOk(name, input.roles[name], g.profiles.Keys, ProvidersOf(c, g).Keys);
  }
}
