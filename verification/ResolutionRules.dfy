/** Which inputs resolve, what they resolve to, and where each value comes from (src/config/resolver.rs). */
module ResolutionRules {
  import opened Bytes
  import opened Configuration
  import opened Policy
  import opened Provenance

  /** Roles refer to profiles that are there and do not contradict themselves. */
  predicate Complete(a: Archetype) {
    && (forall name | name in a.roles :: a.roles[name].profile in a.profiles)
    && (forall name | name in a.profiles :: ValidProfile(a.profiles[name]))
  }

  /** What resolution relies on in the compiled values. */
  predicate Sound(c: Defaults) {
    Complete(c.builtin) && c.archetype == c.builtin.reference
  }

  // ----- Trusted definitions -----

  const MAXIMUM_BOUND: int := 0x7FFF_FFFF_FFFF_FFFF / 1000

  predicate IsAbsolute(path: string) {
    path != "" && path[0] == '/'
  }

  predicate RootsOk(g: GlobalConfig) {
    g.roots.Some? ==> forall path | path in g.roots.value :: IsAbsolute(path)
  }

  function RootsOf(g: GlobalConfig): seq<string> {
    if g.roots.Some? then g.roots.value else []
  }

  predicate CommandOk(command: Command) {
    command != [] && command[0] != "" && forall argument | argument in command :: '\0' !in argument
  }

  /** A provider's own command, or the compiled one it leaves in place. */
  function CommandOf(c: Defaults, g: GlobalConfig, name: Name): Option<Command> {
    if name in g.providers && g.providers[name].Some? then g.providers[name]
    else if name in c.providers then Some(c.providers[name])
    else None
  }

  predicate ProviderOk(c: Defaults, g: GlobalConfig, name: Name) {
    ValidName(name) && CommandOf(c, g, name).Some? && CommandOk(CommandOf(c, g, name).value)
  }

  predicate ProvidersOk(c: Defaults, g: GlobalConfig) {
    forall name | name in g.providers :: ProviderOk(c, g, name)
  }

  function ProvidersOf(c: Defaults, g: GlobalConfig): map<Name, Command> {
    map name | name in c.providers.Keys + g.providers.Keys && CommandOf(c, g, name).Some? :: CommandOf(c, g, name).value
  }

  predicate LimitOk(value: Option<nat>, ceiling: Option<nat>) {
    value.Some? ==> value.value > 0 && (ceiling.Some? ==> value.value <= ceiling.value)
  }

  function Ceiling(ceiling: Option<Limits>, limit: Limit): Option<nat> {
    if ceiling.Some? then Some(ceiling.value.Get(limit)) else None
  }

  predicate LimitsOk(input: LimitOverrides, ceiling: Option<Limits>) {
    && LimitOk(input.concurrentAgents, Ceiling(ceiling, ConcurrentAgents))
    && LimitOk(input.agentsPerRun, Ceiling(ceiling, AgentsPerRun))
    && LimitOk(input.spawnsPerMinute, Ceiling(ceiling, SpawnsPerMinute))
  }

  function OrElse<T>(value: Option<T>, fallback: T): T {
    if value.Some? then value.value else fallback
  }

  function Overridden(base: Limits, input: LimitOverrides): Limits {
    Limits(OrElse(input.concurrentAgents, base.concurrentAgents),
           OrElse(input.agentsPerRun, base.agentsPerRun),
           OrElse(input.spawnsPerMinute, base.spawnsPerMinute))
  }

  predicate BoundOk(bound: Bound, value: Option<int>) {
    value.Some? ==> (if bound == IdleTimeout then 0 else 1) <= value.value <= MAXIMUM_BOUND
  }

  function SupervisionFor(c: Defaults, input: SupervisionOverrides): Supervision {
    Supervision(
      OrElse(input.restartWindow, c.supervision.restartWindow),
      OrElse(input.launchAttempts, c.supervision.launchAttempts),
      OrElse(input.restartBackoff, c.supervision.restartBackoff),
      OrElse(input.startupTimeout, c.supervision.startupTimeout),
      OrElse(input.jobTimeout, c.supervision.jobTimeout),
      OrElse(input.interruptGrace, c.supervision.interruptGrace),
      OrElse(input.shutdownTimeout, c.supervision.shutdownTimeout),
      OrElse(input.idleTimeout, c.supervision.idleTimeout))
  }

  predicate SupervisionOk(c: Defaults, input: SupervisionOverrides) {
    && (forall bound: Bound :: BoundOk(bound, input.Get(bound)))
    && SupervisionFor(c, input).interruptGrace < SupervisionFor(c, input).shutdownTimeout
  }

  predicate ProfileOk(name: Name, input: ProfileInput) {
    && ValidName(name)
    && !(input.filesystem == Some(Unrestricted) && input.network == Some(Deny))
    && !(input.reviewer == Some(AutoReview) && input.approvals == Some(Never))
    && input.filesystem.Some? && input.network.Some? && input.approvals.Some?
  }

  function ResolvedProfile(input: ProfileInput): (p: Profile)
    requires input.filesystem.Some? && input.network.Some? && input.approvals.Some?
  {
    Profile(input.filesystem.value, input.network.value, input.approvals.value, OrElse(input.reviewer, User))
  }

  predicate ProfilesOk(inputs: map<Name, ProfileInput>) {
    forall name | name in inputs :: ProfileOk(name, inputs[name])
  }

  function ProfilesOf(inputs: map<Name, ProfileInput>): map<Name, Profile>
    requires ProfilesOk(inputs)
  {
    map name | name in inputs :: ResolvedProfile(inputs[name])
  }

  /** No profile that resolution accepts contradicts itself. */
  lemma ResolvedProfilesAreValid(inputs: map<Name, ProfileInput>)
    requires ProfilesOk(inputs)
    ensures forall name | name in inputs :: ValidProfile(ProfilesOf(inputs)[name])
  {
    forall name | name in inputs
      ensures ValidProfile(ProfilesOf(inputs)[name])
    {
      assert ProfileOk(name, inputs[name]);
    }
  }

  // ----- Archetypes -----

  predicate RoleOk(name: Name, input: RoleInput, profiles: set<Name>, providers: set<Name>) {
    && ValidName(name)
    && input.provider.Some? && input.provider.value in providers
    && input.profile.Some? && input.profile.value in profiles
    && input.capabilities.Some? && ParsableGrants(input.capabilities.value)
    && input.mode.Some? && input.workspace.Some?
  }

  function ResolvedRole(input: RoleInput): RoleDefinition
    requires input.provider.Some? && input.profile.Some? && input.mode.Some? && input.workspace.Some?
    requires input.capabilities.Some? && ParsableGrants(input.capabilities.value)
  {
    RoleDefinition(input.provider.value, input.mode.value, input.maxInstances, input.workspace.value,
                   input.profile.value, input.instructions, ParsedGrants(input.capabilities.value))
  }

  predicate ArchetypeOk(input: ArchetypeInput, profiles: set<Name>, providers: set<Name>) {
    && input.lead.Some?
    && (forall name | name in input.roles :: RoleOk(name, input.roles[name], profiles, providers))
    && input.lead.value in input.roles
    && input.roles[input.lead.value].mode == Some(InteractiveMode)
    && input.roles[input.lead.value].workspace != Some(WorktreeWorkspace)
  }

  function UsedProfiles(input: ArchetypeInput): set<Name> {
    set name | name in input.roles && input.roles[name].profile.Some? :: input.roles[name].profile.value
  }

  function ResolvedArchetype(
      reference: string, input: ArchetypeInput, profiles: map<Name, Profile>, providers: set<Name>): Archetype
    requires ArchetypeOk(input, profiles.Keys, providers)
  {
    Archetype(reference, input.lead.value,
              map name | name in UsedProfiles(input) && name in profiles :: profiles[name],
              map name | name in input.roles && RoleOk(name, input.roles[name], profiles.Keys, providers) ::
                ResolvedRole(input.roles[name]))
  }

  /** Global definitions are versioned, and leave the builtin namespace alone. */
  predicate ReferencesOk(g: GlobalConfig) {
    forall reference | reference in g.archetypes :: ValidReference(reference, "global")
  }

  predicate ArchetypesOk(c: Defaults, g: GlobalConfig) {
    && ProfilesOk(g.profiles)
    && forall reference | reference in g.archetypes ::
         ArchetypeOk(g.archetypes[reference], g.profiles.Keys, ProvidersOf(c, g).Keys)
  }

  predicate IsDefined(c: Defaults, g: GlobalConfig, reference: string) {
    reference == c.builtin.reference || reference in g.archetypes
  }

  function DefinitionOf(c: Defaults, g: GlobalConfig, reference: string): Archetype
    requires ArchetypesOk(c, g) && IsDefined(c, g, reference)
  {
    if reference in g.archetypes
    then ResolvedArchetype(reference, g.archetypes[reference], ProfilesOf(g.profiles), ProvidersOf(c, g).Keys)
    else c.builtin
  }

  /** A resolved archetype has the roles of its input, and only trusted profiles. */
  lemma ResolvedArchetypesAreComplete(
      reference: string, input: ArchetypeInput, profiles: map<Name, Profile>, providers: set<Name>)
    requires ArchetypeOk(input, profiles.Keys, providers)
    requires forall name | name in profiles :: ValidProfile(profiles[name])
    ensures var a := ResolvedArchetype(reference, input, profiles, providers);
            a.roles.Keys == input.roles.Keys && a.profiles.Keys <= profiles.Keys && Complete(a)
  {
    forall name | name in input.roles
      ensures RoleOk(name, input.roles[name], profiles.Keys, providers)
      ensures input.roles[name].profile.value in UsedProfiles(input)
    {
    }
  }

  // ----- Selection -----

  predicate SelectorOk(c: Defaults, g: GlobalConfig, selection: Option<string>) {
    selection.Some? ==> IsDefined(c, g, selection.value)
  }

  function ReferenceOf(c: Defaults, g: GlobalConfig, p: Overrides, o: Overrides): string {
    OrElse(o.archetype, OrElse(p.archetype, OrElse(g.archetype, c.archetype)))
  }

  function SelectionLayer(g: GlobalConfig, p: Overrides, o: Overrides): Layer {
    if o.archetype.Some? then Operator
    else if p.archetype.Some? then Project
    else if g.archetype.Some? then Global
    else Compiled
  }

  /** What the trusted side alone selects. */
  function TrustedSelection(g: GlobalConfig, o: Overrides): Option<string> {
    if o.archetype.Some? then o.archetype else g.archetype
  }

  // ----- Roles -----

  function UnrestrictedRole(a: Archetype, role: RoleDefinition): EffectiveRole
    requires role.profile in a.profiles
  {
    EffectiveRole(true, role.maxInstances, a.profiles[role.profile])
  }

  function UnrestrictedRoles(a: Archetype): map<Name, EffectiveRole>
    requires Complete(a)
  {
    map name | name in a.roles :: UnrestrictedRole(a, a.roles[name])
  }

  predicate RestrictionOk(a: Archetype, profiles: map<Name, Profile>, name: Name, r: Restriction)
    requires Complete(a)
  {
    && name in a.roles
    && !(r.enabled == Some(false) && name == a.lead)
    && (r.maxInstances.Some? ==> BelowCapacity(r.maxInstances, a.roles[name].maxInstances))
    && (r.profile.Some? ==>
          r.profile.value in profiles && BelowProfile(profiles[r.profile.value], a.profiles[a.roles[name].profile]))
  }

  predicate RestrictionsOk(a: Archetype, profiles: map<Name, Profile>, restrictions: map<Name, Restriction>)
    requires Complete(a)
  {
    forall name | name in restrictions :: RestrictionOk(a, profiles, name, restrictions[name])
  }

  /** Supplied fields replace a role's current policy; omitted ones keep it. */
  function Restricted(role: EffectiveRole, profiles: map<Name, Profile>, r: Restriction): EffectiveRole {
    EffectiveRole(
      OrElse(r.enabled, role.enabled),
      if r.maxInstances.Some? then r.maxInstances else role.maxInstances,
      if r.profile.Some? && r.profile.value in profiles then profiles[r.profile.value] else role.profile)
  }

  function RestrictedRoles(
      roles: map<Name, EffectiveRole>, profiles: map<Name, Profile>, restrictions: map<Name, Restriction>)
    : map<Name, EffectiveRole>
  {
    map name | name in roles ::
      if name in restrictions then Restricted(roles[name], profiles, restrictions[name]) else roles[name]
  }

  predicate HonorsWorkspaces(a: Archetype, roles: map<Name, EffectiveRole>) {
    forall name | name in a.roles && name in roles ::
      roles[name].enabled && a.roles[name].workspace == ReadOnlyWorkspace ==>
        roles[name].profile.filesystem == ReadOnlyFiles
  }

  predicate IsUnrestricted(role: EffectiveRole) {
    role.enabled && role.profile.filesystem == Unrestricted
  }

  predicate AllowsUnrestricted(roles: map<Name, EffectiveRole>, trusted: Option<string>, reference: string) {
    (exists name :: name in roles && IsUnrestricted(roles[name])) ==> trusted == Some(reference)
  }

  // ----- The whole resolution -----

  /** The trusted policy apart from archetypes. */
  predicate PolicyOk(c: Defaults, g: GlobalConfig) {
    && g.includes.None? && RootsOk(g) && ProvidersOk(c, g) && LimitsOk(g.limits, None)
    && SupervisionOk(c, g.supervision)
  }

  function TrustedLimits(c: Defaults, g: GlobalConfig): Limits {
    Overridden(c.limits, g.limits)
  }

  /** Every archetype that resolution can select is complete. */
  lemma DefinitionsAreComplete(c: Defaults, g: GlobalConfig, reference: string)
    requires Sound(c) && ArchetypesOk(c, g) && IsDefined(c, g, reference)
    ensures Complete(DefinitionOf(c, g, reference))
  {
    if reference in g.archetypes {
      assert ArchetypeOk(g.archetypes[reference], g.profiles.Keys, ProvidersOf(c, g).Keys);
      ResolvedProfilesAreValid(g.profiles);
      ResolvedArchetypesAreComplete(
        reference, g.archetypes[reference], ProfilesOf(g.profiles), ProvidersOf(c, g).Keys);
    }
  }

  function FinalRoles(c: Defaults, g: GlobalConfig, p: Overrides, o: Overrides): map<Name, EffectiveRole>
    requires Sound(c) && ArchetypesOk(c, g) && IsDefined(c, g, ReferenceOf(c, g, p, o))
  {
    DefinitionsAreComplete(c, g, ReferenceOf(c, g, p, o));
    RestrictedRoles(
      RestrictedRoles(UnrestrictedRoles(DefinitionOf(c, g, ReferenceOf(c, g, p, o))), ProfilesOf(g.profiles), p.roles),
      ProfilesOf(g.profiles), o.roles)
  }

  /** The overrides that the selected archetype admits. */
  predicate OverridesOk(c: Defaults, g: GlobalConfig, p: Overrides, o: Overrides)
    requires Sound(c) && ArchetypesOk(c, g) && IsDefined(c, g, ReferenceOf(c, g, p, o))
  {
    DefinitionsAreComplete(c, g, ReferenceOf(c, g, p, o));
    var a, profiles, trusted := DefinitionOf(c, g, ReferenceOf(c, g, p, o)), ProfilesOf(g.profiles), TrustedLimits(c, g);
    && LimitsOk(p.limits, Some(trusted)) && RestrictionsOk(a, profiles, p.roles)
    && LimitsOk(o.limits, Some(trusted)) && RestrictionsOk(a, profiles, o.roles)
    && HonorsWorkspaces(a, FinalRoles(c, g, p, o))
    && AllowsUnrestricted(FinalRoles(c, g, p, o), TrustedSelection(g, o), ReferenceOf(c, g, p, o))
  }

  /** The inputs that resolve. */
  predicate Acceptable(c: Defaults, g: GlobalConfig, p: Overrides, o: Overrides)
    requires Sound(c)
  {
    && PolicyOk(c, g) && ArchetypesOk(c, g) && ReferencesOk(g)
    && SelectorOk(c, g, g.archetype) && SelectorOk(c, g, p.archetype) && SelectorOk(c, g, o.archetype)
    && OverridesOk(c, g, p, o)
  }

  function EffectiveOf(c: Defaults, g: GlobalConfig, p: Overrides, o: Overrides): Effective
    requires Sound(c) && ArchetypesOk(c, g) && IsDefined(c, g, ReferenceOf(c, g, p, o))
  {
    Effective(DefinitionOf(c, g, ReferenceOf(c, g, p, o)), ProvidersOf(c, g), RootsOf(g),
              Overridden(Overridden(TrustedLimits(c, g), p.limits), o.limits), SupervisionFor(c, g.supervision),
              FinalRoles(c, g, p, o))
  }

  // ----- Origins -----

  function LimitSource(g: GlobalConfig, p: Overrides, o: Overrides, limit: Limit): Layer {
    if o.limits.Get(limit).Some? then Operator
    else if p.limits.Get(limit).Some? then Project
    else if g.limits.Get(limit).Some? then Global
    else Compiled
  }

  /** The restriction assigns this field of its role. */
  predicate Supplies(r: Restriction, leaf: Path) {
    match leaf
    case RoleEnabled(_) => r.enabled.Some?
    case RoleCapacity(_) => r.maxInstances.Some?
    case RoleProfile(_, _) => r.profile.Some?
    case _ => false
  }

  predicate Restricts(restrictions: map<Name, Restriction>, leaf: Path) {
    && (leaf.RoleEnabled? || leaf.RoleCapacity? || leaf.RoleProfile?)
    && leaf.role in restrictions && Supplies(restrictions[leaf.role], leaf)
  }

  function RestrictionOrigin(
      layer: Layer, profiles: map<Name, ProfileInput>, restrictions: map<Name, Restriction>, leaf: Path): Origin
  {
    match leaf
    case RoleProfile(role, part) =>
      if role in restrictions && restrictions[role].profile.Some?
      then Origin(TrustedOrigin(profiles, restrictions[role].profile.value, part).source,
                  Some(Source(layer, ProfileSelector(role))))
      else Direct(layer, leaf)
    case _ => Direct(layer, leaf)
  }

  function DefinerOf(c: Defaults, g: GlobalConfig, p: Overrides, o: Overrides): Definer
    requires ArchetypesOk(c, g) && IsDefined(c, g, ReferenceOf(c, g, p, o))
  {
    var reference := ReferenceOf(c, g, p, o);
    Definer(DefinitionOf(c, g, reference),
            if reference in g.archetypes then Some(g.archetypes[reference]) else None,
            g.profiles, Source(SelectionLayer(g, p, o), Selector))
  }

  /** Where an effective value comes from: the last layer allowed to assign it that does. */
  function OriginUnder(g: GlobalConfig, p: Overrides, o: Overrides, d: Definer, leaf: Path): Origin {
    match leaf
    case AllowedRoots => Direct(if g.roots.Some? then Global else Compiled, leaf)
    case ProviderCommand(name) =>
      Direct(if name in g.providers && g.providers[name].Some? then Global else Compiled, leaf)
    case LimitOf(limit) => Direct(LimitSource(g, p, o, limit), leaf)
    case SupervisionOf(bound) => Direct(if g.supervision.Get(bound).Some? then Global else Compiled, leaf)
    case _ =>
      if Restricts(o.roles, leaf) then RestrictionOrigin(Operator, g.profiles, o.roles, leaf)
      else if Restricts(p.roles, leaf) then RestrictionOrigin(Project, g.profiles, p.roles, leaf)
      else d.OriginOf(leaf)
  }

  function OriginOf(c: Defaults, g: GlobalConfig, p: Overrides, o: Overrides, leaf: Path): Origin
    requires ArchetypesOk(c, g) && IsDefined(c, g, ReferenceOf(c, g, p, o))
  {
    OriginUnder(g, p, o, DefinerOf(c, g, p, o), leaf)
  }

  /** The leaves of an effective configuration. */
  function Leaves(e: Effective): set<Path> {
    {AllowedRoots} + ProviderLeaves(e.providers.Keys) + LIMIT_LEAVES + SUPERVISION_LEAVES
    + ArchetypeLeaves(e.archetype) + RoleLeaves(e.roles.Keys)
  }
}
