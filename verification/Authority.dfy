/** What every successful resolution guarantees: truthful provenance and bounded authority (src/config/resolver.rs). */
module Authority {
  import opened Bytes
  import opened Configuration
  import opened Policy
  import opened Provenance
  import opened ResolutionRules
  import opened Resolver
  import opened Resolution

  // ----- Values at fields -----

  datatype Value =
    | Text(text: string)
    | Texts(texts: seq<string>)
    | Number(number: int)
    | Flag(flag: bool)
    | Capacity(capacity: Option<nat>)
    | OptionalText(optional: Option<string>)
    | Grants(grants: seq<Grant>)
    | OfFilesystem(filesystem: Filesystem)
    | OfNetwork(network: Network)
    | OfApprovals(approvals: Approvals)
    | OfReviewer(reviewer: Reviewer)
    | OfMode(mode: Mode)
    | OfWorkspace(workspace: WorkspacePolicy)

  function PartOf(profile: Profile, part: Part): Value {
    match part
    case FilesystemPart => OfFilesystem(profile.filesystem)
    case NetworkPart => OfNetwork(profile.network)
    case ApprovalsPart => OfApprovals(profile.approvals)
    case ReviewerPart => OfReviewer(profile.reviewer)
  }

  function AttributeOf(role: RoleDefinition, attribute: Attribute): Value {
    match attribute
    case ProviderOf => Text(role.provider)
    case ModeOf => OfMode(role.mode)
    case MaxInstancesOf => Capacity(role.maxInstances)
    case WorkspaceOf => OfWorkspace(role.workspace)
    case ProfileOf => Text(role.profile)
    case InstructionsOf => OptionalText(role.instructions)
    case CapabilitiesOf => Grants(role.capabilities)
  }

  /** The value of an effective configuration at a field, if it has that field. */
  function ValueAt(e: Effective, field: Path): Option<Value> {
    match field
    case AllowedRoots => Some(Texts(e.roots))
    case ProviderCommand(name) => if name in e.providers then Some(Texts(e.providers[name])) else None
    case LimitOf(limit) => Some(Number(e.limits.Get(limit)))
    case SupervisionOf(bound) => Some(Number(e.supervision.Get(bound)))
    case ArchetypeReference => Some(Text(e.archetype.reference))
    case ArchetypeLead => Some(Text(e.archetype.lead))
    case ArchetypeProfile(name, part) =>
      if name in e.archetype.profiles then Some(PartOf(e.archetype.profiles[name], part)) else None
    case ArchetypeRole(name, attribute) =>
      if name in e.archetype.roles then Some(AttributeOf(e.archetype.roles[name], attribute)) else None
    case RoleEnabled(name) => if name in e.roles then Some(Flag(e.roles[name].enabled)) else None
    case RoleCapacity(name) => if name in e.roles then Some(Capacity(e.roles[name].maxInstances)) else None
    case RoleProfile(name, part) => if name in e.roles then Some(PartOf(e.roles[name].profile, part)) else None
    case _ => None
  }

  // ----- Reading a source -----

  function Lift<T>(value: Option<T>, wrap: T -> Value): Option<Value> {
    if value.Some? then Some(wrap(value.value)) else None
  }

  function InputPart(input: ProfileInput, part: Part): Option<Value> {
    match part
    case FilesystemPart => Lift(input.filesystem, v => OfFilesystem(v))
    case NetworkPart => Lift(input.network, v => OfNetwork(v))
    case ApprovalsPart => Lift(input.approvals, v => OfApprovals(v))
    case ReviewerPart => Lift(input.reviewer, v => OfReviewer(v))
  }

  /** An omitted optional field reads as nothing here; the compiled layer supplies its default. */
  function InputAttribute(input: RoleInput, attribute: Attribute): Option<Value> {
    match attribute
    case ProviderOf => Lift(input.provider, v => Text(v))
    case ModeOf => Lift(input.mode, v => OfMode(v))
    case MaxInstancesOf => if input.maxInstances.Some? then Some(Capacity(input.maxInstances)) else None
    case WorkspaceOf => Lift(input.workspace, v => OfWorkspace(v))
    case ProfileOf => Lift(input.profile, v => Text(v))
    case InstructionsOf => if input.instructions.Some? then Some(OptionalText(input.instructions)) else None
    case CapabilitiesOf =>
      if input.capabilities.Some? && ParsableGrants(input.capabilities.value)
      then Some(Grants(ParsedGrants(input.capabilities.value))) else None
  }

  function CompiledAt(c: Defaults, field: Path): Option<Value> {
    match field
    case AllowedRoots => Some(Texts([]))
    case ProviderCommand(name) => if name in c.providers then Some(Texts(c.providers[name])) else None
    case LimitOf(limit) => Some(Number(c.limits.Get(limit)))
    case SupervisionOf(bound) => Some(Number(c.supervision.Get(bound)))
    case RoleEnabled(_) => Some(Flag(true))
    case TrustedProfile(_, part) => if part == ReviewerPart then Some(OfReviewer(User)) else None
    case DefinitionRole(_, _, attribute) =>
      if attribute == MaxInstancesOf then Some(Capacity(None))
      else if attribute == InstructionsOf then Some(OptionalText(None)) else None
    case Selector => Some(Text(c.archetype))
    case _ => None
  }

  function BuiltinAt(a: Archetype, field: Path): Option<Value> {
    match field
    case Definition(reference) => if reference == a.reference then Some(Text(reference)) else None
    case DefinitionLead(reference) => if reference == a.reference then Some(Text(a.lead)) else None
    case DefinitionProfile(reference, name, part) =>
      if reference == a.reference && name in a.profiles then Some(PartOf(a.profiles[name], part)) else None
    case DefinitionRole(reference, name, attribute) =>
      if reference == a.reference && name in a.roles then Some(AttributeOf(a.roles[name], attribute)) else None
    case _ => None
  }

  function GlobalAt(g: GlobalConfig, field: Path): Option<Value> {
    match field
    case AllowedRoots => Lift(g.roots, v => Texts(v))
    case ProviderCommand(name) => if name in g.providers then Lift(g.providers[name], v => Texts(v)) else None
    case LimitOf(limit) => Lift(g.limits.Get(limit), v => Number(v))
    case SupervisionOf(bound) => Lift(g.supervision.Get(bound), v => Number(v))
    case TrustedProfile(name, part) => if name in g.profiles then InputPart(g.profiles[name], part) else None
    case Definition(reference) => if reference in g.archetypes then Some(Text(reference)) else None
    case DefinitionLead(reference) =>
      if reference in g.archetypes then Lift(g.archetypes[reference].lead, v => Text(v)) else None
    case DefinitionRole(reference, name, attribute) =>
      if reference in g.archetypes && name in g.archetypes[reference].roles
      then InputAttribute(g.archetypes[reference].roles[name], attribute) else None
    case Selector => Lift(g.archetype, v => Text(v))
    case _ => None
  }

  function OverrideAt(overrides: Overrides, field: Path): Option<Value> {
    match field
    case LimitOf(limit) => Lift(overrides.limits.Get(limit), v => Number(v))
    case RoleEnabled(name) => if name in overrides.roles then Lift(overrides.roles[name].enabled, v => Flag(v)) else None
    case RoleCapacity(name) =>
      if name in overrides.roles && overrides.roles[name].maxInstances.Some?
      then Some(Capacity(overrides.roles[name].maxInstances)) else None
    case ProfileSelector(name) =>
      if name in overrides.roles then Lift(overrides.roles[name].profile, v => Text(v)) else None
    case Selector => Lift(overrides.archetype, v => Text(v))
    case _ => None
  }

  /** What the named layer says at the named field. */
  function Read(c: Defaults, g: GlobalConfig, p: Overrides, o: Overrides, source: Source): Option<Value> {
    match source.layer
    case Compiled => CompiledAt(c, source.field)
    case Builtin => BuiltinAt(c.builtin, source.field)
    case Global => GlobalAt(g, source.field)
    case Project => OverrideAt(p, source.field)
    case Operator => OverrideAt(o, source.field)
  }

  // ----- Provenance is complete and truthful -----

  lemma PolicyLeaves(e: Effective, field: Path)
    requires field.AllowedRoots? || field.ProviderCommand? || field.LimitOf? || field.SupervisionOf?
    ensures field in Leaves(e) <==> (field.ProviderCommand? ==> field.provider in e.providers)
  {
    hide ArchetypeLeaves, RoleLeaves;
    LimitsAndBoundsAreListed();
    if field.ProviderCommand? {
      assert field in ProviderLeaves(e.providers.Keys) <==> field.provider in e.providers;
    }
  }

  lemma OtherLeaves(e: Effective, field: Path)
    requires !field.AllowedRoots? && !field.ProviderCommand? && !field.LimitOf? && !field.SupervisionOf?
    ensures field in Leaves(e) <==> field in ArchetypeLeaves(e.archetype) || field in RoleLeaves(e.roles.Keys)
  {
    assert field !in LIMIT_LEAVES && field !in SUPERVISION_LEAVES && field !in ProviderLeaves(e.providers.Keys);
  }

  /** The recorded fields are exactly the fields that have a value. */
  lemma LeavesAreTheFieldsWithValues(e: Effective, field: Path)
    ensures field in Leaves(e) <==> ValueAt(e, field).Some?
  {
    hide Leaves, ArchetypeLeaves, RoleLeaves;
    if field.AllowedRoots? || field.ProviderCommand? || field.LimitOf? || field.SupervisionOf? {
      PolicyLeaves(e, field);
    } else {
      OtherLeaves(e, field);
    }
  }

  lemma LimitsAreTruthful(c: Defaults, g: GlobalConfig, p: Overrides, o: Overrides, d: Definer, limit: Limit)
    ensures Read(c, g, p, o, OriginUnder(g, p, o, d, LimitOf(limit)).source) ==
              Some(Number(Overridden(Overridden(TrustedLimits(c, g), p.limits), o.limits).Get(limit)))
  {
  }

  lemma BoundsAreTruthful(c: Defaults, g: GlobalConfig, p: Overrides, o: Overrides, d: Definer, bound: Bound)
    ensures Read(c, g, p, o, OriginUnder(g, p, o, d, SupervisionOf(bound)).source) ==
              Some(Number(SupervisionFor(c, g.supervision).Get(bound)))
  {
  }

  lemma CommandsAreTruthful(c: Defaults, g: GlobalConfig, p: Overrides, o: Overrides, d: Definer, name: Name)
    requires name in ProvidersOf(c, g)
    ensures Read(c, g, p, o, OriginUnder(g, p, o, d, ProviderCommand(name)).source) ==
              Some(Texts(ProvidersOf(c, g)[name]))
  {
  }

  lemma RootsAreTruthful(c: Defaults, g: GlobalConfig, p: Overrides, o: Overrides, d: Definer)
    ensures Read(c, g, p, o, OriginUnder(g, p, o, d, AllowedRoots).source) == Some(Texts(RootsOf(g)))
  {
  }

  /** A part of a trusted profile reads as resolution resolved it. */
  lemma TrustedPartsAreTruthful(c: Defaults, g: GlobalConfig, p: Overrides, o: Overrides, name: Name, part: Part)
    requires ProfilesOk(g.profiles) && name in g.profiles
    ensures Read(c, g, p, o, TrustedOrigin(g.profiles, name, part).source) == Some(PartOf(ProfilesOf(g.profiles)[name], part))
  {
    assert ProfileOk(name, g.profiles[name]);
  }

  /** Every origin of the selected archetype reads as the archetype's value. */
  lemma ProfilesOfTheArchetypeAreTruthful(
      c: Defaults, g: GlobalConfig, p: Overrides, o: Overrides, name: Name, part: Part)
    requires Sound(c) && ArchetypesOk(c, g) && IsDefined(c, g, ReferenceOf(c, g, p, o))
    requires name in DefinitionOf(c, g, ReferenceOf(c, g, p, o)).profiles
    ensures Read(c, g, p, o, DefinerOf(c, g, p, o).PartOrigin(name, part).source) ==
              Some(PartOf(DefinitionOf(c, g, ReferenceOf(c, g, p, o)).profiles[name], part))
  {
    var reference := ReferenceOf(c, g, p, o);
    if reference in g.archetypes {
      TrustedPartsAreTruthful(c, g, p, o, name, part);
    }
  }

  /** A global definition carries its reference, its lead and its resolved roles over unchanged. */
  lemma GlobalDefinition(c: Defaults, g: GlobalConfig, reference: string, name: Name)
    requires ArchetypesOk(c, g) && reference in g.archetypes
    ensures var a, input := DefinitionOf(c, g, reference), g.archetypes[reference];
            && a.reference == reference && input.lead == Some(a.lead)
            && (name in a.roles <==> name in input.roles)
            && (name in a.roles ==>
                  RoleOk(name, input.roles[name], g.profiles.Keys, ProvidersOf(c, g).Keys)
                  && a.roles[name] == ResolvedRole(input.roles[name]))
  {
    assert ArchetypeOk(g.archetypes[reference], g.profiles.Keys, ProvidersOf(c, g).Keys);
  }

  /** Every attribute of a resolved role is either in its input or a compiled default. */
  lemma ResolvedRolesAreTruthful(
      c: Defaults, reference: string, name: Name, input: RoleInput, profiles: set<Name>, providers: set<Name>,
      attribute: Attribute)
    requires RoleOk(name, input, profiles, providers)
    ensures (if Omits(input, attribute) then CompiledAt(c, DefinitionRole(reference, name, attribute))
             else InputAttribute(input, attribute)) == Some(AttributeOf(ResolvedRole(input), attribute))
  {
  }

  lemma RolesOfTheArchetypeAreTruthful(
      c: Defaults, g: GlobalConfig, p: Overrides, o: Overrides, name: Name, attribute: Attribute)
    requires Sound(c) && ArchetypesOk(c, g) && IsDefined(c, g, ReferenceOf(c, g, p, o))
    requires name in DefinitionOf(c, g, ReferenceOf(c, g, p, o)).roles
    ensures Read(c, g, p, o, DefinerOf(c, g, p, o).AttributeOrigin(name, attribute).source) ==
              Some(AttributeOf(DefinitionOf(c, g, ReferenceOf(c, g, p, o)).roles[name], attribute))
  {
    hide ArchetypesOk, DefinitionOf, ReferenceOf, IsDefined, CompiledAt, GlobalAt, BuiltinAt;
    var reference := ReferenceOf(c, g, p, o);
    AttributesAreTruthful(c, g, reference, DefinerOf(c, g, p, o), name, attribute);
  }

  function TrustedAt(c: Defaults, g: GlobalConfig, source: Source): Option<Value> {
    match source.layer
    case Compiled => CompiledAt(c, source.field)
    case Builtin => BuiltinAt(c.builtin, source.field)
    case Global => GlobalAt(g, source.field)
    case _ => None
  }

  lemma AttributesAreTruthful(
      c: Defaults, g: GlobalConfig, reference: string, d: Definer, name: Name, attribute: Attribute)
    requires ArchetypesOk(c, g) && IsDefined(c, g, reference)
    requires d.archetype == DefinitionOf(c, g, reference) && name in d.archetype.roles
    requires d.input == if reference in g.archetypes then Some(g.archetypes[reference]) else None
    ensures TrustedAt(c, g, d.AttributeOrigin(name, attribute).source) ==
              Some(AttributeOf(d.archetype.roles[name], attribute))
  {
    if reference in g.archetypes {
      GlobalDefinition(c, g, reference, name);
      GlobalAttributesAreTruthful(c, g, reference, d, name, g.archetypes[reference].roles[name],
                                  g.profiles.Keys, ProvidersOf(c, g).Keys, attribute);
    }
  }

  lemma GlobalAttributesAreTruthful(
      c: Defaults, g: GlobalConfig, reference: string, d: Definer, name: Name, input: RoleInput,
      profiles: set<Name>, providers: set<Name>, attribute: Attribute)
    requires reference in g.archetypes && name in g.archetypes[reference].roles
    requires input == g.archetypes[reference].roles[name] && RoleOk(name, input, profiles, providers)
    requires d.input == Some(g.archetypes[reference]) && d.archetype.reference == reference
    requires name in d.archetype.roles && d.archetype.roles[name] == ResolvedRole(input)
    ensures TrustedAt(c, g, d.AttributeOrigin(name, attribute).source) ==
              Some(AttributeOf(d.archetype.roles[name], attribute))
  {
    ResolvedRolesAreTruthful(c, reference, name, input, profiles, providers, attribute);
  }

  lemma ReferencesAreTruthful(c: Defaults, g: GlobalConfig, p: Overrides, o: Overrides)
    requires Sound(c) && ArchetypesOk(c, g) && IsDefined(c, g, ReferenceOf(c, g, p, o))
    ensures DefinitionOf(c, g, ReferenceOf(c, g, p, o)).reference == ReferenceOf(c, g, p, o)
    ensures Read(c, g, p, o, DefinerOf(c, g, p, o).OriginOf(ArchetypeReference).source) ==
              Some(Text(ReferenceOf(c, g, p, o)))
  {
    hide ArchetypesOk, ReferenceOf;
    if ReferenceOf(c, g, p, o) in g.archetypes {
      GlobalDefinition(c, g, ReferenceOf(c, g, p, o), "");
      hide DefinitionOf;
    }
  }

  lemma LeadsAreTruthful(c: Defaults, g: GlobalConfig, p: Overrides, o: Overrides)
    requires Sound(c) && ArchetypesOk(c, g) && IsDefined(c, g, ReferenceOf(c, g, p, o))
    ensures Read(c, g, p, o, DefinerOf(c, g, p, o).OriginOf(ArchetypeLead).source) ==
              Some(Text(DefinitionOf(c, g, ReferenceOf(c, g, p, o)).lead))
  {
    LeadsAreTruthfulUnder(c, g, ReferenceOf(c, g, p, o), DefinerOf(c, g, p, o));
  }

  lemma LeadsAreTruthfulUnder(c: Defaults, g: GlobalConfig, reference: string, d: Definer)
    requires ArchetypesOk(c, g) && IsDefined(c, g, reference) && d.archetype == DefinitionOf(c, g, reference)
    requires d.input == if reference in g.archetypes then Some(g.archetypes[reference]) else None
    ensures TrustedAt(c, g, d.OriginOf(ArchetypeLead).source) == Some(Text(d.archetype.lead))
  {
    hide ArchetypesOk;
    if reference in g.archetypes {
      GlobalDefinition(c, g, reference, "");
    }
  }

  // ----- Roles -----

  /** The role's policy and origins after one more layer of restrictions. */
  lemma RestrictedRoleIsTruthful(
      c: Defaults, g: GlobalConfig, p: Overrides, o: Overrides, overrides: Overrides, layer: Layer,
      role: EffectiveRole, leaf: Path)
    requires ProfilesOk(g.profiles) && ((layer == Project && overrides == p) || (layer == Operator && overrides == o))
    requires Restricts(overrides.roles, leaf)
    requires overrides.roles[leaf.role].profile.Some? ==> overrides.roles[leaf.role].profile.value in g.profiles
    ensures var restricted := Restricted(role, ProfilesOf(g.profiles), overrides.roles[leaf.role]);
            var origin := RestrictionOrigin(layer, g.profiles, overrides.roles, leaf);
            && Read(c, g, p, o, origin.source) == Some(RoleValue(restricted, leaf))
            && (leaf.RoleProfile? ==>
                  && origin.selectedBy.Some?
                  && origin.source.field == TrustedProfile(overrides.roles[leaf.role].profile.value, leaf.part)
                  && Read(c, g, p, o, origin.selectedBy.value) == Some(Text(overrides.roles[leaf.role].profile.value)))
  {
    if leaf.RoleProfile? {
      TrustedPartsAreTruthful(c, g, p, o, overrides.roles[leaf.role].profile.value, leaf.part);
    }
  }

  predicate IsRoleLeaf(leaf: Path) {
    leaf.RoleEnabled? || leaf.RoleCapacity? || leaf.RoleProfile?
  }

  function RoleValue(role: EffectiveRole, leaf: Path): Value
    requires IsRoleLeaf(leaf)
  {
    match leaf
    case RoleEnabled(_) => Flag(role.enabled)
    case RoleCapacity(_) => Capacity(role.maxInstances)
    case RoleProfile(_, part) => PartOf(role.profile, part)
  }

  lemma UnrestrictedRoleIsTruthful(c: Defaults, g: GlobalConfig, p: Overrides, o: Overrides, leaf: Path)
    requires Sound(c) && ArchetypesOk(c, g) && IsDefined(c, g, ReferenceOf(c, g, p, o))
    requires IsRoleLeaf(leaf) && leaf.role in DefinitionOf(c, g, ReferenceOf(c, g, p, o)).roles
    requires Complete(DefinitionOf(c, g, ReferenceOf(c, g, p, o)))
    ensures var a := DefinitionOf(c, g, ReferenceOf(c, g, p, o));
            Read(c, g, p, o, DefinerOf(c, g, p, o).OriginOf(leaf).source) ==
              Some(RoleValue(UnrestrictedRole(a, a.roles[leaf.role]), leaf))
  {
    var a := DefinitionOf(c, g, ReferenceOf(c, g, p, o));
    match leaf
    case RoleEnabled(_) =>
    case RoleCapacity(name) => RolesOfTheArchetypeAreTruthful(c, g, p, o, name, MaxInstancesOf);
    case RoleProfile(name, part) => ProfilesOfTheArchetypeAreTruthful(c, g, p, o, a.roles[name].profile, part);
  }

  lemma RolesAreTruthful(c: Defaults, g: GlobalConfig, p: Overrides, o: Overrides, leaf: Path)
    requires Sound(c) && Acceptable(c, g, p, o) && IsRoleLeaf(leaf) && leaf.role in FinalRoles(c, g, p, o)
    ensures Read(c, g, p, o, OriginOf(c, g, p, o, leaf).source) == Some(RoleValue(FinalRoles(c, g, p, o)[leaf.role], leaf))
  {
    DefinitionsAreComplete(c, g, ReferenceOf(c, g, p, o));
    UnrestrictedRoleIsTruthful(c, g, p, o, leaf);
    RolesAreTruthfulUnder(c, g, p, o, DefinitionOf(c, g, ReferenceOf(c, g, p, o)), DefinerOf(c, g, p, o), leaf);
  }

  lemma RolesAreTruthfulUnder(
      c: Defaults, g: GlobalConfig, p: Overrides, o: Overrides, a: Archetype, d: Definer, leaf: Path)
    requires ProfilesOk(g.profiles) && Complete(a) && IsRoleLeaf(leaf) && leaf.role in a.roles
    requires Read(c, g, p, o, d.OriginOf(leaf).source) == Some(RoleValue(UnrestrictedRole(a, a.roles[leaf.role]), leaf))
    requires RestrictionsOk(a, ProfilesOf(g.profiles), p.roles) && RestrictionsOk(a, ProfilesOf(g.profiles), o.roles)
    ensures var roles := RestrictedRoles(RestrictedRoles(UnrestrictedRoles(a), ProfilesOf(g.profiles), p.roles),
                                         ProfilesOf(g.profiles), o.roles);
            leaf.role in roles
            && Read(c, g, p, o, OriginUnder(g, p, o, d, leaf).source) == Some(RoleValue(roles[leaf.role], leaf))
  {
    var profiles, name := ProfilesOf(g.profiles), leaf.role;
    var unrestricted := UnrestrictedRole(a, a.roles[name]);
    var byProject := if name in p.roles then Restricted(unrestricted, profiles, p.roles[name]) else unrestricted;
    assert name in p.roles ==> RestrictionOk(a, profiles, name, p.roles[name]);
    assert name in o.roles ==> RestrictionOk(a, profiles, name, o.roles[name]);
    hide Read, Restricted, RoleValue;
    LayeredRoleIsTruthful(c, g, p, o, p, Project, unrestricted, d.OriginOf(leaf), leaf);
    LayeredRoleIsTruthful(
      c, g, p, o, o, Operator, byProject,
      if Restricts(p.roles, leaf) then RestrictionOrigin(Project, g.profiles, p.roles, leaf) else d.OriginOf(leaf), leaf);
  }

  /** One layer of restrictions keeps a role's origin truthful. */
  lemma LayeredRoleIsTruthful(
      c: Defaults, g: GlobalConfig, p: Overrides, o: Overrides, overrides: Overrides, layer: Layer,
      role: EffectiveRole, before: Origin, leaf: Path)
    requires ProfilesOk(g.profiles) && ((layer == Project && overrides == p) || (layer == Operator && overrides == o))
    requires IsRoleLeaf(leaf) && Read(c, g, p, o, before.source) == Some(RoleValue(role, leaf))
    requires leaf.role in overrides.roles && overrides.roles[leaf.role].profile.Some? ==>
               overrides.roles[leaf.role].profile.value in g.profiles
    ensures var after := if leaf.role in overrides.roles
                         then Restricted(role, ProfilesOf(g.profiles), overrides.roles[leaf.role]) else role;
            var origin := if Restricts(overrides.roles, leaf)
                          then RestrictionOrigin(layer, g.profiles, overrides.roles, leaf) else before;
            Read(c, g, p, o, origin.source) == Some(RoleValue(after, leaf))
  {
    hide Read, Restricted, RoleValue, ProfilesOf, ProfilesOk, RestrictionOrigin;
    if Restricts(overrides.roles, leaf) {
      RestrictedRoleIsTruthful(c, g, p, o, overrides, layer, role, leaf);
    } else if leaf.role in overrides.roles {
      OmittedFieldsStay(role, ProfilesOf(g.profiles), overrides.roles[leaf.role], leaf);
    }
  }

  /** A restriction leaves the fields it omits as they were. */
  lemma OmittedFieldsStay(role: EffectiveRole, profiles: map<Name, Profile>, r: Restriction, leaf: Path)
    requires IsRoleLeaf(leaf) && !Supplies(r, leaf)
    ensures RoleValue(Restricted(role, profiles, r), leaf) == RoleValue(role, leaf)
  {
  }

  lemma PolicyIsTruthful(
      c: Defaults, g: GlobalConfig, p: Overrides, o: Overrides, e: Effective, d: Definer, leaf: Path)
    requires e.roots == RootsOf(g) && e.providers == ProvidersOf(c, g) && e.supervision == SupervisionFor(c, g.supervision)
    requires e.limits == Overridden(Overridden(TrustedLimits(c, g), p.limits), o.limits)
    requires leaf.AllowedRoots? || leaf.LimitOf? || leaf.SupervisionOf?
             || (leaf.ProviderCommand? && leaf.provider in e.providers)
    ensures Read(c, g, p, o, OriginUnder(g, p, o, d, leaf).source) == ValueAt(e, leaf)
  {
    hide ProvidersOf, SupervisionFor, Overridden, TrustedLimits, Read;
    match leaf
    case AllowedRoots => RootsAreTruthful(c, g, p, o, d);
    case ProviderCommand(name) => CommandsAreTruthful(c, g, p, o, d, name);
    case LimitOf(limit) => LimitsAreTruthful(c, g, p, o, d, limit);
    case SupervisionOf(bound) => BoundsAreTruthful(c, g, p, o, d, bound);
    case _ =>
  }

  lemma ArchetypeIsTruthful(
      c: Defaults, g: GlobalConfig, p: Overrides, o: Overrides, e: Effective, d: Definer, leaf: Path)
    requires Sound(c) && ArchetypesOk(c, g) && IsDefined(c, g, ReferenceOf(c, g, p, o))
    requires e.archetype == DefinitionOf(c, g, ReferenceOf(c, g, p, o)) && d == DefinerOf(c, g, p, o)
    requires leaf.ArchetypeReference? || leaf.ArchetypeLead?
             || (leaf.ArchetypeProfile? && leaf.profile in e.archetype.profiles)
             || (leaf.ArchetypeRole? && leaf.role in e.archetype.roles)
    ensures Read(c, g, p, o, d.OriginOf(leaf).source) == ValueAt(e, leaf)
  {
    hide ArchetypesOk, DefinitionOf, ReferenceOf, DefinerOf, Read, IsDefined;
    match leaf
    case ArchetypeReference => ReferencesAreTruthful(c, g, p, o);
    case ArchetypeLead => LeadsAreTruthful(c, g, p, o);
    case ArchetypeProfile(name, part) => ProfilesOfTheArchetypeAreTruthful(c, g, p, o, name, part);
    case ArchetypeRole(name, attribute) => RolesOfTheArchetypeAreTruthful(c, g, p, o, name, attribute);
    case _ =>
  }

  /** When resolution succeeds, reading the recorded layer at the recorded field gives every effective value. */
  lemma ProvenanceIsTruthful(c: Defaults, g: GlobalConfig, p: Overrides, o: Overrides, leaf: Path)
    requires Sound(c) && Acceptable(c, g, p, o) && leaf in Leaves(EffectiveOf(c, g, p, o))
    ensures ValueAt(EffectiveOf(c, g, p, o), leaf).Some?
    ensures Read(c, g, p, o, OriginOf(c, g, p, o, leaf).source) == ValueAt(EffectiveOf(c, g, p, o), leaf)
  {
    hide ArchetypesOk, ReferencesOk, OverridesOk, PolicyOk, Read, Leaves, DefinitionOf, FinalRoles, ProvidersOf;
    var e, d := EffectiveOf(c, g, p, o), DefinerOf(c, g, p, o);
    LeavesAreTheFieldsWithValues(e, leaf);
    if leaf.AllowedRoots? || leaf.ProviderCommand? || leaf.LimitOf? || leaf.SupervisionOf? {
      PolicyIsTruthful(c, g, p, o, e, d, leaf);
    } else if IsRoleLeaf(leaf) {
      RolesAreTruthful(c, g, p, o, leaf);
    } else {
      ArchetypeIsTruthful(c, g, p, o, e, d, leaf);
    }
  }

  // ----- Selections are truthful too -----

  predicate SelectsProfile(overrides: Overrides, role: Name) {
    role in overrides.roles && overrides.roles[role].profile.Some?
  }

  /** The profile name that decides a role's effective profile: the last layer's that names one. */
  function ProfileNameOf(a: Archetype, p: Overrides, o: Overrides, role: Name): Name
    requires role in a.roles
  {
    if SelectsProfile(o, role) then o.roles[role].profile.value
    else if SelectsProfile(p, role) then p.roles[role].profile.value
    else a.roles[role].profile
  }

  /** The trusted profile of that name, or the archetype's own while no layer names another. */
  function ProfileNamed(a: Archetype, profiles: map<Name, Profile>, p: Overrides, o: Overrides, role: Name): Option<Profile>
    requires role in a.roles
  {
    var name := ProfileNameOf(a, p, o, role);
    if SelectsProfile(o, role) || SelectsProfile(p, role)
    then if name in profiles then Some(profiles[name]) else None
    else if name in a.profiles then Some(a.profiles[name]) else None
  }

  /** The origin of a role's profile says who named it. */
  lemma NamingIsTruthful(
      c: Defaults, g: GlobalConfig, p: Overrides, o: Overrides, d: Definer, role: Name, part: Part)
    requires role in d.archetype.roles
    requires Read(c, g, p, o, d.AttributeOrigin(role, ProfileOf).source) == Some(Text(d.archetype.roles[role].profile))
    ensures var origin := OriginUnder(g, p, o, d, RoleProfile(role, part));
            && origin.selectedBy.Some?
            && Read(c, g, p, o, origin.selectedBy.value) == Some(Text(ProfileNameOf(d.archetype, p, o, role)))
  {
  }

  lemma ProfileSelectionIsTruthful(c: Defaults, g: GlobalConfig, p: Overrides, o: Overrides, role: Name, part: Part)
    requires Sound(c) && Acceptable(c, g, p, o) && role in DefinitionOf(c, g, ReferenceOf(c, g, p, o)).roles
    ensures var e, origin := EffectiveOf(c, g, p, o), OriginOf(c, g, p, o, RoleProfile(role, part));
            && role in e.roles && origin.selectedBy.Some?
            && Read(c, g, p, o, origin.selectedBy.value) == Some(Text(ProfileNameOf(e.archetype, p, o, role)))
            && ProfileNamed(e.archetype, ProfilesOf(g.profiles), p, o, role) == Some(e.roles[role].profile)
  {
    hide Read, OriginUnder, ProfileNamed, ProfileNameOf, DefinitionOf, ProfilesOf, PolicyOk, RestrictionsOk, RestrictedRoles,
         Complete, UnrestrictedRoles, LimitsOk, HonorsWorkspaces, AllowsUnrestricted;
    var a := DefinitionOf(c, g, ReferenceOf(c, g, p, o));
    DefinitionsAreComplete(c, g, ReferenceOf(c, g, p, o));
    RolesOfTheArchetypeAreTruthful(c, g, p, o, role, ProfileOf);
    NamingIsTruthful(c, g, p, o, DefinerOf(c, g, p, o), role, part);
    ProfileIsAsNamed(a, ProfilesOf(g.profiles), p, o, role);
  }

  lemma ProfileIsAsNamed(a: Archetype, profiles: map<Name, Profile>, p: Overrides, o: Overrides, role: Name)
    requires Complete(a) && role in a.roles
    requires RestrictionsOk(a, profiles, p.roles) && RestrictionsOk(a, profiles, o.roles)
    ensures var roles := RestrictedRoles(RestrictedRoles(UnrestrictedRoles(a), profiles, p.roles), profiles, o.roles);
            role in roles && ProfileNamed(a, profiles, p, o, role) == Some(roles[role].profile)
  {
    assert role in p.roles ==> RestrictionOk(a, profiles, role, p.roles[role]);
    assert role in o.roles ==> RestrictionOk(a, profiles, role, o.roles[role]);
  }

  /**
   * Exactly the archetype reference and the role profiles record who selected them, and reading that layer at
   * that field gives the reference, or the name of the profile, that was selected.
   */
  lemma SelectionsAreTruthful(c: Defaults, g: GlobalConfig, p: Overrides, o: Overrides, leaf: Path)
    requires Sound(c) && Acceptable(c, g, p, o) && leaf in Leaves(EffectiveOf(c, g, p, o))
    ensures var e, origin := EffectiveOf(c, g, p, o), OriginOf(c, g, p, o, leaf);
            && (origin.selectedBy.Some? <==> leaf.ArchetypeReference? || leaf.RoleProfile?)
            && (leaf.ArchetypeReference? ==>
                  Read(c, g, p, o, origin.selectedBy.value) == Some(Text(e.archetype.reference)))
            && (leaf.RoleProfile? ==>
                  && leaf.role in e.archetype.roles && leaf.role in e.roles
                  && Read(c, g, p, o, origin.selectedBy.value) == Some(Text(ProfileNameOf(e.archetype, p, o, leaf.role)))
                  && ProfileNamed(e.archetype, ProfilesOf(g.profiles), p, o, leaf.role) == Some(e.roles[leaf.role].profile))
  {
    hide ArchetypesOk, ReferencesOk, OverridesOk, PolicyOk, Leaves, DefinitionOf, FinalRoles, ProvidersOf, ProfileNamed,
         ProfileNameOf, OriginUnder, Read;
    var e := EffectiveOf(c, g, p, o);
    LeavesAreTheFieldsWithValues(e, leaf);
    OnlySelectionsAreSelected(g, p, o, DefinerOf(c, g, p, o), leaf);
    if leaf.RoleProfile? {
      RolesAreOfTheArchetype(c, g, p, o);
      ProfileSelectionIsTruthful(c, g, p, o, leaf.role, leaf.part);
    } else if leaf.ArchetypeReference? {
      SelectorIsTruthful(c, g, p, o);
    }
  }

  lemma OnlySelectionsAreSelected(g: GlobalConfig, p: Overrides, o: Overrides, d: Definer, leaf: Path)
    ensures leaf.RoleProfile? || leaf.ArchetypeReference? || OriginUnder(g, p, o, d, leaf).selectedBy.None?
    ensures leaf.ArchetypeReference? ==> OriginUnder(g, p, o, d, leaf).selectedBy == Some(d.selector)
  {
  }

  lemma SelectorIsTruthful(c: Defaults, g: GlobalConfig, p: Overrides, o: Overrides)
    requires Sound(c) && ArchetypesOk(c, g) && IsDefined(c, g, ReferenceOf(c, g, p, o))
    ensures Read(c, g, p, o, DefinerOf(c, g, p, o).selector) == Some(Text(DefinitionOf(c, g, ReferenceOf(c, g, p, o)).reference))
  {
    hide DefinitionOf, ArchetypesOk, IsDefined;
    ReferencesAreTruthful(c, g, p, o);
  }

  lemma RolesAreOfTheArchetype(c: Defaults, g: GlobalConfig, p: Overrides, o: Overrides)
    requires Sound(c) && Acceptable(c, g, p, o)
    ensures EffectiveOf(c, g, p, o).roles.Keys == EffectiveOf(c, g, p, o).archetype.roles.Keys
  {
    DefinitionsAreComplete(c, g, ReferenceOf(c, g, p, o));
  }

  // ----- Authority -----

  /** Neither project nor operator raises a run limit above the trusted one. */
  lemma LimitsStayTrusted(c: Defaults, g: GlobalConfig, p: Overrides, o: Overrides)
    requires Sound(c) && Acceptable(c, g, p, o)
    ensures BelowLimits(EffectiveOf(c, g, p, o).limits, TrustedLimits(c, g))
  {
    var trusted := TrustedLimits(c, g);
    forall limit: Limit
      ensures EffectiveOf(c, g, p, o).limits.Get(limit) <= trusted.Get(limit)
    {
      match limit
      case ConcurrentAgents =>
      case AgentsPerRun =>
      case SpawnsPerMinute =>
    }
  }

  /** Restricting roles within their archetype leaves them within it. */
  lemma RestrictionsStayWithin(
      a: Archetype, roles: map<Name, EffectiveRole>, profiles: map<Name, Profile>, restrictions: map<Name, Restriction>)
    requires Complete(a) && WithinArchetype(a, roles) && RestrictionsOk(a, profiles, restrictions)
    requires forall name | name in profiles :: ValidProfile(profiles[name])
    ensures WithinArchetype(a, RestrictedRoles(roles, profiles, restrictions))
  {
    forall name | name in a.roles && name in restrictions
      ensures RestrictionOk(a, profiles, name, restrictions[name])
    {
    }
  }

  /** Every role's capacity and permission profile are at or below its archetype's. */
  lemma RolesStayWithinTheirArchetype(c: Defaults, g: GlobalConfig, p: Overrides, o: Overrides, name: Name)
    requires Sound(c) && Acceptable(c, g, p, o) && name in EffectiveOf(c, g, p, o).roles
    ensures var e := EffectiveOf(c, g, p, o);
            && name in e.archetype.roles && e.archetype.roles[name].profile in e.archetype.profiles
            && BelowCapacity(e.roles[name].maxInstances, e.archetype.roles[name].maxInstances)
            && BelowProfile(e.roles[name].profile, e.archetype.profiles[e.archetype.roles[name].profile])
  {
    DefinitionsAreComplete(c, g, ReferenceOf(c, g, p, o));
    ResolvedProfilesAreValid(g.profiles);
    var a, profiles := DefinitionOf(c, g, ReferenceOf(c, g, p, o)), ProfilesOf(g.profiles);
    UnrestrictedRolesAreWithin(a);
    RestrictionsStayWithin(a, UnrestrictedRoles(a), profiles, p.roles);
    RestrictionsStayWithin(a, RestrictedRoles(UnrestrictedRoles(a), profiles, p.roles), profiles, o.roles);
  }

  /** A project can choose among definitions, but it changes none of them, nor providers or supervision. */
  lemma ProjectsChangeNoDefinition(c: Defaults, g: GlobalConfig, p: Overrides, q: Overrides, o: Overrides)
    requires Sound(c) && Acceptable(c, g, p, o) && Acceptable(c, g, q, o)
    ensures var e, f := EffectiveOf(c, g, p, o), EffectiveOf(c, g, q, o);
            && e.providers == f.providers && e.roots == f.roots && e.supervision == f.supervision
            && (e.archetype.reference == f.archetype.reference ==> e.archetype == f.archetype)
            && (o.archetype.Some? || p.archetype == q.archetype ==> e.archetype == f.archetype)
  {
    ReferencesAreTruthful(c, g, p, o);
    ReferencesAreTruthful(c, g, q, o);
  }

  /** An enabled unrestricted role needs the operator, or else the global file, to select its archetype. */
  lemma UnrestrictedAccessIsTrusted(c: Defaults, g: GlobalConfig, p: Overrides, o: Overrides, name: Name)
    requires Sound(c) && Acceptable(c, g, p, o) && name in EffectiveOf(c, g, p, o).roles
    requires EffectiveOf(c, g, p, o).roles[name].enabled
    requires EffectiveOf(c, g, p, o).roles[name].profile.filesystem == Unrestricted
    ensures var reference := EffectiveOf(c, g, p, o).archetype.reference;
            o.archetype == Some(reference) || (o.archetype.None? && g.archetype == Some(reference))
  {
    ReferencesAreTruthful(c, g, p, o);
    assert IsUnrestricted(FinalRoles(c, g, p, o)[name]);
  }

  /** All that resolution demands except that unrestricted access be selected by trusted input. */
  predicate AcceptableApartFromAccess(c: Defaults, g: GlobalConfig, p: Overrides, o: Overrides)
    requires Sound(c)
  {
    && PolicyOk(c, g) && ArchetypesOk(c, g) && ReferencesOk(g)
    && SelectorOk(c, g, g.archetype) && SelectorOk(c, g, p.archetype) && SelectorOk(c, g, o.archetype)
    && (DefinitionsAreComplete(c, g, ReferenceOf(c, g, p, o));
        var a, profiles, trusted := DefinitionOf(c, g, ReferenceOf(c, g, p, o)), ProfilesOf(g.profiles), TrustedLimits(c, g);
        && LimitsOk(p.limits, Some(trusted)) && RestrictionsOk(a, profiles, p.roles)
        && LimitsOk(o.limits, Some(trusted)) && RestrictionsOk(a, profiles, o.roles)
        && HonorsWorkspaces(a, FinalRoles(c, g, p, o)))
  }

  /**
   * Exactly when an input is refused for unrestricted access: some role ends up enabled on an unrestricted file
   * system, and neither the operator nor, where the operator selects nothing, the global file selected its archetype.
   */
  lemma AccessIsRefusedExactly(c: Defaults, g: GlobalConfig, p: Overrides, o: Overrides)
    requires Sound(c) && AcceptableApartFromAccess(c, g, p, o)
    ensures !Acceptable(c, g, p, o) <==>
              exists name :: name in FinalRoles(c, g, p, o)
                             && FinalRoles(c, g, p, o)[name].enabled
                             && FinalRoles(c, g, p, o)[name].profile.filesystem == Unrestricted
                             && o.archetype != Some(ReferenceOf(c, g, p, o))
                             && (o.archetype.Some? || g.archetype != Some(ReferenceOf(c, g, p, o)))
  {
    hide PolicyOk, ArchetypesOk, ReferencesOk, FinalRoles, DefinitionOf, LimitsOk, RestrictionsOk, HonorsWorkspaces;
    var roles := FinalRoles(c, g, p, o);
    if Acceptable(c, g, p, o) {
      assert forall name | name in roles :: IsUnrestricted(roles[name]) ==> AllowsUnrestricted(roles, TrustedSelection(g, o), ReferenceOf(c, g, p, o));
    } else {
      var name :| name in roles && IsUnrestricted(roles[name]);
    }
  }
}
