/** Where each effective value came from (src/config/provenance.rs). */
module Provenance {
  import opened Bytes
  import opened Configuration

  datatype Layer = Compiled | Builtin | Global | Project | Operator

  datatype Part = FilesystemPart | NetworkPart | ApprovalsPart | ReviewerPart

  datatype Attribute =
    | ProviderOf | ModeOf | MaxInstancesOf | WorkspaceOf | ProfileOf | InstructionsOf | CapabilitiesOf

  /** Field paths: first those of the effective configuration, then those that only inputs have. */
  datatype Path =
    | AllowedRoots
    | ProviderCommand(provider: Name)
    | LimitOf(limit: Limit)
    | SupervisionOf(bound: Bound)
    | ArchetypeReference
    | ArchetypeLead
    | ArchetypeProfile(profile: Name, part: Part)
    | ArchetypeRole(role: Name, attribute: Attribute)
    | RoleEnabled(role: Name)
    | RoleCapacity(role: Name)
    | RoleProfile(role: Name, part: Part)
    | Selector
    | Definition(reference: string)
    | DefinitionLead(reference: string)
    | DefinitionProfile(reference: string, profile: Name, part: Part)
    | DefinitionRole(reference: string, role: Name, attribute: Attribute)
    | TrustedProfile(profile: Name, part: Part)
    | ProfileSelector(role: Name)

  datatype Source = Source(layer: Layer, field: Path)

  /** A reference selects a value without becoming the source of its definition. */
  datatype Origin = Origin(source: Source, selectedBy: Option<Source>)

  function Direct(layer: Layer, field: Path): Origin {
    Origin(Source(layer, field), None)
  }

  // ----- The leaves of the recorded trees -----

  const PARTS: set<Part> := {FilesystemPart, NetworkPart, ApprovalsPart, ReviewerPart}

  const ATTRIBUTES: set<Attribute> :=
    {ProviderOf, ModeOf, MaxInstancesOf, WorkspaceOf, ProfileOf, InstructionsOf, CapabilitiesOf}

  lemma PartsAndAttributesAreListed()
    ensures forall part: Part :: part in PARTS
    ensures forall attribute: Attribute :: attribute in ATTRIBUTES
  {
    forall part: Part
      ensures part in PARTS
    {
      match part
      case FilesystemPart =>
      case NetworkPart =>
      case ApprovalsPart =>
      case ReviewerPart =>
    }
    forall attribute: Attribute
      ensures attribute in ATTRIBUTES
    {
      match attribute
      case ProviderOf =>
      case ModeOf =>
      case MaxInstancesOf =>
      case WorkspaceOf =>
      case ProfileOf =>
      case InstructionsOf =>
      case CapabilitiesOf =>
    }
  }

  function ProviderLeaves(providers: set<Name>): set<Path> {
    set n | n in providers :: ProviderCommand(n)
  }

  const LIMIT_LEAVES: set<Path> := {LimitOf(ConcurrentAgents), LimitOf(AgentsPerRun), LimitOf(SpawnsPerMinute)}

  const SUPERVISION_LEAVES: set<Path> :=
    {SupervisionOf(RestartWindow), SupervisionOf(LaunchAttempts), SupervisionOf(RestartBackoff),
     SupervisionOf(StartupTimeout), SupervisionOf(JobTimeout), SupervisionOf(InterruptGrace),
     SupervisionOf(ShutdownTimeout), SupervisionOf(IdleTimeout)}

  lemma LimitsAndBoundsAreListed()
    ensures forall limit: Limit :: LimitOf(limit) in LIMIT_LEAVES
    ensures forall bound: Bound :: SupervisionOf(bound) in SUPERVISION_LEAVES
  {
    forall limit: Limit
      ensures LimitOf(limit) in LIMIT_LEAVES
    {
      match limit
      case ConcurrentAgents =>
      case AgentsPerRun =>
      case SpawnsPerMinute =>
    }
    forall bound: Bound
      ensures SupervisionOf(bound) in SUPERVISION_LEAVES
    {
      match bound
      case RestartWindow =>
      case LaunchAttempts =>
      case RestartBackoff =>
      case StartupTimeout =>
      case JobTimeout =>
      case InterruptGrace =>
      case ShutdownTimeout =>
      case IdleTimeout =>
    }
  }

  function ProfileLeaves(profiles: set<Name>): (leaves: set<Path>)
    ensures forall p :: p in leaves <==> p.ArchetypeProfile? && p.profile in profiles
  {
    PartsAndAttributesAreListed();
    set profile, part | profile in profiles && part in PARTS :: ArchetypeProfile(profile, part)
  }

  function AttributeLeaves(roles: set<Name>): (leaves: set<Path>)
    ensures forall p :: p in leaves <==> p.ArchetypeRole? && p.role in roles
  {
    PartsAndAttributesAreListed();
    set role, attribute | role in roles && attribute in ATTRIBUTES :: ArchetypeRole(role, attribute)
  }

  function ArchetypeLeaves(a: Archetype): (leaves: set<Path>)
    ensures forall p :: p in leaves <==>
              || p.ArchetypeReference? || p.ArchetypeLead?
              || (p.ArchetypeProfile? && p.profile in a.profiles) || (p.ArchetypeRole? && p.role in a.roles)
  {
    {ArchetypeReference, ArchetypeLead} + ProfileLeaves(a.profiles.Keys) + AttributeLeaves(a.roles.Keys)
  }

  function RoleLeaves(roles: set<Name>): (leaves: set<Path>)
    ensures forall p :: p in leaves <==> (p.RoleEnabled? || p.RoleCapacity? || p.RoleProfile?) && p.role in roles
  {
    PartsAndAttributesAreListed();
    (set role | role in roles :: RoleEnabled(role)) + (set role | role in roles :: RoleCapacity(role))
    + (set role, part | role in roles && part in PARTS :: RoleProfile(role, part))
  }

  function PartLeaves(role: Name): (leaves: set<Path>)
    ensures forall p :: p in leaves <==> p.RoleProfile? && p.role == role
  {
    PartsAndAttributesAreListed();
    set part | part in PARTS :: RoleProfile(role, part)
  }

  lemma RoleLeavesSplit(role: Name)
    ensures {RoleEnabled(role), RoleCapacity(role)} + PartLeaves(role) == RoleLeaves({role})
  {
  }

  lemma RoleLeavesGrow(roles: set<Name>, todo: set<Name>, role: Name)
    requires role in todo && todo <= roles
    ensures RoleLeaves(roles - todo) + RoleLeaves({role}) == RoleLeaves(roles - (todo - {role}))
  {
  }

  /** The field of a definition that an archetype leaf is read from. */
  function InDefinition(reference: string, leaf: Path): Path {
    match leaf
    case ArchetypeReference => Definition(reference)
    case ArchetypeLead => DefinitionLead(reference)
    case ArchetypeProfile(profile, part) => DefinitionProfile(reference, profile, part)
    case ArchetypeRole(role, attribute) => DefinitionRole(reference, role, attribute)
    case _ => leaf
  }

  // ----- The origins of an archetype's leaves -----

  predicate Omits(input: RoleInput, attribute: Attribute) {
    (attribute == MaxInstancesOf && input.maxInstances.None?) || (attribute == InstructionsOf && input.instructions.None?)
  }

  function Omissions(roles: map<Name, RoleInput>, names: set<Name>): (leaves: set<Path>)
    requires names <= roles.Keys
    ensures forall p :: p in leaves <==> p.ArchetypeRole? && p.role in names && Omits(roles[p.role], p.attribute)
  {
    PartsAndAttributesAreListed();
    set role, attribute | role in names && attribute in ATTRIBUTES && Omits(roles[role], attribute) ::
      ArchetypeRole(role, attribute)
  }

  lemma OmissionsOfOne(role: Name, input: RoleInput)
    ensures Omissions(map[role := input], {role}) ==
              (if input.maxInstances.None? then {ArchetypeRole(role, MaxInstancesOf)} else {})
              + (if input.instructions.None? then {ArchetypeRole(role, InstructionsOf)} else {})
  {
    hide Omissions;
  }

  function CompiledOrigins(reference: string): Path -> Origin {
    leaf => Direct(Compiled, InDefinition(reference, leaf))
  }

  /** A trusted profile's part, or the compiled default for an omitted reviewer. */
  function TrustedOrigin(profiles: map<Name, ProfileInput>, profile: Name, part: Part): Origin {
    Direct(if part == ReviewerPart && profile in profiles && profiles[profile].reviewer.None? then Compiled else Global,
           TrustedProfile(profile, part))
  }

  function TrustedLeafOrigin(profiles: map<Name, ProfileInput>, leaf: Path): Origin {
    if leaf.ArchetypeProfile? then TrustedOrigin(profiles, leaf.profile, leaf.part) else Direct(Global, leaf)
  }

  /** Where an archetype is defined, and what selected it. */
  datatype Definer = Definer(
    archetype: Archetype, input: Option<ArchetypeInput>, profiles: map<Name, ProfileInput>, selector: Source)
  {
    function Layer(): Layer {
      if input.Some? then Global else Builtin
    }

    /** A role's definition, or the compiled default for a field that a global one omits. */
    function AttributeOrigin(role: Name, attribute: Attribute): Origin {
      Direct(if input.Some? && role in input.value.roles && Omits(input.value.roles[role], attribute)
             then Compiled else Layer(),
             DefinitionRole(archetype.reference, role, attribute))
    }

    function PartOrigin(profile: Name, part: Part): Origin {
      if input.Some? then TrustedOrigin(profiles, profile, part)
      else Direct(Builtin, DefinitionProfile(archetype.reference, profile, part))
    }

    /** The origin of an archetype's leaf, or of a role's policy before any restriction. */
    function OriginOf(leaf: Path): Origin {
      match leaf
      case ArchetypeReference => Origin(Source(Layer(), Definition(archetype.reference)), Some(selector))
      case ArchetypeProfile(profile, part) => PartOrigin(profile, part)
      case ArchetypeRole(role, attribute) => AttributeOrigin(role, attribute)
      case RoleEnabled(_) => Direct(Compiled, leaf)
      case RoleCapacity(role) => AttributeOrigin(role, MaxInstancesOf)
      case RoleProfile(role, part) =>
        if role !in archetype.roles then Direct(Compiled, leaf)
        else PartOrigin(archetype.roles[role].profile, part).(
          selectedBy := Some(AttributeOrigin(role, ProfileOf).source))
      case _ => Direct(Layer(), InDefinition(archetype.reference, leaf))
    }

    function Origins(): Path -> Origin {
      leaf => OriginOf(leaf)
    }

    /** What makes every lookup of `RecordArchetype` succeed. */
    predicate Recordable() {
      && (forall r | r in archetype.roles :: archetype.roles[r].profile in archetype.profiles)
      && (input.Some? ==> input.value.roles.Keys == archetype.roles.Keys && archetype.profiles.Keys <= profiles.Keys)
    }
  }

  // ----- Recording -----

  type Entries = map<Path, Origin>

  /** `fields` get these origins, and everything else stays. */
  ghost predicate Overlays(before: Entries, after: Entries, fields: set<Path>, origin: Path -> Origin) {
    && after.Keys == before.Keys + fields
    && forall p | p in after :: after[p] == if p in fields then origin(p) else before[p]
  }

  ghost predicate Recorded(entries: Entries, fields: set<Path>, origin: Path -> Origin) {
    fields <= entries.Keys && forall p | p in fields :: entries[p] == origin(p)
  }

  lemma OverlaysKeepOthers(
      a: Entries, b: Entries, fields: set<Path>, origin: Path -> Origin, others: set<Path>, other: Path -> Origin)
    requires Overlays(a, b, fields, origin) && Recorded(a, others, other) && fields !! others
    ensures Recorded(b, others, other)
  {
  }

  lemma OverlayAt(a: Entries, b: Entries, fields: set<Path>, origin: Path -> Origin, p: Path)
    requires Overlays(a, b, fields, origin) && (p in a || p in fields)
    ensures p in b && b[p] == if p in fields then origin(p) else a[p]
  {
  }

  lemma OverlaysCompose(a: Entries, b: Entries, c: Entries, first: set<Path>, second: set<Path>, origin: Path -> Origin)
    requires Overlays(a, b, first, origin) && Overlays(b, c, second, origin)
    ensures Overlays(a, c, first + second, origin)
  {
  }

  /** Recording the four parts of a role's profile one by one. */
  function WithParts(entries: Entries, role: Name, origin: Part -> Origin): Entries {
    entries[RoleProfile(role, FilesystemPart) := origin(FilesystemPart)]
           [RoleProfile(role, NetworkPart) := origin(NetworkPart)]
           [RoleProfile(role, ApprovalsPart) := origin(ApprovalsPart)]
           [RoleProfile(role, ReviewerPart) := origin(ReviewerPart)]
  }

  lemma PartsOverlay(before: Entries, role: Name, parts: Part -> Origin, origin: Path -> Origin)
    requires forall part :: origin(RoleProfile(role, part)) == parts(part)
    ensures Overlays(before, WithParts(before, role, parts), PartLeaves(role), origin)
  {
    var after := WithParts(before, role, parts);
    forall p
      ensures p in after <==> p in before || p in PartLeaves(role)
      ensures p in after ==> after[p] == if p in PartLeaves(role) then origin(p) else before[p]
    {
      if p.RoleProfile? && p.role == role {
        match p.part
        case FilesystemPart =>
        case NetworkPart =>
        case ApprovalsPart =>
        case ReviewerPart =>
      }
    }
  }

  class Record {
    var entries: Entries

    constructor ()
      ensures entries == map[]
    {
      entries := map[];
    }

    method Insert(field: Path, origin: Origin)
      modifies this
      ensures entries == old(entries)[field := origin]
    {
      entries := entries[field := origin];
    }

    /** The value at this field was assigned by this layer, at the same field. */
    method Assigned(field: Path, layer: Layer)
      modifies this
      ensures entries == old(entries)[field := Direct(layer, field)]
    {
      Insert(field, Direct(layer, field));
    }

    /** Records every leaf of a tree, each read from the field that `source` names. */
    method RecordTree(leaves: set<Path>, source: Path -> Path, layer: Layer)
      modifies this
      ensures Overlays(old(entries), entries, leaves, p => Direct(layer, source(p)))
    {
      var todo := leaves;
      while todo != {}
        invariant todo <= leaves
        invariant Overlays(old(entries), entries, leaves - todo, p => Direct(layer, source(p)))
        decreases todo
      {
        var p :| p in todo;
        entries := entries[p := Direct(layer, source(p))];
        todo := todo - {p};
      }
      assert leaves - todo == leaves;
    }

    /** One trusted profile of a global archetype, with the compiled default for an omitted reviewer. */
    method RecordProfile(name: Name, profiles: map<Name, ProfileInput>)
      requires name in profiles
      modifies this
      ensures Overlays(old(entries), entries, ProfileLeaves({name}), p => TrustedLeafOrigin(profiles, p))
    {
      RecordTree(ProfileLeaves({name}), leaf => TrustedLeaf(leaf), Global);
      if profiles[name].reviewer.None? {
        Insert(ArchetypeProfile(name, ReviewerPart), Direct(Compiled, TrustedProfile(name, ReviewerPart)));
      }
    }

    method RecordProfiles(names: set<Name>, profiles: map<Name, ProfileInput>)
      requires names <= profiles.Keys
      modifies this
      ensures Overlays(old(entries), entries, ProfileLeaves(names), p => TrustedLeafOrigin(profiles, p))
    {
      var todo := names;
      ghost var origin := p => TrustedLeafOrigin(profiles, p);
      while todo != {}
        invariant todo <= names
        invariant Overlays(old(entries), entries, ProfileLeaves(names - todo), origin)
        decreases todo
      {
        var name :| name in todo;
        ghost var before := entries;
        RecordProfile(name, profiles);
        OverlaysCompose(old(entries), before, entries, ProfileLeaves(names - todo), ProfileLeaves({name}), origin);
        assert ProfileLeaves(names - todo) + ProfileLeaves({name}) == ProfileLeaves(names - (todo - {name}));
        todo := todo - {name};
      }
      assert names - todo == names;
    }

    method RecordOmission(reference: string, role: Name, attribute: Attribute, omitted: bool)
      modifies this
      ensures Overlays(old(entries), entries, if omitted then {ArchetypeRole(role, attribute)} else {},
                       CompiledOrigins(reference))
    {
      if omitted {
        Insert(ArchetypeRole(role, attribute), Direct(Compiled, DefinitionRole(reference, role, attribute)));
      }
    }

    /** Compiled defaults for what one role of a global archetype leaves out. */
    method RecordRoleOmissions(reference: string, role: Name, input: RoleInput)
      modifies this
      ensures Overlays(old(entries), entries, Omissions(map[role := input], {role}), CompiledOrigins(reference))
    {
      RecordOmission(reference, role, MaxInstancesOf, input.maxInstances.None?);
      ghost var sized := entries;
      RecordOmission(reference, role, InstructionsOf, input.instructions.None?);
      OverlaysCompose(old(entries), sized, entries,
                      if input.maxInstances.None? then {ArchetypeRole(role, MaxInstancesOf)} else {},
                      if input.instructions.None? then {ArchetypeRole(role, InstructionsOf)} else {},
                      CompiledOrigins(reference));
      OmissionsOfOne(role, input);
    }

    method RecordOmissions(reference: string, roles: map<Name, RoleInput>)
      modifies this
      ensures Overlays(old(entries), entries, Omissions(roles, roles.Keys), CompiledOrigins(reference))
    {
      var todo := roles.Keys;
      ghost var origin := CompiledOrigins(reference);
      while todo != {}
        invariant todo <= roles.Keys
        invariant Overlays(old(entries), entries, Omissions(roles, roles.Keys - todo), origin)
        decreases todo
      {
        var role :| role in todo;
        ghost var before := entries;
        RecordRoleOmissions(reference, role, roles[role]);
        OverlaysCompose(old(entries), before, entries, Omissions(roles, roles.Keys - todo),
                        Omissions(map[role := roles[role]], {role}), origin);
        assert Omissions(roles, roles.Keys - todo) + Omissions(map[role := roles[role]], {role}) ==
          Omissions(roles, roles.Keys - (todo - {role}));
        todo := todo - {role};
      }
      assert roles.Keys - todo == roles.Keys;
    }

    /** The unrestricted policy of one role, copied from the origins of its archetype. */
    method RecordRole(d: Definer, role: Name)
      requires role in d.archetype.roles && d.archetype.roles[role].profile in d.archetype.profiles
      requires Recorded(entries, ArchetypeLeaves(d.archetype), d.Origins())
      modifies this
      ensures Overlays(old(entries), entries, RoleLeaves({role}), d.Origins())
    {
      hide Overlays, RoleLeaves, PartLeaves;
      RecordRoleBasics(d, role);
      ghost var before := entries;
      OverlaysKeepOthers(old(entries), before, {RoleEnabled(role), RoleCapacity(role)}, d.Origins(),
                         ArchetypeLeaves(d.archetype), d.Origins());
      var selector := entries[ArchetypeRole(role, ProfileOf)].source;
      RecordRoleParts(role, d.archetype.roles[role].profile, selector, d);
      OverlaysCompose(
        old(entries), before, entries, {RoleEnabled(role), RoleCapacity(role)}, PartLeaves(role), d.Origins());
      RoleLeavesSplit(role);
    }

    method RecordRoleBasics(d: Definer, role: Name)
      requires role in d.archetype.roles && Recorded(entries, ArchetypeLeaves(d.archetype), d.Origins())
      modifies this
      ensures Overlays(old(entries), entries, {RoleEnabled(role), RoleCapacity(role)}, d.Origins())
    {
      Assigned(RoleEnabled(role), Compiled);
      assert ArchetypeRole(role, MaxInstancesOf) in ArchetypeLeaves(d.archetype);
      var capacity := entries[ArchetypeRole(role, MaxInstancesOf)];
      Insert(RoleCapacity(role), capacity);
    }

    method RecordRoleParts(role: Name, profile: Name, selector: Source, ghost d: Definer)
      requires forall part :: ArchetypeProfile(profile, part) in entries
                              && d.OriginOf(RoleProfile(role, part)) ==
                                   entries[ArchetypeProfile(profile, part)].(selectedBy := Some(selector))
      modifies this
      ensures Overlays(old(entries), entries, PartLeaves(role), d.Origins())
    {
      ghost var before := entries;
      RecordRolePart(role, profile, selector, FilesystemPart);
      RecordRolePart(role, profile, selector, NetworkPart);
      RecordRolePart(role, profile, selector, ApprovalsPart);
      RecordRolePart(role, profile, selector, ReviewerPart);
      ghost var parts := part => d.OriginOf(RoleProfile(role, part));
      assert entries == WithParts(before, role, parts);
      PartsOverlay(before, role, parts, d.Origins());
    }

    method RecordRolePart(role: Name, profile: Name, selector: Source, part: Part)
      requires ArchetypeProfile(profile, part) in entries
      modifies this
      ensures entries == old(entries)[RoleProfile(role, part) :=
                old(entries)[ArchetypeProfile(profile, part)].(selectedBy := Some(selector))]
    {
      var origin := entries[ArchetypeProfile(profile, part)];
      Insert(RoleProfile(role, part), origin.(selectedBy := Some(selector)));
    }

    method RecordRoles(d: Definer)
      requires d.Recordable() && Recorded(entries, ArchetypeLeaves(d.archetype), d.Origins())
      modifies this
      ensures Overlays(old(entries), entries, RoleLeaves(d.archetype.roles.Keys), d.Origins())
    {
      hide RoleLeaves, ArchetypeLeaves;
      var todo := d.archetype.roles.Keys;
      while todo != {}
        invariant todo <= d.archetype.roles.Keys
        invariant Recorded(entries, ArchetypeLeaves(d.archetype), d.Origins())
        invariant Overlays(old(entries), entries, RoleLeaves(d.archetype.roles.Keys - todo), d.Origins())
        decreases todo
      {
        var role :| role in todo;
        ghost var before, done := entries, RoleLeaves(d.archetype.roles.Keys - todo);
        RecordRole(d, role);
        OverlaysCompose(old(entries), before, entries, done, RoleLeaves({role}), d.Origins());
        OverlaysKeepOthers(
          before, entries, RoleLeaves({role}), d.Origins(), ArchetypeLeaves(d.archetype), d.Origins());
        RoleLeavesGrow(d.archetype.roles.Keys, todo, role);
        todo := todo - {role};
      }
      assert d.archetype.roles.Keys - todo == d.archetype.roles.Keys;
    }

    method RecordDefinition(d: Definer)
      requires d.Recordable()
      modifies this
      ensures Overlays(old(entries), entries, ArchetypeLeaves(d.archetype), d.Origins())
    {
      hide ArchetypeLeaves, ProfileLeaves, Omissions;
      RecordTree(ArchetypeLeaves(d.archetype), leaf => InDefinition(d.archetype.reference, leaf), d.Layer());
      ghost var tree := entries;
      Insert(ArchetypeReference, Origin(Source(d.Layer(), Definition(d.archetype.reference)), Some(d.selector)));
      ghost var defined := entries;
      if d.input.Some? {
        RecordProfiles(d.archetype.profiles.Keys, d.profiles);
        ghost var profiled := entries;
        RecordOmissions(d.archetype.reference, d.input.value.roles);
        GlobalDefinitionIsRecorded(d, old(entries), tree, defined, profiled, entries);
      }
    }

    /** Records an archetype and the unrestricted policies of its roles; no lookup on the way can fail. */
    method RecordArchetype(d: Definer)
      requires d.Recordable()
      modifies this
      ensures Overlays(old(entries), entries,
                       ArchetypeLeaves(d.archetype) + RoleLeaves(d.archetype.roles.Keys), d.Origins())
    {
      RecordDefinition(d);
      ghost var defined := entries;
      RecordRoles(d);
      OverlaysCompose(old(entries), defined, entries, ArchetypeLeaves(d.archetype),
                      RoleLeaves(d.archetype.roles.Keys), d.Origins());
    }
  }

  /** A global archetype is recorded in layers: its tree, its reference, its profiles, then its omissions. */
  ghost predicate Layered(
      d: Definer, before: Entries, tree: Entries, defined: Entries, profiled: Entries, after: Entries)
  {
    && Overlays(before, tree, ArchetypeLeaves(d.archetype), p => Direct(Global, InDefinition(d.archetype.reference, p)))
    && defined ==
         tree[ArchetypeReference := Origin(Source(Global, Definition(d.archetype.reference)), Some(d.selector))]
    && Overlays(defined, profiled, ProfileLeaves(d.archetype.profiles.Keys), p => TrustedLeafOrigin(d.profiles, p))
    && d.input.Some?
    && Overlays(profiled, after, Omissions(d.input.value.roles, d.input.value.roles.Keys),
                CompiledOrigins(d.archetype.reference))
  }

  lemma GlobalDefinitionIsRecorded(
      d: Definer, before: Entries, tree: Entries, defined: Entries, profiled: Entries, after: Entries)
    requires d.Recordable() && Layered(d, before, tree, defined, profiled, after)
    ensures Overlays(before, after, ArchetypeLeaves(d.archetype), d.Origins())
  {
    hide ArchetypeLeaves, ProfileLeaves, Omissions;
    var leaves := ArchetypeLeaves(d.archetype);
    forall p | p in leaves
      ensures p in after && after[p] == d.OriginOf(p)
    {
      GlobalLeafIsRecorded(d, before, tree, defined, profiled, after, p);
    }
    var trusted, omitted := ProfileLeaves(d.archetype.profiles.Keys), Omissions(d.input.value.roles, d.input.value.roles.Keys);
    LayersAreOfTheArchetype(d);
    LayersCompose(before, tree, defined, profiled, after, leaves, trusted, omitted);
  }

  /** What is recorded again belongs to the archetype. */
  lemma LayersAreOfTheArchetype(d: Definer)
    requires d.Recordable() && d.input.Some?
    ensures ProfileLeaves(d.archetype.profiles.Keys) <= ArchetypeLeaves(d.archetype)
    ensures Omissions(d.input.value.roles, d.input.value.roles.Keys) <= ArchetypeLeaves(d.archetype)
    ensures ArchetypeReference in ArchetypeLeaves(d.archetype)
  {
  }

  lemma GlobalLeafIsRecorded(
      d: Definer, before: Entries, tree: Entries, defined: Entries, profiled: Entries, after: Entries, p: Path)
    requires d.Recordable() && Layered(d, before, tree, defined, profiled, after) && p in ArchetypeLeaves(d.archetype)
    ensures p in after && after[p] == d.OriginOf(p)
  {
    hide Overlays, ArchetypeLeaves, ProfileLeaves, Omissions;
    OverlayAt(before, tree, ArchetypeLeaves(d.archetype), p => Direct(Global, InDefinition(d.archetype.reference, p)), p);
    OverlayAt(defined, profiled, ProfileLeaves(d.archetype.profiles.Keys), p => TrustedLeafOrigin(d.profiles, p), p);
    OverlayAt(profiled, after, Omissions(d.input.value.roles, d.input.value.roles.Keys),
              CompiledOrigins(d.archetype.reference), p);
    GlobalOriginAt(d, p, tree[p], defined[p], profiled[p], after[p]);
  }

  /** The origin that the topmost layer leaves at one field. */
  lemma GlobalOriginAt(d: Definer, p: Path, tree: Origin, defined: Origin, profiled: Origin, after: Origin)
    requires d.Recordable() && d.input.Some? && p in ArchetypeLeaves(d.archetype)
    requires tree == Direct(Global, InDefinition(d.archetype.reference, p))
    requires defined == if p == ArchetypeReference
                        then Origin(Source(Global, Definition(d.archetype.reference)), Some(d.selector)) else tree
    requires profiled == if p in ProfileLeaves(d.archetype.profiles.Keys)
                         then TrustedLeafOrigin(d.profiles, p) else defined
    requires after == if p in Omissions(d.input.value.roles, d.input.value.roles.Keys)
                      then Direct(Compiled, InDefinition(d.archetype.reference, p)) else profiled
    ensures after == d.OriginOf(p)
  {
    hide ArchetypeLeaves, ProfileLeaves, Omissions;
  }

  /** Overlaying subsets of what is already recorded adds no field and touches no other. */
  lemma LayersCompose(
      before: Entries, tree: Entries, defined: Entries, profiled: Entries, after: Entries,
      leaves: set<Path>, trusted: set<Path>, omitted: set<Path>)
    requires trusted <= leaves && omitted <= leaves && ArchetypeReference in leaves
    requires tree.Keys == before.Keys + leaves && defined.Keys == tree.Keys + {ArchetypeReference}
    requires profiled.Keys == defined.Keys + trusted && after.Keys == profiled.Keys + omitted
    requires forall p | p in before && p !in leaves ::
               tree[p] == before[p] && defined[p] == tree[p] && profiled[p] == defined[p] && after[p] == profiled[p]
    ensures after.Keys == before.Keys + leaves && forall p | p in before && p !in leaves :: after[p] == before[p]
  {
  }

  function TrustedLeaf(leaf: Path): Path {
    match leaf
    case ArchetypeProfile(profile, part) => TrustedProfile(profile, part)
    case _ => leaf
  }
}
