/** The whole resolution, and what its result and provenance mean (src/config/resolver.rs). */
module Resolution {
  import opened Bytes
  import opened Configuration
  import opened Policy
  import opened Provenance
  import opened ResolutionRules
  import opened Resolver

  // ----- Layers of records -----

  /** The record has exactly these fields, with these origins. */
  ghost predicate Exactly(entries: Entries, fields: set<Path>, origin: Path -> Origin) {
    entries.Keys == fields && forall p | p in fields :: entries[p] == origin(p)
  }

  /** The origins of a record after some of its fields were assigned again. */
  function Over(fields: set<Path>, top: Path -> Origin, base: Path -> Origin): Path -> Origin {
    leaf => if leaf in fields then top(leaf) else base(leaf)
  }

  lemma Overlaid(
      a: Entries, b: Entries, fields: set<Path>, origin: Path -> Origin, over: set<Path>, top: Path -> Origin)
    requires Exactly(a, fields, origin) && Overlays(a, b, over, top)
    ensures Exactly(b, fields + over, Over(over, top, origin))
  {
  }

  lemma SameOrigins(a: Entries, fields: set<Path>, origin: Path -> Origin, all: set<Path>, other: Path -> Origin)
    requires Exactly(a, fields, origin) && all == fields && forall p | p in fields :: origin(p) == other(p)
    ensures Exactly(a, all, other)
  {
  }

  // ----- The trusted part -----

  function CompiledLeaves(c: Defaults): set<Path> {
    ProviderLeaves(c.providers.Keys) + LIMIT_LEAVES + SUPERVISION_LEAVES
  }

  function TrustedLeaves(c: Defaults, g: GlobalConfig): set<Path> {
    {AllowedRoots} + ProviderLeaves(ProvidersOf(c, g).Keys) + LIMIT_LEAVES + SUPERVISION_LEAVES
  }

  /** The trusted origin of a policy that neither archetypes nor restrictions concern. */
  function TrustedOriginOf(g: GlobalConfig, leaf: Path): Origin {
    match leaf
    case AllowedRoots => Direct(if g.roots.Some? then Global else Compiled, leaf)
    case ProviderCommand(name) =>
      Direct(if name in g.providers && g.providers[name].Some? then Global else Compiled, leaf)
    case LimitOf(limit) => Direct(if g.limits.Get(limit).Some? then Global else Compiled, leaf)
    case SupervisionOf(bound) => Direct(if g.supervision.Get(bound).Some? then Global else Compiled, leaf)
    case _ => Direct(Compiled, leaf)
  }

  function TrustedOrigins(g: GlobalConfig): Path -> Origin {
    leaf => TrustedOriginOf(g, leaf)
  }

  function Identity(): Path -> Path {
    leaf => leaf
  }

  method RecordCompiled(c: Defaults, record: Record)
    requires record.entries == map[]
    modifies record
    ensures Exactly(record.entries, CompiledLeaves(c), LayerOrigins(Compiled))
  {
    RecordCompiledTree(ProviderLeaves(c.providers.Keys), record, {});
    RecordCompiledTree(LIMIT_LEAVES, record, ProviderLeaves(c.providers.Keys));
    RecordCompiledTree(SUPERVISION_LEAVES, record, ProviderLeaves(c.providers.Keys) + LIMIT_LEAVES);
    assert {} + ProviderLeaves(c.providers.Keys) == ProviderLeaves(c.providers.Keys);
  }

  method RecordCompiledTree(leaves: set<Path>, record: Record, ghost earlier: set<Path>)
    requires Exactly(record.entries, earlier, LayerOrigins(Compiled))
    modifies record
    ensures Exactly(record.entries, earlier + leaves, LayerOrigins(Compiled))
  {
    record.RecordTree(leaves, Identity(), Compiled);
  }

  /** Providers, limits and supervision from compiled and global values alone. */
  method ResolveTrusted(c: Defaults, g: GlobalConfig, record: Record)
    returns (r: Option<(map<Name, Command>, Limits, Supervision)>)
    requires record.entries == map[]
    modifies record
    ensures r.Some? <==> PolicyOk(c, g)
    ensures r.Some? ==> r.value == (ProvidersOf(c, g), TrustedLimits(c, g), SupervisionFor(c, g.supervision))
    ensures r.Some? ==> Exactly(record.entries, TrustedLeaves(c, g), TrustedOrigins(g))
  {
    if g.includes.Some? || !RootsOk(g) {
      return None;
    }
    RecordCompiled(c, record);
    ghost var compiled := record.entries;
    var layer := if g.roots.Some? then Global else Compiled;
    record.Assigned(AllowedRoots, layer);
    ghost var rooted := record.entries;
    assert Overlays(compiled, rooted, {AllowedRoots}, LayerOrigins(layer));
    var providers := ResolveProviders(c, g, record);
    if providers.None? {
      return None;
    }
    ghost var provided := record.entries;
    var limits := ApplyLimits(c.limits, g.limits, None, Global, record);
    if limits.None? {
      return None;
    }
    ghost var limited := record.entries;
    var supervision := ResolveSupervision(c, g.supervision, record);
    if supervision.None? {
      return None;
    }
    TrustedLayersCompose(c, g, compiled, rooted, provided, limited, record.entries);
    r := Some((providers.value, limits.value, supervision.value));
  }

  function TrustedLayers(g: GlobalConfig): Path -> Origin {
    Over(SuppliedBounds(g.supervision, BOUNDS), GlobalOrigins(),
         Over(SuppliedLimits(g.limits), LayerOrigins(Global),
              Over(GlobalCommands(g, g.providers.Keys), GlobalOrigins(),
                   Over({AllowedRoots}, LayerOrigins(if g.roots.Some? then Global else Compiled),
                        LayerOrigins(Compiled)))))
  }

  lemma TrustedLayersCompose(
      c: Defaults, g: GlobalConfig, compiled: Entries, rooted: Entries, provided: Entries, limited: Entries, all: Entries)
    requires Exactly(compiled, CompiledLeaves(c), LayerOrigins(Compiled)) && ProvidersOk(c, g)
    requires Overlays(compiled, rooted, {AllowedRoots}, LayerOrigins(if g.roots.Some? then Global else Compiled))
    requires Overlays(rooted, provided, GlobalCommands(g, g.providers.Keys), GlobalOrigins())
    requires Overlays(provided, limited, SuppliedLimits(g.limits), LayerOrigins(Global))
    requires Overlays(limited, all, SuppliedBounds(g.supervision, BOUNDS), GlobalOrigins())
    ensures Exactly(all, TrustedLeaves(c, g), TrustedOrigins(g))
  {
    hide Exactly, Overlays, Over, LayerOrigins, GlobalOrigins, CompiledLeaves, TrustedLeaves, ProvidersOk,
         GlobalCommands, SuppliedLimits, SuppliedBounds;
    var rootOrigins := LayerOrigins(if g.roots.Some? then Global else Compiled);
    var fields, origins := CompiledLeaves(c), LayerOrigins(Compiled);
    Overlaid(compiled, rooted, fields, origins, {AllowedRoots}, rootOrigins);
    fields, origins := fields + {AllowedRoots}, Over({AllowedRoots}, rootOrigins, origins);
    Overlaid(rooted, provided, fields, origins, GlobalCommands(g, g.providers.Keys), GlobalOrigins());
    fields, origins := fields + GlobalCommands(g, g.providers.Keys),
                       Over(GlobalCommands(g, g.providers.Keys), GlobalOrigins(), origins);
    Overlaid(provided, limited, fields, origins, SuppliedLimits(g.limits), LayerOrigins(Global));
    fields, origins := fields + SuppliedLimits(g.limits), Over(SuppliedLimits(g.limits), LayerOrigins(Global), origins);
    Overlaid(limited, all, fields, origins, SuppliedBounds(g.supervision, BOUNDS), GlobalOrigins());
    fields := fields + SuppliedBounds(g.supervision, BOUNDS);
    TrustedFieldsCompose(c, g);
    TrustedOriginsCompose(c, g);
    SameOrigins(all, fields, TrustedLayers(g), TrustedLeaves(c, g), TrustedOrigins(g));
  }

  lemma TrustedOriginsCompose(c: Defaults, g: GlobalConfig)
    ensures forall p | p in TrustedLeaves(c, g) :: TrustedLayers(g)(p) == TrustedOriginOf(g, p)
  {
    forall p | p in TrustedLeaves(c, g)
      ensures TrustedLayers(g)(p) == TrustedOriginOf(g, p)
    {
      TrustedLayersAt(g, p);
    }
  }

  lemma TrustedLayersAt(g: GlobalConfig, leaf: Path)
    requires leaf.AllowedRoots? || leaf.ProviderCommand? || leaf.LimitOf? || leaf.SupervisionOf?
    ensures TrustedLayers(g)(leaf) == TrustedOriginOf(g, leaf)
  {
    var rootOrigins := LayerOrigins(if g.roots.Some? then Global else Compiled);
    var rooted := Over({AllowedRoots}, rootOrigins, LayerOrigins(Compiled));
    OverAt({AllowedRoots}, rootOrigins, LayerOrigins(Compiled), leaf);
    var provided := Over(GlobalCommands(g, g.providers.Keys), GlobalOrigins(), rooted);
    OverAt(GlobalCommands(g, g.providers.Keys), GlobalOrigins(), rooted, leaf);
    var limited := Over(SuppliedLimits(g.limits), LayerOrigins(Global), provided);
    OverAt(SuppliedLimits(g.limits), LayerOrigins(Global), provided, leaf);
    OverAt(SuppliedBounds(g.supervision, BOUNDS), GlobalOrigins(), limited, leaf);
    AllBoundsAreListed();
  }

  lemma TrustedFieldsCompose(c: Defaults, g: GlobalConfig)
    requires ProvidersOk(c, g)
    ensures CompiledLeaves(c) + {AllowedRoots} + GlobalCommands(g, g.providers.Keys) + SuppliedLimits(g.limits)
            + SuppliedBounds(g.supervision, BOUNDS) == TrustedLeaves(c, g)
  {
    hide GlobalCommands, ProviderLeaves, SuppliedLimits, SuppliedBounds, ProvidersOk;
    LimitsAndBoundsAreListed();
    SuppliedAreListed(g);
    CommandsCompose(c, g);
  }

  lemma SuppliedAreListed(g: GlobalConfig)
    ensures SuppliedLimits(g.limits) <= LIMIT_LEAVES && SuppliedBounds(g.supervision, BOUNDS) <= SUPERVISION_LEAVES
  {
    LimitsAndBoundsAreListed();
  }

  lemma CommandsCompose(c: Defaults, g: GlobalConfig)
    requires ProvidersOk(c, g)
    ensures ProviderLeaves(c.providers.Keys) + GlobalCommands(g, g.providers.Keys) == ProviderLeaves(ProvidersOf(c, g).Keys)
  {
    forall name | name in g.providers
      ensures name in ProvidersOf(c, g) && (g.providers[name].None? ==> name in c.providers)
    {
      assert ProviderOk(c, g, name);
    }
  }

  // ----- The selected archetype and the restrictions on it -----

  /** Every lookup made while recording the selected archetype finds something. */
  lemma SelectionIsRecordable(c: Defaults, g: GlobalConfig, p: Overrides, o: Overrides)
    requires Sound(c) && ArchetypesOk(c, g) && IsDefined(c, g, ReferenceOf(c, g, p, o))
    ensures DefinerOf(c, g, p, o).Recordable()
  {
    DefinitionsAreComplete(c, g, ReferenceOf(c, g, p, o));
    var reference := ReferenceOf(c, g, p, o);
    if reference in g.archetypes {
      assert ArchetypeOk(g.archetypes[reference], g.profiles.Keys, ProvidersOf(c, g).Keys);
      ResolvedProfilesAreValid(g.profiles);
      ResolvedArchetypesAreComplete(
        reference, g.archetypes[reference], ProfilesOf(g.profiles), ProvidersOf(c, g).Keys);
    }
  }

  function SelectedLeaves(a: Archetype): set<Path> {
    ArchetypeLeaves(a) + RoleLeaves(a.roles.Keys)
  }

  /** The origins after the archetype, the project and the operator have had their say. */
  function AllLayers(g: GlobalConfig, p: Overrides, o: Overrides, d: Definer): Path -> Origin {
    Over(SuppliedPolicy(o.roles, o.roles.Keys), RestrictionOrigins(Operator, g.profiles, o.roles),
         Over(SuppliedLimits(o.limits), LayerOrigins(Operator),
              Over(SuppliedPolicy(p.roles, p.roles.Keys), RestrictionOrigins(Project, g.profiles, p.roles),
                   Over(SuppliedLimits(p.limits), LayerOrigins(Project),
                        Over(SelectedLeaves(d.archetype), d.Origins(), TrustedOrigins(g))))))
  }

  lemma OverAt(fields: set<Path>, top: Path -> Origin, base: Path -> Origin, leaf: Path)
    ensures Over(fields, top, base)(leaf) == if leaf in fields then top(leaf) else base(leaf)
  {
  }

  /** One leaf through all layers. */
  lemma LayersAt(g: GlobalConfig, p: Overrides, o: Overrides, d: Definer, leaf: Path)
    ensures AllLayers(g, p, o, d)(leaf) ==
              if leaf in SuppliedPolicy(o.roles, o.roles.Keys) then RestrictionOrigin(Operator, g.profiles, o.roles, leaf)
              else if leaf in SuppliedLimits(o.limits) then Direct(Operator, leaf)
              else if leaf in SuppliedPolicy(p.roles, p.roles.Keys) then RestrictionOrigin(Project, g.profiles, p.roles, leaf)
              else if leaf in SuppliedLimits(p.limits) then Direct(Project, leaf)
              else if leaf in SelectedLeaves(d.archetype) then d.OriginOf(leaf)
              else TrustedOriginOf(g, leaf)
  {
    var selected := Over(SelectedLeaves(d.archetype), d.Origins(), TrustedOrigins(g));
    OverAt(SelectedLeaves(d.archetype), d.Origins(), TrustedOrigins(g), leaf);
    var limited := Over(SuppliedLimits(p.limits), LayerOrigins(Project), selected);
    OverAt(SuppliedLimits(p.limits), LayerOrigins(Project), selected, leaf);
    var restricted := Over(SuppliedPolicy(p.roles, p.roles.Keys), RestrictionOrigins(Project, g.profiles, p.roles), limited);
    OverAt(SuppliedPolicy(p.roles, p.roles.Keys), RestrictionOrigins(Project, g.profiles, p.roles), limited, leaf);
    var operated := Over(SuppliedLimits(o.limits), LayerOrigins(Operator), restricted);
    OverAt(SuppliedLimits(o.limits), LayerOrigins(Operator), restricted, leaf);
    OverAt(SuppliedPolicy(o.roles, o.roles.Keys), RestrictionOrigins(Operator, g.profiles, o.roles), operated, leaf);
  }

  lemma PolicyLayersAt(g: GlobalConfig, p: Overrides, o: Overrides, d: Definer, leaf: Path)
    requires leaf.AllowedRoots? || leaf.ProviderCommand? || leaf.LimitOf? || leaf.SupervisionOf?
    ensures AllLayers(g, p, o, d)(leaf) == OriginUnder(g, p, o, d, leaf)
  {
    assert AllLayers(g, p, o, d)(leaf) ==
        (if leaf in SuppliedLimits(o.limits) then Direct(Operator, leaf)
         else if leaf in SuppliedLimits(p.limits) then Direct(Project, leaf)
         else TrustedOriginOf(g, leaf)) by {
      LayersAt(g, p, o, d, leaf);
      PolicyIsNoRole(o.roles, leaf);
      PolicyIsNoRole(p.roles, leaf);
      PolicyIsNotSelected(d.archetype, leaf);
    }
    LimitsThroughLayers(g, p, o, d, leaf);
  }

  lemma PolicyIsNotSelected(a: Archetype, leaf: Path)
    requires leaf.AllowedRoots? || leaf.ProviderCommand? || leaf.LimitOf? || leaf.SupervisionOf?
    ensures leaf !in SelectedLeaves(a)
  {
  }

  lemma LimitsThroughLayers(g: GlobalConfig, p: Overrides, o: Overrides, d: Definer, leaf: Path)
    requires leaf.AllowedRoots? || leaf.ProviderCommand? || leaf.LimitOf? || leaf.SupervisionOf?
    ensures OriginUnder(g, p, o, d, leaf) ==
              if leaf in SuppliedLimits(o.limits) then Direct(Operator, leaf)
              else if leaf in SuppliedLimits(p.limits) then Direct(Project, leaf)
              else TrustedOriginOf(g, leaf)
  {
  }

  lemma PolicyIsNoRole(restrictions: map<Name, Restriction>, leaf: Path)
    requires leaf.AllowedRoots? || leaf.ProviderCommand? || leaf.LimitOf? || leaf.SupervisionOf?
    ensures leaf !in SuppliedPolicy(restrictions, restrictions.Keys)
  {
  }

  lemma ArchetypeLayersAt(g: GlobalConfig, p: Overrides, o: Overrides, d: Definer, leaf: Path)
    requires leaf in SelectedLeaves(d.archetype)
    ensures AllLayers(g, p, o, d)(leaf) == OriginUnder(g, p, o, d, leaf)
  {
    assert AllLayers(g, p, o, d)(leaf) ==
        (if Restricts(o.roles, leaf) then RestrictionOrigin(Operator, g.profiles, o.roles, leaf)
         else if Restricts(p.roles, leaf) then RestrictionOrigin(Project, g.profiles, p.roles, leaf)
         else d.OriginOf(leaf)) by {
      LayersAt(g, p, o, d, leaf);
      RestrictedLeaves(o, leaf);
      RestrictedLeaves(p, leaf);
      SelectedIsNoPolicy(d.archetype, leaf);
    }
    SelectedIsNoPolicy(d.archetype, leaf);
  }

  lemma RestrictedLeaves(overrides: Overrides, leaf: Path)
    ensures leaf in SuppliedPolicy(overrides.roles, overrides.roles.Keys) <==> Restricts(overrides.roles, leaf)
    ensures leaf in SuppliedLimits(overrides.limits) ==> leaf.LimitOf?
  {
  }

  lemma SelectedIsNoPolicy(a: Archetype, leaf: Path)
    requires leaf in SelectedLeaves(a)
    ensures !leaf.AllowedRoots? && !leaf.ProviderCommand? && !leaf.LimitOf? && !leaf.SupervisionOf?
  {
  }

  /** The leaves of a configuration with these providers, this archetype and its roles. */
  function AllLeaves(providers: set<Name>, a: Archetype): set<Path> {
    {AllowedRoots} + ProviderLeaves(providers) + LIMIT_LEAVES + SUPERVISION_LEAVES + SelectedLeaves(a)
  }

  lemma AllOriginsCompose(g: GlobalConfig, p: Overrides, o: Overrides, d: Definer, providers: set<Name>)
    ensures forall leaf | leaf in AllLeaves(providers, d.archetype) ::
              AllLayers(g, p, o, d)(leaf) == OriginUnder(g, p, o, d, leaf)
  {
    hide AllLayers, OriginUnder;
    forall leaf | leaf in AllLeaves(providers, d.archetype)
      ensures AllLayers(g, p, o, d)(leaf) == OriginUnder(g, p, o, d, leaf)
    {
      if leaf in SelectedLeaves(d.archetype) {
        ArchetypeLayersAt(g, p, o, d, leaf);
      } else {
        PolicyLayersAt(g, p, o, d, leaf);
      }
    }
  }

  /** The fields that overrides assign are already recorded. */
  lemma OverridesAddNoField(a: Archetype, overrides: Overrides, providers: set<Name>)
    requires overrides.roles.Keys <= a.roles.Keys
    ensures AllLeaves(providers, a) + SuppliedLimits(overrides.limits)
            + SuppliedPolicy(overrides.roles, overrides.roles.Keys) == AllLeaves(providers, a)
  {
    LimitsAndBoundsAreListed();
    assert SuppliedLimits(overrides.limits) <= LIMIT_LEAVES;
    assert SuppliedPolicy(overrides.roles, overrides.roles.Keys) <= RoleLeaves(a.roles.Keys);
  }

  /** Applies one layer's limits and restrictions to the selected archetype. */
  method ApplyOverrides(
      overrides: Overrides, current: Limits, trusted: Limits, inputs: map<Name, ProfileInput>, layer: Layer,
      effective: EffectiveConfig, ghost fields: set<Path>, ghost origins: Path -> Origin)
    returns (r: Option<Limits>)
    requires ProfilesOk(inputs) && Complete(effective.archetype) && WithinArchetype(effective.archetype, effective.roles)
    requires BelowLimits(current, trusted) && Exactly(effective.record.entries, fields, origins)
    modifies effective, effective.record
    ensures r.Some? <==>
              LimitsOk(overrides.limits, Some(trusted))
              && RestrictionsOk(effective.archetype, ProfilesOf(inputs), overrides.roles)
    ensures r.Some? ==> r.value == Overridden(current, overrides.limits) && BelowLimits(r.value, trusted)
    ensures r.Some? ==> effective.roles == RestrictedRoles(old(effective.roles), ProfilesOf(inputs), overrides.roles)
    ensures r.Some? ==> WithinArchetype(effective.archetype, effective.roles)
    ensures r.Some? ==>
              Exactly(effective.record.entries,
                      fields + SuppliedLimits(overrides.limits) + SuppliedPolicy(overrides.roles, overrides.roles.Keys),
                      Over(SuppliedPolicy(overrides.roles, overrides.roles.Keys),
                           RestrictionOrigins(layer, inputs, overrides.roles),
                           Over(SuppliedLimits(overrides.limits), LayerOrigins(layer), origins)))
  {
    var limits := ApplyLimits(current, overrides.limits, Some(trusted), layer, effective.record);
    if limits.None? {
      return None;
    }
    ghost var limited := effective.record.entries;
    Overlaid(old(effective.record.entries), limited, fields, origins, SuppliedLimits(overrides.limits), LayerOrigins(layer));
    var ok := effective.ApplyRoles(overrides.roles, ProfilesOf(inputs), inputs, layer);
    if !ok {
      return None;
    }
    Overlaid(limited, effective.record.entries, fields + SuppliedLimits(overrides.limits),
             Over(SuppliedLimits(overrides.limits), LayerOrigins(layer), origins),
             SuppliedPolicy(overrides.roles, overrides.roles.Keys), RestrictionOrigins(layer, inputs, overrides.roles));
    r := limits;
  }

  /** A role nobody restricts has exactly its archetype's authority. */
  lemma UnrestrictedRolesAreWithin(a: Archetype)
    requires Complete(a)
    ensures WithinArchetype(a, UnrestrictedRoles(a))
  {
  }

  // ----- Resolving -----

  lemma SelectorsAreDefined(c: Defaults, g: GlobalConfig, p: Overrides, o: Overrides)
    requires Sound(c) && SelectorOk(c, g, g.archetype) && SelectorOk(c, g, p.archetype) && SelectorOk(c, g, o.archetype)
    ensures IsDefined(c, g, ReferenceOf(c, g, p, o))
  {
  }

  lemma LeavesOfTheResult(c: Defaults, g: GlobalConfig, p: Overrides, o: Overrides)
    requires Sound(c) && ArchetypesOk(c, g) && IsDefined(c, g, ReferenceOf(c, g, p, o))
    ensures Leaves(EffectiveOf(c, g, p, o)) ==
              AllLeaves(ProvidersOf(c, g).Keys, DefinitionOf(c, g, ReferenceOf(c, g, p, o)))
  {
    FinalRoleNames(c, g, p, o);
    LeavesAre(EffectiveOf(c, g, p, o));
  }

  lemma FinalRoleNames(c: Defaults, g: GlobalConfig, p: Overrides, o: Overrides)
    requires Sound(c) && ArchetypesOk(c, g) && IsDefined(c, g, ReferenceOf(c, g, p, o))
    ensures FinalRoles(c, g, p, o).Keys == DefinitionOf(c, g, ReferenceOf(c, g, p, o)).roles.Keys
  {
    DefinitionsAreComplete(c, g, ReferenceOf(c, g, p, o));
  }

  lemma LeavesAre(e: Effective)
    requires e.roles.Keys == e.archetype.roles.Keys
    ensures Leaves(e) == AllLeaves(e.providers.Keys, e.archetype)
  {
  }

  /** Resolves all authority, or refuses; and records where every resolved value comes from. */
  method Resolve(c: Defaults, g: GlobalConfig, p: Overrides, o: Overrides)
    returns (r: Option<(Effective, Entries)>)
    requires Sound(c)
    ensures r.Some? <==> Acceptable(c, g, p, o)
    ensures r.Some? ==> r.value.0 == EffectiveOf(c, g, p, o)
    ensures r.Some? ==> r.value.1.Keys == Leaves(r.value.0)
    ensures r.Some? ==> forall leaf | leaf in r.value.1 :: r.value.1[leaf] == OriginOf(c, g, p, o, leaf)
  {
    hide ArchetypeOk, PolicyOk, OverridesOk, FinalRoles, ProfileOk, ValidReference, ProvidersOf, SupervisionFor,
         TrustedLimits, Overridden, Leaves, AllLeaves, TrustedLeaves, ResolvedArchetype, RootsOf;
    var record := new Record();
    var trusted := ResolveTrusted(c, g, record);
    if trusted.None? {
      return None;
    }
    var (providers, limits, supervision) := trusted.value;
    var profiles := ResolveProfiles(g.profiles);
    if profiles.None? {
      return None;
    }
    assert profiles.value.Keys == g.profiles.Keys;
    var archetypes := ResolveArchetypes(c, g, profiles.value, providers);
    if archetypes.None? {
      return None;
    }
    AllArchetypesAreDefined(c, g, archetypes.value);
    if (g.archetype.Some? && g.archetype.value !in archetypes.value)
       || (p.archetype.Some? && p.archetype.value !in archetypes.value)
       || (o.archetype.Some? && o.archetype.value !in archetypes.value) {
      return None;
    }
    SelectorsAreDefined(c, g, p, o);
    var reference := ReferenceOf(c, g, p, o);
    var archetype := archetypes.value[reference];
    DefinedArchetype(c, g, archetypes.value, reference);
    var resolved := ResolveSelected(c, g, p, o, archetype, limits, record);
    if resolved.None? {
      return None;
    }
    var (finalLimits, roles) := resolved.value;
    LeavesOfTheResult(c, g, p, o);
    r := Some((Effective(archetype, providers, RootsOf(g), finalLimits, supervision, roles), record.entries));
  }

  /** Records the selected archetype and applies the project's and then the operator's overrides to it. */
  method ResolveSelected(
      c: Defaults, g: GlobalConfig, p: Overrides, o: Overrides, archetype: Archetype, trusted: Limits, record: Record)
    returns (r: Option<(Limits, map<Name, EffectiveRole>)>)
    requires Sound(c) && ArchetypesOk(c, g) && IsDefined(c, g, ReferenceOf(c, g, p, o))
    requires archetype == DefinitionOf(c, g, ReferenceOf(c, g, p, o)) && trusted == TrustedLimits(c, g)
    requires Exactly(record.entries, TrustedLeaves(c, g), TrustedOrigins(g))
    modifies record
    ensures r.Some? <==> OverridesOk(c, g, p, o)
    ensures r.Some? ==> r.value == (Overridden(Overridden(trusted, p.limits), o.limits), FinalRoles(c, g, p, o))
    ensures r.Some? ==> record.entries.Keys == AllLeaves(ProvidersOf(c, g).Keys, archetype)
    ensures r.Some? ==> forall leaf | leaf in record.entries :: record.entries[leaf] == OriginOf(c, g, p, o, leaf)
  {
    hide HonorsWorkspaces, AllowsUnrestricted, DefinitionOf, ProvidersOf, LimitsOk, RestrictionsOk, RestrictedRoles,
         UnrestrictedRoles, Exactly, Overlays;
    DefinitionsAreComplete(c, g, ReferenceOf(c, g, p, o));
    SelectionIsRecordable(c, g, p, o);
    var definer := DefinerOf(c, g, p, o);
    record.RecordArchetype(definer);
    Overlaid(old(record.entries), record.entries, TrustedLeaves(c, g), TrustedOrigins(g),
             SelectedLeaves(archetype), definer.Origins());
    var effective := new EffectiveConfig(archetype, record);
    var limits := ApplyBoth(g, p, o, trusted, definer, effective, ProvidersOf(c, g).Keys);
    if limits.None? {
      return None;
    }
    if !HonorsWorkspaces(archetype, effective.roles)
       || !AllowsUnrestricted(effective.roles, TrustedSelection(g, o), ReferenceOf(c, g, p, o)) {
      return None;
    }
    r := Some((limits.value, effective.roles));
  }

  /** Applies the project's and then the operator's overrides. */
  method ApplyBoth(
      g: GlobalConfig, p: Overrides, o: Overrides, trusted: Limits, ghost d: Definer, effective: EffectiveConfig,
      ghost providers: set<Name>)
    returns (r: Option<Limits>)
    requires ProfilesOk(g.profiles) && Complete(effective.archetype) && effective.archetype == d.archetype
    requires effective.roles == UnrestrictedRoles(effective.archetype)
    requires Exactly(effective.record.entries, AllLeaves(providers, d.archetype),
                     Over(SelectedLeaves(d.archetype), d.Origins(), TrustedOrigins(g)))
    modifies effective, effective.record
    ensures r.Some? <==>
              && LimitsOk(p.limits, Some(trusted)) && RestrictionsOk(effective.archetype, ProfilesOf(g.profiles), p.roles)
              && LimitsOk(o.limits, Some(trusted)) && RestrictionsOk(effective.archetype, ProfilesOf(g.profiles), o.roles)
    ensures r.Some? ==> r.value == Overridden(Overridden(trusted, p.limits), o.limits)
    ensures r.Some? ==>
              effective.roles ==
                RestrictedRoles(RestrictedRoles(UnrestrictedRoles(effective.archetype), ProfilesOf(g.profiles), p.roles),
                                ProfilesOf(g.profiles), o.roles)
    ensures r.Some? ==> effective.record.entries.Keys == AllLeaves(providers, d.archetype)
    ensures r.Some? ==>
              forall leaf | leaf in effective.record.entries ::
                effective.record.entries[leaf] == OriginUnder(g, p, o, d, leaf)
  {
    hide Over, OriginUnder, AllLeaves, RestrictedRoles, Overridden, LimitsOk, SuppliedLimits, SuppliedPolicy;
    ghost var origins := Over(SelectedLeaves(d.archetype), d.Origins(), TrustedOrigins(g));
    ghost var fields := AllLeaves(providers, d.archetype);
    UnrestrictedRolesAreWithin(effective.archetype);
    var limits := ApplyOverrides(p, trusted, trusted, g.profiles, Project, effective, fields, origins);
    if limits.None? {
      return None;
    }
    OverridesAddNoField(effective.archetype, p, providers);
    origins := Over(SuppliedPolicy(p.roles, p.roles.Keys), RestrictionOrigins(Project, g.profiles, p.roles),
                    Over(SuppliedLimits(p.limits), LayerOrigins(Project), origins));
    limits := ApplyOverrides(o, limits.value, trusted, g.profiles, Operator, effective, fields, origins);
    if limits.None? {
      return None;
    }
    OverridesAddNoField(effective.archetype, o, providers);
    AllOriginsCompose(g, p, o, d, providers);
    r := limits;
  }
}
