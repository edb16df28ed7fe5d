/** The values compiled into the program (src/config.rs). */
module CompiledDefaults {
  import opened Bytes
  import opened Configuration
  import opened ResolutionRules

  const STANDARD := "builtin:standard@1"

  const DEFAULT_PROVIDERS: map<Name, Command> := map["codex" := ["codex"]]

  const DEFAULT_LIMITS := Limits(8, 16, 8)

  const DEFAULT_SUPERVISION := Supervision(60, 3, 1, 30, 3600, 250, 5000, 60)

  const STANDARD_LEAD_INSTRUCTIONS :=
    "Coordinate work through Coterie. Delegate independent implementation and\nreview tasks when useful, and report consolidated outcomes to the user."

  const BUILTIN_STANDARD := Archetype(
    STANDARD, "lead",
    map["interactive" := Profile(ProjectWrite, ProviderDefault, Interactive, User),
        "worker" := Profile(WorkspaceWrite, Deny, Never, User),
        "review" := Profile(ReadOnlyFiles, Deny, Never, User)],
    map["lead" := RoleDefinition(
          "codex", InteractiveMode, None, ProjectWorkspace, "interactive", Some(STANDARD_LEAD_INSTRUCTIONS),
          [Grant("spawn", "worker"), Grant("spawn", "reviewer"), Grant("send", "*"), Grant("task", "*"),
           Grant("logs", "*"), Grant("project", "attach"), Grant("workspace", "integrate")]),
        "worker" := RoleDefinition(
          "codex", JobMode, Some(3), WorktreeWorkspace, "worker", None,
          [Grant("send", "lead"), Grant("send", "peer"), Grant("task", "read"), Grant("task", "claim"),
           Grant("task", "comment")]),
        "reviewer" := RoleDefinition(
          "codex", JobMode, Some(1), ReadOnlyWorkspace, "review", None,
          [Grant("send", "lead"), Grant("task", "read"), Grant("task", "comment")])])

  const COMPILED := Defaults(STANDARD, DEFAULT_PROVIDERS, DEFAULT_LIMITS, DEFAULT_SUPERVISION, BUILTIN_STANDARD)

  /** The compiled values fit together. */
  lemma CompiledDefaultsAreSound()
    ensures Sound(COMPILED)
  {
    forall name | name in BUILTIN_STANDARD.roles
      ensures BUILTIN_STANDARD.roles[name].profile in BUILTIN_STANDARD.profiles
    {
      assert name == "lead" || name == "worker" || name == "reviewer";
    }
  }

  /** No global definition can take the place of the builtin one. */
  lemma BuiltinIsReserved(g: GlobalConfig)
    requires ReferencesOk(g)
    ensures STANDARD !in g.archetypes
  {
    assert !ValidReference(STANDARD, "global");
  }
}
