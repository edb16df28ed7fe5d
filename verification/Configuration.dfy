/** Configuration inputs, compiled defaults and effective policy (src/config.rs, src/config/input.rs). */
module Configuration {
  import opened Bytes

  type Name = string

  // ----- Permission profiles -----

  datatype Filesystem = Unrestricted | ProjectWrite | WorkspaceWrite | ReadOnlyFiles

  datatype Network = ProviderDefault | Deny

  datatype Approvals = Interactive | Never

  datatype Reviewer = User | AutoReview

  datatype Profile = Profile(filesystem: Filesystem, network: Network, approvals: Approvals, reviewer: Reviewer)

  datatype ProfileInput = ProfileInput(
    filesystem: Option<Filesystem>, network: Option<Network>, approvals: Option<Approvals>, reviewer: Option<Reviewer>)

  // ----- Limits and supervision -----

  datatype Limit = ConcurrentAgents | AgentsPerRun | SpawnsPerMinute

  datatype Limits = Limits(concurrentAgents: nat, agentsPerRun: nat, spawnsPerMinute: nat) {
    function Get(limit: Limit): nat {
      match limit
      case ConcurrentAgents => concurrentAgents
      case AgentsPerRun => agentsPerRun
      case SpawnsPerMinute => spawnsPerMinute
    }
  }

  datatype LimitOverrides = LimitOverrides(
    concurrentAgents: Option<nat>, agentsPerRun: Option<nat>, spawnsPerMinute: Option<nat>)
  {
    function Get(limit: Limit): Option<nat> {
      match limit
      case ConcurrentAgents => concurrentAgents
      case AgentsPerRun => agentsPerRun
      case SpawnsPerMinute => spawnsPerMinute
    }
  }

  datatype Bound =
    | RestartWindow | LaunchAttempts | RestartBackoff | StartupTimeout
    | JobTimeout | InterruptGrace | ShutdownTimeout | IdleTimeout

  datatype Supervision = Supervision(
    restartWindow: int, launchAttempts: int, restartBackoff: int, startupTimeout: int,
    jobTimeout: int, interruptGrace: int, shutdownTimeout: int, idleTimeout: int)
  {
    function Get(bound: Bound): int {
      match bound
      case RestartWindow => restartWindow
      case LaunchAttempts => launchAttempts
      case RestartBackoff => restartBackoff
      case StartupTimeout => startupTimeout
      case JobTimeout => jobTimeout
      case InterruptGrace => interruptGrace
      case ShutdownTimeout => shutdownTimeout
      case IdleTimeout => idleTimeout
    }

    function Set(bound: Bound, value: int): Supervision {
      match bound
      case RestartWindow => this.(restartWindow := value)
      case LaunchAttempts => this.(launchAttempts := value)
      case RestartBackoff => this.(restartBackoff := value)
      case StartupTimeout => this.(startupTimeout := value)
      case JobTimeout => this.(jobTimeout := value)
      case InterruptGrace => this.(interruptGrace := value)
      case ShutdownTimeout => this.(shutdownTimeout := value)
      case IdleTimeout => this.(idleTimeout := value)
    }
  }

  datatype SupervisionOverrides = SupervisionOverrides(
    restartWindow: Option<int>, launchAttempts: Option<int>, restartBackoff: Option<int>, startupTimeout: Option<int>,
    jobTimeout: Option<int>, interruptGrace: Option<int>, shutdownTimeout: Option<int>, idleTimeout: Option<int>)
  {
    function Get(bound: Bound): Option<int> {
      match bound
      case RestartWindow => restartWindow
      case LaunchAttempts => launchAttempts
      case RestartBackoff => restartBackoff
      case StartupTimeout => startupTimeout
      case JobTimeout => jobTimeout
      case InterruptGrace => interruptGrace
      case ShutdownTimeout => shutdownTimeout
      case IdleTimeout => idleTimeout
    }
  }

  // ----- Archetypes -----

  datatype Mode = InteractiveMode | JobMode

  datatype WorkspacePolicy = ProjectWorkspace | WorktreeWorkspace | ReadOnlyWorkspace

  datatype Grant = Grant(namespace: string, action: string)

  datatype RoleDefinition = RoleDefinition(
    provider: Name, mode: Mode, maxInstances: Option<nat>, workspace: WorkspacePolicy,
    profile: Name, instructions: Option<string>, capabilities: seq<Grant>)

  datatype RoleInput = RoleInput(
    provider: Option<Name>, mode: Option<Mode>, maxInstances: Option<nat>, workspace: Option<WorkspacePolicy>,
    profile: Option<Name>, instructions: Option<string>, capabilities: Option<seq<string>>)

  datatype Archetype = Archetype(
    reference: string, lead: Name, profiles: map<Name, Profile>, roles: map<Name, RoleDefinition>)

  datatype ArchetypeInput = ArchetypeInput(lead: Option<Name>, roles: map<Name, RoleInput>)

  // ----- Inputs and result -----

  datatype Restriction = Restriction(enabled: Option<bool>, maxInstances: Option<nat>, profile: Option<Name>)

  type Command = seq<string>

  datatype GlobalConfig = GlobalConfig(
    archetype: Option<string>, includes: Option<seq<string>>, roots: Option<seq<string>>,
    providers: map<Name, Option<Command>>, limits: LimitOverrides, supervision: SupervisionOverrides,
    profiles: map<Name, ProfileInput>, archetypes: map<string, ArchetypeInput>)

  /** What a project or the operator may ask for. */
  datatype Overrides = Overrides(archetype: Option<string>, limits: LimitOverrides, roles: map<Name, Restriction>)

  datatype EffectiveRole = EffectiveRole(enabled: bool, maxInstances: Option<nat>, profile: Profile)

  datatype Effective = Effective(
    archetype: Archetype, providers: map<Name, Command>, roots: seq<string>,
    limits: Limits, supervision: Supervision, roles: map<Name, EffectiveRole>)

  // ----- Compiled values -----

  /** The operator policy and the sealed archetype that a program version brings along. */
  datatype Defaults = Defaults(
    archetype: string, providers: map<Name, Command>, limits: Limits, supervision: Supervision, builtin: Archetype)

  // ----- Names, references and capabilities -----

  predicate IsNameChar(c: char) {
    'a' <= c <= 'z' || 'A' <= c <= 'Z' || '0' <= c <= '9' || c == '_' || c == '-'
  }

  predicate ValidName(name: string) {
    name != "" && forall c | c in name :: IsNameChar(c)
  }

  /** The parts before and after the first separator. */
  function SplitOnce(text: string, separator: char): (r: Option<(string, string)>)
    ensures r.Some? ==> text == r.value.0 + [separator] + r.value.1 && separator !in r.value.0
    ensures r.None? ==> separator !in text
    decreases |text|
  {
    if text == "" then None
    else if text[0] == separator then Some(("", text[1..]))
    else match SplitOnce(text[1..], separator)
      case None => None
      case Some((before, after)) => Some(([text[0]] + before, after))
  }

  function DecimalValue(digits: string): nat
    requires forall i | 0 <= i < |digits| :: '0' <= digits[i] <= '9'
    decreases |digits|
  {
    if digits == "" then 0
    else DecimalValue(digits[..|digits| - 1]) * 10 + (digits[|digits| - 1] as nat - '0' as nat)
  }

  /** A positive 32-bit number in the one spelling that printing it gives. */
  predicate CanonicalVersion(text: string) {
    && text != "" && text[0] != '0' && (forall i | 0 <= i < |text| :: '0' <= text[i] <= '9')
    && DecimalValue(text) < 0x1_0000_0000
  }

  predicate ValidReference(reference: string, namespace: string) {
    match SplitOnce(reference, ':')
    case None => false
    case Some((prefix, rest)) =>
      match SplitOnce(rest, '@')
      case None => false
      case Some((name, version)) => prefix == namespace && ValidName(name) && CanonicalVersion(version)
  }

  function ParseGrant(text: string): Option<Grant> {
    match SplitOnce(text, ':')
    case None => None
    case Some((namespace, action)) =>
      if (namespace == "spawn" || namespace == "send" || namespace == "task" || namespace == "logs"
          || namespace == "project" || namespace == "workspace") && (action == "*" || ValidName(action))
      then Some(Grant(namespace, action)) else None
  }

  predicate ParsableGrants(texts: seq<string>) {
    forall text | text in texts :: ParseGrant(text).Some?
  }

  function ParsedGrants(texts: seq<string>): (grants: seq<Grant>)
    requires ParsableGrants(texts)
    ensures |grants| == |texts|
  {
    seq(|texts|, i requires 0 <= i < |texts| => ParseGrant(texts[i]).value)
  }

  /** Every grant prints back to the text it was parsed from. */
  lemma GrantsPrintBack(text: string)
    requires ParseGrant(text).Some?
    ensures ParseGrant(text).value.namespace + ":" + ParseGrant(text).value.action == text
  {
  }

  // ----- What names, references and grants look like -----

  /** The ASCII codes of letters, digits, the underscore and the hyphen. */
  predicate IsWordCode(code: int) {
    97 <= code <= 122 || 65 <= code <= 90 || 48 <= code <= 57 || code in {95, 45}
  }

  /** A name is any nonempty text of ASCII letters, digits, underscores and hyphens. */
  lemma NamesAreSpelled(name: string)
    ensures ValidName(name) <==> |name| > 0 && forall i | 0 <= i < |name| :: IsWordCode(name[i] as int)
  {
    if ValidName(name) {
      forall i | 0 <= i < |name|
        ensures IsWordCode(name[i] as int)
      {
        assert name[i] in name;
      }
    }
    if |name| > 0 && forall i | 0 <= i < |name| :: IsWordCode(name[i] as int) {
      forall c | c in name
        ensures IsNameChar(c)
      {
        var i :| 0 <= i < |name| && name[i] == c;
      }
    }
  }

  /** Splitting undoes joining. */
  lemma {:induction false} SplitUndoesJoin(before: string, separator: char, after: string)
    requires separator !in before
    ensures SplitOnce(before + [separator] + after, separator) == Some((before, after))
    decreases |before|
  {
    var text := before + [separator] + after;
    if before == "" {
      assert text[1..] == after;
    } else {
      SplitUndoesJoin(before[1..], separator, after);
      assert text[1..] == before[1..] + [separator] + after && [before[0]] + before[1..] == before;
    }
  }

  function Digit(n: nat): char
    requires n < 10
  {
    ('0' as int + n) as char
  }

  /** The decimal form of a number. */
  function Printed(n: nat): string {
    if n < 10 then [Digit(n)] else Printed(n / 10) + [Digit(n % 10)]
  }

  lemma {:induction false} PrintedReadsBack(n: nat)
    ensures Printed(n) != "" && (forall i | 0 <= i < |Printed(n)| :: '0' <= Printed(n)[i] <= '9')
    ensures DecimalValue(Printed(n)) == n && (n > 0 ==> Printed(n)[0] != '0')
    decreases n
  {
    if n < 10 {
      assert [Digit(n)][..0] == "";
    } else {
      PrintedReadsBack(n / 10);
      assert Printed(n)[..|Printed(n)| - 1] == Printed(n / 10);
    }
  }

  lemma {:induction false} CanonicalDigitsArePrinted(text: string)
    requires text != "" && text[0] != '0' && forall i | 0 <= i < |text| :: '0' <= text[i] <= '9'
    ensures DecimalValue(text) > 0 && Printed(DecimalValue(text)) == text
    decreases |text|
  {
    var n := |text| - 1;
    var last := text[n] as int - '0' as int;
    assert Digit(last) == text[n];
    if n == 0 {
      assert text[..0] == "" && DecimalValue("") == 0;
    } else {
      CanonicalDigitsArePrinted(text[..n]);
      var value := DecimalValue(text);
      assert value == DecimalValue(text[..n]) * 10 + last && value / 10 == DecimalValue(text[..n]) && value % 10 == last;
      assert text == text[..n] + [text[n]];
    }
  }

  /** A version is the printed form of a positive 32-bit number. */
  lemma VersionsArePrinted(text: string)
    ensures CanonicalVersion(text) <==> exists n: nat :: 0 < n < 4294967296 && text == Printed(n)
  {
    if CanonicalVersion(text) {
      CanonicalDigitsArePrinted(text);
    }
    forall n: nat | 0 < n < 4294967296 && text == Printed(n)
      ensures CanonicalVersion(text)
    {
      PrintedReadsBack(n);
    }
  }

  /** A reference is exactly a namespace, a name and a version in their one spelling. */
  lemma ReferencesAreSpelled(reference: string, namespace: string)
    requires ':' !in namespace
    ensures ValidReference(reference, namespace) <==>
              exists name, n: nat :: ValidName(name) && 0 < n < 4294967296
                                     && reference == namespace + [':'] + (name + ['@'] + Printed(n))
  {
    if ValidReference(reference, namespace) {
      var rest := SplitOnce(reference, ':').value.1;
      var (name, version) := SplitOnce(rest, '@').value;
      VersionsArePrinted(version);
      var n: nat :| 0 < n < 4294967296 && version == Printed(n);
      assert rest == name + ['@'] + Printed(n);
    }
    forall name, n: nat | ValidName(name) && 0 < n < 4294967296
                          && reference == namespace + [':'] + (name + ['@'] + Printed(n))
      ensures ValidReference(reference, namespace)
    {
      var rest := name + ['@'] + Printed(n);
      SplitUndoesJoin(namespace, ':', rest);
      assert SplitOnce(reference, ':') == Some((namespace, rest));
      assert '@' !in name;
      SplitUndoesJoin(name, '@', Printed(n));
      assert SplitOnce(rest, '@') == Some((name, Printed(n)));
      PrintedReadsBack(n);
    }
  }

  /** A capability is one of six namespaces and a name, or a star for all actions of the namespace. */
  lemma GrantsAreSpelled(namespace: string, action: string)
    requires ':' !in namespace
    ensures ParseGrant(namespace + [':'] + action) ==
              if namespace in {"spawn", "send", "task", "logs", "project", "workspace"} && (action == "*" || ValidName(action))
              then Some(Grant(namespace, action)) else None
  {
    SplitUndoesJoin(namespace, ':', action);
  }
}
