/** The append-only migration ledger of a run database (src/state.rs). */
module Migrations {

  datatype Migration = Migration(version: int, name: string, source: string)

  datatype LedgerError =
    | UnsupportedSchema(found: int, supported: int)
    | NoncontiguousMigrations(expected: int, found: int)
    | ModifiedMigration(version: int, name: string)

  datatype Outcome = Pending(migrations: seq<Migration>) | Refused(error: LedgerError)

  /** Embedded migrations are numbered from one without gaps, as `MIGRATIONS` is. */
  ghost predicate Numbered(known: seq<Migration>) {
    && known != []
    && forall i | 0 <= i < |known| :: known[i].version == i + 1
  }

  /** What the primary key and `ORDER BY version` guarantee of every ledger that is read. */
  ghost predicate Ordered(applied: seq<Migration>) {
    forall i, j | 0 <= i < j < |applied| :: applied[i].version < applied[j].version
  }

  function Supported(known: seq<Migration>): int
    requires known != []
  {
    known[|known| - 1].version
  }

  lemma {:induction false} OrderedVersionsSpread(applied: seq<Migration>, i: nat)
    requires Ordered(applied) && i < |applied|
    ensures applied[0].version + i <= applied[i].version
  {
    if i > 0 {
      OrderedVersionsSpread(applied, i - 1);
    }
  }

  /** So the slice of pending migrations is always in range. */
  lemma LedgerFits(applied: seq<Migration>, supported: nat)
    requires Ordered(applied)
    ensures applied != [] && applied[0].version == 1 && applied[|applied| - 1].version <= supported
            ==> |applied| <= supported
  {
    if applied != [] {
      OrderedVersionsSpread(applied, |applied| - 1);
    }
  }

  /** A refusal names a defect that the ledger really has. */
  ghost predicate Justified(known: seq<Migration>, applied: seq<Migration>, error: LedgerError)
    requires known != []
  {
    match error
    case UnsupportedSchema(found, supported) =>
      applied != [] && found == applied[|applied| - 1].version && supported == Supported(known) && found > supported
    case NoncontiguousMigrations(expected, found) =>
      exists i | 0 <= i < |known| && i < |applied| ::
        applied[i].version == found && known[i].version == expected && found != expected
    case ModifiedMigration(version, name) =>
      exists i | 0 <= i < |known| && i < |applied| ::
        && applied[i].version == known[i].version == version && applied[i].name == name
        && applied[i] != known[i]
  }

  /** Exactly the ledgers that are prefixes of the embedded list are accepted. */
  method PendingMigrations(known: seq<Migration>, applied: seq<Migration>) returns (outcome: Outcome)
    requires Numbered(known) && Ordered(applied)
    ensures applied <= known ==> outcome == Pending(known[|applied|..])
    ensures !(applied <= known) ==> outcome.Refused? && Justified(known, applied, outcome.error)
  {
    if applied != [] && applied[|applied| - 1].version > Supported(known) {
      return Refused(UnsupportedSchema(applied[|applied| - 1].version, Supported(known)));
    }
    for i := 0 to if |applied| < |known| then |applied| else |known|
      invariant applied[..i] == known[..i]
    {
      if applied[i].version != known[i].version {
        return Refused(NoncontiguousMigrations(known[i].version, applied[i].version));
      }
      if applied[i].name != known[i].name || applied[i].source != known[i].source {
        return Refused(ModifiedMigration(applied[i].version, applied[i].name));
      }
    }
    assert applied != [] ==> applied[0] == known[0];
    LedgerFits(applied, |known|);
    assert applied == applied[..|applied|];
    return Pending(known[|applied|..]);
  }

  function Sources(migrations: seq<Migration>): seq<string> {
    seq(|migrations|, i requires 0 <= i < |migrations| => migrations[i].source)
  }

  /** The ledger after an opening whose process survives `commits` further commits. */
  function Advanced(known: seq<Migration>, ledger: seq<Migration>, commits: nat): seq<Migration> {
    if ledger <= known && |ledger| + commits <= |known| then known[..|ledger| + commits]
    else if ledger <= known then known
    else ledger
  }

  class Database {
    var ledger: seq<Migration>
    // Every script that a committed transaction ran, in order.
    var executed: seq<string>

    ghost predicate Valid()
      reads this
    {
      Ordered(ledger) && executed == Sources(ledger)
    }

    constructor ()
      ensures Valid() && ledger == []
    {
      ledger, executed := [], [];
    }

    /** Applies what is pending; a crash after `commits` commits abandons the open transaction. */
    method Migrate(known: seq<Migration>, commits: nat) returns (outcome: Outcome)
      requires Valid() && Numbered(known)
      modifies this
      ensures Valid() && ledger == Advanced(known, old(ledger), commits)
      ensures old(ledger) <= known <==> outcome.Pending?
      ensures outcome.Pending? ==> outcome.migrations == known[|old(ledger)|..]
    {
      outcome := PendingMigrations(known, ledger);
      if outcome.Refused? {
        return;
      }
      var start := |ledger|;
      for i := 0 to |outcome.migrations|
        invariant Valid() && ledger == known[..start + i]
        invariant i <= commits
      {
        if i == commits {
          return;
        }
        var migration := outcome.migrations[i];
        ledger, executed := ledger + [migration], executed + [migration.source];
      }
    }
  }

  /** The ledger after any number of openings, each crashing after its own number of commits. */
  function Reopened(known: seq<Migration>, ledger: seq<Migration>, crashes: seq<nat>): seq<Migration>
    decreases |crashes|
  {
    if crashes == [] then ledger else Reopened(known, Advanced(known, ledger, crashes[0]), crashes[1..])
  }

  function Sum(crashes: seq<nat>): nat {
    if crashes == [] then 0 else crashes[0] + Sum(crashes[1..])
  }

  /** Whatever crashes, an accepted ledger stays a prefix and counts exactly the commits so far. */
  lemma {:induction false} LedgerIsAlwaysAPrefix(known: seq<Migration>, ledger: seq<Migration>, crashes: seq<nat>)
    requires ledger <= known
    ensures var n := |ledger| + Sum(crashes);
            Reopened(known, ledger, crashes) == known[..if n <= |known| then n else |known|]
    decreases |crashes|
  {
    if crashes != [] {
      LedgerIsAlwaysAPrefix(known, Advanced(known, ledger, crashes[0]), crashes[1..]);
    }
  }

  /** A ledger that is refused once is refused, unchanged, for ever. */
  lemma {:induction false} RefusalIsPermanent(known: seq<Migration>, ledger: seq<Migration>, crashes: seq<nat>)
    requires !(ledger <= known)
    ensures Reopened(known, ledger, crashes) == ledger
  {
    if crashes != [] {
      RefusalIsPermanent(known, ledger, crashes[1..]);
    }
  }

  /** The twenty embedded migrations; each script is identified by its file. */
  const MIGRATIONS: seq<Migration> := [
    Migration(1, "initial", "0001_initial.sql"),
    Migration(2, "claim_invariants", "0002_claim_invariants.sql"),
    Migration(3, "session_credentials", "0003_session_credentials.sql"),
    Migration(4, "durable_messages", "0004_durable_messages.sql"),
    Migration(5, "external_resource_reconciliation", "0005_external_resource_reconciliation.sql"),
    Migration(6, "session_process_ownership", "0006_session_process_ownership.sql"),
    Migration(7, "operation_reconciliation", "0007_operation_reconciliation.sql"),
    Migration(8, "generation_fencing", "0008_generation_fencing.sql"),
    Migration(9, "bounded_supervision", "0009_bounded_supervision.sql"),
    Migration(10, "request_fingerprints", "0010_request_fingerprints.sql"),
    Migration(11, "configuration_snapshots", "0011_configuration_snapshots.sql"),
    Migration(12, "project_root_policy", "0012_project_root_policy.sql"),
    Migration(13, "idle_shutdown_policy", "0013_idle_shutdown_policy.sql"),
    Migration(14, "workspace_bindings", "0014_workspace_bindings.sql"),
    Migration(15, "foreground_process_identity", "0015_foreground_process_identity.sql"),
    Migration(16, "integration_strategy", "0016_integration_strategy.sql"),
    Migration(17, "recovery_handoffs", "0017_recovery_handoffs.sql"),
    Migration(18, "foreground_notifications", "0018_foreground_notifications.sql"),
    Migration(19, "notification_receipts", "0019_notification_receipts.sql"),
    Migration(20, "approval_reviewers", "0020_approval_reviewers.sql")
  ]

  lemma EmbeddedMigrationsAreNumbered()
    ensures Numbered(MIGRATIONS) && |MIGRATIONS| == 20 && Supported(MIGRATIONS) == 20
  {
  }
}
