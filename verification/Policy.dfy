/** Policy intersection, and the order whose greatest lower bounds it takes (src/config/policy.rs). */
module Policy {
  import opened Bytes
  import opened Configuration

  function IntersectProfiles(a: Profile, b: Profile): Profile {
    var approvals := if a.approvals == b.approvals && a.reviewer == b.reviewer then a.approvals else Never;
    Profile(
      if a.filesystem == b.filesystem || b.filesystem == Unrestricted then a.filesystem
      else if a.filesystem == Unrestricted then b.filesystem
      else ReadOnlyFiles,
      if a.network == b.network then a.network else Deny,
      approvals,
      if approvals == Interactive then a.reviewer else User)
  }

  function Smaller(a: nat, b: nat): nat {
    if a < b then a else b
  }

  function IntersectLimits(a: Limits, b: Limits): Limits {
    Limits(Smaller(a.concurrentAgents, b.concurrentAgents),
           Smaller(a.agentsPerRun, b.agentsPerRun),
           Smaller(a.spawnsPerMinute, b.spawnsPerMinute))
  }

  function IntersectRoles(a: EffectiveRole, b: EffectiveRole): EffectiveRole {
    EffectiveRole(
      a.enabled && b.enabled,
      match (a.maxInstances, b.maxInstances)
      case (Some(x), Some(y)) => Some(Smaller(x, y))
      case (None, other) => other
      case (other, None) => other,
      IntersectProfiles(a.profile, b.profile))
  }

  // ----- The order of authority -----

  /** Automatic review has no meaning without interactive approvals; such profiles are never resolved. */
  predicate ValidProfile(p: Profile) {
    p.reviewer == AutoReview ==> p.approvals == Interactive
  }

  /** Reading is below every other access, and everything is below unrestricted access. */
  predicate BelowFilesystem(a: Filesystem, b: Filesystem) {
    a == b || a == ReadOnlyFiles || b == Unrestricted
  }

  predicate BelowProfile(a: Profile, b: Profile) {
    && BelowFilesystem(a.filesystem, b.filesystem)
    && (a.network == b.network || a.network == Deny)
    && (a.approvals == Never || (a.approvals == b.approvals && a.reviewer == b.reviewer))
  }

  /** An absent capacity is no bound of its own. */
  predicate BelowCapacity(a: Option<nat>, b: Option<nat>) {
    b.None? || (a.Some? && a.value <= b.value)
  }

  predicate BelowLimits(a: Limits, b: Limits) {
    forall limit :: a.Get(limit) <= b.Get(limit)
  }

  /** Intersecting profiles gives the most permissive profile that neither of them exceeds. */
  lemma IntersectionIsTheMeet(a: Profile, b: Profile, c: Profile)
    requires ValidProfile(a) && ValidProfile(b) && ValidProfile(c)
    ensures ValidProfile(IntersectProfiles(a, b))
    ensures BelowProfile(c, IntersectProfiles(a, b)) <==> BelowProfile(c, a) && BelowProfile(c, b)
    ensures IntersectProfiles(a, b) == a <==> BelowProfile(a, b)
  {
  }

  /** A profile that contradicts itself is not even below itself, so it must be refused earlier. */
  lemma ContradictoryProfilesExceedThemselves(p: Profile)
    ensures IntersectProfiles(p, p) == p <==> ValidProfile(p)
  {
  }
}
