/**
 * The role model: a clearance level (0 banned, 1-3 member tiers,
 * 4 moderator, 5 administrator, 6 and above owner) projected onto a title,
 * a badge style and the capability flags every view gates on.
 */
module UserRole {
  import opened Wrappers
  import opened Identity

  /** The badge styles `getRoleColor` chooses between (their class strings are not modelled). */
  datatype RoleStyle =
    | OwnerStyle | AdministratorStyle | ModeratorStyle
    | MemberIIIStyle | MemberIIStyle | MemberStyle
    | BannedStyle | DefaultStyle

  /** `getRoleName`: the title of a clearance level. */
  function RoleName(level: int): (r: string)
    ensures r == "Owner" <==> level >= 6
    ensures r == "Administrator" <==> level == 5
    ensures r == "Moderator" <==> level == 4
    ensures r == "Member III" <==> level == 3
    ensures r == "Member II" <==> level == 2
    ensures r == "Member" <==> level == 1
    ensures r == "Banned" <==> level <= 0
  {
    if level >= 6 then "Owner"
    else if level == 5 then "Administrator"
    else if level == 4 then "Moderator"
    else if level == 3 then "Member III"
    else if level == 2 then "Member II"
    else if level == 1 then "Member"
    else "Banned"
  }

  /** `getRoleColor`: the badge style of a clearance level; only 0 gets the banned style. */
  function RoleColor(level: int): (r: RoleStyle)
    ensures r == OwnerStyle <==> level >= 6
    ensures r == AdministratorStyle <==> level == 5
    ensures r == ModeratorStyle <==> level == 4
    ensures r == MemberIIIStyle <==> level == 3
    ensures r == MemberIIStyle <==> level == 2
    ensures r == MemberStyle <==> level == 1
    ensures r == BannedStyle <==> level == 0
    ensures r == DefaultStyle <==> level < 0
  {
    if level >= 6 then OwnerStyle
    else if level == 5 then AdministratorStyle
    else if level == 4 then ModeratorStyle
    else if level == 3 then MemberIIIStyle
    else if level == 2 then MemberIIStyle
    else if level == 1 then MemberStyle
    else if level == 0 then BannedStyle
    else DefaultStyle
  }

  /**
   * On non-negative levels the title and the style tell the same story:
   * two levels share a title exactly when they share a style. Below zero
   * they part: the title is "Banned" but the style is the default one.
   */
  lemma NameAgreesWithStyle(a: int, b: int)
    ensures a >= 0 && b >= 0 ==> (RoleName(a) == RoleName(b) <==> RoleColor(a) == RoleColor(b))
    ensures a < 0 ==> RoleName(a) == RoleName(0) && RoleColor(a) != RoleColor(0)
  {
    if a >= 0 && b >= 0 {
      if RoleName(a) == RoleName(b) {
        assert a == b || (a >= 6 && b >= 6);
      }
    }
  }

  /** `user?.level ?? 1`: a missing user or level reads as 1, an explicit 0 is kept. */
  function EffectiveLevel(user: Option<User>): (level: int)
    ensures user.Some? && user.value.level.Some? ==> level == user.value.level.value
    ensures user.None? || user.value.level.None? ==> level == 1
  {
    if user.Some? then user.value.level.GetOr(1) else 1
  }

  /** `controlPercentage`: the share of the console a level controls. */
  function ControlPercentage(level: int): (r: int)
    ensures 0 <= r <= 100
    ensures r == 100 <==> level >= 6
    ensures r == 60 <==> level == 5
    ensures r == 30 <==> level == 4
    ensures r == 0 <==> level < 4
  {
    if level >= 6 then 100 else if level == 5 then 60 else if level == 4 then 30 else 0
  }

  /** The record `useUserRole` returns. */
  datatype Role = Role(
    level: int,
    roleNumber: int,
    roleName: string,
    roleColor: RoleStyle,
    isBanned: bool,
    isUser: bool,
    isModerator: bool,
    isAdmin: bool,
    isOwner: bool,
    canPostEvents: bool,
    canModerate: bool,
    canManageUsers: bool,
    canAccessSystem: bool,
    controlPercentage: int)

  /** The record for a level that has already been defaulted. */
  function RoleOf(level: int): Role {
    Role(
      level, level, RoleName(level), RoleColor(level),
      level == 0, level >= 1, level >= 4, level >= 5, level >= 6,
      level >= 1, level >= 4, level >= 5, level >= 6,
      ControlPercentage(level))
  }

  /** `useUserRole()` for the signed-in user `user`. */
  function UseUserRole(user: Option<User>): (r: Role)
    ensures r.level == r.roleNumber == EffectiveLevel(user)
    ensures user.Some? && user.value.level == Some(0) ==> r.isBanned && !r.isUser
    ensures user.None? ==> r.isUser && !r.isModerator && r.roleName == "Member"
  {
    RoleOf(EffectiveLevel(user))
  }

  /** The capability thresholds, and which flags are the same flag. */
  lemma Thresholds(level: int)
    ensures RoleOf(level).isBanned <==> level == 0
    ensures RoleOf(level).isUser <==> level >= 1
    ensures RoleOf(level).canPostEvents == RoleOf(level).isUser
    ensures RoleOf(level).isModerator == RoleOf(level).canModerate == (level >= 4)
    ensures RoleOf(level).isAdmin == RoleOf(level).canManageUsers == (level >= 5)
    ensures RoleOf(level).isOwner == RoleOf(level).canAccessSystem == (level >= 6)
    ensures RoleOf(level).roleName == RoleName(level) && RoleOf(level).roleColor == RoleColor(level)
  {
  }

  /** Every capability flag of `weaker` is also a flag of `stronger`. */
  predicate Covers(stronger: Role, weaker: Role) {
    && (weaker.isUser ==> stronger.isUser)
    && (weaker.isModerator ==> stronger.isModerator)
    && (weaker.isAdmin ==> stronger.isAdmin)
    && (weaker.isOwner ==> stronger.isOwner)
    && (weaker.canPostEvents ==> stronger.canPostEvents)
    && (weaker.canModerate ==> stronger.canModerate)
    && (weaker.canManageUsers ==> stronger.canManageUsers)
    && (weaker.canAccessSystem ==> stronger.canAccessSystem)
    && weaker.controlPercentage <= stronger.controlPercentage
  }

  /** No capability, and no share of control, is lost by rising a level. */
  lemma Monotonic(low: int, high: int)
    requires low <= high
    ensures Covers(RoleOf(high), RoleOf(low))
  {
  }

  /** A banned level holds no capability at all; a negative one is not even banned. */
  lemma BannedHoldsNothing(level: int)
    requires level <= 0
    ensures !RoleOf(level).isUser && !RoleOf(level).canPostEvents && !RoleOf(level).isModerator
    ensures !RoleOf(level).canModerate && !RoleOf(level).canManageUsers && !RoleOf(level).canAccessSystem
    ensures RoleOf(level).controlPercentage == 0
    ensures RoleOf(level).isBanned <==> level == 0
  {
  }

  /** Each rank implies the ones beneath it: owner, then administrator, then moderator, then user. */
  lemma RanksNest(level: int)
    ensures RoleOf(level).isOwner ==> RoleOf(level).isAdmin
    ensures RoleOf(level).isAdmin ==> RoleOf(level).isModerator
    ensures RoleOf(level).isModerator ==> RoleOf(level).isUser
    ensures RoleOf(level).isBanned ==> !RoleOf(level).isUser
  {
  }
}
