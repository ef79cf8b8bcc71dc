// Guild permission bits and channel permission overwrites, as used by the cache's
// permission computation. The permission constants and the overwrite list type live in
// files that are not part of this model; the bit positions below are the conventional
// ones for these three permissions, and PermissionsAll is the full 64-bit mask.
module Permissions {
  import opened Snowflakes
  import opened Wrappers

  type Permissions = bv64

  const PermissionsNone: Permissions := 0
  const PermissionAdministrator: Permissions := 1 << 3
  const PermissionViewChannel: Permissions := 1 << 10
  const PermissionReadMessageHistory: Permissions := 1 << 16
  const PermissionsAll: Permissions := 0xFFFF_FFFF_FFFF_FFFF

  /** The two permissions a timed-out member keeps. */
  const TimeoutMask: Permissions := PermissionViewChannel | PermissionReadMessageHistory

  predicate HasAll(p: Permissions, bits: Permissions) { p & bits == bits }

  /** A role overwrite or a member overwrite, each with an allow and a deny mask. */
  datatype PermissionOverwrite =
    | RoleOverwrite(roleID: ID, allow: Permissions, deny: Permissions)
    | MemberOverwrite(userID: ID, allow: Permissions, deny: Permissions)

  /** PermissionOverwrites.Role(id): the first role overwrite for that role. */
  function RoleOverwriteFor(ows: seq<PermissionOverwrite>, roleID: ID): (r: Option<PermissionOverwrite>)
    ensures r.Some? ==> r.value.RoleOverwrite? && r.value.roleID == roleID && r.value in ows
    ensures r.None? <==> forall i :: 0 <= i < |ows| ==> !(ows[i].RoleOverwrite? && ows[i].roleID == roleID)
    decreases |ows|
  {
    if ows == [] then None
    else if ows[0].RoleOverwrite? && ows[0].roleID == roleID then Some(ows[0])
    else RoleOverwriteFor(ows[1..], roleID)
  }

  /** PermissionOverwrites.Member(id): the first member overwrite for that user. */
  function MemberOverwriteFor(ows: seq<PermissionOverwrite>, userID: ID): (r: Option<PermissionOverwrite>)
    ensures r.Some? ==> r.value.MemberOverwrite? && r.value.userID == userID && r.value in ows
    ensures r.None? <==> forall i :: 0 <= i < |ows| ==> !(ows[i].MemberOverwrite? && ows[i].userID == userID)
    decreases |ows|
  {
    if ows == [] then None
    else if ows[0].MemberOverwrite? && ows[0].userID == userID then Some(ows[0])
    else MemberOverwriteFor(ows[1..], userID)
  }
}
