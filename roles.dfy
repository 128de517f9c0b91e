/**
 * Types/Guild/GuildRole.swift: a guild role and the permission flags it
 * grants. `Permissions` is an option set defined outside this package; it
 * is modelled as the set of Discord's permission bit positions it holds,
 * so `formUnion` is set union and `contains` is membership.
 */
module GuildRoles {
  import opened Snowflakes

  type Permissions = set<nat>

  /** `.administrator`, the flag 0x8. */
  const Administrator: nat := 3
  /** `.manageChannels`, the flag 0x10. */
  const ManageChannels: nat := 4

  datatype GuildRole = GuildRole(id: Snowflake, name: string, permissions: Permissions)

  /** A role's `snowflakeDescription`. */
  function RoleKey(r: GuildRole): Snowflake {
    r.id
  }
}
