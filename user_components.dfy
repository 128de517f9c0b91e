/**
 * Types/User/UserComponents.swift: the query string of the request listing
 * the current user's guilds, built like the channel queries.
 */
module UserComponents {
  import opened Wrappers
  import opened Snowflakes
  import opened Requests
  import opened ChannelPayloads

  /** `UserGuildsMeQuery`. */
  datatype UserGuildsMeQuery = UserGuildsMeQuery(before: Option<Snowflake>, after: Option<Snowflake>, limit: Option<int>)

  /**
   * `UserGuildsMeQuery.toQueryItems`: `before`, `after`, even when nil, then
   * `limit` exactly when it is set. It mirrors the reactions query of the
   * channel payloads item for item, as the source's two builders do.
   */
  method GuildsQueryItems(q: UserGuildsMeQuery) returns (items: seq<QueryItem>)
    ensures |items| == (if q.limit.Some? then 3 else 2)
    ensures items[0] == SnowflakeItem("before", q.before) && items[1] == SnowflakeItem("after", q.after)
    ensures q.limit.Some? ==> items[2] == LimitItem(q.limit.value)
  {
    items := [SnowflakeItem("before", q.before), SnowflakeItem("after", q.after)];
    if q.limit.Some? {
      items := items + [LimitItem(q.limit.value)];
    }
  }
}
