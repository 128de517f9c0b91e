/**
 * Types/Channel/ChannelPayloads.swift: the query strings of the
 * message-listing and reaction-listing requests. Each builds its item list
 * in a local array and appends the limit only when one is given.
 */
module ChannelPayloads {
  import opened Wrappers
  import opened Decimal
  import opened Snowflakes
  import opened Keyed
  import opened Requests

  /** An item whose value is an optional snowflake through `asString`: present even when the snowflake is nil. */
  function SnowflakeItem(name: string, flake: Option<Snowflake>): (q: QueryItem)
    ensures q.name == name && (q.value.Some? <==> flake.Some?)
    ensures flake.Some? ==> Parse(q.value.value) == flake
  {
    QueryItem(name, if flake.Some? then Some(AsString(flake.value)) else None)
  }

  /** The `limit` item: the limit, a Swift `Int`, as decimal text. */
  function LimitItem(limit: int): (q: QueryItem)
    ensures q.name == "limit" && q.value.Some?
    ensures Int64Min <= limit <= Int64Max ==> ParseInt(q.value.value) == Some(limit)
  {
    var q := QueryItem("limit", Some(IntToString(limit)));
    if Int64Min <= limit <= Int64Max then ParseIntToString(limit, Int64Min, Int64Max); q else q
  }

  /** `ChannelMessagesGetQuery`. */
  datatype ChannelMessagesGetQuery = ChannelMessagesGetQuery(around: Option<Snowflake>, before: Option<Snowflake>,
                                                             after: Option<Snowflake>, limit: Option<int>)

  /** `GetReactionsQuery`. */
  datatype GetReactionsQuery = GetReactionsQuery(before: Option<Snowflake>, after: Option<Snowflake>, limit: Option<int>)

  /**
   * `ChannelMessagesGetQuery.toQueryItems`: `around`, `before`, `after`
   * always, in that order, then `limit` exactly when it is set.
   */
  method MessagesQueryItems(q: ChannelMessagesGetQuery) returns (items: seq<QueryItem>)
    ensures |items| == (if q.limit.Some? then 4 else 3)
    ensures items[0] == SnowflakeItem("around", q.around) && items[1] == SnowflakeItem("before", q.before)
    ensures items[2] == SnowflakeItem("after", q.after)
    ensures q.limit.Some? ==> items[3] == LimitItem(q.limit.value)
  {
    items := [SnowflakeItem("around", q.around), SnowflakeItem("before", q.before), SnowflakeItem("after", q.after)];
    if q.limit.Some? {
      items := items + [LimitItem(q.limit.value)];
    }
  }

  /** `GetReactionsQuery.toQueryItems`: `before`, `after`, then `limit` exactly when it is set. */
  method ReactionsQueryItems(q: GetReactionsQuery) returns (items: seq<QueryItem>)
    ensures |items| == (if q.limit.Some? then 3 else 2)
    ensures items[0] == SnowflakeItem("before", q.before) && items[1] == SnowflakeItem("after", q.after)
    ensures q.limit.Some? ==> items[2] == LimitItem(q.limit.value)
  {
    items := [SnowflakeItem("before", q.before), SnowflakeItem("after", q.after)];
    if q.limit.Some? {
      items := items + [LimitItem(q.limit.value)];
    }
  }
}
