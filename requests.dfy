/**
 * The requests the entity types hand to `client.rest.execute`: the route a
 * builder produced and the body sent with it. Executing them is HTTP I/O
 * and outside the model; an operation's effect is the list of requests it
 * issues, in order.
 */
module Requests {
  import opened Wrappers
  import opened Snowflakes
  import opened Routes
  import opened ChannelTypes
  import opened GuildRoles

  /** `DiscordRestError`, the errors the entity operations throw before any request. */
  datatype RestError = InvalidPermissions | MessageNeedsContent | UnbannableInstance | UnusableParent

  /** `PermissionOverwriteType`. */
  datatype OverwriteKind = RoleOverwrite | MemberOverwrite

  /** `PermissionOverwrite`: the role or member it applies to, and the allowed and denied permission bits. */
  datatype PermissionOverwrite = PermissionOverwrite(id: Snowflake, kind: OverwriteKind, allow: int, deny: int)

  /** The request bodies the modelled operations send; fields the operations never set are left out. */
  datatype Payload =
    | NoBody
    | BulkDeleteMessages(messages: seq<Snowflake>)
    /** `MessageCreatePayload`; `noMentions` is the allowed-mentions object with every list empty. */
    | CreateMessage(content: string, nonce: Option<Snowflake>, tts: Option<bool>, noMentions: bool)
    /** `MessageEditPayload`, without embed and flags. */
    | EditMessage(newContent: Option<string>)
    | ModifyNickMe(newNick: string)
    | ModifyGuildMember(nick: Option<string>, roles: Option<seq<Snowflake>>, mute: Option<bool>, deaf: Option<bool>,
                        channel: Option<Snowflake>)
    /** `CreatChannelPayload`. */
    | CreateChannel(name: string, channelType: ChannelType, topic: Option<string>, bitrate: Option<int>,
                    userLimit: Option<int>, rateLimitPerUser: Option<int>, position: Option<int>,
                    overwrites: Option<seq<PermissionOverwrite>>, parent: Option<Snowflake>, nsfw: Option<bool>)
    | CreateRole(name: string, permissions: Option<Permissions>, color: int, hoist: bool, mentionable: bool)

  datatype Request = Request(call: Endpoint, body: Payload)

  /** `URLQueryItem`: a name and an optional value. */
  datatype QueryItem = QueryItem(name: string, value: Option<string>)
}
