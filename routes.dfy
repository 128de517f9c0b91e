/**
 * Rest/Routes.swift: every REST call is a method and an endpoint path below
 * Discord's v7 API root. Each static builder of the source is a constructor
 * of `Endpoint` carrying the builder's arguments; `RouteOf` is the union of
 * the builders. A path is kept as its list of segments, written out by
 * `Join` (`Join(Two("channels", "42")) == "/channels/42"`). The source's
 * builders take any `Snowflakable`; here every such argument is the
 * snowflake itself, rendered by `asString`. The pin, group-recipient and
 * ban builders interpolate their argument instead, which differs from
 * `asString` only for a user (whose description is its name and
 * discriminator), an argument this model does not admit.
 */
module Routes {
  import opened Wrappers
  import opened Decimal
  import opened Snowflakes
  import opened Keyed

  datatype HttpMethod = GET | POST | PUT | PATCH | DELETE

  /** `Route`: exactly the method and endpoint it was made with. */
  datatype Route = Route(verb: HttpMethod, endpoint: string)

  const BaseUrl: string := "https://discordapp.com/api/v7"

  /** `url`: the endpoint appended to the API root. */
  function Url(r: Route): (url: string)
    ensures |url| == |BaseUrl| + |r.endpoint|
    ensures url[..|BaseUrl|] == BaseUrl && url[|BaseUrl|..] == r.endpoint
  {
    BaseUrl + r.endpoint
  }

  predicate NoSlash(s: string) {
    forall i | 0 <= i < |s| :: s[i] != '/'
  }

  /** The segments of a path, in order. */
  datatype Path = End | Seg(head: string, tail: Path)

  predicate AllNoSlash(p: Path) {
    match p
    case End => true
    case Seg(h, t) => NoSlash(h) && AllNoSlash(t)
  }

  /** A path written out: every segment preceded by `/`. */
  function Join(p: Path): (s: string)
    ensures p.Seg? ==> |s| > 0 && s[0] == '/'
    ensures p.End? ==> s == ""
  {
    match p
    case End => ""
    case Seg(h, t) => "/" + h + Join(t)
  }

  /** The index of the first `/` in `s`, or `|s|`. */
  function NextSlash(s: string): (i: nat)
    ensures i <= |s| && (i < |s| ==> s[i] == '/')
    ensures forall j | 0 <= j < i :: s[j] != '/'
  {
    if s == [] || s[0] == '/' then 0 else 1 + NextSlash(s[1..])
  }

  /** The segments of a path: the text after each `/` up to the next one. */
  function Split(s: string): Path
    decreases |s|
  {
    if s == [] then End
    else
      var rest := s[1..];
      var i := NextSlash(rest);
      Seg(rest[..i], Split(rest[i..]))
  }

  /** Splitting a written path gives its segments back when none holds a `/`. */
  lemma {:induction false} SplitJoin(p: Path)
    requires AllNoSlash(p)
    ensures Split(Join(p)) == p
  {
    if p.Seg? {
      var first, tail := p.head, Join(p.tail);
      var rest := first + tail;
      assert Join(p)[1..] == rest;
      assert forall j | 0 <= j < |first| :: rest[j] == first[j];
      assert p.tail.Seg? ==> rest[|first|] == tail[0] == '/';
      assert NextSlash(rest) == |first|;
      assert rest[..|first|] == first && rest[|first|..] == tail;
      SplitJoin(p.tail);
    }
  }

  /** A path segment that names a snowflake: its canonical decimal text. */
  function Id(segment: string): (r: Option<Snowflake>)
    ensures r.Some? ==> AsString(r.value) == segment
    ensures |segment| > 0 && !IsDigit(segment[0]) ==> r.None?
  {
    if Canonical(segment) && Parse(segment).Some? then
      DescriptionOfParse(segment);
      Parse(segment)
    else None
  }

  /** A snowflake's segment reads back as it, holds no `/`, and starts with a digit, so it is never a word. */
  lemma IdOfAsString(f: Snowflake)
    ensures Id(AsString(f)) == Some(f)
    ensures NoSlash(AsString(f)) && IsDigit(AsString(f)[0])
  {
  }

  /*
   * One call of one builder of the source, with its arguments, grouped as
   * the source groups its builders. Overloads get their own names: the
   * message-wide reaction delete is `ChannelMessagesReactionsDeleteAll`,
   * the token forms of the webhook builders end in `WithToken`, and the
   * single-emoji getter is `GuildEmojiGet`.
   */

  datatype GatewayCall = GatewayGet | GatewayBotGet

  /** The channel builders other than the message ones. */
  datatype ChannelCall =
    | ChannelGet(channel: Snowflake)
    | ChannelModify(channel: Snowflake)
    | ChannelDelete(channel: Snowflake)
    | ChannelTyping(channel: Snowflake)
    | ChannelPermissionsEdit(channel: Snowflake, permission: string)
    | ChannelPermissionsDelete(channel: Snowflake, permission: string)
    | ChannelInvitesGet(channel: Snowflake)
    | ChannelInvitesCreate(channel: Snowflake)
    | ChannelPinsGet(channel: Snowflake)
    | ChannelsPinsAdd(channel: Snowflake, message: Snowflake)
    | ChannelsPinsDelete(channel: Snowflake, message: Snowflake)
    | ChannelGroupDMRecipientsAdd(channel: Snowflake, user: Snowflake)
    | ChannelGroupDMRecipientsDelete(channel: Snowflake, user: Snowflake)

  /** The channel builders below `channels/{id}/messages`. */
  datatype MessageCall =
    | ChannelMessagesList(channel: Snowflake)
    | ChannelMessagesGet(channel: Snowflake, message: Snowflake)
    | ChannelMessagesCreate(channel: Snowflake)
    | ChannelMessagesModify(channel: Snowflake, message: Snowflake)
    | ChannelMessagesDelete(channel: Snowflake, message: Snowflake)
    | ChannelMessagesDeleteBulk(channel: Snowflake)
    | ChannelMessagesReactionsGet(channel: Snowflake, message: Snowflake, emoji: string)
    | ChannelMessagesReactionsCreate(channel: Snowflake, message: Snowflake, emoji: string)
    /** `reactor` is the user segment; the source's default argument is `@me`. */
    | ChannelMessagesReactionsDelete(channel: Snowflake, message: Snowflake, emoji: string, reactor: string)
    | ChannelMessagesReactionsDeleteAll(channel: Snowflake, message: Snowflake)

  datatype VoiceCall = VoicRegionsGet

  datatype InviteCall = InvitesGet(code: string) | InvitesDelete(code: string)

  datatype UserCall =
    | UserGetMe
    | UserGet(user: Snowflake)
    | ModifyUserMe
    | UserGuildsMe
    | UserGuildLeave(guild: Snowflake)
    | UserDMsGet
    | UserDMsCreate
    | UserConnectionsGet

  datatype WebhookCall =
    | WebhookCreate(channel: Snowflake)
    | ChannelsWebhooksGet(channel: Snowflake)
    | GuildsWebhooksGet(guild: Snowflake)
    | WebhooksGet(webhook: Snowflake)
    | WebhooksGetWithToken(webhook: Snowflake, token: string)
    | WebhooksModify(webhook: Snowflake)
    | WebhooksModifyWithToken(webhook: Snowflake, token: string)
    | WebhooksDelete(webhook: Snowflake)
    | WebhooksDeleteWithToken(webhook: Snowflake, token: string)
    | WebhooksExecute(webhook: Snowflake, token: string)
    | WebhooksExecuteSlack(webhook: Snowflake, token: string)
    | WebhooksExecuteGitHub(webhook: Snowflake, token: string)

  /** The guild builders on the guild itself and its single-path resources. */
  datatype GuildCall =
    | GuildCreate
    | GuildGet(guild: Snowflake)
    | GuildModify(guild: Snowflake)
    | GuildDelete(guild: Snowflake)
    | GuildChannelsGet(guild: Snowflake)
    | GuildChannelsCreate(guild: Snowflake)
    | GuildChannelsModifyPosition(guild: Snowflake)
    | GuildPruneCount(guild: Snowflake)
    | GuildPruneStart(guild: Snowflake)
    | GuildVoiceRegionsGet(guild: Snowflake)
    | GuildInvitesGet(guild: Snowflake)
    | GuildEmbedGet(guild: Snowflake)
    | GuildEmbedModify(guild: Snowflake)
    | GuildVanityUrlGet(guild: Snowflake)
    | GuildAuditLogGet(guild: Snowflake)

  /** The guild builders on members and bans. */
  datatype MemberCall =
    | GuildMembersGet(guild: Snowflake, user: Snowflake)
    | GuildMembersList(guild: Snowflake)
    | GuildMembersAdd(guild: Snowflake, user: Snowflake)
    | GuildMembersModify(guild: Snowflake, user: Snowflake)
    | GuildMembersRemove(guild: Snowflake, user: Snowflake)
    | GuildMembersModifyNickMe(guild: Snowflake)
    | GuildMembersRoleAdd(guild: Snowflake, user: Snowflake, role: Snowflake)
    | GuildMembersRoleRemove(guild: Snowflake, user: Snowflake, role: Snowflake)
    | GuildMembresRemove(guild: Snowflake, user: Snowflake)
    | GuildBansList(guild: Snowflake)
    | GuildBansGet(guild: Snowflake, user: Snowflake)
    | GuildBansCreate(guild: Snowflake, user: Snowflake)
    | GuildBansRemove(guild: Snowflake, user: Snowflake)

  /** The guild builders on roles, integrations and emojis. */
  datatype GuildItemCall =
    | GuildRolesGet(guild: Snowflake)
    | GuildRolesCreate(guild: Snowflake)
    | GuildRolesPositionModify(guild: Snowflake)
    | GuildRolesModify(guild: Snowflake, role: Snowflake)
    | GuildRolesDelete(guild: Snowflake, role: Snowflake)
    | GuildIntegrationsGet(guild: Snowflake)
    | GuildIntegrationsCreate(guild: Snowflake)
    | GuildIntegrationsModify(guild: Snowflake, integration: Snowflake)
    | GuildIntegrationsDelete(guild: Snowflake, integration: Snowflake)
    | GuildIntegrationsSync(guild: Snowflake, integration: Snowflake)
    | GuildEmojisGet(guild: Snowflake)
    | GuildEmojisCreate(guild: Snowflake)
    | GuildEmojiGet(guild: Snowflake, emoji: string)
    | GuildEmojisModify(guild: Snowflake, emoji: string)
    | GuildEmojisDelete(guild: Snowflake, emoji: string)

  datatype Endpoint =
    | OnGateway(gatewayCall: GatewayCall)
    | OnChannel(channelCall: ChannelCall)
    | OnMessage(messageCall: MessageCall)
    | OnVoice(voiceCall: VoiceCall)
    | OnInvite(inviteCall: InviteCall)
    | OnUser(userCall: UserCall)
    | OnWebhook(webhookCall: WebhookCall)
    | OnGuild(guildCall: GuildCall)
    | OnMember(memberCall: MemberCall)
    | OnGuildItem(guildItemCall: GuildItemCall)

  /*
   * The source's private path bases, each followed by the rest of the path.
   */
  function ChannelPath(c: Snowflake, rest: Path): Path { Seg("channels", Seg(AsString(c), rest)) }
  function MessagesPath(c: Snowflake, rest: Path): Path { ChannelPath(c, Seg("messages", rest)) }
  function MessagePath(c: Snowflake, m: Snowflake, rest: Path): Path { MessagesPath(c, Seg(AsString(m), rest)) }
  function ReactionsPath(c: Snowflake, m: Snowflake, emoji: string, rest: Path): Path {
    MessagePath(c, m, Seg("reactions", Seg(emoji, rest)))
  }
  function MePath(rest: Path): Path { Seg("users", Seg("@me", rest)) }
  function WebhookPath(w: Snowflake, rest: Path): Path { Seg("webhooks", Seg(AsString(w), rest)) }
  function GuildPath(g: Snowflake, rest: Path): Path { Seg("guilds", Seg(AsString(g), rest)) }
  function MembersPath(g: Snowflake, rest: Path): Path { GuildPath(g, Seg("members", rest)) }
  function MemberPath(g: Snowflake, u: Snowflake, rest: Path): Path { MembersPath(g, Seg(AsString(u), rest)) }

  /** A path of one or two more segments. */
  function One(a: string): Path { Seg(a, End) }
  function Two(a: string, b: string): Path { Seg(a, Seg(b, End)) }

  /** A request target: the method and the path's segments. */
  datatype Target = Target(verb: HttpMethod, path: Path)

  /** What each builder returns, before the path is written out. */
  function TargetOf(e: Endpoint): (t: Target)
    ensures t.path.Seg? && t.path.head in {"gateway", "channels", "voice", "invites", "users", "webhooks", "guilds"}
  {
    match e
    case OnGateway(call) => GatewayTarget(call)
    case OnChannel(call) => ChannelTarget(call)
    case OnMessage(call) => MessageTarget(call)
    case OnVoice(VoicRegionsGet) => Target(GET, Two("voice", "regions"))
    case OnInvite(call) => InviteTarget(call)
    case OnUser(call) => UserTarget(call)
    case OnWebhook(call) => WebhookTarget(call)
    case OnGuild(call) => GuildTarget(call)
    case OnMember(call) => MemberTarget(call)
    case OnGuildItem(call) => GuildItemTarget(call)
  }

  function GatewayTarget(call: GatewayCall): (t: Target)
    ensures t.verb == GET && t.path.Seg? && t.path.head == "gateway"
  {
    match call
    case GatewayGet => Target(GET, One("gateway"))
    case GatewayBotGet => Target(GET, Two("gateway", "bot"))
  }

  function ChannelTarget(call: ChannelCall): (t: Target)
    ensures t.path.Seg? && t.path.tail.Seg? && t.path == ChannelPath(call.channel, t.path.tail.tail)
  {
    match call
    case ChannelGet(c) => Target(GET, ChannelPath(c, End))
    case ChannelModify(c) => Target(PATCH, ChannelPath(c, End))
    case ChannelDelete(c) => Target(DELETE, ChannelPath(c, End))
    case ChannelTyping(c) => Target(POST, ChannelPath(c, One("typing")))
    case ChannelPermissionsEdit(c, p) => Target(PUT, ChannelPath(c, Two("permissions", p)))
    case ChannelPermissionsDelete(c, p) => Target(DELETE, ChannelPath(c, Two("permissions", p)))
    case ChannelInvitesGet(c) => Target(GET, ChannelPath(c, One("invites")))
    case ChannelInvitesCreate(c) => Target(POST, ChannelPath(c, One("invites")))
    case ChannelPinsGet(c) => Target(GET, ChannelPath(c, One("pins")))
    case ChannelsPinsAdd(c, m) => Target(PUT, ChannelPath(c, Two("pins", AsString(m))))
    case ChannelsPinsDelete(c, m) => Target(DELETE, ChannelPath(c, Two("pins", AsString(m))))
    case ChannelGroupDMRecipientsAdd(c, u) => Target(PUT, ChannelPath(c, Two("recipients", AsString(u))))
    case ChannelGroupDMRecipientsDelete(c, u) => Target(DELETE, ChannelPath(c, Two("recipients", AsString(u))))
  }

  function MessageTarget(call: MessageCall): (t: Target)
    ensures t.path.Seg? && t.path.tail.Seg? && t.path.tail.tail.Seg? && t.path == MessagesPath(call.channel, t.path.tail.tail.tail)
  {
    match call
    case ChannelMessagesList(c) => Target(GET, MessagesPath(c, End))
    case ChannelMessagesGet(c, m) => Target(GET, MessagePath(c, m, End))
    case ChannelMessagesCreate(c) => Target(POST, MessagesPath(c, End))
    case ChannelMessagesModify(c, m) => Target(PATCH, MessagePath(c, m, End))
    case ChannelMessagesDelete(c, m) => Target(DELETE, MessagePath(c, m, End))
    case ChannelMessagesDeleteBulk(c) => Target(POST, MessagesPath(c, One("bulk-delete")))
    case ChannelMessagesReactionsGet(c, m, emoji) => Target(GET, ReactionsPath(c, m, emoji, End))
    case ChannelMessagesReactionsCreate(c, m, emoji) => Target(PUT, ReactionsPath(c, m, emoji, One("@me")))
    case ChannelMessagesReactionsDelete(c, m, emoji, reactor) => Target(DELETE, ReactionsPath(c, m, emoji, One(reactor)))
    case ChannelMessagesReactionsDeleteAll(c, m) => Target(DELETE, MessagePath(c, m, One("reactions")))
  }

  function InviteTarget(call: InviteCall): (t: Target)
    ensures t.path == Two("invites", call.code)
  {
    match call
    case InvitesGet(code) => Target(GET, Two("invites", code))
    case InvitesDelete(code) => Target(DELETE, Two("invites", code))
  }

  function UserTarget(call: UserCall): (t: Target)
    ensures t.path.Seg? && t.path.head == "users" && t.path.tail.Seg? && (t.path.tail.head == "@me" <==> !call.UserGet?)
  {
    match call
    case UserGetMe => Target(GET, MePath(End))
    case UserGet(u) => Target(GET, Two("users", AsString(u)))
    case ModifyUserMe => Target(PATCH, MePath(End))
    case UserGuildsMe => Target(GET, MePath(One("guilds")))
    case UserGuildLeave(g) => Target(DELETE, MePath(Two("guilds", AsString(g))))
    case UserDMsGet => Target(GET, MePath(One("channels")))
    case UserDMsCreate => Target(POST, MePath(One("channels")))
    case UserConnectionsGet => Target(GET, MePath(One("connections")))
  }

  function WebhookTarget(call: WebhookCall): (t: Target)
    ensures t.path.Seg? && (t.path.head == "webhooks" <==> !(call.WebhookCreate? || call.ChannelsWebhooksGet? || call.GuildsWebhooksGet?))
  {
    match call
    case WebhookCreate(c) => Target(POST, ChannelPath(c, One("webhooks")))
    case ChannelsWebhooksGet(c) => Target(GET, ChannelPath(c, One("webhooks")))
    case GuildsWebhooksGet(g) => Target(GET, GuildPath(g, One("webhooks")))
    case WebhooksGet(w) => Target(GET, WebhookPath(w, End))
    case WebhooksGetWithToken(w, t) => Target(GET, WebhookPath(w, One(t)))
    case WebhooksModify(w) => Target(PATCH, WebhookPath(w, End))
    case WebhooksModifyWithToken(w, t) => Target(PATCH, WebhookPath(w, One(t)))
    case WebhooksDelete(w) => Target(DELETE, WebhookPath(w, End))
    case WebhooksDeleteWithToken(w, t) => Target(DELETE, WebhookPath(w, One(t)))
    case WebhooksExecute(w, t) => Target(POST, WebhookPath(w, One(t)))
    case WebhooksExecuteSlack(w, t) => Target(POST, WebhookPath(w, Two(t, "slack")))
    case WebhooksExecuteGitHub(w, t) => Target(POST, WebhookPath(w, Two(t, "github")))
  }

  function GuildTarget(call: GuildCall): (t: Target)
    ensures call.GuildCreate? <==> t.path == One("guilds")
    ensures !call.GuildCreate? ==> t.path.Seg? && t.path.tail.Seg? && t.path == GuildPath(call.guild, t.path.tail.tail)
  {
    match call
    case GuildCreate => Target(POST, One("guilds"))
    case GuildGet(g) => Target(GET, GuildPath(g, End))
    case GuildModify(g) => Target(PATCH, GuildPath(g, End))
    case GuildDelete(g) => Target(DELETE, GuildPath(g, End))
    case GuildChannelsGet(g) => Target(GET, GuildPath(g, One("channels")))
    case GuildChannelsCreate(g) => Target(POST, GuildPath(g, One("channels")))
    case GuildChannelsModifyPosition(g) => Target(PATCH, GuildPath(g, One("channels")))
    case GuildPruneCount(g) => Target(GET, GuildPath(g, One("prune")))
    case GuildPruneStart(g) => Target(POST, GuildPath(g, One("prune")))
    case GuildVoiceRegionsGet(g) => Target(GET, GuildPath(g, One("regions")))
    case GuildInvitesGet(g) => Target(GET, GuildPath(g, One("invites")))
    case GuildEmbedGet(g) => Target(GET, GuildPath(g, One("embed")))
    case GuildEmbedModify(g) => Target(PATCH, GuildPath(g, One("embed")))
    case GuildVanityUrlGet(g) => Target(GET, GuildPath(g, One("vanity-url")))
    case GuildAuditLogGet(g) => Target(GET, GuildPath(g, One("audit-logs")))
  }

  function MemberTarget(call: MemberCall): (t: Target)
    ensures t.path.Seg? && t.path.tail.Seg? && t.path == GuildPath(call.guild, t.path.tail.tail)
  {
    match call
    case GuildMembersGet(g, u) => Target(GET, MemberPath(g, u, End))
    case GuildMembersList(g) => Target(GET, MembersPath(g, End))
    case GuildMembersAdd(g, u) => Target(PUT, MemberPath(g, u, End))
    case GuildMembersModify(g, u) => Target(PATCH, MemberPath(g, u, End))
    case GuildMembersRemove(g, u) => Target(DELETE, MemberPath(g, u, End))
    case GuildMembersModifyNickMe(g) => Target(PATCH, MembersPath(g, Two("@me", "nick")))
    case GuildMembersRoleAdd(g, u, r) => Target(PUT, MemberPath(g, u, Two("roles", AsString(r))))
    case GuildMembersRoleRemove(g, u, r) => Target(DELETE, MemberPath(g, u, Two("roles", AsString(r))))
    case GuildMembresRemove(g, u) => Target(DELETE, MemberPath(g, u, End))
    case GuildBansList(g) => Target(GET, GuildPath(g, One("bans")))
    case GuildBansGet(g, u) => Target(GET, GuildPath(g, Two("bans", AsString(u))))
    case GuildBansCreate(g, u) => Target(PUT, GuildPath(g, Two("bans", AsString(u))))
    case GuildBansRemove(g, u) => Target(DELETE, GuildPath(g, Two("bans", AsString(u))))
  }

  function GuildItemTarget(call: GuildItemCall): (t: Target)
    ensures t.path.Seg? && t.path.tail.Seg? && t.path == GuildPath(call.guild, t.path.tail.tail)
  {
    match call
    case GuildRolesGet(g) => Target(GET, GuildPath(g, One("roles")))
    case GuildRolesCreate(g) => Target(POST, GuildPath(g, One("roles")))
    case GuildRolesPositionModify(g) => Target(PATCH, GuildPath(g, One("roles")))
    case GuildRolesModify(g, r) => Target(PATCH, GuildPath(g, Two("roles", AsString(r))))
    case GuildRolesDelete(g, r) => Target(DELETE, GuildPath(g, Two("roles", AsString(r))))
    case GuildIntegrationsGet(g) => Target(GET, GuildPath(g, One("integrations")))
    case GuildIntegrationsCreate(g) => Target(POST, GuildPath(g, One("integrations")))
    case GuildIntegrationsModify(g, i) => Target(PATCH, GuildPath(g, Two("integrations", AsString(i))))
    case GuildIntegrationsDelete(g, i) => Target(DELETE, GuildPath(g, Two("integrations", AsString(i))))
    case GuildIntegrationsSync(g, i) => Target(POST, GuildPath(g, Seg("integrations", Two(AsString(i), "sync"))))
    case GuildEmojisGet(g) => Target(GET, GuildPath(g, One("emojis")))
    case GuildEmojisCreate(g) => Target(POST, GuildPath(g, One("emojis")))
    case GuildEmojiGet(g, emoji) => Target(GET, GuildPath(g, Two("emojis", emoji)))
    case GuildEmojisModify(g, emoji) => Target(PATCH, GuildPath(g, Two("emojis", emoji)))
    case GuildEmojisDelete(g, emoji) => Target(DELETE, GuildPath(g, Two("emojis", emoji)))
  }

  /** The route a builder returns. */
  function RouteOf(e: Endpoint): (r: Route)
    ensures r.verb == TargetOf(e).verb
    ensures WellFormed(e) ==> Split(r.endpoint) == TargetOf(e).path
  {
    assert WellFormed(e) ==> Split(Join(TargetOf(e).path)) == TargetOf(e).path by {
      if WellFormed(e) { SplitJoin(TargetOf(e).path); }
    }
    Route(TargetOf(e).verb, Join(TargetOf(e).path))
  }

  /** The string arguments (permission, invite code, token, emoji, reactor) contain no `/`. */
  predicate WellFormed(e: Endpoint) {
    AllNoSlash(TargetOf(e).path)
  }

  /** The builder a route came from, with the misspelt `GuildMembresRemove` read as `GuildMembersRemove`. */
  function Canon(e: Endpoint): Endpoint {
    match e
    case OnMember(call) => OnMember(CanonMember(call))
    case _ => e
  }

  function CanonMember(call: MemberCall): MemberCall {
    match call
    case GuildMembresRemove(g, u) => GuildMembersRemove(g, u)
    case _ => call
  }

  /*
   * Reading a route back. A path is first assigned to the group of
   * builders whose paths have its prefix; that group's decoder then matches
   * it against the shapes its builders produce. A snowflake segment must be
   * the canonical decimal text `asString` gives, and is tried before the
   * words that can stand in its place (`@me`, `bulk-delete`).
   */

  function When<T>(b: bool, x: T): Option<T> {
    if b then Some(x) else None
  }

  datatype Group = GatewayGroup | ChannelGroup | MessageGroup | VoiceGroup | InviteGroup | UserGroup
                 | WebhookGroup | GuildGroup | MemberGroup | GuildItemGroup | NoGroup

  function GroupOf(p: Path): Group {
    match p
    case Seg("gateway", _) => GatewayGroup
    case Seg("voice", _) => VoiceGroup
    case Seg("invites", _) => InviteGroup
    case Seg("users", _) => UserGroup
    case Seg("webhooks", _) => WebhookGroup
    case Seg("channels", Seg(_, Seg("messages", _))) => MessageGroup
    case Seg("channels", Seg(_, Seg("webhooks", _))) => WebhookGroup
    case Seg("channels", _) => ChannelGroup
    case Seg("guilds", Seg(_, Seg("webhooks", _))) => WebhookGroup
    case Seg("guilds", Seg(_, Seg("members", _))) => MemberGroup
    case Seg("guilds", Seg(_, Seg("bans", _))) => MemberGroup
    case Seg("guilds", Seg(_, Seg("roles", _))) => GuildItemGroup
    case Seg("guilds", Seg(_, Seg("integrations", _))) => GuildItemGroup
    case Seg("guilds", Seg(_, Seg("emojis", _))) => GuildItemGroup
    case Seg("guilds", _) => GuildGroup
    case _ => NoGroup
  }

  function Decode(r: Route): Option<Endpoint> {
    DecodeTarget(r.verb, Split(r.endpoint))
  }

  function DecodeTarget(v: HttpMethod, p: Path): Option<Endpoint> {
    match GroupOf(p)
    case GatewayGroup => var d := DecodeGatewayCall(v, p); if d.Some? then Some(OnGateway(d.value)) else None
    case ChannelGroup => var d := DecodeChannelCall(v, p); if d.Some? then Some(OnChannel(d.value)) else None
    case MessageGroup => var d := DecodeMessageCall(v, p); if d.Some? then Some(OnMessage(d.value)) else None
    case VoiceGroup => var d := DecodeVoiceCall(v, p); if d.Some? then Some(OnVoice(d.value)) else None
    case InviteGroup => var d := DecodeInviteCall(v, p); if d.Some? then Some(OnInvite(d.value)) else None
    case UserGroup => var d := DecodeUserCall(v, p); if d.Some? then Some(OnUser(d.value)) else None
    case WebhookGroup => var d := DecodeWebhookCall(v, p); if d.Some? then Some(OnWebhook(d.value)) else None
    case GuildGroup => var d := DecodeGuildCall(v, p); if d.Some? then Some(OnGuild(d.value)) else None
    case MemberGroup => var d := DecodeMemberCall(v, p); if d.Some? then Some(OnMember(d.value)) else None
    case GuildItemGroup => var d := DecodeGuildItemCall(v, p); if d.Some? then Some(OnGuildItem(d.value)) else None
    case NoGroup => None
  }

  function DecodeGatewayCall(v: HttpMethod, p: Path): Option<GatewayCall> {
    match p
    case Seg("gateway", End) => When(v == GET, GatewayGet)
    case Seg("gateway", Seg("bot", End)) => When(v == GET, GatewayBotGet)
    case _ => None
  }

  function DecodeVoiceCall(v: HttpMethod, p: Path): Option<VoiceCall> {
    match p
    case Seg("voice", Seg("regions", End)) => When(v == GET, VoicRegionsGet)
    case _ => None
  }

  function DecodeInviteCall(v: HttpMethod, p: Path): Option<InviteCall> {
    match p
    case Seg("invites", Seg(code, End)) =>
      (match v
       case GET => Some(InvitesGet(code))
       case DELETE => Some(InvitesDelete(code))
       case _ => None)
    case _ => None
  }

  function DecodeUserCall(v: HttpMethod, p: Path): Option<UserCall> {
    match p
    case Seg("users", Seg(u, rest)) =>
      if Id(u).Some? then When(v == GET && rest.End?, UserGet(Id(u).value))
      else if u == "@me" then DecodeMe(v, rest)
      else None
    case _ => None
  }

  function DecodeMe(v: HttpMethod, p: Path): Option<UserCall> {
    match p
    case End =>
      (match v
       case GET => Some(UserGetMe)
       case PATCH => Some(ModifyUserMe)
       case _ => None)
    case Seg("guilds", End) => When(v == GET, UserGuildsMe)
    case Seg("guilds", Seg(g, End)) => if Id(g).Some? then When(v == DELETE, UserGuildLeave(Id(g).value)) else None
    case Seg("channels", End) =>
      (match v
       case GET => Some(UserDMsGet)
       case POST => Some(UserDMsCreate)
       case _ => None)
    case Seg("connections", End) => When(v == GET, UserConnectionsGet)
    case _ => None
  }

  function DecodeChannelCall(v: HttpMethod, p: Path): Option<ChannelCall> {
    match p
    case Seg("channels", Seg(c, rest)) => if Id(c).Some? then DecodeInChannel(v, Id(c).value, rest) else None
    case _ => None
  }

  function DecodeInChannel(v: HttpMethod, c: Snowflake, p: Path): Option<ChannelCall> {
    match p
    case End =>
      (match v
       case GET => Some(ChannelGet(c))
       case PATCH => Some(ChannelModify(c))
       case DELETE => Some(ChannelDelete(c))
       case _ => None)
    case Seg("typing", End) => When(v == POST, ChannelTyping(c))
    case Seg("permissions", Seg(perm, End)) =>
      (match v
       case PUT => Some(ChannelPermissionsEdit(c, perm))
       case DELETE => Some(ChannelPermissionsDelete(c, perm))
       case _ => None)
    case Seg("invites", End) =>
      (match v
       case GET => Some(ChannelInvitesGet(c))
       case POST => Some(ChannelInvitesCreate(c))
       case _ => None)
    case Seg("pins", End) => When(v == GET, ChannelPinsGet(c))
    case Seg("pins", Seg(m, End)) =>
      if Id(m).Some? then
        (match v
         case PUT => Some(ChannelsPinsAdd(c, Id(m).value))
         case DELETE => Some(ChannelsPinsDelete(c, Id(m).value))
         case _ => None)
      else None
    case Seg("recipients", Seg(u, End)) =>
      if Id(u).Some? then
        (match v
         case PUT => Some(ChannelGroupDMRecipientsAdd(c, Id(u).value))
         case DELETE => Some(ChannelGroupDMRecipientsDelete(c, Id(u).value))
         case _ => None)
      else None
    case _ => None
  }

  function DecodeMessageCall(v: HttpMethod, p: Path): Option<MessageCall> {
    match p
    case Seg("channels", Seg(c, Seg("messages", rest))) => if Id(c).Some? then DecodeMessages(v, Id(c).value, rest) else None
    case _ => None
  }

  function DecodeMessages(v: HttpMethod, c: Snowflake, p: Path): Option<MessageCall> {
    match p
    case End =>
      (match v
       case GET => Some(ChannelMessagesList(c))
       case POST => Some(ChannelMessagesCreate(c))
       case _ => None)
    case Seg(m, rest) =>
      if Id(m).Some? then DecodeMessage(v, c, Id(m).value, rest)
      else When(v == POST && m == "bulk-delete" && rest.End?, ChannelMessagesDeleteBulk(c))
  }

  function DecodeMessage(v: HttpMethod, c: Snowflake, m: Snowflake, p: Path): Option<MessageCall> {
    match p
    case End =>
      (match v
       case GET => Some(ChannelMessagesGet(c, m))
       case PATCH => Some(ChannelMessagesModify(c, m))
       case DELETE => Some(ChannelMessagesDelete(c, m))
       case _ => None)
    case Seg("reactions", End) => When(v == DELETE, ChannelMessagesReactionsDeleteAll(c, m))
    case Seg("reactions", Seg(emoji, End)) => When(v == GET, ChannelMessagesReactionsGet(c, m, emoji))
    case Seg("reactions", Seg(emoji, Seg(who, End))) =>
      if v == PUT && who == "@me" then Some(ChannelMessagesReactionsCreate(c, m, emoji))
      else When(v == DELETE, ChannelMessagesReactionsDelete(c, m, emoji, who))
    case _ => None
  }

  function DecodeWebhookCall(v: HttpMethod, p: Path): Option<WebhookCall> {
    match p
    case Seg("channels", Seg(c, Seg("webhooks", End))) =>
      if Id(c).Some? then
        (match v
         case POST => Some(WebhookCreate(Id(c).value))
         case GET => Some(ChannelsWebhooksGet(Id(c).value))
         case _ => None)
      else None
    case Seg("guilds", Seg(g, Seg("webhooks", End))) =>
      if Id(g).Some? then When(v == GET, GuildsWebhooksGet(Id(g).value)) else None
    case Seg("webhooks", Seg(w, rest)) => if Id(w).Some? then DecodeWebhook(v, Id(w).value, rest) else None
    case _ => None
  }

  function DecodeWebhook(v: HttpMethod, w: Snowflake, p: Path): Option<WebhookCall> {
    match p
    case End =>
      (match v
       case GET => Some(WebhooksGet(w))
       case PATCH => Some(WebhooksModify(w))
       case DELETE => Some(WebhooksDelete(w))
       case _ => None)
    case Seg(token, End) =>
      (match v
       case GET => Some(WebhooksGetWithToken(w, token))
       case PATCH => Some(WebhooksModifyWithToken(w, token))
       case DELETE => Some(WebhooksDeleteWithToken(w, token))
       case POST => Some(WebhooksExecute(w, token))
       case _ => None)
    case Seg(token, Seg("slack", End)) => When(v == POST, WebhooksExecuteSlack(w, token))
    case Seg(token, Seg("github", End)) => When(v == POST, WebhooksExecuteGitHub(w, token))
    case _ => None
  }

  function DecodeGuildCall(v: HttpMethod, p: Path): Option<GuildCall> {
    match p
    case Seg("guilds", End) => When(v == POST, GuildCreate)
    case Seg("guilds", Seg(g, rest)) => if Id(g).Some? then DecodeInGuild(v, Id(g).value, rest) else None
    case _ => None
  }

  function DecodeInGuild(v: HttpMethod, g: Snowflake, p: Path): Option<GuildCall> {
    match p
    case End =>
      (match v
       case GET => Some(GuildGet(g))
       case PATCH => Some(GuildModify(g))
       case DELETE => Some(GuildDelete(g))
       case _ => None)
    case Seg("channels", End) =>
      (match v
       case GET => Some(GuildChannelsGet(g))
       case POST => Some(GuildChannelsCreate(g))
       case PATCH => Some(GuildChannelsModifyPosition(g))
       case _ => None)
    case Seg("prune", End) =>
      (match v
       case GET => Some(GuildPruneCount(g))
       case POST => Some(GuildPruneStart(g))
       case _ => None)
    case Seg("regions", End) => When(v == GET, GuildVoiceRegionsGet(g))
    case Seg("invites", End) => When(v == GET, GuildInvitesGet(g))
    case Seg("embed", End) =>
      (match v
       case GET => Some(GuildEmbedGet(g))
       case PATCH => Some(GuildEmbedModify(g))
       case _ => None)
    case Seg("vanity-url", End) => When(v == GET, GuildVanityUrlGet(g))
    case Seg("audit-logs", End) => When(v == GET, GuildAuditLogGet(g))
    case _ => None
  }

  function DecodeMemberCall(v: HttpMethod, p: Path): Option<MemberCall> {
    match p
    case Seg("guilds", Seg(g, Seg("members", rest))) => if Id(g).Some? then DecodeMembers(v, Id(g).value, rest) else None
    case Seg("guilds", Seg(g, Seg("bans", rest))) => if Id(g).Some? then DecodeBans(v, Id(g).value, rest) else None
    case _ => None
  }

  function DecodeMembers(v: HttpMethod, g: Snowflake, p: Path): Option<MemberCall> {
    match p
    case End => When(v == GET, GuildMembersList(g))
    case Seg(u, rest) =>
      if Id(u).Some? then DecodeMember(v, g, Id(u).value, rest)
      else When(v == PATCH && u == "@me" && rest == One("nick"), GuildMembersModifyNickMe(g))
  }

  function DecodeMember(v: HttpMethod, g: Snowflake, u: Snowflake, p: Path): Option<MemberCall> {
    match p
    case End =>
      (match v
       case GET => Some(GuildMembersGet(g, u))
       case PUT => Some(GuildMembersAdd(g, u))
       case PATCH => Some(GuildMembersModify(g, u))
       case DELETE => Some(GuildMembersRemove(g, u))
       case _ => None)
    case Seg("roles", Seg(r, End)) =>
      if Id(r).Some? then
        (match v
         case PUT => Some(GuildMembersRoleAdd(g, u, Id(r).value))
         case DELETE => Some(GuildMembersRoleRemove(g, u, Id(r).value))
         case _ => None)
      else None
    case _ => None
  }

  function DecodeBans(v: HttpMethod, g: Snowflake, p: Path): Option<MemberCall> {
    match p
    case End => When(v == GET, GuildBansList(g))
    case Seg(u, End) =>
      if Id(u).Some? then
        (match v
         case GET => Some(GuildBansGet(g, Id(u).value))
         case PUT => Some(GuildBansCreate(g, Id(u).value))
         case DELETE => Some(GuildBansRemove(g, Id(u).value))
         case _ => None)
      else None
    case _ => None
  }

  function DecodeGuildItemCall(v: HttpMethod, p: Path): Option<GuildItemCall> {
    match p
    case Seg("guilds", Seg(g, Seg("roles", rest))) => if Id(g).Some? then DecodeRoles(v, Id(g).value, rest) else None
    case Seg("guilds", Seg(g, Seg("integrations", rest))) =>
      if Id(g).Some? then DecodeIntegrations(v, Id(g).value, rest) else None
    case Seg("guilds", Seg(g, Seg("emojis", rest))) => if Id(g).Some? then DecodeEmojis(v, Id(g).value, rest) else None
    case _ => None
  }

  function DecodeRoles(v: HttpMethod, g: Snowflake, p: Path): Option<GuildItemCall> {
    match p
    case End =>
      (match v
       case GET => Some(GuildRolesGet(g))
       case POST => Some(GuildRolesCreate(g))
       case PATCH => Some(GuildRolesPositionModify(g))
       case _ => None)
    case Seg(r, End) =>
      if Id(r).Some? then
        (match v
         case PATCH => Some(GuildRolesModify(g, Id(r).value))
         case DELETE => Some(GuildRolesDelete(g, Id(r).value))
         case _ => None)
      else None
    case _ => None
  }

  function DecodeIntegrations(v: HttpMethod, g: Snowflake, p: Path): Option<GuildItemCall> {
    match p
    case End =>
      (match v
       case GET => Some(GuildIntegrationsGet(g))
       case POST => Some(GuildIntegrationsCreate(g))
       case _ => None)
    case Seg(i, End) =>
      if Id(i).Some? then
        (match v
         case PATCH => Some(GuildIntegrationsModify(g, Id(i).value))
         case DELETE => Some(GuildIntegrationsDelete(g, Id(i).value))
         case _ => None)
      else None
    case Seg(i, Seg("sync", End)) => if Id(i).Some? then When(v == POST, GuildIntegrationsSync(g, Id(i).value)) else None
    case _ => None
  }

  function DecodeEmojis(v: HttpMethod, g: Snowflake, p: Path): Option<GuildItemCall> {
    match p
    case End =>
      (match v
       case GET => Some(GuildEmojisGet(g))
       case POST => Some(GuildEmojisCreate(g))
       case _ => None)
    case Seg(emoji, End) =>
      (match v
       case GET => Some(GuildEmojiGet(g, emoji))
       case PATCH => Some(GuildEmojisModify(g, emoji))
       case DELETE => Some(GuildEmojisDelete(g, emoji))
       case _ => None)
    case _ => None
  }

  /*
   * Each path the builders produce, read back under each method the
   * builders use on it. One lemma per private path base of the source.
   */

  lemma ChannelRootReads(c: Snowflake)
    ensures var p := ChannelPath(c, End);
      GroupOf(p) == ChannelGroup && DecodeChannelCall(GET, p) == Some(ChannelGet(c)) &&
      DecodeChannelCall(PATCH, p) == Some(ChannelModify(c)) && DecodeChannelCall(DELETE, p) == Some(ChannelDelete(c))
  {
    IdOfAsString(c);
  }

  lemma ChannelTypingReads(c: Snowflake)
    ensures var p := ChannelPath(c, One("typing"));
      GroupOf(p) == ChannelGroup && DecodeChannelCall(POST, p) == Some(ChannelTyping(c))
  {
    IdOfAsString(c);
  }

  lemma ChannelPermissionsReads(c: Snowflake, perm: string)
    ensures var p := ChannelPath(c, Two("permissions", perm));
      GroupOf(p) == ChannelGroup && DecodeChannelCall(PUT, p) == Some(ChannelPermissionsEdit(c, perm)) &&
      DecodeChannelCall(DELETE, p) == Some(ChannelPermissionsDelete(c, perm))
  {
    IdOfAsString(c);
  }

  lemma ChannelInvitesReads(c: Snowflake)
    ensures var p := ChannelPath(c, One("invites"));
      GroupOf(p) == ChannelGroup && DecodeChannelCall(GET, p) == Some(ChannelInvitesGet(c)) &&
      DecodeChannelCall(POST, p) == Some(ChannelInvitesCreate(c))
  {
    IdOfAsString(c);
  }

  lemma ChannelPinsReads(c: Snowflake)
    ensures var p := ChannelPath(c, One("pins"));
      GroupOf(p) == ChannelGroup && DecodeChannelCall(GET, p) == Some(ChannelPinsGet(c))
  {
    IdOfAsString(c);
  }

  lemma ChannelPinReads(c: Snowflake, m: Snowflake)
    ensures var p := ChannelPath(c, Two("pins", AsString(m)));
      GroupOf(p) == ChannelGroup && DecodeChannelCall(PUT, p) == Some(ChannelsPinsAdd(c, m)) &&
      DecodeChannelCall(DELETE, p) == Some(ChannelsPinsDelete(c, m))
  {
    IdOfAsString(c);
    IdOfAsString(m);
  }

  lemma ChannelRecipientReads(c: Snowflake, u: Snowflake)
    ensures var p := ChannelPath(c, Two("recipients", AsString(u)));
      GroupOf(p) == ChannelGroup && DecodeChannelCall(PUT, p) == Some(ChannelGroupDMRecipientsAdd(c, u)) &&
      DecodeChannelCall(DELETE, p) == Some(ChannelGroupDMRecipientsDelete(c, u))
  {
    IdOfAsString(c);
    IdOfAsString(u);
  }

  /** The channel builders' routes read back as the calls that made them. */
  lemma ChannelCallsRead(call: ChannelCall)
    ensures var t := ChannelTarget(call);
      GroupOf(t.path) == ChannelGroup && DecodeChannelCall(t.verb, t.path) == Some(call)
  {
    match call
    case ChannelGet(c) => ChannelRootReads(c);
    case ChannelModify(c) => ChannelRootReads(c);
    case ChannelDelete(c) => ChannelRootReads(c);
    case ChannelTyping(c) => ChannelTypingReads(c);
    case ChannelPermissionsEdit(c, perm) => ChannelPermissionsReads(c, perm);
    case ChannelPermissionsDelete(c, perm) => ChannelPermissionsReads(c, perm);
    case ChannelInvitesGet(c) => ChannelInvitesReads(c);
    case ChannelInvitesCreate(c) => ChannelInvitesReads(c);
    case ChannelPinsGet(c) => ChannelPinsReads(c);
    case ChannelsPinsAdd(c, m) => ChannelPinReads(c, m);
    case ChannelsPinsDelete(c, m) => ChannelPinReads(c, m);
    case ChannelGroupDMRecipientsAdd(c, u) => ChannelRecipientReads(c, u);
    case ChannelGroupDMRecipientsDelete(c, u) => ChannelRecipientReads(c, u);
  }

  lemma GatewayCallsRead(call: GatewayCall)
    ensures var t := GatewayTarget(call);
      GroupOf(t.path) == GatewayGroup && DecodeGatewayCall(t.verb, t.path) == Some(call)
  {
  }

  lemma VoiceCallsRead(call: VoiceCall)
    ensures var t := Target(GET, Two("voice", "regions"));
      GroupOf(t.path) == VoiceGroup && DecodeVoiceCall(t.verb, t.path) == Some(call)
  {
  }

  lemma InviteCallsRead(call: InviteCall)
    ensures var t := InviteTarget(call);
      GroupOf(t.path) == InviteGroup && DecodeInviteCall(t.verb, t.path) == Some(call)
  {
  }

  lemma MessagesReads(c: Snowflake)
    ensures var p := MessagesPath(c, End);
      GroupOf(p) == MessageGroup && DecodeMessageCall(GET, p) == Some(ChannelMessagesList(c)) &&
      DecodeMessageCall(POST, p) == Some(ChannelMessagesCreate(c))
  {
    IdOfAsString(c);
  }

  lemma MessagesBulkDeleteReads(c: Snowflake)
    ensures var p := MessagesPath(c, One("bulk-delete"));
      GroupOf(p) == MessageGroup && DecodeMessageCall(POST, p) == Some(ChannelMessagesDeleteBulk(c))
  {
    IdOfAsString(c);
  }

  lemma MessageReads(c: Snowflake, m: Snowflake)
    ensures var p := MessagePath(c, m, End);
      GroupOf(p) == MessageGroup && DecodeMessageCall(GET, p) == Some(ChannelMessagesGet(c, m)) &&
      DecodeMessageCall(PATCH, p) == Some(ChannelMessagesModify(c, m)) &&
      DecodeMessageCall(DELETE, p) == Some(ChannelMessagesDelete(c, m))
  {
    IdOfAsString(c);
    IdOfAsString(m);
  }

  lemma MessageReactionsReads(c: Snowflake, m: Snowflake)
    ensures var p := MessagePath(c, m, One("reactions"));
      GroupOf(p) == MessageGroup && DecodeMessageCall(DELETE, p) == Some(ChannelMessagesReactionsDeleteAll(c, m))
  {
    IdOfAsString(c);
    IdOfAsString(m);
  }

  lemma ReactionsReads(c: Snowflake, m: Snowflake, emoji: string)
    ensures var p := ReactionsPath(c, m, emoji, End);
      GroupOf(p) == MessageGroup && DecodeMessageCall(GET, p) == Some(ChannelMessagesReactionsGet(c, m, emoji))
  {
    IdOfAsString(c);
    IdOfAsString(m);
  }

  lemma ReactionMeReads(c: Snowflake, m: Snowflake, emoji: string)
    ensures var p := ReactionsPath(c, m, emoji, One("@me"));
      GroupOf(p) == MessageGroup && DecodeMessageCall(PUT, p) == Some(ChannelMessagesReactionsCreate(c, m, emoji))
  {
    IdOfAsString(c);
    IdOfAsString(m);
  }

  lemma ReactionUserReads(c: Snowflake, m: Snowflake, emoji: string, reactor: string)
    ensures var p := ReactionsPath(c, m, emoji, One(reactor));
      GroupOf(p) == MessageGroup &&
      DecodeMessageCall(DELETE, p) == Some(ChannelMessagesReactionsDelete(c, m, emoji, reactor))
  {
    IdOfAsString(c);
    IdOfAsString(m);
  }

  /** The message builders' routes read back as the calls that made them. */
  lemma MessageCallsRead(call: MessageCall)
    ensures var t := MessageTarget(call);
      GroupOf(t.path) == MessageGroup && DecodeMessageCall(t.verb, t.path) == Some(call)
  {
    match call
    case ChannelMessagesList(c) => MessagesReads(c);
    case ChannelMessagesCreate(c) => MessagesReads(c);
    case ChannelMessagesGet(c, m) => MessageReads(c, m);
    case ChannelMessagesModify(c, m) => MessageReads(c, m);
    case ChannelMessagesDelete(c, m) => MessageReads(c, m);
    case ChannelMessagesDeleteBulk(c) => MessagesBulkDeleteReads(c);
    case ChannelMessagesReactionsGet(c, m, emoji) => ReactionsReads(c, m, emoji);
    case ChannelMessagesReactionsCreate(c, m, emoji) => ReactionMeReads(c, m, emoji);
    case ChannelMessagesReactionsDelete(c, m, emoji, reactor) => ReactionUserReads(c, m, emoji, reactor);
    case ChannelMessagesReactionsDeleteAll(c, m) => MessageReactionsReads(c, m);
  }

  lemma UserReads(u: Snowflake)
    ensures var p := Two("users", AsString(u));
      GroupOf(p) == UserGroup && DecodeUserCall(GET, p) == Some(UserGet(u))
  {
    IdOfAsString(u);
  }

  lemma GuildLeaveReads(g: Snowflake)
    ensures var p := MePath(Two("guilds", AsString(g)));
      GroupOf(p) == UserGroup && DecodeUserCall(DELETE, p) == Some(UserGuildLeave(g))
  {
    IdOfAsString(g);
  }

  /** The user builders' routes read back as the calls that made them. */
  lemma UserCallsRead(call: UserCall)
    ensures var t := UserTarget(call);
      GroupOf(t.path) == UserGroup && DecodeUserCall(t.verb, t.path) == Some(call)
  {
    match call
    case UserGet(u) => UserReads(u);
    case UserGuildLeave(g) => GuildLeaveReads(g);
    case _ =>
  }

  lemma ChannelWebhooksReads(c: Snowflake)
    ensures var p := ChannelPath(c, One("webhooks"));
      GroupOf(p) == WebhookGroup && DecodeWebhookCall(POST, p) == Some(WebhookCreate(c)) &&
      DecodeWebhookCall(GET, p) == Some(ChannelsWebhooksGet(c))
  {
    IdOfAsString(c);
  }

  lemma GuildWebhooksReads(g: Snowflake)
    ensures var p := GuildPath(g, One("webhooks"));
      GroupOf(p) == WebhookGroup && DecodeWebhookCall(GET, p) == Some(GuildsWebhooksGet(g))
  {
    IdOfAsString(g);
  }

  lemma WebhookReads(w: Snowflake)
    ensures var p := WebhookPath(w, End);
      GroupOf(p) == WebhookGroup && DecodeWebhookCall(GET, p) == Some(WebhooksGet(w)) &&
      DecodeWebhookCall(PATCH, p) == Some(WebhooksModify(w)) && DecodeWebhookCall(DELETE, p) == Some(WebhooksDelete(w))
  {
    IdOfAsString(w);
  }

  lemma WebhookTokenReads(w: Snowflake, token: string)
    ensures var p := WebhookPath(w, One(token));
      GroupOf(p) == WebhookGroup && DecodeWebhookCall(GET, p) == Some(WebhooksGetWithToken(w, token)) &&
      DecodeWebhookCall(PATCH, p) == Some(WebhooksModifyWithToken(w, token)) &&
      DecodeWebhookCall(DELETE, p) == Some(WebhooksDeleteWithToken(w, token)) &&
      DecodeWebhookCall(POST, p) == Some(WebhooksExecute(w, token))
  {
    IdOfAsString(w);
  }

  lemma WebhookExecuteReads(w: Snowflake, token: string)
    ensures var slack, github := WebhookPath(w, Two(token, "slack")), WebhookPath(w, Two(token, "github"));
      GroupOf(slack) == WebhookGroup && DecodeWebhookCall(POST, slack) == Some(WebhooksExecuteSlack(w, token)) &&
      GroupOf(github) == WebhookGroup && DecodeWebhookCall(POST, github) == Some(WebhooksExecuteGitHub(w, token))
  {
    IdOfAsString(w);
  }

  /** The webhook builders' routes read back as the calls that made them. */
  lemma WebhookCallsRead(call: WebhookCall)
    ensures var t := WebhookTarget(call);
      GroupOf(t.path) == WebhookGroup && DecodeWebhookCall(t.verb, t.path) == Some(call)
  {
    match call
    case WebhookCreate(c) => ChannelWebhooksReads(c);
    case ChannelsWebhooksGet(c) => ChannelWebhooksReads(c);
    case GuildsWebhooksGet(g) => GuildWebhooksReads(g);
    case WebhooksGet(w) => WebhookReads(w);
    case WebhooksModify(w) => WebhookReads(w);
    case WebhooksDelete(w) => WebhookReads(w);
    case WebhooksGetWithToken(w, t) => WebhookTokenReads(w, t);
    case WebhooksModifyWithToken(w, t) => WebhookTokenReads(w, t);
    case WebhooksDeleteWithToken(w, t) => WebhookTokenReads(w, t);
    case WebhooksExecute(w, t) => WebhookTokenReads(w, t);
    case WebhooksExecuteSlack(w, t) => WebhookExecuteReads(w, t);
    case WebhooksExecuteGitHub(w, t) => WebhookExecuteReads(w, t);
  }

  lemma GuildRootReads(g: Snowflake)
    ensures var p := GuildPath(g, End);
      GroupOf(p) == GuildGroup && DecodeGuildCall(GET, p) == Some(GuildGet(g)) &&
      DecodeGuildCall(PATCH, p) == Some(GuildModify(g)) && DecodeGuildCall(DELETE, p) == Some(GuildDelete(g))
  {
    IdOfAsString(g);
  }

  lemma GuildChannelsReads(g: Snowflake)
    ensures var p := GuildPath(g, One("channels"));
      GroupOf(p) == GuildGroup && DecodeGuildCall(GET, p) == Some(GuildChannelsGet(g)) &&
      DecodeGuildCall(POST, p) == Some(GuildChannelsCreate(g)) &&
      DecodeGuildCall(PATCH, p) == Some(GuildChannelsModifyPosition(g))
  {
    IdOfAsString(g);
  }

  lemma GuildPruneReads(g: Snowflake)
    ensures var p := GuildPath(g, One("prune"));
      GroupOf(p) == GuildGroup && DecodeGuildCall(GET, p) == Some(GuildPruneCount(g)) &&
      DecodeGuildCall(POST, p) == Some(GuildPruneStart(g))
  {
    IdOfAsString(g);
  }

  lemma GuildEmbedReads(g: Snowflake)
    ensures var p := GuildPath(g, One("embed"));
      GroupOf(p) == GuildGroup && DecodeGuildCall(GET, p) == Some(GuildEmbedGet(g)) &&
      DecodeGuildCall(PATCH, p) == Some(GuildEmbedModify(g))
  {
    IdOfAsString(g);
  }

  /** The guild's read-only listings: voice regions, invites, vanity URL and audit log. */
  lemma GuildListingsReads(g: Snowflake)
    ensures var regions, invites := GuildPath(g, One("regions")), GuildPath(g, One("invites"));
      GroupOf(regions) == GuildGroup && DecodeGuildCall(GET, regions) == Some(GuildVoiceRegionsGet(g)) &&
      GroupOf(invites) == GuildGroup && DecodeGuildCall(GET, invites) == Some(GuildInvitesGet(g))
    ensures var vanity, audit := GuildPath(g, One("vanity-url")), GuildPath(g, One("audit-logs"));
      GroupOf(vanity) == GuildGroup && DecodeGuildCall(GET, vanity) == Some(GuildVanityUrlGet(g)) &&
      GroupOf(audit) == GuildGroup && DecodeGuildCall(GET, audit) == Some(GuildAuditLogGet(g))
  {
    IdOfAsString(g);
  }

  /** The guild builders' routes read back as the calls that made them. */
  lemma GuildCallsRead(call: GuildCall)
    ensures var t := GuildTarget(call);
      GroupOf(t.path) == GuildGroup && DecodeGuildCall(t.verb, t.path) == Some(call)
  {
    match call
    case GuildCreate =>
    case GuildGet(g) => GuildRootReads(g);
    case GuildModify(g) => GuildRootReads(g);
    case GuildDelete(g) => GuildRootReads(g);
    case GuildChannelsGet(g) => GuildChannelsReads(g);
    case GuildChannelsCreate(g) => GuildChannelsReads(g);
    case GuildChannelsModifyPosition(g) => GuildChannelsReads(g);
    case GuildPruneCount(g) => GuildPruneReads(g);
    case GuildPruneStart(g) => GuildPruneReads(g);
    case GuildVoiceRegionsGet(g) => GuildListingsReads(g);
    case GuildInvitesGet(g) => GuildListingsReads(g);
    case GuildEmbedGet(g) => GuildEmbedReads(g);
    case GuildEmbedModify(g) => GuildEmbedReads(g);
    case GuildVanityUrlGet(g) => GuildListingsReads(g);
    case GuildAuditLogGet(g) => GuildListingsReads(g);
  }

  lemma MembersReads(g: Snowflake)
    ensures var list, nick := MembersPath(g, End), MembersPath(g, Two("@me", "nick"));
      GroupOf(list) == MemberGroup && DecodeMemberCall(GET, list) == Some(GuildMembersList(g)) &&
      GroupOf(nick) == MemberGroup && DecodeMemberCall(PATCH, nick) == Some(GuildMembersModifyNickMe(g))
  {
    IdOfAsString(g);
  }

  lemma MemberReads(g: Snowflake, u: Snowflake)
    ensures var p := MemberPath(g, u, End);
      GroupOf(p) == MemberGroup && DecodeMemberCall(GET, p) == Some(GuildMembersGet(g, u)) &&
      DecodeMemberCall(PUT, p) == Some(GuildMembersAdd(g, u)) &&
      DecodeMemberCall(PATCH, p) == Some(GuildMembersModify(g, u)) &&
      DecodeMemberCall(DELETE, p) == Some(GuildMembersRemove(g, u))
  {
    IdOfAsString(g);
    IdOfAsString(u);
  }

  lemma MemberRoleReads(g: Snowflake, u: Snowflake, r: Snowflake)
    ensures var p := MemberPath(g, u, Two("roles", AsString(r)));
      GroupOf(p) == MemberGroup && DecodeMemberCall(PUT, p) == Some(GuildMembersRoleAdd(g, u, r)) &&
      DecodeMemberCall(DELETE, p) == Some(GuildMembersRoleRemove(g, u, r))
  {
    IdOfAsString(g);
    IdOfAsString(u);
    IdOfAsString(r);
  }

  lemma BansReads(g: Snowflake)
    ensures var p := GuildPath(g, One("bans"));
      GroupOf(p) == MemberGroup && DecodeMemberCall(GET, p) == Some(GuildBansList(g))
  {
    IdOfAsString(g);
  }

  lemma BanReads(g: Snowflake, u: Snowflake)
    ensures var p := GuildPath(g, Two("bans", AsString(u)));
      GroupOf(p) == MemberGroup && DecodeMemberCall(GET, p) == Some(GuildBansGet(g, u)) &&
      DecodeMemberCall(PUT, p) == Some(GuildBansCreate(g, u)) && DecodeMemberCall(DELETE, p) == Some(GuildBansRemove(g, u))
  {
    IdOfAsString(g);
    IdOfAsString(u);
  }

  /** The member and ban builders' routes read back as the calls that made them, the misspelt remove as the other. */
  lemma MemberCallsRead(call: MemberCall)
    ensures var t := MemberTarget(call);
      GroupOf(t.path) == MemberGroup && DecodeMemberCall(t.verb, t.path) == Some(CanonMember(call))
  {
    match call
    case GuildMembersList(g) => MembersReads(g);
    case GuildMembersModifyNickMe(g) => MembersReads(g);
    case GuildMembersGet(g, u) => MemberReads(g, u);
    case GuildMembersAdd(g, u) => MemberReads(g, u);
    case GuildMembersModify(g, u) => MemberReads(g, u);
    case GuildMembersRemove(g, u) => MemberReads(g, u);
    case GuildMembresRemove(g, u) => MemberReads(g, u);
    case GuildMembersRoleAdd(g, u, r) => MemberRoleReads(g, u, r);
    case GuildMembersRoleRemove(g, u, r) => MemberRoleReads(g, u, r);
    case GuildBansList(g) => BansReads(g);
    case GuildBansGet(g, u) => BanReads(g, u);
    case GuildBansCreate(g, u) => BanReads(g, u);
    case GuildBansRemove(g, u) => BanReads(g, u);
  }

  lemma RolesReads(g: Snowflake)
    ensures var p := GuildPath(g, One("roles"));
      GroupOf(p) == GuildItemGroup && DecodeGuildItemCall(GET, p) == Some(GuildRolesGet(g)) &&
      DecodeGuildItemCall(POST, p) == Some(GuildRolesCreate(g)) &&
      DecodeGuildItemCall(PATCH, p) == Some(GuildRolesPositionModify(g))
  {
    IdOfAsString(g);
  }

  lemma RoleReads(g: Snowflake, r: Snowflake)
    ensures var p := GuildPath(g, Two("roles", AsString(r)));
      GroupOf(p) == GuildItemGroup && DecodeGuildItemCall(PATCH, p) == Some(GuildRolesModify(g, r)) &&
      DecodeGuildItemCall(DELETE, p) == Some(GuildRolesDelete(g, r))
  {
    IdOfAsString(g);
    IdOfAsString(r);
  }

  lemma IntegrationsReads(g: Snowflake)
    ensures var p := GuildPath(g, One("integrations"));
      GroupOf(p) == GuildItemGroup && DecodeGuildItemCall(GET, p) == Some(GuildIntegrationsGet(g)) &&
      DecodeGuildItemCall(POST, p) == Some(GuildIntegrationsCreate(g))
  {
    IdOfAsString(g);
  }

  lemma IntegrationReads(g: Snowflake, i: Snowflake)
    ensures var p := GuildPath(g, Two("integrations", AsString(i)));
      GroupOf(p) == GuildItemGroup && DecodeGuildItemCall(PATCH, p) == Some(GuildIntegrationsModify(g, i)) &&
      DecodeGuildItemCall(DELETE, p) == Some(GuildIntegrationsDelete(g, i))
  {
    IdOfAsString(g);
    IdOfAsString(i);
  }

  lemma IntegrationSyncReads(g: Snowflake, i: Snowflake)
    ensures var p := GuildPath(g, Seg("integrations", Two(AsString(i), "sync")));
      GroupOf(p) == GuildItemGroup && DecodeGuildItemCall(POST, p) == Some(GuildIntegrationsSync(g, i))
  {
    IdOfAsString(g);
    IdOfAsString(i);
  }

  lemma EmojisReads(g: Snowflake)
    ensures var p := GuildPath(g, One("emojis"));
      GroupOf(p) == GuildItemGroup && DecodeGuildItemCall(GET, p) == Some(GuildEmojisGet(g)) &&
      DecodeGuildItemCall(POST, p) == Some(GuildEmojisCreate(g))
  {
    IdOfAsString(g);
  }

  lemma EmojiReads(g: Snowflake, emoji: string)
    ensures var p := GuildPath(g, Two("emojis", emoji));
      GroupOf(p) == GuildItemGroup && DecodeGuildItemCall(GET, p) == Some(GuildEmojiGet(g, emoji)) &&
      DecodeGuildItemCall(PATCH, p) == Some(GuildEmojisModify(g, emoji)) &&
      DecodeGuildItemCall(DELETE, p) == Some(GuildEmojisDelete(g, emoji))
  {
    IdOfAsString(g);
  }

  /** The role, integration and emoji builders' routes read back as the calls that made them. */
  lemma GuildItemCallsRead(call: GuildItemCall)
    ensures var t := GuildItemTarget(call);
      GroupOf(t.path) == GuildItemGroup && DecodeGuildItemCall(t.verb, t.path) == Some(call)
  {
    match call
    case GuildRolesGet(g) => RolesReads(g);
    case GuildRolesCreate(g) => RolesReads(g);
    case GuildRolesPositionModify(g) => RolesReads(g);
    case GuildRolesModify(g, r) => RoleReads(g, r);
    case GuildRolesDelete(g, r) => RoleReads(g, r);
    case GuildIntegrationsGet(g) => IntegrationsReads(g);
    case GuildIntegrationsCreate(g) => IntegrationsReads(g);
    case GuildIntegrationsModify(g, i) => IntegrationReads(g, i);
    case GuildIntegrationsDelete(g, i) => IntegrationReads(g, i);
    case GuildIntegrationsSync(g, i) => IntegrationSyncReads(g, i);
    case GuildEmojisGet(g) => EmojisReads(g);
    case GuildEmojisCreate(g) => EmojisReads(g);
    case GuildEmojiGet(g, emoji) => EmojiReads(g, emoji);
    case GuildEmojisModify(g, emoji) => EmojiReads(g, emoji);
    case GuildEmojisDelete(g, emoji) => EmojiReads(g, emoji);
  }

  /**
   * Every route a builder returns reads back as the builder and the
   * arguments it was called with, provided the free-text arguments hold no
   * `/`: the builders never give two calls the same route except the
   * misspelt remove, which repeats `guildMembersRemove`.
   */
  lemma DecodeRouteOf(e: Endpoint)
    requires WellFormed(e)
    ensures Decode(RouteOf(e)) == Some(Canon(e))
  {
    var t := TargetOf(e);
    TargetsRead(e);
    SplitJoin(t.path);
  }

  /** Every builder's method and path read back as the builder's call. */
  lemma TargetsRead(e: Endpoint)
    ensures DecodeTarget(TargetOf(e).verb, TargetOf(e).path) == Some(Canon(e))
  {
    match e
    case OnGateway(call) => GatewayTargetRead(call);
    case OnChannel(call) => ChannelTargetRead(call);
    case OnMessage(call) => MessageTargetRead(call);
    case OnVoice(call) => VoiceCallsRead(call);
    case OnInvite(call) => InviteTargetRead(call);
    case OnUser(call) => UserTargetRead(call);
    case OnWebhook(call) => WebhookTargetRead(call);
    case OnGuild(call) => GuildTargetRead(call);
    case OnMember(call) => MemberTargetRead(call);
    case OnGuildItem(call) => GuildItemTargetRead(call);
  }

  lemma GatewayTargetRead(call: GatewayCall)
    ensures DecodeTarget(GatewayTarget(call).verb, GatewayTarget(call).path) == Some(OnGateway(call))
  {
    GatewayCallsRead(call);
  }

  lemma ChannelTargetRead(call: ChannelCall)
    ensures DecodeTarget(ChannelTarget(call).verb, ChannelTarget(call).path) == Some(OnChannel(call))
  {
    ChannelCallsRead(call);
  }

  lemma MessageTargetRead(call: MessageCall)
    ensures DecodeTarget(MessageTarget(call).verb, MessageTarget(call).path) == Some(OnMessage(call))
  {
    MessageCallsRead(call);
  }

  lemma InviteTargetRead(call: InviteCall)
    ensures DecodeTarget(InviteTarget(call).verb, InviteTarget(call).path) == Some(OnInvite(call))
  {
    InviteCallsRead(call);
  }

  lemma UserTargetRead(call: UserCall)
    ensures DecodeTarget(UserTarget(call).verb, UserTarget(call).path) == Some(OnUser(call))
  {
    UserCallsRead(call);
  }

  lemma WebhookTargetRead(call: WebhookCall)
    ensures DecodeTarget(WebhookTarget(call).verb, WebhookTarget(call).path) == Some(OnWebhook(call))
  {
    WebhookCallsRead(call);
  }

  lemma GuildTargetRead(call: GuildCall)
    ensures DecodeTarget(GuildTarget(call).verb, GuildTarget(call).path) == Some(OnGuild(call))
  {
    GuildCallsRead(call);
  }

  lemma MemberTargetRead(call: MemberCall)
    ensures DecodeTarget(MemberTarget(call).verb, MemberTarget(call).path) == Some(OnMember(CanonMember(call)))
  {
    MemberCallsRead(call);
  }

  lemma GuildItemTargetRead(call: GuildItemCall)
    ensures DecodeTarget(GuildItemTarget(call).verb, GuildItemTarget(call).path) == Some(OnGuildItem(call))
  {
    GuildItemCallsRead(call);
  }

  /** Two builder calls with the same route are the same call, up to the misspelt remove. */
  lemma RoutesDistinguishCalls(e1: Endpoint, e2: Endpoint)
    requires WellFormed(e1) && WellFormed(e2)
    requires RouteOf(e1) == RouteOf(e2)
    ensures Canon(e1) == Canon(e2)
  {
    DecodeRouteOf(e1);
    DecodeRouteOf(e2);
  }

  /** `guildMembresRemove` builds exactly the route of `guildMembersRemove`. */
  lemma MisspeltRemoveIsRemove(g: Snowflake, u: Snowflake)
    ensures RouteOf(OnMember(GuildMembresRemove(g, u))) == RouteOf(OnMember(GuildMembersRemove(g, u)))
    ensures RouteOf(OnMember(GuildMembresRemove(g, u))).verb == DELETE
  {
  }
}
