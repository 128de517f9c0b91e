/**
 * Types/Guild/Guild.swift: a guild is a class holding its roles, members
 * and channels; the client it is handled by is a property whose observer
 * hands the same client to every member (recording the guild on each) and
 * to every channel.
 */
module Guilds {
  import opened Wrappers
  import opened Decimal
  import opened Snowflakes
  import opened Keyed
  import opened Users
  import opened Routes
  import opened ChannelTypes
  import opened GuildRoles
  import opened Requests
  import opened Channels
  import opened GuildMembers

  /** `parent?.id`. */
  function ParentId(parent: Option<Channel>): (p: Option<Snowflake>)
    ensures p.Some? <==> parent.Some?
    ensures parent.Some? ==> p.value == parent.value.id
  {
    if parent.Some? then Some(parent.value.id) else None
  }

  /** The user a member holds, handed to a client. */
  function UserWithClient(u: Option<User>, c: Option<ClientRef>): Option<User> {
    if u.Some? then Some(u.value.(client := c)) else None
  }

  /** The recipients a channel holds, handed to a client. */
  function RecipientsWithClient(us: Option<seq<User>>, c: Option<ClientRef>): Option<seq<User>> {
    if us.Some? then Some(AllWithClient(us.value, c)) else None
  }

  /** What `ban` and `unban` are given: a member, a user, or some other snowflake-keyed entity. */
  datatype EntityKind = MemberEntity | UserEntity | OtherEntity
  datatype Bannable = Bannable(kind: EntityKind, flake: Snowflake)

  const CdnUrl: string := "https://cdn.discordapp.com"
  const DefaultImageFormat: string := "png"
  const DefaultImageSize: int := 1024

  /** The CDN root of a guild image of one kind. */
  function ImageRoot(kind: string): string {
    CdnUrl + "/" + kind + "/"
  }

  /** A CDN image URL: the kind of image, the guild, the image hash, format and size. */
  function ImageUrl(kind: string, guild: Snowflake, hash: string, format: string, size: int): (u: string)
    ensures NamesAsset(u, ImageRoot(kind), guild, hash, format, size)
  {
    AssetUrlReadsBack(ImageRoot(kind), guild, hash, format, size);
    AssetUrl(ImageRoot(kind), guild, hash, format, size)
  }

  class Guild {
    var client: Option<ClientRef>
    const id: Snowflake
    const name: string
    const icon: Option<string>
    const splash: Option<string>
    const ownerId: Snowflake
    const permissions: Option<Permissions>
    var roles: seq<GuildRole>
    var members: seq<GuildMember>
    var channels: seq<Channel>

    constructor(id: Snowflake, name: string, icon: Option<string>, splash: Option<string>, ownerId: Snowflake,
                permissions: Option<Permissions>, roles: seq<GuildRole>, members: seq<GuildMember>, channels: seq<Channel>)
      ensures this.id == id && this.name == name && this.icon == icon && this.splash == splash
      ensures this.ownerId == ownerId && this.permissions == permissions
      ensures this.roles == roles && this.members == members && this.channels == channels && client.None?
    {
      this.id := id;
      this.name := name;
      this.icon := icon;
      this.splash := splash;
      this.ownerId := ownerId;
      this.permissions := permissions;
      this.roles := roles;
      this.members := members;
      this.channels := channels;
      client := None;
    }

    /**
     * Assigning `client`: every member gets the client (and, through its
     * own observer, its user) and this guild's id; every channel gets the
     * client (and, through its observer, its recipients). A member or
     * channel listed twice ends the same as if listed once.
     */
    method SetClient(c: Option<ClientRef>)
      modifies this, members, channels
      ensures client == c && members == old(members) && channels == old(channels) && roles == old(roles)
      ensures forall m | m in members :: (m.client == c && m.guildId == Some(id) &&
        m.user == UserWithClient(old(m.user), c) && m.nick == old(m.nick) && m.roles == old(m.roles))
      ensures forall ch | ch in channels :: ch.client == c && ch.recipients == RecipientsWithClient(old(ch.recipients), c)
    {
      client := c;
      HandMembers(c);
      HandChannels(c);
    }

    /** The members' half of the observer. */
    method HandMembers(c: Option<ClientRef>)
      modifies members
      ensures forall m | m in members :: (m.client == c && m.guildId == Some(id) &&
        m.user == UserWithClient(old(m.user), c) && m.nick == old(m.nick) && m.roles == old(m.roles))
    {
      for i := 0 to |members|
        invariant forall m | m in members :: m.user == old(m.user) || m.user == UserWithClient(old(m.user), c)
        invariant forall m | m in members :: m.nick == old(m.nick) && m.roles == old(m.roles)
        invariant forall j | 0 <= j < i :: (members[j].client == c && members[j].guildId == Some(id) &&
          members[j].user == UserWithClient(old(members[j].user), c))
      {
        members[i].SetClient(c);
        members[i].guildId := Some(id);
      }
    }

    /** The channels' half of the observer. */
    method HandChannels(c: Option<ClientRef>)
      modifies channels
      ensures forall ch | ch in channels :: ch.client == c && ch.recipients == RecipientsWithClient(old(ch.recipients), c)
    {
      for i := 0 to |channels|
        invariant forall ch | ch in channels ::
          ch.recipients == old(ch.recipients) || ch.recipients == RecipientsWithClient(old(ch.recipients), c)
        invariant forall j | 0 <= j < i :: (channels[j].client == c &&
          channels[j].recipients == RecipientsWithClient(old(channels[j].recipients), c))
      {
        var ch := channels[i];
        if ch.recipients.Some? {
          AllWithClientKeepsUsers(old(ch.recipients).value, c);
        }
        ch.SetClient(c);
      }
    }

    /** `owner`: the first member whose user is the owner; the source traps when there is none. */
    function Owner(): (m: GuildMember)
      reads this, members
      requires Findable(members, ownerId)
      ensures m in members && m.user.Some? && m.user.value.id == ownerId
    {
      members[MemberIndex(members, ownerId)]
    }

    /** `getPermissions(for:)`, for the member's user snowflake and role ids. */
    function GetPermissions(member: GuildMember): (p: Permissions)
      reads this, member
      requires member.user.Some?
      ensures member.user.value.id == ownerId ==> p == {Administrator}
      ensures member.user.value.id != ownerId ==> EveryonePermissions(roles, id) <= p
      ensures member.user.value.id != ownerId ==> forall r | r in roles && r.id in member.roles :: r.permissions <= p
    {
      MemberPermissions(roles, id, ownerId, member.Id(), member.roles)
    }

    /**
     * `createTextChannel`: the parent, if given, must be a category; the
     * payload carries the text-channel fields given and no voice fields.
     */
    function CreateTextChannel(channelName: string, position: Option<int>, parent: Option<Channel>, topic: Option<string>,
                               isNsfw: Option<bool>, rateLimitPerUser: Option<int>,
                               overwrites: Option<seq<PermissionOverwrite>>): (r: Result<Request, RestError>)
      ensures r.Err? <==> parent.Some? && parent.value.channelType != Category
      ensures r.Err? ==> r.error == UnusableParent
      ensures r.Ok? ==> r.value.call == OnGuild(GuildChannelsCreate(id))
      ensures r.Ok? ==> r.value.body == CreateChannel(channelName, Text, topic, None, None, rateLimitPerUser, position,
                                                      overwrites, ParentId(parent), isNsfw)
    {
      if parent.Some? && parent.value.channelType != Category then Err(UnusableParent)
      else Ok(Request(OnGuild(GuildChannelsCreate(id)),
                      CreateChannel(channelName, Text, topic, None, None, rateLimitPerUser, position, overwrites,
                                    ParentId(parent), isNsfw)))
    }

    /**
     * `createVoiceChannel`: the parent, if given, must be a category; the
     * payload carries the voice-channel fields given and no text fields.
     */
    function CreateVoiceChannel(channelName: string, position: Option<int>, parent: Option<Channel>, bitrate: Option<int>,
                                userLimit: Option<int>, overwrites: Option<seq<PermissionOverwrite>>): (r: Result<Request, RestError>)
      ensures r.Err? <==> parent.Some? && parent.value.channelType != Category
      ensures r.Err? ==> r.error == UnusableParent
      ensures r.Ok? ==> r.value.call == OnGuild(GuildChannelsCreate(id))
      ensures r.Ok? ==> r.value.body == CreateChannel(channelName, Voice, None, bitrate, userLimit, None, position,
                                                      overwrites, ParentId(parent), None)
    {
      if parent.Some? && parent.value.channelType != Category then Err(UnusableParent)
      else Ok(Request(OnGuild(GuildChannelsCreate(id)),
                      CreateChannel(channelName, Voice, None, bitrate, userLimit, None, position, overwrites,
                                    ParentId(parent), None)))
    }

    /** `createCategory`: a category channel, never under a parent, with only a name and a position. */
    function CreateCategory(channelName: string, position: Option<int>): (r: Request)
      ensures r.call == OnGuild(GuildChannelsCreate(id))
      ensures r.body.CreateChannel? && r.body.channelType == Category && r.body.name == channelName
      ensures r.body.parent.None? && r.body.position == position
    {
      Request(OnGuild(GuildChannelsCreate(id)), CreateChannel(channelName, Category, None, None, None, None, position, None, None, None))
    }

    /** `createRole`, with the source's defaults: no permissions, colour 1, neither hoisted nor mentionable. */
    function CreateRoleRequest(roleName: string, perms: Option<Permissions>, color: int, hoisted: bool,
                               mentionable: bool): (r: Request)
      ensures r.call == OnGuildItem(GuildRolesCreate(id)) && RouteOf(r.call).verb == POST
      ensures r.body == CreateRole(roleName, perms, color, hoisted, mentionable)
    {
      Request(OnGuildItem(GuildRolesCreate(id)), CreateRole(roleName, perms, color, hoisted, mentionable))
    }

    /** `deleteRole`. */
    function DeleteRole(role: GuildRole): (r: Request)
      ensures r.call == OnGuildItem(GuildRolesDelete(id, role.id)) && RouteOf(r.call).verb == DELETE && r.body == NoBody
    {
      Request(OnGuildItem(GuildRolesDelete(id, role.id)), NoBody)
    }

    /** `getBans`. */
    function GetBans(): (r: Request)
      ensures r.call == OnMember(GuildBansList(id)) && RouteOf(r.call).verb == GET && r.body == NoBody
    {
      Request(OnMember(GuildBansList(id)), NoBody)
    }

    /** `leave`: the current user leaves this guild. */
    function Leave(): (r: Request)
      ensures r.call == OnUser(UserGuildLeave(id)) && RouteOf(r.call).verb == DELETE && r.body == NoBody
    {
      Request(OnUser(UserGuildLeave(id)), NoBody)
    }

    /** `getEmojis`. */
    function GetEmojis(): (r: Request)
      ensures r.call == OnGuildItem(GuildEmojisGet(id)) && RouteOf(r.call).verb == GET && r.body == NoBody
    {
      Request(OnGuildItem(GuildEmojisGet(id)), NoBody)
    }

    /** `ban`: members and users only, by their snowflake. */
    function Ban(target: Bannable): (r: Result<Request, RestError>)
      ensures r.Ok? <==> target.kind != OtherEntity
      ensures r.Err? ==> r.error == UnbannableInstance
      ensures r.Ok? ==> r.value == Request(OnMember(GuildBansCreate(id, target.flake)), NoBody)
      ensures r.Ok? ==> RouteOf(r.value.call).verb == PUT
    {
      if target.kind == OtherEntity then Err(UnbannableInstance)
      else Ok(Request(OnMember(GuildBansCreate(id, target.flake)), NoBody))
    }

    /** `unban`: members and users only, by their snowflake. */
    function Unban(target: Bannable): (r: Result<Request, RestError>)
      ensures r.Ok? <==> target.kind != OtherEntity
      ensures r.Err? ==> r.error == UnbannableInstance
      ensures r.Ok? ==> r.value == Request(OnMember(GuildBansRemove(id, target.flake)), NoBody)
      ensures r.Ok? ==> RouteOf(r.value.call).verb == DELETE
    {
      if target.kind == OtherEntity then Err(UnbannableInstance)
      else Ok(Request(OnMember(GuildBansRemove(id, target.flake)), NoBody))
    }

    /** `getIconUrl`: nothing without an icon. */
    function IconUrl(format: string, size: int): (r: Option<string>)
      ensures r.None? <==> icon.None?
      ensures r.Some? ==> NamesAsset(r.value, ImageRoot("icons"), id, icon.value, format, size)
    {
      if icon.None? then None else Some(ImageUrl("icons", id, icon.value, format, size))
    }

    /** `getSplashUrl`: nothing without a splash. */
    function SplashUrl(format: string, size: int): (r: Option<string>)
      ensures r.None? <==> splash.None?
      ensures r.Some? ==> NamesAsset(r.value, ImageRoot("splashes"), id, splash.value, format, size)
    {
      if splash.None? then None else Some(ImageUrl("splashes", id, splash.value, format, size))
    }
  }

  /** Some member, after members that all have a user, has a user with the snowflake. */
  predicate Findable(ms: seq<GuildMember>, flake: Snowflake)
    reads set m | m in ms
  {
    ms != [] && ms[0].user.Some? && (ms[0].user.value.id == flake || Findable(ms[1..], flake))
  }

  /** The subscript getter on members: the position of the first member with the snowflake. */
  function MemberIndex(ms: seq<GuildMember>, flake: Snowflake): (i: nat)
    reads set m | m in ms
    requires Findable(ms, flake)
    ensures i < |ms| && ms[i].user.Some? && ms[i].user.value.id == flake
    ensures forall j | 0 <= j < i :: ms[j].user.Some? && ms[j].user.value.id != flake
  {
    if ms[0].user.value.id == flake then 0 else 1 + MemberIndex(ms[1..], flake)
  }

  /** The permissions of the `@everyone` role, whose id is the guild's, or none when it is missing. */
  function EveryonePermissions(roles: seq<GuildRole>, guild: Snowflake): (p: Permissions)
    ensures p != {} ==> exists r | r in roles :: r.id == guild && r.permissions == p
  {
    match Get(roles, RoleKey, guild)
    case Some(r) => r.permissions
    case None => {}
  }

  /** `filter { member.roles.contains($0.id) }`. */
  function HeldRoles(roles: seq<GuildRole>, memberRoles: seq<Snowflake>): (held: seq<GuildRole>)
    ensures forall r :: r in held <==> r in roles && r.id in memberRoles
  {
    if roles == [] then []
    else (if roles[0].id in memberRoles then [roles[0]] else []) + HeldRoles(roles[1..], memberRoles)
  }

  /** `reduce(into:) { $0.formUnion($1.permissions) }`, from left to right. */
  function UnionOf(roles: seq<GuildRole>, acc: Permissions): (p: Permissions)
    ensures acc <= p
    ensures forall r | r in roles :: r.permissions <= p
    decreases |roles|
  {
    if roles == [] then acc else UnionOf(roles[1..], acc + roles[0].permissions)
  }

  /** The permissions of a member: administrator for the owner, otherwise `@everyone`'s and the held roles'. */
  function MemberPermissions(roles: seq<GuildRole>, guild: Snowflake, owner: Snowflake, member: Snowflake,
                             memberRoles: seq<Snowflake>): (p: Permissions)
    ensures member == owner ==> p == {Administrator}
    ensures member != owner ==> EveryonePermissions(roles, guild) <= p
    ensures member != owner ==> forall r | r in roles && r.id in memberRoles :: r.permissions <= p
  {
    if member == owner then {Administrator}
    else UnionOf(HeldRoles(roles, memberRoles), EveryonePermissions(roles, guild))
  }

  /** The fold grants exactly what the accumulator or some role grants. */
  lemma {:induction false} UnionOfGrants(roles: seq<GuildRole>, acc: Permissions, p: nat)
    ensures p in UnionOf(roles, acc) <==> p in acc || exists r | r in roles :: p in r.permissions
  {
    if roles != [] {
      UnionOfGrants(roles[1..], acc + roles[0].permissions, p);
      if p in UnionOf(roles, acc) && p !in acc && p !in roles[0].permissions {
        var r :| r in roles[1..] && p in r.permissions;
        assert r in roles;
      }
      if p !in acc && p !in roles[0].permissions && exists r | r in roles :: p in r.permissions {
        var r :| r in roles && p in r.permissions;
        assert r in roles[1..];
      }
    }
  }

  /**
   * A non-owner holds a permission exactly when `@everyone` grants it or
   * a guild role the member holds does; the owner holds administrator only.
   */
  lemma PermissionsGranted(roles: seq<GuildRole>, guild: Snowflake, owner: Snowflake, member: Snowflake,
                           memberRoles: seq<Snowflake>, p: nat)
    ensures member == owner ==> MemberPermissions(roles, guild, owner, member, memberRoles) == {Administrator}
    ensures member != owner ==> (p in MemberPermissions(roles, guild, owner, member, memberRoles) <==>
      p in EveryonePermissions(roles, guild) || exists r | r in roles :: r.id in memberRoles && p in r.permissions)
  {
    var held := HeldRoles(roles, memberRoles);
    UnionOfGrants(held, EveryonePermissions(roles, guild), p);
  }

  /** A role id the member holds that names no guild role changes nothing. */
  lemma UnknownRoleGrantsNothing(roles: seq<GuildRole>, guild: Snowflake, owner: Snowflake, member: Snowflake,
                                 memberRoles: seq<Snowflake>, unknown: Snowflake)
    requires forall r | r in roles :: r.id != unknown
    ensures MemberPermissions(roles, guild, owner, member, memberRoles + [unknown]) ==
      MemberPermissions(roles, guild, owner, member, memberRoles)
  {
    if member != owner {
      var more := memberRoles + [unknown];
      forall p: nat
        ensures p in MemberPermissions(roles, guild, owner, member, more) <==>
          p in MemberPermissions(roles, guild, owner, member, memberRoles)
      {
        PermissionsGranted(roles, guild, owner, member, more, p);
        PermissionsGranted(roles, guild, owner, member, memberRoles, p);
      }
    }
  }

  /** The owner of the guild is granted administrator outright, whatever roles it holds. */
  lemma OwnerIsAdministrator(g: Guild, m: GuildMember)
    requires m.user.Some?
    ensures m.IsOwner(g.ownerId) ==> g.GetPermissions(m) == {Administrator}
  {
  }

  /**
   * Every request a guild issues names that guild; a category is the
   * parentless text-channel request with the category type.
   */
  lemma GuildRequestsNameGuild(g: Guild, channelName: string, position: Option<int>, role: GuildRole)
    ensures g.CreateTextChannel(channelName, position, None, None, None, None, None).Ok?
    ensures g.CreateCategory(channelName, position) ==
      g.CreateTextChannel(channelName, position, None, None, None, None, None).value.(body :=
        CreateChannel(channelName, Category, None, None, None, None, position, None, None, None))
    ensures g.DeleteRole(role).call.guildItemCall.guild == g.id && g.DeleteRole(role).call.guildItemCall.role == role.id
    ensures g.GetBans().call.memberCall.guild == g.id && g.Leave().call.userCall.guild == g.id
    ensures g.GetEmojis().call.guildItemCall.guild == g.id
    ensures g.CreateRoleRequest(role.name, None, 1, false, false).call.guildItemCall.guild == g.id
  {
  }

  /**
   * Text and voice channels accept the same parents and go to the same
   * route; with none of the type-specific fields given, their payloads
   * differ only in the type, and a category parent is recorded by its id.
   */
  lemma TextAndVoiceChannelsAgree(g: Guild, channelName: string, position: Option<int>, parent: Option<Channel>,
                                  overwrites: Option<seq<PermissionOverwrite>>)
    ensures var t := g.CreateTextChannel(channelName, position, parent, None, None, None, overwrites);
      var v := g.CreateVoiceChannel(channelName, position, parent, None, None, overwrites);
      (t.Ok? <==> v.Ok?) &&
      (t.Ok? ==> t.value.call == v.value.call && t.value.body.(channelType := Voice) == v.value.body)
    ensures parent.Some? && parent.value.channelType == Category ==>
      g.CreateTextChannel(channelName, position, parent, None, None, None, overwrites).value.body.parent == Some(parent.value.id)
  {
  }

  /** `ban` and `unban` accept the same entities and name the same guild and snowflake. */
  lemma BanUnbanAgree(g: Guild, target: Bannable)
    ensures g.Ban(target).Ok? <==> target.kind != OtherEntity
    ensures g.Ban(target).Ok? <==> g.Unban(target).Ok?
    ensures g.Ban(target).Err? ==> g.Ban(target).error == UnbannableInstance && g.Unban(target).error == UnbannableInstance
    ensures g.Ban(target).Ok? ==> (g.Ban(target).value.call.memberCall.guild == g.id &&
      g.Ban(target).value.call.memberCall.user == target.flake &&
      g.Unban(target).value.call.memberCall.user == target.flake)
  {
  }

  /** A member as `GuildMember.ban` and `unban` hand it to its guild's `ban` and `unban`. */
  function MemberBannable(m: GuildMember): (t: Bannable)
    reads m
    requires m.user.Some?
    ensures t.kind == MemberEntity && t.flake == m.user.value.id
  {
    Bannable(MemberEntity, m.Id())
  }

  /** A member can always be banned and unbanned from its guild, by its user's snowflake. */
  lemma MemberBanUnban(g: Guild, m: GuildMember)
    requires m.user.Some?
    ensures g.Ban(MemberBannable(m)) == Ok(Request(OnMember(GuildBansCreate(g.id, m.user.value.id)), NoBody))
    ensures g.Unban(MemberBannable(m)) == Ok(Request(OnMember(GuildBansRemove(g.id, m.user.value.id)), NoBody))
  {
  }

  /** With the defaults, an icon URL is the CDN's `icons` path ending in `.png?size=1024`. */
  lemma IconUrlDefaults(g: Guild)
    requires g.icon.Some?
    ensures var u := g.IconUrl(DefaultImageFormat, DefaultImageSize).value;
      u == CdnUrl + "/icons/" + (Snowflakes.Description(g.id) + ("/" + (g.icon.value + ".png?size=1024")))
  {
    assert IntToString(1024) == "1024" by {
      assert NatToString(10) == NatToString(1) + [DigitChar(0)];
      assert NatToString(102) == NatToString(10) + [DigitChar(2)];
      assert NatToString(1024) == NatToString(102) + [DigitChar(4)];
    }
    assert AssetSuffix(DefaultImageFormat, DefaultImageSize) == ".png?size=1024";
  }
}
