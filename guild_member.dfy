/**
 * Types/Guild/GuildMember.swift: a guild member is a class wrapping the
 * member's user (absent in message events) with its guild-level data. The
 * member's guild is looked up in the client's state from `guildId`; the
 * operations take the guild's id from `guildId` and the current user's
 * snowflake as a parameter.
 */
module GuildMembers {
  import opened Wrappers
  import opened Snowflakes
  import opened Keyed
  import opened Users
  import opened Routes
  import opened GuildRoles
  import opened Requests

  class GuildMember {
    var client: Option<ClientRef>
    var user: Option<User>
    var nick: Option<string>
    var roles: seq<Snowflake>
    const premiumSince: Option<string>
    const isDeafened: bool
    const isMuted: bool
    var guildId: Option<Snowflake>

    /** The memberwise initialiser; `client` is left unset. */
    constructor(user: Option<User>, nick: Option<string>, roles: seq<Snowflake>, premiumSince: Option<string>,
                isDeafened: bool, isMuted: bool, guildId: Option<Snowflake>)
      ensures this.user == user && this.nick == nick && this.roles == roles && this.premiumSince == premiumSince
      ensures this.isDeafened == isDeafened && this.isMuted == isMuted && this.guildId == guildId
      ensures client.None?
    {
      this.user := user;
      this.nick := nick;
      this.roles := roles;
      this.premiumSince := premiumSince;
      this.isDeafened := isDeafened;
      this.isMuted := isMuted;
      this.guildId := guildId;
      client := None;
    }

    /** Assigning `client`: the observer hands the same client to the member's user, if any. */
    method SetClient(c: Option<ClientRef>)
      modifies this
      ensures client == c
      ensures user == (if old(user).Some? then Some(old(user).value.(client := c)) else None)
      ensures nick == old(nick) && roles == old(roles) && guildId == old(guildId)
    {
      client := c;
      if user.Some? {
        user := Some(user.value.(client := c));
      }
    }

    /** `copyWith`: a new member with the same fields, then handed to the client. */
    method CopyWith(c: Option<ClientRef>) returns (x: GuildMember)
      ensures fresh(x)
      ensures x.client == c && x.user == (if user.Some? then Some(user.value.(client := c)) else None)
      ensures x.nick == nick && x.roles == roles && x.premiumSince == premiumSince
      ensures x.isDeafened == isDeafened && x.isMuted == isMuted && x.guildId == guildId
    {
      x := new GuildMember(user, nick, roles, premiumSince, isDeafened, isMuted, guildId);
      x.SetClient(c);
    }

    /** `id`, and the member's `snowflakeDescription`: the user's snowflake; the user must be there. */
    function Id(): (r: Snowflake)
      reads this
      requires user.Some?
      ensures r == user.value.id
    {
      user.value.id
    }

    /** `identifier`: the member's snowflake as text. */
    function Identifier(): (r: Option<string>)
      reads this
      requires user.Some?
      ensures r.Some? && Parse(r.value) == Some(user.value.id)
    {
      Some(AsString(Id()))
    }

    /** `name`: the nickname when there is one, otherwise the username. */
    function Name(): (s: string)
      reads this
      requires nick.Some? || user.Some?
      ensures nick.Some? ==> s == nick.value
      ensures nick.None? ==> s == user.value.username
    {
      match nick
      case Some(n) => n
      case None => user.value.username
    }

    /** `isOwner`, for the member's guild whose owner is `ownerId`. */
    predicate IsOwner(ownerId: Snowflake)
      reads this
      requires user.Some?
      ensures IsOwner(ownerId) <==> user.value.id == ownerId
    {
      ownerId == Id()
    }

    /**
     * `setNickname`: the current user changes its own nickname through the
     * `@me` route; anyone else is modified with only the nickname set.
     */
    function SetNickname(newNick: string, me: Snowflake): (r: Request)
      reads this
      requires user.Some? && guildId.Some?
      ensures r.call.OnMember? && r.call.memberCall.guild == guildId.value
      ensures r.call.memberCall.GuildMembersModifyNickMe? <==> me == user.value.id
      ensures me == user.value.id ==> r.body == ModifyNickMe(newNick)
      ensures me != user.value.id ==> (r.call.memberCall == GuildMembersModify(guildId.value, user.value.id) &&
        r.body == ModifyGuildMember(Some(newNick), None, None, None, None))
    {
      if me == user.value.id then Request(OnMember(GuildMembersModifyNickMe(guildId.value)), ModifyNickMe(newNick))
      else Request(OnMember(GuildMembersModify(guildId.value, Id())), ModifyGuildMember(Some(newNick), None, None, None, None))
    }

    /** `clearNickname`: setting the empty nickname. */
    function ClearNickname(me: Snowflake): (r: Request)
      reads this
      requires user.Some? && guildId.Some?
      ensures r == SetNickname("", me)
    {
      SetNickname("", me)
    }

    /** `modify`: the member route with the role ids, mute, deafen and voice channel given, and no nickname. */
    function Modify(newRoles: Option<seq<GuildRole>>, mute: Option<bool>, deaf: Option<bool>,
                    voiceChannel: Option<Snowflake>): (r: Request)
      reads this
      requires user.Some? && guildId.Some?
      ensures r.call == OnMember(GuildMembersModify(guildId.value, user.value.id))
      ensures r.body.ModifyGuildMember? && r.body.nick.None?
      ensures r.body.mute == mute && r.body.deaf == deaf && r.body.channel == voiceChannel
      ensures newRoles.None? <==> r.body.roles.None?
      ensures newRoles.Some? ==> r.body.roles.value == RoleIds(newRoles.value)
    {
      var ids := if newRoles.Some? then Some(RoleIds(newRoles.value)) else None;
      Request(OnMember(GuildMembersModify(guildId.value, Id())), ModifyGuildMember(None, ids, mute, deaf, voiceChannel))
    }

    /** `kick`: remove the member from its guild. */
    function Kick(): (r: Request)
      reads this
      requires user.Some? && guildId.Some?
      ensures r.call.OnMember? && r.call.memberCall.GuildMembersRemove? && r.body.NoBody?
      ensures r.call.memberCall.guild == guildId.value && r.call.memberCall.user == user.value.id
    {
      Request(OnMember(GuildMembersRemove(guildId.value, Id())), NoBody)
    }

    /** `addRole`: give the member one role. */
    function AddRole(role: GuildRole): (r: Request)
      reads this
      requires user.Some? && guildId.Some?
      ensures r.call.OnMember? && r.call.memberCall.GuildMembersRoleAdd? && r.body.NoBody?
      ensures r.call.memberCall.guild == guildId.value && r.call.memberCall.user == user.value.id
      ensures r.call.memberCall.role == role.id
    {
      Request(OnMember(GuildMembersRoleAdd(guildId.value, Id(), role.id)), NoBody)
    }

    /** `removeRole`: take one role from the member. */
    function RemoveRole(role: GuildRole): (r: Request)
      reads this
      requires user.Some? && guildId.Some?
      ensures r.call.OnMember? && r.call.memberCall.GuildMembersRoleRemove? && r.body.NoBody?
      ensures r.call.memberCall.guild == guildId.value && r.call.memberCall.user == user.value.id
      ensures r.call.memberCall.role == role.id
    {
      Request(OnMember(GuildMembersRoleRemove(guildId.value, Id(), role.id)), NoBody)
    }

    /** `mention`: the user's mention. */
    function Mention(): (m: string)
      reads this
      requires user.Some?
      ensures |m| >= 4 && m[..2] == "<@" && m[|m| - 1] == '>' && Parse(m[2..|m| - 1]) == Some(user.value.id)
    {
      MentionNamesUser(user.value);
      Users.Mention(user.value)
    }

    /** `description`: the user's `username#discriminator`. */
    function Description(): (s: string)
      reads this
      requires user.Some?
      ensures |s| > |user.value.username| && s[..|user.value.username|] == user.value.username
      ensures s[|user.value.username|..] == "#" + user.value.discriminator
    {
      Users.Description(user.value)
    }
  }

  /** Adding a role and removing it address the same endpoint, with PUT and DELETE. */
  lemma RoleAddRemovePair(m: GuildMember, role: GuildRole)
    requires m.user.Some? && m.guildId.Some?
    ensures RouteOf(m.AddRole(role).call).endpoint == RouteOf(m.RemoveRole(role).call).endpoint
    ensures RouteOf(m.AddRole(role).call).verb == PUT && RouteOf(m.RemoveRole(role).call).verb == DELETE
  {
    var g, u := m.guildId.value, m.user.value.id;
    var p := MemberPath(g, u, Two("roles", AsString(role.id)));
    assert TargetOf(m.AddRole(role).call) == Target(PUT, p);
    assert TargetOf(m.RemoveRole(role).call) == Target(DELETE, p);
  }

  /** `map(\.id)` over roles. */
  function RoleIds(rs: seq<GuildRole>): (ids: seq<Snowflake>)
    ensures |ids| == |rs| && forall i | 0 <= i < |rs| :: ids[i] == rs[i].id
  {
    if rs == [] then [] else [rs[0].id] + RoleIds(rs[1..])
  }

  /** `modify` never changes the nickname, while `clearNickname` always sends the empty one. */
  lemma ModifyKeepsNickname(m: GuildMember, me: Snowflake, mute: Option<bool>)
    requires m.user.Some? && m.guildId.Some?
    ensures m.Modify(None, mute, None, None).body.nick.None?
    ensures var r := m.ClearNickname(me); r.body == ModifyNickMe("") || r.body.nick == Some("")
  {
  }
}
