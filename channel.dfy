/**
 * Types/Channel/Channel.swift: a channel is a class; the client it is
 * handled by is a property whose observer hands the same client to every
 * recipient. The guild a channel belongs to is looked up in the client's
 * state; the operations take what that lookup yields as a parameter.
 */
module Channels {
  import opened Wrappers
  import opened Snowflakes
  import opened Keyed
  import opened Users
  import opened Routes
  import opened ChannelTypes
  import opened GuildRoles
  import opened Requests

  class Channel {
    var client: Option<ClientRef>
    const id: Snowflake
    const channelType: ChannelType
    const guildId: Option<Snowflake>
    const name: Option<string>
    const nsfw: Option<bool>
    const parentId: Option<Snowflake>
    var recipients: Option<seq<User>>

    constructor(id: Snowflake, channelType: ChannelType, guildId: Option<Snowflake>, name: Option<string>,
                nsfw: Option<bool>, parentId: Option<Snowflake>, recipients: Option<seq<User>>)
      ensures this.id == id && this.channelType == channelType && this.guildId == guildId && this.name == name
      ensures this.nsfw == nsfw && this.parentId == parentId && this.recipients == recipients
      ensures client.None?
    {
      this.id := id;
      this.channelType := channelType;
      this.guildId := guildId;
      this.name := name;
      this.nsfw := nsfw;
      this.parentId := parentId;
      this.recipients := recipients;
      client := None;
    }

    /**
     * Assigning `client`: the observer walks the recipients, if any, and
     * hands each the same client.
     */
    method SetClient(c: Option<ClientRef>)
      modifies this
      ensures client == c
      ensures old(recipients).None? ==> recipients.None?
      ensures old(recipients).Some? ==> recipients == Some(AllWithClient(old(recipients).value, c))
    {
      client := c;
      if recipients.Some? {
        var users := recipients.value;
        var i := 0;
        while i < |users|
          invariant 0 <= i <= |users| == |old(recipients).value|
          invariant client == c && recipients == old(recipients)
          invariant forall j | 0 <= j < i :: users[j] == old(recipients).value[j].(client := c)
          invariant forall j | i <= j < |users| :: users[j] == old(recipients).value[j]
        {
          users := users[i := users[i].(client := c)];
          i := i + 1;
        }
        assert users == AllWithClient(old(recipients).value, c);
        recipients := Some(users);
      }
    }

    /** `mention`: `<#` and the snowflake and `>`. */
    function Mention(): (m: string)
      ensures |m| >= 4 && m[..2] == "<#" && m[|m| - 1] == '>'
    {
      "<#" + Snowflakes.Description(id) + ">"
    }

    /** `description`: the name, or the snowflake for a channel without one. */
    function Description(): (s: string)
      ensures name.Some? ==> s == name.value
      ensures name.None? ==> Parse(s) == Some(id)
    {
      ParseDescription(id);
      name.GetOr(Snowflakes.Description(id))
    }

    predicate IsGuild()
      ensures IsGuild() <==> !IsDmType(channelType) && channelType != News && channelType != Store
    {
      Classification(channelType);
      IsGuildType(channelType)
    }

    predicate IsDm()
      ensures IsDm() ==> IsVoiceType(channelType) && !IsGuildType(channelType)
    {
      IsDmType(channelType)
    }

    /** `isNsfw`: a text channel flagged NSFW; a missing flag counts as not. */
    predicate IsNsfw()
      ensures IsNsfw() ==> IsGuildType(channelType) && !IsVoiceType(channelType) && nsfw == Some(true)
    {
      channelType == Text && nsfw.GetOr(false)
    }

    predicate IsVoice()
      ensures IsVoice() <==> channelType in {Voice, Dm, GroupDm}
    {
      IsVoiceType(channelType)
    }

    /** `get(message:)`. */
    function GetMessage(message: Snowflake): (r: Request)
      ensures r.call == OnMessage(ChannelMessagesGet(id, message)) && r.body == NoBody
    {
      Request(OnMessage(ChannelMessagesGet(id, message)), NoBody)
    }

    /** `send(_:isTts:embed:)`: the text, no nonce, and no mention allowed to ping. */
    function Send(content: string, isTts: bool): (r: Request)
      ensures r.call == OnMessage(ChannelMessagesCreate(id))
      ensures r.body == CreateMessage(content, None, Some(isTts), true)
    {
      SendPayload(CreateMessage(content, None, Some(isTts), true))
    }

    /** `send(_ message:)`: a prepared payload, as given. */
    function SendPayload(body: Payload): (r: Request)
      ensures r.call == OnMessage(ChannelMessagesCreate(id)) && r.body == body
    {
      Request(OnMessage(ChannelMessagesCreate(id)), body)
    }

    /** `pins`. */
    function Pins(): (r: Request)
      ensures r.call == OnChannel(ChannelPinsGet(id)) && r.body == NoBody
    {
      Request(OnChannel(ChannelPinsGet(id)), NoBody)
    }

    /** `pin(message:)`. */
    function Pin(message: Snowflake): (r: Request)
      ensures r.call == OnChannel(ChannelsPinsAdd(id, message)) && r.body == NoBody
    {
      Request(OnChannel(ChannelsPinsAdd(id, message)), NoBody)
    }

    /** `unpin(message:)`. */
    function Unpin(message: Snowflake): (r: Request)
      ensures r.call == OnChannel(ChannelsPinsDelete(id, message)) && r.body == NoBody
    {
      Request(OnChannel(ChannelsPinsDelete(id, message)), NoBody)
    }

    /** `startTyping`. */
    function StartTyping(): (r: Request)
      ensures r.call == OnChannel(ChannelTyping(id)) && r.body == NoBody
    {
      Request(OnChannel(ChannelTyping(id)), NoBody)
    }

    /**
     * `delete(messages:)`: nothing for no ids, the single-message delete
     * for one, and one bulk delete carrying every id for more.
     */
    function DeleteMessages(ids: seq<Snowflake>): (rs: seq<Request>)
      ensures |rs| <= 1 && (rs == [] <==> ids == [])
    {
      if ids == [] then []
      else if |ids| == 1 then [Request(OnMessage(ChannelMessagesDelete(id, ids[0])), NoBody)]
      else [Request(OnMessage(ChannelMessagesDeleteBulk(id)), BulkDeleteMessages(ids))]
    }

    /**
     * `delete()`: allowed in a direct message, or when the channel's guild
     * grants `manageChannels`; `guildPermissions` is `guild?.permissions`.
     */
    function Delete(guildPermissions: Option<Permissions>): (r: Result<Request, RestError>)
      ensures r.Ok? <==> IsDm() || (guildPermissions.Some? && ManageChannels in guildPermissions.value)
      ensures r.Ok? ==> r.value == Request(OnChannel(ChannelDelete(id)), NoBody)
      ensures r.Err? ==> r.error == InvalidPermissions
    {
      if IsDm() || ManageChannels in guildPermissions.GetOr({}) then
        Ok(Request(OnChannel(ChannelDelete(id)), NoBody))
      else Err(InvalidPermissions)
    }

    /** `close()`: only a direct message can be closed, and closing it deletes it. */
    function Close(guildPermissions: Option<Permissions>): (r: Result<Request, RestError>)
      ensures r.Ok? <==> IsDm()
      ensures r.Ok? ==> r == Delete(guildPermissions)
    {
      if !IsDm() then Err(InvalidPermissions) else Delete(guildPermissions)
    }
  }

  /** The messages a request deletes. */
  function DeletedMessages(r: Request): set<Snowflake> {
    match r.call
    case OnMessage(ChannelMessagesDelete(_, m)) => {m}
    case OnMessage(ChannelMessagesDeleteBulk(_)) => if r.body.BulkDeleteMessages? then set m | m in r.body.messages else {}
    case _ => {}
  }

  /**
   * The requests of `delete(messages:)` delete exactly the given messages,
   * all in this channel, with at most one request.
   */
  lemma DeleteMessagesDeletesThem(ch: Channel, ids: seq<Snowflake>)
    ensures var rs := ch.DeleteMessages(ids);
      (forall r | r in rs :: DeletedMessages(r) == set m | m in ids) &&
      (forall r | r in rs :: r.call.OnMessage? && r.call.messageCall.channel == ch.id)
  {
    if |ids| == 1 {
      assert (set m | m in ids) == {ids[0]};
    }
  }

  /** The mention's text between `<#` and `>` reads back as the channel's snowflake. */
  lemma MentionNamesChannel(ch: Channel)
    ensures var m := ch.Mention(); Parse(m[2..|m| - 1]) == Some(ch.id)
  {
    var m := ch.Mention();
    assert m[2..|m| - 1] == Snowflakes.Description(ch.id);
    ParseDescription(ch.id);
  }

  /** A channel is a guild channel, a direct message, or a news or store channel, and never two of these. */
  lemma ChannelClassification(ch: Channel)
    ensures !(ch.IsGuild() && ch.IsDm())
    ensures !ch.IsGuild() && !ch.IsDm() <==> ch.channelType in {News, Store}
    ensures ch.IsVoice() <==> ch.channelType == Voice || ch.IsDm()
    ensures ch.IsNsfw() ==> ch.IsGuild() && !ch.IsDm()
  {
    Classification(ch.channelType);
  }

  /** A direct message can always be deleted and closed; a guild channel can be deleted only with `manageChannels`. */
  lemma DeleteAndCloseGuards(ch: Channel, guildPermissions: Option<Permissions>)
    ensures ch.IsDm() ==> ch.Close(guildPermissions).Ok? && ch.Delete(guildPermissions).Ok?
    ensures ch.IsGuild() ==> ch.Close(guildPermissions).Err?
    ensures ch.IsGuild() ==>
      (ch.Delete(guildPermissions).Ok? <==> guildPermissions.Some? && ManageChannels in guildPermissions.value)
  {
    Classification(ch.channelType);
  }

  /** Pinning and unpinning a message address the same endpoint, with PUT and DELETE. */
  lemma PinUnpinPair(ch: Channel, message: Snowflake)
    ensures RouteOf(ch.Pin(message).call).endpoint == RouteOf(ch.Unpin(message).call).endpoint
    ensures RouteOf(ch.Pin(message).call).verb == PUT && RouteOf(ch.Unpin(message).call).verb == DELETE
  {
    var p := ChannelPath(ch.id, Two("pins", AsString(message)));
    assert TargetOf(ch.Pin(message).call) == Target(PUT, p);
    assert TargetOf(ch.Unpin(message).call) == Target(DELETE, p);
  }
}
