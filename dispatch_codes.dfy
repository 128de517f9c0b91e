/**
 * Gateway/DispatchCodes.swift: the dispatch event names carried in the `t`
 * field of a gateway payload, and the typed event keys listeners register.
 */
module DispatchCodes {
  import opened Wrappers

  /** `DiscordEvent`, a `String` raw-valued enum. */
  datatype DiscordEvent =
    | Hello
    | Ready
    | Resumed
    | InvalidSession
    | ChannelCreate
    | ChannelUpdate
    | ChannelDelete
    | ChannelPinsUpdate
    | GuildCreate
    | GuildUpdate
    | GuildDelete
    | GuildBanAdd
    | GuildBanRemove
    | GuildEmojisUpdate
    | GuildIntegrationsUpdate
    | GuildMemberAdd
    | GuildMemberRemove
    | GuildMemberUpdate
    | GuildMembersChunk
    | GuildRoleCreate
    | GuildRoleUpdate
    | GuildRoleDelete
    | MessageCreate
    | MessageUpdate
    | MessageDelete
    | MessageDeleteBulk
    | MessageReactionAdd
    | MessageReactionRemove
    | MessageReactionRemoveAll
    | PresenceUpdate
    | TypingStart
    | UserUpdate
    | VoiceStateUpdate
    | VoiceServerUpdate
    | WebhooksUpdate

  /** The raw value of each case. */
  function Raw(e: DiscordEvent): string {
    match e
    case Hello => "HELLO"
    case Ready => "READY"
    case Resumed => "RESUMED"
    case InvalidSession => "INVALID_SESSION"
    case ChannelCreate => "CHANNEL_CREATE"
    case ChannelUpdate => "CHANNEL_UPDATE"
    case ChannelDelete => "CHANNEL_DELETE"
    case ChannelPinsUpdate => "CHANNEL_PINS_UPDATE"
    case GuildCreate => "GUILD_CREATE"
    case GuildUpdate => "GUILD_UPDATE"
    case GuildDelete => "GUILD_DELETE"
    case GuildBanAdd => "GUILD_BAN_ADD"
    case GuildBanRemove => "GUILD_BAN_REMOVE"
    case GuildEmojisUpdate => "GUILD_EMOJIS_UPDATE"
    case GuildIntegrationsUpdate => "GUILD_INTEGRATIONS_UPDATE"
    case GuildMemberAdd => "GUILD_MEMBER_ADD"
    case GuildMemberRemove => "GUILD_MEMBER_REMOVE"
    case GuildMemberUpdate => "GUILD_MEMBER_UPDATE"
    case GuildMembersChunk => "GUILD_MEMBERS_CHUNK"
    case GuildRoleCreate => "GUILD_ROLE_CREATE"
    case GuildRoleUpdate => "GUILD_ROLE_UPDATE"
    case GuildRoleDelete => "GUILD_ROLE_DELETE"
    case MessageCreate => "MESSAGE_CREATE"
    case MessageUpdate => "MESSAGE_UPDATE"
    case MessageDelete => "MESSAGE_DELETE"
    case MessageDeleteBulk => "MESSAGE_DELETE_BULK"
    case MessageReactionAdd => "MESSAGE_REACTION_ADD"
    case MessageReactionRemove => "MESSAGE_REACTION_REMOVE"
    case MessageReactionRemoveAll => "MESSAGE_REACTION_REMOVE_ALL"
    case PresenceUpdate => "PRESENCE_UPDATE"
    case TypingStart => "TYPING_START"
    case UserUpdate => "USER_UPDATE"
    case VoiceStateUpdate => "VOICE_STATE_UPDATE"
    case VoiceServerUpdate => "VOICE_SERVER_UPDATE"
    case WebhooksUpdate => "WEBHOOKS_UPDATE"
  }

  /*
   * Decoding a raw value compares it against the one candidate whose length,
   * seventh character and fifth-from-last character match; no two cases
   * share all three.
   */
  function Signature(s: string): (nat, char, char) {
    (|s|, if |s| > 6 then s[6] else ' ', if |s| >= 5 then s[|s| - 5] else ' ')
  }

  function FromSignature(n: nat, a: char, b: char): DiscordEvent {
    if n == 5 && a == ' ' && b == 'H' then Hello else
    if n == 5 && a == ' ' && b == 'R' then Ready else
    if n == 7 && a == 'D' && b == 'S' then Resumed else
    if n == 15 && a == 'D' && b == 'S' then InvalidSession else
    if n == 14 && a == 'L' && b == 'R' then ChannelCreate else
    if n == 14 && a == 'L' && b == 'P' then ChannelUpdate else
    if n == 14 && a == 'L' && b == 'E' then ChannelDelete else
    if n == 19 && a == 'L' && b == 'P' then ChannelPinsUpdate else
    if n == 12 && a == 'C' && b == 'R' then GuildCreate else
    if n == 12 && a == 'U' && b == 'P' then GuildUpdate else
    if n == 12 && a == 'D' && b == 'E' then GuildDelete else
    if n == 13 && a == 'B' && b == 'N' then GuildBanAdd else
    if n == 16 && a == 'B' && b == 'E' then GuildBanRemove else
    if n == 19 && a == 'E' && b == 'P' then GuildEmojisUpdate else
    if n == 25 && a == 'I' && b == 'P' then GuildIntegrationsUpdate else
    if n == 16 && a == 'M' && b == 'R' then GuildMemberAdd else
    if n == 19 && a == 'M' && b == 'E' then GuildMemberRemove else
    if n == 19 && a == 'M' && b == 'P' then GuildMemberUpdate else
    if n == 19 && a == 'M' && b == 'C' then GuildMembersChunk else
    if n == 17 && a == 'R' && b == 'R' then GuildRoleCreate else
    if n == 17 && a == 'R' && b == 'P' then GuildRoleUpdate else
    if n == 17 && a == 'R' && b == 'E' then GuildRoleDelete else
    if n == 14 && a == 'E' && b == 'R' then MessageCreate else
    if n == 14 && a == 'E' && b == 'P' then MessageUpdate else
    if n == 14 && a == 'E' && b == 'E' then MessageDelete else
    if n == 19 && a == 'E' && b == '_' then MessageDeleteBulk else
    if n == 20 && a == 'E' && b == 'N' then MessageReactionAdd else
    if n == 23 && a == 'E' && b == 'E' then MessageReactionRemove else
    if n == 27 && a == 'E' && b == 'E' then MessageReactionRemoveAll else
    if n == 15 && a == 'C' && b == 'P' then PresenceUpdate else
    if n == 12 && a == '_' && b == 'S' then TypingStart else
    if n == 11 && a == 'P' && b == 'P' then UserUpdate else
    if n == 18 && a == 'S' && b == 'P' then VoiceStateUpdate else
    if n == 19 && a == 'S' && b == 'P' then VoiceServerUpdate else
    WebhooksUpdate
  }

  /** `DiscordEvent(rawValue:)`: the case whose raw value is `s`, if any. */
  function FromRaw(s: string): (r: Option<DiscordEvent>)
    ensures r.Some? ==> Raw(r.value) == s
  {
    var sig := Signature(s);
    var e := FromSignature(sig.0, sig.1, sig.2);
    if Raw(e) == s then Some(e) else None
  }

  /** The position of each case in declaration order. */
  function Ordinal(e: DiscordEvent): nat {
    match e
    case Hello => 0
    case Ready => 1
    case Resumed => 2
    case InvalidSession => 3
    case ChannelCreate => 4
    case ChannelUpdate => 5
    case ChannelDelete => 6
    case ChannelPinsUpdate => 7
    case GuildCreate => 8
    case GuildUpdate => 9
    case GuildDelete => 10
    case GuildBanAdd => 11
    case GuildBanRemove => 12
    case GuildEmojisUpdate => 13
    case GuildIntegrationsUpdate => 14
    case GuildMemberAdd => 15
    case GuildMemberRemove => 16
    case GuildMemberUpdate => 17
    case GuildMembersChunk => 18
    case GuildRoleCreate => 19
    case GuildRoleUpdate => 20
    case GuildRoleDelete => 21
    case MessageCreate => 22
    case MessageUpdate => 23
    case MessageDelete => 24
    case MessageDeleteBulk => 25
    case MessageReactionAdd => 26
    case MessageReactionRemove => 27
    case MessageReactionRemoveAll => 28
    case PresenceUpdate => 29
    case TypingStart => 30
    case UserUpdate => 31
    case VoiceStateUpdate => 32
    case VoiceServerUpdate => 33
    case WebhooksUpdate => 34
  }

  lemma SignatureInverts1(e: DiscordEvent)
    requires 0 <= Ordinal(e) < 7
    ensures var sig := Signature(Raw(e)); FromSignature(sig.0, sig.1, sig.2) == e
  {
    match e
    case Hello => {}
    case Ready => {}
    case Resumed => {}
    case InvalidSession => {}
    case ChannelCreate => {}
    case ChannelUpdate => {}
    case ChannelDelete => {}
    case _ => {}
  }

  lemma SignatureInverts2(e: DiscordEvent)
    requires 7 <= Ordinal(e) < 14
    ensures var sig := Signature(Raw(e)); FromSignature(sig.0, sig.1, sig.2) == e
  {
    match e
    case ChannelPinsUpdate => {}
    case GuildCreate => {}
    case GuildUpdate => {}
    case GuildDelete => {}
    case GuildBanAdd => {}
    case GuildBanRemove => {}
    case GuildEmojisUpdate => {}
    case _ => {}
  }

  lemma SignatureInverts3(e: DiscordEvent)
    requires 14 <= Ordinal(e) < 21
    ensures var sig := Signature(Raw(e)); FromSignature(sig.0, sig.1, sig.2) == e
  {
    match e
    case GuildIntegrationsUpdate => {}
    case GuildMemberAdd => {}
    case GuildMemberRemove => {}
    case GuildMemberUpdate => {}
    case GuildMembersChunk => {}
    case GuildRoleCreate => {}
    case GuildRoleUpdate => {}
    case _ => {}
  }

  lemma SignatureInverts4(e: DiscordEvent)
    requires 21 <= Ordinal(e) < 28
    ensures var sig := Signature(Raw(e)); FromSignature(sig.0, sig.1, sig.2) == e
  {
    match e
    case GuildRoleDelete => {}
    case MessageCreate => {}
    case MessageUpdate => {}
    case MessageDelete => {}
    case MessageDeleteBulk => {}
    case MessageReactionAdd => {}
    case MessageReactionRemove => {}
    case _ => {}
  }

  lemma SignatureInverts5(e: DiscordEvent)
    requires 28 <= Ordinal(e) < 35
    ensures var sig := Signature(Raw(e)); FromSignature(sig.0, sig.1, sig.2) == e
  {
    match e
    case MessageReactionRemoveAll => {}
    case PresenceUpdate => {}
    case TypingStart => {}
    case UserUpdate => {}
    case VoiceStateUpdate => {}
    case VoiceServerUpdate => {}
    case WebhooksUpdate => {}
    case _ => {}
  }

  /** The signature of every case selects that case. */
  lemma SignatureInverts(e: DiscordEvent)
    ensures var sig := Signature(Raw(e)); FromSignature(sig.0, sig.1, sig.2) == e
  {
    var k := Ordinal(e);
    if k < 7 {
      SignatureInverts1(e);
    } else if k < 14 {
      SignatureInverts2(e);
    } else if k < 21 {
      SignatureInverts3(e);
    } else if k < 28 {
      SignatureInverts4(e);
    } else {
      SignatureInverts5(e);
    }
  }

  /** Every case decodes from its raw value. */
  lemma FromRawOfRaw(e: DiscordEvent)
    ensures FromRaw(Raw(e)) == Some(e)
  {
    SignatureInverts(e);
  }

  /** A string decodes exactly when it is the raw value of some case, so no two cases share one. */
  lemma FromRawExactly(s: string)
    ensures FromRaw(s).Some? <==> exists e: DiscordEvent :: Raw(e) == s
    ensures forall a: DiscordEvent, b: DiscordEvent :: Raw(a) == Raw(b) ==> a == b
  {
    if e: DiscordEvent :| Raw(e) == s {
      FromRawOfRaw(e);
    }
    forall a: DiscordEvent, b: DiscordEvent | Raw(a) == Raw(b)
      ensures a == b
    {
      FromRawOfRaw(a);
      FromRawOfRaw(b);
    }
  }

  /** The payload types the typed keys name. */
  datatype ContentType = GuildContent | MessageContent | EmptyContent

  /**
   * `_DiscordEvent<E, ContentType>`: a dispatch event paired with the type
   * its payload decodes to. Only the event is stored; the content type is a
   * type parameter of the key, kept here as a field.
   */
  datatype TypedEvent = TypedEvent(event: DiscordEvent, content: ContentType)

  const GuildCreateKey: TypedEvent := TypedEvent(GuildCreate, GuildContent)
  const GuildUpdateKey: TypedEvent := TypedEvent(GuildUpdate, GuildContent)
  const MessageCreateKey: TypedEvent := TypedEvent(MessageCreate, MessageContent)
  const MessageUpdateKey: TypedEvent := TypedEvent(MessageUpdate, MessageContent)
  const VoiceStateUpdateKey: TypedEvent := TypedEvent(VoiceStateUpdate, EmptyContent)
}
