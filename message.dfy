/**
 * Types/Channel/Message/Message.swift: a message is a class; the client it
 * is handled by is a property whose observer hands the client to the
 * author, to the member (which also takes the author as its user and the
 * message's guild) and to every mentioned user. The current user's
 * snowflake, the command's help text and the client's highlight formatting
 * come from the client and are parameters here.
 */
module Messages {
  import opened Wrappers
  import opened Snowflakes
  import opened Keyed
  import opened Commands
  import opened Users
  import opened Routes
  import opened Requests
  import opened Emojis
  import opened GuildMembers
  import Channels

  /** `gAuthor`: the author, or the private webhook stand-in. */
  datatype Userable = AuthorUser(user: User) | WebhookUser

  /** `identifier` of a `Userable`. */
  function UserableIdentifier(u: Userable): Option<string> {
    match u
    case AuthorUser(user) => Users.Identifier(user)
    case WebhookUser => Some("webhook")
  }

  /** `mention` of a `Userable`. */
  function UserableMention(u: Userable): string {
    match u
    case AuthorUser(user) => Users.Mention(user)
    case WebhookUser => "Unmentionable webhook"
  }

  class Message {
    var client: Option<ClientRef>
    const id: Snowflake
    const channelId: Snowflake
    const guildId: Option<Snowflake>
    /** Declared with `let`; the observer's write to its client is kept (see the module notes in the documentation). */
    var author: Option<User>
    const member: Option<GuildMember>
    const content: string
    const isTts: bool
    const mentionsEveryone: bool
    var mentions: seq<User>
    const mentionRoles: seq<Snowflake>
    const isPinned: bool
    const webhookId: Option<Snowflake>

    constructor(id: Snowflake, channelId: Snowflake, guildId: Option<Snowflake>, author: Option<User>,
                member: Option<GuildMember>, content: string, isTts: bool, mentionsEveryone: bool,
                mentions: seq<User>, mentionRoles: seq<Snowflake>, isPinned: bool, webhookId: Option<Snowflake>)
      ensures this.id == id && this.channelId == channelId && this.guildId == guildId && this.author == author
      ensures this.member == member && this.content == content && this.isTts == isTts
      ensures this.mentionsEveryone == mentionsEveryone && this.mentions == mentions
      ensures this.mentionRoles == mentionRoles && this.isPinned == isPinned && this.webhookId == webhookId
      ensures client.None?
    {
      this.id := id;
      this.channelId := channelId;
      this.guildId := guildId;
      this.author := author;
      this.member := member;
      this.content := content;
      this.isTts := isTts;
      this.mentionsEveryone := mentionsEveryone;
      this.mentions := mentions;
      this.mentionRoles := mentionRoles;
      this.isPinned := isPinned;
      this.webhookId := webhookId;
      client := None;
    }

    /** The objects the client observer writes besides the message: its member, when there is one. */
    function MemberFrame(): set<GuildMember> {
      if member.Some? then {member.value} else {}
    }

    /**
     * Assigning `client`: the author takes the client; the member takes the
     * author as its user, the client and the message's guild; every
     * mentioned user takes the client.
     */
    method SetClient(c: Option<ClientRef>)
      modifies this, MemberFrame()
      ensures client == c && author == UserWithClientOf(old(author), c) && mentions == AllWithClient(old(mentions), c)
      ensures member.Some? ==> (member.value.user == author && member.value.client == c &&
        member.value.guildId == guildId && member.value.nick == old(member.value.nick) &&
        member.value.roles == old(member.value.roles))
    {
      client := c;
      author := UserWithClientOf(author, c);
      if member.Some? {
        HandMember(member.value, c);
      }
      HandMentions(c);
    }

    /** The member's part of the observer: the author as its user, the client, and the message's guild. */
    method HandMember(m: GuildMember, c: Option<ClientRef>)
      modifies m
      ensures m.user == UserWithClientOf(author, c) && m.client == c && m.guildId == guildId
      ensures m.nick == old(m.nick) && m.roles == old(m.roles)
    {
      m.user := author;
      m.SetClient(c);
      m.guildId := guildId;
    }

    /** The mentioned users' part of the observer. */
    method HandMentions(c: Option<ClientRef>)
      modifies this
      ensures mentions == AllWithClient(old(mentions), c)
      ensures client == old(client) && author == old(author)
    {
      var i := 0;
      var handed: seq<User> := [];
      while i < |mentions|
        invariant 0 <= i <= |mentions|
        invariant handed == AllWithClient(mentions[..i], c)
      {
        handed := handed + [mentions[i].(client := c)];
        i := i + 1;
      }
      assert mentions[..i] == mentions;
      mentions := handed;
    }

    /**
     * `copyWith`: a new message with the same fields, handed to the client.
     * The member object is shared with this message, so the hand-off
     * writes it too.
     */
    method CopyWith(c: Option<ClientRef>) returns (x: Message)
      modifies MemberFrame()
      ensures fresh(x)
      ensures x.id == id && x.channelId == channelId && x.guildId == guildId && x.member == member
      ensures x.content == content && x.isTts == isTts && x.mentionsEveryone == mentionsEveryone
      ensures x.mentionRoles == mentionRoles && x.isPinned == isPinned && x.webhookId == webhookId
      ensures x.client == c && x.author == UserWithClientOf(author, c) && x.mentions == AllWithClient(mentions, c)
      ensures member.Some? ==> member.value.user == x.author && member.value.client == c && member.value.guildId == guildId
    {
      x := new Message(id, channelId, guildId, author, member, content, isTts, mentionsEveryone, mentions,
                       mentionRoles, isPinned, webhookId);
      x.SetClient(c);
    }

    /** `mentions(_:)`: the snowflake is a mentioned user's or a mentioned role's. */
    predicate Mentions(flake: Snowflake)
      reads this
      ensures flake in mentionRoles ==> Mentions(flake)
      ensures mentions == [] ==> (Mentions(flake) <==> flake in mentionRoles)
    {
      Contains(mentions, Users.Key, flake) || flake in mentionRoles
    }

    /** `isNotMeOrBot`, given the current user's snowflake. */
    predicate IsNotMeOrBot(me: Snowflake)
      reads this
      ensures IsNotMeOrBot(me) ==> author.Some? && author.value.id != me && author.value.isBot != Some(true)
    {
      author.Some? && author.value.id != me && !author.value.isBot.GetOr(false)
    }

    /** `gAuthor`. */
    function GAuthor(): (u: Userable)
      reads this
      ensures u.AuthorUser? <==> author.Some?
      ensures u.AuthorUser? ==> u.user == author.value
    {
      if author.Some? then AuthorUser(author.value) else WebhookUser
    }

    /** `pin`: the message's channel pins it. */
    function Pin(): (r: Request)
      ensures r.call == OnChannel(ChannelsPinsAdd(channelId, id)) && r.body == NoBody
    {
      Request(OnChannel(ChannelsPinsAdd(channelId, id)), NoBody)
    }

    /** `unpin`: the message's channel unpins it. */
    function Unpin(): (r: Request)
      ensures r.call == OnChannel(ChannelsPinsDelete(channelId, id)) && r.body == NoBody
    {
      Request(OnChannel(ChannelsPinsDelete(channelId, id)), NoBody)
    }

    /** `reply`: a new message with the text in the message's channel. */
    function Reply(text: string, tts: bool): (r: Request)
      ensures r.call == OnMessage(ChannelMessagesCreate(channelId))
      ensures r.body.CreateMessage? && r.body.content == text && r.body.tts == Some(tts)
    {
      Request(OnMessage(ChannelMessagesCreate(channelId)), CreateMessage(text, None, Some(tts), true))
    }

    /** `edit`: the message's own route with the new text. */
    function Edit(text: string): (r: Request)
      ensures r.call == OnMessage(ChannelMessagesModify(channelId, id)) && r.body == EditMessage(Some(text))
    {
      Request(OnMessage(ChannelMessagesModify(channelId, id)), EditMessage(Some(text)))
    }

    /** `delete`. */
    function Delete(): (r: Request)
      ensures r.call == OnMessage(ChannelMessagesDelete(channelId, id)) && RouteOf(r.call).verb == DELETE
      ensures r.body == NoBody
    {
      Request(OnMessage(ChannelMessagesDelete(channelId, id)), NoBody)
    }

    /** `addReaction` with an emoji: the emoji's URL value, reacted as the current user. */
    function AddReaction(e: Emoji): (r: Request)
      ensures r.call.OnMessage? && r.call.messageCall.ChannelMessagesReactionsCreate?
      ensures r.call.messageCall.channel == channelId && r.call.messageCall.message == id
      ensures NoColon(e.name) ==> ParseUrlValue(r.call.messageCall.emoji) == Some(UrlParts(Animated(e), e.name, e.id))
      ensures RouteOf(r.call).verb == PUT && r.body == NoBody
    {
      assert NoColon(e.name) ==> ParseUrlValue(UrlValue(e)) == Some(UrlParts(Animated(e), e.name, e.id)) by {
        if NoColon(e.name) { UrlValueReadsBack(e); }
      }
      Request(OnMessage(ChannelMessagesReactionsCreate(channelId, id, UrlValue(e))), NoBody)
    }

    /** `removeReaction`: the given user's reaction, or the current user's (`@me`) when none is given. */
    function RemoveReaction(e: Emoji, user: Option<User>): (r: Request)
      ensures r.call.OnMessage? && r.call.messageCall.ChannelMessagesReactionsDelete?
      ensures user.None? <==> r.call.messageCall.reactor == "@me"
      ensures user.Some? ==> Parse(r.call.messageCall.reactor) == Some(user.value.id)
    {
      var reactor := Reactor(user);
      Request(OnMessage(ChannelMessagesReactionsDelete(channelId, id, UrlValue(e), reactor)), NoBody)
    }
  }

  /** The user segment of a reaction removal: the user's snowflake, or `@me`. */
  function Reactor(user: Option<User>): (s: string)
    ensures user.None? <==> s == "@me"
    ensures user.Some? ==> Parse(s) == Some(user.value.id)
  {
    if user.Some? then
      ParseDescription(user.value.id);
      assert Parse("@me") == None by {
        ParseRejectsNonDigits("@me", 1);
      }
      Snowflakes.Description(user.value.id)
    else "@me"
  }

  /** The author handed to a client. */
  function UserWithClientOf(u: Option<User>, c: Option<ClientRef>): Option<User> {
    if u.Some? then Some(u.value.(client := c)) else None
  }

  /** The usage line the error replies end with: the help text between formatting marks. */
  function Usage(help: string, f: string): string {
    "\nUsage: " + f + help + f
  }

  /** `error(_:on:)`: the reply text for a command error, given the command's help and the formatting marks. */
  function ErrorReply(error: CommandError, help: string, f: string): (r: string)
    ensures |r| > 0
  {
    match error
    case ArgumentNotFound(arg) => "Missing argument: " + f + arg + f + Usage(help, f)
    case InvalidPermissions => "Invalid permissions!"
    case UnableToConvertArgument(arg, typeName) =>
      "Error converting " + f + arg + f + " to " + f + typeName + f + Usage(help, f)
    case OtherError => "Something went wrong!" + Usage(help, f)
  }

  /** Every reply but the permissions one ends with the usage line. */
  lemma ErrorReplyEndsWithUsage(error: CommandError, help: string, f: string)
    ensures var r := ErrorReply(error, help, f); var u := Usage(help, f);
      error.InvalidPermissions? <==> !(|r| >= |u| && r[|r| - |u|..] == u)
  {
    var r := ErrorReply(error, help, f);
    var u := Usage(help, f);
    if error.InvalidPermissions? {
      assert '\n' !in r;
      if |r| >= |u| {
        var k := |r| - |u|;
        assert r[k] in r;
        assert r[k..][0] != u[0];
      }
    }
  }

  /** The reply names the missing argument between formatting marks, right after the fixed text. */
  lemma MissingArgumentNamed(arg: string, help: string, f: string)
    ensures var r := ErrorReply(ArgumentNotFound(arg), help, f); var p := "Missing argument: ";
      |r| >= |p| + |f + arg + f| && r[..|p|] == p && r[|p|..|p| + |f + arg + f|] == f + arg + f
  {
    var p := "Missing argument: ";
    var r := ErrorReply(ArgumentNotFound(arg), help, f);
    assert r == p + (f + arg + f) + Usage(help, f);
  }

  /** Different kinds of error never get the same reply: each reply opens with its own letter. */
  lemma ErrorRepliesDistinct(e1: CommandError, e2: CommandError, help: string, f: string)
    requires ErrorReply(e1, help, f) == ErrorReply(e2, help, f)
    ensures e1.ArgumentNotFound? == e2.ArgumentNotFound? && e1.InvalidPermissions? == e2.InvalidPermissions?
    ensures e1.UnableToConvertArgument? == e2.UnableToConvertArgument? && e1.OtherError? == e2.OtherError?
  {
    assert ErrorReply(e1, help, f)[0] == ErrorReply(e2, help, f)[0];
  }

  /** `mentions(_:)` holds exactly when some mentioned user or some mentioned role has the snowflake. */
  lemma MentionsIff(m: Message, flake: Snowflake)
    ensures m.Mentions(flake) <==>
      (exists i | 0 <= i < |m.mentions| :: m.mentions[i].id == flake) || (exists j | 0 <= j < |m.mentionRoles| :: m.mentionRoles[j] == flake)
  {
    ContainsIffGet(m.mentions, Users.Key, flake);
  }

  /** Handing the mentioned users to a client mentions the same snowflakes as before. */
  lemma HandOffKeepsMentions(users: seq<User>, c: Option<ClientRef>, flake: Snowflake)
    ensures Contains(AllWithClient(users, c), Users.Key, flake) <==> Contains(users, Users.Key, flake)
  {
    ContainsIffGet(users, Users.Key, flake);
    ContainsIffGet(AllWithClient(users, c), Users.Key, flake);
    AllWithClientKeepsUsers(users, c);
  }

  /**
   * `isNotMeOrBot` is false without an author, when the author is the
   * current user, or when the author is a bot; an unknown `isBot` is not a bot.
   */
  lemma IsNotMeOrBotCases(m: Message, me: Snowflake)
    ensures m.author.None? ==> !m.IsNotMeOrBot(me)
    ensures m.author.Some? && m.author.value.id == me ==> !m.IsNotMeOrBot(me)
    ensures m.author.Some? && m.author.value.isBot == Some(true) ==> !m.IsNotMeOrBot(me)
    ensures (m.author.Some? && m.author.value.id != me && m.author.value.isBot != Some(true)) ==> m.IsNotMeOrBot(me)
  {
  }

  /** The webhook stand-in is told apart from any author: its identifier never reads as a snowflake. */
  lemma GAuthorIdentifier(m: Message)
    ensures var ident := UserableIdentifier(m.GAuthor());
      ident.Some? && (m.author.None? <==> ident.value == "webhook")
    ensures m.author.None? ==> UserableMention(m.GAuthor()) == "Unmentionable webhook"
  {
    if m.author.Some? {
      var ident := Users.Identifier(m.author.value).value;
      if ident == "webhook" {
        ParseRejectsNonDigits(ident, 1);
      }
    }
  }

  /**
   * Reacting to a message and taking the current user's reaction back
   * address the same endpoint, with PUT and DELETE; taking back a named
   * user's reaction addresses that user instead.
   */
  lemma ReactionsPairUp(m: Message, e: Emoji, u: User)
    ensures RouteOf(m.AddReaction(e).call).endpoint == RouteOf(m.RemoveReaction(e, None).call).endpoint
    ensures RouteOf(m.AddReaction(e).call).verb == PUT && RouteOf(m.RemoveReaction(e, None).call).verb == DELETE
    ensures m.RemoveReaction(e, Some(u)).call != m.RemoveReaction(e, None).call
  {
  }

  /**
   * A message pins, unpins and replies through its own channel: each is
   * the request that channel makes for the message's snowflake.
   */
  lemma ActsThroughChannel(m: Message, ch: Channels.Channel, text: string, tts: bool)
    requires ch.id == m.channelId
    ensures m.Pin() == ch.Pin(m.id) && m.Unpin() == ch.Unpin(m.id)
    ensures m.Reply(text, tts) == ch.Send(text, tts)
  {
  }

  /**
   * Fetching a message through its channel, editing it and deleting it
   * address one endpoint, with GET, PATCH and DELETE.
   */
  lemma GetEditDeletePair(m: Message, ch: Channels.Channel, text: string)
    requires ch.id == m.channelId
    ensures RouteOf(m.Edit(text).call).endpoint == RouteOf(m.Delete().call).endpoint
    ensures RouteOf(ch.GetMessage(m.id).call).endpoint == RouteOf(m.Delete().call).endpoint
    ensures RouteOf(ch.GetMessage(m.id).call).verb == GET
    ensures RouteOf(m.Edit(text).call).verb == PATCH && RouteOf(m.Delete().call).verb == DELETE
  {
    var p := MessagePath(m.channelId, m.id, End);
    assert TargetOf(ch.GetMessage(m.id).call) == Target(GET, p);
    assert TargetOf(m.Edit(text).call) == Target(PATCH, p);
    assert TargetOf(m.Delete().call) == Target(DELETE, p);
  }
}
