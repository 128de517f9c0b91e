/**
 * Types/User/User.swift: a Discord user. `User` is a Swift struct, so it is
 * a value here; the client a user is handled by is a reference the model
 * only keeps by identity.
 */
module Users {
  import opened Wrappers
  import opened Decimal
  import opened Commands
  import opened Snowflakes
  import opened Keyed

  /** The `DiscordClient` an entity is handled by, by identity. */
  datatype ClientRef = ClientRef(id: nat)

  /** The user fields the model uses; the remaining optional profile fields are data the core never reads. */
  datatype User = User(
    client: Option<ClientRef>,
    id: Snowflake,
    username: string,
    discriminator: string,
    avatar: Option<string>,
    isBot: Option<bool>)

  /** A user's `snowflakeDescription`. */
  function Key(u: User): Snowflake {
    u.id
  }

  /** The users of a list as handed to a client: `user.client = client` on each, nothing else changed. */
  function AllWithClient(users: seq<User>, c: Option<ClientRef>): (r: seq<User>)
    ensures |r| == |users|
    ensures forall i | 0 <= i < |users| :: r[i] == users[i].(client := c)
  {
    if users == [] then [] else [users[0].(client := c)] + AllWithClient(users[1..], c)
  }

  /**
   * Handing a list to a client keeps every user's identity and profile and
   * only the client changes; handing it to the same client twice is the
   * same as once.
   */
  lemma AllWithClientKeepsUsers(users: seq<User>, c: Option<ClientRef>)
    ensures forall i | 0 <= i < |users| :: (AllWithClient(users, c)[i].id == users[i].id &&
      AllWithClient(users, c)[i].username == users[i].username && AllWithClient(users, c)[i].client == c)
    ensures AllWithClient(AllWithClient(users, c), c) == AllWithClient(users, c)
  {
  }

  /** `identifier`: the user's snowflake as text. */
  function Identifier(u: User): (r: Option<string>)
    ensures r.Some? && Parse(r.value) == Some(u.id)
  {
    Some(AsString(u.id))
  }

  /** `mention`: `<@` and the snowflake and `>`. */
  function Mention(u: User): (m: string)
    ensures |m| >= 4 && m[..2] == "<@" && m[|m| - 1] == '>'
  {
    "<@" + Snowflakes.Description(u.id) + ">"
  }

  /** The text between `<@` and `>` of a mention reads back as the user's snowflake. */
  lemma MentionNamesUser(u: User)
    ensures var m := Mention(u); Parse(m[2..|m| - 1]) == Some(u.id)
  {
    var m := Mention(u);
    assert m[2..|m| - 1] == Snowflakes.Description(u.id);
    ParseDescription(u.id);
  }

  /** `description`: `username#discriminator`. */
  function Description(u: User): (s: string)
    ensures |s| == |u.username| + 1 + |u.discriminator|
  {
    u.username + "#" + u.discriminator
  }

  /**
   * A tag splits back into its name and discriminator at its first `#`
   * whenever the username holds no `#` (Discord forbids one).
   */
  lemma DescriptionSplits(u: User)
    requires forall i | 0 <= i < |u.username| :: u.username[i] != '#'
    ensures var s := Description(u);
      s[|u.username|] == '#' && (forall i | 0 <= i < |u.username| :: s[i] != '#') &&
      s[..|u.username|] == u.username && s[|u.username| + 1..] == u.discriminator
  {
    var s := Description(u);
    assert s == u.username + "#" + u.discriminator;
    forall i | 0 <= i < |u.username|
      ensures s[i] != '#'
    {
      assert s[i] == u.username[i];
    }
  }

  /** `resolveArgument`: every argument is refused as unconvertible to `User`. */
  function ResolveArgument(argument: string): (r: Result<User, CommandError>)
    ensures r == Err(UnableToConvertArgument(argument, "User"))
  {
    Err(UnableToConvertArgument(argument, "User"))
  }

  const DefaultAvatarPrefix: string := "https://cdn.discordapp.com/embed/avatars/"
  const AvatarPrefix: string := "https://cdn.discordapp.com/avatars/"

  /** The end of a CDN asset URL: `.`, the format, and `?size=` with the size's decimal text. */
  function AssetSuffix(format: string, size: int): string {
    "." + format + "?size=" + IntToString(size)
  }

  /** A CDN asset URL: a root, the owner's snowflake, `/`, the asset's hash, then the format and size. */
  function AssetUrl(root: string, owner: Snowflake, hash: string, format: string, size: int): string {
    root + (Snowflakes.Description(owner) + ("/" + (hash + AssetSuffix(format, size))))
  }

  /** After `root`, digits up to the next `/` that read back as the owner's snowflake. */
  predicate OwnerAfter(u: string, root: string, owner: Snowflake) {
    var k := |root| + |Snowflakes.Description(owner)|;
    k < |u| && u[..|root|] == root && AllDigits(u[|root|..k]) && Parse(u[|root|..k]) == Some(owner) && u[k] == '/'
  }

  /** After the owner and its `/`: the hash, `.`, the format, and `?size=` with the size's text. */
  predicate AssetAfter(u: string, root: string, owner: Snowflake, hash: string, format: string, size: int) {
    var k := |root| + |Snowflakes.Description(owner)|;
    k < |u| && u[k + 1..] == hash + AssetSuffix(format, size)
  }

  /** The size's text ends the URL and reads back as the size whenever it fits `Int`. */
  predicate SizeAtEnd(u: string, size: int) {
    var n := IntToString(size);
    |n| <= |u| && u[|u| - |n|..] == n && (Int64Min <= size <= Int64Max ==> ParseInt(u[|u| - |n|..]) == Some(size))
  }

  /**
   * A CDN asset URL names its owner, hash, format and size: after `root`
   * come digits up to the next `/` that read back as the owner's snowflake,
   * then `/`, the hash, `.`, the format and `?size=` with the size's decimal
   * text, which reads back as the size whenever it fits `Int`.
   */
  predicate NamesAsset(u: string, root: string, owner: Snowflake, hash: string, format: string, size: int) {
    OwnerAfter(u, root, owner) && AssetAfter(u, root, owner, hash, format, size) && SizeAtEnd(u, size)
  }

  /** Where the pieces of `root + (d + ("/" + rest))` sit. */
  lemma SlicesOfPath(root: string, d: string, rest: string)
    ensures var u := root + (d + ("/" + rest)); var k := |root| + |d|;
      k < |u| && u[..|root|] == root && u[|root|..k] == d && u[k] == '/' && u[k + 1..] == rest
  {
    var path := d + ("/" + rest);
    var u := root + path;
    assert u[|root|..] == path;
    assert path[..|d|] == d;
    assert path[|d| + 1..] == rest;
  }

  /** An asset URL names its owner after the root. */
  lemma OwnerReadsBack(root: string, owner: Snowflake, hash: string, format: string, size: int)
    ensures OwnerAfter(AssetUrl(root, owner, hash, format, size), root, owner)
  {
    SlicesOfPath(root, Snowflakes.Description(owner), hash + AssetSuffix(format, size));
    ParseDescription(owner);
  }

  /** An asset URL carries the hash, format and size after its owner. */
  lemma HashReadsBack(root: string, owner: Snowflake, hash: string, format: string, size: int)
    ensures AssetAfter(AssetUrl(root, owner, hash, format, size), root, owner, hash, format, size)
  {
    SlicesOfPath(root, Snowflakes.Description(owner), hash + AssetSuffix(format, size));
  }

  /** An asset URL ends in the size's text. */
  lemma SizeReadsBack(root: string, owner: Snowflake, hash: string, format: string, size: int)
    ensures SizeAtEnd(AssetUrl(root, owner, hash, format, size), size)
  {
    var u := AssetUrl(root, owner, hash, format, size);
    var n := IntToString(size);
    var t := AssetSuffix(format, size);
    assert t[|t| - |n|..] == n;
    assert u == (root + (Snowflakes.Description(owner) + ("/" + hash))) + t;
    assert u[|u| - |n|..] == n;
    if Int64Min <= size <= Int64Max {
      ParseIntToString(size, Int64Min, Int64Max);
    }
  }

  /** Every asset URL reads back as its owner, hash, format and size. */
  lemma AssetUrlReadsBack(root: string, owner: Snowflake, hash: string, format: string, size: int)
    ensures NamesAsset(AssetUrl(root, owner, hash, format, size), root, owner, hash, format, size)
  {
    OwnerReadsBack(root, owner, hash, format, size);
    HashReadsBack(root, owner, hash, format, size);
    SizeReadsBack(root, owner, hash, format, size);
  }

  /** The URL of an uploaded avatar, in the requested format and size. */
  function UploadedAvatarUrl(id: Snowflake, avatar: string, format: string, size: int): (s: string)
    ensures |s| > |AvatarPrefix| && s[..|AvatarPrefix|] == AvatarPrefix
    ensures NamesAsset(s, AvatarPrefix, id, avatar, format, size)
  {
    AssetUrlReadsBack(AvatarPrefix, id, avatar, format, size);
    AssetUrl(AvatarPrefix, id, avatar, format, size)
  }

  /** Swift's `%`: the remainder takes the sign of the dividend. */
  function TruncatingRemainder(a: int, b: int): (r: int)
    requires b > 0
    ensures -b < r < b
    ensures a >= 0 ==> r == a % b && r >= 0
    ensures a < 0 ==> r <= 0
  {
    if a >= 0 then a % b else -((-a) % b)
  }

  /**
   * The default-avatar index as the source computes it. `??` binds more
   * loosely than `%`, so the expression is `Int(discriminator) ?? (0 % 5)`:
   * the discriminator itself, not its remainder by 5.
   */
  function DefaultAvatarIndexAsWritten(discriminator: string): int {
    ParseInt(discriminator).GetOr(0 % 5)
  }

  /** `getAvatarUrl` as written. */
  function AvatarUrlAsWritten(u: User, format: string, size: int): (s: string)
    ensures u.avatar.None? ==> |s| > |DefaultAvatarPrefix| && s[..|DefaultAvatarPrefix|] == DefaultAvatarPrefix
    ensures u.avatar.Some? ==> s == UploadedAvatarUrl(u.id, u.avatar.value, format, size)
  {
    match u.avatar
    case None => DefaultAvatarPrefix + IntToString(DefaultAvatarIndexAsWritten(u.discriminator)) + ".png"
    case Some(avatar) => UploadedAvatarUrl(u.id, avatar, format, size)
  }

  /**
   * The usual four-digit discriminator "1234" is used unreduced, naming a
   * default avatar that does not exist (only 0 to 4 do).
   */
  lemma AvatarUrlAsWrittenOutOfRange(u: User)
    requires u.avatar.None? && u.discriminator == "1234"
    ensures DefaultAvatarIndexAsWritten(u.discriminator) == 1234
    ensures AvatarUrlAsWritten(u, "webp", 1024) == DefaultAvatarPrefix + "1234.png"
  {
    assert NatToString(12) == NatToString(1) + [DigitChar(2)];
    assert NatToString(123) == NatToString(12) + [DigitChar(3)];
    assert NatToString(1234) == NatToString(123) + [DigitChar(4)];
    assert u.discriminator == NatToString(1234);
    ParseIntToString(1234, Int64Min, Int64Max);
  }

  /** An unsigned digit string within range reads as its value. */
  lemma DigitsParse(s: string)
    ensures AllDigits(s) && |s| > 0 && DigitsValue(s) <= Int64Max ==> ParseInt(s) == Some(DigitsValue(s))
  {
    if AllDigits(s) && |s| > 0 {
      assert IsDigit(s[0]);
    }
  }

  /** The default-avatar index as intended: `(Int(discriminator) ?? 0) % 5`. */
  function DefaultAvatarIndex(discriminator: string): (r: int)
    ensures -5 < r < 5
    ensures AllDigits(discriminator) && |discriminator| > 0 && DigitsValue(discriminator) <= Int64Max ==>
      r == DigitsValue(discriminator) % 5 && 0 <= r
    ensures ParseInt(discriminator).None? ==> r == 0
  {
    DigitsParse(discriminator);
    TruncatingRemainder(ParseInt(discriminator).GetOr(0), 5)
  }

  /** `getAvatarUrl` as intended. */
  function AvatarUrl(u: User, format: string, size: int): (s: string)
    ensures u.avatar.None? ==> |s| > |DefaultAvatarPrefix| && s[..|DefaultAvatarPrefix|] == DefaultAvatarPrefix
    ensures u.avatar.Some? ==> s == UploadedAvatarUrl(u.id, u.avatar.value, format, size)
  {
    match u.avatar
    case None => DefaultAvatarPrefix + IntToString(DefaultAvatarIndex(u.discriminator)) + ".png"
    case Some(avatar) => UploadedAvatarUrl(u.id, avatar, format, size)
  }

  /**
   * Without an uploaded avatar, a numeric discriminator always names one of
   * the five default avatars: a single digit 0 to 4.
   */
  lemma DefaultAvatarUrlInRange(u: User, format: string, size: int)
    requires u.avatar.None?
    requires AllDigits(u.discriminator) && |u.discriminator| > 0 && DigitsValue(u.discriminator) <= Int64Max
    ensures var url := AvatarUrl(u, format, size);
      |url| == |DefaultAvatarPrefix| + 5 && url[..|DefaultAvatarPrefix|] == DefaultAvatarPrefix &&
      '0' <= url[|DefaultAvatarPrefix|] <= '4' && url[|DefaultAvatarPrefix| + 1..] == ".png"
  {
    var i := DefaultAvatarIndex(u.discriminator);
    assert IntToString(i) == [DigitChar(i)];
  }

  /** With an uploaded avatar both versions give the same URL. */
  lemma UploadedAvatarUnaffected(u: User, format: string, size: int)
    requires u.avatar.Some?
    ensures AvatarUrl(u, format, size) == AvatarUrlAsWritten(u, format, size)
    ensures AvatarUrl(u, format, size)[..|AvatarPrefix|] == AvatarPrefix
  {
  }
}
