/**
 * Types/Emoji.swift: a custom emoji. `Emoji` is a Swift struct, so it is a
 * value; `urlValue` is the `[a]:name:id` form the API expects in reaction
 * routes and message text.
 */
module Emojis {
  import opened Wrappers
  import opened Decimal
  import opened Snowflakes
  import opened Users
  import opened GuildRoles

  datatype Emoji = Emoji(
    id: Snowflake,
    name: string,
    roles: Option<seq<GuildRole>>,
    user: Option<User>,
    requiresColons: Option<bool>,
    isManaged: Option<bool>,
    isAnimated: Option<bool>,
    isAvailable: Option<bool>)

  /** `init(id:name:)`: every optional field is nil. */
  function NewEmoji(id: Snowflake, name: string): (e: Emoji)
    ensures e.id == id && e.name == name
    ensures e.roles.None? && e.user.None? && e.requiresColons.None?
    ensures e.isManaged.None? && e.isAnimated.None? && e.isAvailable.None?
  {
    Emoji(id, name, None, None, None, None, None, None)
  }

  /** `isAnimated ?? false`. */
  predicate Animated(e: Emoji)
    ensures Animated(e) <==> e.isAnimated == Some(true)
  {
    e.isAnimated.GetOr(false)
  }

  /** `a` for an animated emoji, nothing otherwise. */
  function AnimatedPrefix(e: Emoji): string {
    if Animated(e) then "a" else ""
  }

  /** `urlValue`: the prefix, then `:name:` and the snowflake. */
  function UrlValue(e: Emoji): (s: string)
    ensures |s| > 0 && (s[0] == 'a' <==> Animated(e)) && (s[0] == ':' <==> !Animated(e))
  {
    AnimatedPrefix(e) + ":" + e.name + ":" + Snowflakes.Description(e.id)
  }

  /** `description`: the url value in angle brackets, the form a message embeds. */
  function Description(e: Emoji): (s: string)
    ensures |s| >= 2 && s[0] == '<' && s[|s| - 1] == '>' && s[1..|s| - 1] == UrlValue(e)
  {
    "<" + UrlValue(e) + ">"
  }

  /** `snowflakeDescription`: the emoji's own id. */
  function Key(e: Emoji): Snowflake {
    e.id
  }

  const EmojiUrlPrefix: string := "https://discordapp.com/api/emojis/"

  /** `url`: named by the emoji's name (not its id), a GIF when animated and a PNG otherwise. */
  function Url(e: Emoji): (s: string)
    ensures |s| >= |EmojiUrlPrefix| + 4 && s[..|EmojiUrlPrefix|] == EmojiUrlPrefix
    ensures s[|s| - 4..] == ".gif" <==> Animated(e)
  {
    var extension := if Animated(e) then ".gif" else ".png";
    var s := EmojiUrlPrefix + e.name + extension;
    assert s[|s| - 4..] == extension;
    assert ".png"[1] != ".gif"[1];
    s
  }

  predicate NoColon(s: string) {
    forall i | 0 <= i < |s| :: s[i] != ':'
  }

  /** The index of the first `:` in `s`, or `|s|`. */
  function ColonIndex(s: string): (i: nat)
    ensures i <= |s| && (i < |s| ==> s[i] == ':')
    ensures forall j | 0 <= j < i :: s[j] != ':'
  {
    if s == [] || s[0] == ':' then 0 else 1 + ColonIndex(s[1..])
  }

  /** The parts of a url value: whether it is animated, the name and the snowflake. */
  datatype UrlParts = UrlParts(animated: bool, name: string, id: Snowflake)

  /** Reading a url value back: an optional `a`, `:`, the name up to the next `:`, and a snowflake. */
  function ParseUrlValue(s: string): (r: Option<UrlParts>)
    ensures r.Some? ==> NoColon(r.value.name) && r.value.animated == (|s| > 0 && s[0] == 'a')
  {
    var animated := |s| > 0 && s[0] == 'a';
    var rest := if animated then s[1..] else s;
    if |rest| == 0 || rest[0] != ':' then None
    else
      var body := rest[1..];
      var i := ColonIndex(body);
      if i == |body| then None
      else
        match Parse(body[i + 1..])
        case None => None
        case Some(id) => Some(UrlParts(animated, body[..i], id))
  }

  /** A name without `:` followed by `:` ends at that colon. */
  lemma SplitsAtColon(name: string, tail: string)
    requires NoColon(name)
    ensures var body := name + ":" + tail;
      ColonIndex(body) == |name| && body[..|name|] == name && body[|name| + 1..] == tail
  {
    var body := name + ":" + tail;
    assert forall j | 0 <= j < |name| :: body[j] == name[j];
    assert body[|name|] == ':';
  }

  /** Reading back the text `urlValue` builds from a flag, a name without `:` and any tail. */
  lemma ParseBuiltUrlValue(animated: bool, name: string, tail: string)
    requires NoColon(name)
    ensures ParseUrlValue((if animated then "a" else "") + ":" + name + ":" + tail) ==
      (if Parse(tail).Some? then Some(UrlParts(animated, name, Parse(tail).value)) else None)
  {
    var s := (if animated then "a" else "") + ":" + name + ":" + tail;
    var body := name + ":" + tail;
    var rest := ":" + body;
    assert s == (if animated then "a" else "") + rest;
    assert (|s| > 0 && s[0] == 'a') == animated;
    assert (if animated then s[1..] else s) == rest;
    assert rest[1..] == body;
    SplitsAtColon(name, tail);
  }

  /**
   * A url value reads back as the emoji's animation flag, name and id
   * whenever the name holds no `:`, so two emojis differing in any of
   * these never share one.
   */
  lemma UrlValueReadsBack(e: Emoji)
    requires NoColon(e.name)
    ensures ParseUrlValue(UrlValue(e)) == Some(UrlParts(Animated(e), e.name, e.id))
  {
    ParseBuiltUrlValue(Animated(e), e.name, Snowflakes.Description(e.id));
    ParseDescription(e.id);
  }

  /** Emojis with the same url value are the same emoji as far as the API can tell. */
  lemma UrlValueIdentifies(e1: Emoji, e2: Emoji)
    requires NoColon(e1.name) && NoColon(e2.name)
    requires UrlValue(e1) == UrlValue(e2)
    ensures e1.id == e2.id && e1.name == e2.name && Animated(e1) == Animated(e2)
  {
    UrlValueReadsBack(e1);
    UrlValueReadsBack(e2);
  }

  /** A nil `isAnimated` counts as not animated in both the url value and the URL. */
  lemma NilAnimatedIsStill(e: Emoji)
    requires e.isAnimated.None?
    ensures UrlValue(e) == ":" + e.name + ":" + Snowflakes.Description(e.id)
    ensures Url(e) == EmojiUrlPrefix + e.name + ".png"
  {
  }

  /** The URL depends only on the name and the animation flag, never on the id. */
  lemma UrlIgnoresId(e1: Emoji, e2: Emoji)
    requires e1.name == e2.name && Animated(e1) == Animated(e2)
    ensures Url(e1) == Url(e2)
    ensures var u := Url(e1); u[|u| - 4..] == (if Animated(e1) then ".gif" else ".png")
  {
  }
}
