/**
 * State/State.swift: the client's cache of channels, guilds, direct
 * messages, users and the current user. Every accessor takes a lock, which
 * a sequential model has no use for; the accessors are plain reads and
 * whole-value writes of their fields. The file also gives arrays of
 * client-handled entities their own snowflake subscript, whose setter
 * differs from the plain one in two ways: it appends even when nothing
 * matched, and it detaches the stored entity from its client first.
 */
module States {
  import opened Wrappers
  import opened Snowflakes
  import opened Keyed
  import opened Users
  import opened Channels
  import opened Guilds

  /**
   * The setter on arrays of client-handled entities: the first match, if
   * any, is removed, and a non-nil value is appended in every case.
   */
  function Upsert<T>(xs: seq<T>, key: T -> Snowflake, flake: Snowflake, value: Option<T>): (ys: seq<T>)
    ensures FirstIndex(xs, key, flake).None? ==> ys == xs + Appended(value)
    ensures FirstIndex(xs, key, flake).Some? ==> ys == RemoveAt(xs, FirstIndex(xs, key, flake).value) + Appended(value)
  {
    match FirstIndex(xs, key, flake)
    case None => xs + Appended(value)
    case Some(index) => RemoveAt(xs, index) + Appended(value)
  }

  /**
   * On an absent key a value is inserted at the end and nil changes
   * nothing; on a present key the setter agrees with the plain subscript
   * setter, trading the first match for the value.
   */
  lemma UpsertCases<T>(xs: seq<T>, key: T -> Snowflake, flake: Snowflake, value: Option<T>)
    ensures !Contains(xs, key, flake) ==> Upsert(xs, key, flake, value) == xs + Appended(value)
    ensures !Contains(xs, key, flake) && value.Some? ==> Upsert(xs, key, flake, value) != Assign(xs, key, flake, value)
    ensures Contains(xs, key, flake) ==> Upsert(xs, key, flake, value) == Assign(xs, key, flake, value)
  {
    ContainsIffGet(xs, key, flake);
    GetIsFirstMatch(xs, key, flake);
    if !Contains(xs, key, flake) && value.Some? {
      assert |Upsert(xs, key, flake, value)| == |xs| + 1;
    }
  }

  /**
   * Writing nil removes only the first match: the array is one shorter
   * and every other element, a second match included, is still there.
   */
  lemma UpsertNilRemovesFirstOnly<T>(xs: seq<T>, key: T -> Snowflake, flake: Snowflake)
    requires Contains(xs, key, flake)
    ensures FirstIndex(xs, key, flake).Some?
    ensures |Upsert(xs, key, flake, None)| == |xs| - 1
    ensures multiset(Upsert(xs, key, flake, None)) + multiset{xs[FirstIndex(xs, key, flake).value]} == multiset(xs)
  {
    ContainsIffGet(xs, key, flake);
    GetIsFirstMatch(xs, key, flake);
    RemoveAtMultiset(xs, FirstIndex(xs, key, flake).value);
  }

  /**
   * After writing a value under its own snowflake, the getter finds it
   * whenever at most one element held that snowflake before.
   */
  lemma {:induction false} GetAfterUpsert<T>(xs: seq<T>, key: T -> Snowflake, flake: Snowflake, v: T)
    requires key(v) == flake
    requires forall i, j | 0 <= i < j < |xs| :: key(xs[i]) == flake ==> key(xs[j]) != flake
    ensures Get(Upsert(xs, key, flake, Some(v)), key, flake) == Some(v)
  {
    ContainsIffGet(xs, key, flake);
    if Contains(xs, key, flake) {
      GetAfterAssign(xs, key, flake, v);
      UpsertCases(xs, key, flake, Some(v));
    } else {
      var ys := xs + [v];
      assert Upsert(xs, key, flake, Some(v)) == ys;
      forall j | 0 <= j < |xs|
        ensures key(ys[j]) != flake
      {
        assert ys[j] == xs[j];
      }
      assert key(ys[|xs|]) == flake;
      GetIsFirstMatch(ys, key, flake);
      assert FirstIndex(ys, key, flake) == Some(|xs|);
    }
  }

  /** A channel's `snowflakeDescription`. */
  function ChannelKey(ch: Channel): Snowflake {
    ch.id
  }

  /** A guild's `snowflakeDescription`. */
  function GuildKey(g: Guild): Snowflake {
    g.id
  }

  class State {
    var channels: seq<Channel>
    var guilds: seq<Guild>
    var dms: map<Snowflake, Channel>
    var users: map<Snowflake, User>
    /** Implicitly unwrapped in the source: unset until the ready event assigns it. */
    var me: Option<User>

    /** A new cache holds nothing and has no current user. */
    constructor()
      ensures channels == [] && guilds == [] && dms == map[] && users == map[] && me.None?
    {
      channels := [];
      guilds := [];
      dms := map[];
      users := map[];
      me := None;
    }

    /** The `me` getter traps while `me` is unset. */
    function Me(): (u: User)
      reads this
      requires me.Some?
      ensures Some(u) == me
    {
      me.value
    }

    method SetMe(u: User)
      modifies this
      ensures me == Some(u) && channels == old(channels) && guilds == old(guilds) && dms == old(dms) && users == old(users)
    {
      me := Some(u);
    }

    method SetChannels(cs: seq<Channel>)
      modifies this
      ensures channels == cs && guilds == old(guilds) && dms == old(dms) && users == old(users) && me == old(me)
    {
      channels := cs;
    }

    method SetGuilds(gs: seq<Guild>)
      modifies this
      ensures guilds == gs && channels == old(channels) && dms == old(dms) && users == old(users) && me == old(me)
    {
      guilds := gs;
    }

    method SetDms(ds: map<Snowflake, Channel>)
      modifies this
      ensures dms == ds && channels == old(channels) && guilds == old(guilds) && users == old(users) && me == old(me)
    {
      dms := ds;
    }

    method SetUsers(us: map<Snowflake, User>)
      modifies this
      ensures users == us && channels == old(channels) && guilds == old(guilds) && dms == old(dms) && me == old(me)
    {
      users := us;
    }

    /** `channels[flake]`: the first cached channel with the snowflake. */
    function Channel(flake: Snowflake): (r: Option<Channel>)
      reads this
      ensures r.Some? ==> r.value in channels && r.value.id == flake
    {
      Get(channels, ChannelKey, flake)
    }

    /** `guilds[flake]`: the first cached guild with the snowflake. */
    function Guild(flake: Snowflake): (r: Option<Guild>)
      reads this
      ensures r.Some? ==> r.value in guilds && r.value.id == flake
    {
      Get(guilds, GuildKey, flake)
    }

    /**
     * `channels[flake] = value`: the channel, if any, is detached from its
     * client (its recipients with it) and stored by the upsert.
     */
    method WriteChannel(flake: Snowflake, value: Option<Channel>)
      modifies this, if value.Some? then {value.value} else {}
      ensures channels == Upsert(old(channels), ChannelKey, flake, value)
      ensures guilds == old(guilds) && dms == old(dms) && users == old(users) && me == old(me)
      ensures value.Some? ==> (value.value.client.None? &&
        value.value.recipients == RecipientsWithClient(old(value.value.recipients), None))
    {
      var index := FirstIndex(channels, ChannelKey, flake);
      if index.Some? {
        channels := RemoveAt(channels, index.value);
      }
      if value.Some? {
        value.value.SetClient(None);
        channels := channels + [value.value];
      }
    }

    /**
     * `guilds[flake] = value`: the guild, if any, is detached from its
     * client (members and channels with it) and stored by the upsert.
     */
    method WriteGuild(flake: Snowflake, value: Option<Guild>)
      modifies this, if value.Some? then {value.value} else {}
      modifies if value.Some? then value.value.members else [], if value.Some? then value.value.channels else []
      ensures guilds == Upsert(old(guilds), GuildKey, flake, value)
      ensures channels == old(channels) && dms == old(dms) && users == old(users) && me == old(me)
      ensures value.Some? ==> (value.value.client.None? && value.value.members == old(value.value.members) &&
        value.value.channels == old(value.value.channels))
      ensures value.Some? ==> forall m | m in value.value.members :: (m.client.None? &&
        m.guildId == Some(value.value.id) && m.user == UserWithClient(old(m.user), None))
      ensures value.Some? ==> forall ch | ch in value.value.channels :: (ch.client.None? &&
        ch.recipients == RecipientsWithClient(old(ch.recipients), None))
    {
      var index := FirstIndex(guilds, GuildKey, flake);
      if index.Some? {
        guilds := RemoveAt(guilds, index.value);
      }
      if value.Some? {
        var g := value.value;
        g.SetClient(None);
        guilds := guilds + [g];
      }
    }
  }

  /** A channel written under its own snowflake is what the cache then returns for it. */
  lemma ChannelReadsBack(channels: seq<Channel>, ch: Channel)
    requires forall i, j | 0 <= i < j < |channels| :: channels[i].id == ch.id ==> channels[j].id != ch.id
    ensures Get(Upsert(channels, ChannelKey, ch.id, Some(ch)), ChannelKey, ch.id) == Some(ch)
  {
    GetAfterUpsert(channels, ChannelKey, ch.id, ch);
  }
}
