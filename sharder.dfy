/**
 * Gateway/Sharder.swift: the gateway URL a shard connects to, and the
 * sharder that spawns shards and disconnects them all.
 */
module Sharding {
  import opened Wrappers
  import opened Decimal
  import opened Shards

  /** `DiscordHook.GatewayVersion`, `GatewayEncoding` and `GatewayCompression`. */
  const GatewayVersion: nat := 6
  const GatewayEncoding: string := "json"
  const GatewayCompression: string := "zlib-stream"

  lemma VersionIsSix()
    ensures NatToString(GatewayVersion) == "6"
  {
    assert DigitChar(6) == '6';
  }

  /** The host a shard is spawned on, extended with the version, encoding and compression query. */
  function GatewayUrl(host: string): (url: string)
    ensures |url| >= |host| && url[..|host|] == host
    ensures url[|host|..] == "?v=6&encoding=json&compress=zlib-stream"
  {
    var query := "?v=" + NatToString(GatewayVersion) + "&encoding=" + GatewayEncoding + "&compress=" + GatewayCompression;
    VersionIsSix();
    assert query == "?v=6&encoding=json&compress=zlib-stream";
    host + query
  }

  /** A host `URL(string:)` accepts still parses once the query is added, so the shard records it. */
  lemma GatewayUrlParses(host: string)
    requires UrlParses(host)
    ensures UrlParses(GatewayUrl(host))
    ensures ConnectSpec(InitialState(), GatewayUrl(host)).socketUrl == Some(GatewayUrl(host))
  {
    var url := GatewayUrl(host);
    var query := "?v=6&encoding=json&compress=zlib-stream";
    assert url == host + query;
    forall i | 0 <= i < |url|
      ensures IsUrlChar(url[i])
    {
      if i >= |host| {
        assert url[i] == query[i - |host|];
      }
    }
  }

  class Sharder {
    /** The platform the package is built for, handed to every shard. */
    const platform: Platform
    var shardCount: int
    var shardHosts: map<int, string>
    var shards: seq<Shard>

    /** Every spawned shard is a distinct object. */
    predicate Valid()
      reads this
    {
      forall i, j | 0 <= i < j < |shards| :: shards[i] != shards[j]
    }

    constructor(platform: Platform)
      ensures this.platform == platform
      ensures shardCount == 0 && shardHosts == map[] && shards == []
      ensures Valid()
    {
      this.platform := platform;
      shardCount := 0;
      shardHosts := map[];
      shards := [];
    }

    /**
     * `spawn`: record the gateway URL for the id, create a shard, start its
     * connection and append it.
     */
    method Spawn(id: int, host: string, token: string)
      requires Valid()
      modifies this
      ensures Valid()
      ensures shardCount == old(shardCount)
      ensures shardHosts == old(shardHosts)[id := GatewayUrl(host)]
      ensures |shards| == |old(shards)| + 1 && shards[..|old(shards)|] == old(shards)
      ensures fresh(shards[|old(shards)|])
      ensures shards[|old(shards)|].config == ShardConfig(id, token, platform)
      ensures shards[|old(shards)|].View() == ConnectSpec(InitialState(), GatewayUrl(host))
    {
      var url := GatewayUrl(host);
      shardHosts := shardHosts[id := url];
      var shard := new Shard(id, token, platform);
      shard.Connect(url);
      shards := shards + [shard];
    }

    /** `disconnect`: disconnect every shard, in order; the list itself is kept. */
    method Disconnect()
      requires Valid()
      modifies set i | 0 <= i < |shards| :: shards[i]
      ensures forall i | 0 <= i < |shards| :: shards[i].View() == DisconnectSpec(old(shards[i].View()))
    {
      var k := 0;
      while k < |shards|
        invariant 0 <= k <= |shards|
        invariant forall i | 0 <= i < k :: shards[i].View() == DisconnectSpec(old(shards[i].View()))
        invariant forall i | k <= i < |shards| :: shards[i].View() == old(shards[i].View())
      {
        shards[k].Disconnect();
        k := k + 1;
      }
    }
  }
}
