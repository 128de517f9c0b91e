/**
 * Discord+Hook.swift: the Discord hook boots a sharder, keeps the listeners
 * registered per dispatch event, and runs them when a shard hands it an
 * event, forwarding every event to the enclosing `SwiftHooks` afterwards.
 */
module Hooks {
  import opened Wrappers
  import opened Memory
  import opened DispatchCodes
  import opened Shards
  import opened Sharding

  /** An event as the hook receives it: one of Discord's, or one from another hook's vocabulary. */
  datatype EventType = DiscordType(event: DiscordEvent) | ForeignType(name: string)

  /** The event a listener registers for: a typed Discord event, or any other `_Event`. */
  datatype ListenKey = DiscordKey(typed: TypedEvent) | ForeignKey(name: string)

  /** The cross-hook events `translate` can produce. */
  datatype GlobalEvent = GlobalMessageCreate

  /** A registered closure: the user handler's identity and the content type it decodes. */
  datatype Handler = Handler(id: nat, content: ContentType)

  /** What a dispatch does that can be observed: a handler run (which may throw), or the forward to `SwiftHooks`. */
  datatype Delivery =
    | HandlerRun(handler: nat, data: Bytes, threw: bool)
    | Forwarded(event: EventType, data: Bytes, hooks: nat)

  /**
   * How the outside world answers: whether a payload decodes as a content
   * type (and the dispatch wrapper can be built), and whether a user
   * handler throws on it.
   */
  datatype Environment = Environment(decodes: (ContentType, Bytes) -> bool, throws: (nat, Bytes) -> bool)

  const GatewayHost: string := "wss://gateway.discord.gg"
  const AmountOfShards: nat := 1

  /** The handler runs of one dispatch: every listener, in registration order, whose content decodes. */
  function HandlerRuns(handlers: seq<Handler>, data: Bytes, env: Environment): (runs: seq<Delivery>)
    ensures |runs| <= |handlers|
    ensures forall k | 0 <= k < |runs| :: runs[k].HandlerRun? && runs[k].data == data
  {
    if handlers == [] then []
    else
      var h := handlers[|handlers| - 1];
      var before := HandlerRuns(handlers[..|handlers| - 1], data, env);
      if env.decodes(h.content, data) then before + [HandlerRun(h.id, data, env.throws(h.id, data))] else before
  }

  /** A Discord event runs its listeners; every event is then forwarded when `SwiftHooks` is attached. */
  function Deliveries(listeners: map<DiscordEvent, seq<Handler>>, hooks: Option<nat>, event: EventType, data: Bytes,
                      env: Environment): seq<Delivery>
  {
    var runs := if event.DiscordType? && event.event in listeners then HandlerRuns(listeners[event.event], data, env) else [];
    runs + (if hooks.Some? then [Forwarded(event, data, hooks.value)] else [])
  }

  /** `translate`: only a message creation has a cross-hook counterpart. */
  function Translate(event: EventType): (r: Option<GlobalEvent>)
    ensures r.Some? <==> event == DiscordType(MessageCreate)
    ensures r.Some? ==> r.value == GlobalMessageCreate
  {
    match event
    case DiscordType(MessageCreate) => Some(GlobalMessageCreate)
    case _ => None
  }

  class DiscordHook {
    const token: string
    const sharder: Sharder
    var discordListeners: map<DiscordEvent, seq<Handler>>
    /** The attached `SwiftHooks` instance, by identity. */
    var hooks: Option<nat>
    /** Everything dispatches have done, in order. */
    var delivered: seq<Delivery>

    constructor(token: string, platform: Platform)
      ensures this.token == token && fresh(sharder) && sharder.platform == platform
      ensures sharder.shardCount == 0 && sharder.shards == [] && sharder.Valid()
      ensures discordListeners == map[] && hooks.None? && delivered == []
    {
      this.token := token;
      sharder := new Sharder(platform);
      discordListeners := map[];
      hooks := None;
      delivered := [];
    }

    /** `boot`: attach `SwiftHooks`, set the shard count to one and spawn shard 0 on the Discord gateway. */
    method Boot(hooks: Option<nat>)
      requires sharder.Valid()
      modifies this, sharder
      ensures this.hooks == hooks && sharder.Valid()
      ensures discordListeners == old(discordListeners) && delivered == old(delivered)
      ensures sharder.shardCount == AmountOfShards
      ensures |sharder.shards| == |old(sharder.shards)| + AmountOfShards
      ensures sharder.shards[..|old(sharder.shards)|] == old(sharder.shards)
      ensures forall j | |old(sharder.shards)| <= j < |sharder.shards| :: Spawned(sharder.shards[j], j - |old(sharder.shards)|)
      ensures forall j | |old(sharder.shards)| <= j < |sharder.shards| :: fresh(sharder.shards[j])
    {
      this.hooks := hooks;
      sharder.shardCount := AmountOfShards;
      ghost var before := sharder.shards;
      for i := 0 to AmountOfShards
        invariant this.hooks == hooks && discordListeners == old(discordListeners) && delivered == old(delivered)
        invariant sharder.Valid() && sharder.shardCount == AmountOfShards
        invariant |sharder.shards| == |before| + i && sharder.shards[..|before|] == before
        invariant forall j | |before| <= j < |sharder.shards| :: Spawned(sharder.shards[j], j - |before|)
        invariant forall j | |before| <= j < |sharder.shards| :: fresh(sharder.shards[j])
      {
        sharder.Spawn(i, GatewayHost, token);
      }
    }

    /** A shard `boot` spawned with the given id: connecting to the Discord gateway. */
    predicate Spawned(shard: Shard, id: int)
      reads shard
    {
      shard.config == ShardConfig(id, token, sharder.platform) &&
      shard.View() == ConnectSpec(InitialState(), GatewayUrl(GatewayHost))
    }

    /** `shutdown`: disconnect every shard, detach `SwiftHooks` and drop all listeners. */
    method Shutdown()
      requires sharder.Valid()
      modifies this, set i | 0 <= i < |sharder.shards| :: sharder.shards[i]
      ensures hooks.None? && discordListeners == map[] && delivered == old(delivered)
      ensures forall i | 0 <= i < |sharder.shards| ::
        sharder.shards[i].View() == DisconnectSpec(old(sharder.shards[i].View()))
    {
      sharder.Disconnect();
      hooks := None;
      discordListeners := map[];
    }

    /** `listen`: a Discord event gets the handler appended to its listeners; any other event is ignored. */
    method Listen(key: ListenKey, handler: nat)
      modifies this
      ensures hooks == old(hooks) && delivered == old(delivered)
      ensures key.ForeignKey? ==> discordListeners == old(discordListeners)
      ensures key.DiscordKey? ==>
        var event := key.typed.event;
        discordListeners == old(discordListeners)[event :=
          (if event in old(discordListeners) then old(discordListeners)[event] else []) + [Handler(handler, key.typed.content)]]
    {
      if key.ForeignKey? {
        return;
      }
      var event := key.typed.event;
      var closures := if event in discordListeners then discordListeners[event] else [];
      closures := closures + [Handler(handler, key.typed.content)];
      discordListeners := discordListeners[event := closures];
    }

    /**
     * `dispatchEvent`: run the listeners of a Discord event in order, each
     * inside its own `do`/`catch` so a throwing handler does not stop the
     * rest, and forward the event (Discord's or not) to `SwiftHooks` last.
     */
    method DispatchEvent(event: EventType, data: Bytes, env: Environment)
      modifies this
      ensures discordListeners == old(discordListeners) && hooks == old(hooks)
      ensures delivered == old(delivered) + Deliveries(discordListeners, hooks, event, data, env)
    {
      if event.DiscordType? && event.event in discordListeners {
        var handlers := discordListeners[event.event];
        var k := 0;
        while k < |handlers|
          invariant 0 <= k <= |handlers|
          invariant discordListeners == old(discordListeners) && hooks == old(hooks)
          invariant delivered == old(delivered) + HandlerRuns(handlers[..k], data, env)
        {
          var h := handlers[k];
          assert handlers[..k + 1][..k] == handlers[..k];
          if env.decodes(h.content, data) {
            var threw := env.throws(h.id, data);
            delivered := delivered + [HandlerRun(h.id, data, threw)];
          }
          k := k + 1;
        }
        assert handlers[..k] == handlers;
      }
      if hooks.Some? {
        delivered := delivered + [Forwarded(event, data, hooks.value)];
      }
    }
  }

  /**
   * Every listener whose payload decodes runs, in registration order,
   * whatever the listeners before it did; the others do not run.
   */
  lemma {:induction false} HandlerRunsInOrder(handlers: seq<Handler>, data: Bytes, env: Environment)
    ensures var runs := HandlerRuns(handlers, data, env);
      forall k | 0 <= k < |handlers| && env.decodes(handlers[k].content, data) ::
        HandlerRun(handlers[k].id, data, env.throws(handlers[k].id, data)) in runs
    ensures (forall k | 0 <= k < |handlers| :: env.decodes(handlers[k].content, data)) ==>
      |HandlerRuns(handlers, data, env)| == |handlers|
    ensures forall r | r in HandlerRuns(handlers, data, env) :: exists k | 0 <= k < |handlers| ::
      r == HandlerRun(handlers[k].id, data, env.throws(handlers[k].id, data)) && env.decodes(handlers[k].content, data)
  {
    if handlers != [] {
      var init := handlers[..|handlers| - 1];
      HandlerRunsInOrder(init, data, env);
      forall r | r in HandlerRuns(handlers, data, env)
        ensures exists k | 0 <= k < |handlers| ::
          r == HandlerRun(handlers[k].id, data, env.throws(handlers[k].id, data)) && env.decodes(handlers[k].content, data)
      {
        if r in HandlerRuns(init, data, env) {
          var k :| 0 <= k < |init| && r == HandlerRun(init[k].id, data, env.throws(init[k].id, data)) &&
            env.decodes(init[k].content, data);
          assert handlers[k] == init[k];
        } else {
          assert handlers[|handlers| - 1] == handlers[|handlers| - 1];
        }
      }
      forall k | 0 <= k < |handlers| && env.decodes(handlers[k].content, data)
        ensures HandlerRun(handlers[k].id, data, env.throws(handlers[k].id, data)) in HandlerRuns(handlers, data, env)
      {
        if k < |init| {
          assert handlers[k] == init[k];
        }
      }
    }
  }

  /**
   * A handler registered with `listen` runs last on the next dispatch of
   * its event when the payload decodes; a foreign event runs no listener
   * and is only forwarded.
   */
  lemma ListenThenDispatch(listeners: map<DiscordEvent, seq<Handler>>, hooks: Option<nat>, typed: TypedEvent, id: nat,
                           data: Bytes, env: Environment)
    requires env.decodes(typed.content, data)
    ensures var old_ := if typed.event in listeners then listeners[typed.event] else [];
      var added := listeners[typed.event := old_ + [Handler(id, typed.content)]];
      Deliveries(added, hooks, DiscordType(typed.event), data, env) ==
        HandlerRuns(old_, data, env) + [HandlerRun(id, data, env.throws(id, data))] +
        (if hooks.Some? then [Forwarded(DiscordType(typed.event), data, hooks.value)] else [])
  {
    var old_ := if typed.event in listeners then listeners[typed.event] else [];
    assert (old_ + [Handler(id, typed.content)])[..|old_|] == old_;
  }

  /** Any event reaches `SwiftHooks` exactly once and last when it is attached, and never otherwise. */
  lemma ForwardedLastIffAttached(listeners: map<DiscordEvent, seq<Handler>>, hooks: Option<nat>, event: EventType,
                                 data: Bytes, env: Environment)
    ensures var ds := Deliveries(listeners, hooks, event, data, env);
      (hooks.Some? <==> |ds| > 0 && ds[|ds| - 1] == Forwarded(event, data, hooks.GetOr(0)))
    ensures event.ForeignType? ==>
      Deliveries(listeners, hooks, event, data, env) == (if hooks.Some? then [Forwarded(event, data, hooks.value)] else [])
  {
  }

  /** After `shutdown` a dispatch does nothing: no listener is left and `SwiftHooks` is detached. */
  lemma ShutdownSilencesDispatch(event: EventType, data: Bytes, env: Environment)
    ensures Deliveries(map[], None, event, data, env) == []
  {
  }
}
