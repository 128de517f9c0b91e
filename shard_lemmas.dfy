/** The gateway protocol properties of a shard, stated over the functions that specify its methods. */
module ShardLemmas {
  import opened Wrappers
  import opened Memory
  import opened Frames
  import opened Payloads
  import opened Shards
  import G = GatewayCodes

  /** A fresh shard satisfies the invariant and holds no session, sequence, socket or timer. */
  lemma InitialStateIsQuiet()
    ensures ShardInvariant(InitialState())
    ensures var s := InitialState();
      s.buffer == [] && s.ackMissed == 0 && !s.isReconnecting && s.lastSequence.None? &&
      s.sessionId.None? && s.socket == NoSocket && s.heartbeatTask == NoTask && s.outbox == []
  {
  }

  /**
   * `handle(_ data:)` always appends; an incomplete buffer ends the call
   * there, and so does a frame whose inflation runs out of steps or whose
   * inflated bytes are not UTF-8. A frame of non-empty text empties the
   * buffer before the text is handled; an empty text is handled with the
   * buffer kept.
   */
  lemma HandleBinaryCases(s: ShardState, c: ShardConfig, shardCount: int, data: Bytes, steps: seq<InflateStep>,
                          parse: Bytes -> Option<RawPayload>)
    ensures var r := HandleBinarySpec(s, c, shardCount, data, steps, parse);
      !IsBufferComplete(s.buffer + data) ==> r == s.(buffer := s.buffer + data)
    ensures var r := HandleBinarySpec(s, c, shardCount, data, steps, parse);
      var end := SyncFlushLoop(steps, InitialCapacity(s.buffer + data), []);
      IsBufferComplete(s.buffer + data) && end.Exited? && !IsUtf8(end.output) ==> r == s.(buffer := s.buffer + data)
    ensures var r := HandleBinarySpec(s, c, shardCount, data, steps, parse);
      var end := SyncFlushLoop(steps, InitialCapacity(s.buffer + data), []);
      IsBufferComplete(s.buffer + data) && end.Exited? && IsUtf8(end.output) && end.output != [] ==>
        r == HandleTextSpec(s.(buffer := []), c, shardCount, end.output, parse)
    ensures var r := HandleBinarySpec(s, c, shardCount, data, steps, parse);
      var end := SyncFlushLoop(steps, InitialCapacity(s.buffer + data), []);
      IsBufferComplete(s.buffer + data) && end.OutOfSteps? ==> r == s.(buffer := s.buffer + data)
    ensures var r := HandleBinarySpec(s, c, shardCount, data, steps, parse);
      var end := SyncFlushLoop(steps, InitialCapacity(s.buffer + data), []);
      IsBufferComplete(s.buffer + data) && end.Exited? && IsUtf8(end.output) && end.output == [] ==>
        r == HandleTextSpec(s.(buffer := s.buffer + data), c, shardCount, [], parse)
  {
  }

  /**
   * A heartbeat tick does nothing without an open socket; with one, it
   * sends a heartbeat carrying the last sequence and counts it while fewer
   * than two are unanswered, and otherwise reconnects without sending. It
   * never leaves more than two unanswered.
   */
  lemma TickCases(s: ShardState)
    ensures s.socket != Open ==> TickSpec(s) == s
    ensures s.socket == Open && s.ackMissed < 2 ==>
      TickSpec(s) == s.(ackMissed := s.ackMissed + 1, outbox := s.outbox + [HeartbeatPayload(s)])
    ensures s.socket == Open && s.ackMissed >= 2 ==>
      TickSpec(s) == ReconnectSpec(s) && TickSpec(s).outbox == s.outbox && TickSpec(s).socket == NoSocket
    ensures s.socket == Open ==> TickSpec(s).ackMissed <= 2
    ensures HeartbeatPayload(s).op == G.Heartbeat && HeartbeatPayload(s).d == HeartbeatBody(s.lastSequence)
    ensures HeartbeatPayload(s).s.None? && HeartbeatPayload(s).t.None?
  {
  }

  /**
   * With a live connection and no acknowledgements, the first two ticks
   * each send a heartbeat and the third reconnects: the socket is dropped,
   * the counter reset and a new connection started to the same URL.
   */
  lemma ThirdSilentTickReconnects(s: ShardState)
    requires s.socket == Open && s.ackMissed == 0
    requires s.socketUrl.Some? && UrlParses(s.socketUrl.value)
    ensures var t1 := TickSpec(s); var t2 := TickSpec(t1); var t3 := TickSpec(t2);
      t2.outbox == s.outbox + [HeartbeatPayload(s), HeartbeatPayload(s)] && t2.ackMissed == 2 &&
      t3.outbox == t2.outbox && t3.socket == NoSocket && t3.ackMissed == 0 &&
      t3.connections == s.connections + [s.socketUrl.value]
  {
    var t1 := TickSpec(s);
    assert t1 == s.(ackMissed := 1, outbox := s.outbox + [HeartbeatPayload(s)]);
    assert HeartbeatPayload(t1) == HeartbeatPayload(s);
  }

  /**
   * After a hello that decodes, exactly one payload goes out over an open
   * socket: a resume with the session and sequence when the shard is
   * reconnecting and knows both, an identify otherwise. A heartbeat task is
   * running afterwards exactly when a socket is assigned.
   */
  lemma HelloSendsExactlyOne(s: ShardState, c: ShardConfig, shardCount: int, d: Data)
    requires GetHello(d).Some?
    ensures var r := HelloSpec(s, c, shardCount, d);
      s.socket == Open ==> r.outbox == s.outbox + [
        if CanResume(s) then ResumePayload(c, s.sessionId.value, s.lastSequence.value)
        else IdentifyPayload(c, shardCount)]
    ensures s.socket != Open ==> HelloSpec(s, c, shardCount, d).outbox == s.outbox
    ensures (HelloSpec(s, c, shardCount, d).heartbeatTask == Running) <==> s.socket != NoSocket
    ensures var r := HelloSpec(s, c, shardCount, d);
      r.sessionId == s.sessionId && r.lastSequence == s.lastSequence && r.ackMissed == s.ackMissed
  {
    assert CanResume(ScheduleSpec(s)) == CanResume(s);
  }

  /** A resume is chosen exactly when the shard is reconnecting with a session and a sequence. */
  lemma ResumeIffReconnectingWithSession(s: ShardState, c: ShardConfig, shardCount: int, d: Data)
    requires GetHello(d).Some? && s.socket == Open
    ensures Last(HelloSpec(s, c, shardCount, d).outbox).op == G.Resume <==>
      (s.isReconnecting && s.sessionId.Some? && s.lastSequence.Some?)
    ensures Last(HelloSpec(s, c, shardCount, d).outbox).op == G.Identify <==>
      !(s.isReconnecting && s.sessionId.Some? && s.lastSequence.Some?)
  {
    HelloSendsExactlyOne(s, c, shardCount, d);
  }

  function Last<T>(xs: seq<T>): T
    requires |xs| > 0
  {
    xs[|xs| - 1]
  }

  /** A hello whose body does not decode disconnects: no timer, no identify, no resume. */
  lemma BadHelloDisconnects(s: ShardState, c: ShardConfig, shardCount: int, d: Data)
    requires GetHello(d).None?
    ensures HelloSpec(s, c, shardCount, d) == DisconnectSpec(s)
    ensures HelloSpec(s, c, shardCount, d).outbox == s.outbox
    ensures HelloSpec(s, c, shardCount, d).heartbeatTask != Running
  {
  }

  /**
   * A dispatch records its sequence number (even a missing one) and
   * forwards the raw bytes once under its event name when it has one;
   * nothing else changes.
   */
  lemma DispatchRecordsAndForwards(s: ShardState, c: ShardConfig, shardCount: int, p: SinData, d: Data, data: Bytes)
    requires p.op == G.Dispatch
    ensures var r := HandlePayloadSpec(s, c, shardCount, p, d, data);
      r == s.(lastSequence := p.s,
              dispatched := s.dispatched + (if p.t.Some? then [Dispatch(p.t.value, data)] else []))
  {
  }

  /**
   * An inbound heartbeat or acknowledgement lowers the missed-ack counter by
   * one and changes nothing else; there is no lower bound, so a fresh shard
   * that receives an acknowledgement counts -1.
   */
  lemma AcknowledgementsDecrement(s: ShardState, c: ShardConfig, shardCount: int, p: SinData, d: Data, data: Bytes)
    requires p.op == G.Heartbeat || p.op == G.HeartbeatAck
    ensures HandlePayloadSpec(s, c, shardCount, p, d, data) == s.(ackMissed := s.ackMissed - 1)
    ensures HandlePayloadSpec(InitialState(), c, shardCount, p, d, data).ackMissed == -1
  {
  }

  /**
   * Invalid session: a non-boolean body changes nothing; a boolean keeps
   * the session when true and drops it when false, then reconnects.
   */
  lemma InvalidSessionCases(s: ShardState, c: ShardConfig, shardCount: int, p: SinData, d: Data, data: Bytes)
    requires p.op == G.InvalidSession
    ensures GetBool(d).None? ==> HandlePayloadSpec(s, c, shardCount, p, d, data) == s
    ensures GetBool(d) == Some(true) ==> HandlePayloadSpec(s, c, shardCount, p, d, data) == ReconnectSpec(s)
    ensures GetBool(d) == Some(false) ==>
      HandlePayloadSpec(s, c, shardCount, p, d, data) == ReconnectSpec(s.(sessionId := None)) &&
      HandlePayloadSpec(s, c, shardCount, p, d, data).sessionId.None?
  {
  }

  /** A reconnect request drops the session and reconnects, so the next hello identifies afresh. */
  lemma ReconnectOpcodeDropsSession(s: ShardState, c: ShardConfig, shardCount: int, p: SinData, d: Data, data: Bytes)
    requires p.op == G.Reconnect
    ensures var r := HandlePayloadSpec(s, c, shardCount, p, d, data);
      r == ReconnectSpec(s.(sessionId := None)) && r.sessionId.None? && r.isReconnecting == s.isReconnecting
  {
  }

  /** Opcodes the switch does not name leave the shard unchanged. */
  lemma UnhandledOpcodesChangeNothing(s: ShardState, c: ShardConfig, shardCount: int, p: SinData, d: Data, data: Bytes)
    requires p.op in {G.Identify, G.StatusUpdate, G.VoiceStateUpdate, G.Resume, G.RequestGuildMembers}
    ensures HandlePayloadSpec(s, c, shardCount, p, d, data) == s
  {
  }

  /**
   * `disconnect` resets the counter and buffer, stops the referenced timer
   * and drops the socket, keeps the session fields, and is idempotent.
   */
  lemma DisconnectProperties(s: ShardState)
    ensures var r := DisconnectSpec(s);
      r.ackMissed == 0 && r.buffer == [] && r.socket == NoSocket && r.heartbeatTask != Running
    ensures var r := DisconnectSpec(s);
      r.sessionId == s.sessionId && r.lastSequence == s.lastSequence &&
      r.isReconnecting == s.isReconnecting && r.socketUrl == s.socketUrl && r.outbox == s.outbox
    ensures DisconnectSpec(DisconnectSpec(s)) == DisconnectSpec(s)
  {
  }

  /** `connect` ignores an unparseable URL and otherwise records it before the connection is made. */
  lemma ConnectRecordsUrl(s: ShardState, url: string)
    ensures !UrlParses(url) ==> ConnectSpec(s, url) == s
    ensures UrlParses(url) ==>
      ConnectSpec(s, url).socketUrl == Some(url) && ConnectSpec(s, url).connections == s.connections + [url] &&
      ConnectSpec(s, url).socket == s.socket
  {
  }

  /**
   * `reconnect` disconnects an open socket first (a closed one is left
   * alone), stops without a recorded URL, and afterwards is reconnecting
   * exactly when it was before or it holds a session and a URL: it never
   * clears the flag.
   */
  lemma ReconnectProperties(s: ShardState)
    requires ShardInvariant(s)
    ensures var r := ReconnectSpec(s);
      r.isReconnecting <==> s.isReconnecting || (s.sessionId.Some? && s.socketUrl.Some?)
    ensures s.socket == Open ==> ReconnectSpec(s).socket == NoSocket && ReconnectSpec(s).ackMissed == 0
    ensures s.socket != Open ==> ReconnectSpec(s).socket == s.socket && ReconnectSpec(s).heartbeatTask == s.heartbeatTask
    ensures s.socketUrl.None? ==> ReconnectSpec(s).connections == s.connections
    ensures s.socketUrl.Some? ==> ReconnectSpec(s).connections == s.connections + [s.socketUrl.value]
    ensures ReconnectSpec(s).sessionId == s.sessionId && ReconnectSpec(s).outbox == s.outbox
  {
  }

  /**
   * When the network has closed the socket, `reconnect` does not cancel the
   * running heartbeat task; the next hello overwrites the reference, and
   * the old task keeps running unreferenced.
   */
  lemma RemoteCloseOrphansHeartbeat(s: ShardState, c: ShardConfig, shardCount: int, interval: int)
    requires s.socket == Closed && s.heartbeatTask == Running
    requires s.socketUrl.Some? && UrlParses(s.socketUrl.value)
    ensures var reconnected := ReconnectSpec(s);
      var hello := HelloSpec(SocketOpenedSpec(reconnected), c, shardCount, HelloData(interval));
      reconnected.heartbeatTask == Running && hello.heartbeatTask == Running &&
      hello.orphanedTimers == s.orphanedTimers + 1
  {
  }

  /** Every connection operation keeps the missed-ack counter at most two and the recorded URL parseable. */
  lemma ConnectionPreservesInvariant(s: ShardState, url: string)
    requires ShardInvariant(s)
    ensures ShardInvariant(DisconnectSpec(s))
    ensures ShardInvariant(ConnectSpec(s, url))
    ensures ShardInvariant(ReconnectSpec(s))
    ensures ShardInvariant(TickSpec(s))
    ensures ShardInvariant(SocketOpenedSpec(s)) && ShardInvariant(SocketClosedSpec(s))
  {
  }

  /** So does every inbound payload. */
  lemma PayloadPreservesInvariant(s: ShardState, c: ShardConfig, shardCount: int, p: SinData, d: Data, data: Bytes)
    requires ShardInvariant(s)
    ensures ShardInvariant(HandlePayloadSpec(s, c, shardCount, p, d, data))
  {
    match p.op
    case InvalidSession =>
      if GetBool(d).Some? {
        ConnectionPreservesInvariant(s.(sessionId := if GetBool(d).value then s.sessionId else None), "");
      }
    case Reconnect => ConnectionPreservesInvariant(s.(sessionId := None), "");
    case Hello =>
    case _ =>
  }

  lemma HandleTextPreservesInvariant(s: ShardState, c: ShardConfig, shardCount: int, text: Bytes,
                                     parse: Bytes -> Option<RawPayload>)
    requires ShardInvariant(s)
    ensures ShardInvariant(HandleTextSpec(s, c, shardCount, text, parse))
  {
    match parse(text)
    case None =>
    case Some(raw) =>
      match DecodeSinData(raw)
      case None =>
      case Some(p) => PayloadPreservesInvariant(s, c, shardCount, p, raw.d, text);
  }

  lemma HandleBinaryPreservesInvariant(s: ShardState, c: ShardConfig, shardCount: int, data: Bytes,
                                       steps: seq<InflateStep>, parse: Bytes -> Option<RawPayload>)
    requires ShardInvariant(s)
    ensures ShardInvariant(HandleBinarySpec(s, c, shardCount, data, steps, parse))
  {
    var appended := s.(buffer := s.buffer + data);
    if IsBufferComplete(appended.buffer) {
      match SyncFlushLoop(steps, InitialCapacity(appended.buffer), [])
      case OutOfSteps(_, _) =>
      case Exited(_, text) =>
        if IsUtf8(text) {
          HandleTextPreservesInvariant(if text != [] then appended.(buffer := []) else appended, c, shardCount, text, parse);
        }
    }
  }
}
