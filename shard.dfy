/**
 * Gateway/Shard.swift, Shard+Payload.swift, Shard+Gateway.swift and
 * Shard+Dispatch.swift: one connection to the Discord gateway.
 *
 * The class `Shard` keeps the fields the source updates in place. Its
 * WebSocket is reduced to a three-valued `SocketState` (no socket, an open
 * one, or one the network has closed), its repeated heartbeat task to a
 * `TaskState` plus a count of tasks that were replaced without being
 * cancelled, the frames it sends to an outbox, and its calls into the hook's
 * `dispatchEvent` to a log. Every method is specified by a function on the
 * snapshot `ShardState`, and the protocol properties are lemmas about those
 * functions.
 */
module Shards {
  import opened Wrappers
  import opened Memory
  import opened Frames
  import opened Payloads
  import G = GatewayCodes
  import D = DispatchCodes

  /** The platform the package is compiled for, which picks the `$os` identify property. */
  datatype Platform = MacOS | Linux

  function OsName(p: Platform): string {
    match p
    case MacOS => "macOS"
    case Linux => "Linux"
  }

  /** `socket: WebSocket?` with its `isClosed` flag. */
  datatype SocketState = NoSocket | Open | Closed

  /** `heartbeatTask: RepeatedTask?`: none, scheduled and running, or cancelled. */
  datatype TaskState = NoTask | Running | Cancelled

  /** One call of `hook.dispatchEvent(event, with: data)`. */
  datatype Dispatch = Dispatch(event: D.DiscordEvent, data: Bytes)

  /** The fields a shard is created with and never changes. */
  datatype ShardConfig = ShardConfig(id: int, token: string, platform: Platform)

  datatype ShardState = ShardState(
    buffer: Bytes,
    ackMissed: int,
    isReconnecting: bool,
    lastSequence: Option<int>,
    sessionId: Option<string>,
    heartbeatTask: TaskState,
    orphanedTimers: nat,
    socket: SocketState,
    socketUrl: Option<string>,
    connections: seq<string>,
    outbox: seq<GatewayPayload>,
    dispatched: seq<Dispatch>)

  /** Characters RFC 3986 allows in a URI reference, with `%` for escapes. */
  predicate IsUrlChar(c: char) {
    ('a' <= c <= 'z') || ('A' <= c <= 'Z') || ('0' <= c <= '9') || c in "-._~:/?#[]@!$&'()*+,;=%"
  }

  /** `URL(string:)` succeeds: a non-empty string of URI characters. */
  predicate UrlParses(url: string) {
    |url| > 0 && forall i | 0 <= i < |url| :: IsUrlChar(url[i])
  }

  /** What every reachable shard state satisfies. */
  predicate ShardInvariant(s: ShardState) {
    s.ackMissed <= 2 && (s.socketUrl.Some? ==> UrlParses(s.socketUrl.value))
  }

  /** `init`: empty buffer, no missed acks, not reconnecting, no session, sequence, socket or timer. */
  function InitialState(): ShardState {
    ShardState([], 0, false, None, None, NoTask, 0, NoSocket, None, [], [], [])
  }

  /** `send`: `socket?.send` delivers on an open socket only. */
  function SendSpec(s: ShardState, p: GatewayPayload): ShardState {
    if s.socket == Open then s.(outbox := s.outbox + [p]) else s
  }

  /** `heartbeat()`: op 1 carrying the last sequence number. */
  function HeartbeatPayload(s: ShardState): GatewayPayload {
    Outbound(HeartbeatBody(s.lastSequence))
  }

  /** `identify()`: op 2 with the token, the platform properties and `shard: [id, shardCount]`. */
  function IdentifyPayload(c: ShardConfig, shardCount: int): GatewayPayload {
    Outbound(IdentifyBody(c.token, Properties(OsName(c.platform), "SwiftHooks", "SwiftHooks"), [c.id, shardCount]))
  }

  /** The resume payload of the hello handler: op 6 with token, session id and sequence. */
  function ResumePayload(c: ShardConfig, sessionId: string, sequence: int): GatewayPayload {
    Outbound(ResumeBody(c.token, sessionId, sequence))
  }

  /** `disconnect()`. */
  function DisconnectSpec(s: ShardState): ShardState {
    s.(ackMissed := 0,
       buffer := [],
       heartbeatTask := if s.heartbeatTask == Running then Cancelled else s.heartbeatTask,
       socket := NoSocket)
  }

  /** `connect(to:)`: an unparseable URL is ignored; otherwise it is recorded and a connection started. */
  function ConnectSpec(s: ShardState, url: string): ShardState {
    if !UrlParses(url) then s
    else s.(socketUrl := Some(url), connections := s.connections + [url])
  }

  /** The connection callback: `strongSelf.socket = ws`. */
  function SocketOpenedSpec(s: ShardState): ShardState {
    s.(socket := Open)
  }

  /** The network closes the socket: it stays assigned, with `isClosed` set. */
  function SocketClosedSpec(s: ShardState): ShardState {
    if s.socket == Open then s.(socket := Closed) else s
  }

  /** `reconnect()`. */
  function ReconnectSpec(s: ShardState): ShardState {
    var closed := if s.socket == Open then DisconnectSpec(s) else s;
    match closed.socketUrl
    case None => closed
    case Some(host) =>
      ConnectSpec(if closed.sessionId.Some? then closed.(isReconnecting := true) else closed, host)
  }

  /** One run of the repeated heartbeat task's closure. */
  function TickSpec(s: ShardState): ShardState {
    if s.socket != Open then s
    else if s.ackMissed >= 2 then ReconnectSpec(s)
    else SendSpec(s.(ackMissed := s.ackMissed + 1), HeartbeatPayload(s))
  }

  /**
   * `heartbeatTask = socket?.eventLoop.scheduleRepeatedTask(...)`: a new
   * task when a socket is assigned, none otherwise; a running task that is
   * overwritten keeps running, unreferenced.
   */
  function ScheduleSpec(s: ShardState): ShardState {
    s.(heartbeatTask := if s.socket == NoSocket then NoTask else Running,
       orphanedTimers := if s.heartbeatTask == Running then s.orphanedTimers + 1 else s.orphanedTimers)
  }

  /** Whether the hello handler resumes rather than identifies. */
  predicate CanResume(s: ShardState) {
    s.isReconnecting && s.sessionId.Some? && s.lastSequence.Some?
  }

  /** The hello handler. */
  function HelloSpec(s: ShardState, c: ShardConfig, shardCount: int, d: Data): ShardState {
    match GetHello(d)
    case None => DisconnectSpec(s)
    case Some(_) =>
      var scheduled := ScheduleSpec(s);
      if CanResume(scheduled) then
        SendSpec(scheduled, ResumePayload(c, scheduled.sessionId.value, scheduled.lastSequence.value))
      else SendSpec(scheduled, IdentifyPayload(c, shardCount))
  }

  /** `handleDispatch`: forward a tagged payload to the hook, ignore an untagged one. */
  function DispatchSpec(s: ShardState, p: SinData, data: Bytes): ShardState {
    match p.t
    case None => s
    case Some(event) => s.(dispatched := s.dispatched + [Dispatch(event, data)])
  }

  /** The opcode switch of `handle(_ payload:_:on:)`. */
  function HandlePayloadSpec(s: ShardState, c: ShardConfig, shardCount: int, p: SinData, d: Data, data: Bytes): ShardState {
    match p.op
    case Dispatch => DispatchSpec(s.(lastSequence := p.s), p, data)
    case Heartbeat => s.(ackMissed := s.ackMissed - 1)
    case InvalidSession =>
      (match GetBool(d)
       case None => s
       case Some(canResume) => ReconnectSpec(s.(sessionId := if canResume then s.sessionId else None)))
    case Hello => HelloSpec(s, c, shardCount, d)
    case Reconnect => ReconnectSpec(s.(sessionId := None))
    case HeartbeatAck => s.(ackMissed := s.ackMissed - 1)
    case _ => s
  }

  /** `handle(_ text:)`: decode the header and handle the payload; a decoding failure is only logged. */
  function HandleTextSpec(s: ShardState, c: ShardConfig, shardCount: int, text: Bytes, parse: Bytes -> Option<RawPayload>): ShardState {
    match parse(text)
    case None => s
    case Some(raw) =>
      match DecodeSinData(raw)
      case None => s
      case Some(p) => HandlePayloadSpec(s, c, shardCount, p, raw.d, text)
  }

  /**
   * `handle(_ data:)`: append, and once the buffer is a complete frame,
   * inflate it; valid UTF-8 output is handled as text, after the buffer is
   * emptied when the text is not empty.
   */
  function HandleBinarySpec(s: ShardState, c: ShardConfig, shardCount: int, data: Bytes, steps: seq<InflateStep>,
                            parse: Bytes -> Option<RawPayload>): ShardState {
    var appended := s.(buffer := s.buffer + data);
    if !IsBufferComplete(appended.buffer) then appended
    else
      match SyncFlushLoop(steps, InitialCapacity(appended.buffer), [])
      case OutOfSteps(_, _) => appended
      case Exited(_, text) =>
        if !IsUtf8(text) then appended
        else HandleTextSpec(if text != [] then appended.(buffer := []) else appended, c, shardCount, text, parse)
  }

  class Shard {
    const config: ShardConfig
    var buffer: Bytes
    var ackMissed: int
    var isReconnecting: bool
    var lastSequence: Option<int>
    var sessionId: Option<string>
    var heartbeatTask: TaskState
    var orphanedTimers: nat
    var socket: SocketState
    var socketUrl: Option<string>
    /** The URLs of the WebSocket connections this shard has started, in order. */
    var connections: seq<string>
    /** The payloads sent over an open socket, in order. */
    var outbox: seq<GatewayPayload>
    /** The calls made to the hook's `dispatchEvent`, in order. */
    var dispatched: seq<Dispatch>

    function View(): ShardState
      reads this
    {
      ShardState(buffer, ackMissed, isReconnecting, lastSequence, sessionId, heartbeatTask,
                 orphanedTimers, socket, socketUrl, connections, outbox, dispatched)
    }

    predicate Valid()
      reads this
    {
      ShardInvariant(View())
    }

    constructor(id: int, token: string, platform: Platform)
      ensures config == ShardConfig(id, token, platform)
      ensures View() == InitialState()
      ensures Valid()
    {
      config := ShardConfig(id, token, platform);
      buffer := [];
      ackMissed := 0;
      isReconnecting := false;
      lastSequence := None;
      sessionId := None;
      heartbeatTask := NoTask;
      orphanedTimers := 0;
      socket := NoSocket;
      socketUrl := None;
      connections := [];
      outbox := [];
      dispatched := [];
    }

    method Send(payload: GatewayPayload)
      modifies this
      ensures View() == SendSpec(old(View()), payload)
    {
      if socket == Open {
        outbox := outbox + [payload];
      }
    }

    method Heartbeat()
      modifies this
      ensures View() == SendSpec(old(View()), HeartbeatPayload(old(View())))
    {
      Send(Outbound(HeartbeatBody(lastSequence)));
    }

    method Identify(shardCount: int)
      modifies this
      ensures View() == SendSpec(old(View()), IdentifyPayload(config, shardCount))
    {
      var properties := Properties(OsName(config.platform), "SwiftHooks", "SwiftHooks");
      Send(Outbound(IdentifyBody(config.token, properties, [config.id, shardCount])));
    }

    method Disconnect()
      modifies this
      ensures View() == DisconnectSpec(old(View()))
    {
      ackMissed := 0;
      buffer := [];
      if heartbeatTask == Running {
        heartbeatTask := Cancelled;
      }
      socket := NoSocket;
    }

    method Connect(url: string)
      modifies this
      ensures View() == ConnectSpec(old(View()), url)
    {
      if !UrlParses(url) {
        return;
      }
      socketUrl := Some(url);
      connections := connections + [url];
    }

    method SocketOpened()
      modifies this
      ensures View() == SocketOpenedSpec(old(View()))
    {
      socket := Open;
    }

    method SocketClosed()
      modifies this
      ensures View() == SocketClosedSpec(old(View()))
    {
      if socket == Open {
        socket := Closed;
      }
    }

    method Reconnect()
      modifies this
      ensures View() == ReconnectSpec(old(View()))
    {
      if socket == Open {
        Disconnect();
      }
      if socketUrl.None? {
        return;
      }
      var host := socketUrl.value;
      if sessionId.Some? {
        isReconnecting := true;
      }
      Connect(host);
    }

    /** The body of the repeated heartbeat task. */
    method Tick()
      modifies this
      ensures View() == TickSpec(old(View()))
    {
      if socket != Open {
        return;
      }
      if ackMissed >= 2 {
        Reconnect();
        return;
      }
      ackMissed := ackMissed + 1;
      Heartbeat();
    }

    method HandleDispatch(payload: SinData, data: Bytes)
      modifies this
      ensures View() == DispatchSpec(old(View()), payload, data)
    {
      if payload.t.None? {
        return;
      }
      dispatched := dispatched + [Dispatch(payload.t.value, data)];
    }

    /** The hello branch of the opcode switch. */
    method HandleHello(d: Data, shardCount: int)
      modifies this
      ensures View() == HelloSpec(old(View()), config, shardCount, d)
    {
      if GetHello(d).None? {
        Disconnect();
        return;
      }
      if heartbeatTask == Running {
        orphanedTimers := orphanedTimers + 1;
      }
      heartbeatTask := if socket == NoSocket then NoTask else Running;
      if isReconnecting && sessionId.Some? && lastSequence.Some? {
        Send(ResumePayload(config, sessionId.value, lastSequence.value));
      } else {
        Identify(shardCount);
      }
    }

    method HandlePayload(payload: SinData, d: Data, data: Bytes, shardCount: int)
      modifies this
      ensures View() == HandlePayloadSpec(old(View()), config, shardCount, payload, d, data)
    {
      match payload.op
      case Dispatch =>
        lastSequence := payload.s;
        HandleDispatch(payload, data);
      case Heartbeat =>
        ackMissed := ackMissed - 1;
      case InvalidSession =>
        var canResume := GetBool(d);
        if canResume.Some? {
          sessionId := if canResume.value then sessionId else None;
          Reconnect();
        }
      case Hello =>
        HandleHello(d, shardCount);
      case Reconnect =>
        sessionId := None;
        Reconnect();
      case HeartbeatAck =>
        ackMissed := ackMissed - 1;
      case _ =>
    }

    method HandleText(text: Bytes, parse: Bytes -> Option<RawPayload>, shardCount: int)
      modifies this
      ensures View() == HandleTextSpec(old(View()), config, shardCount, text, parse)
    {
      var raw := parse(text);
      if raw.None? {
        return;
      }
      var payload := DecodeSinData(raw.value);
      if payload.None? {
        return;
      }
      HandlePayload(payload.value, raw.value.d, text, shardCount);
    }

    /**
     * `handle(_ data:)`; `steps` are zlib's answers to the inflate calls and
     * `parse` is the JSON decoder.
     */
    method HandleBinary(data: Bytes, steps: seq<InflateStep>, parse: Bytes -> Option<RawPayload>, shardCount: int)
      modifies this
      ensures View() == HandleBinarySpec(old(View()), config, shardCount, data, steps, parse)
    {
      buffer := buffer + data;
      if !IsBufferComplete(buffer) {
        return;
      }
      var end := InflateFrame(buffer, steps);
      if end.OutOfSteps? {
        return;
      }
      var text := end.output;
      if !IsUtf8(text) {
        return;
      }
      if text != [] {
        buffer := [];
      }
      HandleText(text, parse, shardCount);
    }
  }
}
