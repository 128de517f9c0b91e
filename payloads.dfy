/**
 * The gateway payload envelopes a shard reads and writes (Gateway/Payload.swift
 * and Types/Gateway/GWPayloads.swift): the inbound header `GatewaySinData`
 * and the outbound `GatewayPayload` bodies for heartbeat, identify and resume.
 */
module Payloads {
  import opened Wrappers
  import opened GatewayCodes
  import opened DispatchCodes

  /**
   * The `d` field of an inbound payload, as far as the shard reads it:
   * `getData(Bool.self)` succeeds on a boolean and `getData(GatewayHello.self)`
   * on an object with an integral `heartbeat_interval` (and a `_trace` list).
   */
  datatype Data = BoolData(flag: bool) | HelloData(heartbeatInterval: int) | OtherData

  /**
   * The fields of an inbound JSON payload as the JSON decoder sees them
   * before the enum fields are checked: `op` as a number, `s` as an optional
   * integer, `t` as an optional string.
   */
  datatype RawPayload = RawPayload(op: int, s: Option<int>, t: Option<string>, d: Data)

  /** `GatewaySinData`: the header of an inbound payload. */
  datatype SinData = SinData(op: OPCode, s: Option<int>, t: Option<DiscordEvent>)

  /**
   * Decoding `GatewaySinData`: fails when `op` is not an `OPCode` raw value
   * or when a present `t` is not a `DiscordEvent` raw value.
   */
  function DecodeSinData(raw: RawPayload): (r: Option<SinData>)
    ensures r.Some? <==> OPCodeFromRaw(raw.op).Some? && (raw.t.Some? ==> FromRaw(raw.t.value).Some?)
    ensures r.Some? ==> OPCodeRaw(r.value.op) == raw.op && r.value.s == raw.s
    ensures r.Some? ==> (r.value.t.Some? <==> raw.t.Some?)
    ensures r.Some? && r.value.t.Some? ==> Raw(r.value.t.value) == raw.t.value
  {
    match OPCodeFromRaw(raw.op)
    case None => None
    case Some(op) =>
      match raw.t
      case None => Some(SinData(op, raw.s, None))
      case Some(name) =>
        match FromRaw(name)
        case None => None
        case Some(event) => Some(SinData(op, raw.s, Some(event)))
  }

  /** `getData(Bool.self, from:)`. */
  function GetBool(d: Data): Option<bool> {
    if d.BoolData? then Some(d.flag) else None
  }

  /** `getData(GatewayHello.self, from:)`, reduced to its heartbeat interval. */
  function GetHello(d: Data): Option<int> {
    if d.HelloData? then Some(d.heartbeatInterval) else None
  }

  /** `IdentifyPayload.Properties`. */
  datatype Properties = Properties(os: string, browser: string, device: string)

  /** The bodies the shard sends. */
  datatype Body =
    | HeartbeatBody(lastSequence: Option<int>)
    | IdentifyBody(token: string, properties: Properties, shard: seq<int>)
    | ResumeBody(token: string, sessionId: string, sequence: int)

  /** `GatewayPayload<T>`: every payload the shard sends has `s` and `t` null. */
  datatype GatewayPayload = GatewayPayload(d: Body, op: OPCode, s: Option<int>, t: Option<string>)

  /** The opcode a body travels under. */
  function BodyOp(d: Body): OPCode {
    match d
    case HeartbeatBody(_) => Heartbeat
    case IdentifyBody(_, _, _) => Identify
    case ResumeBody(_, _, _) => Resume
  }

  /** A payload as the shard builds it: the body's opcode, no sequence, no event name. */
  predicate WellFormedOutbound(p: GatewayPayload) {
    p.op == BodyOp(p.d) && p.s.None? && p.t.None?
  }

  function Outbound(d: Body): (p: GatewayPayload)
    ensures WellFormedOutbound(p) && p.d == d
  {
    GatewayPayload(d, BodyOp(d), None, None)
  }
}
