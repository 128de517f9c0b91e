/** Gateway/GatewayCodes.swift: the gateway opcodes and the close codes Discord sends. */
module GatewayCodes {
  import opened Wrappers

  /** `OPCode`, a `UInt8` raw-valued enum; 5 is unassigned. */
  datatype OPCode =
    | Dispatch
    | Heartbeat
    | Identify
    | StatusUpdate
    | VoiceStateUpdate
    | Resume
    | Reconnect
    | RequestGuildMembers
    | InvalidSession
    | Hello
    | HeartbeatAck

  function OPCodeRaw(op: OPCode): (r: nat)
    ensures r <= 11 && r != 5
  {
    match op
    case Dispatch => 0
    case Heartbeat => 1
    case Identify => 2
    case StatusUpdate => 3
    case VoiceStateUpdate => 4
    case Resume => 6
    case Reconnect => 7
    case RequestGuildMembers => 8
    case InvalidSession => 9
    case Hello => 10
    case HeartbeatAck => 11
  }

  /** `OPCode(rawValue:)`: the case with that raw value, if any. */
  function OPCodeFromRaw(n: int): (r: Option<OPCode>)
    ensures r.Some? ==> OPCodeRaw(r.value) == n
    ensures r.None? <==> (n < 0 || n > 11 || n == 5)
  {
    if n == 0 then Some(Dispatch)
    else if n == 1 then Some(Heartbeat)
    else if n == 2 then Some(Identify)
    else if n == 3 then Some(StatusUpdate)
    else if n == 4 then Some(VoiceStateUpdate)
    else if n == 6 then Some(Resume)
    else if n == 7 then Some(Reconnect)
    else if n == 8 then Some(RequestGuildMembers)
    else if n == 9 then Some(InvalidSession)
    else if n == 10 then Some(Hello)
    else if n == 11 then Some(HeartbeatAck)
    else None
  }

  /** Every opcode is decoded back from its raw value, so raw values are distinct. */
  lemma {:induction false} OPCodeRoundTrip(op: OPCode)
    ensures OPCodeFromRaw(OPCodeRaw(op)) == Some(op)
    ensures forall other: OPCode :: OPCodeRaw(other) == OPCodeRaw(op) ==> other == op
  {
    forall other: OPCode | OPCodeRaw(other) == OPCodeRaw(op)
      ensures other == op
    {
      assert OPCodeFromRaw(OPCodeRaw(other)) == OPCodeFromRaw(OPCodeRaw(op));
    }
  }

  /** `GatewayErrorCode`, an `Int` raw-valued enum of close codes; 4006 is unassigned. */
  datatype GatewayErrorCode =
    | Unknown
    | UnknownOpCode
    | DecodeError
    | NotAuthenticated
    | AuthenticationFailed
    | AlreadyAuthenticated
    | InvalidSequence
    | RateLimited
    | SessionTimeout
    | InvalidShard
    | ShardingRequired

  function ErrorCodeRaw(code: GatewayErrorCode): (r: int)
    ensures 4000 <= r <= 4011 && r != 4006
  {
    match code
    case Unknown => 4000
    case UnknownOpCode => 4001
    case DecodeError => 4002
    case NotAuthenticated => 4003
    case AuthenticationFailed => 4004
    case AlreadyAuthenticated => 4005
    case InvalidSequence => 4007
    case RateLimited => 4008
    case SessionTimeout => 4009
    case InvalidShard => 4010
    case ShardingRequired => 4011
  }

  /** `GatewayErrorCode(rawValue:)`. */
  function ErrorCodeFromRaw(n: int): (r: Option<GatewayErrorCode>)
    ensures r.Some? ==> ErrorCodeRaw(r.value) == n
    ensures r.None? <==> (n < 4000 || n > 4011 || n == 4006)
  {
    if n == 4000 then Some(Unknown)
    else if n == 4001 then Some(UnknownOpCode)
    else if n == 4002 then Some(DecodeError)
    else if n == 4003 then Some(NotAuthenticated)
    else if n == 4004 then Some(AuthenticationFailed)
    else if n == 4005 then Some(AlreadyAuthenticated)
    else if n == 4007 then Some(InvalidSequence)
    else if n == 4008 then Some(RateLimited)
    else if n == 4009 then Some(SessionTimeout)
    else if n == 4010 then Some(InvalidShard)
    else if n == 4011 then Some(ShardingRequired)
    else None
  }

  lemma {:induction false} ErrorCodeRoundTrip(code: GatewayErrorCode)
    ensures ErrorCodeFromRaw(ErrorCodeRaw(code)) == Some(code)
    ensures forall other: GatewayErrorCode :: ErrorCodeRaw(other) == ErrorCodeRaw(code) ==> other == code
  {
    forall other: GatewayErrorCode | ErrorCodeRaw(other) == ErrorCodeRaw(code)
      ensures other == code
    {
      assert ErrorCodeFromRaw(ErrorCodeRaw(other)) == ErrorCodeFromRaw(ErrorCodeRaw(code));
    }
  }
}
