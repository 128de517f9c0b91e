/**
 * Types/Snowflake.swift: Discord's 64-bit identifiers. A snowflake packs the
 * milliseconds since the Discord epoch into its upper 42 bits, a worker id
 * into bits 17-21, a process id into bits 12-16 and an increment into bits
 * 0-11. The raw value is an unsigned 64-bit integer; the bit fields are read
 * through its `bv64` view.
 */
module Snowflakes {
  import opened Wrappers
  import opened Decimal
  import opened Commands

  type u64 = x: int | 0 <= x <= UInt64Max

  /** `Snowflake.epoch`: 2015-01-01T00:00:00Z in seconds since 1970. */
  const EpochSeconds: int := 1420070400

  datatype Snowflake = Snowflake(rawValue: u64)

  /*
   * The masks and shifts of the source on an unsigned value are written as
   * the equivalent divisions and remainders by powers of two:
   * `x & (2^k - 1)` is `x % 2^k` and `x >> k` is `x / 2^k`.
   */

  /** `increment`: bits 0-11 (`rawValue & 0xFFF`). */
  function Increment(f: Snowflake): (r: nat)
    ensures r < 0x1000
  {
    f.rawValue % 0x1000
  }

  /** `processId`: bits 12-16 (`(rawValue & 0x1F000) >> 12`). */
  function ProcessId(f: Snowflake): (r: nat)
    ensures r < 32
  {
    f.rawValue / 0x1000 % 32
  }

  /** `workerId`: bits 17-21 (`(rawValue & 0x3E0000) >> 17`). */
  function WorkerId(f: Snowflake): (r: nat)
    ensures r < 32
  {
    f.rawValue / 0x2_0000 % 32
  }

  /** The millisecond field: the upper 42 bits (`rawValue >> 22`). */
  function Milliseconds(f: Snowflake): (r: nat)
    ensures r < 0x400_0000_0000
  {
    f.rawValue / 0x40_0000
  }

  /**
   * `timestamp`, in whole seconds since 1970: the millisecond field divided
   * by 1000 in unsigned integer arithmetic (the fraction is dropped before
   * the conversion to `Double`), added to the epoch.
   */
  function TimestampSeconds(f: Snowflake): (r: int)
    ensures EpochSeconds <= r <= EpochSeconds + 0x400_0000_0000 / 1000
  {
    EpochSeconds + Milliseconds(f) / 1000
  }

  /**
   * `init()`: a fresh snowflake for `elapsedMs` milliseconds since the epoch
   * (the clock reading is a parameter). The millisecond count is shifted
   * left by 22 within 64 bits, dropping its upper 22 bits; worker id 16,
   * process id 1 and increment 128 are then set in the low 22 bits, which
   * the shift left clear, so each `|=` and the final `+= 128` add.
   */
  function New(elapsedMs: u64): (f: Snowflake) {
    var withTime := elapsedMs * 0x40_0000 % 0x1_0000_0000_0000_0000;
    var withWorker := withTime + 16 * 0x2_0000;
    var withProcess := withWorker + 1 * 0x1000;
    Snowflake(withProcess + 128)
  }

  lemma ShiftDropsHighBits(elapsedMs: u64)
    ensures elapsedMs * 0x40_0000 % 0x1_0000_0000_0000_0000 == elapsedMs % 0x400_0000_0000 * 0x40_0000
  {
    var q := elapsedMs % 0x400_0000_0000;
    assert elapsedMs * 0x40_0000 == 0x1_0000_0000_0000_0000 * (elapsedMs / 0x400_0000_0000) + q * 0x40_0000;
  }

  /** A fresh snowflake reads back the fields `init()` wrote and the clock reading modulo 2^42. */
  lemma NewFields(elapsedMs: u64)
    ensures Increment(New(elapsedMs)) == 128
    ensures ProcessId(New(elapsedMs)) == 1
    ensures WorkerId(New(elapsedMs)) == 16
    ensures Milliseconds(New(elapsedMs)) == elapsedMs % 0x400_0000_0000
    ensures TimestampSeconds(New(elapsedMs)) == EpochSeconds + elapsedMs % 0x400_0000_0000 / 1000
  {
    ShiftDropsHighBits(elapsedMs);
    var q := elapsedMs % 0x400_0000_0000;
    var raw := New(elapsedMs).rawValue;
    assert raw == q * 0x40_0000 + 0x20_1080;
    assert raw == 0x1000 * (q * 0x400 + 0x201) + 128;
    assert raw == 0x2_0000 * (q * 32 + 16) + 0x1080;
  }

  /** `description`: the decimal digits of the raw value. */
  function Description(f: Snowflake): (s: string)
    ensures Canonical(s)
  {
    NatToString(f.rawValue)
  }

  /** `init?(_ description:)`: the text read as `UInt64`, or nothing. */
  function Parse(s: string): (r: Option<Snowflake>)
    ensures r.Some? <==> ParseUInt64(s).Some?
    ensures r.Some? ==> r.value.rawValue == ParseUInt64(s).value
  {
    match ParseUInt64(s)
    case Some(v) => Some(Snowflake(v))
    case None => None
  }

  /** Every snowflake survives `description` followed by `init?(_:)`. */
  lemma ParseDescription(f: Snowflake)
    ensures Parse(Description(f)) == Some(f)
  {
    ParseIntToString(f.rawValue, 0, UInt64Max);
  }

  /** A canonical decimal string that parses renders back to itself. */
  lemma DescriptionOfParse(s: string)
    requires Canonical(s) && Parse(s).Some?
    ensures Description(Parse(s).value) == s
  {
    NatToStringOfDigitsValue(s);
  }

  /** Text carrying anything besides a sign and digits is refused. */
  lemma ParseRejectsNonDigits(s: string, i: int)
    requires 0 < i < |s| && !IsDigit(s[i])
    ensures Parse(s) == None
  {
    var signed := s[0] == '+' || s[0] == '-';
    var digits := if signed then s[1..] else s;
    var j := if signed then i - 1 else i;
    assert digits[j] == s[i];
  }

  /** `<`: by raw value. */
  predicate Less(a: Snowflake, b: Snowflake) {
    a.rawValue < b.rawValue
  }

  /** Reasons `Codable` gives up: a thrown decoding error or a runtime trap. */
  datatype CodingFailure = DecodingError | Trap

  /** A JSON value as the decoder sees it: a string, an integral number, or anything else. */
  datatype Json = JString(text: string) | JInteger(number: int) | JOther

  /** `encode(to:)`: `Int64(rawValue)`, which traps above `Int64.max`. */
  function Encode(f: Snowflake): (r: Result<Json, CodingFailure>)
    ensures r.Ok? <==> f.rawValue <= Int64Max
    ensures r.Err? ==> r.error == Trap
  {
    if f.rawValue <= Int64Max then Ok(JInteger(f.rawValue)) else Err(Trap)
  }

  /**
   * `init(from:)`: a string must parse (the force unwrap traps otherwise); a
   * number must fit `Int64` (decoding throws otherwise) and be non-negative
   * (the conversion to `UInt64` traps otherwise).
   */
  function Decode(j: Json): (r: Result<Snowflake, CodingFailure>)
    ensures j.JString? ==> (r.Ok? <==> Parse(j.text).Some?)
    ensures r.Ok? && j.JInteger? ==> r.value.rawValue == j.number
    ensures j.JOther? ==> r == Err(DecodingError)
  {
    match j
    case JString(text) =>
      (match Parse(text)
       case Some(f) => Ok(f)
       case None => Err(Trap))
    case JInteger(n) =>
      if n < Int64Min || n > Int64Max then Err(DecodingError)
      else if n < 0 then Err(Trap)
      else Ok(Snowflake(n))
    case JOther => Err(DecodingError)
  }

  /** Encoding then decoding is the identity wherever encoding does not trap. */
  lemma DecodeEncode(f: Snowflake)
    requires f.rawValue <= Int64Max
    ensures Decode(Encode(f).value) == Ok(f)
  {
  }

  /** A snowflake sent as its decimal string always decodes, over the whole 64-bit range. */
  lemma DecodeDescription(f: Snowflake)
    ensures Decode(JString(Description(f))) == Ok(f)
  {
    ParseDescription(f);
  }

  /** `resolveArgument`: the argument read as a snowflake, or `UnableToConvertArgument(argument, "Snowflake")`. */
  function ResolveArgument(argument: string): (r: Result<Snowflake, CommandError>)
    ensures r.Ok? <==> Parse(argument).Some?
    ensures r.Ok? ==> r.value == Parse(argument).value
    ensures r.Err? ==> r.error == UnableToConvertArgument(argument, "Snowflake")
  {
    match Parse(argument)
    case Some(f) => Ok(f)
    case None => Err(UnableToConvertArgument(argument, "Snowflake"))
  }
}
