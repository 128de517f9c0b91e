/**
 * The frame layer of Gateway/Shard.swift `handle(_ data:)`: binary WebSocket
 * messages accumulate in a buffer until it ends with the DEFLATE sync-flush
 * marker, the buffer is inflated by zlib into a growing output buffer, and
 * the output is read as UTF-8 text.
 *
 * zlib is a foreign C library. Each `inflate(&stream, Z_SYNC_FLUSH)` call is
 * described by an `InflateStep`: the status it returns, the input it leaves
 * unconsumed and the bytes it makes available. A loop is run against a finite
 * script of such steps; running out of script is an outcome of its own, so no
 * claim about termination of a real zlib session is made beyond the lemmas.
 */
module Frames {
  import opened Memory

  /**
   * `ZlibSuffix`: the four bytes 00 00 FF FF that end the empty stored block
   * a sync flush emits (section 3.2.4 of RFC 1951: LEN = 0 and NLEN = its
   * one's complement), inside the zlib stream of RFC 1950.
   */
  const ZlibSuffix: Bytes := [0x00, 0x00, 0xFF, 0xFF]

  /** `isBufferComplete`: at least four bytes, the last four being the marker. */
  predicate IsBufferComplete(buffer: Bytes) {
    |buffer| >= 4 && buffer[|buffer| - 4..] == ZlibSuffix
  }

  /** A buffer is complete exactly when it is some byte string followed by the marker. */
  lemma CompleteIffEndsWithMarker(buffer: Bytes)
    ensures IsBufferComplete(buffer) <==> exists prefix: Bytes :: buffer == prefix + ZlibSuffix
  {
    if IsBufferComplete(buffer) {
      var prefix := buffer[..|buffer| - 4];
      assert buffer == prefix + ZlibSuffix;
    }
    if prefix: Bytes :| buffer == prefix + ZlibSuffix {
      assert buffer[|buffer| - 4..] == ZlibSuffix;
    }
  }

  /** Appending bytes that end with the marker always completes the buffer; fewer than four bytes never do. */
  lemma AppendMarkerCompletes(buffer: Bytes, data: Bytes)
    ensures IsBufferComplete(buffer + data + ZlibSuffix)
    ensures |buffer| < 4 ==> !IsBufferComplete(buffer)
  {
    var whole := buffer + data + ZlibSuffix;
    assert whole[|whole| - 4..] == ZlibSuffix;
  }

  // zlib's return codes used by the loop.
  const ZOk: int := 0
  const ZStreamEnd: int := 1
  const ZBufError: int := -5

  /** What one `inflate` call reports: its status, `avail_in` afterwards, and the bytes it has ready. */
  datatype InflateStep = InflateStep(status: int, availIn: nat, produced: Bytes)

  function Min(a: int, b: int): int {
    if a <= b then a else b
  }

  /** zlib writes no more than `avail_out` bytes of what it has ready. */
  function Written(step: InflateStep, availOut: nat): (w: Bytes)
    ensures |w| <= availOut && |w| <= |step.produced|
    ensures w == step.produced[..|w|]
    ensures |step.produced| <= availOut ==> w == step.produced
  {
    step.produced[..Min(|step.produced|, availOut)]
  }

  /** The output capacity is twice the length of the deflated buffer. */
  function InitialCapacity(deflated: Bytes): nat {
    2 * |deflated|
  }

  /** `realloc(size: count + min(count * 2, maxBuff))`. */
  function Grow(capacity: nat): (r: nat)
    ensures capacity <= r <= capacity + MaxBuff
    ensures capacity > 0 ==> capacity < r
  {
    capacity + Min(capacity * 2, MaxBuff)
  }

  /** How a loop over a script ends: it left the loop, or it wanted another call. */
  datatype LoopEnd =
    | Exited(status: int, output: Bytes)
    | OutOfSteps(capacity: nat, output: Bytes)

  /**
   * The loop of `handle(_ data:)` as written: it grows the output buffer
   * when a call returns Z_BUF_ERROR with no input left, leaves the loop on
   * any other status but Z_OK, and calls `inflate` again after Z_OK.
   */
  function AsWrittenLoop(steps: seq<InflateStep>, capacity: nat, output: Bytes): (r: LoopEnd)
    requires |output| <= capacity
    ensures |output| <= |r.output| && r.output[..|output|] == output
    ensures r.Exited? ==> r.status != ZOk
    decreases |steps|
  {
    if steps == [] then OutOfSteps(capacity, output)
    else
      var step := steps[0];
      var out := output + Written(step, capacity - |output|);
      if step.status == ZBufError && step.availIn == 0 then AsWrittenLoop(steps[1..], Grow(capacity), out)
      else if step.status != ZOk then Exited(step.status, out)
      else AsWrittenLoop(steps[1..], capacity, out)
  }

  /** zlib's answer to a call with no input left and nothing pending: no progress is possible. */
  predicate NoProgress(step: InflateStep) {
    step == InflateStep(ZBufError, 0, [])
  }

  /** `Grow` applied `n` times. */
  function GrowTimes(capacity: nat, n: nat): nat
    decreases n
  {
    if n == 0 then capacity else GrowTimes(Grow(capacity), n - 1)
  }

  /**
   * Once every byte has been inflated, each further call makes no progress,
   * and the as-written loop answers each of those by growing the buffer and
   * calling again: whatever number of calls zlib is asked, the loop never
   * leaves, and the output buffer keeps growing.
   */
  lemma {:induction false} AsWrittenNeverLeavesWithoutInput(steps: seq<InflateStep>, capacity: nat, output: Bytes)
    requires |output| <= capacity
    requires forall i | 0 <= i < |steps| :: NoProgress(steps[i])
    ensures AsWrittenLoop(steps, capacity, output) == OutOfSteps(GrowTimes(capacity, |steps|), output)
    decreases |steps|
  {
    if steps != [] {
      assert NoProgress(steps[0]);
      assert Written(steps[0], capacity - |output|) == [];
      assert output + [] == output;
      AsWrittenNeverLeavesWithoutInput(steps[1..], Grow(capacity), output);
    }
  }

  /**
   * A frame whose text fits the initial buffer: the first call inflates it
   * all (Z_OK, no input left), then zlib reports no progress, forever. The
   * as-written loop never leaves, however many calls follow.
   */
  lemma AsWrittenHangsOnSmallFrame(text: Bytes, capacity: nat, calls: nat)
    requires |text| < capacity
    ensures var steps := [InflateStep(ZOk, 0, text)] + seq(calls, _ => InflateStep(ZBufError, 0, []));
      AsWrittenLoop(steps, capacity, []).OutOfSteps?
  {
    var rest := seq(calls, _ => InflateStep(ZBufError, 0, []));
    var steps := [InflateStep(ZOk, 0, text)] + rest;
    assert steps[1..] == rest;
    assert [] + text == text;
    AsWrittenNeverLeavesWithoutInput(rest, capacity, text);
  }

  /**
   * A frame whose text overflows the buffer: the first call fills it with
   * input left (Z_OK), the next cannot progress with no room (Z_BUF_ERROR,
   * input left), and the as-written loop leaves with the text truncated.
   */
  lemma AsWrittenTruncatesLargeFrame(first: Bytes, rest: Bytes)
    requires |first| >= 1 && |rest| >= 1
    ensures var steps := [InflateStep(ZOk, 1, first), InflateStep(ZBufError, 1, []), InflateStep(ZOk, 0, rest)];
      AsWrittenLoop(steps, |first|, []) == Exited(ZBufError, first)
  {
    var steps := [InflateStep(ZOk, 1, first), InflateStep(ZBufError, 1, []), InflateStep(ZOk, 0, rest)];
    assert [] + first == first;
    assert steps[1..][1..] == [InflateStep(ZOk, 0, rest)];
    assert first + [] == first;
  }

  /**
   * The loop as zlib's documentation prescribes for Z_SYNC_FLUSH: call
   * `inflate` while it fills the whole output buffer, growing the buffer by
   * the same rule each time; leave once it returns with room to spare (all
   * input consumed and flushed), or on any status other than Z_OK and
   * Z_BUF_ERROR.
   */
  function SyncFlushLoop(steps: seq<InflateStep>, capacity: nat, output: Bytes): (r: LoopEnd)
    requires |output| <= capacity
    ensures r.Exited? ==> |output| <= |r.output|
    ensures r.Exited? ==> r.output[..|output|] == output
    decreases |steps|
  {
    if steps == [] then OutOfSteps(capacity, output)
    else
      var step := steps[0];
      var out := output + Written(step, capacity - |output|);
      if step.status != ZOk && step.status != ZBufError then Exited(step.status, out)
      else if |out| == capacity then SyncFlushLoop(steps[1..], Grow(capacity), out)
      else Exited(step.status, out)
  }

  /** The concatenation of what a script's steps have ready. */
  function Flatten(steps: seq<InflateStep>): Bytes {
    if steps == [] then [] else steps[0].produced + Flatten(steps[1..])
  }

  /**
   * On the small frame that hangs the as-written loop, the corrected loop
   * leaves after the first call with the whole text.
   */
  lemma SyncFlushFinishesSmallFrame(text: Bytes, capacity: nat, calls: nat)
    requires |text| < capacity
    ensures var steps := [InflateStep(ZOk, 0, text)] + seq(calls, _ => InflateStep(ZBufError, 0, []));
      SyncFlushLoop(steps, capacity, []) == Exited(ZOk, text)
  {
    assert [] + text == text;
  }

  /**
   * When every call's bytes fit the room it is given (as zlib guarantees),
   * the corrected loop loses nothing: it leaves with all bytes of the calls
   * it made, in order, and makes at least one call.
   */
  lemma {:induction false} SyncFlushKeepsEveryByte(steps: seq<InflateStep>, capacity: nat, output: Bytes)
    requires |output| <= capacity
    requires SyncFlushLoop(steps, capacity, output).Exited?
    requires FitsAlong(steps, capacity, output)
    ensures exists k :: 1 <= k <= |steps| && SyncFlushLoop(steps, capacity, output).output == output + Flatten(steps[..k])
    decreases |steps|
  {
    var step := steps[0];
    var out := output + step.produced;
    assert Written(step, capacity - |output|) == step.produced;
    assert steps[..1] == [step] && Flatten(steps[..1]) == step.produced + Flatten([]);
    if step.status == ZOk || step.status == ZBufError {
      if |out| == capacity {
        SyncFlushKeepsEveryByte(steps[1..], Grow(capacity), out);
        var k :| 1 <= k <= |steps[1..]| && SyncFlushLoop(steps[1..], Grow(capacity), out).output == out + Flatten(steps[1..][..k]);
        assert steps[..k + 1] == [step] + steps[1..][..k];
        assert steps[..k + 1][1..] == steps[1..][..k];
        assert output + Flatten(steps[..k + 1]) == out + Flatten(steps[1..][..k]);
      }
    }
  }

  /** Every call the loop makes is given room for all the bytes it has ready. */
  predicate FitsAlong(steps: seq<InflateStep>, capacity: nat, output: Bytes)
    requires |output| <= capacity
    decreases |steps|
  {
    steps != [] ==>
      var step := steps[0];
      |step.produced| <= capacity - |output| &&
      (|output| + |step.produced| == capacity ==> FitsAlong(steps[1..], Grow(capacity), output + step.produced))
  }

  /** Copies `src` into `buffer` from index `start` on, as zlib writes at `next_out`. */
  method WriteAt(buffer: array<byte>, start: nat, src: Bytes)
    requires start + |src| <= buffer.Length
    modifies buffer
    ensures buffer[..start + |src|] == old(buffer[..start]) + src
  {
    for j := 0 to |src|
      invariant buffer[..start] == old(buffer[..start])
      invariant buffer[start..start + j] == src[..j]
    {
      buffer[start + j] := src[j];
      assert buffer[start..start + j + 1] == buffer[start..start + j] + [src[j]];
    }
    assert buffer[..start + |src|] == buffer[..start] + buffer[start..start + |src|];
  }

  /**
   * The corrected loop over an array, as `handle(_ data:)` runs it: the
   * output buffer starts at twice the deflated length and is grown with
   * `Realloc`, whose prefix guarantee keeps the bytes already written.
   */
  method InflateFrame(deflated: Bytes, steps: seq<InflateStep>) returns (end: LoopEnd)
    ensures end == SyncFlushLoop(steps, InitialCapacity(deflated), [])
  {
    var inflated := new byte[InitialCapacity(deflated)];
    var totalOut: nat := 0;
    var i := 0;
    while i < |steps|
      invariant fresh(inflated)
      invariant 0 <= i <= |steps|
      invariant totalOut <= inflated.Length
      invariant SyncFlushLoop(steps[i..], inflated.Length, inflated[..totalOut]) == SyncFlushLoop(steps, InitialCapacity(deflated), [])
      decreases |steps| - i
    {
      var step := steps[i];
      var written := Written(step, inflated.Length - totalOut);
      ghost var before := inflated[..totalOut];
      ghost var capacity := inflated.Length;
      WriteAt(inflated, totalOut, written);
      totalOut := totalOut + |written|;
      assert steps[i..][1..] == steps[i + 1..];
      assert inflated[..totalOut] == before + written;
      if step.status != ZOk && step.status != ZBufError {
        return Exited(step.status, inflated[..totalOut]);
      } else if totalOut == inflated.Length {
        ghost var full := inflated[..totalOut];
        assert SyncFlushLoop(steps[i..], capacity, before) == SyncFlushLoop(steps[i + 1..], Grow(capacity), full);
        inflated := Realloc(inflated, Grow(inflated.Length));
        assert inflated[..totalOut] == full;
      } else {
        return Exited(step.status, inflated[..totalOut]);
      }
      i := i + 1;
    }
    return OutOfSteps(inflated.Length, inflated[..totalOut]);
  }

  // UTF-8 well-formedness, following the byte-sequence grammar of section 4 of RFC 3629.

  predicate InRange(b: byte, lo: byte, hi: byte) {
    lo <= b <= hi
  }

  predicate IsTail(b: byte) {
    InRange(b, 0x80, 0xBF)
  }

  /** The length of the encoded character starting at `s[0]`, or 0 when no well-formed character starts there. */
  function CharLength(s: Bytes): (n: nat)
    requires |s| >= 1
    ensures n <= 4 && (n > 0 ==> n <= |s|)
  {
    var b := s[0];
    if b <= 0x7F then 1
    else if InRange(b, 0xC2, 0xDF) && |s| >= 2 && IsTail(s[1]) then 2
    else if |s| >= 3 && IsTail(s[2]) &&
      ((b == 0xE0 && InRange(s[1], 0xA0, 0xBF)) ||
       (InRange(b, 0xE1, 0xEC) && IsTail(s[1])) ||
       (b == 0xED && InRange(s[1], 0x80, 0x9F)) ||
       (InRange(b, 0xEE, 0xEF) && IsTail(s[1]))) then 3
    else if |s| >= 4 && IsTail(s[2]) && IsTail(s[3]) &&
      ((b == 0xF0 && InRange(s[1], 0x90, 0xBF)) ||
       (InRange(b, 0xF1, 0xF3) && IsTail(s[1])) ||
       (b == 0xF4 && InRange(s[1], 0x80, 0x8F))) then 4
    else 0
  }

  /** The bytes are a sequence of well-formed UTF-8 characters: `String(bytes:encoding: .utf8)` succeeds. */
  predicate IsUtf8(s: Bytes)
    decreases |s|
  {
    s == [] || (CharLength(s) > 0 && IsUtf8(s[CharLength(s)..]))
  }

  /** Well-formed texts concatenate to a well-formed text. */
  lemma {:induction false} Utf8Concat(a: Bytes, b: Bytes)
    requires IsUtf8(a) && IsUtf8(b)
    ensures IsUtf8(a + b)
    decreases |a|
  {
    if a != [] {
      var n := CharLength(a);
      var c := a + b;
      assert c[..|a|] == a;
      CharLengthPrefix(a, c);
      assert c[n..] == a[n..] + b;
      Utf8Concat(a[n..], b);
      assert CharLength(c) == n;
      assert IsUtf8(c[n..]);
      assert c != [] && CharLength(c) > 0;
      assert IsUtf8(c[CharLength(c)..]);
    } else {
      assert a + b == b;
    }
  }

  lemma CharLengthPrefix(a: Bytes, c: Bytes)
    requires |a| >= 1 && CharLength(a) > 0 && |a| <= |c| && c[..|a|] == a
    ensures CharLength(c) == CharLength(a)
  {
    assert c[0] == a[0];
    if |a| >= 2 { assert c[1] == a[1]; }
    if |a| >= 3 { assert c[2] == a[2]; }
    if |a| >= 4 { assert c[3] == a[3]; }
  }

  /** ASCII bytes are well-formed UTF-8. */
  lemma {:induction false} AsciiIsUtf8(s: Bytes)
    requires forall i | 0 <= i < |s| :: s[i] <= 0x7F
    ensures IsUtf8(s)
    decreases |s|
  {
    if s != [] {
      AsciiIsUtf8(s[1..]);
    }
  }

  /** A lone continuation byte, or a truncated lead byte, is not text. */
  lemma MalformedIsNotUtf8(b: byte)
    requires IsTail(b) || InRange(b, 0xC2, 0xF4)
    ensures !IsUtf8([b])
  {
  }
}
