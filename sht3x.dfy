/*
 * SHT3x humidity and temperature driver.
 *
 * One chip answers both measures; the driver is instantiated twice (one
 * instance per measure) and both instances share a static cache holding the
 * last temperature and humidity words with the time they were read, so that
 * one bus transfer serves both. Bus transfers are an oracle: each acquisition
 * attempt consumes the next response (the bytes the chip answered) from a
 * sequence; a missing response reads as no bytes at all. Every command written
 * to the bus is reported in a log so that the contracts can say which
 * commands were sent.
 */
module Sht3x {
  import opened Sht3xCrc
  import opened Sequences

  /** `unsigned long` (millis() and the cache time stamp) is 32 bits wide on the target boards. */
  const ULONG_MODULUS: int := 0x1_0000_0000
  const ULONG_MAX: int := ULONG_MODULUS - 1
  type ulong = x: int | 0 <= x < 0x1_0000_0000
  type uint8 = x: int | 0 <= x < 0x100

  // Each retry loop of the driver (`_readSensor`, `_check_identity`, `getRH`, `getTemp`)
  // makes at most three attempts; the count is written as the literal 3 throughout.

  /** The two addresses an SHT3x can answer on. */
  const I2C_ADDRS: seq<uint8> := [0x44, 0x45]

  const TEMPERATURE_UNITS: string := "celsius"
  const HUMIDITY_UNITS: string := "%r.H."

  datatype Option<T> = None | Some(value: T)

  /** What an instance reports. */
  datatype MeasureType = Temperature | Humidity

  /** `sht3xResolution_t`; any other value is an unknown resolution. */
  datatype Resolution = HighRes | MediumRes | LowRes | UnknownResolution(code: int)

  /** The commands the driver writes to the chip (their 16-bit codes live in SHT3x.h). */
  datatype Command = MeasureHighRes | MeasureMediumRes | MeasureLowRes | SoftReset | GetStatus

  /**
   * The constants of SHT3x.h and neocampus_i2c.h that this file uses; those
   * headers are not part of this model, so their values are parameters.
   */
  datatype Header = Header(
    cacheMs: nat,                 // SHT3X_SENSOR_CACHE_MS
    msHigh: nat,                  // sht3xIntegration_t::ms_integrate_high
    msMedium: nat,                // sht3xIntegration_t::ms_integrate_medium
    msLow: nat,                   // sht3xIntegration_t::ms_integrate_low
    integrationCte: nat,          // SHT3X_INTEGRATION_TIME_CTE
    statusMask: bv16,             // SHT3X_STATUS_REG_MASK
    statusDefault: bv16,          // SHT3X_STATUS_REG_DEFL
    defaultResolution: Resolution,// SHT3X_DEFL_RESOLUTION
    addrStart: uint8,             // I2C_ADDR_START
    addrStop: uint8               // I2C_ADDR_STOP
  )

  // ---------------------------------------------------------------------------
  // Pure part: address filter, units, words, frames, conversions

  /** The address filter of `is_device`: is `a` one of the chip's addresses? */
  predicate IsListedAddress(a: uint8)
    ensures IsListedAddress(a) <==> a == 0x44 || a == 0x45
  {
    a in I2C_ADDRS
  }

  /** `sensorUnits`: the units string of the instance's measure. */
  function SensorUnits(kind: MeasureType): (u: string)
    ensures |u| > 0
    ensures u == TEMPERATURE_UNITS <==> kind == Temperature
  {
    match kind
    case Temperature => TEMPERATURE_UNITS
    case Humidity => HUMIDITY_UNITS
  }

  /** A big-endian 16-bit word: `hi << 8 | lo`. */
  function Word(hi: bv8, lo: bv8): bv16 {
    ((hi as bv16) << 8) | (lo as bv16)
  }

  function HighByte(w: bv16): bv8 {
    (w >> 8) as bv8
  }

  function LowByte(w: bv16): bv8 {
    (w & 0xFF) as bv8
  }

  lemma WordBytes(w: bv16)
    ensures Word(HighByte(w), LowByte(w)) == w
  {
  }

  lemma BytesOfWord(hi: bv8, lo: bv8)
    ensures HighByte(Word(hi, lo)) == hi && LowByte(Word(hi, lo)) == lo
  {
  }

  /** The two words of a measurement frame. */
  datatype Words = Words(t: bv16, rh: bv16)

  /**
   * The check and decode of a 6-byte measurement answer
   * MSB[T] LSB[T] CRC[T] MSB[RH] LSB[RH] CRC[RH]: at least six bytes must have
   * arrived and both checksums must match.
   */
  function DecodeFrame(buf: seq<bv8>): Option<Words> {
    if |buf| < 6 || Crc8(buf[0..2]) != buf[2] || Crc8(buf[3..5]) != buf[5] then None
    else Some(Words(Word(buf[0], buf[1]), Word(buf[3], buf[4])))
  }

  /** A word followed by its checksum, as the chip sends it. */
  function EncodeWord(w: bv16): seq<bv8> {
    [HighByte(w), LowByte(w), Crc8([HighByte(w), LowByte(w)])]
  }

  /** The frame the chip sends for a temperature and a humidity word. */
  function EncodeFrame(ws: Words): seq<bv8> {
    EncodeWord(ws.t) + EncodeWord(ws.rh)
  }

  /** Every frame the chip can send decodes to the words it carries. */
  lemma DecodeEncodedFrame(ws: Words)
    ensures DecodeFrame(EncodeFrame(ws)) == Some(ws)
  {
    var f := EncodeFrame(ws);
    assert f[0..2] == [HighByte(ws.t), LowByte(ws.t)];
    assert f[3..5] == [HighByte(ws.rh), LowByte(ws.rh)];
    WordBytes(ws.t);
    WordBytes(ws.rh);
  }

  /** Conversely, a frame is accepted only when its first six bytes are exactly the encoding of what it decodes to. */
  lemma DecodedFrameIsEncoding(buf: seq<bv8>)
    requires DecodeFrame(buf).Some?
    ensures |buf| >= 6 && buf[..6] == EncodeFrame(DecodeFrame(buf).value)
  {
    var ws := DecodeFrame(buf).value;
    BytesOfWord(buf[0], buf[1]);
    BytesOfWord(buf[3], buf[4]);
    assert buf[0..2] == [buf[0], buf[1]];
    assert buf[3..5] == [buf[3], buf[4]];
  }

  /** A raw sample word, widened to an integer as `getRH`/`getTemp` do before converting. */
  type uint16 = x: int | 0 <= x < 0x1_0000

  /** `getRH`: `(625 * v) >> 12` in unsigned 32-bit arithmetic, in hundredths of %RH. */
  function HumidityCenti(v: uint16): (r: int)
    ensures 0 <= r <= 9999
  {
    ((625 * v) % 0x1_0000_0000) / 4096
  }

  /** `getTemp`: `((4375 * v) >> 14) - 4500` in signed 32-bit arithmetic, in hundredths of a degree Celsius. */
  function TemperatureCenti(v: uint16): (r: int)
    ensures -4500 <= r <= 12999
  {
    (4375 * v) / 16384 - 4500
  }

  /** Neither product leaves its machine word, so the conversions never wrap. */
  lemma ConversionsDoNotOverflow(v: uint16)
    ensures 625 * v < 0x1_0000_0000
    ensures 4375 * v < 0x8000_0000
    ensures HumidityCenti(v) == (625 * v) / 4096
  {
  }

  lemma HumidityIsMonotonic(v: uint16, w: uint16)
    requires v <= w
    ensures HumidityCenti(v) <= HumidityCenti(w)
  {
    ConversionsDoNotOverflow(v);
    ConversionsDoNotOverflow(w);
  }

  lemma TemperatureIsMonotonic(v: uint16, w: uint16)
    requires v <= w
    ensures TemperatureCenti(v) <= TemperatureCenti(w)
  {
  }

  /**
   * The driver divides by 65536 where the datasheet divides by 65535
   * (RH = 100 * S / (2^16 - 1)); the integer results differ by at most one
   * hundredth of a percent, and never exceed the datasheet value.
   */
  lemma HumidityNearDatasheet(v: uint16)
    ensures HumidityCenti(v) <= (10000 * v) / 65535 <= HumidityCenti(v) + 1
  {
    ConversionsDoNotOverflow(v);
    assert (625 * v) / 4096 == (10000 * v) / 65536;
    NearQuotients(10000 * v, 10000);
  }

  /** The same comparison for T = -45 + 175 * S / (2^16 - 1), in hundredths of a degree. */
  lemma TemperatureNearDatasheet(v: uint16)
    ensures TemperatureCenti(v) <= (17500 * v) / 65535 - 4500 <= TemperatureCenti(v) + 1
  {
    assert (4375 * v) / 16384 == (17500 * v) / 65536;
    NearQuotients(17500 * v, 17500);
  }

  /** For `x = c * s` with `s` a 16-bit sample and `c` below 65535, x / 65536 and x / 65535 differ by at most one. */
  lemma NearQuotients(x: int, c: int)
    requires 0 <= c < 65535
    requires 0 <= x <= c * 65535
    ensures x / 65536 <= x / 65535 <= x / 65536 + 1
  {
    var q := x / 65536;
    assert q <= 65534 by {
      assert x < 65535 * 65536;
    }
    assert x < 65536 * (q + 1);
    assert 65536 * (q + 1) <= 65535 * (q + 2);
    assert x / 65535 <= q + 1 by {
      DivBelow(x, 65535, q + 2);
    }
    assert q <= x / 65535 by {
      assert 65535 * q <= 65536 * q <= x;
    }
  }

  lemma DivBelow(x: int, d: int, k: int)
    requires 0 <= x < d * k && 0 < d
    ensures x / d < k
  {
  }

  // ---------------------------------------------------------------------------
  // Acquisition with bounded retry

  /** The bytes answered to the k-th transfer; a transfer the oracle does not cover answers nothing. */
  function Response(responses: seq<seq<bv8>>, k: nat): seq<bv8> {
    if k < |responses| then responses[k] else []
  }

  /** The responses left after the first `k` transfers. */
  function Skip(responses: seq<seq<bv8>>, k: nat): seq<seq<bv8>> {
    if k <= |responses| then responses[k..] else []
  }

  /** The measurement command `_readSensor` selects: high and medium by name, anything else low. */
  function MeasureCommand(res: Resolution): Command {
    match res
    case HighRes => MeasureHighRes
    case MediumRes => MeasureMediumRes
    case _ => MeasureLowRes
  }

  /** The outcome of a run of acquisition attempts: the words (if a frame was accepted), how many attempts ran and the commands written. */
  datatype Acquisition = Acquisition(words: Option<Words>, attempts: nat, cmds: seq<Command>)

  /**
   * The answers to the three attempts of a retry loop, in order: attempt k
   * reads the k-th response.
   */
  function RetryWindow(responses: seq<seq<bv8>>): (w: seq<seq<bv8>>)
    ensures |w| == 3
    ensures forall k :: 0 <= k < 3 ==> w[k] == Response(responses, k)
  {
    [Response(responses, 0), Response(responses, 1), Response(responses, 2)]
  }

  /**
   * The retry loop of `_readSensor` over the answers of the attempts left:
   * a short answer triggers a soft reset, a bad checksum a plain retry, an
   * accepted frame ends the loop.
   */
  function AcquireFrames(cmd: Command, answers: seq<seq<bv8>>): (r: Acquisition)
    ensures r.attempts <= |answers|
    ensures r.words.None? ==> r.attempts == |answers|
    decreases |answers|
  {
    if answers == [] then Acquisition(None, 0, [])
    else
      var buf := answers[0];
      if |buf| < 6 then
        var rest := AcquireFrames(cmd, answers[1..]);
        Acquisition(rest.words, rest.attempts + 1, [cmd, SoftReset] + rest.cmds)
      else
        match DecodeFrame(buf)
        case Some(ws) => Acquisition(Some(ws), 1, [cmd])
        case None =>
          var rest := AcquireFrames(cmd, answers[1..]);
          Acquisition(rest.words, rest.attempts + 1, [cmd] + rest.cmds)
  }

  /**
   * What `_readSensor` acquires when answer `d` is the first one that
   * decodes (six bytes, both checksums valid): its words, after `d + 1`
   * attempts, with no further attempt made.
   */
  lemma {:induction false} AcquiredFrom(cmd: Command, answers: seq<seq<bv8>>, d: nat)
    requires d < |answers| && DecodeFrame(answers[d]).Some?
    requires forall j :: 0 <= j < d ==> DecodeFrame(answers[j]).None?
    ensures var r := AcquireFrames(cmd, answers);
      r.words == DecodeFrame(answers[d]) && r.attempts == d + 1
    decreases d
  {
    if d > 0 {
      AcquiredFrom(cmd, answers[1..], d - 1);
    }
  }

  /** When no answer decodes, `_readSensor` uses every attempt and acquires nothing. */
  lemma {:induction false} AcquireExhausted(cmd: Command, answers: seq<seq<bv8>>)
    requires forall j :: 0 <= j < |answers| ==> DecodeFrame(answers[j]).None?
    ensures var r := AcquireFrames(cmd, answers);
      r.words.None? && r.attempts == |answers|
    decreases |answers|
  {
    if answers != [] {
      AcquireExhausted(cmd, answers[1..]);
    }
  }

  /**
   * Acquisition `a` followed, when it acquired nothing, by acquisition
   * `rest`: the attempts and the commands add up.
   */
  function Then(a: Acquisition, rest: Acquisition): Acquisition {
    if a.words.Some? then a
    else Acquisition(rest.words, a.attempts + rest.attempts, a.cmds + rest.cmds)
  }

  /** One attempt of the retry loop on answer `buf`: the commands it writes and the words it decodes. */
  function Attempt(cmd: Command, buf: seq<bv8>): Acquisition {
    Acquisition(DecodeFrame(buf), 1, if |buf| < 6 then [cmd, SoftReset] else [cmd])
  }

  lemma AcquireFramesStep(cmd: Command, answers: seq<seq<bv8>>)
    requires answers != []
    ensures AcquireFrames(cmd, answers) == Then(Attempt(cmd, answers[0]), AcquireFrames(cmd, answers[1..]))
  {
  }

  lemma ThenAssoc(x: Acquisition, y: Acquisition, z: Acquisition)
    ensures Then(x, Then(y, z)) == Then(Then(x, y), z)
  {
    AppendAssoc(x.cmds, y.cmds, z.cmds);
  }

  /**
   * A retry loop over the answers `u` then `v` is the loop over `u`
   * followed, when none of `u` decodes, by the loop over `v`.
   */
  lemma {:induction false} AcquireFramesAppend(cmd: Command, u: seq<seq<bv8>>, v: seq<seq<bv8>>)
    ensures AcquireFrames(cmd, u + v) == Then(AcquireFrames(cmd, u), AcquireFrames(cmd, v))
    decreases |u|
  {
    if u == [] {
      assert u + v == v;
      assert [] + AcquireFrames(cmd, v).cmds == AcquireFrames(cmd, v).cmds;
    } else {
      assert (u + v)[0] == u[0];
      assert (u + v)[1..] == u[1..] + v;
      AcquireFramesStep(cmd, u + v);
      AcquireFramesStep(cmd, u);
      AcquireFramesAppend(cmd, u[1..], v);
      ThenAssoc(Attempt(cmd, u[0]), AcquireFrames(cmd, u[1..]), AcquireFrames(cmd, v));
    }
  }

  /** The answers to the first `n` transfers, in order. */
  function Answers(responses: seq<seq<bv8>>, n: nat): (w: seq<seq<bv8>>)
    ensures |w| == n
    ensures forall k :: 0 <= k < n ==> w[k] == Response(responses, k)
  {
    seq(n, k requires 0 <= k < n => Response(responses, k))
  }

  /**
   * The `_readSensor` calls of `getRH`/`getTemp` on a stale cache, from call
   * `j` of three on: call j reads the answers left by the 3 * j attempts of
   * the calls before it (a failed call uses all three of its attempts), and
   * the first call that acquires a frame ends the run.
   */
  function ReadRetries(cmd: Command, responses: seq<seq<bv8>>, j: nat): Acquisition
    requires j <= 3
    decreases 3 - j
  {
    if j == 3 then Acquisition(None, 0, [])
    else Then(AcquireFrames(cmd, RetryWindow(Skip(responses, 3 * j))), ReadRetries(cmd, responses, j + 1))
  }

  lemma ResponseSkip(responses: seq<seq<bv8>>, m: nat, k: nat)
    ensures Response(Skip(responses, m), k) == Response(responses, m + k)
  {
  }

  /** The window of call `j` is the slice of the nine answers its attempts read. */
  lemma WindowIsSlice(responses: seq<seq<bv8>>, j: nat)
    requires j < 3
    ensures var all := Answers(responses, 9);
      all[3 * j..] == RetryWindow(Skip(responses, 3 * j)) + all[3 * (j + 1)..]
  {
    var all := Answers(responses, 9);
    var w := RetryWindow(Skip(responses, 3 * j));
    forall k | 0 <= k < 3
      ensures w[k] == all[3 * j + k]
    {
      ResponseSkip(responses, 3 * j, k);
    }
    assert w == all[3 * j..3 * j + 3];
  }

  /**
   * Three `_readSensor` calls of three attempts each behave as one retry
   * loop over the answers to nine transfers.
   */
  lemma {:induction false} ReadRetriesIsOneLoop(cmd: Command, responses: seq<seq<bv8>>, j: nat)
    requires j <= 3
    ensures ReadRetries(cmd, responses, j) == AcquireFrames(cmd, Answers(responses, 9)[3 * j..])
    decreases 3 - j, 1
  {
    if j == 3 {
      assert Answers(responses, 9)[9..] == [];
    } else {
      ReadRetriesCall(cmd, responses, j);
    }
  }

  /** Call `j` of `getRH`/`getTemp` is the loop over its slice of the nine answers, followed by the later calls. */
  lemma {:induction false} ReadRetriesCall(cmd: Command, responses: seq<seq<bv8>>, j: nat)
    requires j < 3
    ensures ReadRetries(cmd, responses, j) == AcquireFrames(cmd, Answers(responses, 9)[3 * j..])
    decreases 3 - j, 0
  {
    var all := Answers(responses, 9);
    WindowIsSlice(responses, j);
    ReadRetriesIsOneLoop(cmd, responses, j + 1);
    ReadRetriesUnfold(cmd, responses, j);
    LoopOverSlices(cmd, RetryWindow(Skip(responses, 3 * j)), all[3 * (j + 1)..], all[3 * j..],
      ReadRetries(cmd, responses, j), ReadRetries(cmd, responses, j + 1));
  }

  lemma ReadRetriesUnfold(cmd: Command, responses: seq<seq<bv8>>, j: nat)
    requires j < 3
    ensures ReadRetries(cmd, responses, j) ==
      Then(AcquireFrames(cmd, RetryWindow(Skip(responses, 3 * j))), ReadRetries(cmd, responses, j + 1))
  {
  }

  /** A loop over `w` followed by a loop over `rest` is the loop over `whole`, their concatenation. */
  lemma LoopOverSlices(cmd: Command, w: seq<seq<bv8>>, rest: seq<seq<bv8>>, whole: seq<seq<bv8>>, here: Acquisition, next: Acquisition)
    requires whole == w + rest
    requires next == AcquireFrames(cmd, rest)
    requires here == Then(AcquireFrames(cmd, w), next)
    ensures here == AcquireFrames(cmd, whole)
  {
    AcquireFramesAppend(cmd, w, rest);
  }

  /**
   * `getRH`/`getTemp` on a stale cache acquire the frame of the first of the
   * nine answers that decodes, after as many attempts as its position plus one.
   */
  lemma ReadRetriesDecidedBy(cmd: Command, responses: seq<seq<bv8>>, d: nat)
    requires d < 9 && DecodeFrame(Response(responses, d)).Some?
    requires forall k :: 0 <= k < d ==> DecodeFrame(Response(responses, k)).None?
    ensures var r := ReadRetries(cmd, responses, 0);
      r.words == DecodeFrame(Response(responses, d)) && r.attempts == d + 1
  {
    var all := Answers(responses, 9);
    ReadRetriesIsOneLoop(cmd, responses, 0);
    assert all[3 * 0..] == all;
    AcquiredFrom(cmd, all, d);
  }

  /** When none of the nine answers decodes, `getRH`/`getTemp` make nine attempts and fail. */
  lemma ReadRetriesExhausted(cmd: Command, responses: seq<seq<bv8>>)
    requires forall k :: 0 <= k < 9 ==> DecodeFrame(Response(responses, k)).None?
    ensures var r := ReadRetries(cmd, responses, 0);
      r.words.None? && r.attempts == 9
  {
    var all := Answers(responses, 9);
    ReadRetriesIsOneLoop(cmd, responses, 0);
    assert all[3 * 0..] == all;
    AcquireExhausted(cmd, all);
  }

  /**
   * Which of the three `_readSensor` calls of `getRH`/`getTemp` find the
   * cache fresh: call k reads the clock `nows[k]`, and a failed call leaves
   * the time stamp `last` as it was.
   */
  function Freshness(hdr: Header, nows: seq<ulong>, last: ulong): (inWindow: seq<bool>)
    requires |nows| == 3
    ensures |inWindow| == 3
  {
    [Elapsed(nows[0], last) < hdr.cacheMs, Elapsed(nows[1], last) < hdr.cacheMs, Elapsed(nows[2], last) < hdr.cacheMs]
  }

  /**
   * The outcome of the `_readSensor` calls of `getRH`/`getTemp`: what they
   * acquired or found cached, with the bus attempts and commands, and the
   * call that acquired a frame and stamped the cache, if any.
   */
  datatype ReadRun = ReadRun(acq: Acquisition, stampedBy: Option<nat>)

  /**
   * The `_readSensor` calls of `getRH`/`getTemp` from call `j` on. A call
   * that finds the cache fresh succeeds at once with the cached words; a
   * stale call runs its retry loop over the answers its three attempts read
   * (a failed call uses all three); the first call that succeeds ends the run.
   */
  function ReadCalls(loops: seq<Acquisition>, inWindow: seq<bool>, cached: Words, j: nat): (r: ReadRun)
    requires j <= 3 && RetryLoops(loops) && |inWindow| == 3
    ensures r.acq.attempts <= 3 * (3 - j)
    ensures r.stampedBy.Some? ==> j <= r.stampedBy.value < 3 && r.acq.words.Some?
    decreases 3 - j
  {
    if j == 3 then ReadRun(Acquisition(None, 0, []), None)
    else if inWindow[j] then ReadRun(Acquisition(Some(cached), 0, []), None)
    else if loops[j].words.Some? then ReadRun(loops[j], Some(j))
    else
      var rest := ReadCalls(loops, inWindow, cached, j + 1);
      ReadRun(Then(loops[j], rest.acq), rest.stampedBy)
  }

  /** Three outcomes of the retry loop: at most three attempts each, all three when nothing was acquired. */
  predicate RetryLoops(loops: seq<Acquisition>) {
    |loops| == 3 && forall k :: 0 <= k < 3 ==> loops[k].attempts <= 3 && (loops[k].words.None? ==> loops[k].attempts == 3)
  }

  /**
   * The retry loops the three calls run when they find the cache stale:
   * call k reads the answers to transfers 3k to 3k + 2.
   */
  function CallLoops(cmd: Command, responses: seq<seq<bv8>>): (loops: seq<Acquisition>)
    ensures RetryLoops(loops)
  {
    seq(3, k requires 0 <= k < 3 => AcquireFrames(cmd, RetryWindow(Skip(responses, 3 * k))))
  }

  /** Call `k` finds the cache fresh exactly when its clock reading lies inside the window. */
  lemma FreshnessAt(hdr: Header, nows: seq<ulong>, last: ulong, k: nat)
    requires |nows| == 3 && k < 3
    ensures Freshness(hdr, nows, last)[k] <==> Elapsed(nows[k], last) < hdr.cacheMs
  {
  }

  /**
   * One call of the run, with its retry loop `loops[j]` and the run `next` of the
   * later calls: a fresh cache ends the run with the cached words, a stale
   * one with an acquired frame ends it with that frame, and a failed call
   * adds its three attempts to the later calls'.
   */
  lemma ReadCallsStep(loops: seq<Acquisition>, inWindow: seq<bool>, cached: Words, j: nat, here: ReadRun, next: ReadRun)
    requires j < 3 && RetryLoops(loops) && |inWindow| == 3
    requires here == ReadCalls(loops, inWindow, cached, j)
    requires next == ReadCalls(loops, inWindow, cached, j + 1)
    ensures inWindow[j] ==> here == ReadRun(Acquisition(Some(cached), 0, []), None)
    ensures !inWindow[j] && loops[j].words.Some? ==> here == ReadRun(loops[j], Some(j))
    ensures !inWindow[j] && loops[j].words.None? ==>
      here.acq.words == next.acq.words && here.acq.attempts == 3 + next.acq.attempts && here.stampedBy == next.stampedBy
  {
  }

  /** When every call finds the cache stale, the calls are those of `ReadRetries`. */
  lemma {:induction false} ReadCallsAllStale(cmd: Command, responses: seq<seq<bv8>>, inWindow: seq<bool>, cached: Words, j: nat)
    requires j <= 3 && |inWindow| == 3
    requires forall k :: j <= k < 3 ==> !inWindow[k]
    ensures ReadCalls(CallLoops(cmd, responses), inWindow, cached, j).acq == ReadRetries(cmd, responses, j)
    decreases 3 - j
  {
    if j < 3 {
      ReadCallsAllStale(cmd, responses, inWindow, cached, j + 1);
      ReadRetriesUnfold(cmd, responses, j);
    }
  }

  /**
   * When the calls from `i` up to `j` find the cache stale and acquire
   * nothing, and call `j` finds it fresh (the clock has moved, or wrapped
   * around, into the cache window), the run succeeds with the cached words
   * after every attempt of the failed calls, and the cache is not stamped.
   */
  lemma {:induction false} ReadCallsCacheHit(loops: seq<Acquisition>, inWindow: seq<bool>, cached: Words, i: nat, j: nat)
    requires i <= j < 3 && RetryLoops(loops) && |inWindow| == 3 && inWindow[j]
    requires forall k :: i <= k < j ==> !inWindow[k] && loops[k].words.None?
    ensures var r := ReadCalls(loops, inWindow, cached, i);
      r.acq.words == Some(cached) && r.acq.attempts == 3 * (j - i) && r.stampedBy.None?
    decreases j - i
  {
    if i < j {
      ReadCallsCacheHit(loops, inWindow, cached, i + 1, j);
    }
  }

  /**
   * The stamp `begin` stores leaves the clock one window away from a cache
   * hit: with a window of more than 3 ms, a call at 2^31 - 5 ms finds the
   * cache stale and calls at 2^31 + 1 and 2^31 + 2 ms find it fresh.
   */
  lemma ClockEntersWindowBetweenCalls(hdr: Header)
    requires 3 < hdr.cacheMs <= ULONG_MAX / 2
    ensures Freshness(hdr, [0x7FFF_FFFB, 0x8000_0001, 0x8000_0002], ULONG_MAX / 2) == [false, true, true]
  {
  }

  /** The cached word an instance reports: the temperature word for a temperature instance, the humidity word otherwise. */
  function CachedWord(kind: MeasureType, t: bv16, rh: bv16): bv16 {
    if kind == Temperature then t else rh
  }

  /** `millis() - _lastMsRead` in unsigned arithmetic. */
  function Elapsed(now: ulong, last: ulong): ulong {
    (now - last) % ULONG_MODULUS
  }

  /**
   * Just after `begin` stores ULONG_MAX / 2 as the last read time, any clock
   * value below it is at least half the clock range past it, so the first read
   * goes to the bus whatever the cache window (up to half the range).
   */
  lemma FirstReadAfterBeginIsFresh(now: ulong, cacheMs: nat)
    requires now < ULONG_MAX / 2
    requires cacheMs <= ULONG_MAX / 2
    ensures Elapsed(now, ULONG_MAX / 2) >= cacheMs
  {
  }

  /** The integration time `setResolution` picks, in ms, before the constant is added. */
  function IntegrationMs(hdr: Header, res: Resolution): nat
    requires !res.UnknownResolution?
  {
    match res
    case HighRes => hdr.msHigh
    case MediumRes => hdr.msMedium
    case LowRes => hdr.msLow
  }

  // ---------------------------------------------------------------------------
  // Identity check

  /** A status answer: at least three bytes and a matching checksum. */
  predicate ValidStatusFrame(buf: seq<bv8>) {
    |buf| >= 3 && Crc8(buf[0..2]) == buf[2]
  }

  /** A valid status answer whose word, masked, is the chip's default status. */
  predicate StatusMatches(hdr: Header, buf: seq<bv8>)
    requires ValidStatusFrame(buf)
  {
    Word(buf[0], buf[1]) & hdr.statusMask == hdr.statusDefault
  }

  /** The outcome of `_check_identity`: the verdict, the attempts made and the commands written. */
  datatype IdentityCheck = IdentityCheck(ok: bool, attempts: nat, cmds: seq<Command>)

  /**
   * The retry loop of `_check_identity` over the answers of the attempts
   * left: a short answer triggers a soft reset, a bad checksum a retry; the
   * first valid status answer ends the loop, accepted when its masked word is
   * the default and rejected at once otherwise.
   */
  function CheckIdentityFrom(hdr: Header, answers: seq<seq<bv8>>): (r: IdentityCheck)
    ensures r.attempts <= |answers|
    decreases |answers|
  {
    if answers == [] then IdentityCheck(false, 0, [])
    else
      var buf := answers[0];
      if |buf| < 3 then
        var rest := CheckIdentityFrom(hdr, answers[1..]);
        IdentityCheck(rest.ok, rest.attempts + 1, [GetStatus, SoftReset] + rest.cmds)
      else if Crc8(buf[0..2]) != buf[2] then
        var rest := CheckIdentityFrom(hdr, answers[1..]);
        IdentityCheck(rest.ok, rest.attempts + 1, [GetStatus] + rest.cmds)
      else
        IdentityCheck(StatusMatches(hdr, buf), 1, [GetStatus])
  }

  /**
   * What `_check_identity` decides when answer `d` is the first valid status
   * answer: it stops after that attempt and accepts exactly when the masked
   * status word is the chip's default.
   */
  lemma {:induction false} IdentityDecidedBy(hdr: Header, answers: seq<seq<bv8>>, d: nat)
    requires d < |answers| && ValidStatusFrame(answers[d])
    requires forall j :: 0 <= j < d ==> !ValidStatusFrame(answers[j])
    ensures var r := CheckIdentityFrom(hdr, answers);
      r.attempts == d + 1 && (r.ok <==> StatusMatches(hdr, answers[d]))
    decreases d
  {
    if d > 0 {
      IdentityDecidedBy(hdr, answers[1..], d - 1);
    }
  }

  /** When no answer is a valid status answer, `_check_identity` uses every attempt and refuses. */
  lemma {:induction false} IdentityExhausted(hdr: Header, answers: seq<seq<bv8>>)
    requires forall j :: 0 <= j < |answers| ==> !ValidStatusFrame(answers[j])
    ensures var r := CheckIdentityFrom(hdr, answers);
      !r.ok && r.attempts == |answers|
    decreases |answers|
  {
    if answers != [] {
      IdentityExhausted(hdr, answers[1..]);
    }
  }

  /** The status check of one `_check_identity` attempt: enough bytes and a matching checksum. */
  method ReadStatusFrame(buf: seq<bv8>) returns (valid: bool)
    ensures valid <==> ValidStatusFrame(buf)
  {
    if |buf| < 3 {
      return false;
    }
    valid := CrcCheckTable(buf, 2, buf[2]);
    assert buf[..2] == buf[0..2];
  }

  /** `_check_identity(a)`: reads the status register, at most three times. */
  method CheckIdentity(hdr: Header, a: uint8, responses: seq<seq<bv8>>) returns (ok: bool, attempts: nat, cmds: seq<Command>)
    ensures IdentityCheck(ok, attempts, cmds) == CheckIdentityFrom(hdr, RetryWindow(responses))
  {
    var window := RetryWindow(responses);
    var retry: nat := 3;
    var status := false;
    attempts, cmds := 0, [];
    ghost var goal := CheckIdentityFrom(hdr, window);
    while !status && retry > 0
      invariant attempts + retry == 3
      invariant status ==> goal == IdentityCheck(true, attempts, cmds)
      invariant !status ==> goal.ok == CheckIdentityFrom(hdr, window[attempts..]).ok
      invariant !status ==> goal.attempts == attempts + CheckIdentityFrom(hdr, window[attempts..]).attempts
      invariant !status ==> goal.cmds == cmds + CheckIdentityFrom(hdr, window[attempts..]).cmds
    {
      var buf := window[attempts];
      var valid := ReadStatusFrame(buf);
      var written := if |buf| < 3 then [GetStatus, SoftReset] else [GetStatus];
      assert window[attempts..][1..] == window[attempts + 1..];
      ghost var next := CheckIdentityFrom(hdr, window[attempts + 1..]);
      assert !valid ==> CheckIdentityFrom(hdr, window[attempts..]) == IdentityCheck(next.ok, next.attempts + 1, written + next.cmds);
      AppendAssoc(cmds, written, next.cmds);
      cmds := cmds + written;
      attempts, retry := attempts + 1, retry - 1;
      if !valid {
        continue;
      }
      // the status word, masked, must be the chip's default status
      status := StatusMatches(hdr, buf);
      if !status {
        return false, attempts, cmds;
      }
    }
    ok := status;
  }

  /** `is_device(a)`: an address outside the chip's list is refused without touching the bus. */
  method IsDevice(hdr: Header, a: uint8, responses: seq<seq<bv8>>) returns (found: bool, attempts: nat, cmds: seq<Command>)
    ensures !IsListedAddress(a) ==> !found && attempts == 0 && cmds == []
    ensures IsListedAddress(a) ==> IdentityCheck(found, attempts, cmds) == CheckIdentityFrom(hdr, RetryWindow(responses))
  {
    var listed := false;
    var i := 0;
    while i < |I2C_ADDRS|
      invariant 0 <= i <= |I2C_ADDRS|
      invariant listed <==> a in I2C_ADDRS[..i]
    {
      if I2C_ADDRS[i] == a {
        listed := true;
        break;
      }
      i := i + 1;
    }
    if !listed {
      return false, 0, [];
    }
    found, attempts, cmds := CheckIdentity(hdr, a, responses);
  }

  /** The checks of one `_readSensor` attempt: six bytes, then the temperature and the humidity checksums. */
  method ReadFrame(buf: seq<bv8>) returns (words: Option<Words>)
    ensures words == DecodeFrame(buf)
  {
    if |buf| < 6 {
      return None;
    }
    var tOk := CrcCheckTable(buf, 2, buf[2]);
    assert buf[..2] == buf[0..2];
    if !tOk {
      return None;
    }
    var rhOk := CrcCheckTable(buf[3..], 2, buf[5]);
    assert buf[3..][..2] == buf[3..5];
    if !rhOk {
      return None;
    }
    words := Some(Words(Word(buf[0], buf[1]), Word(buf[3], buf[4])));
  }

  // ---------------------------------------------------------------------------
  // The driver's state

  /** The static members shared by every SHT3x instance: last read time and the two last words. */
  class SharedCache {
    var lastMsRead: ulong
    var tSensor: bv16
    var rhSensor: bv16

    /** The static initialisers: time 0 and both words at (uint16_t)(-1). */
    constructor ()
      ensures lastMsRead == 0 && tSensor == 0xFFFF && rhSensor == 0xFFFF
    {
      lastMsRead := 0;
      tSensor := 0xFFFF;
      rhSensor := 0xFFFF;
    }
  }

  /** One SHT3x instance: which measure it reports, its resolution and integration time. */
  class Driver {
    const hdr: Header
    const cache: SharedCache
    var i2cAddr: uint8
    var measureType: MeasureType
    var resolution: Resolution
    var integrationTime: uint8

    constructor (kind: MeasureType, hdr: Header, cache: SharedCache)
      ensures this.hdr == hdr && this.cache == cache
      ensures i2cAddr == 0xFF && measureType == kind && resolution == hdr.defaultResolution
    {
      this.hdr := hdr;
      this.cache := cache;
      i2cAddr := 0xFF;  // the source's `_i2caddr = -1` in an 8-bit field
      measureType := kind;
      resolution := hdr.defaultResolution;
      integrationTime := 0;  // left unset by the source constructor; begin() sets it
    }

    /**
     * `setResolution`: a known resolution sets the integration time (8-bit
     * arithmetic) and succeeds; an unknown one changes nothing. The resolution
     * field itself is left as it was.
     */
    method SetResolution(res: Resolution) returns (ok: bool)
      modifies this`integrationTime
      ensures ok <==> !res.UnknownResolution?
      ensures ok ==> integrationTime == (IntegrationMs(hdr, res) % 256 + hdr.integrationCte % 256) % 256
      ensures !ok ==> integrationTime == old(integrationTime)
      ensures resolution == old(resolution)
    {
      var ms: uint8;
      if res == HighRes {
        ms := hdr.msHigh % 256;
      } else if res == MediumRes {
        ms := hdr.msMedium % 256;
      } else if res == LowRes {
        ms := hdr.msLow % 256;
      } else {
        return false;
      }
      integrationTime := (ms + hdr.integrationCte % 256) % 256;
      ok := true;
    }

    /**
     * `begin(addr)`: refuses an address outside the bus range, then checks
     * the identity; on success applies the resolution and stores
     * ULONG_MAX / 2 as the last read time so that the first read is fresh.
     */
    method Begin(addr: uint8, responses: seq<seq<bv8>>) returns (ok: bool, attempts: nat, cmds: seq<Command>)
      modifies this, cache
      ensures addr < hdr.addrStart || addr > hdr.addrStop ==>
        !ok && attempts == 0 && cmds == [] && unchanged(this) && unchanged(cache)
      ensures hdr.addrStart <= addr <= hdr.addrStop ==>
        var id := CheckIdentityFrom(hdr, RetryWindow(responses));
        && i2cAddr == addr && ok == id.ok && attempts == id.attempts && cmds == id.cmds
        && (ok ==> cache.lastMsRead == ULONG_MAX / 2 && cache.tSensor == old(cache.tSensor) && cache.rhSensor == old(cache.rhSensor))
        && (!ok ==> unchanged(cache))
      ensures ok && !resolution.UnknownResolution? ==>
        integrationTime == (IntegrationMs(hdr, resolution) % 256 + hdr.integrationCte % 256) % 256
      ensures !ok || resolution.UnknownResolution? ==> integrationTime == old(integrationTime)
      ensures measureType == old(measureType) && resolution == old(resolution)
    {
      if addr < hdr.addrStart || addr > hdr.addrStop {
        return false, 0, [];
      }
      i2cAddr := addr;
      ok, attempts, cmds := CheckIdentity(hdr, addr, responses);
      if !ok {
        return;
      }
      var applied := SetResolution(resolution);
      cache.lastMsRead := ULONG_MAX / 2;
    }

    /**
     * `_readSensor`: within the cache window the cached word is returned
     * without any bus access; otherwise up to three attempts are made, and
     * the cache (both words and the time stamp) is overwritten only when a
     * frame with two valid checksums arrived.
     */
    method ReadSensor(now: ulong, responses: seq<seq<bv8>>) returns (ok: bool, val: bv16, attempts: nat, cmds: seq<Command>)
      modifies cache
      ensures Elapsed(now, old(cache.lastMsRead)) < hdr.cacheMs ==>
        ok && attempts == 0 && cmds == [] && unchanged(cache)
      ensures Elapsed(now, old(cache.lastMsRead)) >= hdr.cacheMs ==>
        var a := AcquireFrames(MeasureCommand(resolution), RetryWindow(responses));
        && ok == a.words.Some? && attempts == a.attempts && cmds == a.cmds
        && (ok ==> cache.tSensor == a.words.value.t && cache.rhSensor == a.words.value.rh && cache.lastMsRead == now)
        && (!ok ==> unchanged(cache))
      ensures ok ==> val == CachedWord(measureType, cache.tSensor, cache.rhSensor)
    {
      if Elapsed(now, cache.lastMsRead) >= hdr.cacheMs {
        var cmd := MeasureCommand(resolution);
        var window := RetryWindow(responses);
        var retry: nat := 3;
        attempts, cmds := 0, [];
        var words: Option<Words> := None;
        ghost var goal := AcquireFrames(cmd, window);
        while words.None? && retry > 0
          modifies {}
          invariant attempts + retry == 3
          invariant words.Some? ==> goal == Acquisition(words, attempts, cmds)
          invariant words.None? ==> goal.words == AcquireFrames(cmd, window[attempts..]).words
          invariant words.None? ==> goal.attempts == attempts + AcquireFrames(cmd, window[attempts..]).attempts
          invariant words.None? ==> goal.cmds == cmds + AcquireFrames(cmd, window[attempts..]).cmds
        {
          var buf := window[attempts];
          words := ReadFrame(buf);
          var written := if |buf| < 6 then [cmd, SoftReset] else [cmd];
          assert window[attempts..][1..] == window[attempts + 1..];
          AppendAssoc(cmds, written, AcquireFrames(cmd, window[attempts + 1..]).cmds);
          cmds := cmds + written;
          attempts, retry := attempts + 1, retry - 1;
        }
        if words.None? {
          return false, 0, attempts, cmds;
        }
        cache.tSensor, cache.rhSensor, cache.lastMsRead := words.value.t, words.value.rh, now;
      } else {
        attempts, cmds := 0, [];
      }
      ok := true;
      val := CachedWord(measureType, cache.tSensor, cache.rhSensor);
    }

    /**
     * `getRH` (and, with `temperature` set, `getTemp`): up to three
     * `_readSensor` calls, call k reading the clock `nows[k]`, as `ReadCalls`
     * specifies; on success the word is converted to hundredths.
     */
    method ReadCenti(nows: seq<ulong>, responses: seq<seq<bv8>>, temperature: bool) returns (ok: bool, centi: int, attempts: nat)
      requires |nows| == 3
      modifies cache
      ensures attempts <= 9
      ensures var r := ReadCalls(CallLoops(MeasureCommand(resolution), responses), Freshness(hdr, nows, old(cache.lastMsRead)),
                                 Words(old(cache.tSensor), old(cache.rhSensor)), 0);
        && ok == r.acq.words.Some? && attempts == r.acq.attempts
        && (ok ==> cache.tSensor == r.acq.words.value.t && cache.rhSensor == r.acq.words.value.rh)
        && (r.stampedBy.Some? ==> cache.lastMsRead == nows[r.stampedBy.value])
        && (r.stampedBy.None? ==> unchanged(cache))
      ensures ok ==>
        var w := CachedWord(measureType, cache.tSensor, cache.rhSensor);
        centi == if temperature then TemperatureCenti(w as int) else HumidityCenti(w as int)
      ensures !ok ==> unchanged(cache) && attempts == 9
    {
      var res := false;
      var retry: nat := 3;
      var val: bv16 := 0;
      attempts := 0;
      ghost var loops := CallLoops(MeasureCommand(resolution), responses);
      ghost var inWindow := Freshness(hdr, nows, cache.lastMsRead);
      ghost var cached := Words(cache.tSensor, cache.rhSensor);
      ghost var goal := ReadCalls(loops, inWindow, cached, 0);
      ghost var rest := goal;
      while !res && retry > 0
        invariant !res && retry <= 3 && attempts == 3 * (3 - retry)
        invariant unchanged(cache)
        invariant rest == ReadCalls(loops, inWindow, cached, 3 - retry)
        invariant goal.acq.words == rest.acq.words && goal.stampedBy == rest.stampedBy
        invariant goal.acq.attempts == attempts + rest.acq.attempts
      {
        var call := 3 - retry;
        ghost var next := ReadCalls(loops, inWindow, cached, call + 1);
        ReadCallsStep(loops, inWindow, cached, call, rest, next);
        FreshnessAt(hdr, nows, old(cache.lastMsRead), call);
        retry := retry - 1;
        rest := next;
        var used: nat;
        var written: seq<Command>;
        res, val, used, written := ReadSensor(nows[call], Skip(responses, attempts));
        attempts := attempts + used;
        if res {
          break;
        }
      }
      if !res {
        return false, 0, attempts;
      }
      ok := true;
      centi := if temperature then TemperatureCenti(val as int) else HumidityCenti(val as int);
    }

    /** `acquire`: a humidity instance reads humidity, any other reads temperature. */
    method Acquire(nows: seq<ulong>, responses: seq<seq<bv8>>) returns (ok: bool, centi: int, attempts: nat)
      requires |nows| == 3
      modifies cache
      ensures ok && measureType == Humidity ==> 0 <= centi <= 9999
      ensures ok && measureType == Temperature ==> -4500 <= centi <= 12999
      ensures ok ==> centi == if measureType == Humidity then HumidityCenti(cache.rhSensor as int) else TemperatureCenti(cache.tSensor as int)
      ensures var r := ReadCalls(CallLoops(MeasureCommand(resolution), responses), Freshness(hdr, nows, old(cache.lastMsRead)),
                                 Words(old(cache.tSensor), old(cache.rhSensor)), 0);
        && ok == r.acq.words.Some? && attempts == r.acq.attempts
        && (ok ==> centi == if measureType == Humidity then HumidityCenti(r.acq.words.value.rh as int) else TemperatureCenti(r.acq.words.value.t as int))
    {
      ok, centi, attempts := ReadCenti(nows, responses, measureType != Humidity);
    }
  }
}
