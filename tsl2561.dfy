/*
 * Constants of the TSL2561 light-to-digital converter driver: the fixed-point
 * coefficient tables of the lux approximation (one per chip package), the
 * channel scale factors, the auto-gain and clipping thresholds, and the
 * register, integration-time and gain encodings. Only the constants are
 * modelled; the lux computation and the auto-range logic that use them are not
 * part of this model.
 */
module Tsl2561 {

  // ---------------------------------------------------------------------------
  // Channels, addresses, command byte

  /** Channel selectors. */
  const VISIBLE: nat := 2
  const INFRARED: nat := 1
  const FULLSPECTRUM: nat := 0

  /** The three addresses the chip can be strapped to (ADDR pin low, floating, high). */
  const ADDR_LOW: nat := 0x29
  const ADDR_FLOAT: nat := 0x39
  const ADDR_HIGH: nat := 0x49

  const READBIT: bv8 := 0x01
  const COMMAND_BIT: bv8 := 0x80
  const CLEAR_BIT: bv8 := 0x40
  const WORD_BIT: bv8 := 0x20
  const BLOCK_BIT: bv8 := 0x10

  const CONTROL_POWERON: bv8 := 0x03
  const CONTROL_POWEROFF: bv8 := 0x00

  /** The chip-id code expected in the ID register. */
  const REGISTER_ID_TSL2561: bv8 := 0x10

  /** The register map. */
  datatype Register =
    | Control | Timing | ThresholdLowLow | ThresholdLowHigh | ThresholdHighLow | ThresholdHighHigh
    | Interrupt | Crc | Id | Chan0Low | Chan0High | Chan1Low | Chan1High

  function RegisterCode(r: Register): (code: bv8)
    ensures code < 0x10
  {
    match r
    case Control => 0x00
    case Timing => 0x01
    case ThresholdLowLow => 0x02
    case ThresholdLowHigh => 0x03
    case ThresholdHighLow => 0x04
    case ThresholdHighHigh => 0x05
    case Interrupt => 0x06
    case Crc => 0x08
    case Id => 0x0A
    case Chan0Low => 0x0C
    case Chan0High => 0x0D
    case Chan1Low => 0x0E
    case Chan1High => 0x0F
  }

  /** Distinct registers have distinct addresses. */
  lemma RegisterCodesAreDistinct(r: Register, s: Register)
    ensures RegisterCode(r) == RegisterCode(s) <==> r == s
  {
  }

  /**
   * The four flag bits of the command byte are distinct single bits above the
   * register address, so setting any of them never alters the address the
   * command selects.
   */
  lemma CommandFlagsKeepRegister(r: Register)
    ensures (COMMAND_BIT | CLEAR_BIT | WORD_BIT | BLOCK_BIT) & 0x0F == 0
    ensures (COMMAND_BIT | RegisterCode(r)) & 0x0F == RegisterCode(r)
    ensures (COMMAND_BIT | WORD_BIT | RegisterCode(r)) & 0x0F == RegisterCode(r)
    ensures (COMMAND_BIT | CLEAR_BIT | WORD_BIT | BLOCK_BIT) == 0xF0
  {
  }

  // ---------------------------------------------------------------------------
  // Integration time and gain

  datatype IntegrationTime = Ms13 | Ms101 | Ms402

  function IntegrationCode(t: IntegrationTime): (code: bv8)
    ensures code <= 0x02
  {
    match t
    case Ms13 => 0x00
    case Ms101 => 0x01
    case Ms402 => 0x02
  }

  datatype Gain = Gain1x | Gain16x

  function GainCode(g: Gain): (code: bv8)
    ensures code & 0xEF == 0
  {
    match g
    case Gain1x => 0x00
    case Gain16x => 0x10
  }

  const DEFL_INTEGR_TIME: IntegrationTime := Ms402
  const DEFL_GAIN: Gain := Gain16x

  /**
   * The three integration codes are distinct, and so are the two gain codes;
   * the gain occupies bit 4 and the integration time bits 0-1 of the timing
   * register, so the two fields can be or-ed together without clashing.
   */
  lemma TimingCodesAreDistinct(t: IntegrationTime, u: IntegrationTime, g: Gain, h: Gain)
    ensures IntegrationCode(t) == IntegrationCode(u) <==> t == u
    ensures GainCode(g) == GainCode(h) <==> g == h
    ensures (IntegrationCode(t) | GainCode(g)) & 0x03 == IntegrationCode(t)
    ensures (IntegrationCode(t) | GainCode(g)) & 0x10 == GainCode(g)
  {
  }

  /** The defaults are the longest integration time and the high gain. */
  lemma Defaults()
    ensures IntegrationCode(DEFL_INTEGR_TIME) == 0x02 && GainCode(DEFL_GAIN) == 0x10
    ensures forall t :: IntegrationCode(t) <= IntegrationCode(DEFL_INTEGR_TIME)
  {
  }

  // ---------------------------------------------------------------------------
  // Auto-gain and clipping thresholds

  /** Upper auto-gain threshold for each integration time. */
  function AgcHigh(t: IntegrationTime): nat {
    match t
    case Ms13 => 4850
    case Ms101 => 36000
    case Ms402 => 63000
  }

  /** Lower auto-gain threshold for each integration time. */
  function AgcLow(t: IntegrationTime): nat {
    match t
    case Ms13 => 100
    case Ms101 => 200
    case Ms402 => 500
  }

  function Clipping(t: IntegrationTime): nat {
    match t
    case Ms13 => 4900
    case Ms101 => 37000
    case Ms402 => 65000
  }

  /** The largest count a channel reaches at each integration time, as the header documents it. */
  function MaxCount(t: IntegrationTime): nat {
    match t
    case Ms13 => 5047
    case Ms101 => 37177
    case Ms402 => 65535
  }

  function IntegrationRank(t: IntegrationTime): nat {
    match t
    case Ms13 => 0
    case Ms101 => 1
    case Ms402 => 2
  }

  /**
   * At every integration time the window is well formed: the low threshold
   * is below the high one, which is below the clipping level, which is below
   * the largest count, and every count fits in 16 bits.
   */
  lemma ThresholdsAreOrdered(t: IntegrationTime)
    ensures AgcLow(t) < AgcHigh(t) < Clipping(t) < MaxCount(t) <= 0xFFFF
  {
  }

  /** The high and clipping thresholds strictly increase with the integration time (13 ms < 101 ms < 402 ms). */
  lemma ThresholdsGrowWithIntegration(t: IntegrationTime, u: IntegrationTime)
    requires IntegrationRank(t) < IntegrationRank(u)
    ensures AgcHigh(t) < AgcHigh(u) && Clipping(t) < Clipping(u) && MaxCount(t) < MaxCount(u)
    ensures IntegrationCode(t) < IntegrationCode(u)
  {
  }

  // ---------------------------------------------------------------------------
  // Lux approximation coefficients

  /** Scale of the lux result, the channel ratio and the channel values (powers of two). */
  const LUX_LUXSCALE: nat := 14
  const LUX_RATIOSCALE: nat := 9
  const LUX_CHSCALE: nat := 10

  /** Channel scale for the two short integration times: 322/11 and 322/81, times 2^10. */
  const LUX_CHSCALE_TINT0: nat := 0x7517
  const LUX_CHSCALE_TINT1: nat := 0x0FE7

  function Pow2(n: nat): (p: nat)
    ensures p >= 1
  {
    if n == 0 then 1 else 2 * Pow2(n - 1)
  }

  /** `v` is the integer nearest to num / den (a tie may go either way). */
  predicate NearestInteger(v: int, num: int, den: int)
    requires den > 0
  {
    -den <= 2 * (v * den - num) <= den
  }

  /** Each channel scale is the integer nearest to its fraction times 2^10. */
  lemma ChannelScalesAreNearest()
    ensures Pow2(LUX_CHSCALE) == 1024
    ensures NearestInteger(LUX_CHSCALE_TINT0, 322 * Pow2(LUX_CHSCALE), 11)
    ensures NearestInteger(LUX_CHSCALE_TINT1, 322 * Pow2(LUX_CHSCALE), 81)
  {
  }

  /** Chip packages with different coefficients; boards carry the T/FN/CL one. */
  datatype Package = TFnCl | Cs

  const PACKAGE: Package := TFnCl

  /**
   * One band of the piecewise-linear approximation: the ratio boundary `k`
   * (scaled by 2^9) and the two slopes `b`, `m` (scaled by 2^14).
   */
  datatype Band = Band(k: nat, b: nat, m: nat)

  /** The eight bands of a package, K1..K8, B1..B8, M1..M8. */
  function Bands(p: Package): (t: seq<Band>)
    ensures |t| == 8
  {
    match p
    case TFnCl => [
      Band(0x0040, 0x01f2, 0x01be),
      Band(0x0080, 0x0214, 0x02d1),
      Band(0x00c0, 0x023f, 0x037b),
      Band(0x0100, 0x0270, 0x03fe),
      Band(0x0138, 0x016f, 0x01fc),
      Band(0x019a, 0x00d2, 0x00fb),
      Band(0x029a, 0x0018, 0x0012),
      Band(0x029a, 0x0000, 0x0000)
    ]
    case Cs => [
      Band(0x0043, 0x0204, 0x01ad),
      Band(0x0085, 0x0228, 0x02c1),
      Band(0x00c8, 0x0253, 0x0363),
      Band(0x010a, 0x0282, 0x03df),
      Band(0x014d, 0x0177, 0x01dd),
      Band(0x019a, 0x0101, 0x0127),
      Band(0x029a, 0x0037, 0x002b),
      Band(0x029a, 0x0000, 0x0000)
    ]
  }

  /**
   * The real coefficients each band documents, in units of 1/100000:
   * the boundary ratio and the two slopes before scaling.
   */
  function DocumentedBands(p: Package): (t: seq<Band>)
    ensures |t| == 8
  {
    match p
    case TFnCl => [
      Band(12500, 3040, 2720),
      Band(25000, 3250, 4400),
      Band(37500, 3510, 5440),
      Band(50000, 3810, 6240),
      Band(61000, 2240, 3100),
      Band(80000, 1280, 1530),
      Band(130000, 146, 112),
      Band(130000, 0, 0)
    ]
    case Cs => [
      Band(13000, 3150, 2620),
      Band(26000, 3370, 4300),
      Band(39000, 3630, 5290),
      Band(52000, 3920, 6050),
      Band(65000, 2290, 2910),
      Band(80000, 1570, 1800),
      Band(130000, 338, 260),
      Band(130000, 0, 0)
    ]
  }

  /** The band boundaries never decrease, and the last two coincide. */
  lemma BoundariesAreNondecreasing(p: Package)
    ensures forall i, j :: 0 <= i <= j < 8 ==> Bands(p)[i].k <= Bands(p)[j].k
    ensures Bands(p)[6].k == Bands(p)[7].k
  {
  }

  /** Beyond the last boundary the approximation contributes nothing: B8 = M8 = 0. */
  lemma LastBandIsZero(p: Package)
    ensures Bands(p)[7].b == 0 && Bands(p)[7].m == 0
  {
  }

  /**
   * Every coefficient is the integer nearest to its documented value times
   * its scale: 2^9 for the boundaries and 2^14 for the slopes.
   */
  lemma BandsAreNearestToDocumented(p: Package, i: nat)
    requires i < 8
    ensures Pow2(LUX_RATIOSCALE) == 512 && Pow2(LUX_LUXSCALE) == 16384
    ensures NearestInteger(Bands(p)[i].k, DocumentedBands(p)[i].k * Pow2(LUX_RATIOSCALE), 100000)
    ensures NearestInteger(Bands(p)[i].b, DocumentedBands(p)[i].b * Pow2(LUX_LUXSCALE), 100000)
    ensures NearestInteger(Bands(p)[i].m, DocumentedBands(p)[i].m * Pow2(LUX_LUXSCALE), 100000)
  {
    assert Pow2(LUX_RATIOSCALE) == 512;
    assert Pow2(LUX_LUXSCALE) == 16384;
  }
}
