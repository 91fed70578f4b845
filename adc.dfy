/** The STM32L1 ADC driver of cpu/stm32l1/periph/adc.c: the line and
    resolution checks, the sample-time register word, the prescaler choice of
    `adc_init` and the integer calibration arithmetic of `adc_sample`.

    Registers are values: `Init` takes the old ADC->CCR and returns what it
    writes to CCR and to the SMPR registers. The data-register readings and
    the factory calibration words are inputs. C `int` arithmetic is on
    unbounded integers with C's truncating `/` written out as `TDiv`;
    `IntermediatesFitInt32` states when no 32-bit overflow can occur. */
module Stm32l1Adc {

  // The ADC driver does not depend on the LoRaMAC package, so this module
  // keeps its own Option rather than importing the one of LoRaMacTypes.
  datatype Option<+T> = None | Some(value: T)

  /** A C `uint16_t`, the width of a factory calibration word. */
  type U16 = x: int | 0 <= x < 0x1_0000

  // The ADC_SAMPLE_TIME_* codes `adc_init` chooses from (3-bit SMPx values).
  const SampleTime16C: bv32 := 2
  const SampleTime48C: bv32 := 4
  const SampleTime96C: bv32 := 5

  // The ADCPRE field (bits 17:16) and the TSVREFE bit (23) of ADC->CCR,
  // and the ADC_CLOCK_* prescaler settings the switch of `adc_init` tests.
  const CcrAdcpre: bv32 := 0x0003_0000
  const CcrTsvrefe: bv32 := 0x0080_0000
  const ClockMedium: bv32 := 0x0001_0000
  const ClockLow: bv32 := 0x0002_0000

  // The internal channels.
  const TemperatureChannel: nat := 16
  const VrefChannel: nat := 17

  // ----- The sample-time word -----

  /** The 3-bit sample-time field of channel slot `i` in an SMPR word. */
  function Field(w: bv32, i: bv32): bv32
    requires i < 10
  {
    (w >> (3 * i)) & 7
  }

  /** Every one of the ten fields holds `t` and bits 30-31 are clear. */
  ghost predicate Replicates(w: bv32, t: bv32)
  {
    (forall i: bv32 :: i < 10 ==> Field(w, i) == t) && w >> 30 == 0
  }

  /** The first `n` fields hold `t` and nothing is set above them. */
  ghost predicate FieldsUpTo(w: bv32, t: bv32, n: bv32)
    requires n <= 10
  {
    (forall j: bv32 :: j < n ==> Field(w, j) == t) && w >> (3 * n) == 0
  }

  /** The word with `t` in all ten fields, in closed form: `t` times
      0b001001...001. */
  function SampleWord(t: bv32): bv32
    requires t <= 7
  {
    t * 0x0924_9249
  }

  lemma OrKeepsLowerField(w: bv32, t: bv32, i: bv32, j: bv32)
    requires t <= 7 && j < i <= 9
    ensures Field(w | (t << (3 * i)), j) == Field(w, j)
  {
  }

  lemma OrSetsField(w: bv32, t: bv32, i: bv32)
    requires t <= 7 && i <= 9 && w >> (3 * i) == 0
    ensures Field(w | (t << (3 * i)), i) == t
    ensures (w | (t << (3 * i))) >> (3 * (i + 1)) == 0
  {
  }

  /** One iteration of the loop of `adc_set_sample_time` fills one more field. */
  lemma OrExtendsFields(w: bv32, t: bv32, i: bv32)
    requires t <= 7 && i <= 9 && FieldsUpTo(w, t, i)
    ensures FieldsUpTo(w | (t << (3 * i)), t, i + 1)
  {
    var next := w | (t << (3 * i));
    OrSetsField(w, t, i);
    forall j: bv32 | j < i + 1
      ensures Field(next, j) == t
    {
      if j < i {
        OrKeepsLowerField(w, t, i, j);
      }
    }
  }

  /** `adc_set_sample_time`: ORs `time` into each of the ten 3-bit fields of
      a word that starts at zero; the word is then written to every SMPR
      register. The callers pass only ADC_SAMPLE_TIME_* codes. */
  method SetSampleTime(time: bv32) returns (reg32: bv32)
    requires time <= 7
    ensures Replicates(reg32, time)
  {
    reg32 := 0;
    var i: bv32 := 0;
    while i <= 9
      invariant i <= 10
      invariant FieldsUpTo(reg32, time, i)
    {
      OrExtendsFields(reg32, time, i);
      reg32 := reg32 | (time << (3 * i));
      i := i + 1;
    }
  }

  /** A word that replicates `t` is determined by `t`: it is the closed form. */
  lemma ReplicatesExactly(w: bv32, t: bv32)
    requires t <= 7 && Replicates(w, t)
    ensures w == SampleWord(t)
  {
    assert Field(w, 0) == t && Field(w, 1) == t && Field(w, 2) == t && Field(w, 3) == t && Field(w, 4) == t;
    assert Field(w, 5) == t && Field(w, 6) == t && Field(w, 7) == t && Field(w, 8) == t && Field(w, 9) == t;
  }

  // ----- adc_init -----

  /** adc_conf_t: the pin to put in analog mode (`None` for GPIO_UNDEF) and
      the channel. */
  datatype AdcConf = AdcConf(pin: Option<nat>, chan: nat)

  /** What `adc_init` writes: the pin it configures, the new ADC->CCR and the
      word written to the SMPR registers. */
  datatype InitEffect = InitEffect(analogPin: Option<nat>, ccr: bv32, smpr: bv32)

  /** The first CCR update of `adc_init`: the prescaler field is cleared
      and the medium clock selected. */
  function ForceMediumPrescaler(ccr: bv32): (r: bv32)
    ensures r & CcrAdcpre == ClockMedium
    ensures r & !CcrAdcpre == ccr & !CcrAdcpre
  {
    (ccr & !CcrAdcpre) | ClockMedium
  }

  /** The switch of `adc_init` on the prescaler field: a slower ADC clock
      needs fewer cycles for the 4 us the temperature sensor needs. */
  function SampleTimeFor(prescaler: bv32): (t: bv32)
    ensures t <= 7
    ensures t == SampleTime16C <==> prescaler == ClockLow
    ensures t == SampleTime48C <==> prescaler == ClockMedium
    ensures t == SampleTime96C <==> prescaler != ClockLow && prescaler != ClockMedium
  {
    if prescaler == ClockLow then SampleTime16C
    else if prescaler == ClockMedium then SampleTime48C
    else SampleTime96C
  }

  /** Since the prescaler is forced to MEDIUM just before the switch, the
      switch always selects 48 cycles. */
  lemma InitAlwaysSelects48Cycles(ccr: bv32)
    ensures SampleTimeFor(ForceMediumPrescaler(ccr) & CcrAdcpre) == SampleTime48C
  {
  }

  /** Setting TSVREFE, which `adc_init` does for the internal channels,
      leaves the prescaler field and every other bit alone. */
  lemma SetTsvrefeKeepsOthers(c: bv32)
    ensures (c | CcrTsvrefe) & CcrTsvrefe == CcrTsvrefe
    ensures (c | CcrTsvrefe) & CcrAdcpre == c & CcrAdcpre
    ensures (c | CcrTsvrefe) & !(CcrAdcpre | CcrTsvrefe) == c & !(CcrAdcpre | CcrTsvrefe)
  {
  }

  /** The CCR after forcing the prescaler keeps TSVREFE and every bit
      outside the prescaler field. */
  lemma ForcedPrescalerKeepsOthers(ccr: bv32)
    ensures ForceMediumPrescaler(ccr) & CcrTsvrefe == ccr & CcrTsvrefe
    ensures ForceMediumPrescaler(ccr) & !(CcrAdcpre | CcrTsvrefe) == ccr & !(CcrAdcpre | CcrTsvrefe)
  {
  }

  /** The SMPR word `adc_init` writes: every field at 48 cycles. */
  lemma InitSampleWord(ccr: bv32, smpr: bv32)
    requires Replicates(smpr, SampleTimeFor(ForceMediumPrescaler(ccr) & CcrAdcpre))
    ensures Replicates(smpr, SampleTime48C) && smpr == SampleWord(SampleTime48C)
  {
    InitAlwaysSelects48Cycles(ccr);
    ReplicatesExactly(smpr, SampleTime48C);
  }

  /** The CCR `adc_init` leaves: the prescaler forced to MEDIUM and then,
      for an internal channel, TSVREFE set. */
  function InitCcr(ccr: bv32, internal: bool): (r: bv32)
    ensures r & CcrAdcpre == ClockMedium
    ensures r & CcrTsvrefe == (if internal then CcrTsvrefe else ccr & CcrTsvrefe)
    ensures r & !(CcrAdcpre | CcrTsvrefe) == ccr & !(CcrAdcpre | CcrTsvrefe)
  {
    var prescaled := ForceMediumPrescaler(ccr);
    ForcedPrescalerKeepsOthers(ccr);
    if internal then SetTsvrefeKeepsOthers(prescaled); prescaled | CcrTsvrefe
    else prescaled
  }

  /** `adc_init`: -1 for a line outside the configuration, before anything
      is touched. Otherwise 0, with the pin in analog mode, the prescaler
      at MEDIUM, every SMPR field at 48 cycles and, for the temperature and
      VREF channels, TSVREFE set; no other CCR bit changes. */
  method Init(config: seq<AdcConf>, line: nat, ccr: bv32) returns (r: int, effect: Option<InitEffect>)
    ensures r == -1 <==> line >= |config|
    ensures r == -1 <==> effect.None?
    ensures r != -1 ==> r == 0
    ensures effect.Some? ==>
              var internal := config[line].chan == TemperatureChannel || config[line].chan == VrefChannel;
              && effect.value.analogPin == config[line].pin
              && effect.value.ccr & CcrAdcpre == ClockMedium
              && effect.value.ccr & CcrTsvrefe == (if internal then CcrTsvrefe else ccr & CcrTsvrefe)
              && effect.value.ccr & !(CcrAdcpre | CcrTsvrefe) == ccr & !(CcrAdcpre | CcrTsvrefe)
              && Replicates(effect.value.smpr, SampleTime48C)
              && effect.value.smpr == SampleWord(SampleTime48C)
  {
    if line >= |config| {
      return -1, None;
    }
    var conf := config[line];
    var smpr := SetSampleTime(SampleTimeFor(ForceMediumPrescaler(ccr) & CcrAdcpre));
    InitSampleWord(ccr, smpr);
    var internal := conf.chan == TemperatureChannel || conf.chan == VrefChannel;
    r, effect := 0, Some(InitEffect(conf.pin, InitCcr(ccr, internal), smpr));
  }

  // ----- adc_sample -----

  /** adc_res_t; `ResOther` is any value besides the four the driver supports. */
  datatype Resolution = Res6Bit | Res8Bit | Res10Bit | Res12Bit | ResOther(code: nat)

  /** The resolution check of `adc_sample`. */
  predicate Supported(res: Resolution)
  {
    !res.ResOther?
  }

  /** The number of distinct readings at a supported resolution: 2 to the
      power of its bit count. */
  function Levels(res: Resolution): nat
    requires Supported(res)
  {
    match res
    case Res6Bit => 64
    case Res8Bit => 256
    case Res10Bit => 1024
    case Res12Bit => 4096
  }

  /** The factor of the left shift that brings a reading to 12 bits. */
  function Scale(res: Resolution): (s: nat)
    requires Supported(res)
    ensures s * Levels(res) == 4096
  {
    match res
    case Res6Bit => 64
    case Res8Bit => 16
    case Res10Bit => 4
    case Res12Bit => 1
  }

  /** The calibration words are for 12-bit readings: 6, 8 and 10-bit readings
      are shifted left by 6, 4 and 2, that is multiplied by `Scale(res)`.
      Shifting back recovers the reading, and the result is a 12-bit reading
      exactly when the reading was within its resolution. */
  function Normalize(res: Resolution, sample: nat): (r: nat)
    requires Supported(res)
    ensures r / Scale(res) == sample
    ensures r < 4096 <==> sample < Levels(res)
  {
    DivExact(sample, Scale(res));
    MulBelowIff(sample, Levels(res), Scale(res));
    sample * Scale(res)
  }

  /** Normalisation keeps the order of readings. */
  lemma NormalizeMonotone(res: Resolution, a: nat, b: nat)
    requires Supported(res) && a <= b
    ensures Normalize(res, a) <= Normalize(res, b)
  {
    MulNonneg(b - a, Scale(res));
    assert (b - a) * Scale(res) == b * Scale(res) - a * Scale(res);
  }

  /** C's `/` on `int`: the quotient truncated toward zero. Its magnitude is
      the quotient of the magnitudes and its sign the product of the signs. */
  function TDiv(a: int, b: int): (q: int)
    requires b != 0
    ensures Abs(q) == Abs(a) / Abs(b)
    ensures q > 0 ==> (a > 0) == (b > 0)
    ensures q < 0 ==> (a > 0) != (b > 0)
    ensures a >= 0 && b > 0 ==> q == a / b
  {
    NatDiv(Abs(a), Abs(b));
    var m := Abs(a) / Abs(b);
    if (a >= 0) == (b > 0) then m else -m
  }

  /** The quotient of naturals is natural, and zero exactly below the divisor. */
  lemma NatDiv(x: nat, y: int)
    requires y > 0
    ensures 0 <= x / y
    ensures x / y == 0 <==> x < y
  {
    assert x == (x / y) * y + x % y && 0 <= x % y < y;
  }

  function Abs(x: int): (r: nat)
    ensures r == x || r == -x
  {
    if x < 0 then -x else x
  }

  /** Truncation is symmetric, which Euclidean division is not. */
  lemma TDivNegate(a: int, b: int)
    requires b != 0
    ensures TDiv(-a, b) == -TDiv(a, b)
  {
  }

  /** For a negative dividend C's `/` differs from Dafny's. */
  lemma TDivIsNotEuclidean()
    ensures TDiv(-80, 176) == 0 && -80 / 176 == -1
  {
  }

  // ----- Arithmetic helpers for the monotonicity proofs -----

  lemma MulNonneg(x: int, y: int)
    requires x >= 0 && y >= 0
    ensures x * y >= 0
  {
  }

  /** Multiplying by a positive factor keeps a strict order, both ways. */
  lemma MulBelowIff(x: int, n: int, s: int)
    requires s > 0
    ensures x < n <==> x * s < n * s
  {
    if x < n {
      MulNonneg(n - x - 1, s);
      assert (n - x - 1) * s == n * s - x * s - s;
    } else {
      MulNonneg(x - n, s);
      assert (x - n) * s == x * s - n * s;
    }
  }

  /** On non-negative operands C's `/` gives the largest `q` with
      `q * b <= a`. */
  lemma TDivBounds(a: int, b: int)
    requires b != 0
    ensures a >= 0 && b > 0 ==> TDiv(a, b) * b <= a < (TDiv(a, b) + 1) * b
  {
    if a >= 0 && b > 0 {
      var q := a / b;
      assert a == q * b + a % b;
      assert (q + 1) * b == q * b + b;
    }
  }

  lemma MulLessThanDivisor(x: int, d: int)
    requires d > 0 && x * d < d
    ensures x < 1
  {
    if x - 1 >= 0 {
      MulNonneg(x - 1, d);
    }
    assert (x - 1) * d == x * d - d;
  }

  /** `b / d` is the largest `q` with `q * d <= b`. */
  lemma DivLowerBound(q: int, b: nat, d: int)
    requires d > 0 && q * d <= b
    ensures q <= b / d
  {
    var x := q - b / d;
    assert x * d == q * d - (b / d) * d;
    MulLessThanDivisor(x, d);
  }

  lemma DivMonotone(a: nat, b: nat, d: int)
    requires d > 0 && a <= b
    ensures a / d <= b / d
  {
    DivLowerBound(a / d, b, d);
  }

  lemma DivAntitone(n: nat, d1: int, d2: int)
    requires 0 < d1 <= d2
    ensures n / d2 <= n / d1
  {
    var q := n / d2;
    MulNonneg(q, d2 - d1);
    assert q * d1 <= q * d2 by {
      assert q * d2 - q * d1 == q * (d2 - d1);
    }
    DivLowerBound(q, n, d1);
  }

  lemma DivExact(k: nat, d: int)
    requires d > 0
    ensures (k * d) / d == k
  {
    MulNonneg(k, d);
    DivLowerBound(k, k * d, d);
    var x := (k * d) / d - k;
    assert x * d == ((k * d) / d) * d - k * d;
    MulLessThanDivisor(x, d);
  }

  /** Over a positive divisor, truncating division keeps the order. */
  lemma TDivMonotone(a: int, b: int, d: int)
    requires d > 0 && a <= b
    ensures TDiv(a, d) <= TDiv(b, d)
  {
    if a >= 0 {
      DivMonotone(a, b, d);
    } else if b < 0 {
      DivMonotone(-b, -a, d);
    }
  }

  /** The VREFINT calibration word: 1672 on low-end devices (category below
      3), which do not provide one, the factory value otherwise. */
  function VrefCal(category: nat, factoryVref: U16): (c: U16)
    ensures category < 3 ==> c == 1672
    ensures category >= 3 ==> c == factoryVref
  {
    if category < 3 then 1672 else factoryVref
  }

  /** The calibration words of the temperature branch. */
  datatype TempCalibration = TempCalibration(vref: U16, ts1: U16, ts2: U16)

  /** The factory calibration words read from memory. */
  datatype Factory = Factory(vref: U16, ts1: U16, ts2: U16)

  /** The temperature branch's words: 1671, 680 and 856 on low-end devices,
      the factory values otherwise. */
  function TempCal(category: nat, f: Factory): (c: TempCalibration)
    ensures category < 3 ==> c == TempCalibration(1671, 680, 856)
    ensures category >= 3 ==> c == TempCalibration(f.vref, f.ts1, f.ts2)
  {
    if category < 3 then TempCalibration(1671, 680, 856) else TempCalibration(f.vref, f.ts1, f.ts2)
  }

  /** The supply voltage in mV from a 12-bit VREFINT reading: `calVref` was
      taken at 3.0 V, and the reading falls as VDD rises. */
  function Vdd(calVref: int, sample: int): (mv: int)
    requires sample != 0
    ensures calVref >= 0 && sample > 0 ==> mv * sample <= 3000 * calVref < (mv + 1) * sample
  {
    TDivBounds(3000 * calVref, sample);
    TDiv(3000 * calVref, sample)
  }

  /** A reading equal to the calibration word means VDD is 3000 mV. */
  lemma VddAtCalibration(calVref: int)
    requires calVref > 0
    ensures Vdd(calVref, calVref) == 3000
  {
    DivExact(3000, calVref);
  }

  /** The higher the VREFINT reading, the lower the supply voltage. */
  lemma VddAntitone(calVref: nat, s1: int, s2: int)
    requires 0 < s1 <= s2
    ensures Vdd(calVref, s2) <= Vdd(calVref, s1)
  {
    DivAntitone(3000 * calVref, s1, s2);
  }

  /** The temperature reading scaled to what it would be at the calibration
      supply. */
  function AdjustToVdd(calVref: int, sample: int, sampleVref: int): (adj: int)
    requires sampleVref != 0
    ensures calVref >= 0 && sample >= 0 && sampleVref > 0 ==>
              adj * sampleVref <= calVref * sample < (adj + 1) * sampleVref
  {
    TDivBounds(calVref * sample, sampleVref);
    if calVref >= 0 && sample >= 0 then
      MulNonneg(calVref, sample);
      TDiv(calVref * sample, sampleVref)
    else
      TDiv(calVref * sample, sampleVref)
  }

  /** Read at the calibration supply, a sample is left as it is. */
  lemma AdjustAtCalibration(calVref: int, sample: nat)
    requires calVref > 0
    ensures AdjustToVdd(calVref, sample, calVref) == sample
  {
    assert calVref * sample == sample * calVref;
    DivExact(sample, calVref);
  }

  /** The two-point temperature line in degrees Celsius: `ts1` is the
      reading at 30 C and `ts2` the reading at 110 C. */
  function TempFromAdjusted(adj: int, ts1: int, ts2: int): (t: int)
    requires ts1 != ts2
    ensures ts1 < ts2 && ts1 <= adj ==>
              (t - 30) * (ts2 - ts1) <= 80 * (adj - ts1) < (t - 29) * (ts2 - ts1)
  {
    TDivBounds(80 * (adj - ts1), ts2 - ts1);
    30 + TDiv(80 * (adj - ts1), ts2 - ts1)
  }

  /** The line passes through both calibration points. */
  lemma TemperatureEndpoints(ts1: int, ts2: int)
    requires ts1 != ts2
    ensures TempFromAdjusted(ts1, ts1, ts2) == 30
    ensures TempFromAdjusted(ts2, ts1, ts2) == 110
  {
    var d := ts2 - ts1;
    if d > 0 {
      DivExact(80, d);
    } else {
      DivExact(80, -d);
      assert 80 * (ts2 - ts1) == -(80 * -d);
    }
  }

  /** With the sensor's positive slope, a higher adjusted reading never gives
      a lower temperature. */
  lemma TemperatureMonotone(a: int, b: int, ts1: int, ts2: int)
    requires ts1 < ts2 && a <= b
    ensures TempFromAdjusted(a, ts1, ts2) <= TempFromAdjusted(b, ts1, ts2)
  {
    TDivMonotone(80 * (a - ts1), 80 * (b - ts1), ts2 - ts1);
  }

  /** Below the first calibration point, truncation rounds the temperature up
      toward 30 C: one count under `ts1` still reads 30, not 29. */
  lemma TemperatureTruncatesTowardCalibration()
    ensures TempFromAdjusted(679, 680, 856) == 30
    ensures 30 + (80 * (679 - 680)) / (856 - 680) == 29
  {
  }

  /** `adc_sample` on a line whose channel is `chan`, given the data-register
      reading `raw`, the second reading `rawVref` the temperature branch
      takes on the VREF channel, the device category and the factory words.
      -1 for an unsupported resolution; VDD in mV on the VREF channel;
      degrees Celsius on the temperature channel; the raw reading otherwise. */
  function SampleChannel(chan: nat, res: Resolution, raw: nat, rawVref: nat, category: nat, f: Factory): (r: int)
    requires chan == VrefChannel && Supported(res) ==> raw != 0
    requires chan == TemperatureChannel && Supported(res) ==>
               rawVref != 0 && TempCal(category, f).ts1 != TempCal(category, f).ts2
    ensures !Supported(res) ==> r == -1
    ensures Supported(res) && chan != VrefChannel && chan != TemperatureChannel ==> r == raw
  {
    if !Supported(res) then -1
    else if chan == VrefChannel then
      Vdd(VrefCal(category, f.vref), Normalize(res, raw))
    else if chan == TemperatureChannel then
      var c := TempCal(category, f);
      var adj := AdjustToVdd(c.vref, Normalize(res, raw), Normalize(res, rawVref));
      TempFromAdjusted(adj, c.ts1, c.ts2)
    else raw
  }

  /** `adc_sample`: an unsupported resolution is refused before the line is
      looked at; past that check the line is not checked, so it must be
      configured. */
  function Sample(config: seq<AdcConf>, line: nat, res: Resolution, raw: nat, rawVref: nat,
                  category: nat, f: Factory): (r: int)
    requires Supported(res) ==> line < |config|
    requires Supported(res) && line < |config| && config[line].chan == VrefChannel ==> raw != 0
    requires Supported(res) && line < |config| && config[line].chan == TemperatureChannel ==>
               rawVref != 0 && TempCal(category, f).ts1 != TempCal(category, f).ts2
    ensures !Supported(res) ==> r == -1
    ensures Supported(res) && config[line].chan != VrefChannel && config[line].chan != TemperatureChannel ==> r == raw
    ensures Supported(res) ==> r == SampleChannel(config[line].chan, res, raw, rawVref, category, f)
  {
    if !Supported(res) then -1
    else SampleChannel(config[line].chan, res, raw, rawVref, category, f)
  }

  /** On the VREF channel, a reading equal to the calibration word (once
      brought to 12 bits) gives 3000 mV. */
  lemma SampleVrefAtCalibration(res: Resolution, raw: nat, category: nat, f: Factory)
    requires Supported(res) && raw != 0
    requires Normalize(res, raw) == VrefCal(category, f.vref)
    ensures SampleChannel(VrefChannel, res, raw, 0, category, f) == 3000
  {
    VddAtCalibration(VrefCal(category, f.vref));
  }

  /** On the temperature channel, at the calibration supply, readings equal
      to the two calibration words give 30 C and 110 C. */
  lemma SampleTemperatureAtCalibration(res: Resolution, raw: nat, rawVref: nat, category: nat, f: Factory)
    requires Supported(res)
    requires var c := TempCal(category, f);
      c.ts1 != c.ts2 && c.vref > 0 && Normalize(res, rawVref) == c.vref
    requires Normalize(res, raw) == TempCal(category, f).ts1 || Normalize(res, raw) == TempCal(category, f).ts2
    ensures rawVref != 0
    ensures SampleChannel(TemperatureChannel, res, raw, rawVref, category, f)
         == (if Normalize(res, raw) == TempCal(category, f).ts1 then 30 else 110)
  {
    var c := TempCal(category, f);
    AdjustAtCalibration(c.vref, Normalize(res, raw));
    TemperatureEndpoints(c.ts1, c.ts2);
  }

  /** A valid temperature reading can be -1, the value that also signals an
      unsupported resolution: on a low-end device at the calibration supply,
      a 12-bit reading of 611 gives -1 C. */
  lemma TemperatureCanLookLikeError()
    ensures SampleChannel(TemperatureChannel, Res12Bit, 611, 1671, 0, Factory(0, 0, 0)) == -1
    ensures SampleChannel(TemperatureChannel, ResOther(14), 611, 1671, 0, Factory(0, 0, 0)) == -1
  {
    assert AdjustToVdd(1671, 611, 1671) == 611;
  }

  predicate InInt32(x: int)
  {
    -0x8000_0000 <= x < 0x8000_0000
  }

  /** With readings within the resolution and a VREFINT reading of at least
      1024 once brought to 12 bits (VDD below about 4.9 V at the low-end
      calibration), every intermediate of the C expressions fits an `int`. */
  lemma IntermediatesFitInt32(res: Resolution, raw: nat, rawVref: nat, c: TempCalibration)
    requires Supported(res) && raw < Levels(res) && rawVref < Levels(res)
    requires Normalize(res, rawVref) >= 1024
    ensures InInt32(3000 * c.vref)
    ensures InInt32(c.vref * Normalize(res, raw))
    ensures var adj := AdjustToVdd(c.vref, Normalize(res, raw), Normalize(res, rawVref));
      InInt32(80 * (adj - c.ts1))
  {
    var s, sv := Normalize(res, raw), Normalize(res, rawVref);
    var p := c.vref * s;
    MulNonneg(c.vref, s);
    MulNonneg(0xFFFF - c.vref, s);
    MulNonneg(0xFFFF, 4095 - s);
    assert p <= 0xFFFF * 4095 by {
      assert 0xFFFF * s - p == (0xFFFF - c.vref) * s;
      assert 0xFFFF * 4095 - 0xFFFF * s == 0xFFFF * (4095 - s);
    }
    DivAntitone(p, 1024, sv);
    DivMonotone(p, 0xFFFF * 4095, 1024);
    assert AdjustToVdd(c.vref, s, sv) == p / sv;
  }
}
