/**
 * The LM35 temperature-sensor driver of lib/LM35: the reference voltage
 * and sample count it keeps, its one-off ADC set-up, and the averaged raw
 * and millivolt readings. The ADC conversions come in as a sequence whose
 * first element is the read the driver discards.
 */
module Lm35 {
  import opened Adc

  /** The driver's module statics. */
  class Sensor {
    var inited: bool
    var vrefMv: U32
    var samples: U16
    /** How many times the one-off ADC set-up has run. */
    ghost var setups: nat

    ghost predicate Valid()
      reads this
    {
      0 < vrefMv && 0 < samples && setups == (if inited then 1 else 0)
    }

    /** Power-up values: not set up, 3300 mV reference, 16 samples. */
    constructor ()
      ensures Valid() && !inited && setups == 0
      ensures vrefMv == InitialVrefMv && samples == InitialSamples
    {
      inited := false;
      vrefMv := InitialVrefMv;
      samples := InitialSamples;
      setups := 0;
    }

    /**
     * Sets up the ADC on the first call only, then stores the reference
     * voltage and sample count, each falling back to its default when zero.
     */
    method Begin(vref: U32, count: U16)
      requires Valid()
      modifies this
      ensures Valid() && inited && setups == 1
      ensures setups == old(setups) + (if old(inited) then 0 else 1)
      ensures vrefMv == (if vref > 0 then vref else DefaultVrefMv)
      ensures samples == (if count > 0 then count else DefaultSamples)
    {
      if !inited {
        setups := setups + 1;
        inited := true;
      }
      vrefMv := if vref > 0 then vref else DefaultVrefMv;
      samples := if count > 0 then count else DefaultSamples;
    }

    /**
     * The averaged raw reading over the configured number of samples. The
     * stored count is never zero, so the zero-as-one fallback of the
     * averaging routine never applies here.
     */
    method ReadRaw(conv: seq<Sample>) returns (raw: U16)
      requires Valid() && samples < |conv|
      ensures EffectiveCount(samples) == samples
      ensures raw == Mean(conv[1..samples + 1])
      ensures Min(conv[1..samples + 1]) <= raw <= Max(conv[1..samples + 1]) <= FullScale
    {
      raw := ReadRawAvg(samples, conv);
    }

    /** The averaged reading scaled to millivolts; never above the reference voltage. */
    method ReadMillivolts(conv: seq<Sample>) returns (mv: U32)
      requires Valid() && samples < |conv|
      ensures Mean(conv[1..samples + 1]) <= FullScale
      ensures mv == Millivolts(Mean(conv[1..samples + 1]), vrefMv)
      ensures mv <= vrefMv
    {
      var raw := ReadRaw(conv);
      mv := Millivolts(raw, vrefMv);
    }
  }
}
