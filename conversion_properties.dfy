/**
  Properties of the unit conversion and of the time axis: the calibration
  constants per sensor and device, the links between a derived unit and its
  primitive unit, the error and `None` outcomes, and the shape of the time axis.
 */
module ConversionProperties {
  import opened Conversion

  /** `derived` is `primary` with `f` applied to every value, or the same error/`None`. */
  ghost predicate Elementwise(derived: Outcome, primary: Outcome, f: real -> real)
  {
    if primary.Converted? then
      derived.Converted? && |derived.values| == |primary.values| &&
      forall i :: 0 <= i < |primary.values| ==> derived.values[i] == f(primary.values[i])
    else
      derived == primary
  }

  // ---------------------------------------------------------------------------
  // Tags
  // ---------------------------------------------------------------------------

  lemma LabelsParseBack(s: Sensor, d: Device, u: Unit)
    ensures s != UnlistedSensor ==> ParseSensor(s.Label()) == s
    ensures d != UnlistedDevice ==> ParseDevice(d.Label()) == d
    ensures u != UnlistedUnit ==> ParseUnit(u.Label()) == u
  {
  }

  // ---------------------------------------------------------------------------
  // Order of the checks
  // ---------------------------------------------------------------------------

  /** A resolution that is not an integer is rejected before the sensor is even looked at. */
  lemma NonIntegerResolutionRaisesFirst(log: real -> real, sensor: Sensor, device: Device,
                                        raw: seq<int>, unit: Unit)
    ensures RawToPhy(log, sensor, device, raw, NotAnInteger, unit) == Raised(InvalidResolution)
  {
  }

  /** The four `RuntimeError` texts, one per rejected argument. */
  lemma ErrorMessages()
    ensures InvalidResolution.Message() == "The specified resolution needs to be an integer."
    ensures UnsupportedDevice.Message() ==
      "The output specified unit does not have a defined transfer function for the used device."
    ensures UnsupportedUnit.Message() == "The selected output unit is invalid for the sensor under analysis."
    ensures UnsupportedSensor.Message() ==
      "The specified sensor is not valid or for now is not available for unit conversion."
  {
  }

  /** No two errors share a text, so the message alone tells which argument was refused. */
  lemma MessagesIdentifyError(e1: ConversionError, e2: ConversionError)
    requires e1 != e2
    ensures e1.Message() != e2.Message()
  {
  }

  /** An unlisted sensor raises whatever the device and unit. */
  lemma UnlistedSensorRaises(log: real -> real, device: Device, raw: seq<int>, n: int, unit: Unit)
    ensures RawToPhy(log, UnlistedSensor, device, raw, Bits(n), unit) == Raised(UnsupportedSensor)
  {
  }

  /**
    ECG, EMG, BVP and SpO2 asked for a unit they do not list return `None`
    whatever the device: `out` starts as `None` and these branches have no `else`.
   */
  lemma UnlistedUnitReturnsNone(log: real -> real, sensor: Sensor, device: Device,
                                raw: seq<int>, n: int, unit: Unit)
    requires sensor != Temp && sensor != UnlistedSensor
    requires unit !in ListedUnits(sensor)
    ensures RawToPhy(log, sensor, device, raw, Bits(n), unit) == ReturnedNone
  {
  }

  // ---------------------------------------------------------------------------
  // ECG and EMG in mV and V
  // ---------------------------------------------------------------------------

  /** ECG in mV: gain 1.019 for the PLUX devices, 1.1 for the BITalino ones, any other device raises. */
  lemma EcgMilliVolt(log: real -> real, device: Device, raw: seq<int>, n: int)
    ensures var r := RawToPhy(log, Ecg, device, raw, Bits(n), MilliVolt);
      if device in PluxDevices || device in BitalinoDevices then
        var gain := if device in PluxDevices then 1.019 else 1.1;
        r.Converted? && |r.values| == |raw| &&
        forall i :: 0 <= i < |raw| ==>
          r.values[i] == ((raw[i] as real) * 3.0 / Pow2(n) - 3.0 * 0.5) / gain
      else
        r == Raised(UnsupportedDevice)
  {
  }

  /** EMG in mV: gain 1 for the PLUX devices, 1.008 for bitalino, 1.009 for bitalino_rev/riot. */
  lemma EmgMilliVolt(log: real -> real, device: Device, raw: seq<int>, n: int)
    ensures var r := RawToPhy(log, Emg, device, raw, Bits(n), MilliVolt);
      if device in PluxDevices || device in BitalinoDevices then
        var gain := if device in PluxDevices then 1.0
                    else if device == Bitalino then 1.008
                    else 1.009;
        r.Converted? && |r.values| == |raw| &&
        forall i :: 0 <= i < |raw| ==>
          r.values[i] == ((raw[i] as real) * 3.0 / Pow2(n) - 3.0 * 0.5) / gain
      else
        r == Raised(UnsupportedDevice)
  {
  }

  lemma LinearTransferIncreasing(x: int, y: int, n: int, offset: real, gain: real)
    requires x < y
    requires gain > 0.0
    ensures LinearTransfer(x, n, offset, gain) < LinearTransfer(y, n, offset, gain)
  {
    var p := Pow2(n);
    var a := (x as real) * Vcc / p;
    var b := (y as real) * Vcc / p;
    assert a < b by {
      assert (x as real) * Vcc < (y as real) * Vcc;
    }
    var c := Vcc * offset;
    assert (a - c) / gain < (b - c) / gain by {
      assert a - c < b - c;
    }
  }

  /**
    The primary-unit conversions of ECG, EMG (mV) and BVP (uA) are strictly
    increasing in the raw code, since every gain is positive.
   */
  lemma PrimaryUnitStrictlyIncreasing(log: real -> real, sensor: Sensor, device: Device,
                                      raw: seq<int>, n: int, i: nat, j: nat)
    requires sensor == Ecg || sensor == Emg || sensor == Bvp
    requires i < |raw| && j < |raw| && raw[i] < raw[j]
    ensures var r := RawToPhy(log, sensor, device, raw, Bits(n), if sensor == Bvp then MicroAmpere else MilliVolt);
      r.Converted? ==> r.values[i] < r.values[j]
  {
    var unit := if sensor == Bvp then MicroAmpere else MilliVolt;
    var r := RawToPhy(log, sensor, device, raw, Bits(n), unit);
    if r.Converted? {
      var c := LinearCalibration(sensor, device).value;
      LinearTransferIncreasing(raw[i], raw[j], n, c.offset, c.gain);
    }
  }

  lemma Pow2Doubles(n: int)
    requires n >= 1
    ensures Pow2(n) == 2.0 * (Pow2Nat(n - 1) as real)
  {
    var k: nat := n - 1;
    assert Pow2Nat(n) == 2 * Pow2Nat(k);
  }

  lemma HalfOfDouble(h: real, v: real)
    requires h > 0.0
    ensures h * v / (2.0 * h) == v * 0.5
  {
    assert h * v == (2.0 * h) * (v * 0.5);
  }

  /** The middle code `2**(n - 1)` sits exactly at `vcc * 0.5`, so it maps to 0. */
  lemma LinearTransferMidscale(n: int, gain: real)
    requires n >= 1 && gain != 0.0
    ensures LinearTransfer(Pow2Nat(n - 1), n, 0.5, gain) == 0.0
  {
    var h := Pow2Nat(n - 1) as real;
    Pow2Doubles(n);
    HalfOfDouble(h, Vcc);
  }

  /** The middle code `2**(resolution - 1)` is 0 mV for ECG and EMG on every supported device. */
  lemma MidscaleIsZeroMilliVolt(log: real -> real, sensor: Sensor, device: Device,
                                raw: seq<int>, n: int, i: nat)
    requires sensor == Ecg || sensor == Emg
    requires n >= 1 && i < |raw| && raw[i] == Pow2Nat(n - 1)
    ensures var r := RawToPhy(log, sensor, device, raw, Bits(n), MilliVolt);
      r.Converted? ==> r.values[i] == 0.0
  {
    var r := RawToPhy(log, sensor, device, raw, Bits(n), MilliVolt);
    if r.Converted? {
      var c := LinearCalibration(sensor, device).value;
      assert r.values[i] == LinearTransfer(raw[i], n, c.offset, c.gain);
      LinearTransferMidscale(n, c.gain);
    }
  }

  /** V is mV divided by 1000, and an error of the mV conversion is the error of V. */
  lemma VoltIsMilliVoltOverThousand(log: real -> real, sensor: Sensor, device: Device,
                                    raw: seq<int>, resolution: Resolution)
    requires sensor == Ecg || sensor == Emg
    ensures Elementwise(RawToPhy(log, sensor, device, raw, resolution, Volt),
                        RawToPhy(log, sensor, device, raw, resolution, MilliVolt),
                        mv => mv / 1000.0)
  {
  }

  // ---------------------------------------------------------------------------
  // BVP and SpO2 in uA and A
  // ---------------------------------------------------------------------------

  /** BVP in uA: PLUX devices only, offset 0 and gain 0.190060606, so code 0 is 0 uA. */
  lemma BvpMicroAmpere(log: real -> real, device: Device, raw: seq<int>, n: int)
    ensures var r := RawToPhy(log, Bvp, device, raw, Bits(n), MicroAmpere);
      if device in PluxDevices then
        r.Converted? && |r.values| == |raw| &&
        (forall i :: 0 <= i < |raw| ==>
           r.values[i] == ((raw[i] as real) * 3.0 / Pow2(n) - 3.0 * 0.0) / 0.190060606) &&
        (forall i :: 0 <= i < |raw| && raw[i] == 0 ==> r.values[i] == 0.0)
      else
        r == Raised(UnsupportedDevice)
  {
  }

  /**
    SpO2 in uA: channeller, biosignalsplux and swifter only; the fraction of full
    scale times 1.2 (arm, finger) or 0.15 (head), so code 0 is 0 uA.
   */
  lemma SpO2MicroAmpereBySite(log: real -> real, sensor: Sensor, device: Device, raw: seq<int>, n: int)
    requires sensor == SpO2Arm || sensor == SpO2Head || sensor == SpO2Finger
    ensures var r := RawToPhy(log, sensor, device, raw, Bits(n), MicroAmpere);
      if device == Channeller || device == Biosignalsplux || device == Swifter then
        var scale := if sensor == SpO2Head then 0.15 else 1.2;
        r.Converted? && |r.values| == |raw| &&
        (forall i :: 0 <= i < |raw| ==> r.values[i] == scale * ((raw[i] as real) / Pow2(n))) &&
        (forall i :: 0 <= i < |raw| && raw[i] == 0 ==> r.values[i] == 0.0)
      else
        r == Raised(UnsupportedDevice)
  {
  }

  /** A is uA times 1e-6, and an error of the uA conversion is the error of A. */
  lemma AmpereIsMicroAmpereScaled(log: real -> real, sensor: Sensor, device: Device,
                                  raw: seq<int>, resolution: Resolution)
    requires sensor in [Bvp, SpO2Arm, SpO2Head, SpO2Finger]
    ensures Elementwise(RawToPhy(log, sensor, device, raw, resolution, Ampere),
                        RawToPhy(log, sensor, device, raw, resolution, MicroAmpere),
                        ua => ua * 1e-6)
  {
  }

  // ---------------------------------------------------------------------------
  // TEMP in Ohm, K and C
  // ---------------------------------------------------------------------------

  /** The TEMP errors: an unlisted unit, Ohm or K off the PLUX devices, C off both device groups. */
  lemma TempRaises(log: real -> real, device: Device, raw: seq<int>, n: int, unit: Unit)
    ensures unit !in [Ohm, Kelvin, Celsius] ==>
      RawToPhy(log, Temp, device, raw, Bits(n), unit) == Raised(UnsupportedUnit)
    ensures (unit == Ohm || unit == Kelvin) && device !in PluxDevices ==>
      RawToPhy(log, Temp, device, raw, Bits(n), unit) == Raised(UnsupportedDevice)
    ensures unit == Celsius && device !in PluxDevices && device !in BitalinoDevices ==>
      RawToPhy(log, Temp, device, raw, Bits(n), unit) == Raised(UnsupportedDevice)
  {
  }

  /** The resistance: `1e4 * raw / (2**resolution - raw)` on the PLUX devices. */
  lemma TempOhm(log: real -> real, device: Device, raw: seq<int>, n: int)
    requires device in PluxDevices
    requires SamplesInDomain(log, Temp, device, raw, n, Ohm)
    ensures var r := RawToPhy(log, Temp, device, raw, Bits(n), Ohm);
      r.Converted? && |r.values| == |raw| &&
      forall i :: 0 <= i < |raw| ==>
        r.values[i] == 1e4 * (raw[i] as real) / (Pow2(n) - raw[i] as real)
  {
  }

  /**
    K is computed from the Ohm conversion of the same samples: each resistance R
    becomes `1 / (a0 + a1 ln R + a2 (ln R)^3)`, and a device the Ohm conversion
    rejects is rejected for K too.
   */
  lemma KelvinFromOhm(log: real -> real, device: Device, raw: seq<int>, n: int)
    requires SamplesInDomain(log, Temp, device, raw, n, Kelvin)
    ensures SamplesInDomain(log, Temp, device, raw, n, Ohm)
    ensures var k := RawToPhy(log, Temp, device, raw, Bits(n), Kelvin);
      var ohm := RawToPhy(log, Temp, device, raw, Bits(n), Ohm);
      if ohm.Converted? then
        k.Converted? && |k.values| == |ohm.values| &&
        forall i :: 0 <= i < |ohm.values| ==>
          ohm.values[i] > 0.0 &&
          k.values[i] * (1.12764514e-3 + 2.34282709e-4 * log(ohm.values[i])
                         + 8.77303013e-8 * (log(ohm.values[i]) * log(ohm.values[i]) * log(ohm.values[i]))) == 1.0
      else
        k == ohm
  {
    var k := RawToPhy(log, Temp, device, raw, Bits(n), Kelvin);
    var ohm := RawToPhy(log, Temp, device, raw, Bits(n), Ohm);
    if ohm.Converted? {
      forall i | 0 <= i < |ohm.values|
        ensures ohm.values[i] > 0.0
        ensures k.values[i] * SteinhartDenominator(log, ohm.values[i]) == 1.0
      {
        var x := raw[i] as real;
        assert 0.0 < x < Pow2(n);
        assert ohm.values[i] == 1e4 * x / (Pow2(n) - x);
      }
    }
  }

  /** On the PLUX devices C is K minus 273.15, sample by sample. */
  lemma CelsiusIsKelvinMinusOffset(log: real -> real, device: Device, raw: seq<int>, n: int)
    requires device in PluxDevices
    requires SamplesInDomain(log, Temp, device, raw, n, Celsius)
    ensures SamplesInDomain(log, Temp, device, raw, n, Kelvin)
    ensures RawToPhy(log, Temp, device, raw, Bits(n), Celsius).Converted?
    ensures Elementwise(RawToPhy(log, Temp, device, raw, Bits(n), Celsius),
                        RawToPhy(log, Temp, device, raw, Bits(n), Kelvin),
                        k => k - 273.15)
  {
  }

  /**
    The whole PLUX chain for one sample: C is the Steinhart-Hart temperature of
    the thermistor resistance of the code, minus 273.15.
   */
  lemma CelsiusChain(log: real -> real, device: Device, raw: seq<int>, n: int, i: nat)
    requires device in PluxDevices
    requires SamplesInDomain(log, Temp, device, raw, n, Celsius)
    requires i < |raw|
    ensures 0 < raw[i] && (raw[i] as real) < Pow2(n)
    ensures SteinhartDenominator(log, ThermistorOhm(raw[i], n)) != 0.0
    ensures RawToPhy(log, Temp, device, raw, Bits(n), Celsius).Converted?
    ensures RawToPhy(log, Temp, device, raw, Bits(n), Celsius).values[i]
         == SteinhartKelvin(log, ThermistorOhm(raw[i], n)) - 273.15
  {
    assert SampleInDomain(log, Temp, device, n, Celsius, raw[i]);
  }

  /** The BITalino devices use a direct linear formula for C; code 0 is -50 degrees. */
  lemma BitalinoCelsiusDirect(log: real -> real, device: Device, raw: seq<int>, n: int)
    requires device in BitalinoDevices
    ensures var c := RawToPhy(log, Temp, device, raw, Bits(n), Celsius);
      c.Converted? && |c.values| == |raw| &&
      (forall i :: 0 <= i < |raw| ==> c.values[i] == (((raw[i] as real) / Pow2(n)) * 3.0 - 0.5) * 100.0) &&
      (forall i :: 0 <= i < |raw| && raw[i] == 0 ==> c.values[i] == -50.0)
  {
  }

  // ---------------------------------------------------------------------------
  // Worked cases
  // ---------------------------------------------------------------------------

  /** ECG from a bioplux at 12 bits: codes 0, 2048 and 4095 in mV. */
  lemma EcgBiopluxTwelveBits(log: real -> real)
    ensures RawToPhy(log, Ecg, Bioplux, [0, 2048, 4095], Bits(12), MilliVolt)
         == Converted([-1.5 / 1.019, 0.0, (4095.0 * 3.0 / 4096.0 - 1.5) / 1.019])
  {
    assert Pow2(12) == 4096.0;
  }

  /** mV and V are not TEMP units; an unlisted device has no ECG transfer function. */
  lemma RejectedCombinations(log: real -> real, raw: seq<int>)
    ensures RawToPhy(log, Temp, Bioplux, raw, Bits(12), Volt) == Raised(UnsupportedUnit)
    ensures RawToPhy(log, Ecg, UnlistedDevice, raw, Bits(12), MilliVolt) == Raised(UnsupportedDevice)
    ensures RawToPhy(log, Ecg, Bioplux, raw, NotAnInteger, MilliVolt) == Raised(InvalidResolution)
  {
  }

  // ---------------------------------------------------------------------------
  // Time axis
  // ---------------------------------------------------------------------------

  lemma ScaledIndexIncreasing(i: nat, j: nat, step: real)
    requires i < j && step > 0.0
    ensures (i as real) * step < (j as real) * step
  {
  }

  lemma LinspaceIncreasing(start: real, stop: real, num: nat, i: nat, j: nat)
    requires start < stop
    requires i < j < num
    ensures Linspace(start, stop, num)[i] < Linspace(start, stop, num)[j]
  {
    var y := Linspace(start, stop, num);
    var step := (stop - start) / ((num - 1) as real);
    assert step > 0.0;
    var a, b := (i as real) * step, (j as real) * step;
    assert y[i] == start + a;
    assert y[j] == start + b;
    ScaledIndexIncreasing(i, j, step);
    assert start + a < start + b;
  }

  /** With a positive sampling rate the time axis is strictly increasing. */
  lemma TimeAxisStrictlyIncreasing<T>(signal: seq<T>, sampleRate: real, i: nat, j: nat)
    requires sampleRate > 0.0
    requires i < j < |signal|
    ensures GenerateTime(signal, sampleRate)[i] < GenerateTime(signal, sampleRate)[j]
  {
    var end := (|signal| as real) / sampleRate;
    assert end > 0.0;
    LinspaceIncreasing(0.0, end, |signal|, i, j);
  }

  /**
    The axis spans `len(signal) / sample_rate`, one sample period more than
    `len(signal) - 1` samples take, so its spacing exceeds the sampling period.
   */
  lemma TimeAxisSpacingExceedsSamplePeriod<T>(signal: seq<T>, sampleRate: real)
    requires sampleRate > 0.0
    requires |signal| >= 2
    ensures var t := GenerateTime(signal, sampleRate);
      t[|t| - 1] == ((|signal| - 1) as real) / sampleRate + 1.0 / sampleRate &&
      t[1] - t[0] > 1.0 / sampleRate
  {
    var n := |signal| as real;
    var t := GenerateTime(signal, sampleRate);
    assert t[1] - t[0] == (n / sampleRate) / (n - 1.0);
    assert (n / sampleRate) / (n - 1.0) > 1.0 / sampleRate by {
      assert n / sampleRate > (n - 1.0) / sampleRate;
      assert (n / sampleRate) / (n - 1.0) > ((n - 1.0) / sampleRate) / (n - 1.0);
    }
  }

  /** 1000 samples at 1000 Hz: from 0 s to 1 s in steps of 1/999 s. */
  lemma ThousandSamplesAtThousandHertz(signal: seq<real>)
    requires |signal| == 1000
    ensures var t := GenerateTime(signal, 1000.0);
      |t| == 1000 && t[0] == 0.0 && t[999] == 1.0 &&
      forall i :: 0 < i < 1000 ==> t[i] - t[i - 1] == 1.0 / 999.0
  {
  }
}
