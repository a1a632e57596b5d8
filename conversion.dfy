/**
  Conversion of raw ADC sample codes to physical units (`raw_to_phy`) and the
  uniform time axis of a signal (`generate_time`).

  The sensor, device and output-unit arguments are strings in the original
  module; here they are closed datatypes, each with an "unlisted" case that
  stands for every other string, and with `Label()` giving the exact string the
  module compares against for every listed case; the empty string `Label()`
  gives for an unlisted case is only a placeholder for "any other string" and
  is never compared against. Samples are integers and physical values are exact
  rationals (`real`), so IEEE-754 rounding is not modelled. The natural
  logarithm (`numpy.log`) is a parameter `log` of the conversion.
 */
module Conversion {

  // ---------------------------------------------------------------------------
  // Tags
  // ---------------------------------------------------------------------------

  datatype Sensor =
    | Temp | Emg | Ecg | Bvp | SpO2Arm | SpO2Head | SpO2Finger
    | UnlistedSensor
  {
    /** The string the module compares the sensor argument with. */
    function Label(): string
    {
      match this
      case Temp => "TEMP"
      case Emg => "EMG"
      case Ecg => "ECG"
      case Bvp => "BVP"
      case SpO2Arm => "SpO2.ARM"
      case SpO2Head => "SpO2.HEAD"
      case SpO2Finger => "SpO2.FING"
      case UnlistedSensor => ""  // placeholder only: never compared against
    }
  }

  datatype Device =
    | Bioplux | BiopluxExp | Biosignalsplux | Rachimeter | Channeller | Swifter | DdmeOpenbanplux
    | Bitalino | BitalinoRev | BitalinoRiot
    | UnlistedDevice
  {
    function Label(): string
    {
      match this
      case Bioplux => "bioplux"
      case BiopluxExp => "bioplux_exp"
      case Biosignalsplux => "biosignalsplux"
      case Rachimeter => "rachimeter"
      case Channeller => "channeller"
      case Swifter => "swifter"
      case DdmeOpenbanplux => "ddme_openbanplux"
      case Bitalino => "bitalino"
      case BitalinoRev => "bitalino_rev"
      case BitalinoRiot => "bitalino_riot"
      case UnlistedDevice => ""  // placeholder only: never compared against
    }
  }

  /** The `option` argument: the requested output unit. */
  datatype Unit =
    | MilliVolt | Volt | Celsius | Kelvin | Ohm | Ampere | MicroAmpere
    | UnlistedUnit
  {
    function Label(): string
    {
      match this
      case MilliVolt => "mV"
      case Volt => "V"
      case Celsius => "C"
      case Kelvin => "K"
      case Ohm => "Ohm"
      case Ampere => "A"
      case MicroAmpere => "uA"
      case UnlistedUnit => ""  // placeholder only: never compared against
    }
  }

  /** The sensor a caller's string selects: exact comparison, anything else is unlisted. */
  function ParseSensor(tag: string): (s: Sensor)
    ensures s != UnlistedSensor ==> s.Label() == tag
  {
    if tag == "TEMP" then Temp
    else if tag == "EMG" then Emg
    else if tag == "ECG" then Ecg
    else if tag == "BVP" then Bvp
    else if tag == "SpO2.ARM" then SpO2Arm
    else if tag == "SpO2.HEAD" then SpO2Head
    else if tag == "SpO2.FING" then SpO2Finger
    else UnlistedSensor
  }

  function ParseDevice(tag: string): (d: Device)
    ensures d != UnlistedDevice ==> d.Label() == tag
  {
    if tag == "bioplux" then Bioplux
    else if tag == "bioplux_exp" then BiopluxExp
    else if tag == "biosignalsplux" then Biosignalsplux
    else if tag == "rachimeter" then Rachimeter
    else if tag == "channeller" then Channeller
    else if tag == "swifter" then Swifter
    else if tag == "ddme_openbanplux" then DdmeOpenbanplux
    else if tag == "bitalino" then Bitalino
    else if tag == "bitalino_rev" then BitalinoRev
    else if tag == "bitalino_riot" then BitalinoRiot
    else UnlistedDevice
  }

  function ParseUnit(tag: string): (u: Unit)
    ensures u != UnlistedUnit ==> u.Label() == tag
  {
    if tag == "mV" then MilliVolt
    else if tag == "V" then Volt
    else if tag == "C" then Celsius
    else if tag == "K" then Kelvin
    else if tag == "Ohm" then Ohm
    else if tag == "A" then Ampere
    else if tag == "uA" then MicroAmpere
    else UnlistedUnit
  }

  /** The device lists the module tests membership in. */
  const PluxDevices: seq<Device> :=
    [Bioplux, BiopluxExp, Biosignalsplux, Rachimeter, Channeller, Swifter, DdmeOpenbanplux]
  const BitalinoDevices: seq<Device> := [Bitalino, BitalinoRev, BitalinoRiot]
  const SpO2Devices: seq<Device> := [Channeller, Biosignalsplux, Swifter]

  /** The `resolution` argument: an integer bit depth, or a value of any other type. */
  datatype Resolution = Bits(n: int) | NotAnInteger

  // ---------------------------------------------------------------------------
  // Outcome of a conversion
  // ---------------------------------------------------------------------------

  /** The four `RuntimeError`s the conversion raises. */
  datatype ConversionError =
    | InvalidResolution
    | UnsupportedDevice
    | UnsupportedUnit
    | UnsupportedSensor
  {
    /** The text of the `RuntimeError` raised for this error; every error has one. */
    function Message(): (m: string)
      ensures |m| > 0
    {
      match this
      case InvalidResolution => "The specified resolution needs to be an integer."
      case UnsupportedDevice =>
        "The output specified unit does not have a defined transfer function for the used device."
      case UnsupportedUnit => "The selected output unit is invalid for the sensor under analysis."
      case UnsupportedSensor =>
        "The specified sensor is not valid or for now is not available for unit conversion."
    }
  }

  /** A converted signal, a raised error, or the `None` that some branches fall through to. */
  datatype Outcome =
    | Converted(values: seq<real>)
    | Raised(error: ConversionError)
    | ReturnedNone

  // ---------------------------------------------------------------------------
  // Constants and per-sample transfer functions
  // ---------------------------------------------------------------------------

  const Vcc: real := 3.0
  const ThermistorReference: real := 1e4
  const SteinhartA0: real := 1.12764514e-3
  const SteinhartA1: real := 2.34282709e-4
  const SteinhartA2: real := 8.77303013e-8
  const ZeroCelsius: real := 273.15

  function Pow2Nat(k: nat): (p: nat)
    ensures p >= 1
  {
    if k == 0 then 1 else 2 * Pow2Nat(k - 1)
  }

  /** `2 ** resolution` as Python computes it: an int for e >= 0, a fraction below. */
  function Pow2(e: int): (p: real)
    ensures p > 0.0
  {
    if e >= 0 then Pow2Nat(e) as real else 1.0 / (Pow2Nat(-e) as real)
  }

  /**
    `(raw * vcc / 2**resolution - vcc * offset) / gain` for one sample. The
    input voltage `raw * vcc / 2**resolution` is recovered from the result,
    and code 0 maps to `-vcc * offset / gain`.
   */
  function LinearTransfer(x: int, n: int, offset: real, gain: real): (r: real)
    requires gain != 0.0
    ensures r * gain + Vcc * offset == (x as real) * Vcc / Pow2(n)
    ensures x == 0 ==> r == -(Vcc * offset) / gain
  {
    ((x as real) * Vcc / Pow2(n) - Vcc * offset) / gain
  }

  /**
    Thermistor resistance: `1e4 * raw / (2**resolution - raw)`. It satisfies
    the voltage-divider relation with the 10 kOhm reference resistor and is
    non-negative for codes in `[0, 2**resolution)`.
   */
  function ThermistorOhm(x: int, n: int): (r: real)
    requires x as real != Pow2(n)
    ensures r * (Pow2(n) - x as real) == ThermistorReference * (x as real)
    ensures 0 <= x && (x as real) < Pow2(n) ==> r >= 0.0
    ensures x == 0 ==> r == 0.0
  {
    ThermistorReference * (x as real) / (Pow2(n) - x as real)
  }

  /**
    `a0 + a1 ln R + a2 (ln R)^3`; since every coefficient is positive it is at
    least `a0`, hence positive, whenever `ln R >= 0`.
   */
  function SteinhartDenominator(log: real -> real, ohm: real): (d: real)
    ensures log(ohm) >= 0.0 ==> d >= SteinhartA0 > 0.0
  {
    SteinhartA0 + SteinhartA1 * log(ohm) + SteinhartA2 * (log(ohm) * log(ohm) * log(ohm))
  }

  /**
    Kelvin from a resistance: `1 / (a0 + a1 ln R + a2 (ln R)^3)`, the
    reciprocal of the denominator, positive where the denominator is.
   */
  function SteinhartKelvin(log: real -> real, ohm: real): (r: real)
    requires SteinhartDenominator(log, ohm) != 0.0
    ensures r * SteinhartDenominator(log, ohm) == 1.0
    ensures SteinhartDenominator(log, ohm) > 0.0 ==> r > 0.0
  {
    1.0 / SteinhartDenominator(log, ohm)
  }

  /**
    The BITalino temperature front end: `((raw / 2**resolution) * vcc - 0.5) * 100`,
    10 mV per degree with 0 degrees at 0.5 V; the input voltage is recovered
    from the result, and code 0 reads -50 degrees.
   */
  function BitalinoCelsius(x: int, n: int): (r: real)
    ensures (r / 100.0 + 0.5) * Pow2(n) == (x as real) * Vcc
    ensures x == 0 ==> r == -50.0
  {
    (((x as real) / Pow2(n)) * Vcc - 0.5) * 100.0
  }

  /**
    `scale_factor * (raw / 2**resolution)` for the SpO2 sensors: proportional to
    the code, zero at code 0.
   */
  function SpO2MicroAmpere(scale: real, x: int, n: int): (r: real)
    ensures r * Pow2(n) == scale * (x as real)
    ensures x == 0 ==> r == 0.0
  {
    scale * ((x as real) / Pow2(n))
  }

  /** The SpO2 scale factor: 1.2 for the arm and finger sites, 0.15 for the head. */
  function SpO2Scale(sensor: Sensor): (r: real)
    requires sensor in [SpO2Arm, SpO2Head, SpO2Finger]
    ensures r > 0.0
    ensures r == 1.2 <==> sensor != SpO2Head
    ensures r == 0.15 <==> sensor == SpO2Head
  {
    if sensor == SpO2Arm || sensor == SpO2Finger then 1.2 else 0.15
  }

  /** Applies `f` to every value of a converted signal; an error or `None` passes through. */
  function MapValues(o: Outcome, f: real -> real): (r: Outcome)
    ensures o.Converted? <==> r.Converted?
    ensures !o.Converted? ==> r == o
    ensures o.Converted? ==>
      |r.values| == |o.values| &&
      forall i :: 0 <= i < |o.values| ==> r.values[i] == f(o.values[i])
  {
    match o
    case Converted(v) => Converted(seq(|v|, i requires 0 <= i < |v| => f(v[i])))
    case _ => o
  }

  // ---------------------------------------------------------------------------
  // Reference table: which combinations convert, and to what
  // ---------------------------------------------------------------------------

  datatype Calibration = Calibration(offset: real, gain: real)

  datatype Option<T> = None | Some(value: T)

  /** Offset and gain of the linear transfer function, per sensor and device. */
  function LinearCalibration(sensor: Sensor, device: Device): (c: Option<Calibration>)
    ensures c.Some? ==> c.value.gain > 0.0
  {
    match sensor
    case Ecg =>
      if device in PluxDevices then Some(Calibration(0.5, 1.019))
      else if device in BitalinoDevices then Some(Calibration(0.5, 1.1))
      else None
    case Emg =>
      if device in PluxDevices then Some(Calibration(0.5, 1.0))
      else if device == Bitalino then Some(Calibration(0.5, 1.008))
      else if device == BitalinoRev || device == BitalinoRiot then Some(Calibration(0.5, 1.009))
      else None
    case Bvp =>
      if device in PluxDevices then Some(Calibration(0.0, 0.190060606)) else None
    case _ => None
  }

  /** The units the module lists for each sensor. */
  function ListedUnits(sensor: Sensor): seq<Unit>
  {
    match sensor
    case Temp => [Ohm, Kelvin, Celsius]
    case Ecg | Emg => [MilliVolt, Volt]
    case Bvp | SpO2Arm | SpO2Head | SpO2Finger => [MicroAmpere, Ampere]
    case UnlistedSensor => []
  }

  /** The (sensor, device, unit) combinations that have a transfer function. */
  predicate Supported(sensor: Sensor, device: Device, unit: Unit)
  {
    unit in ListedUnits(sensor) &&
    match sensor
    case Temp =>
      device in PluxDevices || (unit == Celsius && device in BitalinoDevices)
    case Ecg | Emg | Bvp => LinearCalibration(sensor, device).Some?
    case SpO2Arm | SpO2Head | SpO2Finger => device in SpO2Devices
    case UnlistedSensor => false
  }

  /**
    The combinations that neither convert nor raise: a listed sensor other than
    TEMP asked for a unit it does not list.
   */
  predicate FallsThroughToNone(sensor: Sensor, unit: Unit)
  {
    sensor != Temp && sensor != UnlistedSensor && unit !in ListedUnits(sensor)
  }

  /**
    The samples for which the arithmetic is defined in exact arithmetic: on the
    thermistor path the divisor `2**resolution - raw` is non-zero, and for
    Kelvin and Celsius the resistance is positive (so its logarithm exists)
    and the Steinhart-Hart denominator is non-zero.
   */
  predicate SampleInDomain(log: real -> real, sensor: Sensor, device: Device, n: int, unit: Unit, x: int)
  {
    sensor == Temp && device in PluxDevices ==>
      (unit == Ohm ==> x as real != Pow2(n)) &&
      (unit == Kelvin || unit == Celsius ==>
         0 < x && x as real < Pow2(n) && SteinhartDenominator(log, ThermistorOhm(x, n)) != 0.0)
  }

  predicate SamplesInDomain(log: real -> real, sensor: Sensor, device: Device, raw: seq<int>, n: int, unit: Unit)
  {
    forall i :: 0 <= i < |raw| ==> SampleInDomain(log, sensor, device, n, unit, raw[i])
  }

  /**
    The physical value of one sample, written directly for each supported
    combination (no chaining through other units).
   */
  function SampleTransfer(log: real -> real, sensor: Sensor, device: Device, n: int, unit: Unit, x: int): real
    requires Supported(sensor, device, unit)
    requires SampleInDomain(log, sensor, device, n, unit, x)
  {
    match sensor
    case Temp =>
      if device !in PluxDevices then BitalinoCelsius(x, n)
      else if unit == Ohm then ThermistorOhm(x, n)
      else if unit == Kelvin then SteinhartKelvin(log, ThermistorOhm(x, n))
      else SteinhartKelvin(log, ThermistorOhm(x, n)) - ZeroCelsius
    case Ecg | Emg | Bvp =>
      var c := LinearCalibration(sensor, device).value;
      var base := LinearTransfer(x, n, c.offset, c.gain);
      if unit == Volt then base / 1000.0
      else if unit == Ampere then base * 1e-6
      else base
    case SpO2Arm | SpO2Head | SpO2Finger =>
      var base := SpO2MicroAmpere(SpO2Scale(sensor), x, n);
      if unit == Ampere then base * 1e-6 else base
  }

  // ---------------------------------------------------------------------------
  // raw_to_phy
  // ---------------------------------------------------------------------------

  /** How many derivation steps separate a unit from its primitive unit. */
  function DerivationDepth(unit: Unit): nat
  {
    match unit
    case Celsius => 2
    case Kelvin | Volt | Ampere => 1
    case _ => 0
  }

  /**
    What a conversion with an integer resolution `n` yields, stated against the
    reference table: it converts exactly the supported combinations, returns
    `None` exactly for the unlisted units of ECG, EMG, BVP and SpO2, raises the
    sensor error exactly for an unlisted sensor and the unit error exactly for an
    unlisted TEMP unit, never the resolution error (so every other raise is the
    device error), and a
    converted signal holds, sample by sample, the reference transfer value.
   */
  ghost predicate AgreesWithTable(log: real -> real, sensor: Sensor, device: Device, raw: seq<int>,
                                  n: int, unit: Unit, r: Outcome)
    requires SamplesInDomain(log, sensor, device, raw, n, unit)
  {
    && (r.Converted? <==> Supported(sensor, device, unit))
    && (r.ReturnedNone? <==> FallsThroughToNone(sensor, unit))
    && (r == Raised(UnsupportedSensor) <==> sensor == UnlistedSensor)
    && (r == Raised(UnsupportedUnit) <==> sensor == Temp && unit !in ListedUnits(Temp))
    && r != Raised(InvalidResolution)
    && (r.Converted? ==>
          |r.values| == |raw| &&
          forall i :: 0 <= i < |raw| ==> r.values[i] == SampleTransfer(log, sensor, device, n, unit, raw[i]))
  }

  /**
    The conversion as the module performs it: the resolution check first, then a
    cascade on the sensor (one function per sensor branch below), the unit and
    the device group; derived units call the conversion again for their
    primitive unit (Ohm -> K -> C, mV -> V, uA -> A).
   */
  function RawToPhy(log: real -> real, sensor: Sensor, device: Device, raw: seq<int>,
                    resolution: Resolution, unit: Unit): (r: Outcome)
    requires resolution.Bits? ==> SamplesInDomain(log, sensor, device, raw, resolution.n, unit)
    ensures resolution.NotAnInteger? ==> r == Raised(InvalidResolution)
    ensures resolution.Bits? ==> AgreesWithTable(log, sensor, device, raw, resolution.n, unit, r)
    decreases DerivationDepth(unit), 1
  {
    match resolution
    case NotAnInteger => Raised(InvalidResolution)
    case Bits(n) =>
      match sensor
      case Temp => TempToPhy(log, device, raw, n, unit)
      case Emg => EmgToPhy(log, device, raw, n, unit)
      case Ecg => EcgToPhy(log, device, raw, n, unit)
      case Bvp => BvpToPhy(log, device, raw, n, unit)
      case SpO2Arm | SpO2Head | SpO2Finger => SpO2ToPhy(log, sensor, device, raw, n, unit)
      case UnlistedSensor => Raised(UnsupportedSensor)
  }

  /** The TEMP branch: Ohm is primitive, K is computed from Ohm, C from K (PLUX) or directly (BITalino). */
  function TempToPhy(log: real -> real, device: Device, raw: seq<int>, n: int, unit: Unit): (r: Outcome)
    requires SamplesInDomain(log, Temp, device, raw, n, unit)
    ensures AgreesWithTable(log, Temp, device, raw, n, unit, r)
    decreases DerivationDepth(unit), 0
  {
    if unit == Ohm then
      if device in PluxDevices then
        Converted(seq(|raw|, i requires 0 <= i < |raw| => ThermistorOhm(raw[i], n)))
      else
        Raised(UnsupportedDevice)
    else if unit == Kelvin then
      // The module takes the logarithm of two identical Ohm conversions; one suffices.
      var ohm := RawToPhy(log, Temp, device, raw, Bits(n), Ohm);
      if ohm.Converted? then
        Converted(seq(|ohm.values|, i requires 0 <= i < |ohm.values| =>
          SteinhartKelvin(log, ohm.values[i])))
      else
        ohm
    else if unit == Celsius then
      if device in PluxDevices then
        MapValues(RawToPhy(log, Temp, device, raw, Bits(n), Kelvin), k => k - ZeroCelsius)
      else if device in BitalinoDevices then
        Converted(seq(|raw|, i requires 0 <= i < |raw| => BitalinoCelsius(raw[i], n)))
      else
        Raised(UnsupportedDevice)
    else
      Raised(UnsupportedUnit)
  }

  /** The EMG branch: mV with one gain per device group, V from mV. */
  function EmgToPhy(log: real -> real, device: Device, raw: seq<int>, n: int, unit: Unit): (r: Outcome)
    requires SamplesInDomain(log, Emg, device, raw, n, unit)
    ensures AgreesWithTable(log, Emg, device, raw, n, unit, r)
    decreases DerivationDepth(unit), 0
  {
    if unit == MilliVolt then
      if device in PluxDevices then
        Converted(seq(|raw|, i requires 0 <= i < |raw| => LinearTransfer(raw[i], n, 0.5, 1.0)))
      else if device in [Bitalino] then
        Converted(seq(|raw|, i requires 0 <= i < |raw| => LinearTransfer(raw[i], n, 0.5, 1.008)))
      else if device in [BitalinoRev, BitalinoRiot] then
        Converted(seq(|raw|, i requires 0 <= i < |raw| => LinearTransfer(raw[i], n, 0.5, 1.009)))
      else
        Raised(UnsupportedDevice)
    else if unit == Volt then
      MapValues(RawToPhy(log, Emg, device, raw, Bits(n), MilliVolt), mv => mv / 1000.0)
    else
      ReturnedNone
  }

  /** The ECG branch: mV with one gain per device group, V from mV. */
  function EcgToPhy(log: real -> real, device: Device, raw: seq<int>, n: int, unit: Unit): (r: Outcome)
    requires SamplesInDomain(log, Ecg, device, raw, n, unit)
    ensures AgreesWithTable(log, Ecg, device, raw, n, unit, r)
    decreases DerivationDepth(unit), 0
  {
    if unit == MilliVolt then
      if device in PluxDevices then
        Converted(seq(|raw|, i requires 0 <= i < |raw| => LinearTransfer(raw[i], n, 0.5, 1.019)))
      else if device in BitalinoDevices then
        Converted(seq(|raw|, i requires 0 <= i < |raw| => LinearTransfer(raw[i], n, 0.5, 1.1)))
      else
        Raised(UnsupportedDevice)
    else if unit == Volt then
      MapValues(RawToPhy(log, Ecg, device, raw, Bits(n), MilliVolt), mv => mv / 1000.0)
    else
      ReturnedNone
  }

  /** The BVP branch: uA for the PLUX devices, A from uA. */
  function BvpToPhy(log: real -> real, device: Device, raw: seq<int>, n: int, unit: Unit): (r: Outcome)
    requires SamplesInDomain(log, Bvp, device, raw, n, unit)
    ensures AgreesWithTable(log, Bvp, device, raw, n, unit, r)
    decreases DerivationDepth(unit), 0
  {
    if unit == MicroAmpere then
      if device in PluxDevices then
        Converted(seq(|raw|, i requires 0 <= i < |raw| => LinearTransfer(raw[i], n, 0.0, 0.190060606)))
      else
        Raised(UnsupportedDevice)
    else if unit == Ampere then
      MapValues(RawToPhy(log, Bvp, device, raw, Bits(n), MicroAmpere), ua => ua * 1e-6)
    else
      ReturnedNone
  }

  /** The SpO2 branch (three sites): uA scaled per site, A from uA. */
  function SpO2ToPhy(log: real -> real, sensor: Sensor, device: Device, raw: seq<int>, n: int, unit: Unit): (r: Outcome)
    requires sensor in [SpO2Arm, SpO2Head, SpO2Finger]
    requires SamplesInDomain(log, sensor, device, raw, n, unit)
    ensures AgreesWithTable(log, sensor, device, raw, n, unit, r)
    decreases DerivationDepth(unit), 0
  {
    var scale := SpO2Scale(sensor);
    if unit == MicroAmpere then
      if device in SpO2Devices then
        Converted(seq(|raw|, i requires 0 <= i < |raw| => SpO2MicroAmpere(scale, raw[i], n)))
      else
        Raised(UnsupportedDevice)
    else if unit == Ampere then
      MapValues(RawToPhy(log, sensor, device, raw, Bits(n), MicroAmpere), ua => ua * 1e-6)
    else
      ReturnedNone
  }

  // ---------------------------------------------------------------------------
  // generate_time
  // ---------------------------------------------------------------------------

  /**
    `numpy.linspace(start, stop, num)`: `num` evenly spaced values from `start`,
    the last one set to `stop` exactly.
   */
  function Linspace(start: real, stop: real, num: nat): (y: seq<real>)
    ensures |y| == num
    ensures num >= 1 ==> y[0] == start
    ensures num >= 2 ==> y[num - 1] == stop
    ensures num >= 2 ==>
      forall i :: 0 <= i < num ==> y[i] == start + (i as real) * ((stop - start) / ((num - 1) as real))
  {
    if num == 0 then []
    else if num == 1 then [start]
    else
      var step := (stop - start) / ((num - 1) as real);
      assert ((num - 1) as real) * step == stop - start;
      seq(num, i requires 0 <= i < num => if i == num - 1 then stop else start + (i as real) * step)
  }

  /** The time axis of a signal: `len(signal)` points from 0 to `len(signal) / sample_rate`. */
  function GenerateTime<T>(signal: seq<T>, sampleRate: real): (t: seq<real>)
    requires sampleRate != 0.0
    ensures |t| == |signal|
    ensures |t| >= 1 ==> t[0] == 0.0
    ensures |t| >= 2 ==> t[|t| - 1] == (|signal| as real) / sampleRate
    ensures |t| >= 2 ==>
      forall i :: 0 < i < |t| ==>
        t[i] - t[i - 1] == ((|signal| as real) / sampleRate) / ((|signal| - 1) as real)
  {
    var samples := |signal|;
    var endOfTime := (samples as real) / sampleRate;
    Linspace(0.0, endOfTime, samples)
  }
}
