# biosignalsnotebooks unit conversion, in Dafny

This project models the `conversion` module of biosignalsnotebooks:

- `raw_to_phy` turns the integer codes of an acquisition device's ADC into physical units. It chooses a transfer function by sensor (ECG, EMG, TEMP, BVP, SpO2 at arm, head or finger), by device (the PLUX devices, the BITalino devices) and by output unit (mV, V, Ohm, K, C, uA, A).
- `generate_time` builds the time axis of a signal.

Derived units call the conversion again for their primitive unit: Ohm to K to C, mV to V, uA to A.

The model lives in two modules:

- `Conversion` (`conversion.dfy`) holds the tags, the constants and the transfer functions. It holds `RawToPhy`, whose cascade follows the module's `if`/`elif` chain one sensor branch per function, with the same recursive calls. It also holds `GenerateTime`, over a model of `numpy.linspace`.
- `ConversionProperties` (`conversion_properties.dfy`) holds the lemmas.

`RawToPhy` is proved against an independent reference table, `AgreesWithTable`. The table has three parts:

- `Supported`: which (sensor, device, unit) combinations convert.
- `FallsThroughToNone`: which combinations yield `None`.
- `SampleTransfer`: the value of one sample, written directly for each combination with no chaining.

Modelling choices:

- The string tags become datatypes. Each has an unlisted case for every other string, and `Label()` gives the exact string the module compares against. For an unlisted case `Label()` gives the empty string, which is only a placeholder for "any other string" and is never compared against.
- Samples are integers, and physical values are exact rationals (`real`).
- `2 ** resolution` is `Pow2`. For a negative integer resolution it gives the fraction Python gives.
- The natural logarithm `numpy.log` is a parameter `log` of the conversion.
- A raised `RuntimeError` is `Raised(error)`, and `error.Message()` gives its text.
- The `None` that some branches fall through to is `ReturnedNone`.

## Model

| member | source | states |
|---|---|---|
| `Conversion.ParseSensor` | biosignalsnotebooks/build/lib/biosignalsnotebooks/conversion.py:84-178 | a listed sensor is selected only by its exact string |
| `Conversion.ParseDevice` | biosignalsnotebooks/build/lib/biosignalsnotebooks/conversion.py:86-188 | a listed device is selected only by its exact string, as in the device lists and membership tests of every branch (lines 86-88, 90, 104-107, 116-128, 141-149, 162-166, 179-188) |
| `Conversion.ParseUnit` | biosignalsnotebooks/build/lib/biosignalsnotebooks/conversion.py:89-174 | a listed unit is selected only by its exact string |
| `Conversion.Pow2` | biosignalsnotebooks/build/lib/biosignalsnotebooks/conversion.py:91 | `2**resolution` is positive for every integer resolution, so every division by it is defined |
| `Conversion.ConversionError.Message` | biosignalsnotebooks/build/lib/biosignalsnotebooks/conversion.py:81-200 | every raised error carries a non-empty `RuntimeError` text; the exact texts are stated by `ErrorMessages` |
| `Conversion.LinearTransfer` | biosignalsnotebooks/build/lib/biosignalsnotebooks/conversion.py:134 | the linear transfer `(raw*vcc/2^res - vcc*offset)/gain` used at lines 134, 155 and 172: the ADC input voltage `raw*vcc/2^res` is recovered as `r*gain + vcc*offset`, and code 0 maps to `-vcc*offset/gain` |
| `Conversion.ThermistorOhm` | biosignalsnotebooks/build/lib/biosignalsnotebooks/conversion.py:91 | the thermistor resistance satisfies the voltage-divider relation `R*(2^res - raw) = 1e4*raw`; it is 0 at code 0 and non-negative for codes in `[0, 2^res)` |
| `Conversion.SteinhartDenominator` | biosignalsnotebooks/build/lib/biosignalsnotebooks/conversion.py:96-102 | the Steinhart-Hart denominator `a0 + a1 ln R + a2 (ln R)^3` is at least `a0 > 0` whenever `ln R >= 0`, since all three coefficients are positive |
| `Conversion.SteinhartKelvin` | biosignalsnotebooks/build/lib/biosignalsnotebooks/conversion.py:96-102 | the temperature in K is the reciprocal of the Steinhart-Hart denominator, and positive where the denominator is |
| `Conversion.BitalinoCelsius` | biosignalsnotebooks/build/lib/biosignalsnotebooks/conversion.py:108 | the BITalino temperature front end: the input voltage `raw*vcc/2^res` is recovered as `C/100 + 0.5`, and code 0 reads -50 degrees |
| `Conversion.SpO2MicroAmpere` | biosignalsnotebooks/build/lib/biosignalsnotebooks/conversion.py:189 | the SpO2 current is proportional to the code, `uA*2^res = scale*raw`, and is 0 at code 0 |
| `Conversion.SpO2Scale` | biosignalsnotebooks/build/lib/biosignalsnotebooks/conversion.py:181-185 | the scale factor is positive; it is 1.2 exactly for the arm and finger sites and 0.15 exactly for the head |
| `Conversion.LinearCalibration` | biosignalsnotebooks/build/lib/biosignalsnotebooks/conversion.py:120-172 | the reference calibration table for ECG, EMG and BVP (offset, gain) has only positive gains |
| `Conversion.MapValues` | biosignalsnotebooks/build/lib/biosignalsnotebooks/conversion.py:137-138 | an element-wise operation on a converted array keeps its length and maps each value; an error passes through unchanged |
| `Conversion.RawToPhy` | biosignalsnotebooks/build/lib/biosignalsnotebooks/conversion.py:77-202 | a non-integer resolution raises first, whatever else is passed; with an integer resolution the result agrees with the reference table: it converts exactly the supported combinations, with one value per sample equal to the reference transfer value; it returns None exactly for an unlisted unit of ECG/EMG/BVP/SpO2; it raises the sensor error exactly for an unlisted sensor and the unit error exactly for an unlisted TEMP unit; it never raises the resolution error; every other outcome is the device error |
| `Conversion.TempToPhy` | biosignalsnotebooks/build/lib/biosignalsnotebooks/conversion.py:84-113 | the TEMP branch, with K computed from the Ohm call and C from the K call, agrees with the reference table |
| `Conversion.EmgToPhy` | biosignalsnotebooks/build/lib/biosignalsnotebooks/conversion.py:115-138 | the EMG branch agrees with the reference table |
| `Conversion.EcgToPhy` | biosignalsnotebooks/build/lib/biosignalsnotebooks/conversion.py:140-159 | the ECG branch agrees with the reference table |
| `Conversion.BvpToPhy` | biosignalsnotebooks/build/lib/biosignalsnotebooks/conversion.py:161-176 | the BVP branch agrees with the reference table |
| `Conversion.SpO2ToPhy` | biosignalsnotebooks/build/lib/biosignalsnotebooks/conversion.py:178-196 | the SpO2 branch agrees with the reference table |
| `Conversion.Linspace` | biosignalsnotebooks/build/lib/biosignalsnotebooks/conversion.py:228 | `num` values; the first is `start` and the last is `stop`; the values form the arithmetic progression of step `(stop-start)/(num-1)` |
| `Conversion.GenerateTime` | biosignalsnotebooks/build/lib/biosignalsnotebooks/conversion.py:224-230 | one time per sample; the first is 0, the last is `len/sample_rate`, and consecutive times differ by `(len/sample_rate)/(len-1)` |
| `ConversionProperties.LabelsParseBack` | biosignalsnotebooks/build/lib/biosignalsnotebooks/conversion.py:84-178 | every listed sensor, device and unit string selects its own tag |
| `ConversionProperties.NonIntegerResolutionRaisesFirst` | biosignalsnotebooks/build/lib/biosignalsnotebooks/conversion.py:79-81 | a non-integer resolution raises the resolution error for every sensor, device, signal and unit |
| `ConversionProperties.ErrorMessages` | biosignalsnotebooks/build/lib/biosignalsnotebooks/conversion.py:81-200 | the exact texts of the four `RuntimeError`s: resolution (line 81), device (lines 93-94, also 110-111, 132-133, 153-154, 170-171, 191-192), unit (line 113) and sensor (lines 199-200) |
| `ConversionProperties.MessagesIdentifyError` | biosignalsnotebooks/build/lib/biosignalsnotebooks/conversion.py:81-200 | two different errors never share a text, so the message tells which argument was refused |
| `ConversionProperties.UnlistedSensorRaises` | biosignalsnotebooks/build/lib/biosignalsnotebooks/conversion.py:198-200 | an unlisted sensor raises the sensor error for every device and unit |
| `ConversionProperties.UnlistedUnitReturnsNone` | biosignalsnotebooks/build/lib/biosignalsnotebooks/conversion.py:83-202 | for ECG, EMG, BVP and SpO2 an unlisted unit returns None for every device, neither raising nor converting |
| `ConversionProperties.EcgMilliVolt` | biosignalsnotebooks/build/lib/biosignalsnotebooks/conversion.py:144-155 | ECG in mV is `(raw*3.0/2^res - 3.0*0.5)/gain` sample by sample, with gain 1.019 on the seven PLUX devices and 1.1 on the three BITalino devices; any other device raises the device error |
| `ConversionProperties.EmgMilliVolt` | biosignalsnotebooks/build/lib/biosignalsnotebooks/conversion.py:120-134 | EMG in mV has the same formula with gain 1 (PLUX), 1.008 (bitalino) or 1.009 (bitalino_rev, bitalino_riot); any other device raises |
| `ConversionProperties.LinearTransferIncreasing` | biosignalsnotebooks/build/lib/biosignalsnotebooks/conversion.py:134 | with a positive gain the linear transfer function is strictly increasing in the code |
| `ConversionProperties.PrimaryUnitStrictlyIncreasing` | biosignalsnotebooks/build/lib/biosignalsnotebooks/conversion.py:120-172 | ECG and EMG in mV and BVP in uA are strictly increasing in the raw code |
| `ConversionProperties.LinearTransferMidscale` | biosignalsnotebooks/build/lib/biosignalsnotebooks/conversion.py:134 | with offset 0.5 the code `2**(res-1)` maps to 0 |
| `ConversionProperties.MidscaleIsZeroMilliVolt` | biosignalsnotebooks/build/lib/biosignalsnotebooks/conversion.py:120-155 | in an ECG or EMG mV conversion, the code `2**(res-1)` is 0 mV |
| `ConversionProperties.VoltIsMilliVoltOverThousand` | biosignalsnotebooks/build/lib/biosignalsnotebooks/conversion.py:136-159 | ECG/EMG in V is the mV conversion divided by 1000 sample by sample, and it inherits every error of the mV call |
| `ConversionProperties.BvpMicroAmpere` | biosignalsnotebooks/build/lib/biosignalsnotebooks/conversion.py:161-172 | BVP in uA is defined only on the PLUX devices, with offset 0 and gain 0.190060606, so code 0 is 0 uA; other devices raise |
| `ConversionProperties.SpO2MicroAmpereBySite` | biosignalsnotebooks/build/lib/biosignalsnotebooks/conversion.py:178-192 | SpO2 in uA is `scale*(raw/2^res)`, with scale 1.2 for the arm and finger and 0.15 for the head; it is defined only on channeller, biosignalsplux and swifter, and other devices raise |
| `ConversionProperties.AmpereIsMicroAmpereScaled` | biosignalsnotebooks/build/lib/biosignalsnotebooks/conversion.py:174-196 | BVP/SpO2 in A is the uA conversion times 1e-6 sample by sample, and it inherits every error of the uA call |
| `ConversionProperties.TempRaises` | biosignalsnotebooks/build/lib/biosignalsnotebooks/conversion.py:89-113 | for every signal, TEMP raises the unit error for a unit other than Ohm, K and C; it raises the device error for Ohm or K off the PLUX devices, and for C off both device groups |
| `ConversionProperties.TempOhm` | biosignalsnotebooks/build/lib/biosignalsnotebooks/conversion.py:89-91 | TEMP in Ohm is `1e4*raw/(2^res - raw)` sample by sample on the PLUX devices |
| `ConversionProperties.KelvinFromOhm` | biosignalsnotebooks/build/lib/biosignalsnotebooks/conversion.py:95-102 | TEMP in K takes each resistance R of the Ohm call (R > 0) to `1/(a0 + a1 ln R + a2 (ln R)^3)`; a device that the Ohm call rejects (BITalino, unlisted) is rejected for K with the same error |
| `ConversionProperties.CelsiusIsKelvinMinusOffset` | biosignalsnotebooks/build/lib/biosignalsnotebooks/conversion.py:103-106 | on the PLUX devices TEMP in C is the K conversion minus 273.15 sample by sample |
| `ConversionProperties.CelsiusChain` | biosignalsnotebooks/build/lib/biosignalsnotebooks/conversion.py:89-106 | on the PLUX devices each C sample is the Steinhart-Hart temperature of the thermistor resistance of its code, minus 273.15 |
| `ConversionProperties.BitalinoCelsiusDirect` | biosignalsnotebooks/build/lib/biosignalsnotebooks/conversion.py:107-108 | on the BITalino devices TEMP in C is `((raw/2^res)*3.0 - 0.5)*100`, not derived from K, so code 0 is -50 degrees |
| `ConversionProperties.EcgBiopluxTwelveBits` | biosignalsnotebooks/build/lib/biosignalsnotebooks/conversion.py:144-155 | ECG on a bioplux at 12 bits maps codes 0, 2048 and 4095 to -1.5/1.019, exactly 0 and (4095*3/4096 - 1.5)/1.019 mV |
| `ConversionProperties.RejectedCombinations` | biosignalsnotebooks/build/lib/biosignalsnotebooks/conversion.py:79-155 | TEMP in V raises the unit error; ECG on an unlisted device raises the device error; a non-integer resolution raises the resolution error |
| `ConversionProperties.LinspaceIncreasing` | biosignalsnotebooks/build/lib/biosignalsnotebooks/conversion.py:228 | `linspace` from a smaller start to a larger stop is strictly increasing |
| `ConversionProperties.TimeAxisStrictlyIncreasing` | biosignalsnotebooks/build/lib/biosignalsnotebooks/conversion.py:224-230 | with a positive sampling rate the time axis is strictly increasing |
| `ConversionProperties.TimeAxisSpacingExceedsSamplePeriod` | biosignalsnotebooks/build/lib/biosignalsnotebooks/conversion.py:225-228 | the axis ends one sample period after `(len-1)/sample_rate`, so its spacing is larger than `1/sample_rate` |
| `ConversionProperties.ThousandSamplesAtThousandHertz` | biosignalsnotebooks/build/lib/biosignalsnotebooks/conversion.py:224-230 | 1000 samples at 1000 Hz give 1000 times from 0 s to 1 s, spaced 1/999 s apart |

## Left out

- Conversion.RawToPhy: on the thermistor path the requires excludes samples that the exact model cannot convert, though numpy returns a value (with at most a `RuntimeWarning`) instead of raising. For Ohm this is a code equal to `2**res`, where numpy gives `inf`. For K and C it is every code outside `(0, 2**res)` and every zero Steinhart-Hart denominator. At codes 0 and `2**res` numpy passes through an infinite logarithm (`log(0) = -inf`, `log(inf) = inf`) and returns the finite values -0.0 or 0.0 K, that is -273.15 C; the `log` parameter, a function on reals, cannot express an infinite logarithm. Codes below 0 or above `2**res` give a negative resistance and `nan`, and a zero denominator gives `inf`; those IEEE-754 values are not modelled either.
- Conversion.Pow2: `2**resolution` is exact for every integer resolution. In Python it is an integer that meets numpy arrays: the integer array of line 77 at lines 91, 108 and 189, and the float array `raw_signal * vcc` at lines 134, 155 and 172. Once it leaves numpy's int64 range (at 91, 108 and 189) or float64 range (at 134, 155 and 172), numpy raises `OverflowError` or changes dtype, depending on its version; the model computes exactly there.
- Conversion.GenerateTime: a zero sample rate is excluded by a requires. Python raises `ZeroDivisionError` there, and that exception is not modelled. Negative rates are allowed, as in the source.
- Floating-point rounding in general: every value is an exact rational. The equalities proved hold for the exact arithmetic that the float computation approximates.
- The logarithm itself is not modelled. `log` is a parameter, and the lemmas only say how K is composed from it.
- The module computes the logarithm of two identical Ohm conversions in the K branch. The model computes one, which gives the same result for a pure conversion.
- The `numpy.array` conversion of the input list (conversion.py:77). Inputs are sequences of integer codes; lists holding floats are not modelled.
- Python treats `True`/`False` as integers, so they pass the resolution check. The model's `Bits(n)` covers them as 1/0 and does not single them out.
- Sensor, device and unit strings outside the listed ones are each collapsed into one unlisted case. The SpO2 site test `"ARM" in sensor` runs only after the exact membership test, so it reduces to the three exact tags.
- The rest of the repository is not part of this model: plotting and notebook glue in `__notebook_support__.py`, and the re-exports in `__init__.py`.

The docstring of `raw_to_phy` (conversion.py:70) says that a unit that does not apply raises a warning. The code does that only for TEMP and for an unlisted sensor. For ECG, EMG, BVP and SpO2 an unlisted unit returns `None`, and the model follows the code.
