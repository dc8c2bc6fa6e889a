# Tinymovr current pipeline and Hall sector decoder: a Dafny model

This project models two per-tick components of the Tinymovr motor-control
firmware and proves properties of them.

- **Hall sector decoder** (`firmware/src/encoder/hall.c`). Once per tick it
  reads a 3-bit sector code from GPIO port F (pins 2..4) and maps it through
  an 8-entry byte table to an angle. The table has a "calibrated" flag with
  three lifecycle operations: clear the table and the flag, mark the table
  calibrated, and restore a saved configuration. The module-static `config`
  and `state` records become the class `Hall.HallEncoder`. The table is a
  fixed 8-element `array<bv8>`, and the GPIO input word is a `bv32`
  parameter.
- **Current pipeline bookkeeping** (`firmware/src/adc/adc.c`). The per-tick
  `ADC_update` dispatches on the controller state:
  - CALIBRATE moves the three phase offsets by an exponential moving average,
    then falls through into the current filter.
  - CL_CONTROL only filters.
  - Any other state does neither.

  The filter subtracts the offsets and applies a common-mode-rejecting blend.
  The temperature estimate is recomputed in every state with 32-bit C integer
  arithmetic. Beside the update there are the B/C phase-swapping accessor,
  the config save/restore pair, and the split of the 10-bit overcurrent DAC
  value into its two register values. The module-static `adc_config` and
  `adc_state` become the class `Adc.AdcPipeline`.

Modules:

- `CInt` (cint.dfy) covers the C integer types used (`int16_t`, `uint16_t`,
  `int32_t`). It also defines narrowing to `int16_t`, and C99 division, which
  truncates toward zero (Dafny's `/` is Euclidean). Converting an
  out-of-range value to `int16_t` is implementation-defined in C99 (section
  6.3.1.3 of ISO/IEC 9899:1999); the model takes the usual two's-complement
  behaviour of keeping the value modulo 2^16. `Adc.McuTemp` and the -575 of
  `Adc.TempAtFactoryReadingAsWritten` depend on that choice.
- `Hall` (hall.dfy) is the sector decoder.
- `Adc` (adc.dfy) is the current pipeline.

Inputs from hardware and collaborators become parameters:

- the GPIO port F input word;
- the controller state;
- the "phases swapped" flag;
- the sequencer result slots (`Conversions`);
- the factory temperature-sensor reading stored in flash;
- the control period;
- the DAC value computed from the current limit.

Single-precision float arithmetic is modelled over `real`. Only algebraic and
ordering facts are claimed, nothing about rounding.

The build-time constants `SHUNT_SCALING_FACTOR` and `I_FILTER_K` are defined
in a firmware header outside this model. They are therefore constructor
parameters held in `const` fields. No blend property depends on a particular
weight.

Three facts of the code shape the model:

- The offset filter gain is computed only in `ADC_Init`, as
  `PWM_PERIOD_S / I_phase_offset_tau` (firmware/src/adc/adc.c:67).
  `ADC_restore_config` copies whatever gain the given record holds
  (firmware/src/adc/adc.c:276-279) and does not recompute it from the
  restored time constant.
- The reference temperature `FTTEMP` is the constant 27; the flash read
  `READ_UINT16(0x0010041E)` is commented out (firmware/src/adc/adc.c:266).
- `hall_get_sector_map_ptr` returns `uint8_t *`
  (firmware/src/encoder/hall.c:60), so the table entries are bytes, while
  `hall_get_angle` returns `int16_t` (firmware/src/encoder/hall.c:27). The
  decoded angle is therefore always in 0..255.

## Model

| member | source | states |
|---|---|---|
| `CInt.AsInt16` | firmware/src/adc/adc.c:268 | `(int16_t)` of a 16-bit value is congruent to it modulo 2^16 and equal to it below 0x8000 |
| `CInt.WrapInt16` | firmware/src/adc/adc.c:268 | narrowing a 32-bit result into the `int16_t` temperature keeps it modulo 2^16 and leaves in-range values unchanged |
| `CInt.CDiv` | firmware/src/adc/adc.c:268 | C `/`: the quotient's magnitude is the quotient of the magnitudes, and it is non-negative when dividend and divisor have the same sign and non-positive otherwise (truncation toward zero) |
| `CInt.CDivMultiple` | firmware/src/adc/adc.c:268 | C division of `m*d` by any nonzero `d` gives back `m`, whatever the sign of `d` |
| `Hall.SectorOf` | firmware/src/encoder/hall.c:34 | the sector extracted from the GPIO word is below 8 and equals `(w / 4) % 8` |
| `Hall.SectorIgnoresOtherPins` | firmware/src/encoder/hall.c:34 | code `s` on pins 2..4 decodes to `s` whatever the other 29 pins read |
| `Hall.HallEncoder.constructor` | firmware/src/encoder/hall.c:13-14 | zero-initialised records: cleared table, flag false, sector 0, angle 0 |
| `Hall.HallEncoder.GetAngle` | firmware/src/encoder/hall.c:27-30 | returns the stored angle and changes nothing |
| `Hall.HallEncoder.UpdateAngle` | firmware/src/encoder/hall.c:32-37 | new sector is `SectorOf(w)` (so in 0..7); new angle is the table entry at the new sector; the table and the flag are unchanged; `checkError` has no effect |
| `Hall.HallEncoder.GetSector` | firmware/src/encoder/hall.c:39-42 | returns the stored sector and changes nothing |
| `Hall.HallEncoder.ClearSectorMap` | firmware/src/encoder/hall.c:44-48 | all 8 entries become 0 and the flag false, whatever they were before; sector and angle unchanged |
| `Hall.HallEncoder.SetSectorMapCalibrated` | firmware/src/encoder/hall.c:50-53 | the flag becomes true; every table entry, the sector and the angle are unchanged |
| `Hall.HallEncoder.SectorMapIsCalibrated` | firmware/src/encoder/hall.c:55-58 | returns the stored flag and changes nothing |
| `Hall.HallEncoder.GetSectorMapPtr` | firmware/src/encoder/hall.c:60-63 | returns the table buffer itself, so writes through it change the configuration |
| `Hall.HallEncoder.GetConfig` | firmware/src/encoder/hall.c:65-68 | returns the current table contents and flag |
| `Hall.HallEncoder.RestoreConfig` | firmware/src/encoder/hall.c:70-73 | afterwards the configuration equals the restored record exactly; sector and angle unchanged |
| `Hall.Calibrate` | firmware/src/encoder/hall.c:44-63 | clear, fill through the raw pointer, then mark: the flag is true, the entries match what was written, and a tick on code `s` yields sector `s` and angle `entries[s]` |
| `Hall.ClearTwice` | firmware/src/encoder/hall.c:44-48 | clearing twice leaves the same configuration as clearing once |
| `Hall.SaveRestore` | firmware/src/encoder/hall.c:65-73 | `hall_get_config` after `hall_restore_config(c)` yields `c`, whatever changed in between |
| `Adc.EmaStep` | firmware/src/adc/adc.c:246-248 | one offset update shrinks the gap to the scaled sample by the factor `1 - k`; for `0 <= k <= 1` the new offset lies between the old offset and the sample |
| `Adc.CalibrationTicksGap` | firmware/src/adc/adc.c:246-248 | after `n` calibration ticks on a constant sample the remaining gap is `(1 - k)^n` times the initial gap |
| `Adc.CalibrationConverges` | firmware/src/adc/adc.c:246-248 | for `0 < k < 1`, each tick brings the offset strictly closer to a constant sample without reaching it, and each tick's change is `1 - k` times the previous one, so strictly smaller in magnitude |
| `Adc.CalibrationWithin` | firmware/src/adc/adc.c:246-248 | for `0 < k < 1`, the offset converges to a constant sample: for every tolerance `eps > 0` some tick count brings it within `eps` of the sample |
| `Adc.TicksNeverReach` | firmware/src/adc/adc.c:246-248 | with a gain below 1, an offset that starts away from a constant sample never reaches it |
| `Adc.TickCloser` | firmware/src/adc/adc.c:246-248 | one update with `0 < k < 1` strictly narrows a nonzero gap to the sample without closing it |
| `Adc.CalibratedOffsets` | firmware/src/adc/adc.c:246-248 | each phase's gap to its scaled offset sample shrinks by `1 - k`; for `0 <= k <= 1` each new offset lies between the old offset and the sample |
| `Adc.PhaseCurrents` | firmware/src/adc/adc.c:252-254 | the raw currents sum to the scaled sample sum minus the offset sum; samples sitting exactly on the offsets give zero current |
| `Adc.FilteredCurrents` | firmware/src/adc/adc.c:252-257 | the filter output sums to `1 - 3k` times the raw currents' sum; samples sitting exactly on the offsets give zero output |
| `Adc.DeltaShrinks` | firmware/src/adc/adc.c:246-248 | two consecutive offset updates toward one sample: the second change is `1 - k` times the first |
| `Adc.Blend` | firmware/src/adc/adc.c:255-257 | the outputs sum to `(1 - 3k)` times the inputs' sum; a balanced triple passes unchanged; equal inputs `x` give `(1 - 3k) * x` in each phase |
| `Adc.FilterAtRest` | firmware/src/adc/adc.c:252-257 | zero current samples with zero offsets filter to (0, 0, 0) for every weight |
| `Adc.TempNumerator` | firmware/src/adc/adc.c:267-268 | `(FTTEMP + 273) * (temp_val * 100 + 12288)` fits in 32 bits and is positive for every 16-bit reading |
| `Adc.TempDenominator` | firmware/src/adc/adc.c:268 | `(int16_t)TTEMPS * 100 + 12288` fits in 32 bits, is never zero, and is positive exactly when `(int16_t)TTEMPS > -123` |
| `Adc.TempRaw` | firmware/src/adc/adc.c:267-268 | the 32-bit result of the formula is at least -273 when the divisor is positive and at most -273 when it is negative |
| `Adc.McuTemp` | firmware/src/adc/adc.c:268 | the stored `int16_t` estimate agrees with the 32-bit result modulo 2^16, and equals it when the result fits |
| `Adc.TempAtFactoryReadingAsWritten` | firmware/src/adc/adc.c:267-268 | the live reading is read unsigned and the factory reading as `int16_t`, so equal readings of 0x8000 give -575, not 27 |
| `Adc.TempAtFactoryReadingWraps` | firmware/src/adc/adc.c:262-268 | equal readings of 0xFF85 give a 32-bit result of -163839973, which the `int16_t` store wraps to 27 |
| `Adc.TempAtFactoryReading` | firmware/src/adc/adc.c:262-268 | with C truncating division, a live reading equal to a factory reading below 0x8000 gives exactly 27 |
| `Adc.TempRawMonotone` | firmware/src/adc/adc.c:268 | with a positive divisor, the 32-bit temperature does not fall as the live reading rises |
| `Adc.LpdacSplit` | firmware/src/adc/adc.c:107-109 | the low part is at most 3, and `high * 4 + low` rebuilds the DAC value's low ten bits |
| `Adc.LpdacSplitExact` | firmware/src/adc/adc.c:107-109 | a DAC value below 1024 is rebuilt exactly from its two parts |
| `Adc.AdcPipeline.constructor` | firmware/src/adc/adc.c:56-63 | the initial config has zero offsets, limit 60, time constant 0.2 and gain 0; the state is zero |
| `Adc.AdcPipeline.Init` | firmware/src/adc/adc.c:65-109 | the gain becomes `PWM_PERIOD_S / tau` and nothing else in the config changes; the two DAC register values are `LpdacSplit` of the DAC value |
| `Adc.AdcPipeline.GetMcuTemp` | firmware/src/adc/adc.c:220-223 | returns the stored temperature and changes nothing |
| `Adc.AdcPipeline.GetPhaseCurrents` | firmware/src/adc/adc.c:225-238 | A is passed through; when swapped, B and C are the stored C and B; otherwise the stored triple; nothing is modified |
| `Adc.AdcPipeline.Update` | firmware/src/adc/adc.c:240-269 | CALIBRATE: offsets become `EmaStep` of the scaled offset samples, then currents are filtered from the new offsets. CL_CONTROL: offsets unchanged, currents refiltered. Other states: neither changes. The rest of the config is unchanged, and the temperature is recomputed in every state |
| `Adc.AdcPipeline.UpdateOffsets` | firmware/src/adc/adc.c:244-249 | each phase offset takes one EMA step toward its scaled offset sample; the rest of the config and the state are unchanged |
| `Adc.AdcPipeline.FilterCurrents` | firmware/src/adc/adc.c:250-258 | the stored currents are the blend of the offset-corrected samples; config and temperature unchanged |
| `Adc.AdcPipeline.GetConfig` | firmware/src/adc/adc.c:271-274 | returns the current config record |
| `Adc.AdcPipeline.RestoreConfig` | firmware/src/adc/adc.c:276-279 | the config becomes the given record exactly, stored gain included; currents and temperature unchanged |
| `Adc.PresentationRoundTrip` | firmware/src/adc/adc.c:225-238 | swapping the accessor's result back gives the stored triple: the accessor is a presentation step |
| `Adc.SaveRestore` | firmware/src/adc/adc.c:271-279 | `ADC_get_config` after `ADC_restore_config(c)` yields `c`, gain included, whatever an update did in between |

## Left out

- Register bring-up in `ADC_Init` (firmware/src/adc/adc.c:68-106 and 110-161) and `ADC_AIO_Init` (firmware/src/adc/adc.c:164-175) is left out. It writes fixed values, and clears the status and fault registers when a read finds bits set (firmware/src/adc/adc.c:72-75, 127-130), all through the chip's register-access calls, whose code is not part of this model. The computed DAC writes at firmware/src/adc/adc.c:107-109 are modelled by `Adc.AdcPipeline.Init`.
- `ADC_DTSE_Init` (firmware/src/adc/adc.c:177-218), the sequencer and trigger setup, is left out. What each result slot holds is taken as given in `Conversions`.
- Interrupt priority and enable (firmware/src/adc/adc.c:155-156) are left out, and so is the fact that `ADC_update` runs in interrupt context. The model has no concurrency.
- `hall_init` (firmware/src/encoder/hall.c:16-25) is left out: GPIO mode setup, SPI setup, a 16 ms delay and a sensor register write over SPI.
- The flash read of the factory temperature-sensor reading (firmware/src/adc/adc.c:264) is a parameter.
- The register width of the sequencer result fields is not part of this model. Readings are taken as 16-bit unsigned values. The 32-bit no-overflow facts of the temperature formula are proved for that range.
- IEEE-754 rounding in the gain, the EMA and the blend (firmware/src/adc/adc.c:67, 246-257) is not modelled. These are over `real`.
- The float-to-`uint16_t` conversion producing the DAC value (firmware/src/adc/adc.c:107) is not modelled. The DAC value is an input of `Init`.
- `Adc.AdcPipeline.Init` requires a nonzero time constant. In C a zero divisor would give an infinite float gain, which this model has no value for. Nothing in the modelled code keeps the time constant nonzero: `ADC_restore_config` copies any value (firmware/src/adc/adc.c:278) and `ADC_Init` divides by it (firmware/src/adc/adc.c:67). The model assumes callers never pass a zero time constant.
- `Adc.AdcPipeline.GetConfig` returns a copy of the record, while the C function returns a pointer to the live record through which callers may write. Writes through that pointer are not modelled, except through `RestoreConfig`. In `Adc.SaveRestore` the save step stands for copying the record the pointer points to; keeping only the pointer and restoring through it after an update would restore the updated record, a no-op. The Hall table pointer is modelled: `GetSectorMapPtr` returns the buffer itself.
- `Hall.HallEncoder.GetConfig` returns a copy of the record, while the C function returns a pointer to the live record. Writes to the table go through `GetSectorMapPtr`, which is modelled. In `Hall.SaveRestore` the save step stands for copying the record the pointer points to; through the pointer alone, the clear in between would also be seen and the restore would be a no-op.
- `Adc.TempAtFactoryReading`: the fixed point 27 holds only for factory readings below 0x8000. The live reading enters the formula unsigned (`(int32_t)` of the register value) but the factory reading enters it as `(int16_t)TTEMPS` (firmware/src/adc/adc.c:267-268), so from 0x8000 on the quotient is no longer the exact ratio that yields 27. `Adc.TempAtFactoryReadingAsWritten` shows -575 for 0x8000; `Adc.TempAtFactoryReadingWraps` shows that 0xFF85 still gives 27, but only because the 32-bit result -163839973 wraps to 27 when stored into `int16_t`.
- The sector-jump plausibility check (firmware/src/encoder/hall.c:35) is only a comment in the code, so it is not modelled.
- The values of the controller's state enumeration are not part of this model. Every state other than CALIBRATE and CL_CONTROL is the single `Other` state, which is all `ADC_update` distinguishes.
- Whether common-mode signals are attenuated relative to balanced ones depends on the value of `I_FILTER_K`, which is not part of this model. `Adc.Blend` proves the two gains, 1 for a balanced triple and `1 - 3k` for a common-mode triple, for every weight.
