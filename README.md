# chowfan: a verified model of a ThinkPad fan-control daemon

The repository holds two variants of one daemon. Each one reads the
temperatures printed by the `sensors` tool and drives the fan through
`/proc/acpi/ibm/fan`, one level (0 to 7) at a time.

- **chowfan.py** (module `FanControl`) is the newer variant.
  - A `FanController` remembers the fan level. It clamps every request into
    `[0, 7]` and writes to the device only when the level changes.
  - It can resynchronise its level from the fan's observed RPM through the
    `SPEED_MAP` calibration table.
  - A `ChowFan` loop filters the readings, takes their mean, and applies a
    hysteresis rule. The level steps up when it is hot and rising. It steps
    down when it is below the threshold and not rising. It holds exactly at
    the threshold.
- **chofwan.py** (module `LegacyFanControl`) is the older variant.
  - Its `ChowFanController` takes the hottest kept reading.
  - It steps the speed up when hot and below the maximum, and otherwise steps
    it down. This includes being hot at the maximum.
  - On every iteration that got a non-zero reading it rewrites the device,
    but only when the new speed is in `range(8)`; a speed outside it is
    kept without a write.

Shared parts:

- `SensorsOutput` is the text handling of one `sensors` line. It covers the
  temperature pattern `\+([0-9]+\.[0-9])°C`, the speed pattern
  `([0-9]+) RPM`, `str.startswith` and `str.strip`. The patterns are decided
  directly, with the leftmost-match rule of `re.search`.
- `TempFilter` is the `ignore_next` filter, which both files repeat, plus the
  max and mean reductions.
  - An ignored sensor's header line suppresses exactly the next reading. That
    reading may be on the header line itself.
  - Readings are integer tenths of a degree, because the pattern captures
    exactly one decimal digit. Thresholds are `max_temp * 10`.

Device writes are appended to a ghost `deviceLog`. One loop iteration of each
daemon is a `Tick` method.

## Behaviour worth knowing

- chowfan.py decides whether to write by comparing with the level just
  resynchronised from RPM, not with the level last written.
- `prev_temp` is seeded once, from the maximum reading, before the loop. Each
  iteration then stores its mean there. No iteration is spent only on seeding.
- Nothing switches the fan back to automatic mode on exit. `set_level('auto')`
  raises `TypeError` inside `min`.
- In chowfan.py an empty reading list does not hold the level. Its mean is
  `None`, and comparing it raises. In chofwan.py a missing reading and a
  reading of exactly 0.0 are both skipped.
- A sensor is excluded through its header line: the flag it sets drops the
  next reading, whatever that reading's own label says.

## Model

| member | source | states |
|---|---|---|
| SensorsOutput.DecimalValue | chowfan.py:43 | `int()` of the captured digits: a leading zero does not change the value |
| SensorsOutput.DigitRunEnd | chowfan.py:89 | the greedy `[0-9]+` run: every character it covers is a digit and the next one is not |
| SensorsOutput.TempFromIsLeftmost | chowfan.py:89-95 | the temperature search returns the capture at the leftmost matching position, and None only when no position matches |
| SensorsOutput.RpmFromIsLeftmost | chowfan.py:36-43 | the speed search returns the capture at the leftmost matching position, and None only when no position matches |
| SensorsOutput.StripIsTrim | chowfan.py:93 | `strip()` yields a contiguous slice with only whitespace removed around it and none left at its ends |
| SensorsOutput.TempMatch | chowfan.py:95 | `re.search` of the temperature pattern: the reading at the leftmost matching position, None only when no position matches |
| SensorsOutput.RpmMatch | chowfan.py:40 | `re.search` of the speed pattern: the RPM at the leftmost matching position, None only when no position matches |
| SensorsOutput.Strip | chowfan.py:93 | `strip()` never lengthens the line and leaves no whitespace at either end |
| SensorsOutput.StartsWith | chowfan.py:39 | `str.startswith`: true exactly when the line is the prefix followed by some rest |
| SensorsOutput.TempOfCoreLine | chowfan.py:89-99 | on a `sensors` core line the first reading (45.0 °C = 450 tenths) is taken, not the critical limit after it |
| SensorsOutput.RpmOfFanLine | chowfan.py:36-43 | on `fan1: 2000 RPM` the capture is 2000; the digit in the fan's name does not match |
| SensorsOutput.NoRpmWithoutUnit | chowfan.py:40-41 | a line on which ` RPM` never occurs has no speed match, whatever digits it holds |
| SensorsOutput.NoRpmOnBareFanLine | chowfan.py:40-41 | the bare line `fan1:` has no speed match |
| TempFilter.IgnoreNext | chowfan.py:90-101 | the flag is up only after some ignored header line, and never right after a line that carried a reading |
| TempFilter.KeptTemps | chowfan.py:90-101 | at most one reading is kept per line |
| TempFilter.FilterStep | chowfan.py:92-100 | one loop iteration: the flag after the line and the reading appended, in terms of the flag before it |
| TempFilter.KeptTempsIsSubsequence | chowfan.py:90-101 | the kept readings are the matched readings in line order with some removed |
| TempFilter.KeptTempsBound | chowfan.py:90-101 | never more kept readings than lines carrying a temperature |
| TempFilter.KeptAllWithoutHeaders | chowfan.py:93-99 | without an ignored header line, the flag stays down and every matched reading is kept |
| TempFilter.KeptAllWithEmptyIgnoreList | chowfan.py:83 | with the initial empty `ignore_sensors`, every matched reading is kept |
| TempFilter.IgnoreNextIff | chowfan.py:91-100 | the flag is up exactly when an ignored header has not yet been followed by a reading |
| TempFilter.DropsLineIff | chowfan.py:93-100 | a reading is dropped exactly when an ignored header at or before its line precedes it with no reading in between |
| TempFilter.MaxOf | chowfan.py:105-107 | None exactly for no readings; otherwise a kept reading at least as large as every kept reading |
| TempFilter.Sum | chowfan.py:113 | `sum(temps)` computed from the right equals the left-to-right sum Python performs |
| TempFilter.Mean | chowfan.py:111-113 | None exactly for no readings; otherwise a value between the smallest and the largest kept reading |
| FanControl.LimitLevel | chowfan.py:55-58 | result in `[0, 7]`, equal to the input when in range, and the in-range level nearest to the input |
| FanControl.SpeedMapCalibration | chowfan.py:10-19 | `SPEED_MAP` lists levels 0 to 7 once each, in order, with strictly rising RPM bounds starting at 0 |
| FanControl.LevelFor | chowfan.py:49-53 | the resynchronised level is a table level or the fallback |
| FanControl.LevelForFirstFit | chowfan.py:49-53 | the level chosen is that of the first entry whose bound is at least the RPM |
| FanControl.LevelForNoFit | chowfan.py:49 | with no entry's bound reaching the RPM, the fallback level is chosen |
| FanControl.LevelForMonotone | chowfan.py:49-53 | with ascending levels, a higher RPM never gives a lower level |
| FanControl.LevelForRpm | chowfan.py:10-19 | the resynchronised level always lies in `[0, 7]` |
| FanControl.LevelForStoppedFan | chowfan.py:11 | 0 RPM resynchronises to level 0 |
| FanControl.LevelForRpmBand | chowfan.py:10-19 | an RPM within a level's band of `SPEED_MAP` resynchronises to that level |
| FanControl.LevelForFastFan | chowfan.py:18 | above 4500 RPM the level is 7 |
| FanControl.LevelForRpmMonotone | chowfan.py:10-19 | a faster fan never resynchronises to a lower level |
| FanControl.FanRpm | chowfan.py:37-45 | a speed is returned only when it is the speed match of a line starting with the fan's name |
| FanControl.FanRpmFirstFanLine | chowfan.py:38-44 | the answer is the speed match of the first line starting with the fan's name, whatever later lines show |
| FanControl.FanRpmNoFanLine | chowfan.py:37-45 | with no line starting with the fan's name, the answer is None |
| FanControl.FanRpmStopsAtFirstFanLine | chowfan.py:39-44 | a bare `fan1:` line yields None even though the next line shows 2000 RPM |
| FanControl.HysteresisLevel | chowfan.py:124-130 | level stays in `[0, 7]` and moves at most 1; it rises exactly when hot, rising and below 7; it falls exactly when below threshold, not rising and above 0; it holds at the threshold |
| FanControl.FanController.constructor | chowfan.py:27-31 | starts at level 7 with exactly one device write of 7 |
| FanControl.FanController.GetFanRpm | chowfan.py:33-45 | the loop with its `break` returns the first fan line's speed match |
| FanControl.FanController.RefreshSpeed | chowfan.py:47-53 | the level becomes the calibrated level of the observed RPM, in range, with no device write |
| FanControl.FanController.SetLevel | chowfan.py:60-66 | level becomes the clamped request; the device gets that level exactly when it differs from the old level |
| FanControl.FanController.SetRelativeLevel | chowfan.py:68-70 | the clamped `level + diff` is set, written only if changed |
| FanControl.FanController.StepUp | chowfan.py:72-73 | up by at most one, stays in range; at 7 nothing changes and nothing is written |
| FanControl.FanController.StepDown | chowfan.py:75-76 | down by at most one, stays in range; at 0 nothing changes and nothing is written |
| FanControl.ChowFan.constructor | chowfan.py:80-84 | stores the controller and threshold, with an empty ignore list |
| FanControl.ChowFan.GetTemps | chowfan.py:86-101 | the loop returns exactly the filter's kept readings |
| FanControl.ChowFan.GetMaxTemp | chowfan.py:103-107 | None exactly when nothing is kept, else the largest kept reading |
| FanControl.ChowFan.GetAvgTemp | chowfan.py:109-113 | the mean of the kept readings, None when nothing is kept |
| FanControl.ChowFan.Start | chowfan.py:116 | `prev_temp` starts as the largest kept reading |
| FanControl.ChowFan.Tick | chowfan.py:118-132 | level resynchronised from RPM, then moved by the hysteresis rule; the device is written exactly when the level differs from the resynchronised one; `prev_temp` becomes the reading |
| LegacyFanControl.IsDeviceLevel | chofwan.py:38 | `fan_speed in range(8)`: exactly the speeds 0 to 7 |
| LegacyFanControl.NextSpeed | chofwan.py:46-49 | moves at most one step; stays within the configured bounds when it starts there; rises exactly when hot and below the maximum; at or below the threshold steps down unless at the minimum; hot at the maximum steps down when above the minimum; otherwise unchanged |
| LegacyFanControl.SpeedAfter | chofwan.py:44-49 | successive iterations with non-zero readings keep the speed within the configured bounds when it starts there, and move it by at most one per iteration |
| LegacyFanControl.CoolingWindsDown | chofwan.py:45-49 | while non-zero readings stay at or below the threshold, the speed falls one step per iteration to the minimum |
| LegacyFanControl.SustainedHeat | chofwan.py:46-49 | under sustained heat (non-zero readings above the threshold) the speed climbs to the maximum and then alternates between the maximum and one below it |
| LegacyFanControl.ChowFanController.constructor | chofwan.py:8-15 | stores the settings and the initial speed, and writes it once when it is in `range(8)` |
| LegacyFanControl.ChowFanController.GetMaxTemp | chofwan.py:17-35 | the same filter followed by `max`: None exactly when nothing is kept, else the largest kept reading |
| LegacyFanControl.ChowFanController.SetFanLevel | chofwan.py:37-40 | writes the speed exactly when it is in `range(8)`, whatever the configured bounds |
| LegacyFanControl.ChowFanController.Tick | chofwan.py:44-51 | a missing or zero reading changes nothing and writes nothing; otherwise the speed moves by `NextSpeed`, stays in bounds, moves at most 1, and is rewritten when in `range(8)` |

## Left out

- The `sensors` subprocess calls (chowfan.py:34, 87; chofwan.py:18) are not modelled. Their decoded output, split into lines, is a parameter. `ChowFan.Tick` takes two such outputs, because chowfan.py runs `sensors` once for the temperatures and once for the RPM.
- Writes to `/proc/acpi/ibm/fan` are modelled as appending the level to a ghost log. The `level N` text format, and failures to open or write the file, are not modelled.
- `time.sleep`, `polling_time` and the infinite `while True` loops are not modelled. One iteration is a `Tick`; `ChowFan.Start` is the statement before the loop.
- Logging, `print`, and `main` with its `set_level('auto')` are not modelled. That call raises `TypeError` in Python 3, so it has no integer behaviour to model.
- `re.search` is not modelled in general. Only the two fixed patterns are decided, directly on the line.
- `float()` is read exactly in tenths of a degree. The mean in `get_avg_temp` is computed exactly over `real`, so neither the rounding of `sum()` nor that of the division is modelled. That rounding can decide the `temp <= prev_temp` comparison at chowfan.py:129 on a tie. With `prev_temp` 40.4 and readings 40.1 and 40.7, Python's mean is 40.400000000000006, so the level does not step down. The model's mean is exactly 404 tenths, so it does step down.
- `max_temp` is a whole number of degrees, as the defaults and `main` use it. A fractional threshold is not modelled.
- `str.isspace` is modelled by its ASCII and Unicode whitespace characters as listed in `IsSpace`.
- FanControl.FanController.RefreshSpeed: requires a speed reading. With `None`, chowfan.py:51 compares `None <= int` and raises.
- FanControl.ChowFan.Tick: requires a non-empty reading list. It also requires a previous reading, unless the new reading equals the threshold. Otherwise chowfan.py:125 or 129 compares against `None` and raises.
