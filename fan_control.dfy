/**
 * The newer daemon (chowfan.py): a `FanController` that remembers the fan
 * level and writes it to the device only when it changes, resynchronises the
 * level from the fan's observed RPM, and a `ChowFan` loop that filters the
 * temperatures printed by `sensors` and steps the level up or down through a
 * hysteresis rule. Temperatures are tenths of a degree; the loop's mean is an
 * exact `real` in the same unit. Device writes are recorded in a ghost log.
 */
module FanControl {
  import opened Wrappers
  import opened SensorsOutput
  import opened TempFilter

  const DefaultMaxTemp := 55
  const FanSpeedMin := 0
  const FanSpeedMax := 7
  const FanSpeedInitial := 7

  /** `SPEED_MAP`: each level with the highest RPM it is taken to produce. */
  const SpeedMap: seq<(int, int)> :=
    [(0, 0), (1, 2250), (2, 3200), (3, 3400), (4, 3550), (5, 4050), (6, 4450), (7, 4500)]

  /** The table lists every level once, in order, with strictly rising RPM bounds starting at a stopped fan. */
  lemma SpeedMapCalibration()
    ensures |SpeedMap| == FanSpeedMax - FanSpeedMin + 1
    ensures forall k :: 0 <= k < |SpeedMap| ==> SpeedMap[k].0 == FanSpeedMin + k
    ensures forall j, k :: 0 <= j < k < |SpeedMap| ==> SpeedMap[j].1 < SpeedMap[k].1
    ensures SpeedMap[0].1 == 0
  {
  }

  function Distance(a: int, b: int): nat {
    if a <= b then b - a else a - b
  }

  /** `_limit_level`: the level in range nearest to the one requested. */
  function LimitLevel(level: int): (r: int)
    ensures FanSpeedMin <= r <= FanSpeedMax
    ensures FanSpeedMin <= level <= FanSpeedMax ==> r == level
    ensures forall v :: FanSpeedMin <= v <= FanSpeedMax ==> Distance(r, level) <= Distance(v, level)
  {
    var capped := if level < FanSpeedMax then level else FanSpeedMax;
    if capped > FanSpeedMin then capped else FanSpeedMin
  }

  // ---------------------------------------------------------------------
  // Level calibration from RPM
  // ---------------------------------------------------------------------

  /** Levels ascend along the table and none exceeds the fallback level. */
  predicate LevelsAscending(table: seq<(int, int)>, fallback: int) {
    (forall i, j :: 0 <= i < j < |table| ==> table[i].0 <= table[j].0)
    && forall i :: 0 <= i < |table| ==> table[i].0 <= fallback
  }

  /** The loop of `refresh_speed`: the first entry whose bound covers `rpm`, else `fallback`. */
  function LevelFor(table: seq<(int, int)>, rpm: int, fallback: int): (r: int)
    ensures r == fallback || exists k :: 0 <= k < |table| && r == table[k].0
  {
    if table == [] then fallback
    else if rpm <= table[0].1 then table[0].0
    else LevelFor(table[1..], rpm, fallback)
  }

  /** The level chosen is that of the first entry whose bound covers `rpm`. */
  lemma {:induction false} LevelForFirstFit(table: seq<(int, int)>, rpm: int, fallback: int, k: nat)
    requires k < |table| && rpm <= table[k].1
    requires forall j :: 0 <= j < k ==> table[j].1 < rpm
    ensures LevelFor(table, rpm, fallback) == table[k].0
  {
    if k > 0 {
      LevelForFirstFit(table[1..], rpm, fallback, k - 1);
    }
  }

  /** When no entry covers `rpm`, the fallback level is chosen. */
  lemma {:induction false} LevelForNoFit(table: seq<(int, int)>, rpm: int, fallback: int)
    requires forall j :: 0 <= j < |table| ==> table[j].1 < rpm
    ensures LevelFor(table, rpm, fallback) == fallback
  {
    if table != [] {
      LevelForNoFit(table[1..], rpm, fallback);
    }
  }

  lemma {:induction false} LevelForMonotone(table: seq<(int, int)>, rpm1: int, rpm2: int, fallback: int)
    requires LevelsAscending(table, fallback)
    requires rpm1 <= rpm2
    ensures LevelFor(table, rpm1, fallback) <= LevelFor(table, rpm2, fallback)
  {
    if table != [] {
      if rpm1 <= table[0].1 {
        if rpm2 > table[0].1 {
          var r := LevelFor(table[1..], rpm2, fallback);
          if r != fallback {
            var k :| 0 <= k < |table[1..]| && r == table[1..][k].0;
            assert table[0].0 <= table[k + 1].0;
          }
        }
      } else {
        LevelForMonotone(table[1..], rpm1, rpm2, fallback);
      }
    }
  }

  /** The level `refresh_speed` resynchronises to after observing `rpm`. */
  function LevelForRpm(rpm: nat): (r: int)
    ensures FanSpeedMin <= r <= FanSpeedMax
  {
    LevelFor(SpeedMap, rpm, FanSpeedMax)
  }

  /** A stopped fan is level 0. */
  lemma LevelForStoppedFan()
    ensures LevelForRpm(0) == 0
  {
    LevelForFirstFit(SpeedMap, 0, FanSpeedMax, 0);
  }

  /** Any level's band: an RPM in `(SpeedMap[k-1].1, SpeedMap[k].1]` is level `k`. */
  lemma LevelForRpmBand(rpm: nat, k: nat)
    requires 0 < k < |SpeedMap|
    requires SpeedMap[k - 1].1 < rpm <= SpeedMap[k].1
    ensures LevelForRpm(rpm) == k
  {
    LevelForFirstFit(SpeedMap, rpm, FanSpeedMax, k);
  }

  /** Faster than every band (above 4500 RPM) is the top level. */
  lemma LevelForFastFan(rpm: nat)
    requires rpm > 4500
    ensures LevelForRpm(rpm) == FanSpeedMax
  {
    LevelForNoFit(SpeedMap, rpm, FanSpeedMax);
  }

  /** A faster fan never maps to a lower level. */
  lemma LevelForRpmMonotone(rpm1: nat, rpm2: nat)
    requires rpm1 <= rpm2
    ensures LevelForRpm(rpm1) <= LevelForRpm(rpm2)
  {
    LevelForMonotone(SpeedMap, rpm1, rpm2, FanSpeedMax);
  }

  // ---------------------------------------------------------------------
  // Reading the fan speed
  // ---------------------------------------------------------------------

  /** `get_fan_rpm`: the speed on the first line naming the fan, if it shows one. */
  function FanRpm(name: string, output: seq<string>): (r: Option<nat>)
    ensures r.Some? ==> exists k :: 0 <= k < |output| && StartsWith(output[k], name) && RpmMatch(output[k]) == r
  {
    if output == [] then None
    else if StartsWith(output[0], name) then RpmMatch(output[0])
    else FanRpm(name, output[1..])
  }

  /**
   * Only the first line that starts with the fan's name is looked at: when
   * it shows no speed the answer is `None`, whatever later lines show.
   */
  lemma {:induction false} FanRpmFirstFanLine(name: string, output: seq<string>, k: nat)
    requires k < |output| && StartsWith(output[k], name)
    requires forall j :: 0 <= j < k ==> !StartsWith(output[j], name)
    ensures FanRpm(name, output) == RpmMatch(output[k])
  {
    if k > 0 {
      FanRpmFirstFanLine(name, output[1..], k - 1);
    }
  }

  lemma {:induction false} FanRpmNoFanLine(name: string, output: seq<string>)
    requires forall j :: 0 <= j < |output| ==> !StartsWith(output[j], name)
    ensures FanRpm(name, output) == None
  {
    if output != [] {
      FanRpmNoFanLine(name, output[1..]);
    }
  }

  /** A later line's speed is never reached once the first `fan1` line shows none. */
  lemma FanRpmStopsAtFirstFanLine()
    ensures RpmMatch("fan1: 2000 RPM") == Some(2000)
    ensures FanRpm("fan1", ["fan1:", "fan1: 2000 RPM"]) == None
  {
    RpmOfFanLine();
    NoRpmOnBareFanLine();
    assert StartsWith("fan1:", "fan1");
  }

  // ---------------------------------------------------------------------
  // The hysteresis rule of one `run` iteration
  // ---------------------------------------------------------------------

  /**
   * The level after one iteration of `run`, starting from the level just
   * resynchronised from RPM: `step_up` when hot and rising, then `step_down`
   * when below the threshold and not rising. `prev` is `None` only when the
   * first reading of `run` found nothing; Python then compares `None` and
   * raises, unless `temp` equals the threshold and no comparison with `prev`
   * is made.
   */
  function HysteresisLevel(level: int, temp: real, prev: Option<real>, threshold: real): (r: int)
    requires FanSpeedMin <= level <= FanSpeedMax
    requires prev.Some? || temp == threshold
    ensures FanSpeedMin <= r <= FanSpeedMax
    ensures level - 1 <= r <= level + 1
    ensures r > level <==> temp > threshold && temp > prev.value && level < FanSpeedMax
    ensures r < level <==> temp < threshold && temp <= prev.value && level > FanSpeedMin
    ensures temp == threshold ==> r == level
  {
    var afterUp := if temp > threshold && temp > prev.value then LimitLevel(level + 1) else level;
    if temp < threshold && temp <= prev.value then LimitLevel(afterUp - 1) else afterUp
  }

  class FanController {
    const name: string
    var level: int
    /** Every `level N` written to `/proc/acpi/ibm/fan`, oldest first. */
    ghost var deviceLog: seq<int>

    ghost predicate Valid()
      reads this
    {
      FanSpeedMin <= level <= FanSpeedMax
    }

    constructor (name: string)
      ensures Valid() && this.name == name
      ensures level == FanSpeedInitial && deviceLog == [FanSpeedInitial]
    {
      this.name := name;
      level := 0;
      deviceLog := [];
      new;
      SetLevel(FanSpeedInitial);
    }

    /** `get_fan_rpm`, on the lines `sensors` printed. */
    method GetFanRpm(output: seq<string>) returns (rpm: Option<nat>)
      ensures rpm == FanRpm(name, output)
    {
      rpm := None;
      var i := 0;
      while i < |output|
        invariant 0 <= i <= |output|
        invariant FanRpm(name, output[i..]) == FanRpm(name, output)
        invariant rpm == None
      {
        if StartsWith(output[i], name) {
          rpm := RpmMatch(output[i]);
          break;
        }
        assert output[i..][1..] == output[i + 1..];
        i := i + 1;
      }
    }

    /** `refresh_speed`: resynchronise `level` from the observed RPM, writing nothing. */
    method RefreshSpeed(output: seq<string>)
      requires FanRpm(name, output).Some?
      modifies this`level
      ensures Valid()
      ensures level == LevelForRpm(FanRpm(name, output).value)
    {
      var rpm := GetFanRpm(output);
      level := FanSpeedMax;
      var i := 0;
      while i < |SpeedMap|
        invariant 0 <= i <= |SpeedMap|
        invariant LevelFor(SpeedMap[i..], rpm.value, FanSpeedMax) == LevelForRpm(rpm.value)
        invariant level == FanSpeedMax
      {
        if rpm.value <= SpeedMap[i].1 {
          level := SpeedMap[i].0;
          break;
        }
        assert SpeedMap[i..][1..] == SpeedMap[i + 1..];
        i := i + 1;
      }
    }

    /** `set_level`: clamp, and write to the device only when the level changes. */
    method SetLevel(newLevel: int)
      modifies this`level, this`deviceLog
      ensures Valid()
      ensures level == LimitLevel(newLevel)
      ensures deviceLog == if level != old(level) then old(deviceLog) + [level] else old(deviceLog)
    {
      var limited := LimitLevel(newLevel);
      if limited != level {
        deviceLog := deviceLog + [limited];
        level := limited;
      }
    }

    method SetRelativeLevel(diff: int)
      modifies this`level, this`deviceLog
      ensures Valid()
      ensures level == LimitLevel(old(level) + diff)
      ensures deviceLog == if level != old(level) then old(deviceLog) + [level] else old(deviceLog)
    {
      SetLevel(level + diff);
    }

    /** One level up; at the top level nothing changes and nothing is written. */
    method StepUp()
      modifies this`level, this`deviceLog
      ensures Valid()
      ensures old(level) < FanSpeedMax ==> level == LimitLevel(old(level) + 1)
      ensures old(level) >= FanSpeedMax ==> level == FanSpeedMax
      ensures old(Valid()) ==> old(level) <= level <= old(level) + 1
      ensures deviceLog == if level != old(level) then old(deviceLog) + [level] else old(deviceLog)
    {
      SetRelativeLevel(1);
    }

    /** One level down; at the bottom level nothing changes and nothing is written. */
    method StepDown()
      modifies this`level, this`deviceLog
      ensures Valid()
      ensures old(level) > FanSpeedMin ==> level == LimitLevel(old(level) - 1)
      ensures old(level) <= FanSpeedMin ==> level == FanSpeedMin
      ensures old(Valid()) ==> old(level) - 1 <= level <= old(level)
      ensures deviceLog == if level != old(level) then old(deviceLog) + [level] else old(deviceLog)
    {
      SetRelativeLevel(-1);
    }
  }

  class ChowFan {
    const fan: FanController
    /** The threshold in whole degrees. */
    const maxTemp: int
    var ignoreSensors: seq<string>
    /** `prev_temp` of `run`, in tenths of a degree; `None` before `run` starts or when its first reading found nothing. */
    var prevTemp: Option<real>

    constructor (fan: FanController, maxTemp: int := DefaultMaxTemp)
      ensures this.fan == fan && this.maxTemp == maxTemp
      ensures ignoreSensors == [] && prevTemp == None
    {
      this.fan := fan;
      this.maxTemp := maxTemp;
      ignoreSensors := [];
      prevTemp := None;
    }

    /** `max_temp` in tenths of a degree. */
    function Threshold(): real {
      (maxTemp * 10) as real
    }

    /** `get_temps`, on the lines `sensors` printed. */
    method GetTemps(output: seq<string>) returns (temps: seq<nat>)
      ensures temps == KeptTemps(ClassifyAll(output, ignoreSensors))
    {
      temps := [];
      var ignoreNext := false;
      var i := 0;
      assert output[..0] == [];
      while i < |output|
        invariant 0 <= i <= |output|
        invariant temps == KeptTemps(ClassifyAll(output[..i], ignoreSensors))
        invariant ignoreNext == IgnoreNext(ClassifyAll(output[..i], ignoreSensors))
      {
        var line := output[i];
        if Strip(line) in ignoreSensors {
          ignoreNext := true;
        }
        var matches := TempMatch(line);
        if matches.Some? {
          if !ignoreNext {
            temps := temps + [matches.value];
          }
          ignoreNext := false;
        }
        FilterStep(output, ignoreSensors, i);
        i := i + 1;
      }
      assert output[..i] == output;
    }

    /** `get_max_temp`. */
    method GetMaxTemp(output: seq<string>) returns (temp: Option<int>)
      ensures temp.None? <==> KeptTemps(ClassifyAll(output, ignoreSensors)) == []
      ensures temp == MaxOf(KeptTemps(ClassifyAll(output, ignoreSensors)))
    {
      var temps := GetTemps(output);
      if temps == [] {
        return None;
      }
      return MaxOf(temps);
    }

    /** `get_avg_temp`, with the division done exactly. */
    method GetAvgTemp(output: seq<string>) returns (temp: Option<real>)
      ensures temp == Mean(KeptTemps(ClassifyAll(output, ignoreSensors)))
    {
      var temps := GetTemps(output);
      if temps == [] {
        return None;
      }
      return Some(Sum(temps) as real / |temps| as real);
    }

    /** The first statement of `run`: `prev_temp` is the hottest kept reading. */
    method Start(output: seq<string>)
      modifies this`prevTemp
      ensures var m := MaxOf(KeptTemps(ClassifyAll(output, ignoreSensors)));
        prevTemp == if m.Some? then Some(m.value as real) else None
    {
      var temp := GetMaxTemp(output);
      prevTemp := if temp.Some? then Some(temp.value as real) else None;
    }

    /**
     * One iteration of `run` after the sleep: read the mean temperature,
     * resynchronise the fan level from RPM, step up when hot and rising, step
     * down when below the threshold and not rising, remember the reading. The
     * device is written exactly when the level ends up different from the
     * resynchronised one.
     */
    method Tick(tempOutput: seq<string>, fanOutput: seq<string>)
      requires Mean(KeptTemps(ClassifyAll(tempOutput, ignoreSensors))).Some?
      requires FanRpm(fan.name, fanOutput).Some?
      requires prevTemp.Some? || Mean(KeptTemps(ClassifyAll(tempOutput, ignoreSensors))).value == Threshold()
      modifies this`prevTemp, fan`level, fan`deviceLog
      ensures fan.Valid()
      ensures var temp := Mean(KeptTemps(ClassifyAll(tempOutput, ignoreSensors))).value;
        var resynced := LevelForRpm(FanRpm(fan.name, fanOutput).value);
        && fan.level == HysteresisLevel(resynced, temp, old(prevTemp), Threshold())
        && fan.deviceLog == (if fan.level != resynced then old(fan.deviceLog) + [fan.level] else old(fan.deviceLog))
        && prevTemp == Some(temp)
    {
      var temp := GetAvgTemp(tempOutput);
      fan.RefreshSpeed(fanOutput);
      var t := temp.value;
      if t > Threshold() && t > prevTemp.value {
        fan.StepUp();
      }
      if t < Threshold() && t <= prevTemp.value {
        fan.StepDown();
      }
      prevTemp := temp;
    }
  }
}
