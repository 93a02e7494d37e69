/**
 * The older daemon (chofwan.py): one `ChowFanController` object that reads
 * the hottest kept temperature, moves `fan_speed` one step per iteration with
 * no regard to the trend. Every iteration that got a non-zero reading rewrites
 * the device, whether the speed changed or not, but only with a speed in
 * `range(8)`. Temperatures are tenths of a degree; device writes are recorded
 * in a ghost log.
 */
module LegacyFanControl {
  import opened Wrappers
  import opened SensorsOutput
  import opened TempFilter

  /** `fan_speed in range(8)`: the only levels `set_fan_level` writes. */
  predicate IsDeviceLevel(speed: int)
    ensures IsDeviceLevel(speed) <==> speed in [0, 1, 2, 3, 4, 5, 6, 7]
  {
    0 <= speed < 8
  }

  /**
   * The speed after one iteration of `run` with reading `temp`: up one step
   * when hot and below the maximum, otherwise down one step when above the
   * minimum. Being hot at the maximum therefore steps down.
   */
  function NextSpeed(speed: int, temp: int, threshold: int, minSpeed: int, maxSpeed: int): (r: int)
    ensures speed - 1 <= r <= speed + 1
    ensures minSpeed <= speed <= maxSpeed ==> minSpeed <= r <= maxSpeed
    ensures r > speed ==> temp > threshold && speed < maxSpeed
    ensures temp <= threshold ==> r == if speed > minSpeed then speed - 1 else speed
    ensures temp > threshold && speed < maxSpeed ==> r == speed + 1
    ensures temp > threshold && speed >= maxSpeed && speed > minSpeed ==> r == speed - 1
    ensures !(temp > threshold && speed < maxSpeed) && speed <= minSpeed ==> r == speed
  {
    if temp > threshold && speed < maxSpeed then speed + 1
    else if speed > minSpeed then speed - 1
    else speed
  }

  /**
   * The speed after successive iterations whose readings are `temps`. Every
   * reading is non-zero, since an iteration reading 0 changes nothing.
   */
  function SpeedAfter(speed: int, temps: seq<int>, threshold: int, minSpeed: int, maxSpeed: int): (r: int)
    requires forall k :: 0 <= k < |temps| ==> temps[k] != 0
    ensures minSpeed <= speed <= maxSpeed ==> minSpeed <= r <= maxSpeed
    ensures speed - |temps| <= r <= speed + |temps|
    decreases |temps|
  {
    if temps == [] then speed
    else SpeedAfter(NextSpeed(speed, temps[0], threshold, minSpeed, maxSpeed), temps[1..], threshold, minSpeed, maxSpeed)
  }

  /** While it stays at or below the threshold, the fan winds down one step per iteration to the minimum. */
  lemma {:induction false} CoolingWindsDown(speed: int, temps: seq<int>, threshold: int, minSpeed: int, maxSpeed: int)
    decreases |temps|
    requires minSpeed <= speed
    requires forall k :: 0 <= k < |temps| ==> temps[k] != 0
    requires forall k :: 0 <= k < |temps| ==> temps[k] <= threshold
    ensures SpeedAfter(speed, temps, threshold, minSpeed, maxSpeed)
      == if speed - |temps| > minSpeed then speed - |temps| else minSpeed
  {
    if temps != [] {
      CoolingWindsDown(NextSpeed(speed, temps[0], threshold, minSpeed, maxSpeed), temps[1..], threshold, minSpeed, maxSpeed);
    }
  }

  /**
   * Under sustained heat the fan reaches the top within `maxSpeed - speed`
   * iterations and from then on never rests there: it alternates between the
   * maximum and one below it.
   */
  lemma {:induction false} SustainedHeat(speed: int, temps: seq<int>, threshold: int, minSpeed: int, maxSpeed: int)
    decreases |temps|
    requires minSpeed < maxSpeed && minSpeed <= speed <= maxSpeed
    requires forall k :: 0 <= k < |temps| ==> temps[k] != 0
    requires forall k :: 0 <= k < |temps| ==> temps[k] > threshold
    ensures var r := SpeedAfter(speed, temps, threshold, minSpeed, maxSpeed);
      && minSpeed <= r <= maxSpeed
      && (|temps| <= maxSpeed - speed ==> r == speed + |temps|)
      && (|temps| >= maxSpeed - speed ==> r == if (|temps| - (maxSpeed - speed)) % 2 == 0 then maxSpeed else maxSpeed - 1)
  {
    if temps != [] {
      SustainedHeat(NextSpeed(speed, temps[0], threshold, minSpeed, maxSpeed), temps[1..], threshold, minSpeed, maxSpeed);
    }
  }

  class ChowFanController {
    /** The threshold in whole degrees. */
    const maxTemp: int
    const minFanSpeed: int
    const maxFanSpeed: int
    var fanSpeed: int
    var ignoreSensors: seq<string>
    /** Every `level N` written to `/proc/acpi/ibm/fan`, oldest first. */
    ghost var deviceLog: seq<int>

    /** `__init__`: store the settings and write the initial speed once. */
    constructor (maxTemp: int := 50, minFanSpeed: int := 0, maxFanSpeed: int := 7, initialFanSpeed: int := 1)
      ensures this.maxTemp == maxTemp && this.minFanSpeed == minFanSpeed && this.maxFanSpeed == maxFanSpeed
      ensures fanSpeed == initialFanSpeed && ignoreSensors == []
      ensures deviceLog == if IsDeviceLevel(initialFanSpeed) then [initialFanSpeed] else []
    {
      this.maxTemp := maxTemp;
      fanSpeed := initialFanSpeed;
      this.minFanSpeed := minFanSpeed;
      this.maxFanSpeed := maxFanSpeed;
      ignoreSensors := [];
      deviceLog := [];
      new;
      SetFanLevel();
    }

    /** `max_temp` in tenths of a degree. */
    function Threshold(): int {
      maxTemp * 10
    }

    /** `get_max_temp`, on the lines `sensors` printed: the hottest kept reading. */
    method GetMaxTemp(output: seq<string>) returns (temp: Option<int>)
      ensures temp.None? <==> KeptTemps(ClassifyAll(output, ignoreSensors)) == []
      ensures temp == MaxOf(KeptTemps(ClassifyAll(output, ignoreSensors)))
    {
      var temps: seq<nat> := [];
      var ignoreNext := false;
      var i := 0;
      assert output[..0] == [];
      while i < |output|
        invariant 0 <= i <= |output|
        invariant temps == KeptTemps(ClassifyAll(output[..i], ignoreSensors))
        invariant ignoreNext == IgnoreNext(ClassifyAll(output[..i], ignoreSensors))
      {
        var line := output[i];
        if Strip(line) in ignoreSensors {
          ignoreNext := true;
        }
        var matches := TempMatch(line);
        if matches.Some? {
          if !ignoreNext {
            temps := temps + [matches.value];
          }
          ignoreNext := false;
        }
        FilterStep(output, ignoreSensors, i);
        i := i + 1;
      }
      assert output[..i] == output;
      if temps == [] {
        return None;
      }
      return MaxOf(temps);
    }

    /** `set_fan_level`: write the speed, but only a speed the device accepts. */
    method SetFanLevel()
      modifies this`deviceLog
      ensures deviceLog == if IsDeviceLevel(fanSpeed) then old(deviceLog) + [fanSpeed] else old(deviceLog)
    {
      if IsDeviceLevel(fanSpeed) {
        deviceLog := deviceLog + [fanSpeed];
      }
    }

    /**
     * One iteration of `run` before the sleep. A missing or zero reading
     * (Python's falsy `None` and `0.0`) changes nothing; any other reading
     * moves the speed by the trend-free rule and rewrites the device when the
     * new speed is in `range(8)`, whether the speed changed or not.
     */
    method Tick(output: seq<string>)
      modifies this`fanSpeed, this`deviceLog
      ensures var t := MaxOf(KeptTemps(ClassifyAll(output, ignoreSensors)));
        if t.None? || t.value == 0 then
          fanSpeed == old(fanSpeed) && deviceLog == old(deviceLog)
        else
          && fanSpeed == NextSpeed(old(fanSpeed), t.value, Threshold(), minFanSpeed, maxFanSpeed)
          && deviceLog == if IsDeviceLevel(fanSpeed) then old(deviceLog) + [fanSpeed] else old(deviceLog)
      ensures minFanSpeed <= old(fanSpeed) <= maxFanSpeed ==> minFanSpeed <= fanSpeed <= maxFanSpeed
      ensures old(fanSpeed) - 1 <= fanSpeed <= old(fanSpeed) + 1
    {
      var temp := GetMaxTemp(output);
      ghost var kept := KeptTemps(ClassifyAll(output, ignoreSensors));
      if temp.Some? && temp.value != 0 {
        ghost var next := NextSpeed(fanSpeed, temp.value, Threshold(), minFanSpeed, maxFanSpeed);
        if temp.value > Threshold() && fanSpeed < maxFanSpeed {
          fanSpeed := fanSpeed + 1;
        } else if fanSpeed > minFanSpeed {
          fanSpeed := fanSpeed - 1;
        }
        assert fanSpeed == next;
        SetFanLevel();
      }
      assert kept == KeptTemps(ClassifyAll(output, ignoreSensors));
    }
  }
}
