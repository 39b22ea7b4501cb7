/**
 * Decision core of the ESP32-S3 firmware: the 60-slot water-level ring,
 * the post-processing of the three classifiers' outputs, the weighted fusion
 * rule and the three-timer cooperative loop.
 *
 * The classifiers themselves are opaque: the visual model's output is an
 * input, and the sensor and environmental models are functions from the
 * window they are fed to their classification.
 */
module Firmware {
  import opened Common

  // Timer periods, in milliseconds.
  const CameraInterval: int := 5000
  const SensorInterval: int := 1000
  const EnvInterval: int := 60000

  const AlertThresholdHigh: real := 0.7
  const AlertThresholdMedium: real := 0.5

  /** Length of the water-level rolling window (one sample per second). */
  const WindowSize: int := 60

  /** `unsigned long` (the type of `millis()` and the timers) is 32 bits wide. */
  const ULongModulus: int := 0x1_0000_0000

  const CriticalMessage: string := "CRITICAL: Drainage blockage detected with high water level!"
  const WarningMessage: string := "WARNING: Potential blockage or elevated water level detected."
  const FloodMessage: string := "WARNING: Flood risk predicted based on weather patterns."
  const OkMessage: string := "OK: Drainage system operating normally."

  datatype AlertLevel = Low | Medium | High

  function Severity(level: AlertLevel): nat
  {
    match level
    case Low => 0
    case Medium => 1
    case High => 2
  }

  /** One entry of a classifier's result: a label and its score. */
  datatype Classification = Classification(name: string, value: real)

  /** What `run_classifier` hands back: the classifications, or an error code. */
  datatype Inference = Ok(classification: seq<Classification>) | Failed(code: int)

  /** The work the loop did in one pass, in the order it did it. */
  datatype Task = EnvRead | WaterLevelRead | InferenceCycle | AlertSent

  /** The result of one fusion: `alert_score`, `alert_level`, `alert_message`. */
  datatype Decision = Decision(score: real, level: AlertLevel, message: string)

  // ---------------------------------------------------------------------------
  // Sensor conversions
  // ---------------------------------------------------------------------------

  /** C integer division, which truncates toward zero: the remainder has
      the sign of the dividend. */
  function CDiv(a: int, b: int): (q: int)
    requires b > 0
    ensures a >= 0 ==> 0 <= a - q * b < b
    ensures a < 0 ==> -b < a - q * b <= 0
  {
    if a >= 0 then a / b else -((-a) / b)
  }

  /** Arduino's integer `map(x, inMin, inMax, outMin, outMax)`. */
  function ArduinoMap(x: int, inMin: int, inMax: int, outMin: int, outMax: int): (r: int)
    requires inMax > inMin
    ensures inMin <= x <= inMax && outMin <= outMax ==> outMin <= r <= outMax
    ensures x == inMin ==> r == outMin
    ensures x == inMax ==> r == outMax
  {
    var q := CDiv((x - inMin) * (outMax - outMin), inMax - inMin);
    MapQuotient(x - inMin, inMax - inMin, outMax - outMin, q);
    q + outMin
  }

  /** Multiplying by a positive `b` keeps the order. */
  lemma MulMonotone(x: int, y: int, b: int)
    requires b > 0 && x <= y
    ensures x * b <= y * b
  {
    assert y * b - x * b == (y - x) * b;
  }

  /** A multiple of `b` strictly between `-b` and `b` is 0. */
  lemma SmallMultiple(k: int, b: int)
    requires b > 0 && -b < k * b < b
    ensures k == 0
  {
    if k >= 1 {
      MulMonotone(1, k, b);
    } else if k <= -1 {
      MulMonotone(k, -1, b);
    }
  }

  /** The quotient `map` takes lies between 0 and the output span, and hits
      both ends at the ends of the input range. */
  lemma MapQuotient(dx: int, b: int, span: int, q: int)
    requires b > 0
    requires dx * span >= 0 ==> 0 <= dx * span - q * b < b
    requires dx * span < 0 ==> -b < dx * span - q * b <= 0
    ensures 0 <= dx <= b && span >= 0 ==> 0 <= q <= span
    ensures dx == 0 ==> q == 0
    ensures dx == b ==> q == span
  {
    if 0 <= dx <= b && span >= 0 {
      if span > 0 {
        MulMonotone(0, dx, span);
        MulMonotone(dx, b, span);
      }
      if q < 0 {
        MulMonotone(q, -1, b);
      }
      if q > span {
        MulMonotone(span + 1, q, b);
      }
    }
    if dx == 0 {
      SmallMultiple(-q, b);
    }
    if dx == b {
      assert dx * span - q * b == (span - q) * b;
      SmallMultiple(span - q, b);
    }
  }

  /** Rainfall in mm/hour from a 12-bit rain-sensor reading. */
  function RainfallFromAdc(raw: int): (r: real)
    ensures 0 <= raw <= 4095 ==> 0.0 <= r <= 100.0
  {
    ArduinoMap(raw, 0, 4095, 0, 100) as real
  }

  /** Distance in cm from an HC-SR04 echo time in microseconds, clamped to [0, 100]. */
  function EchoDistance(duration: nat): (d: real)
    ensures 0.0 <= d <= 100.0
    ensures duration <= 5830 ==> d == duration as real * 0.0343 / 2.0
  {
    Clamp(duration as real * 0.0343 / 2.0, 0.0, 100.0)
  }

  /** Time elapsed since `last`, in `unsigned long` arithmetic. */
  function Elapsed(now: int, last: int): (e: int)
    ensures 0 <= e < ULongModulus
    ensures 0 <= last <= now < ULongModulus ==> e == now - last
    ensures 0 <= now < last < ULongModulus ==> e == now - last + ULongModulus
  {
    (now - last) % ULongModulus
  }

  /** A task is due once `interval` ms have passed since `last`, counted
      across the 32-bit wrap of `millis()`. */
  predicate Due(now: int, last: int, interval: int)
    ensures 0 <= last <= now < ULongModulus ==> (Due(now, last, interval) <==> now - last >= interval)
    ensures 0 <= now < last < ULongModulus ==> (Due(now, last, interval) <==> now + ULongModulus - last >= interval)
  {
    Elapsed(now, last) >= interval
  }

  /** The pressure feature the firmware feeds the environmental model. */
  function PressureFeature(pressure: real): (f: real)
    ensures 990.0 <= pressure <= 1040.0 ==> 0.0 <= f <= 1.0
    ensures pressure == 990.0 ==> f == 1.0
    ensures pressure == 1040.0 ==> f == 0.0
  {
    1.0 - (pressure - 990.0) / 50.0
  }

  // ---------------------------------------------------------------------------
  // Classifier post-processing
  // ---------------------------------------------------------------------------

  /** The score of the first classification named `target`, 0.0 if none does. */
  function FirstScore(cs: seq<Classification>, target: string): (v: real)
    ensures v == 0.0 || exists k :: 0 <= k < |cs| && cs[k].name == target && cs[k].value == v
  {
    if cs == [] then 0.0
    else if cs[0].name == target then cs[0].value
    else FirstScore(cs[1..], target)
  }

  /** What `run_visual_inference` and `run_environmental_inference` return:
      the score of `target`, and 0.0 on an inference error. */
  function LabelScore(r: Inference, target: string): (v: real)
    ensures r.Failed? ==> v == 0.0
    ensures r.Ok? ==> v == 0.0 || exists k :: 0 <= k < |r.classification| && r.classification[k].name == target
                                               && r.classification[k].value == v
  {
    match r
    case Failed(_) => 0.0
    case Ok(cs) => FirstScore(cs, target)
  }

  lemma {:induction false} FirstScoreIsFirstMatch(cs: seq<Classification>, target: string)
    ensures (forall k :: 0 <= k < |cs| ==> cs[k].name != target) ==> FirstScore(cs, target) == 0.0
    ensures forall k :: (0 <= k < |cs| && cs[k].name == target && (forall j :: 0 <= j < k ==> cs[j].name != target))
                          ==> FirstScore(cs, target) == cs[k].value
  {
    if cs != [] {
      FirstScoreIsFirstMatch(cs[1..], target);
      forall k | 0 <= k < |cs| && cs[k].name == target && (forall j :: 0 <= j < k ==> cs[j].name != target)
        ensures FirstScore(cs, target) == cs[k].value
      {
        if k > 0 {
          assert cs[0].name != target;
          assert cs[1..][k - 1] == cs[k];
          forall j | 0 <= j < k - 1 ensures cs[1..][j].name != target {
            assert cs[1..][j] == cs[j + 1];
          }
        }
      }
      if forall k :: 0 <= k < |cs| ==> cs[k].name != target {
        forall k | 0 <= k < |cs[1..]| ensures cs[1..][k].name != target {
          assert cs[1..][k] == cs[k + 1];
        }
      }
    }
  }

  /** The scan over one label's result (`run_visual_inference`'s loop with `break`). */
  method ScoreOf(r: Inference, target: string) returns (v: real)
    ensures v == LabelScore(r, target)
    ensures r.Failed? ==> v == 0.0
    ensures r.Ok? && (forall k :: 0 <= k < |r.classification| ==> r.classification[k].name != target) ==> v == 0.0
  {
    if r.Failed? {
      return 0.0;
    }
    var cs := r.classification;
    v := 0.0;
    var ix := 0;
    while ix < |cs|
      invariant 0 <= ix <= |cs|
      invariant FirstScore(cs, target) == FirstScore(cs[ix..], target)
      invariant v == 0.0
    {
      if cs[ix].name == target {
        v := cs[ix].value;
        break;
      }
      ix := ix + 1;
    }
    FirstScoreIsFirstMatch(cs, target);
  }

  /** The class a known label names: normal 0, elevated 1, critical 2; any
      other label leaves the current class unchanged. */
  function LabelClass(name: string, current: int): int
  {
    if name == "normal" then 0
    else if name == "elevated" then 1
    else if name == "critical" then 2
    else current
  }

  predicate KnownLabels(cs: seq<Classification>)
  {
    forall k :: 0 <= k < |cs| ==> cs[k].name in {"normal", "elevated", "critical"}
  }

  /** The state `(water_level_class, max_score)` of `run_sensor_inference`'s
      argmax loop after it has looked at the first `n` classifications. */
  function ScanClasses(cs: seq<Classification>, n: nat): (acc: (int, real))
    requires n <= |cs|
    ensures 0 <= acc.0 <= 2 && acc.1 >= 0.0
    ensures forall j :: 0 <= j < n ==> cs[j].value <= acc.1
  {
    if n == 0 then (0, 0.0)
    else
      var prev := ScanClasses(cs, n - 1);
      if cs[n - 1].value > prev.1 then (LabelClass(cs[n - 1].name, prev.0), cs[n - 1].value)
      else prev
  }

  /** The water-level class `run_sensor_inference` returns for a result. */
  function WaterLevelClassOf(r: Inference): (c: int)
    ensures 0 <= c <= 2
    ensures r.Failed? ==> c == 0
  {
    match r
    case Failed(_) => 0
    case Ok(cs) => ScanClasses(cs, |cs|).0
  }

  /** `k` is the first position holding the strictly greatest score. */
  predicate IsFirstMaximum(cs: seq<Classification>, k: int)
  {
    && 0 <= k < |cs|
    && (forall j :: 0 <= j < k ==> cs[j].value < cs[k].value)
    && (forall j :: k < j < |cs| ==> cs[j].value <= cs[k].value)
  }

  lemma {:induction false} ScanInvariant(cs: seq<Classification>, n: nat)
    requires n <= |cs|
    ensures var acc := ScanClasses(cs, n);
      && acc.1 >= 0.0
      && (forall j :: 0 <= j < n ==> cs[j].value <= acc.1)
      && (acc.1 == 0.0 ==> acc.0 == 0)
      && (acc.1 > 0.0 ==> exists k :: 0 <= k < n && cs[k].value == acc.1
                                      && (forall j :: 0 <= j < k ==> cs[j].value < acc.1)
                                      && (KnownLabels(cs) ==> acc.0 == LabelClass(cs[k].name, 0)))
  {
    if n > 0 {
      ScanInvariant(cs, n - 1);
      var prev := ScanClasses(cs, n - 1);
      if cs[n - 1].value > prev.1 {
        var k := n - 1;
        assert KnownLabels(cs) ==> LabelClass(cs[k].name, prev.0) == LabelClass(cs[k].name, 0);
      }
    }
  }

  /** The water-level class is the label of the first strictly greatest score,
      and 0 when no score exceeds 0 or the inference failed. */
  lemma WaterLevelClassIsFirstArgmax(r: Inference)
    ensures r.Failed? ==> WaterLevelClassOf(r) == 0
    ensures (r.Ok? && forall j :: 0 <= j < |r.classification| ==> r.classification[j].value <= 0.0)
              ==> WaterLevelClassOf(r) == 0
    ensures r.Ok? && KnownLabels(r.classification) ==>
              forall k :: IsFirstMaximum(r.classification, k) && r.classification[k].value > 0.0
                ==> WaterLevelClassOf(r) == LabelClass(r.classification[k].name, 0)
  {
    if r.Ok? {
      var cs := r.classification;
      ScanInvariant(cs, |cs|);
      var acc := ScanClasses(cs, |cs|);
      if acc.1 > 0.0 {
        var k' :| 0 <= k' < |cs| && cs[k'].value == acc.1
                  && (forall j :: 0 <= j < k' ==> cs[j].value < acc.1)
                  && (KnownLabels(cs) ==> acc.0 == LabelClass(cs[k'].name, 0));
        forall k | IsFirstMaximum(cs, k) && cs[k].value > 0.0
          ensures k == k'
        {
          assert cs[k'].value <= cs[k].value;
          assert cs[k].value == acc.1;
        }
      }
    }
  }

  /** The strict `>` breaks a tie toward the earlier label, not the more
      severe one: elevated and critical at equal scores give elevated. */
  lemma SensorTieGoesToFirstLabel()
    ensures WaterLevelClassOf(Ok([Classification("elevated", 0.5), Classification("critical", 0.5)])) == 1
    ensures WaterLevelClassOf(Ok([Classification("critical", 0.5), Classification("elevated", 0.5)])) == 2
  {
  }

  /** `run_sensor_inference`'s argmax loop over the classifications. */
  method SensorClass(r: Inference) returns (cls: int)
    ensures cls == WaterLevelClassOf(r)
    ensures 0 <= cls <= 2
  {
    if r.Failed? {
      return 0;
    }
    var cs := r.classification;
    cls := 0;
    var maxScore := 0.0;
    for ix := 0 to |cs|
      invariant (cls, maxScore) == ScanClasses(cs, ix)
      invariant 0 <= cls <= 2
    {
      if cs[ix].value > maxScore {
        maxScore := cs[ix].value;
        if cs[ix].name == "normal" {
          cls := 0;
        } else if cs[ix].name == "elevated" {
          cls := 1;
        } else if cs[ix].name == "critical" {
          cls := 2;
        }
      }
    }
  }

  // ---------------------------------------------------------------------------
  // Fusion
  // ---------------------------------------------------------------------------

  /** The weighted alert score: 0.40 blockage, 0.30 water-level class / 2, 0.30 flood risk. */
  function AlertScore(blockage: real, waterClass: int, floodRisk: real): (s: real)
    ensures 0.0 <= blockage <= 1.0 && 0 <= waterClass <= 2 && 0.0 <= floodRisk <= 1.0 ==> 0.0 <= s <= 1.0
  {
    0.40 * blockage + 0.30 * (waterClass as real / 2.0) + 0.30 * floodRisk
  }

  /** `fuse_and_alert`: the weighted score and the first-match rule chain. */
  function Fuse(blockage: real, waterClass: int, floodRisk: real): (d: Decision)
    ensures d.score == AlertScore(blockage, waterClass, floodRisk)
    ensures d.level == High <==> d.score > AlertThresholdHigh && waterClass == 2
    ensures d.level == Low <==> d.score <= AlertThresholdMedium && waterClass != 1 && floodRisk <= 0.7
    ensures d.message == CriticalMessage <==> d.level == High
    ensures d.message == WarningMessage <==> !(d.level == High) && (d.score > AlertThresholdMedium || waterClass == 1)
    ensures d.message == FloodMessage <==>
              !(d.level == High) && !(d.score > AlertThresholdMedium || waterClass == 1) && floodRisk > 0.7
    ensures d.message == OkMessage <==> d.level == Low
  {
    var score := AlertScore(blockage, waterClass, floodRisk);
    if score > AlertThresholdHigh && waterClass == 2 then
      Decision(score, High, CriticalMessage)
    else if score > AlertThresholdMedium || waterClass == 1 then
      Decision(score, Medium, WarningMessage)
    else if floodRisk > 0.7 then
      Decision(score, Medium, FloodMessage)
    else
      Decision(score, Low, OkMessage)
  }

  /** The class contributes 0, 0.15 or 0.30 to the score. */
  lemma ClassContribution(blockage: real, floodRisk: real)
    ensures AlertScore(blockage, 0, floodRisk) == 0.40 * blockage + 0.30 * floodRisk
    ensures AlertScore(blockage, 1, floodRisk) == 0.40 * blockage + 0.15 + 0.30 * floodRisk
    ensures AlertScore(blockage, 2, floodRisk) == 0.40 * blockage + 0.30 + 0.30 * floodRisk
  {
  }

  /** An elevated water level alone always yields MEDIUM with the warning
      message, however high the flood risk. */
  lemma ElevatedAloneIsMedium(blockage: real, floodRisk: real)
    ensures Fuse(blockage, 1, floodRisk).level == Medium
    ensures Fuse(blockage, 1, floodRisk).message == WarningMessage
  {
  }

  /** A flood risk above 0.7 alone is enough to leave LOW. */
  lemma FloodRiskAloneLeavesLow(blockage: real, waterClass: int, floodRisk: real)
    requires floodRisk > 0.7
    ensures Fuse(blockage, waterClass, floodRisk).level != Low
  {
  }

  /** Raising the blockage score or the flood risk never lowers the level. */
  lemma FuseMonotone(b1: real, b2: real, waterClass: int, f1: real, f2: real)
    requires b1 <= b2 && f1 <= f2
    ensures Severity(Fuse(b1, waterClass, f1).level) <= Severity(Fuse(b2, waterClass, f2).level)
  {
  }

  /** Raising the water-level class from elevated to critical can lower the
      level from MEDIUM to LOW: the critical class only counts through the
      score, while the elevated class counts on its own. */
  lemma CriticalClassCanReportOk()
    ensures Fuse(0.0, 1, 0.0).level == Medium
    ensures Fuse(0.0, 2, 0.0).level == Low && Fuse(0.0, 2, 0.0).message == OkMessage
  {
  }

  /** The worked examples of the fusion rule. */
  lemma FuseExamples()
    ensures Fuse(0.8, 2, 0.2) == Decision(0.68, Medium, WarningMessage)
    ensures Fuse(0.1, 1, 0.1) == Decision(0.22, Medium, WarningMessage)
    ensures Fuse(0.0, 0, 0.75) == Decision(0.225, Medium, FloodMessage)
  {
  }

  /** The ranges the environmental task clamps its readings to. */
  predicate ReadingsInRange(temperature: real, humidity: real, pressure: real, rainfall: real, waterLevel: real)
  {
    && 15.0 <= temperature <= 40.0 && 0.0 <= humidity <= 100.0 && 990.0 <= pressure <= 1040.0
    && 0.0 <= rainfall <= 100.0 && 0.0 <= waterLevel <= 100.0
  }

  /** The environmental model's five features: every reading scaled so that
      its clamped range maps onto [0, 1] (pressure reversed). Readings outside
      those ranges give features outside [0, 1]. */
  function FeatureVector(temperature: real, humidity: real, pressure: real, rainfall: real, waterLevel: real): (f: seq<real>)
    ensures |f| == 5
    ensures ReadingsInRange(temperature, humidity, pressure, rainfall, waterLevel) ==>
              forall i :: 0 <= i < |f| ==> 0.0 <= f[i] <= 1.0
  {
    [ (temperature - 15.0) / 25.0,
      humidity / 100.0,
      PressureFeature(pressure),
      rainfall / 100.0,
      waterLevel / 100.0 ]
  }

  /** At power-on every reading is 0, so the temperature feature is -0.6 and
      the pressure feature 20.8. The first inference cycle is due at 5 s, and
      no environmental reading is taken before 60 s. */
  lemma PowerOnFeaturesOutOfRange()
    ensures FeatureVector(0.0, 0.0, 0.0, 0.0, 0.0) == [-0.6, 0.0, 20.8, 0.0, 0.0]
    ensures Due(CameraInterval, 0, CameraInterval)
    ensures forall now :: 0 <= now < EnvInterval ==> !Due(now, 0, EnvInterval)
  {
  }

  /** `s` with every sample divided by 100, as the sensor model receives it. */
  function Normalised(s: seq<real>): (r: seq<real>)
    ensures |r| == |s|
    ensures forall i :: 0 <= i < |s| ==> r[i] == s[i] / 100.0
  {
    seq(|s|, i requires 0 <= i < |s| => s[i] / 100.0)
  }

  // ---------------------------------------------------------------------------
  // Device state: the globals of the firmware
  // ---------------------------------------------------------------------------

  class Device {
    /** `water_level_buffer` and `buffer_index`. */
    const waterLevelBuffer: array<real>
    var bufferIndex: int

    /** `current_env_data`. */
    var temperature: real
    var humidity: real
    var pressure: real
    var rainfall: real
    var waterLevel: real

    /** `inference_results`. */
    var blockageScore: real
    var waterLevelClass: int
    var floodRisk: real
    var alertScore: real
    var alertLevel: AlertLevel
    var alertMessage: string

    /** `last_camera_time`, `last_sensor_time`, `last_env_time`. */
    var lastCameraTime: int
    var lastSensorTime: int
    var lastEnvTime: int

    ghost predicate Valid()
      reads this`bufferIndex, this`lastCameraTime, this`lastSensorTime, this`lastEnvTime, this`waterLevelClass
    {
      && waterLevelBuffer.Length == WindowSize
      && 0 <= bufferIndex < WindowSize
      && 0 <= lastCameraTime < ULongModulus
      && 0 <= lastSensorTime < ULongModulus
      && 0 <= lastEnvTime < ULongModulus
      && 0 <= waterLevelClass <= 2
    }

    /** The window's samples, oldest first: the slot at `bufferIndex` is the
        next to be overwritten, so it holds the oldest sample. */
    ghost function Samples(): (s: seq<real>)
      reads this`bufferIndex, waterLevelBuffer
      requires waterLevelBuffer.Length == WindowSize && 0 <= bufferIndex < WindowSize
      ensures |s| == WindowSize
    {
      waterLevelBuffer[bufferIndex..] + waterLevelBuffer[..bufferIndex]
    }

    predicate ReadingsValid()
      reads this`temperature, this`humidity, this`pressure, this`rainfall, this`waterLevel
    {
      ReadingsInRange(temperature, humidity, pressure, rainfall, waterLevel)
    }

    /** The environmental model's five features, from `current_env_data`. */
    function EnvFeatures(): (f: seq<real>)
      reads this`temperature, this`humidity, this`pressure, this`rainfall, this`waterLevel
      ensures |f| == 5
      ensures ReadingsValid() ==> forall i :: 0 <= i < 5 ==> 0.0 <= f[i] <= 1.0
    {
      FeatureVector(temperature, humidity, pressure, rainfall, waterLevel)
    }

    /** Power-on state: zero-initialised globals, level "LOW", empty message. */
    constructor ()
      ensures Valid() && fresh(waterLevelBuffer)
      ensures bufferIndex == 0 && Samples() == seq(WindowSize, _ => 0.0)
      ensures temperature == humidity == pressure == rainfall == waterLevel == 0.0
      ensures blockageScore == floodRisk == alertScore == 0.0 && waterLevelClass == 0
      ensures alertLevel == Low && alertMessage == ""
      ensures lastCameraTime == lastSensorTime == lastEnvTime == 0
      ensures !ReadingsValid() && EnvFeatures() == [-0.6, 0.0, 20.8, 0.0, 0.0]
    {
      waterLevelBuffer := new real[WindowSize](_ => 0.0);
      bufferIndex := 0;
      temperature, humidity, pressure, rainfall, waterLevel := 0.0, 0.0, 0.0, 0.0, 0.0;
      blockageScore, waterLevelClass, floodRisk, alertScore := 0.0, 0, 0.0, 0.0;
      alertLevel, alertMessage := Low, "";
      lastCameraTime, lastSensorTime, lastEnvTime := 0, 0, 0;
      new;
      assert waterLevelBuffer[0..] == waterLevelBuffer[..];
    }

    /** Power-on with the readings at the low ends of their clamped ranges
        (15 °C, 0 %, 990 hPa, 0 mm/h, 0 cm), so that the environmental model
        sees features in [0, 1] from the first cycle on. */
    constructor StartInRange()
      ensures Valid() && fresh(waterLevelBuffer)
      ensures bufferIndex == 0 && Samples() == seq(WindowSize, _ => 0.0)
      ensures temperature == 15.0 && humidity == 0.0 && pressure == 990.0 && rainfall == 0.0 && waterLevel == 0.0
      ensures blockageScore == floodRisk == alertScore == 0.0 && waterLevelClass == 0
      ensures alertLevel == Low && alertMessage == ""
      ensures lastCameraTime == lastSensorTime == lastEnvTime == 0
      ensures ReadingsValid() && EnvFeatures() == [0.0, 0.0, 1.0, 0.0, 0.0]
    {
      waterLevelBuffer := new real[WindowSize](_ => 0.0);
      bufferIndex := 0;
      temperature, humidity, pressure, rainfall, waterLevel := 15.0, 0.0, 990.0, 0.0, 0.0;
      blockageScore, waterLevelClass, floodRisk, alertScore := 0.0, 0, 0.0, 0.0;
      alertLevel, alertMessage := Low, "";
      lastCameraTime, lastSensorTime, lastEnvTime := 0, 0, 0;
      new;
      assert waterLevelBuffer[0..] == waterLevelBuffer[..];
    }

    /** Slot `(bufferIndex + i) % 60` holds the `i`-th oldest sample. */
    lemma SlotOfSample(i: int)
      requires Valid() && 0 <= i < WindowSize
      ensures waterLevelBuffer[(bufferIndex + i) % WindowSize] == Samples()[i]
    {
      if bufferIndex + i < WindowSize {
        assert Samples()[i] == waterLevelBuffer[bufferIndex..][i];
      } else {
        assert (bufferIndex + i) % WindowSize == bufferIndex + i - WindowSize;
        assert Samples()[i] == waterLevelBuffer[..bufferIndex][i - (WindowSize - bufferIndex)];
      }
    }

    /** `update_water_level_buffer`: the raw sample goes into the ring, only
        `current_env_data.water_level` is clamped to [0, 100]. */
    method UpdateWaterLevelBuffer(level: real)
      requires Valid()
      modifies this`waterLevel, this`bufferIndex, waterLevelBuffer
      ensures Valid()
      ensures waterLevel == Clamp(level, 0.0, 100.0)
      ensures waterLevelBuffer[old(bufferIndex)] == level
      ensures forall i :: 0 <= i < WindowSize && i != old(bufferIndex) ==> waterLevelBuffer[i] == old(waterLevelBuffer[i])
      ensures bufferIndex == (old(bufferIndex) + 1) % WindowSize
      ensures Samples() == old(Samples())[1..] + [level]
      ensures Samples()[WindowSize - 1] == level
    {
      ghost var before := Samples();
      ghost var k := bufferIndex;
      waterLevel := Clamp(level, 0.0, 100.0);
      waterLevelBuffer[bufferIndex] := level;
      bufferIndex := (bufferIndex + 1) % WindowSize;
      if k < WindowSize - 1 {
        assert bufferIndex == k + 1;
        assert before[1..] == old(waterLevelBuffer[..])[k + 1..] + old(waterLevelBuffer[..])[..k];
        assert waterLevelBuffer[bufferIndex..] == old(waterLevelBuffer[..])[k + 1..];
        assert waterLevelBuffer[..bufferIndex] == old(waterLevelBuffer[..])[..k] + [level];
      } else {
        assert bufferIndex == 0;
        assert before[1..] == old(waterLevelBuffer[..])[..k];
        assert waterLevelBuffer[0..] == old(waterLevelBuffer[..])[..k] + [level];
      }
    }

    /** The `get_data` callback of `run_sensor_inference`: copies `length`
        normalised samples, oldest first, whatever `offset` is asked for. */
    method GetSensorData(offset: int, length: int, out: array<real>) returns (status: int)
      requires Valid() && 0 <= length <= out.Length && out != waterLevelBuffer
      modifies out
      ensures status == 0
      ensures forall i :: 0 <= i < length ==> out[i] == waterLevelBuffer[(bufferIndex + i) % WindowSize] / 100.0
      ensures forall i :: length <= i < out.Length ==> out[i] == old(out[i])
    {
      for i := 0 to length
        invariant forall j :: 0 <= j < i ==> out[j] == waterLevelBuffer[(bufferIndex + j) % WindowSize] / 100.0
        invariant forall j :: i <= j < out.Length ==> out[j] == old(out[j])
      {
        out[i] := waterLevelBuffer[(bufferIndex + i) % WindowSize] / 100.0;
      }
      status := 0;
    }

    /** `run_sensor_inference`: the model sees the window oldest first, divided by 100. */
    method RunSensorInference(model: seq<real> -> Inference) returns (cls: int)
      requires Valid()
      ensures cls == WaterLevelClassOf(model(Normalised(Samples())))
      ensures 0 <= cls <= 2
    {
      var out := new real[WindowSize];
      var _ := GetSensorData(0, WindowSize, out);
      forall i | 0 <= i < WindowSize ensures out[i] == Normalised(Samples())[i] {
        SlotOfSample(i);
      }
      assert out[..] == Normalised(Samples());
      cls := SensorClass(model(out[..]));
    }

    /** `run_environmental_inference`: the probability of `high_risk`, 0.0 on error. */
    method RunEnvironmentalInference(model: seq<real> -> Inference) returns (risk: real)
      ensures risk == LabelScore(model(EnvFeatures()), "high_risk")
    {
      risk := ScoreOf(model(EnvFeatures()), "high_risk");
    }

    /** The environmental task: `read_dht22` (skipped when a reading is NaN,
        given here as `None`), `read_bmp280` and `read_rain_sensor`. */
    method ReadEnvironment(dht: Option<(real, real)>, pressurePa: real, rainAdc: int)
      modifies this`temperature, this`humidity, this`pressure, this`rainfall
      ensures dht.Some? ==> temperature == Clamp(dht.value.0, 15.0, 40.0) && humidity == Clamp(dht.value.1, 0.0, 100.0)
      ensures dht.None? ==> temperature == old(temperature) && humidity == old(humidity)
      ensures pressure == Clamp(pressurePa / 100.0, 990.0, 1040.0)
      ensures rainfall == RainfallFromAdc(rainAdc)
    {
      if dht.Some? {
        temperature := Clamp(dht.value.0, 15.0, 40.0);
        humidity := Clamp(dht.value.1, 0.0, 100.0);
      }
      pressure := Clamp(pressurePa / 100.0, 990.0, 1040.0);
      rainfall := RainfallFromAdc(rainAdc);
    }

    /** `fuse_and_alert`: writes the score, level and message of `Fuse`. */
    method FuseAndAlert()
      modifies this`alertScore, this`alertLevel, this`alertMessage
      ensures Decision(alertScore, alertLevel, alertMessage) == Fuse(blockageScore, waterLevelClass, floodRisk)
    {
      var d := Fuse(blockageScore, waterLevelClass, floodRisk);
      alertScore := d.score;
      alertLevel := d.level;
      alertMessage := d.message;
    }

    /** The inference cycle: three models, fusion, and `send_alert` unless LOW. */
    method RunInferenceCycle(visual: Inference, sensorModel: seq<real> -> Inference, envModel: seq<real> -> Inference)
      returns (alerted: bool)
      requires Valid()
      modifies this`blockageScore, this`waterLevelClass, this`floodRisk, this`alertScore, this`alertLevel, this`alertMessage
      ensures Valid()
      ensures blockageScore == LabelScore(visual, "blockage")
      ensures waterLevelClass == WaterLevelClassOf(sensorModel(Normalised(Samples())))
      ensures floodRisk == LabelScore(envModel(EnvFeatures()), "high_risk")
      ensures Decision(alertScore, alertLevel, alertMessage) == Fuse(blockageScore, waterLevelClass, floodRisk)
      ensures alerted <==> alertLevel != Low
    {
      blockageScore := ScoreOf(visual, "blockage");
      waterLevelClass := RunSensorInference(sensorModel);
      floodRisk := RunEnvironmentalInference(envModel);
      FuseAndAlert();
      alerted := alertLevel != Low;
    }

    /** The environmental task of `loop()`: due every 60 s. */
    method EnvTask(now: int, dht: Option<(real, real)>, pressurePa: real, rainAdc: int) returns (fired: bool)
      requires Valid() && 0 <= now < ULongModulus
      modifies this`temperature, this`humidity, this`pressure, this`rainfall, this`lastEnvTime
      ensures Valid()
      ensures fired == Due(now, old(lastEnvTime), EnvInterval)
      ensures lastEnvTime == if fired then now else old(lastEnvTime)
      ensures !fired ==> temperature == old(temperature) && humidity == old(humidity)
                         && pressure == old(pressure) && rainfall == old(rainfall)
      ensures fired && dht.Some? ==> temperature == Clamp(dht.value.0, 15.0, 40.0) && humidity == Clamp(dht.value.1, 0.0, 100.0)
      ensures fired && dht.None? ==> temperature == old(temperature) && humidity == old(humidity)
      ensures fired ==> pressure == Clamp(pressurePa / 100.0, 990.0, 1040.0) && rainfall == RainfallFromAdc(rainAdc)
    {
      fired := Elapsed(now, lastEnvTime) >= EnvInterval;
      if fired {
        ReadEnvironment(dht, pressurePa, rainAdc);
        lastEnvTime := now;
      }
    }

    /** The ultrasonic task of `loop()`: due every second, pushes one sample. */
    method SensorTask(now: int, echo: nat) returns (fired: bool)
      requires Valid() && 0 <= now < ULongModulus
      modifies this`waterLevel, this`bufferIndex, waterLevelBuffer, this`lastSensorTime
      ensures Valid()
      ensures fired == Due(now, old(lastSensorTime), SensorInterval)
      ensures lastSensorTime == if fired then now else old(lastSensorTime)
      ensures Samples() == if fired then old(Samples())[1..] + [EchoDistance(echo)] else old(Samples())
      ensures waterLevel == if fired then EchoDistance(echo) else old(waterLevel)
    {
      fired := Elapsed(now, lastSensorTime) >= SensorInterval;
      if fired {
        UpdateWaterLevelBuffer(EchoDistance(echo));
        lastSensorTime := now;
      }
    }

    /** The inference task of `loop()`: due every 5 s. */
    method CameraTask(now: int, visual: Inference, sensorModel: seq<real> -> Inference, envModel: seq<real> -> Inference)
      returns (fired: bool, alerted: bool)
      requires Valid() && 0 <= now < ULongModulus
      modifies this`blockageScore, this`waterLevelClass, this`floodRisk, this`alertScore, this`alertLevel,
               this`alertMessage, this`lastCameraTime
      ensures Valid()
      ensures fired == Due(now, old(lastCameraTime), CameraInterval)
      ensures lastCameraTime == if fired then now else old(lastCameraTime)
      ensures alerted <==> fired && alertLevel != Low
      ensures !fired ==> && blockageScore == old(blockageScore) && waterLevelClass == old(waterLevelClass)
                         && floodRisk == old(floodRisk) && alertScore == old(alertScore)
                         && alertLevel == old(alertLevel) && alertMessage == old(alertMessage)
      ensures fired ==> && blockageScore == LabelScore(visual, "blockage")
                        && waterLevelClass == WaterLevelClassOf(sensorModel(Normalised(Samples())))
                        && floodRisk == LabelScore(envModel(EnvFeatures()), "high_risk")
                        && Decision(alertScore, alertLevel, alertMessage) == Fuse(blockageScore, waterLevelClass, floodRisk)
    {
      fired := Elapsed(now, lastCameraTime) >= CameraInterval;
      alerted := false;
      if fired {
        alerted := RunInferenceCycle(visual, sensorModel, envModel);
        lastCameraTime := now;
      }
    }

    /** One pass of `loop()` at time `now` (the value of `millis()`). Each task
        fires when at least its period has elapsed and then snaps its timer to
        `now`. The tasks run in the order environment, ultrasonic, inference:
        an inference cycle sees the environmental readings and the water-level
        sample taken earlier in the same pass. `tasks` lists what was done. */
    method Loop(now: int, dht: Option<(real, real)>, pressurePa: real, rainAdc: int, echo: nat,
                visual: Inference, sensorModel: seq<real> -> Inference, envModel: seq<real> -> Inference)
      returns (tasks: seq<Task>)
      requires Valid() && 0 <= now < ULongModulus
      modifies this, waterLevelBuffer
      ensures Valid()
      ensures lastEnvTime == (if Due(now, old(lastEnvTime), EnvInterval) then now else old(lastEnvTime))
      ensures lastSensorTime == (if Due(now, old(lastSensorTime), SensorInterval) then now else old(lastSensorTime))
      ensures lastCameraTime == (if Due(now, old(lastCameraTime), CameraInterval) then now else old(lastCameraTime))
      // The environmental task: new readings when due, the old ones otherwise.
      ensures Due(now, old(lastEnvTime), EnvInterval) && dht.Some? ==>
                temperature == Clamp(dht.value.0, 15.0, 40.0) && humidity == Clamp(dht.value.1, 0.0, 100.0)
      ensures !(Due(now, old(lastEnvTime), EnvInterval) && dht.Some?) ==>
                temperature == old(temperature) && humidity == old(humidity)
      ensures pressure == (if Due(now, old(lastEnvTime), EnvInterval) then Clamp(pressurePa / 100.0, 990.0, 1040.0) else old(pressure))
      ensures rainfall == (if Due(now, old(lastEnvTime), EnvInterval) then RainfallFromAdc(rainAdc) else old(rainfall))
      // The ultrasonic task.
      ensures waterLevel == (if Due(now, old(lastSensorTime), SensorInterval) then EchoDistance(echo) else old(waterLevel))
      ensures Samples() == (if Due(now, old(lastSensorTime), SensorInterval)
                            then old(Samples())[1..] + [EchoDistance(echo)] else old(Samples()))
      // The inference task sees the readings and the sample taken earlier in the same pass.
      ensures !Due(now, old(lastCameraTime), CameraInterval) ==>
                && blockageScore == old(blockageScore) && waterLevelClass == old(waterLevelClass) && floodRisk == old(floodRisk)
                && alertLevel == old(alertLevel) && alertMessage == old(alertMessage) && alertScore == old(alertScore)
      ensures Due(now, old(lastCameraTime), CameraInterval) ==>
                && blockageScore == LabelScore(visual, "blockage")
                && waterLevelClass == WaterLevelClassOf(sensorModel(Normalised(Samples())))
                && floodRisk == LabelScore(envModel(EnvFeatures()), "high_risk")
                && Decision(alertScore, alertLevel, alertMessage) == Fuse(blockageScore, waterLevelClass, floodRisk)
      // Readings inside their ranges stay inside them, for any 12-bit rain reading.
      ensures old(ReadingsValid()) && 0 <= rainAdc <= 4095 ==> ReadingsValid()
      ensures tasks == (if Due(now, old(lastEnvTime), EnvInterval) then [EnvRead] else [])
                     + (if Due(now, old(lastSensorTime), SensorInterval) then [WaterLevelRead] else [])
                     + (if Due(now, old(lastCameraTime), CameraInterval)
                        then [InferenceCycle] + (if alertLevel != Low then [AlertSent] else []) else [])
    {
      var envFired := EnvTask(now, dht, pressurePa, rainAdc);
      var sensorFired := SensorTask(now, echo);
      var cameraFired, alerted := CameraTask(now, visual, sensorModel, envModel);
      tasks := (if envFired then [EnvRead] else [])
             + (if sensorFired then [WaterLevelRead] else [])
             + (if cameraFired then [InferenceCycle] + (if alerted then [AlertSent] else []) else []);
    }
  }

  /** A task that has just fired is not due again at the same tick, however
      late the loop ran: one fire, never a backlog. */
  lemma NoBacklogAfterFire(now: int, interval: int)
    requires 0 <= now < ULongModulus && interval > 0
    ensures !Due(now, now, interval)
  {
  }

  /** After firing at `last`, the task fires next exactly when `interval`
      milliseconds have passed, counted from `last` itself, across the 32-bit
      wrap of `millis()`. */
  lemma {:induction false} NextFireAfterInterval(last: int, d: int, interval: int)
    requires 0 <= last < ULongModulus && 0 <= d < ULongModulus && 0 < interval
    ensures Due((last + d) % ULongModulus, last, interval) <==> d >= interval
  {
    var now := (last + d) % ULongModulus;
    if last + d < ULongModulus {
      assert now == last + d;
    } else {
      assert now == last + d - ULongModulus;
      assert Elapsed(now, last) == d;
    }
  }

  /** The timers' wrap: 1000 ms after a timer set just before the wrap. */
  lemma SchedulerWrapExample()
    ensures Due(500, ULongModulus - 500, SensorInterval)
    ensures !Due(499, ULongModulus - 500, SensorInterval)
  {
  }
}
