/**
 * The synthetic training-data generator: the flood-risk formula and the
 * labelling rule of the environmental dataset, the 60-sample water-level
 * sequences, and the loops that build both datasets.
 *
 * Every random draw (`np.random.normal`, `np.random.exponential`) is an
 * input; writing the JSON files is not modelled.
 */
module SyntheticData {
  import opened Common
  import Firmware

  /** Samples per water-level sequence (60 s at 1 Hz). */
  const SequenceLength: int := 60

  /** Risk score (0-100) from which an environmental sample is labelled 1. */
  const HighRiskFrom: real := 40.0

  const NormalSamples: int := 3000
  const HeavyRainSamples: int := 2000

  /** The scenarios of the water-level dataset, in generation order, with their counts. */
  const SensorSchedule: seq<(string, int)> := [("normal", 500), ("elevated", 300), ("critical", 200)]

  // ---------------------------------------------------------------------------
  // Flood risk and the environmental labels
  // ---------------------------------------------------------------------------

  /** One draw of the five environmental readings (also the stored, clipped form). */
  datatype EnvSample = EnvSample(temperature: real, humidity: real, pressure: real, rainfall: real, waterLevel: real)

  function Min1(x: real): real
  {
    if x < 1.0 then x else 1.0
  }

  /** The generator's pressure normaliser: 990 hPa is 1, every 40 hPa above it one less. */
  function PressureNorm(pressure: real): real
  {
    1.0 - (pressure - 990.0) / 40.0
  }

  /** The weighted sum before scaling and clamping; rainfall and water level
      are capped at 1 but not floored, the other norms are neither. */
  function RawRisk(s: EnvSample): real
  {
    0.40 * Min1(s.waterLevel / 100.0)
    + 0.30 * Min1(s.rainfall / 100.0)
    + 0.15 * PressureNorm(s.pressure)
    + 0.10 * (s.humidity / 100.0)
    + 0.05 * ((s.temperature - 15.0) / 25.0)
  }

  /** `calculate_flood_risk`: the weighted sum scaled to 0-100 and clamped. */
  function FloodRisk(s: EnvSample): (risk: real)
    ensures 0.0 <= risk <= 100.0
    ensures 0.0 <= RawRisk(s) * 100.0 <= 100.0 ==> risk == RawRisk(s) * 100.0
  {
    Clamp(RawRisk(s) * 100.0, 0.0, 100.0)
  }

  /** The weights sum to one: every norm at 0 gives risk 0, every norm at 1 gives 100. */
  lemma RiskRange()
    ensures FloodRisk(EnvSample(15.0, 0.0, 1030.0, 0.0, 0.0)) == 0.0
    ensures FloodRisk(EnvSample(40.0, 100.0, 990.0, 100.0, 100.0)) == 100.0
  {
  }

  /** Risk never falls with temperature, humidity, rainfall or water level,
      and never rises with pressure. */
  lemma RiskMonotone(s: EnvSample, t: EnvSample)
    requires s.temperature <= t.temperature && s.humidity <= t.humidity
    requires s.rainfall <= t.rainfall && s.waterLevel <= t.waterLevel
    requires s.pressure >= t.pressure
    ensures FloodRisk(s) <= FloodRisk(t)
  {
    assert RawRisk(s) <= RawRisk(t);
  }

  /** Rainfall above 100 mm/h and a water level above 100 cm add nothing;
      negative values of either are not floored and lower the weighted sum. */
  lemma RainCappedNotFloored(s: EnvSample, r: real, w: real)
    ensures r >= 100.0 ==> FloodRisk(s.(rainfall := r)) == FloodRisk(s.(rainfall := 100.0))
    ensures r < 0.0 ==> RawRisk(s.(rainfall := r)) < RawRisk(s.(rainfall := 0.0))
    ensures w >= 100.0 ==> FloodRisk(s.(waterLevel := w)) == FloodRisk(s.(waterLevel := 100.0))
    ensures w < 0.0 ==> RawRisk(s.(waterLevel := w)) < RawRisk(s.(waterLevel := 0.0))
  {
  }

  /** The generator and the firmware's environmental feature normalise
      pressure differently (40 hPa against 50 hPa); they agree only at 990 hPa. */
  lemma PressureNormalisersDiffer(p: real)
    ensures PressureNorm(p) == Firmware.PressureFeature(p) <==> p == 990.0
  {
    if PressureNorm(p) == Firmware.PressureFeature(p) {
      assert (p - 990.0) / 40.0 == (p - 990.0) / 50.0;
    }
  }

  /** The labelling rule for normal-condition samples: 0 below a risk of 40, else 1. */
  function EnvLabel(risk: real): (l: int)
    ensures l == 0 <==> risk < HighRiskFrom
    ensures l == 1 <==> risk >= HighRiskFrom
  {
    if risk < HighRiskFrom then 0 else 1
  }

  /** The stored features: each reading clipped to its range. */
  function Clipped(s: EnvSample): (c: EnvSample)
    ensures 15.0 <= c.temperature <= 40.0 && 0.0 <= c.humidity <= 100.0
    ensures 990.0 <= c.pressure <= 1040.0 && 0.0 <= c.rainfall <= 100.0 && 0.0 <= c.waterLevel <= 100.0
  {
    EnvSample(Clamp(s.temperature, 15.0, 40.0), Clamp(s.humidity, 0.0, 100.0),
              Clamp(s.pressure, 990.0, 1040.0), Clamp(s.rainfall, 0.0, 100.0),
              Clamp(s.waterLevel, 0.0, 100.0))
  }

  /** The label is computed from the unclipped draw, so the stored features
      need not determine it: a 10 °C draw is labelled 0 but stored as 15 °C,
      whose risk is 40. */
  lemma LabelFromUnclippedDraw()
    ensures var draw := EnvSample(10.0, 100.0, 1030.0, 0.0, 75.0);
      EnvLabel(FloodRisk(draw)) == 0 && EnvLabel(FloodRisk(Clipped(draw))) == 1
  {
    var draw := EnvSample(10.0, 100.0, 1030.0, 0.0, 75.0);
    assert RawRisk(draw) == 0.39;
    assert RawRisk(Clipped(draw)) == 0.40;
  }

  /** The environmental dataset: 3000 normal-condition draws labelled by
      their risk, then 2000 heavy-rain draws all labelled 1. */
  method GenerateEnvDataset(normal: seq<EnvSample>, heavy: seq<EnvSample>) returns (data: seq<EnvSample>, labels: seq<int>)
    requires |normal| == NormalSamples && |heavy| == HeavyRainSamples
    ensures |data| == |labels| == NormalSamples + HeavyRainSamples
    ensures forall i :: 0 <= i < NormalSamples ==> data[i] == Clipped(normal[i]) && labels[i] == EnvLabel(FloodRisk(normal[i]))
    ensures forall i :: NormalSamples <= i < |data| ==> data[i] == Clipped(heavy[i - NormalSamples]) && labels[i] == 1
  {
    data, labels := [], [];
    var n := 0;
    while n < NormalSamples
      invariant 0 <= n <= NormalSamples && |data| == |labels| == n
      invariant forall i :: 0 <= i < n ==> data[i] == Clipped(normal[i]) && labels[i] == EnvLabel(FloodRisk(normal[i]))
    {
      var risk := FloodRisk(normal[n]);
      data := data + [Clipped(normal[n])];
      labels := labels + [if risk < HighRiskFrom then 0 else 1];
      n := n + 1;
    }
    var h := 0;
    while h < HeavyRainSamples
      invariant 0 <= h <= HeavyRainSamples && |data| == |labels| == NormalSamples + h
      invariant forall i :: 0 <= i < NormalSamples ==> data[i] == Clipped(normal[i]) && labels[i] == EnvLabel(FloodRisk(normal[i]))
      invariant forall i :: NormalSamples <= i < |data| ==> data[i] == Clipped(heavy[i - NormalSamples]) && labels[i] == 1
    {
      data := data + [Clipped(heavy[h])];
      labels := labels + [1];
      h := h + 1;
    }
  }

  // ---------------------------------------------------------------------------
  // Water-level sequences
  // ---------------------------------------------------------------------------

  /** `np.linspace(a, b, 60)[i]`. */
  function Linspace(a: real, b: real, i: int): real
  {
    a + (b - a) * (i as real) / ((SequenceLength - 1) as real)
  }

  /** The deterministic part of a scenario: flat (the normal draw carries its
      own mean of 20 cm), or a ramp over 30-50 cm or 50-80 cm. */
  function Trend(scenario: string, i: int): real
  {
    if scenario == "elevated" then Linspace(30.0, 50.0, i)
    else if scenario == "critical" then Linspace(50.0, 80.0, i)
    else 0.0
  }

  /** The ramps start and end where the scenarios say and never fall, and the
      critical ramp lies above the elevated one. */
  lemma TrendShape(i: int, j: int)
    requires 0 <= i <= j < SequenceLength
    ensures Trend("elevated", 0) == 30.0 && Trend("elevated", SequenceLength - 1) == 50.0
    ensures Trend("critical", 0) == 50.0 && Trend("critical", SequenceLength - 1) == 80.0
    ensures Trend("elevated", i) <= Trend("elevated", j) && Trend("critical", i) <= Trend("critical", j)
    ensures Trend("elevated", i) < Trend("critical", i)
  {
  }

  /** `generate_water_level_sequence`, with the scenario's draws and the
      measurement noise as inputs: an unknown scenario raises (`base` is never
      bound). */
  function GenerateWaterLevelSequence(scenario: string, draws: seq<real>, noise: seq<real>): (r: Option<(seq<real>, int)>)
    requires |draws| == SequenceLength && |noise| == SequenceLength
    ensures r.None? <==> scenario !in {"normal", "elevated", "critical"}
    ensures r.Some? ==> |r.value.0| == SequenceLength
    ensures r.Some? ==> forall i :: 0 <= i < SequenceLength ==>
              r.value.0[i] == Clamp(Trend(scenario, i) + draws[i] + noise[i], 0.0, 100.0)
    ensures r.Some? ==> r.value.1 == (if scenario == "normal" then 0 else if scenario == "elevated" then 1 else 2)
  {
    if scenario !in {"normal", "elevated", "critical"} then None
    else
      var lab := if scenario == "normal" then 0 else if scenario == "elevated" then 1 else 2;
      Some((seq(SequenceLength, i requires 0 <= i < SequenceLength => Clamp(Trend(scenario, i) + draws[i] + noise[i], 0.0, 100.0)), lab))
  }

  /** Every sample of a generated sequence lies in [0, 100]. */
  lemma SequenceClipped(scenario: string, draws: seq<real>, noise: seq<real>, i: int)
    requires |draws| == SequenceLength && |noise| == SequenceLength && 0 <= i < SequenceLength
    requires scenario in {"normal", "elevated", "critical"}
    ensures var r := GenerateWaterLevelSequence(scenario, draws, noise);
      r.Some? && 0.0 <= r.value.0[i] <= 100.0
  {
  }

  /** With the same draws, a critical sequence is pointwise at least as high
      as an elevated one. */
  lemma CriticalAboveElevated(draws: seq<real>, noise: seq<real>, i: int)
    requires |draws| == SequenceLength && |noise| == SequenceLength && 0 <= i < SequenceLength
    ensures GenerateWaterLevelSequence("elevated", draws, noise).value.0[i]
         <= GenerateWaterLevelSequence("critical", draws, noise).value.0[i]
  {
    TrendShape(i, i);
  }

  /** The scenario of the `k`-th generated sequence under the fixed schedule. */
  function ScenarioAt(k: int): string
  {
    if k < 500 then "normal" else if k < 800 then "elevated" else "critical"
  }

  /** Where block `b` of the schedule starts. */
  function BlockStart(b: int): int
    requires 0 <= b <= |SensorSchedule|
  {
    if b == 0 then 0 else BlockStart(b - 1) + SensorSchedule[b - 1].1
  }

  /** The blocks of the schedule tile 0..1000 and agree with `ScenarioAt`. */
  lemma ScheduleBlocks(b: int, k: int)
    requires 0 <= b < |SensorSchedule| && BlockStart(b) <= k < BlockStart(b + 1)
    ensures ScenarioAt(k) == SensorSchedule[b].0
  {
    assert BlockStart(1) == 500 && BlockStart(2) == 800 && BlockStart(3) == 1000;
  }

  /** The water-level dataset: for each scenario in turn, as many sequences
      as its count; `draws[k]` and `noise[k]` feed the `k`-th sequence. */
  method GenerateSensorDataset(draws: seq<seq<real>>, noise: seq<seq<real>>) returns (data: seq<seq<real>>, labels: seq<int>)
    requires |draws| == |noise| == 1000
    requires forall k :: 0 <= k < 1000 ==> |draws[k]| == SequenceLength && |noise[k]| == SequenceLength
    ensures |data| == |labels| == 1000
    ensures forall k :: 0 <= k < 1000 ==>
              GenerateWaterLevelSequence(ScenarioAt(k), draws[k], noise[k]) == Some((data[k], labels[k]))
    ensures forall k :: 0 <= k < 1000 ==> labels[k] == (if k < 500 then 0 else if k < 800 then 1 else 2)
  {
    data, labels := [], [];
    assert BlockStart(3) == 1000;
    var b := 0;
    while b < |SensorSchedule|
      invariant 0 <= b <= |SensorSchedule| && |data| == |labels| == BlockStart(b)
      invariant forall k :: 0 <= k < |data| ==>
                  GenerateWaterLevelSequence(ScenarioAt(k), draws[k], noise[k]) == Some((data[k], labels[k]))
    {
      var (scenario, count) := SensorSchedule[b];
      var c := 0;
      while c < count
        invariant 0 <= c <= count && |data| == |labels| == BlockStart(b) + c
        invariant forall k :: 0 <= k < |data| ==>
                    GenerateWaterLevelSequence(ScenarioAt(k), draws[k], noise[k]) == Some((data[k], labels[k]))
      {
        var k := |data|;
        ScheduleBlocks(b, k);
        var r := GenerateWaterLevelSequence(scenario, draws[k], noise[k]);
        data := data + [r.value.0];
        labels := labels + [r.value.1];
        c := c + 1;
      }
      b := b + 1;
    }
  }
}
