/**
 * Post-processing of the blockage classifiers: from the scores of the
 * learned model, from the mock's brightness probability, or from the simple
 * detector's image statistics, to `{blocked, confidence, class_name}`.
 *
 * The learned model, the image decoding and the OpenCV statistics are
 * inputs: an image is present or not, the runner is absent, raises, or
 * returns its classification dictionary (as name/score pairs in insertion
 * order), and the mock's random perturbation is the `noise` parameter.
 */
module AiDetector {
  import opened Common

  const Clear: string := "clear"
  const Partial: string := "partial_blockage"
  const Full: string := "full_blockage"
  const Unknown: string := "unknown"

  /** The result dictionary; `className` is `None` where the dictionary has no
      `class_name` key. Timing and marker keys are not modelled. */
  datatype Detection = Detection(
    blocked: bool,
    confidence: real,
    className: Option<string>,
    allScores: seq<(string, real)>,
    error: bool)

  /** What the Edge Impulse runner did with an image. */
  datatype RunnerOutcome = Classified(scores: seq<(string, real)>) | Raised

  /** `_default_result`. */
  function DefaultResult(): (r: Detection)
    ensures !r.blocked && r.confidence == 0.0 && r.className == Some(Unknown) && r.error
  {
    Detection(false, 0.0, Some(Unknown), [], true)
  }

  /** `k` is where Python's `max(d, key=d.get)` stops: a greatest score, and
      the first one in iteration order. */
  predicate IsFirstMax(scores: seq<(string, real)>, k: int)
  {
    && 0 <= k < |scores|
    && (forall i :: 0 <= i < |scores| ==> scores[i].1 <= scores[k].1)
    && (forall i :: 0 <= i < k ==> scores[i].1 < scores[k].1)
  }

  /** The left-to-right scan `max` performs, replacing the best only on a
      strictly greater score. */
  function ArgMax(scores: seq<(string, real)>): (k: int)
    requires |scores| > 0
    ensures IsFirstMax(scores, k)
  {
    if |scores| == 1 then 0
    else
      var init := scores[..|scores| - 1];
      var k := ArgMax(init);
      assert forall i :: 0 <= i < |init| ==> init[i] == scores[i];
      if scores[|scores| - 1].1 > scores[k].1 then |scores| - 1 else k
  }

  /** There is only one first maximum. */
  lemma FirstMaxUnique(scores: seq<(string, real)>, k1: int, k2: int)
    requires IsFirstMax(scores, k1) && IsFirstMax(scores, k2)
    ensures k1 == k2
  {
    assert scores[k1].1 == scores[k2].1;
  }

  /** `BlockageDetector.detect` once the image has been loaded (`img` is the
      mean brightness of the image, used only by the mock) and the runner has
      run: no image or a raising runner gives the default result, and so does
      an empty classification, on which `max` raises. */
  function Detect(img: Option<real>, runner: Option<RunnerOutcome>, noise: real): (r: Detection)
    ensures img.None? ==> r == DefaultResult()
    ensures img.Some? && runner.None? ==> r == MockDetect(img.value, noise)
    ensures img.Some? && runner == Some(Raised) ==> r == DefaultResult()
    ensures img.Some? && runner == Some(Classified([])) ==> r == DefaultResult()
    ensures img.Some? && runner.Some? && runner.value.Classified? && runner.value.scores != [] ==>
              var scores := runner.value.scores;
              exists k :: IsFirstMax(scores, k)
                && r == Detection(scores[k].0 in {Partial, Full}, scores[k].1, Some(scores[k].0), scores, false)
  {
    match img
    case None => DefaultResult()
    case Some(brightness) =>
      match runner
      case None => MockDetect(brightness, noise)
      case Some(Raised) => DefaultResult()
      case Some(Classified(scores)) =>
        if scores == [] then DefaultResult()
        else
          var k := ArgMax(scores);
          Detection(scores[k].0 in {Partial, Full}, scores[k].1, Some(scores[k].0), scores, false)
  }

  /** The mock's blockage probability: darker is more likely blocked, shifted
      by the noise and clamped to [0, 1]. */
  function MockProbability(brightness: real, noise: real): (p: real)
    ensures 0.0 <= p <= 1.0
    ensures 0.0 <= 1.0 - brightness / 255.0 + noise <= 1.0 ==> p == 1.0 - brightness / 255.0 + noise
  {
    Clamp(1.0 - brightness / 255.0 + noise, 0.0, 1.0)
  }

  /** The class bands shared by the mock (0.7 / 0.4) and the simple detector
      (0.6 / 0.35). */
  function Band(score: real, fullAbove: real, partialAbove: real): (name: string)
    ensures name in {Clear, Partial, Full}
    ensures name == Full <==> score > fullAbove
    ensures name == Partial <==> !(score > fullAbove) && score > partialAbove
    ensures name == Clear <==> !(score > fullAbove) && !(score > partialAbove)
  {
    if score > fullAbove then Full else if score > partialAbove then Partial else Clear
  }

  /** The class rank of a band (clear 0, partial 1, full 2). */
  function Rank(name: string): nat
  {
    if name == Full then 2 else if name == Partial then 1 else 0
  }

  /** A higher score never gives a lower class. */
  lemma BandMonotone(s1: real, s2: real, fullAbove: real, partialAbove: real)
    requires partialAbove <= fullAbove && s1 <= s2
    ensures Rank(Band(s1, fullAbove, partialAbove)) <= Rank(Band(s2, fullAbove, partialAbove))
  {
  }

  /** `_mock_detect`. */
  function MockDetect(brightness: real, noise: real): (r: Detection)
    ensures var p := MockProbability(brightness, noise);
      && r.className == Some(Band(p, 0.7, 0.4))
      && (r.blocked <==> r.className != Some(Clear))
      && (r.blocked <==> p > 0.4)
      && r.confidence == (if r.blocked then p else 1.0 - p)
      && 0.4 < r.confidence <= 1.0
      && |r.allScores| == 3
      && r.allScores[0] == (Clear, 1.0 - p)
      && r.allScores[1].0 == Partial && r.allScores[2].0 == Full
      && r.allScores[1].1 + r.allScores[2].1 == p
      && !r.error
  {
    var p := MockProbability(brightness, noise);
    var name := Band(p, 0.7, 0.4);
    var blocked := name != Clear;
    Detection(blocked, if blocked then p else 1.0 - p, Some(name),
              [(Clear, 1.0 - p), (Partial, p * 0.6), (Full, p * 0.4)], false)
  }

  /** The mock's class need not be the first maximum of its own `all_scores`:
      at probability 0.5 it reports a partial blockage while "clear" scores
      highest. */
  lemma MockClassDiffersFromItsScores()
    ensures var r := MockDetect(127.5, 0.0);
      r.className == Some(Partial) && IsFirstMax(r.allScores, 0)
  {
    assert MockProbability(127.5, 0.0) == 0.5;
  }

  /** The image statistics the simple detector combines. */
  datatype ImageStats = ImageStats(meanBrightness: real, hueStd: real, edgeDensity: real)

  /** The simple detector's weighted blockage score: 0.4 darkness, 0.3 hue
      spread, 0.3 edge density (capped). For an 8-bit image whose hue spread
      is within OpenCV's hue range the score is in [0, 1]. */
  function SimpleScore(stats: ImageStats): (score: real)
    ensures (0.0 <= stats.meanBrightness <= 255.0 && 0.0 <= stats.hueStd <= 90.0 && 0.0 <= stats.edgeDensity)
              ==> 0.0 <= score <= 1.0
    ensures stats.meanBrightness == 255.0 && stats.hueStd == 0.0 && stats.edgeDensity == 0.0 ==> score == 0.0
  {
    var darkness := 1.0 - stats.meanBrightness / 255.0;
    var colorVariance := stats.hueStd / 90.0;
    var edges := if stats.edgeDensity * 10.0 < 1.0 then stats.edgeDensity * 10.0 else 1.0;
    0.4 * darkness + 0.3 * colorVariance + 0.3 * edges
  }

  /** Edge density counts for at most 0.3 of the score, reached at density 0.1. */
  lemma EdgeContributionCapped(stats: ImageStats, density: real)
    requires stats.edgeDensity >= 0.1 && density >= 0.1
    ensures SimpleScore(stats) == SimpleScore(stats.(edgeDensity := density))
  {
  }

  /** `SimpleBlockageDetector.detect`: `None` is an image that failed to load. */
  function SimpleDetect(stats: Option<ImageStats>): (r: Detection)
    ensures stats.None? ==> !r.blocked && r.confidence == 0.0 && r.className.None? && r.error
    ensures stats.Some? ==> var score := SimpleScore(stats.value);
      && r.className == Some(Band(score, 0.6, 0.35))
      && (r.blocked <==> r.className != Some(Clear))
      && (r.blocked <==> score > 0.35)
      && r.confidence == (if r.blocked then score else 1.0 - score)
      && (r.blocked ==> r.confidence > 0.35)
      && (!r.blocked ==> r.confidence >= 0.65)
      && !r.error
  {
    match stats
    case None => Detection(false, 0.0, None, [], true)
    case Some(s) =>
      var score := SimpleScore(s);
      var name := Band(score, 0.6, 0.35);
      var blocked := name != Clear;
      Detection(blocked, if blocked then score else 1.0 - score, Some(name),
                [("darkness", 1.0 - s.meanBrightness / 255.0), ("color_variance", s.hueStd / 90.0),
                 ("edge_density", s.edgeDensity)], false)
  }
}
