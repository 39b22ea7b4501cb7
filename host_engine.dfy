/**
 * The host application's alert-level engine: the sensor callback that keeps
 * a one-hour water-level history and the rate of rise, the composite risk
 * score, the GREEN/YELLOW/ORANGE/RED rule chain, and the escalation rule that
 * decides when a notification is sent and when the relay is switched.
 *
 * `time.time()` is the `now` parameter (seconds). Switching the relay is
 * reported as an event rather than performed.
 */
module HostEngine {
  import opened Common
  import Alerts
  import AiDetector

  const Green: string := "GREEN"
  const Yellow: string := "YELLOW"
  const Orange: string := "ORANGE"
  const Red: string := "RED"

  /** `max_history`: one hour of samples, in seconds. */
  const MaxHistory: real := 3600.0

  /** Number of samples the rate of rise looks back over. */
  const RateWindow: int := 60

  /** A history entry: arrival time and the `water_level_cm` value received. */
  type Sample = (real, Value)

  // ---------------------------------------------------------------------------
  // Risk score and level chain
  // ---------------------------------------------------------------------------

  /** `min(1.0, max(0, rate) / 10) if rate > 0 else 0`: 10 cm/min is full risk. */
  function RateRisk(rate: real): (r: real)
    ensures 0.0 <= r <= 1.0
    ensures rate <= 0.0 ==> r == 0.0
    ensures 0.0 < rate <= 10.0 ==> r == rate / 10.0
    ensures rate >= 10.0 ==> r == 1.0
  {
    if rate > 0.0 then (if rate / 10.0 < 1.0 then rate / 10.0 else 1.0) else 0.0
  }

  /** The composite risk: 0.4 water, 0.4 blockage confidence (when blocked), 0.2 rate.
      The weights sum to one, so in-range inputs give a risk in [0, 1]; an
      undetected blockage contributes nothing whatever its confidence, so
      without one the risk alone never exceeds 0.6. */
  function RiskScore(waterPct: real, blocked: bool, confidence: real, rate: real): (risk: real)
    ensures 0.0 <= waterPct <= 100.0 && 0.0 <= confidence <= 1.0 ==> 0.0 <= risk <= 1.0
    ensures !blocked && waterPct <= 100.0 ==> risk <= 0.6
  {
    0.4 * (waterPct / 100.0) + 0.4 * (if blocked then confidence else 0.0) + 0.2 * RateRisk(rate)
  }

  /** The first-match level chain of `calculate_alert_level`. */
  function LevelFor(waterPct: real, blocked: bool, confidence: real, rate: real): (level: string)
    ensures level in {Green, Yellow, Orange, Red}
    ensures var risk := RiskScore(waterPct, blocked, confidence, rate);
      && (level == Red <==> risk > 0.8 || waterPct > 90.0)
      && (level == Orange <==> !(risk > 0.8 || waterPct > 90.0)
                                && (risk > 0.6 || waterPct > 70.0 || (blocked && confidence > 0.8)))
      && (level == Green <==> risk <= 0.4 && waterPct <= 50.0 && !blocked)
  {
    var risk := RiskScore(waterPct, blocked, confidence, rate);
    if risk > 0.8 || waterPct > 90.0 then Red
    else if risk > 0.6 || waterPct > 70.0 || (blocked && confidence > 0.8) then Orange
    else if risk > 0.4 || waterPct > 50.0 || blocked then Yellow
    else Green
  }

  /** `_level_priority`: GREEN 0, YELLOW 1, ORANGE 2, RED 3, anything else 0. */
  function LevelPriority(level: string): (p: nat)
    ensures p <= 3
    ensures level == Green ==> p == 0
    ensures level == Yellow ==> p == 1
    ensures level == Orange ==> p == 2
    ensures level == Red ==> p == 3
    ensures level !in {Yellow, Orange, Red} ==> p == 0
  {
    if level == Yellow then 1
    else if level == Orange then 2
    else if level == Red then 3
    else 0
  }

  /** The priority ranks the four levels in the order GREEN < YELLOW <
      ORANGE < RED, so distinct levels have distinct priorities. */
  lemma PriorityRanksLevels(a: string, b: string)
    requires a in {Green, Yellow, Orange, Red} && b in {Green, Yellow, Orange, Red}
    ensures LevelPriority(Green) < LevelPriority(Yellow) < LevelPriority(Orange) < LevelPriority(Red)
    ensures LevelPriority(a) == LevelPriority(b) <==> a == b
  {
  }

  /** A blockage detected at all lifts the level above GREEN; with more than
      0.8 confidence it lifts it to at least ORANGE. */
  lemma BlockageRaisesLevel(waterPct: real, confidence: real, rate: real)
    ensures LevelFor(waterPct, true, confidence, rate) != Green
    ensures confidence > 0.8 ==> LevelPriority(LevelFor(waterPct, true, confidence, rate)) >= 2
  {
  }

  /** A higher water percentage never lowers the level. */
  lemma LevelMonotoneInWater(p1: real, p2: real, blocked: bool, confidence: real, rate: real)
    requires p1 <= p2
    ensures LevelPriority(LevelFor(p1, blocked, confidence, rate)) <= LevelPriority(LevelFor(p2, blocked, confidence, rate))
  {
  }

  // ---------------------------------------------------------------------------
  // History
  // ---------------------------------------------------------------------------

  /** `[(t, l) for t, l in history if t > cutoff]`. */
  function KeepAfter(history: seq<Sample>, cutoff: real): (r: seq<Sample>)
    ensures |r| <= |history|
  {
    if history == [] then []
    else (if history[0].0 > cutoff then [history[0]] else []) + KeepAfter(history[1..], cutoff)
  }

  /** An entry is kept iff it was present and is newer than the cutoff. */
  lemma {:induction false} KeepAfterMembers(history: seq<Sample>, cutoff: real, e: Sample)
    ensures e in KeepAfter(history, cutoff) <==> e in history && e.0 > cutoff
  {
    if history != [] {
      KeepAfterMembers(history[1..], cutoff, e);
      assert history == [history[0]] + history[1..];
    }
  }

  /** Filtering distributes over concatenation, so the kept entries stay in
      their original order. */
  lemma {:induction false} KeepAfterAppend(a: seq<Sample>, b: seq<Sample>, cutoff: real)
    ensures KeepAfter(a + b, cutoff) == KeepAfter(a, cutoff) + KeepAfter(b, cutoff)
  {
    if a == [] {
      assert a + b == b;
    } else {
      assert (a + b)[0] == a[0];
      assert (a + b)[1..] == a[1..] + b;
      KeepAfterAppend(a[1..], b, cutoff);
    }
  }

  /** The entry just appended survives the trim (its time is `now > now - 3600`)
      and stays last. */
  lemma NewestKept(history: seq<Sample>, now: real, level: Value)
    ensures var h := KeepAfter(history + [(now, level)], now - MaxHistory);
      |h| >= 1 && h[|h| - 1] == (now, level)
  {
    KeepAfterAppend(history, [(now, level)], now - MaxHistory);
    assert KeepAfter([(now, level)], now - MaxHistory) == [(now, level)];
  }

  /** The rate of rise in cm per minute between the 60th-from-last sample and
      the last one: `None` when the history is too short or no time passed;
      `Some(None)` when a level is not a number (Python raises `TypeError`). */
  function RateOfRise(history: seq<Sample>): (r: Option<Option<real>>)
    ensures |history| < RateWindow ==> r.None?
    ensures r.Some? ==> |history| >= RateWindow && history[|history| - 1].0 > history[|history| - RateWindow].0
    ensures r.Some? ==> (r.value.None? <==> AsNumber(history[|history| - RateWindow].1).None?
                                            || AsNumber(history[|history| - 1].1).None?)
    ensures |history| >= RateWindow && history[|history| - 1].0 > history[|history| - RateWindow].0 ==> r.Some?
  {
    if |history| < RateWindow then None
    else
      var older := history[|history| - RateWindow];
      var newer := history[|history| - 1];
      var minutes := (newer.0 - older.0) / 60.0;
      if minutes <= 0.0 then None
      else match (AsNumber(older.1), AsNumber(newer.1))
        case (Some(o), Some(n)) => Some(Some((o - n) / minutes))
        case _ => Some(None)
  }

  /** The rate is positive exactly when the distance shrank (water rose). */
  lemma RateSign(history: seq<Sample>)
    requires |history| >= RateWindow
    requires history[|history| - 1].0 > history[|history| - RateWindow].0
    requires history[|history| - 1].1.Num? && history[|history| - RateWindow].1.Num?
    ensures RateOfRise(history).Some? && RateOfRise(history).value.Some?
    ensures RateOfRise(history).value.value > 0.0 <==> history[|history| - RateWindow].1.n > history[|history| - 1].1.n
  {
    var o := history[|history| - RateWindow].1.n;
    var n := history[|history| - 1].1.n;
    var minutes := (history[|history| - 1].0 - history[|history| - RateWindow].0) / 60.0;
    assert RateOfRise(history) == Some(Some((o - n) / minutes));
    if o > n {
      assert (o - n) / minutes > 0.0;
    } else {
      assert (o - n) / minutes <= 0.0 by {
        assert (n - o) / minutes >= 0.0;
        assert (o - n) / minutes == -((n - o) / minutes);
      }
    }
  }

  /** What `calculate_alert_level` did besides updating the level. */
  datatype Reaction = Reaction(notified: bool, relay: Option<bool>)

  /** The escalation rule: notify only when the priority rises; switch the
      relay on for an escalation to RED, off on a return to GREEN. */
  function ReactionTo(oldLevel: string, level: string): (r: Reaction)
    ensures r.notified <==> LevelPriority(level) > LevelPriority(oldLevel)
    ensures r.relay == Some(true) <==> r.notified && level == Red
    ensures r.relay == Some(false) <==> !r.notified && level == Green && oldLevel != Green
  {
    if LevelPriority(level) > LevelPriority(oldLevel) then
      Reaction(true, if level == Red then Some(true) else None)
    else if level == Green && oldLevel != Green then
      Reaction(false, Some(false))
    else
      Reaction(false, None)
  }

  /** De-escalation and an unchanged level never notify. */
  lemma NoNotifyWithoutEscalation(oldLevel: string, level: string)
    requires LevelPriority(level) <= LevelPriority(oldLevel)
    ensures !ReactionTo(oldLevel, level).notified
    ensures ReactionTo(oldLevel, level).relay != Some(true)
  {
  }

  /** Unknown stored levels rank like GREEN, so leaving one for GREEN switches
      the relay off without notifying. */
  lemma UnknownToGreenSwitchesOff(oldLevel: string)
    requires oldLevel !in {Green, Yellow, Orange, Red}
    ensures ReactionTo(oldLevel, Green) == Reaction(false, Some(false))
  {
  }

  class DrainSentinel {
    /** The fields of `current_state`. */
    var waterLevelCm: Value
    var waterLevelPercent: Value
    var blockageDetected: bool
    var blockageConfidence: real
    var blockageClass: string
    var alertLevel: string
    var rateOfRise: real
    /** `water_history`. */
    var waterHistory: seq<Sample>
    /** The alert system `send_alert` is called on. */
    const alerts: Alerts.AlertSystem

    constructor (alerts: Alerts.AlertSystem)
      ensures this.alerts == alerts
      ensures waterLevelCm == Num(0.0) && waterLevelPercent == Num(0.0)
      ensures !blockageDetected && blockageConfidence == 0.0 && blockageClass == "unknown"
      ensures alertLevel == Green && rateOfRise == 0.0 && waterHistory == []
    {
      this.alerts := alerts;
      waterLevelCm, waterLevelPercent := Num(0.0), Num(0.0);
      blockageDetected, blockageConfidence, blockageClass := false, 0.0, "unknown";
      alertLevel, rateOfRise, waterHistory := Green, 0.0, [];
    }

    /** `_on_sensor_data`: ignores data whose `valid` is missing or false;
        otherwise records the levels, appends to and trims the history, and
        recomputes the rate of rise when it can. `raised` reports the
        `TypeError` Python raises (after the history update) when a level in
        the rate computation is not a number. */
    method OnSensorData(data: map<string, Value>, now: real) returns (raised: bool)
      modifies this`waterLevelCm, this`waterLevelPercent, this`waterHistory, this`rateOfRise
      ensures !Truthy(Get(data, "valid", Bool(false))) ==>
                && !raised && waterLevelCm == old(waterLevelCm) && waterLevelPercent == old(waterLevelPercent)
                && waterHistory == old(waterHistory) && rateOfRise == old(rateOfRise)
      ensures Truthy(Get(data, "valid", Bool(false))) ==>
                && waterLevelCm == Get(data, "water_level_cm", Num(0.0))
                && waterLevelPercent == Get(data, "water_level_percent", Num(0.0))
                && waterHistory == KeepAfter(old(waterHistory) + [(now, waterLevelCm)], now - MaxHistory)
                && (raised <==> RateOfRise(waterHistory) == Some(None))
                && rateOfRise == (match RateOfRise(waterHistory)
                                  case Some(Some(r)) => r
                                  case _ => old(rateOfRise))
    {
      raised := false;
      if !Truthy(Get(data, "valid", Bool(false))) {
        return;
      }
      waterLevelCm := Get(data, "water_level_cm", Num(0.0));
      waterLevelPercent := Get(data, "water_level_percent", Num(0.0));
      var level := Get(data, "water_level_cm", Num(0.0));
      waterHistory := KeepAfter(waterHistory + [(now, level)], now - MaxHistory);
      if |waterHistory| >= RateWindow {
        var older := waterHistory[|waterHistory| - RateWindow];
        var newer := waterHistory[|waterHistory| - 1];
        var minutes := (newer.0 - older.0) / 60.0;
        if minutes > 0.0 {
          match (AsNumber(older.1), AsNumber(newer.1)) {
            case (Some(o), Some(n)) =>
              rateOfRise := (o - n) / minutes;
            case _ =>
              raised := true;
          }
        }
      }
    }

    /** The detection fields `update_camera` copies from a detector result. */
    method UpdateDetection(result: AiDetector.Detection)
      modifies this`blockageDetected, this`blockageConfidence, this`blockageClass
      ensures blockageDetected == result.blocked && blockageConfidence == result.confidence
      ensures blockageClass == if result.className.Some? then result.className.value else "unknown"
    {
      blockageDetected := result.blocked;
      blockageConfidence := result.confidence;
      blockageClass := if result.className.Some? then result.className.value else "unknown";
    }

    /** `calculate_alert_level`: always overwrites the level with the rule
        chain's, calls `send_alert` only on an escalation, and switches the
        relay as `ReactionTo` says. A water percentage that is not a number
        raises before anything changes (`ok` false). `details` is the rendered
        state summary that goes into the message. */
    method CalculateAlertLevel(now: real, details: string) returns (ok: bool, reaction: Reaction)
      modifies this`alertLevel, alerts`lastAlerts, alerts`log
      ensures ok <==> AsNumber(waterLevelPercent).Some?
      ensures !ok ==> alertLevel == old(alertLevel) && alerts.lastAlerts == old(alerts.lastAlerts) && alerts.log == old(alerts.log)
      ensures ok ==> alertLevel == LevelFor(AsNumber(waterLevelPercent).value, blockageDetected, blockageConfidence, rateOfRise)
      ensures ok ==> reaction == ReactionTo(old(alertLevel), alertLevel)
      ensures ok && !reaction.notified ==> alerts.lastAlerts == old(alerts.lastAlerts) && alerts.log == old(alerts.log)
      ensures ok && reaction.notified && Alerts.ShouldSend(old(alerts.lastAlerts), alerts.rateLimitMinutes, alertLevel, now) ==>
                alerts.lastAlerts == old(alerts.lastAlerts)[alertLevel := now]
                && alerts.log == Alerts.Trimmed(old(alerts.log) + [Alerts.LogEntry(now, alertLevel, Alerts.BuildMessage(alertLevel, details))])
      ensures ok && reaction.notified && !Alerts.ShouldSend(old(alerts.lastAlerts), alerts.rateLimitMinutes, alertLevel, now) ==>
                alerts.lastAlerts == old(alerts.lastAlerts) && alerts.log == old(alerts.log)
    {
      reaction := Reaction(false, None);
      var pct := AsNumber(waterLevelPercent);
      if pct.None? {
        return false, reaction;
      }
      ok := true;
      var level := LevelFor(pct.value, blockageDetected, blockageConfidence, rateOfRise);
      var oldLevel := alertLevel;
      alertLevel := level;
      reaction := ReactionTo(oldLevel, level);
      if reaction.notified {
        var _ := alerts.SendAlert(level, details, now);
      }
    }
  }
}
