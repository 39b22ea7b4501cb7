/**
 * The host-side alert system: per-level rate limiting over a level-to-time
 * map, message formatting, and the bounded alert log.
 *
 * Times are seconds (`datetime.now()` is the `now` parameter). The alert log
 * is the content of the JSON log file; delivery over SMS, e-mail and webhook
 * is not modelled.
 */
module Alerts {
  import opened Common

  const MaxLogEntries: int := 1000

  /** Rate-limit minutes for a level missing from the configuration. */
  const FallbackRateLimitMinutes: real := 5.0

  const DefaultRateLimitMinutes: map<string, real> :=
    map["GREEN" := 60.0, "YELLOW" := 15.0, "ORANGE" := 5.0, "RED" := 1.0]

  const Messages: map<string, string> := map[
    "GREEN" := "Drainage system operating normally.",
    "YELLOW" := "Monitor closely: Slight blockage or elevated water detected.",
    "ORANGE" := "WARNING: Significant blockage or high water level. Take action.",
    "RED" := "CRITICAL: Flood imminent! Evacuate low-lying areas immediately."]

  const UnknownLevelMessage: string := "Unknown alert level"
  const MessagePrefix: string := "[DrainSentinel "

  /** One record of the alert log (the saved `state` dictionary is not modelled). */
  datatype LogEntry = LogEntry(timestamp: real, level: string, message: string)

  /** Python's `xs[start:]`, where a negative `start` counts from the end. */
  function PySliceFrom<T>(xs: seq<T>, start: int): (r: seq<T>)
  {
    if start >= 0 then (if start <= |xs| then xs[start..] else [])
    else if |xs| + start >= 0 then xs[|xs| + start..]
    else xs
  }

  /** `xs[-n:]` for `n > 0` is the last `min(n, |xs|)` elements; for `n == 0`
      it is all of `xs`, since `-0 == 0`. */
  lemma LastElements<T>(xs: seq<T>, n: int)
    ensures n > 0 ==> PySliceFrom(xs, -n) == xs[|xs| - (if n < |xs| then n else |xs|)..]
    ensures n == 0 ==> PySliceFrom(xs, -n) == xs
    ensures n > 0 ==> |PySliceFrom(xs, -n)| == if n < |xs| then n else |xs|
  {
  }

  /** `_log_to_file`'s `alerts[-1000:]`: the most recent 1000 entries, in order. */
  function Trimmed(log: seq<LogEntry>): (t: seq<LogEntry>)
    ensures |t| == if |log| < MaxLogEntries then |log| else MaxLogEntries
    ensures t == log[|log| - |t|..]
    ensures |log| <= MaxLogEntries ==> t == log
  {
    PySliceFrom(log, -MaxLogEntries)
  }

  /** Appending then trimming keeps the new entry last, keeps at most 1000
      entries, and keeps the most recent ones. */
  lemma AppendThenTrim(log: seq<LogEntry>, e: LogEntry)
    ensures var t := Trimmed(log + [e]);
      && |t| == (if |log| + 1 < MaxLogEntries then |log| + 1 else MaxLogEntries)
      && t[|t| - 1] == e
      && t == (log + [e])[|log| + 1 - |t|..]
  {
  }

  /** The base text of a level; unrecognised levels get "Unknown alert level". */
  function BaseMessage(level: string): (m: string)
    ensures m != UnknownLevelMessage <==> level in {"GREEN", "YELLOW", "ORANGE", "RED"}
    ensures level in Messages ==> m == Messages[level]
  {
    if level in Messages then Messages[level] else UnknownLevelMessage
  }

  /** `_build_message`; `details` is the rendered state summary. The message
      is the `[DrainSentinel ` header, the level, `] `, the level's base text
      and the details, in that order. */
  function BuildMessage(level: string, details: string): (m: string)
    ensures |m| >= |MessagePrefix| + |level| + 2 + |details|
    ensures m[..|MessagePrefix|] == MessagePrefix
    ensures m[|MessagePrefix|..|MessagePrefix| + |level|] == level
    ensures m[|MessagePrefix| + |level|..|MessagePrefix| + |level| + 2] == "] "
    ensures m[|MessagePrefix| + |level| + 2..|m| - |details|] == BaseMessage(level)
    ensures m[|m| - |details|..] == details
  {
    MessagePrefix + level + "] " + BaseMessage(level) + details
  }

  /** The text before the first occurrence of `c` (all of `s` if there is none). */
  function Before(s: string, c: char): (r: string)
    ensures |r| <= |s| && r == s[..|r|] && c !in r
  {
    if s == [] then []
    else if s[0] == c then []
    else [s[0]] + Before(s[1..], c)
  }

  lemma {:induction false} BeforeStopsAtFirst(a: string, b: string, c: char)
    requires c !in a
    ensures Before(a + [c] + b, c) == a
  {
    if a != [] {
      assert (a + [c] + b)[1..] == a[1..] + [c] + b;
      BeforeStopsAtFirst(a[1..], b, c);
    }
  }

  /** The level a message was built for, read back from its prefix. */
  function LevelOfMessage(message: string): Option<string>
  {
    if |message| >= |MessagePrefix| && message[..|MessagePrefix|] == MessagePrefix
    then Some(Before(message[|MessagePrefix|..], ']'))
    else None
  }

  lemma HeaderNamesLevel(level: string, tail: string)
    requires ']' !in level
    ensures LevelOfMessage(MessagePrefix + level + "] " + tail) == Some(level)
  {
    var m := MessagePrefix + level + "] " + tail;
    var rest := " " + tail;
    assert m == MessagePrefix + (level + [']'] + rest);
    assert m[..|MessagePrefix|] == MessagePrefix;
    assert m[|MessagePrefix|..] == level + [']'] + rest;
    BeforeStopsAtFirst(level, rest, ']');
  }

  /** The header of a message names its level: reading the level back from a
      built message gives the level it was built for. */
  lemma MessageNamesLevel(level: string, details: string)
    requires ']' !in level
    ensures LevelOfMessage(BuildMessage(level, details)) == Some(level)
  {
    var tail := BaseMessage(level) + details;
    assert MessagePrefix + level + "] " + BaseMessage(level) + details == MessagePrefix + level + "] " + tail;
    HeaderNamesLevel(level, tail);
  }

  /** `config['rate_limit_minutes'].get(level, 5)`. */
  function RateLimitMinutes(limits: map<string, real>, level: string): (m: real)
    ensures level in limits ==> m in limits.Values
    ensures level !in limits ==> m == FallbackRateLimitMinutes
  {
    if level in limits then limits[level] else FallbackRateLimitMinutes
  }

  /** `_should_send` over the map of last-sent times, at time `now` (seconds):
      a level never sent goes out; a level sent before goes out only once
      strictly more than its limit has passed, and never at or before its
      last send while its limit is not negative. */
  function ShouldSend(lastAlerts: map<string, real>, limits: map<string, real>, level: string, now: real): (send: bool)
    ensures level !in lastAlerts ==> send
    ensures level in lastAlerts && now <= lastAlerts[level] && RateLimitMinutes(limits, level) >= 0.0 ==> !send
  {
    level !in lastAlerts || now - lastAlerts[level] > RateLimitMinutes(limits, level) * 60.0
  }

  /** Once a level may be sent, it may still be sent at any later time. */
  lemma ShouldSendLater(lastAlerts: map<string, real>, limits: map<string, real>, level: string, now: real, later: real)
    requires now <= later && ShouldSend(lastAlerts, limits, level, now)
    ensures ShouldSend(lastAlerts, limits, level, later)
  {
  }

  /** The default limits are 60, 15, 5 and 1 minutes, and 5 for anything else. */
  lemma DefaultLimits(level: string)
    ensures RateLimitMinutes(DefaultRateLimitMinutes, "GREEN") == 60.0
    ensures RateLimitMinutes(DefaultRateLimitMinutes, "YELLOW") == 15.0
    ensures RateLimitMinutes(DefaultRateLimitMinutes, "ORANGE") == 5.0
    ensures RateLimitMinutes(DefaultRateLimitMinutes, "RED") == 1.0
    ensures level !in {"GREEN", "YELLOW", "ORANGE", "RED"} ==> RateLimitMinutes(DefaultRateLimitMinutes, level) == 5.0
  {
  }

  /** A level never sent before is always sent. After a send of `level` at `t`, the next send of that level is allowed
      exactly when strictly more than its limit has passed; the limit itself
      is not enough. Other levels are unaffected. */
  lemma RateLimitAfterSend(lastAlerts: map<string, real>, limits: map<string, real>, level: string, t: real, now: real, other: string)
    requires other != level
    ensures level !in lastAlerts ==> ShouldSend(lastAlerts, limits, level, now)
    ensures ShouldSend(lastAlerts[level := t], limits, level, now) <==> now - t > RateLimitMinutes(limits, level) * 60.0
    ensures !ShouldSend(lastAlerts[level := t], limits, level, t + RateLimitMinutes(limits, level) * 60.0)
    ensures ShouldSend(lastAlerts[level := t], limits, other, now) == ShouldSend(lastAlerts, limits, other, now)
  {
  }

  class AlertSystem {
    /** `last_alerts`: when each level was last sent. */
    var lastAlerts: map<string, real>
    /** The entries of the alert log file. */
    var log: seq<LogEntry>
    /** `config['rate_limit_minutes']`. */
    const rateLimitMinutes: map<string, real>

    /** A configuration that supplies `rate_limit_minutes` replaces the
        default table; `priorLog` is what the log file already holds. */
    constructor (configLimits: Option<map<string, real>>, priorLog: seq<LogEntry>)
      ensures rateLimitMinutes == if configLimits.Some? then configLimits.value else DefaultRateLimitMinutes
      ensures lastAlerts == map[] && log == priorLog
    {
      rateLimitMinutes := if configLimits.Some? then configLimits.value else DefaultRateLimitMinutes;
      lastAlerts := map[];
      log := priorLog;
    }

    /** `send_alert`: a rate-limited call returns before any change; a sent
        alert appends to the log (keeping the last 1000 entries) and stamps
        only its own level. */
    method SendAlert(level: string, details: string, now: real) returns (sent: bool)
      modifies this`lastAlerts, this`log
      ensures sent == ShouldSend(old(lastAlerts), rateLimitMinutes, level, now)
      ensures !sent ==> lastAlerts == old(lastAlerts) && log == old(log)
      ensures sent ==> lastAlerts == old(lastAlerts)[level := now]
      ensures sent ==> log == Trimmed(old(log) + [LogEntry(now, level, BuildMessage(level, details))])
      ensures sent ==> |log| <= MaxLogEntries && log[|log| - 1] == LogEntry(now, level, BuildMessage(level, details))
    {
      if !ShouldSend(lastAlerts, rateLimitMinutes, level, now) {
        return false;
      }
      var entry := LogEntry(now, level, BuildMessage(level, details));
      var trimmed := Trimmed(log + [entry]);
      AppendThenTrim(log, entry);
      assert |trimmed| <= MaxLogEntries && trimmed[|trimmed| - 1] == entry;
      log := trimmed;
      lastAlerts := lastAlerts[level := now];
      sent := true;
    }

    /** `get_recent_alerts(limit)`: `alerts[-limit:]`, so a limit of 0 returns
        the whole log and a negative one drops that many entries from the front. */
    function GetRecentAlerts(limit: int): (r: seq<LogEntry>)
      reads this
      ensures limit > 0 ==> |r| == (if limit < |log| then limit else |log|) && r == log[|log| - |r|..]
      ensures limit == 0 ==> r == log
      ensures limit < 0 ==> r == if -limit <= |log| then log[-limit..] else []
    {
      LastElements(log, limit);
      PySliceFrom(log, -limit)
    }
  }
}
