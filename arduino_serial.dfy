/**
 * The host's link to the sensor hub: merging decoded messages into the latest
 * reading, fanning them out to the registered callbacks, the validity-gated
 * getters, and the text of the commands sent back.
 *
 * A serial line arrives already decoded: it is not JSON, a JSON object, or
 * some other JSON value. Callbacks are identified by number, and whether one
 * raises is an input. The port itself is reduced to a `connected` flag and
 * the list of lines written to it.
 */
module ArduinoLink {
  import opened Common

  /** A serial line after `json.loads`. */
  datatype Decoded = NotJson | Object(fields: map<string, Value>) | OtherJson

  /** The commands the hub understands; a distance is its text as Python formats it. */
  datatype Command = CalEmpty | CalFull | SetEmpty(distance: string) | SetFull(distance: string) | Status

  /** The line `send_command` writes for a command, without the newline. It
      is a single line unless a distance text itself holds a newline. */
  function CommandText(c: Command): (t: string)
    ensures |t| > 0
    ensures (c.SetEmpty? || c.SetFull?) ==> ('\n' in t <==> '\n' in c.distance)
    ensures !(c.SetEmpty? || c.SetFull?) ==> '\n' !in t
  {
    match c
    case CalEmpty => "CAL_EMPTY"
    case CalFull => "CAL_FULL"
    case SetEmpty(d) => "SET_EMPTY:" + d
    case SetFull(d) => "SET_FULL:" + d
    case Status => "STATUS"
  }

  /** Distinct commands are written as distinct text, so the hub can tell
      every command, and every distance, apart. The hub reads one line per
      command, so this relies on the distance text holding no newline, which
      Python's `str(float)` never produces. */
  lemma CommandTextInjective(a: Command, b: Command)
    requires CommandText(a) == CommandText(b)
    ensures a == b
  {
    var t, u := CommandText(a), CommandText(b);
    assert t[0] == u[0] && t[1] == u[1] && t[4] == u[4];
    if a.SetEmpty? && b.SetEmpty? {
      assert a.distance == t[10..] && b.distance == u[10..];
    } else if a.SetFull? && b.SetFull? {
      assert a.distance == t[9..] && b.distance == u[9..];
    }
  }

  /** `list.remove(x)`: drops the first occurrence. */
  function RemoveFirst(s: seq<nat>, x: nat): (r: seq<nat>)
    ensures x in s ==> |r| == |s| - 1
    ensures x !in s ==> r == s
  {
    if s == [] then []
    else if s[0] == x then s[1..]
    else [s[0]] + RemoveFirst(s[1..], x)
  }

  /** Removing `x` drops its first occurrence and keeps everything else in order. */
  lemma {:induction false} RemoveFirstSplits(a: seq<nat>, b: seq<nat>, x: nat)
    requires x !in a
    ensures RemoveFirst(a + [x] + b, x) == a + b
  {
    if a == [] {
      assert a + [x] + b == [x] + b;
    } else {
      assert (a + [x] + b)[0] == a[0];
      assert (a + [x] + b)[1..] == a[1..] + [x] + b;
      RemoveFirstSplits(a[1..], b, x);
      assert a + b == [a[0]] + (a[1..] + b);
    }
  }

  /** The reading before any message arrives. */
  const InitialData: map<string, Value> := map[
    "water_level_cm" := Num(0.0), "water_level_percent" := Num(0.0),
    "distance_raw" := Num(0.0), "valid" := Bool(false), "timestamp" := Num(0.0)]

  class ArduinoSerial {
    /** `latest_data`. */
    var latestData: map<string, Value>
    /** `callbacks`, in registration order. */
    var callbacks: seq<nat>
    /** Whether the port is open. */
    var connected: bool
    /** The lines written to the port. */
    var written: seq<string>

    /** The keys the getters index are always present. */
    predicate Valid()
      reads this`latestData
    {
      "water_level_cm" in latestData && "water_level_percent" in latestData && "valid" in latestData
    }

    /** `connected` is whether opening the port succeeded. */
    constructor (connected: bool)
      ensures Valid() && latestData == InitialData && callbacks == [] && this.connected == connected && written == []
      ensures GetWaterLevel().None? && GetWaterLevelPercent().None?
    {
      latestData := InitialData;
      callbacks := [];
      this.connected := connected;
      written := [];
    }

    /** `_parse_data`: a JSON object with `water_level_cm` is merged key by key
        into the latest reading, stamped with `last_update`, and handed to every
        callback in registration order; anything else changes nothing and calls
        nobody. Returns the callbacks called and those that raised. */
    method ParseData(line: Decoded, now: real, raises: nat -> bool) returns (called: seq<nat>, failed: seq<nat>)
      requires Valid()
      modifies this`latestData
      ensures Valid()
      ensures line.Object? && "water_level_cm" in line.fields ==>
                && latestData == old(latestData) + line.fields + map["last_update" := Num(now)]
                && called == callbacks
                && (forall c :: c in failed <==> c in callbacks && raises(c))
      ensures !(line.Object? && "water_level_cm" in line.fields) ==>
                latestData == old(latestData) && called == [] && failed == []
    {
      called, failed := [], [];
      if !(line.Object? && "water_level_cm" in line.fields) {
        return;
      }
      latestData := latestData + line.fields;
      latestData := latestData["last_update" := Num(now)];
      var i := 0;
      while i < |callbacks|
        invariant 0 <= i <= |callbacks|
        invariant called == callbacks[..i]
        invariant forall c :: c in failed <==> c in callbacks[..i] && raises(c)
      {
        called := called + [callbacks[i]];
        if raises(callbacks[i]) {
          failed := failed + [callbacks[i]];
        }
        assert callbacks[..i + 1] == callbacks[..i] + [callbacks[i]];
        i := i + 1;
      }
      assert callbacks[..i] == callbacks;
    }

    /** `get_latest`: the whole reading, as a value the caller cannot alias. */
    function GetLatest(): (r: map<string, Value>)
      reads this`latestData
      ensures r.Keys == latestData.Keys && forall k :: k in r ==> r[k] == latestData[k]
    {
      latestData
    }

    /** `get_water_level`: the level in cm only while the reading is valid. */
    function GetWaterLevel(): (r: Option<Value>)
      reads this`latestData
      requires Valid()
      ensures r.Some? <==> Truthy(latestData["valid"])
      ensures r.Some? ==> r.value == latestData["water_level_cm"]
    {
      if Truthy(latestData["valid"]) then Some(latestData["water_level_cm"]) else None
    }

    /** `get_water_level_percent`: the percentage only while the reading is valid. */
    function GetWaterLevelPercent(): (r: Option<Value>)
      reads this`latestData
      requires Valid()
      ensures r.Some? <==> Truthy(latestData["valid"])
      ensures r.Some? ==> r.value == latestData["water_level_percent"]
    {
      if Truthy(latestData["valid"]) then Some(latestData["water_level_percent"]) else None
    }

    method AddCallback(callback: nat)
      modifies this`callbacks
      ensures callbacks == old(callbacks) + [callback]
    {
      callbacks := callbacks + [callback];
    }

    /** Removes the first registration of `callback`; a no-op when it has none. */
    method RemoveCallback(callback: nat)
      modifies this`callbacks
      ensures callbacks == RemoveFirst(old(callbacks), callback)
      ensures callback !in old(callbacks) ==> callbacks == old(callbacks)
    {
      if callback in callbacks {
        callbacks := RemoveFirst(callbacks, callback);
      }
    }

    /** `send_command`: refuses without writing when the port is closed;
        `writeFails` is a `SerialException` from the write. */
    method SendCommand(command: string, writeFails: bool) returns (ok: bool)
      modifies this`written
      ensures ok <==> connected && !writeFails
      ensures ok ==> written == old(written) + [command + "\n"]
      ensures !ok ==> written == old(written)
    {
      if !connected {
        return false;
      }
      if writeFails {
        return false;
      }
      written := written + [command + "\n"];
      ok := true;
    }

    /** `calibrate_empty`, `calibrate_full`, `set_empty_distance`,
        `set_full_distance` and `get_status`. */
    method Issue(c: Command, writeFails: bool) returns (ok: bool)
      modifies this`written
      ensures ok <==> connected && !writeFails
      ensures ok ==> written == old(written) + [CommandText(c) + "\n"]
      ensures !ok ==> written == old(written)
    {
      ok := SendCommand(CommandText(c), writeFails);
    }
  }
}
