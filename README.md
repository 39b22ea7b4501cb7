# DrainSentinel decision core in Dafny

DrainSentinel watches a storm drain. It turns a camera classifier, an
ultrasonic water-level sensor and weather sensors into an escalating
alert. The repository holds two versions of the decision pipeline: ESP32
firmware and a host-side Python application. This project models the
deterministic rules of both versions and proves what they promise.

The model covers these parts:

- **Firmware** (`firmware.dfy`, module `Firmware`, class `Device`):
  - the 60-slot ring buffer of water-level samples;
  - the oldest-first window that is handed to the temporal model;
  - the first-argmax selection of the water-level class;
  - the label lookup used by the visual and environmental models;
  - the fusion rule (a weighted score, then a four-branch chain to HIGH/MEDIUM/LOW and a message);
  - the three-timer cooperative scheduler of `loop()`, over 32-bit `millis()`;
  - the sensor conversions (Arduino `constrain` and `map`, echo time to distance).
- **Host alert-level engine** (`host_engine.dfy`, module `HostEngine`, class `DrainSentinel`):
  - the composite risk score;
  - the GREEN/YELLOW/ORANGE/RED rule chain and the level priorities;
  - the escalation rule for notifications, and the relay event;
  - the one-hour history and the rate of rise.
- **Rate-limited alerts** (`alerts.dfy`, module `Alerts`, class `AlertSystem`):
  - the per-level limiter over the level-to-time map;
  - the message format;
  - the alert log, which keeps the last 1000 entries;
  - `get_recent_alerts`.
- **Classifier post-processing** (`ai_detector.dfy`, module `AiDetector`):
  - the learned model's argmax result;
  - the mock detector's probability bands;
  - the simple detector's score bands;
  - the default result.
- **Synthetic data** (`synthetic_data.dfy`, module `SyntheticData`):
  - the flood-risk formula and its labelling rule;
  - the 60-sample water-level sequences;
  - the loops that build both datasets.
- **Sensor-hub link** (`arduino_serial.dfy`, module `ArduinoLink`, class `ArduinoSerial`):
  - merging decoded messages into the latest reading;
  - the callback fan-out;
  - the getters gated on validity;
  - the callback list;
  - the command text.
- **Shared values** (`common.dfy`, module `Common`):
  - `Option`;
  - a decoded JSON scalar with Python truthiness and Python's bool-as-number arithmetic;
  - `dict.get`;
  - clamping.

Modelling conventions:

- Every floating-point quantity is a `real`.
- Every clock reading is a parameter:
  - `millis()` is an `int` below 2^32, and elapsed time is computed modulo 2^32 as `unsigned long` subtraction does;
  - `time.time()` and `datetime.now()` are seconds.
- Classifier outputs and random draws are inputs.
- The firmware's sensor and environmental models are functions from their input window to a classification result. The contracts can therefore say exactly which window each model sees.

Some behaviours of the code that a reader might not expect:

- **Fusion.** Scores (0.8, critical, 0.2) fuse to 0.4·0.8 + 0.3·1 + 0.3·0.2 = 0.68. That is MEDIUM with the "Potential blockage" warning, because 0.68 is not above 0.7 (`Firmware.FuseExamples`).
- **Rolling window.** The firmware buffer has no fill counter and no validity check. Every sample is written, and the window starts as sixty zeros.
- **Task order.** `loop()` runs the environmental read, then the ultrasonic read, then inference (`Firmware.Device.Loop`).
- **Inference errors.** A failed classifier run returns 0 rather than the previous value (firmware_esp32s3.cpp:244-247, 283-286, 332-335). The blockage score and flood risk become 0.0 and the water-level class becomes 0, "normal" (`Firmware.LabelScore`, `Firmware.WaterLevelClassOf`).
- **Argmax ties.** The strict `>` at firmware_esp32s3.cpp:293 gives a tie to the earlier label, not the more severe one (`Firmware.SensorTieGoesToFirstLabel`).
- **Alert gating.** The firmware calls `send_alert` on every inference cycle whose level is not LOW, with no rate limit (firmware_esp32s3.cpp:553-555). The host sends only when the priority rises (src/main.py:212). It then applies a per-level limit that must be strictly exceeded (src/alert_system.py:130).
- **Power-on features.** The environmental readings start at 0, and `setup()` reads none of them. The first inference cycle is due at 5 s, but the first environmental read happens only at 60 s. So the first cycles feed the environmental model a temperature feature of −0.6 and a pressure feature of 20.8 (see "## Findings"). `Firmware.Device.StartInRange` is a power-on with in-range readings; from it, `Firmware.Device.Loop` keeps every feature in [0, 1] for any 12-bit rain reading.

## Model

| member | source | states |
|---|---|---|
| Common.AsNumber | src/main.py:192-196 | `None` and strings are not numbers (Python raises); `True`/`False` count as 1/0 |
| Common.Get | src/main.py:131-140 | `d.get(key, default)` returns the stored value when the key is present, else the default |
| Common.Clamp | firmware_esp32s3.cpp:134-135 | `constrain` keeps the result in [lo, hi]; a value inside is unchanged, one outside goes to the nearer bound |
| Firmware.CDiv | firmware_esp32s3.cpp:181 | C integer division truncates toward zero: the remainder is in [0, b) for a non-negative dividend and in (−b, 0] for a negative one |
| Firmware.ArduinoMap | firmware_esp32s3.cpp:181 | `map` sends an input inside its range to an output inside the output range, and the ends of the input range to the ends of the output range |
| Firmware.PressureFeature | firmware_esp32s3.cpp:322 | pressures in [990, 1040] hPa give a feature in [0, 1], with 990 giving 1 and 1040 giving 0 |
| Firmware.Due | firmware_esp32s3.cpp:522-537 | a task is due iff the difference reaches the interval, with 2^32 added to it when `millis()` has wrapped since `last` |
| Firmware.RainfallFromAdc | firmware_esp32s3.cpp:177-184 | `map(raw, 0, 4095, 0, 100)` is in [0, 100] for every 12-bit reading |
| Firmware.EchoDistance | firmware_esp32s3.cpp:163-171 | distance is duration·0.0343/2, clamped to [0, 100] |
| Firmware.Elapsed | firmware_esp32s3.cpp:519-522 | `current_time - last` in `unsigned long` is in [0, 2^32); without wrap it is the plain difference, after a wrap the difference plus 2^32 |
| Firmware.FirstScore | firmware_esp32s3.cpp:249-256 | the label score is 0 or the score of some classification with that label |
| Firmware.LabelScore | firmware_esp32s3.cpp:244-256 | an inference error gives 0.0; otherwise 0.0 or the score of a classification with that label |
| Firmware.FirstScoreIsFirstMatch | firmware_esp32s3.cpp:249-256 | the label score is the value of the first classification with that label, and 0 when no label matches |
| Firmware.ScoreOf | firmware_esp32s3.cpp:244-259 | the loop with `break` returns the first matching label's value, and 0.0 on an inference error or when no label matches |
| Firmware.ScanClasses | firmware_esp32s3.cpp:288-303 | after any prefix the class is in 0..2, and the running maximum is at least 0 and bounds every score seen |
| Firmware.WaterLevelClassOf | firmware_esp32s3.cpp:283-303 | the water-level class is in 0..2, and 0 after an inference error |
| Firmware.SensorTieGoesToFirstLabel | firmware_esp32s3.cpp:293 | equal elevated and critical scores give whichever label comes first |
| Firmware.ScanInvariant | firmware_esp32s3.cpp:288-303 | after any prefix, the running maximum is at least 0 and bounds every score seen; it is 0 exactly while the class is still 0; otherwise it is the first occurrence of the greatest score |
| Firmware.WaterLevelClassIsFirstArgmax | firmware_esp32s3.cpp:283-303 | the class is the label of the first strictly greatest score; it is 0 on error and 0 when no score exceeds 0 |
| Firmware.SensorClass | firmware_esp32s3.cpp:283-303 | the argmax loop computes the class the scan specifies, and the class is in 0..2 |
| Firmware.AlertScore | firmware_esp32s3.cpp:361-365 | the weights sum to one: in-range scores and class give an alert score in [0, 1] |
| Firmware.Fuse | firmware_esp32s3.cpp:357-390 | the score is 0.4·blockage + 0.3·class/2 + 0.3·flood; HIGH iff score > 0.7 and class 2; LOW iff score ≤ 0.5, class ≠ 1 and flood ≤ 0.7; each message iff its branch is the first to match |
| Firmware.ClassContribution | firmware_esp32s3.cpp:361-365 | classes 0/1/2 add 0/0.15/0.30 to the score |
| Firmware.ElevatedAloneIsMedium | firmware_esp32s3.cpp:373-377 | an elevated class gives MEDIUM with the blockage warning, whatever the flood risk |
| Firmware.FloodRiskAloneLeavesLow | firmware_esp32s3.cpp:378-381 | a flood risk above 0.7 never leaves the level LOW |
| Firmware.FuseMonotone | firmware_esp32s3.cpp:361-386 | raising the blockage score or the flood risk never lowers the level |
| Firmware.CriticalClassCanReportOk | firmware_esp32s3.cpp:368-377 | moving from elevated to critical can lower MEDIUM to LOW ("OK"), because only the elevated class counts by itself |
| Firmware.FuseExamples | firmware_esp32s3.cpp:361-386 | worked examples: (0.8, 2, 0.2) gives 0.68 MEDIUM warning; (0.1, 1, 0.1) gives 0.22 MEDIUM warning; (0, 0, 0.75) gives 0.225 MEDIUM flood warning |
| Firmware.FeatureVector | firmware_esp32s3.cpp:318-326 | five features; every feature is in [0, 1] when the readings lie in their clamped ranges |
| Firmware.PowerOnFeaturesOutOfRange | firmware_esp32s3.cpp:73-79 | the zero readings of power-on give a temperature feature of −0.6 and a pressure feature of 20.8; the inference cycle is due at 5 s while no environmental read is due before 60 s |
| Firmware.Normalised | firmware_esp32s3.cpp:274 | every sample is divided by 100, and the length is kept |
| Firmware.Device.constructor | firmware_esp32s3.cpp:63-89 | the globals power on as zeros: an all-zero window, index 0, level LOW, empty message, timers at 0 |
| Firmware.Device.Samples | firmware_esp32s3.cpp:69-70 | the ring read from `buffer_index` holds exactly 60 samples |
| Firmware.Device.EnvFeatures | firmware_esp32s3.cpp:318-326 | the environmental model gets five features from the current readings, all in [0, 1] once the readings are in their clamped ranges |
| Firmware.Device.StartInRange | firmware_esp32s3.cpp:73-79 | the corrected power-on of "## Findings": the same zeroed state except readings at the low ends of their ranges, so every feature is in [0, 1] from the first cycle |
| Firmware.Device.SlotOfSample | firmware_esp32s3.cpp:270-277 | slot `(buffer_index + i) % 60` holds the i-th oldest sample |
| Firmware.Device.UpdateWaterLevelBuffer | firmware_esp32s3.cpp:189-197 | the raw value goes to slot `buffer_index` and no other slot changes; the index advances mod 60; only `water_level` is clamped; the window loses its oldest sample and gains the new one last |
| Firmware.Device.GetSensorData | firmware_esp32s3.cpp:271-277 | `out[i] = buffer[(buffer_index + i) % 60] / 100` for i < length, whatever the offset; the rest of `out` is untouched and the status is 0 |
| Firmware.Device.RunSensorInference | firmware_esp32s3.cpp:265-307 | the model sees the whole window oldest first, divided by 100, and the returned class is the first argmax of its result |
| Firmware.Device.RunEnvironmentalInference | firmware_esp32s3.cpp:312-348 | the flood risk is the `high_risk` score for the five normalised features, and 0.0 on error |
| Firmware.Device.ReadEnvironment | firmware_esp32s3.cpp:125-184 | temperature and humidity are clamped, and left unchanged on a NaN reading; pressure is hPa clamped to [990, 1040]; rainfall is the mapped ADC value |
| Firmware.Device.FuseAndAlert | firmware_esp32s3.cpp:357-390 | score, level and message are written as `Fuse` decides |
| Firmware.Device.RunInferenceCycle | firmware_esp32s3.cpp:544-555 | the three model outputs are stored, then fused; the alert is sent iff the level is not LOW |
| Firmware.Device.EnvTask | firmware_esp32s3.cpp:521-527 | fires iff at least 60000 ms have elapsed (unsigned); on firing the timer snaps to `now`, temperature and humidity are clamped (kept on a NaN reading), pressure is clamped hPa and rainfall the mapped ADC value; otherwise nothing changes |
| Firmware.Device.SensorTask | firmware_esp32s3.cpp:529-534 | fires iff at least 1000 ms have elapsed; on firing it pushes the clamped distance and snaps the timer; otherwise the window is unchanged |
| Firmware.Device.CameraTask | firmware_esp32s3.cpp:536-558 | fires iff at least 5000 ms have elapsed; on firing it runs the full cycle and snaps the timer; otherwise the results are unchanged |
| Firmware.Device.Loop | firmware_esp32s3.cpp:515-561 | each timer snaps to `now` iff its task was due; the readings, the water level and the window change exactly as the due tasks say; when inference is due, the three results come from the readings and window taken earlier in the same pass and are fused, otherwise all results are unchanged; readings inside their ranges stay inside them |
| Firmware.NoBacklogAfterFire | firmware_esp32s3.cpp:522-526 | a task that has just fired is not due again at the same tick, so a late loop fires once and runs no backlog |
| Firmware.NextFireAfterInterval | firmware_esp32s3.cpp:519-534 | after firing at `last`, the task is next due exactly when the interval has passed from `last`, across the wrap of `millis()` |
| Firmware.SchedulerWrapExample | firmware_esp32s3.cpp:530 | a timer set 500 ms before the wrap is due 1000 ms later, and not 999 ms later |
| Alerts.LastElements | src/alert_system.py:183 | `xs[-n:]` is the last min(n, len) elements for n > 0, and the whole list for n = 0 |
| Alerts.AppendThenTrim | src/alert_system.py:174-183 | after appending and trimming, the new entry is last, at most 1000 entries remain, and they are the most recent |
| Alerts.Trimmed | src/alert_system.py:183 | the trimmed log is the last min(1000, n) entries in order, and a log of at most 1000 entries is unchanged |
| Alerts.BaseMessage | src/alert_system.py:137 | the base text is the level's own text for GREEN, YELLOW, ORANGE and RED, and "Unknown alert level" exactly for any other level |
| Alerts.BuildMessage | src/alert_system.py:135-148 | the message is `[DrainSentinel `, the level, `] `, the level's base text ("Unknown alert level" for an unknown level) and the details, in that order |
| Alerts.HeaderNamesLevel | src/alert_system.py:148 | a message whose header is `[DrainSentinel <level>] ` reads back as that level |
| Alerts.MessageNamesLevel | src/alert_system.py:135-148 | every built message names the level it was built for (round trip through the header) |
| Alerts.DefaultLimits | src/alert_system.py:49-54 | the default limits are GREEN 60, YELLOW 15, ORANGE 5 and RED 1 minutes, and 5 for any other level |
| Alerts.RateLimitMinutes | src/alert_system.py:128 | a configured level's limit comes from the table; any other level gets 5 minutes |
| Alerts.ShouldSend | src/alert_system.py:122-133 | a level never sent is sent; a level is never sent at or before its last send while its limit is not negative |
| Alerts.ShouldSendLater | src/alert_system.py:130 | once a level may be sent, it may be sent at every later time |
| Alerts.RateLimitAfterSend | src/alert_system.py:122-133 | a level never sent is always sent; after a send at t, the next send needs strictly more than the limit (exactly the limit is refused); other levels are unaffected |
| Alerts.AlertSystem.constructor | src/alert_system.py:46-81 | a configured `rate_limit_minutes` table replaces the defaults; no level has been sent yet |
| Alerts.AlertSystem.SendAlert | src/alert_system.py:89-120 | sends iff `_should_send`; a refused alert changes nothing; a sent one stamps only its own level and appends its entry to the log, trimmed to the last 1000 |
| Alerts.AlertSystem.GetRecentAlerts | src/alert_system.py:282-291 | returns the last `limit` entries (all of them when fewer exist); 0 returns the whole log; a negative limit drops entries from the front |
| AiDetector.DefaultResult | src/ai_detector.py:202-210 | not blocked, confidence 0, class "unknown", error set |
| AiDetector.ArgMax | src/ai_detector.py:144-145 | `max(d, key=d.get)` is a greatest score, and the first one in insertion order |
| AiDetector.FirstMaxUnique | src/ai_detector.py:144 | the first maximum is unique, so the chosen class is determined |
| AiDetector.Detect | src/ai_detector.py:108-160 | no image, a raising runner or an empty classification give the default result; without a runner the mock decides; otherwise the class is the first argmax, the confidence is its score, and the result is blocked iff the class is partial_blockage or full_blockage |
| AiDetector.MockProbability | src/ai_detector.py:174-178 | the mock's probability is clamped to [0, 1], and left unchanged when the unclamped value is already inside |
| AiDetector.Band | src/ai_detector.py:180-185 | full iff above the upper threshold; partial iff not full and above the lower one; clear otherwise |
| AiDetector.BandMonotone | src/ai_detector.py:274-279 | a higher score never gives a lower class |
| AiDetector.MockDetect | src/ai_detector.py:162-200 | bands at 0.7 and 0.4; blocked iff not clear; confidence p if blocked else 1−p, always in (0.4, 1]; scores are clear 1−p, and partial plus full equal p |
| AiDetector.MockClassDiffersFromItsScores | src/ai_detector.py:180-197 | at p = 0.5 the mock reports partial_blockage while its own `all_scores` rank clear highest |
| AiDetector.EdgeContributionCapped | src/ai_detector.py:267-271 | edge density adds nothing beyond 0.1 |
| AiDetector.SimpleScore | src/ai_detector.py:254-271 | 0.4·darkness + 0.3·hue spread/90 + 0.3·min(10·edge density, 1) lies in [0, 1] for 8-bit brightness, hue spread at most 90 and non-negative edge density; a white, uniform, edgeless image scores 0 |
| AiDetector.SimpleDetect | src/ai_detector.py:235-297 | an unreadable image gives not blocked, confidence 0 and an error; otherwise bands at 0.6 and 0.35; blocked iff not clear; confidence is the score (> 0.35) if blocked, else 1 − score (≥ 0.65) |
| SyntheticData.FloodRisk | generate_synthetic_data.py:120-138 | the risk is always in [0, 100], and equals 100 × the weighted sum when that is in range |
| SyntheticData.RiskRange | generate_synthetic_data.py:130-138 | the weights sum to one: all norms 0 give 0, all norms 1 give 100 |
| SyntheticData.RiskMonotone | generate_synthetic_data.py:123-136 | risk is non-decreasing in temperature, humidity, rainfall and water level, and non-increasing in pressure |
| SyntheticData.RainCappedNotFloored | generate_synthetic_data.py:126-127 | rainfall above 100 and water level above 100 add nothing; a negative value of either still lowers the sum |
| SyntheticData.PressureNormalisersDiffer | generate_synthetic_data.py:125 | the generator (÷40) and the firmware (÷50, `firmware_esp32s3.cpp:322`) agree only at 990 hPa |
| SyntheticData.EnvLabel | generate_synthetic_data.py:161 | label 0 iff risk < 40, label 1 iff risk ≥ 40 |
| SyntheticData.Clipped | generate_synthetic_data.py:155-159 | the stored features lie in their ranges |
| SyntheticData.LabelFromUnclippedDraw | generate_synthetic_data.py:152-161 | the label comes from the unclipped draw, so the stored features do not determine it |
| SyntheticData.GenerateEnvDataset | generate_synthetic_data.py:140-180 | 5000 samples; the first 3000 are labelled by the risk of the unclipped draw, the last 2000 are all labelled 1; all are stored clipped |
| SyntheticData.TrendShape | generate_synthetic_data.py:71-75 | the ramps run 30→50 and 50→80, never fall, and critical lies above elevated |
| SyntheticData.GenerateWaterLevelSequence | generate_synthetic_data.py:61-80 | an unknown scenario fails; otherwise 60 samples, each the trend plus draws clipped to [0, 100]; labels are normal 0, elevated 1, critical 2 |
| SyntheticData.SequenceClipped | generate_synthetic_data.py:79 | every generated sample is in [0, 100] |
| SyntheticData.CriticalAboveElevated | generate_synthetic_data.py:69-79 | with the same draws, a critical sequence is pointwise at least as high as an elevated one |
| SyntheticData.ScheduleBlocks | generate_synthetic_data.py:86 | the 500/300/200 schedule assigns sequences 0–499, 500–799 and 800–999 to normal, elevated and critical |
| SyntheticData.GenerateSensorDataset | generate_synthetic_data.py:82-90 | 1000 sequences in schedule order, each generated for its scenario, labelled 0, 1 and 2 in blocks of 500, 300 and 200 |
| HostEngine.RateRisk | src/main.py:194 | rate risk is in [0, 1]: 0 for a non-positive rate, rate/10 up to 10 cm/min, 1 beyond |
| HostEngine.RiskScore | src/main.py:190-195 | in-range inputs give a risk in [0, 1]; without a detected blockage the risk is at most 0.6 |
| HostEngine.LevelFor | src/main.py:192-206 | RED iff risk > 0.8 or pct > 90; ORANGE iff not RED and (risk > 0.6 or pct > 70 or blocked with conf > 0.8); GREEN iff risk ≤ 0.4, pct ≤ 50 and not blocked |
| HostEngine.LevelPriority | src/main.py:224-227 | GREEN 0, YELLOW 1, ORANGE 2, RED 3, and 0 for any other string |
| HostEngine.PriorityRanksLevels | src/main.py:224-227 | GREEN < YELLOW < ORANGE < RED, so among the four levels, equal priority iff the same level |
| HostEngine.BlockageRaisesLevel | src/main.py:201-204 | any detected blockage rules out GREEN; one with confidence > 0.8 gives at least ORANGE |
| HostEngine.LevelMonotoneInWater | src/main.py:192-206 | a higher water percentage never lowers the level |
| HostEngine.KeepAfter | src/main.py:145 | trimming never lengthens the history |
| HostEngine.KeepAfterMembers | src/main.py:145 | an entry is kept iff it was present and its time is after the cutoff |
| HostEngine.KeepAfterAppend | src/main.py:145 | trimming distributes over concatenation, so the kept entries stay in arrival order |
| HostEngine.NewestKept | src/main.py:139-145 | the sample just appended survives the trim and is last |
| HostEngine.RateOfRise | src/main.py:147-154 | a rate exists iff there are at least 60 entries and time advanced between the 60th-from-last and the last; it fails (TypeError) iff either level is not a number |
| HostEngine.RateSign | src/main.py:147-154 | the rate is positive iff the reading 60 samples back is larger than the latest (the distance shrank) |
| HostEngine.ReactionTo | src/main.py:211-220 | notify iff the priority rises; relay on iff notifying for RED; relay off iff not notifying, the new level is GREEN and the old one is not |
| HostEngine.NoNotifyWithoutEscalation | src/main.py:212-213 | de-escalation or an unchanged level never notifies and never switches the relay on |
| HostEngine.UnknownToGreenSwitchesOff | src/main.py:218-220 | leaving an unknown stored level for GREEN switches the relay off without a notification |
| HostEngine.DrainSentinel.constructor | src/main.py:105-119 | the state starts at level GREEN with zero readings and an empty history |
| HostEngine.DrainSentinel.OnSensorData | src/main.py:129-154 | a missing or false `valid` changes nothing; valid data stores the levels, appends (now, level), keeps entries newer than now − 3600 in order, and updates the rate only with ≥ 60 entries and a positive time difference; non-numeric levels raise |
| HostEngine.DrainSentinel.UpdateDetection | src/main.py:175-177 | the detection fields copy the result, with "unknown" when it has no class name |
| HostEngine.DrainSentinel.CalculateAlertLevel | src/main.py:184-222 | the level is always overwritten with the rule chain's; `send_alert` runs only on an escalation and then behaves as the rate limiter says; a non-numeric percentage raises before any change |
| ArduinoLink.CommandText | src/arduino_serial.py:218-236 | every command text is non-empty and a single line, unless a distance text holds a newline |
| ArduinoLink.CommandTextInjective | src/arduino_serial.py:218-236 | distinct commands and distances are written as distinct lines |
| ArduinoLink.RemoveFirst | src/arduino_serial.py:199-202 | `list.remove` shortens the list by one when the item is present, and is a no-op otherwise |
| ArduinoLink.RemoveFirstSplits | src/arduino_serial.py:199-202 | only the first occurrence is removed, and the order of the rest is kept |
| ArduinoLink.ArduinoSerial.constructor | src/arduino_serial.py:38-47 | the reading starts invalid (so both getters return None), with no callbacks |
| ArduinoLink.ArduinoSerial.ParseData | src/arduino_serial.py:150-177 | an object with `water_level_cm` overwrites exactly its own keys, keeps the rest, sets `last_update`, and reaches every callback in order, raising or not; anything else changes nothing and calls nobody |
| ArduinoLink.ArduinoSerial.GetLatest | src/arduino_serial.py:179-181 | the copy has the same keys and values as the latest reading |
| ArduinoLink.ArduinoSerial.GetWaterLevel | src/arduino_serial.py:183-187 | returns the level iff `valid` is truthy, else None |
| ArduinoLink.ArduinoSerial.GetWaterLevelPercent | src/arduino_serial.py:189-193 | returns the percentage iff `valid` is truthy, else None |
| ArduinoLink.ArduinoSerial.AddCallback | src/arduino_serial.py:195-197 | the callback is registered last |
| ArduinoLink.ArduinoSerial.RemoveCallback | src/arduino_serial.py:199-202 | removes the first registration; a no-op when there is none |
| ArduinoLink.ArduinoSerial.SendCommand | src/arduino_serial.py:204-216 | succeeds iff the port is open and the write does not fail; then it writes `command + "\n"`, otherwise it writes nothing |
| ArduinoLink.ArduinoSerial.Issue | src/arduino_serial.py:218-236 | `CAL_EMPTY`, `CAL_FULL`, `SET_EMPTY:d`, `SET_FULL:d` and `STATUS` go out as one line each, under the same conditions |

## Left out

- `Firmware.Device.RunSensorInference` and `Firmware.Device.RunEnvironmentalInference` assume that `run_classifier` reads the whole signal in one `get_data(0, N)` call. The callbacks ignore `offset` (firmware_esp32s3.cpp:272-277), and the environmental one also ignores `length` (firmware_esp32s3.cpp:319-325). A chunked read would see the oldest samples again, or write past the buffer.
- Hardware and I/O are not modelled:
  - WiFi, the web server and its `/status` and `/alerts` handlers;
  - ArduinoJson serialisation and SPIFFS;
  - the sensor drivers (DHT22, BMP280, `pulseIn`, `analogRead`) and the camera placeholder.
  The model takes driver readings as inputs. The firmware's `send_alert` HTTP post is represented only by the `AlertSent` task event.
- The Edge Impulse classifiers and OpenCV image statistics are foreign code. Their outputs are inputs: `Inference`, `RunnerOutcome` and `ImageStats`.
- Real time is not modelled: `delay(100)`, sleeps, threads, the background read loop, serial port discovery and reconnection, and signal handling. Each call handles one event at a given `now`.
- Floating-point rounding and `float` width are not modelled; every float is a `real`. NaN from the DHT22 is an absent reading; NaN from the BMP280 is not modelled.
- Randomness is not modelled. `random.uniform`, `np.random.normal` and `np.random.exponential` are parameters (`noise`, `draws`, the draw sequences).
- Alert delivery is not modelled: console, SMS, e-mail and webhook. Files are not modelled either: the log file's content is the `log` field, and the constructor takes what the file already holds.
- `HostEngine.DrainSentinel.CalculateAlertLevel` takes the rendered state summary as the `details` parameter. It does not derive it from the state, because float, percent and date formatting are not modelled. For the same reason `Alerts.BuildMessage` takes `details` as given.
- `Alerts.AlertSystem.SendAlert` uses one `now` for the rate check, the log timestamp and the stamp in `last_alerts`. Python reads the clock separately for each. Log timestamps are seconds, not ISO strings, and the `state` dictionary stored with each log entry is not modelled.
- `Alerts.AlertSystem.GetRecentAlerts` reads the log field. A missing or unreadable file is the same as an empty log.
- The relay is not switched. `_trigger_relay`'s settings file and HTTP call are reduced to the `relay` field of `Reaction`.
- `HostEngine.DrainSentinel.UpdateDetection` covers only the copy of the detector result. Camera capture, `last_image_path`, `last_update` and the exception handling of `update_camera` are not modelled.
- The model treats `blockage_confidence` as a number and `blockage_detected` as a boolean; the source accepts any value from the detector dictionary.
- `AiDetector.Detect` does not model the marker keys `inference_time_ms`, `mock` and `simple_detector`, or the loading and resizing of the image. Classification names are not required to be distinct: a Python dictionary's keys are distinct, so the model covers more inputs than the source can produce.
- `ArduinoLink.ArduinoSerial.ParseData` treats a JSON value that is not an object as changing nothing. That is true of most such values, but not all. A JSON list that contains the string `"water_level_cm"` passes the `in` test. `dict.update` then inserts its leading two-element entries before raising `ValueError` on the string. So `latest_data` can be partly updated, with no `last_update` and no callback called. The read loop catches the exception. UTF-8 decoding, stripping and the skipping of blank lines happen before the decoded value arrives, and the logging of calibration and status messages has no effect on state.
- Callbacks are identified by number. Whether a callback raises is an input; what a callback does is not modelled. `MockArduinoSerial` and `get_arduino` are not modelled.
- `set_empty_distance` and `set_full_distance` format the distance with Python's `str(float)`. The model takes that text as the command's `distance` string.
- These parts of the generator are not modelled: the visual metadata, the JSON files, the printed summaries and the Edge Impulse import guide. They are fixed text and I/O.
- `src/dashboard.py`, `src/camera.py` and `src/calibrate.py` are not part of this model. They are a web UI, a camera driver and an interactive wizard.

## Findings

| source | as written | input that shows it | evidently intended | confidence | as-written member | corrected member |
|---|---|---|---|---|---|---|
| firmware_esp32s3.cpp:73-79 | `current_env_data` starts at all zeros and `setup()` takes no environmental reading; the inference cycle first runs at 5 s (:537) but the first environmental read comes at 60 s (:522) | power-on, then `loop()` at 5000 ms: the environmental model gets features (−0.6, 0, 20.8, 0, d/100), where d is the clamped distance the ultrasonic task read earlier in the same pass; pressure comes into range at the 60 s read, temperature only once a DHT22 reading succeeds | every feature in [0, 1], as the comment "Normalize features to 0-1 range" at :319 says | medium; not executed | Firmware.PowerOnFeaturesOutOfRange | Firmware.Device.StartInRange |
