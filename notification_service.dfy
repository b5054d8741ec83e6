/** AppNotificationService: per-sensor de-duplication of temperature alerts and the
    data-loss watchdog. Every ShowNotificationAsync call is recorded in a ghost log. */
module Notifications {
  import opened Models
  import ThresholdService

  // ---------------------------------------------------------------------------
  // Notifications

  const CriticalTitle: string := "\U{1F6A8} KRITISK TEMPERATUR!"
  const WarningTitle: string := "\U{26A0}\U{FE0F} Temperatur Varning"
  const OptimalTitle: string := "\U{2705} Optimal Temperatur!"
  const TimeoutTitle: string := "\U{1F6A8} SENSOR VARNING"

  /** What the message text of a notification is built from. */
  datatype Body =
    | CriticalBody(sensorName: string, temperature: real, criticalTemp: real)
    | WarningBody(sensorName: string, temperature: real, warningTemp: real)
    | OptimalBody(sensorName: string, temperature: real)
    | TimeoutBody(timeoutSeconds: int)

  /** One ShowNotificationAsync call: title, message and whether it vibrates. */
  datatype Notification = Notification(title: string, body: Body, isCritical: bool)

  // ---------------------------------------------------------------------------
  // Settings lookup

  /** string.ToLower on the ASCII letters. */
  function Lower(s: string): (r: string)
    ensures |r| == |s|
    ensures forall i :: 0 <= i < |s| ==> r[i] == LowerChar(s[i])
  {
    if s == [] then [] else [LowerChar(s[0])] + Lower(s[1..])
  }

  function LowerChar(c: char): char {
    if 'A' <= c <= 'Z' then (c as int - 'A' as int + 'a' as int) as char else c
  }

  const AlertDefaults: Thresholds := Thresholds(70.0, 80.0, 90.0)

  /** GetSensorSettings: the lower-cased name picks the stored triple; an unknown name or a
      failing store (None) gives 70/80/90. */
  function GetSensorSettings(sensorName: string, settings: Option<LocalSettings>): (r: Thresholds)
    ensures Lower(sensorName) !in {"kolv", "destillat", "kylare"} ==> r == AlertDefaults
    ensures settings.None? ==> r == AlertDefaults
    ensures settings.Some? && Lower(sensorName) == "kolv" ==> r == settings.value.kolv
    ensures settings.Some? && Lower(sensorName) == "destillat" ==> r == settings.value.destillat
    ensures settings.Some? && Lower(sensorName) == "kylare" ==> r == settings.value.kylare
  {
    match Lower(sensorName)
    case "kolv" => if settings.Some? then settings.value.kolv else AlertDefaults
    case "destillat" => if settings.Some? then settings.value.destillat else AlertDefaults
    case "kylare" => if settings.Some? then settings.value.kylare else AlertDefaults
    case _ => AlertDefaults
  }

  /** Names that differ only in ASCII case get the same thresholds. */
  lemma SettingsIgnoreCase(a: string, b: string, settings: Option<LocalSettings>)
    requires Lower(a) == Lower(b)
    ensures GetSensorSettings(a, settings) == GetSensorSettings(b, settings)
  {
  }

  lemma UpperCaseNameFound(settings: LocalSettings)
    ensures GetSensorSettings("KOLV", Some(settings)) == settings.kolv
  {
    LowerKolv();
  }

  lemma LowerKolv()
    ensures Lower("KOLV") == "kolv"
  {
    var r := Lower("KOLV");
    assert |r| == 4 && r[0] == 'k' && r[1] == 'o' && r[2] == 'l' && r[3] == 'v';
  }

  // ---------------------------------------------------------------------------
  // Alert de-duplication

  function WarningKey(name: string): string { name + "_Warning" }
  function CriticalKey(name: string): string { name + "_Critical" }
  function OptimalKey(name: string): string { name + "_Optimal" }

  /** Appending the same suffix keeps names apart, so each sensor owns its own keys. */
  lemma SuffixInjective(a: string, b: string, suffix: string)
    requires a + suffix == b + suffix
    ensures a == b
  {
    assert |a| == |b|;
    assert a == (a + suffix)[..|a|];
    assert b == (b + suffix)[..|b|];
  }

  lemma KeysDistinct(a: string, b: string)
    requires a != b
    ensures WarningKey(a) != WarningKey(b)
    ensures CriticalKey(a) != CriticalKey(b)
    ensures OptimalKey(a) != OptimalKey(b)
  {
    if WarningKey(a) == WarningKey(b) { SuffixInjective(a, b, "_Warning"); }
    if CriticalKey(a) == CriticalKey(b) { SuffixInjective(a, b, "_Critical"); }
    if OptimalKey(a) == OptimalKey(b) { SuffixInjective(a, b, "_Optimal"); }
  }

  /** The three HashSets of already shown alerts. */
  datatype Shown = Shown(warnings: set<string>, critical: set<string>, optimal: set<string>)

  /** The three per-sensor flags the sets encode. */
  datatype Flags = Flags(warning: bool, critical: bool, optimal: bool)

  function FlagsOf(s: Shown, name: string): Flags {
    Flags(WarningKey(name) in s.warnings, CriticalKey(name) in s.critical, OptimalKey(name) in s.optimal)
  }

  /** At most one of a sensor's three keys is present. */
  predicate AtMostOne(f: Flags) {
    (f.warning ==> !f.critical && !f.optimal) && (f.critical ==> !f.optimal)
  }

  /** Only the three keys of `name` may differ between two states. */
  predicate OnlyKeysOf(s: Shown, s': Shown, name: string) {
    && s'.warnings - {WarningKey(name)} == s.warnings - {WarningKey(name)}
    && s'.critical - {CriticalKey(name)} == s.critical - {CriticalKey(name)}
    && s'.optimal - {OptimalKey(name)} == s.optimal - {OptimalKey(name)}
  }

  /** The title of the alert raised on entering a tier. */
  function TitleFor(tier: TemperatureStatus): string {
    match tier
    case Critical => CriticalTitle
    case Warning => WarningTitle
    case _ => OptimalTitle
  }

  datatype Evaluation = Evaluation(shown: Shown, alert: Option<Notification>)

  /** One iteration of the loop in CheckTemperatureWarnings, for a reading `temperature` of
      sensor `name` against thresholds `t`. */
  function Evaluate(s: Shown, name: string, temperature: real, t: Thresholds): (r: Evaluation)
    ensures var tier := ThresholdService.Classify(temperature, t);
            var f := FlagsOf(s, name);
            var f' := FlagsOf(r.shown, name);
            && (tier == Critical ==> (r.alert.Some? <==> !f.critical) && f' == Flags(false, true, false))
            && (tier == Warning ==> (r.alert.Some? <==> !f.warning || f.critical) && f' == Flags(true, false, false))
            && (tier == Optimal ==>
                  (r.alert.Some? <==> !f.optimal || f.warning || f.critical) && f' == Flags(false, false, true))
            && (tier == TooLow ==> r.alert.None? && f' == Flags(false, false, false))
            && (r.alert.Some? ==> r.alert.value.title == TitleFor(tier) && (r.alert.value.isCritical <==> tier == Critical))
    ensures AtMostOne(FlagsOf(r.shown, name))
    ensures OnlyKeysOf(s, r.shown, name)
  {
    var wKey, cKey, oKey := WarningKey(name), CriticalKey(name), OptimalKey(name);
    if temperature >= t.criticalTemp then
      var alert := if cKey !in s.critical
        then Some(Notification(CriticalTitle, CriticalBody(name, temperature, t.criticalTemp), true))
        else None;
      Evaluation(Shown(s.warnings - {wKey}, s.critical + {cKey}, s.optimal - {oKey}), alert)
    else if temperature >= t.warningTemp then
      var wasInCritical := cKey in s.critical;
      var alert := if wKey !in s.warnings || wasInCritical
        then Some(Notification(WarningTitle, WarningBody(name, temperature, t.warningTemp), false))
        else None;
      Evaluation(Shown(s.warnings + {wKey}, s.critical - {cKey}, s.optimal - {oKey}), alert)
    else if temperature >= t.optimalMin && temperature < t.warningTemp then
      var wasInWarning := wKey in s.warnings || cKey in s.critical;
      var alert := if oKey !in s.optimal || wasInWarning
        then Some(Notification(OptimalTitle, OptimalBody(name, temperature), false))
        else None;
      Evaluation(Shown(s.warnings - {wKey}, s.critical - {cKey}, s.optimal + {oKey}), alert)
    else
      Evaluation(Shown(s.warnings - {wKey}, s.critical - {cKey}, s.optimal - {oKey}), None)
  }

  /** The three-flag hysteresis machine of the design: announce on entering a tier, re-announce
      a tier after coming back from a higher one, reset everything below the optimal band. */
  function Announce(f: Flags, tier: TemperatureStatus): (r: (Flags, bool))
  {
    match tier
    case Critical => (Flags(false, true, false), !f.critical)
    case Warning => (Flags(true, false, false), !f.warning || f.critical)
    case Optimal => (Flags(false, false, true), !f.optimal || f.warning || f.critical)
    case TooLow => (Flags(false, false, false), false)
  }

  /** The key sets implement the flag machine: a sensor's next flags and whether it alerts
      depend only on its own flags and the reading's tier. */
  lemma EvaluateRefinesAnnounce(s: Shown, name: string, temperature: real, t: Thresholds)
    ensures var r := Evaluate(s, name, temperature, t);
            (FlagsOf(r.shown, name), r.alert.Some?) ==
              Announce(FlagsOf(s, name), ThresholdService.Classify(temperature, t))
  {
  }

  /** Alerts emitted for one reading, as a list. */
  function AlertList(a: Option<Notification>): seq<Notification> {
    if a.Some? then [a.value] else []
  }

  datatype Batch = Batch(shown: Shown, alerts: seq<Notification>)

  /** One pass of the foreach body of CheckTemperatureWarnings. */
  function Step(b: Batch, reading: TemperatureReading, settings: Option<LocalSettings>): Batch {
    var e := Evaluate(b.shown, reading.name, reading.temperature, GetSensorSettings(reading.name, settings));
    Batch(e.shown, b.alerts + AlertList(e.alert))
  }

  /** The whole foreach of CheckTemperatureWarnings, one settings snapshot per batch. */
  function EvaluateAll(s: Shown, sensors: seq<TemperatureReading>, settings: Option<LocalSettings>): (r: Batch)
    decreases |sensors|
  {
    if sensors == [] then Batch(s, [])
    else Step(EvaluateAll(s, sensors[..|sensors| - 1], settings), sensors[|sensors| - 1], settings)
  }

  /** One pass of the loop, seen through the flag machine. */
  lemma StepAnnounces(b: Batch, reading: TemperatureReading, settings: Option<LocalSettings>)
    ensures var b' := Step(b, reading, settings);
            var tier := ThresholdService.Classify(reading.temperature, GetSensorSettings(reading.name, settings));
            var a := Announce(FlagsOf(b.shown, reading.name), tier);
            && FlagsOf(b'.shown, reading.name) == a.0
            && |b'.alerts| == |b.alerts| + (if a.1 then 1 else 0)
            && b'.alerts[..|b.alerts|] == b.alerts
            && (a.1 ==> b'.alerts[|b.alerts|].title == TitleFor(tier))
  {
    var t := GetSensorSettings(reading.name, settings);
    EvaluateRefinesAnnounce(b.shown, reading.name, reading.temperature, t);
  }

  lemma EvaluateAllSnoc(s: Shown, sensors: seq<TemperatureReading>, reading: TemperatureReading,
                        settings: Option<LocalSettings>)
    ensures EvaluateAll(s, sensors + [reading], settings) == Step(EvaluateAll(s, sensors, settings), reading, settings)
  {
    assert (sensors + [reading])[..|sensors|] == sensors;
  }

  /** Two readings of one sensor in the same tier, one after the other, alert at most once. */
  lemma SameTierTwiceAlertsOnce(s: Shown, name: string, t1: real, t2: real, t: Thresholds)
    requires ThresholdService.Classify(t1, t) == ThresholdService.Classify(t2, t)
    ensures Evaluate(Evaluate(s, name, t1, t).shown, name, t2, t).alert.None?
  {
  }

  /** All readings for one sensor and in one tier: the batch alerts at most once, and
      not at all when the first reading of the run does not. */
  lemma {:induction false} SameTierRunAlertsAtMostOnce(
    s: Shown, name: string, sensors: seq<TemperatureReading>, settings: Option<LocalSettings>,
    tier: TemperatureStatus)
    requires forall i :: 0 <= i < |sensors| ==> sensors[i].name == name
    requires forall i :: 0 <= i < |sensors| ==>
      ThresholdService.Classify(sensors[i].temperature, GetSensorSettings(name, settings)) == tier
    ensures |EvaluateAll(s, sensors, settings).alerts| <= 1
    ensures |sensors| > 0 ==> FlagsOf(EvaluateAll(s, sensors, settings).shown, name) == Announce(FlagsOf(s, name), tier).0
    decreases |sensors|
  {
    if sensors != [] {
      var front := sensors[..|sensors| - 1];
      SameTierRunAlertsAtMostOnce(s, name, front, settings, tier);
      var prev := EvaluateAll(s, front, settings);
      var last := sensors[|sensors| - 1];
      EvaluateRefinesAnnounce(prev.shown, name, last.temperature, GetSensorSettings(name, settings));
      if front != [] {
        assert FlagsOf(prev.shown, name) == Announce(FlagsOf(s, name), tier).0;
        assert Evaluate(prev.shown, name, last.temperature, GetSensorSettings(name, settings)).alert.None?;
      } else {
        assert prev.alerts == [];
      }
    }
  }

  /** Readings of other sensors leave this sensor's flags alone. */
  lemma {:induction false} OtherSensorsUntouched(
    s: Shown, name: string, sensors: seq<TemperatureReading>, settings: Option<LocalSettings>)
    requires forall i :: 0 <= i < |sensors| ==> sensors[i].name != name
    ensures FlagsOf(EvaluateAll(s, sensors, settings).shown, name) == FlagsOf(s, name)
    decreases |sensors|
  {
    if sensors != [] {
      var front := sensors[..|sensors| - 1];
      OtherSensorsUntouched(s, name, front, settings);
      var last := sensors[|sensors| - 1];
      KeysDistinct(name, last.name);
    }
  }

  /** After any batch, every sensor holds at most one key, provided it did before. */
  lemma {:induction false} BatchKeepsAtMostOne(
    s: Shown, name: string, sensors: seq<TemperatureReading>, settings: Option<LocalSettings>)
    requires AtMostOne(FlagsOf(s, name))
    ensures AtMostOne(FlagsOf(EvaluateAll(s, sensors, settings).shown, name))
    decreases |sensors|
  {
    if sensors != [] {
      var front := sensors[..|sensors| - 1];
      BatchKeepsAtMostOne(s, name, front, settings);
      var prev := EvaluateAll(s, front, settings);
      var last := sensors[|sensors| - 1];
      if last.name != name {
        KeysDistinct(name, last.name);
        assert FlagsOf(EvaluateAll(s, sensors, settings).shown, name) == FlagsOf(prev.shown, name);
      }
    }
  }

  function ReadingOf(name: string, temperature: real): TemperatureReading {
    TemperatureReading(0, name, temperature, "", "")
  }

  lemma EvaluateFive(s: Shown, a: TemperatureReading, b: TemperatureReading, c: TemperatureReading,
                     d: TemperatureReading, e: TemperatureReading, settings: Option<LocalSettings>)
    ensures EvaluateAll(s, [a, b, c, d, e], settings) ==
            Step(Step(Step(Step(Step(Batch(s, []), a, settings), b, settings), c, settings), d, settings), e, settings)
  {
    SnocFive(a, b, c, d, e);
    EvaluateAllSnoc(s, [], a, settings);
    EvaluateAllSnoc(s, [a], b, settings);
    EvaluateAllSnoc(s, [a, b], c, settings);
    EvaluateAllSnoc(s, [a, b, c], d, settings);
    EvaluateAllSnoc(s, [a, b, c, d], e, settings);
  }

  lemma ExcursionSteps(name: string, settings: Option<LocalSettings>)
    requires GetSensorSettings(name, settings) == Thresholds(70.0, 80.0, 90.0)
    ensures var r60, r82, r92 := ReadingOf(name, 60.0), ReadingOf(name, 82.0), ReadingOf(name, 92.0);
            var b := Step(Step(Step(Step(Step(Batch(Shown({}, {}, {}), []), r60, settings), r82, settings),
                                         r92, settings), r82, settings), r60, settings);
            |b.alerts| == 3 &&
            b.alerts[0].title == WarningTitle && b.alerts[1].title == CriticalTitle &&
            b.alerts[2].title == WarningTitle &&
            FlagsOf(b.shown, name) == Flags(false, false, false)
  {
    var r60, r82, r92 := ReadingOf(name, 60.0), ReadingOf(name, 82.0), ReadingOf(name, 92.0);
    var b0 := Batch(Shown({}, {}, {}), []);
    var b1 := Step(b0, r60, settings);
    StepAnnounces(b0, r60, settings);
    var b2 := Step(b1, r82, settings);
    StepAnnounces(b1, r82, settings);
    var b3 := Step(b2, r92, settings);
    StepAnnounces(b2, r92, settings);
    var b4 := Step(b3, r82, settings);
    StepAnnounces(b3, r82, settings);
    var b5 := Step(b4, r60, settings);
    StepAnnounces(b4, r60, settings);
    assert b5.alerts[0] == b2.alerts[0];
    assert b5.alerts[1] == b3.alerts[1];
  }

  /** A sensor read at 60, 82, 92, 82, 60 against 70/80/90 (stored, or the fallback when the
      store fails), from no shown alerts: a warning, a critical alert, the warning again on the
      way down, and nothing for either 60, which also clears the sensor's keys. */
  lemma Excursion(name: string, settings: Option<LocalSettings>)
    requires GetSensorSettings(name, settings) == Thresholds(70.0, 80.0, 90.0)
    ensures var b := EvaluateAll(Shown({}, {}, {}),
              [ReadingOf(name, 60.0), ReadingOf(name, 82.0), ReadingOf(name, 92.0),
               ReadingOf(name, 82.0), ReadingOf(name, 60.0)], settings);
            |b.alerts| == 3 &&
            b.alerts[0].title == WarningTitle && b.alerts[1].title == CriticalTitle &&
            b.alerts[2].title == WarningTitle &&
            FlagsOf(b.shown, name) == Flags(false, false, false)
  {
    var r60, r82, r92 := ReadingOf(name, 60.0), ReadingOf(name, 82.0), ReadingOf(name, 92.0);
    EvaluateFive(Shown({}, {}, {}), r60, r82, r92, r82, r60, settings);
    ExcursionSteps(name, settings);
  }

  /** The Kolv thresholds from the store, or the 70/80/90 fallback, feed the excursion. */
  lemma KolvExcursionApplies(stored: LocalSettings)
    requires stored.kolv == Thresholds(70.0, 80.0, 90.0)
    ensures GetSensorSettings(Kolv, Some(stored)) == Thresholds(70.0, 80.0, 90.0)
    ensures GetSensorSettings(Kolv, None) == Thresholds(70.0, 80.0, 90.0)
  {
    assert Lower(Kolv) == "kolv";
  }

  // ---------------------------------------------------------------------------
  // Data-loss watchdog

  /** The watchdog fields; `hasTimer` stands for `_monitoringTimer != null`. */
  datatype Watchdog = Watchdog(
    lastDataReceived: int, timeoutSeconds: int, isMonitoring: bool, hasShownTimeoutWarning: bool, hasTimer: bool)

  /** The timer exists exactly while monitoring. */
  predicate TimerMatches(w: Watchdog) { w.hasTimer == w.isMonitoring }

  /** ReportDataReceived: data arrived now, which re-arms the timeout warning; monitoring,
      the timer and the timeout are left as they are. */
  function Report(w: Watchdog, now: int): (r: Watchdog)
    ensures r.lastDataReceived == now && !r.hasShownTimeoutWarning
    ensures r.timeoutSeconds == w.timeoutSeconds && r.isMonitoring == w.isMonitoring && r.hasTimer == w.hasTimer
  {
    w.(lastDataReceived := now, hasShownTimeoutWarning := false)
  }

  /** StartSensorMonitoring: nothing at all while already monitoring. */
  function Start(w: Watchdog, timeoutSeconds: int, now: int): (r: Watchdog)
    ensures w.isMonitoring ==> r == w
    ensures !w.isMonitoring ==>
      r == Watchdog(now, timeoutSeconds, true, false, true)
  {
    if w.isMonitoring then w else Watchdog(now, timeoutSeconds, true, false, true)
  }

  /** StopSensorMonitoring. */
  function Stop(w: Watchdog): (r: Watchdog)
    ensures !r.isMonitoring && !r.hasTimer
    ensures r.lastDataReceived == w.lastDataReceived && r.timeoutSeconds == w.timeoutSeconds
    ensures r.hasShownTimeoutWarning == w.hasShownTimeoutWarning
  {
    w.(isMonitoring := false, hasTimer := false)
  }

  /** UpdateMonitoringSettings changes the timeout and nothing else. */
  function UpdateTimeout(w: Watchdog, timeoutSeconds: int): (r: Watchdog)
    ensures r.timeoutSeconds == timeoutSeconds
    ensures r.lastDataReceived == w.lastDataReceived && r.isMonitoring == w.isMonitoring
    ensures r.hasShownTimeoutWarning == w.hasShownTimeoutWarning && r.hasTimer == w.hasTimer
  {
    w.(timeoutSeconds := timeoutSeconds)
  }

  datatype TickResult = TickResult(watchdog: Watchdog, alert: Option<Notification>)

  const TimeoutAlertCritical := true

  /** One second of the monitoring timer: CheckForTimeout when the timer exists. */
  function TimerTick(w: Watchdog, now: int): (r: TickResult)
    ensures r.alert.Some? <==>
      w.hasTimer && now - w.lastDataReceived >= w.timeoutSeconds && !w.hasShownTimeoutWarning
    ensures r.alert.Some? ==> r.alert.value == Notification(TimeoutTitle, TimeoutBody(w.timeoutSeconds), true)
    ensures r.watchdog == w.(hasShownTimeoutWarning := w.hasShownTimeoutWarning || r.alert.Some?)
  {
    if w.hasTimer && now - w.lastDataReceived >= w.timeoutSeconds && !w.hasShownTimeoutWarning then
      TickResult(w.(hasShownTimeoutWarning := true), Some(Notification(TimeoutTitle, TimeoutBody(w.timeoutSeconds), true)))
    else TickResult(w, None)
  }

  /** Every operation keeps the timer tied to the monitoring flag. */
  lemma OperationsKeepTimerMatch(w: Watchdog, now: int, timeout: int)
    requires TimerMatches(w)
    ensures TimerMatches(Report(w, now)) && TimerMatches(Start(w, timeout, now)) && TimerMatches(Stop(w))
    ensures TimerMatches(UpdateTimeout(w, timeout)) && TimerMatches(TimerTick(w, now).watchdog)
  {
  }

  datatype Ticks = Ticks(watchdog: Watchdog, alerts: seq<Notification>)

  /** A run of timer ticks at the given times, with no data arriving in between. */
  function TickAll(w: Watchdog, times: seq<int>): (r: Ticks)
    decreases |times|
  {
    if times == [] then Ticks(w, [])
    else
      var prev := TickAll(w, times[..|times| - 1]);
      var t := TimerTick(prev.watchdog, times[|times| - 1]);
      Ticks(t.watchdog, prev.alerts + AlertList(t.alert))
  }

  /** One alert per loss episode: without a data report, a run of ticks alerts at most once,
      never after the warning was shown, and only the warning flag can change. */
  lemma {:induction false} OneAlertPerGap(w: Watchdog, times: seq<int>)
    ensures var r := TickAll(w, times);
            && |r.alerts| <= 1
            && (w.hasShownTimeoutWarning ==> r.alerts == [])
            && r.watchdog == w.(hasShownTimeoutWarning := w.hasShownTimeoutWarning || |r.alerts| == 1)
            && (forall i :: 0 <= i < |r.alerts| ==> r.alerts[i].isCritical)
    decreases |times|
  {
    if times != [] {
      OneAlertPerGap(w, times[..|times| - 1]);
    }
  }

  /** While the timer runs, the first tick that sees the timeout elapsed raises the alert. */
  lemma {:induction false} GapIsReported(w: Watchdog, times: seq<int>, k: nat)
    requires w.hasTimer && !w.hasShownTimeoutWarning
    requires k < |times| && times[k] - w.lastDataReceived >= w.timeoutSeconds
    ensures |TickAll(w, times).alerts| == 1
    decreases |times|
  {
    OneAlertPerGap(w, times);
    if k < |times| - 1 {
      GapIsReported(w, times[..|times| - 1], k);
      OneAlertPerGap(w, times[..|times| - 1]);
    } else {
      OneAlertPerGap(w, times[..|times| - 1]);
    }
  }

  /** After StopSensorMonitoring no tick alerts. */
  lemma {:induction false} NoAlertAfterStop(w: Watchdog, times: seq<int>)
    ensures TickAll(Stop(w), times).alerts == []
    ensures !TickAll(Stop(w), times).watchdog.hasTimer
    decreases |times|
  {
    if times != [] {
      NoAlertAfterStop(w, times[..|times| - 1]);
    }
  }

  /** Start(5) at 0 and no data: ticks 1..6 raise one alert; data at 7 then ticks 8..11
      raise none; the tick at 12 starts a new episode. */
  lemma WatchdogScenario(w0: Watchdog)
    requires !w0.isMonitoring
    ensures var w1 := Start(w0, 5, 0);
            var r1 := TickAll(w1, [1, 2, 3, 4, 5, 6]);
            var w2 := Report(r1.watchdog, 7);
            var r2 := TickAll(w2, [8, 9, 10, 11]);
            var r3 := TimerTick(r2.watchdog, 12);
            |r1.alerts| == 1 && r2.alerts == [] && r3.alert.Some?
  {
    var w1 := Start(w0, 5, 0);
    GapIsReported(w1, [1, 2, 3, 4, 5, 6], 4);
    var r1 := TickAll(w1, [1, 2, 3, 4, 5, 6]);
    OneAlertPerGap(w1, [1, 2, 3, 4, 5, 6]);
    var w2 := Report(r1.watchdog, 7);
    var ts := [8, 9, 10, 11];
    assert ts[..3] == [8, 9, 10] && ts[..3][..2] == [8, 9] && ts[..3][..2][..1] == [8];
    assert [8][..0] == [];
    OneAlertPerGap(w2, ts);
    OneAlertPerGap(w2, ts[..3]);
    OneAlertPerGap(w2, ts[..3][..2]);
    OneAlertPerGap(w2, ts[..3][..2][..1]);
  }

  // ---------------------------------------------------------------------------
  // The service

  class AppNotificationService {
    var shownWarnings: set<string>
    var shownCritical: set<string>
    var shownOptimal: set<string>
    var lastDataReceived: int
    var timeoutSeconds: int
    var isMonitoring: bool
    var hasShownTimeoutWarning: bool
    var hasTimer: bool
    ghost var alerts: seq<Notification>

    function ShownState(): Shown
      reads this
    {
      Shown(shownWarnings, shownCritical, shownOptimal)
    }

    function WatchdogState(): Watchdog
      reads this
    {
      Watchdog(lastDataReceived, timeoutSeconds, isMonitoring, hasShownTimeoutWarning, hasTimer)
    }

    /** `now` is DateTime.Now when the service is built. */
    constructor (now: int)
      ensures ShownState() == Shown({}, {}, {})
      ensures WatchdogState() == Watchdog(now, 5, false, false, false)
      ensures alerts == []
    {
      shownWarnings, shownCritical, shownOptimal := {}, {}, {};
      lastDataReceived, timeoutSeconds := now, 5;
      isMonitoring, hasShownTimeoutWarning, hasTimer := false, false, false;
      alerts := [];
    }

    /** ShowNotificationAsync: delivery and vibration are platform calls; the call is logged. */
    method ShowNotification(title: string, body: Body, isCritical: bool)
      modifies this`alerts
      ensures alerts == old(alerts) + [Notification(title, body, isCritical)]
    {
      alerts := alerts + [Notification(title, body, isCritical)];
    }

    /** CheckTemperatureWarnings; `settings` is what the settings store answers during the batch. */
    method CheckTemperatureWarnings(sensors: seq<TemperatureReading>, settings: Option<LocalSettings>)
      modifies this`shownWarnings, this`shownCritical, this`shownOptimal, this`alerts
      ensures var b := EvaluateAll(old(ShownState()), sensors, settings);
              ShownState() == b.shown && alerts == old(alerts) + b.alerts
    {
      var i := 0;
      while i < |sensors|
        invariant 0 <= i <= |sensors|
        invariant var b := EvaluateAll(old(ShownState()), sensors[..i], settings);
                  ShownState() == b.shown && alerts == old(alerts) + b.alerts
      {
        var sensor := sensors[i];
        var t := GetSensorSettings(sensor.name, settings);
        ghost var before := EvaluateAll(old(ShownState()), sensors[..i], settings);
        CheckSensor(sensor.name, sensor.temperature, t);
        ghost var e := Evaluate(before.shown, sensor.name, sensor.temperature, t);
        AppendAssoc(old(alerts), before.alerts, AlertList(e.alert));
        EvaluateAllSnoc(old(ShownState()), sensors[..i], sensor, settings);
        TakeSnoc(sensors, i);
        i := i + 1;
      }
      assert sensors[..i] == sensors;
    }

    /** The body of the foreach in CheckTemperatureWarnings for one sensor. */
    method CheckSensor(name: string, temperature: real, t: Thresholds)
      modifies this`shownWarnings, this`shownCritical, this`shownOptimal, this`alerts
      ensures var e := Evaluate(old(ShownState()), name, temperature, t);
              ShownState() == e.shown && alerts == old(alerts) + AlertList(e.alert)
    {
      var warningKey, criticalKey, optimalKey := WarningKey(name), CriticalKey(name), OptimalKey(name);
      if temperature >= t.criticalTemp {
        if criticalKey !in shownCritical {
          ShowNotification(CriticalTitle, CriticalBody(name, temperature, t.criticalTemp), true);
          shownCritical := shownCritical + {criticalKey};
        }
        shownWarnings := shownWarnings - {warningKey};
        shownOptimal := shownOptimal - {optimalKey};
      } else if temperature >= t.warningTemp {
        var wasInCritical := criticalKey in shownCritical;
        if warningKey !in shownWarnings || wasInCritical {
          ShowNotification(WarningTitle, WarningBody(name, temperature, t.warningTemp), false);
          shownWarnings := shownWarnings + {warningKey};
        }
        shownCritical := shownCritical - {criticalKey};
        shownOptimal := shownOptimal - {optimalKey};
      } else if temperature >= t.optimalMin && temperature < t.warningTemp {
        var wasInWarning := warningKey in shownWarnings || criticalKey in shownCritical;
        if optimalKey !in shownOptimal || wasInWarning {
          ShowNotification(OptimalTitle, OptimalBody(name, temperature), false);
          shownOptimal := shownOptimal + {optimalKey};
        }
        shownWarnings := shownWarnings - {warningKey};
        shownCritical := shownCritical - {criticalKey};
      } else {
        shownWarnings := shownWarnings - {warningKey};
        shownCritical := shownCritical - {criticalKey};
        shownOptimal := shownOptimal - {optimalKey};
      }
    }

    /** ReportDataReceived at time `now`. */
    method ReportDataReceived(now: int)
      modifies this`lastDataReceived, this`hasShownTimeoutWarning
      ensures WatchdogState() == Report(old(WatchdogState()), now)
    {
      lastDataReceived := now;
      hasShownTimeoutWarning := false;
    }

    /** StartSensorMonitoring at time `now`. */
    method StartSensorMonitoring(timeoutSeconds: int, now: int)
      modifies this`timeoutSeconds, this`isMonitoring, this`lastDataReceived, this`hasShownTimeoutWarning, this`hasTimer
      ensures WatchdogState() == Start(old(WatchdogState()), timeoutSeconds, now)
    {
      if isMonitoring {
        return;
      }
      this.timeoutSeconds := timeoutSeconds;
      isMonitoring := true;
      lastDataReceived := now;
      hasShownTimeoutWarning := false;
      hasTimer := true;
    }

    method StopSensorMonitoring()
      modifies this`isMonitoring, this`hasTimer
      ensures WatchdogState() == Stop(old(WatchdogState()))
    {
      isMonitoring := false;
      hasTimer := false;
    }

    method UpdateMonitoringSettings(timeoutSeconds: int)
      modifies this`timeoutSeconds
      ensures WatchdogState() == UpdateTimeout(old(WatchdogState()), timeoutSeconds)
    {
      this.timeoutSeconds := timeoutSeconds;
    }

    /** The timer's Elapsed event at time `now`: CheckForTimeout, if the timer exists. */
    method Tick(now: int)
      modifies this`hasShownTimeoutWarning, this`alerts
      ensures var r := TimerTick(old(WatchdogState()), now);
              WatchdogState() == r.watchdog && alerts == old(alerts) + AlertList(r.alert)
    {
      if hasTimer {
        CheckForTimeout(now);
      }
    }

    method CheckForTimeout(now: int)
      modifies this`hasShownTimeoutWarning, this`alerts
      ensures var r := TimerTick(old(WatchdogState()).(hasTimer := true), now);
              WatchdogState() == r.watchdog.(hasTimer := hasTimer) && alerts == old(alerts) + AlertList(r.alert)
    {
      var timeSinceLastData := now - lastDataReceived;
      if timeSinceLastData >= timeoutSeconds && !hasShownTimeoutWarning {
        hasShownTimeoutWarning := true;
        ShowNotification(TimeoutTitle, TimeoutBody(timeoutSeconds), true);
      }
    }
  }
}
