/** TemperatureGraphView: the rolling buffer of plotted points, the cached thresholds it draws
    as reference lines, and the tables that pick the grid and label spacing. */
module GraphView {
  import opened Models

  /** One plotted point; the timestamp is in whole seconds. */
  datatype TemperaturePoint = TemperaturePoint(temperature: real, timestamp: int)

  /** MAX_POINTS. */
  const MaxPoints: nat := 100

  /** The ten-minute window of AddTemperature, in seconds. */
  const WindowSeconds: int := 600

  // ---------------------------------------------------------------------------
  // The buffer

  /** RemoveAll(point => point.Timestamp < cutoff): the points at or after the cutoff, in order. */
  function Recent(h: seq<TemperaturePoint>, cutoff: int): (r: seq<TemperaturePoint>)
    ensures |r| <= |h|
  {
    if h == [] then []
    else (if h[0].timestamp < cutoff then [] else [h[0]]) + Recent(h[1..], cutoff)
  }

  /** The filter keeps exactly the points at or after the cutoff. */
  lemma {:induction false} RecentMembers(h: seq<TemperaturePoint>, cutoff: int)
    ensures forall p :: p in Recent(h, cutoff) <==> p in h && p.timestamp >= cutoff
  {
    if h != [] {
      RecentMembers(h[1..], cutoff);
      assert h == [h[0]] + h[1..];
    }
  }

  /** RemoveRange(0, Count - MAX_POINTS) when over the cap: drop the oldest points. */
  function Cap(h: seq<TemperaturePoint>): (r: seq<TemperaturePoint>)
    ensures |r| <= MaxPoints
  {
    if |h| > MaxPoints then h[|h| - MaxPoints..] else h
  }

  /** Capping keeps only points it was given, and the newest one stays last. */
  lemma CapKeeps(h: seq<TemperaturePoint>)
    ensures forall p :: p in Cap(h) ==> p in h
    ensures h != [] ==> Cap(h) != [] && Cap(h)[|Cap(h)| - 1] == h[|h| - 1]
  {
  }

  /** Filtering and then capping leaves no point older than the cutoff. */
  lemma CapRecentWindow(h: seq<TemperaturePoint>, cutoff: int)
    ensures forall p :: p in Cap(Recent(h, cutoff)) ==> p.timestamp >= cutoff
  {
    RecentMembers(h, cutoff);
    CapKeeps(Recent(h, cutoff));
  }

  /** The buffer after one AddTemperature at time `now`. */
  function Added(h: seq<TemperaturePoint>, temperature: real, now: int): seq<TemperaturePoint> {
    Cap(Recent(h + [TemperaturePoint(temperature, now)], now - WindowSeconds))
  }

  lemma {:induction false} RecentLast(h: seq<TemperaturePoint>, cutoff: int)
    requires h != [] && h[|h| - 1].timestamp >= cutoff
    ensures Recent(h, cutoff) != [] && Recent(h, cutoff)[|Recent(h, cutoff)| - 1] == h[|h| - 1]
  {
    if |h| > 1 {
      RecentLast(h[1..], cutoff);
    }
  }

  /** Dropping the first `k` points of a filtered buffer filters a suffix of the buffer,
      the one starting at the returned position. */
  lemma {:induction false} RecentSuffix(h: seq<TemperaturePoint>, cutoff: int, k: nat) returns (j: nat)
    requires k <= |Recent(h, cutoff)|
    ensures j <= |h| && Recent(h, cutoff)[k..] == Recent(h[j..], cutoff)
  {
    if k == 0 {
      j := 0;
      assert h[0..] == h;
    } else {
      var t := h[1..];
      var i;
      if h[0].timestamp < cutoff {
        assert Recent(h, cutoff) == Recent(t, cutoff);
        i := RecentSuffix(t, cutoff, k);
      } else {
        assert Recent(h, cutoff) == [h[0]] + Recent(t, cutoff);
        assert Recent(h, cutoff)[k..] == Recent(t, cutoff)[k - 1..];
        i := RecentSuffix(t, cutoff, k - 1);
      }
      j := i + 1;
      assert t[i..] == h[j..];
    }
  }

  /** What one AddTemperature guarantees: at most MAX_POINTS points, none older than ten
      minutes before `now`, and the new point last. */
  lemma AddedFacts(h: seq<TemperaturePoint>, temperature: real, now: int)
    ensures var r := Added(h, temperature, now);
            && |r| <= MaxPoints
            && (forall p :: p in r ==> p.timestamp >= now - WindowSeconds)
            && r != [] && r[|r| - 1] == TemperaturePoint(temperature, now)
  {
    var s := h + [TemperaturePoint(temperature, now)];
    CapRecentWindow(s, now - WindowSeconds);
    RecentLast(s, now - WindowSeconds);
    CapKeeps(Recent(s, now - WindowSeconds));
  }

  /** ... and what is left keeps its old order: the recent points of some suffix of the old
      buffer followed by the new point. */
  lemma AddedKeepsOrder(h: seq<TemperaturePoint>, temperature: real, now: int)
    ensures exists j :: 0 <= j <= |h| + 1 &&
              Added(h, temperature, now) == Recent((h + [TemperaturePoint(temperature, now)])[j..], now - WindowSeconds)
  {
    var s := h + [TemperaturePoint(temperature, now)];
    var f := Recent(s, now - WindowSeconds);
    var k := if |f| > MaxPoints then |f| - MaxPoints else 0;
    assert Cap(f) == f[k..];
    var j := RecentSuffix(s, now - WindowSeconds, k);
    assert Cap(f) == Recent(s[j..], now - WindowSeconds);
  }

  /** Points older than the window are gone even when the buffer is far below the cap. */
  lemma OldPointsExpire(h: seq<TemperaturePoint>, p: TemperaturePoint, temperature: real, now: int)
    requires p in h && p.timestamp < now - WindowSeconds
    ensures p !in Added(h, temperature, now)
  {
    RecentMembers(h + [TemperaturePoint(temperature, now)], now - WindowSeconds);
  }

  // ---------------------------------------------------------------------------
  // Tables

  /** GetFallbackOptimalMin. */
  function GetFallbackOptimalMin(sensorName: string): real {
    match sensorName
    case "Kolv" => 70.0
    case "Destillat" => 75.0
    case "Kylare" => 20.0
    case _ => 50.0
  }

  /** GetFallbackWarningTemp. */
  function GetFallbackWarningTemp(sensorName: string): real {
    match sensorName
    case "Kolv" => 80.0
    case "Destillat" => 85.0
    case "Kylare" => 30.0
    case _ => 80.0
  }

  /** GetFallbackCriticalTemp. */
  function GetFallbackCriticalTemp(sensorName: string): real {
    match sensorName
    case "Kolv" => 90.0
    case "Destillat" => 95.0
    case "Kylare" => 40.0
    case _ => 90.0
  }

  /** The three fallback tables read together. */
  function Fallback(sensorName: string): Thresholds {
    Thresholds(GetFallbackOptimalMin(sensorName), GetFallbackWarningTemp(sensorName), GetFallbackCriticalTemp(sensorName))
  }

  /** The fallback triples, and every one of them is strictly ordered. */
  lemma FallbackTable(sensorName: string)
    ensures Ordered(Fallback(sensorName))
    ensures sensorName == Kolv ==> Fallback(sensorName) == Thresholds(70.0, 80.0, 90.0)
    ensures sensorName == Destillat ==> Fallback(sensorName) == Thresholds(75.0, 85.0, 95.0)
    ensures sensorName == Kylare ==> Fallback(sensorName) == Thresholds(20.0, 30.0, 40.0)
    ensures !IsKnownSensor(sensorName) ==> Fallback(sensorName) == Thresholds(50.0, 80.0, 90.0)
  {
  }

  /** The spacing of the horizontal grid lines for a temperature span. */
  function GridInterval(tempRange: real): (r: real)
    ensures r > 0.0
    ensures tempRange <= 20.0 ==> r == 0.5
    ensures 20.0 < tempRange <= 40.0 ==> r == 1.0
    ensures 40.0 < tempRange <= 60.0 ==> r == 2.0
    ensures 60.0 < tempRange ==> r == 5.0
  {
    if tempRange <= 20.0 then 0.5
    else if tempRange <= 40.0 then 1.0
    else if tempRange <= 60.0 then 2.0
    else 5.0
  }

  /** The spacing of the axis labels for a temperature span. */
  function LabelInterval(tempRange: real): (r: real)
    ensures r > 0.0
    ensures tempRange <= 20.0 ==> r == 2.0
    ensures 20.0 < tempRange <= 40.0 ==> r == 5.0
    ensures 40.0 < tempRange <= 60.0 ==> r == 10.0
    ensures 60.0 < tempRange ==> r == 20.0
  {
    if tempRange <= 20.0 then 2.0
    else if tempRange <= 40.0 then 5.0
    else if tempRange <= 60.0 then 10.0
    else 20.0
  }

  /** Every label sits on a grid line: for the same span the label spacing is a whole
      multiple (four or five) of the grid spacing, and both grow with the span. */
  lemma LabelsOnGrid(tempRange: real)
    ensures LabelInterval(tempRange) / GridInterval(tempRange) in {4.0, 5.0}
  {
  }

  lemma IntervalsMonotone(r1: real, r2: real)
    requires r1 <= r2
    ensures GridInterval(r1) <= GridInterval(r2) && LabelInterval(r1) <= LabelInterval(r2)
  {
  }

  /** The plotted temperature span: five degrees around the optimal and critical limits, kept
      inside 0..100. */
  datatype YRange = YRange(minTemp: real, maxTemp: real)

  function GetYRange(optimalMin: real, criticalTemp: real): (r: YRange)
    ensures r.minTemp >= 0.0 && r.maxTemp <= 100.0
    ensures r.minTemp == if optimalMin - 5.0 > 0.0 then optimalMin - 5.0 else 0.0
    ensures r.maxTemp == if criticalTemp + 5.0 < 100.0 then criticalTemp + 5.0 else 100.0
  {
    var lo := if 0.0 >= optimalMin - 5.0 then 0.0 else optimalMin - 5.0;
    var hi := if 100.0 <= criticalTemp + 5.0 then 100.0 else criticalTemp + 5.0;
    YRange(lo, hi)
  }

  /** DrawTemperatureReferenceLines draws a limit only when it lies inside the plotted span. */
  predicate LineShown(v: real, y: YRange) {
    v >= y.minTemp && v <= y.minTemp + (y.maxTemp - y.minTemp)
  }

  /** For ordered limits inside 0..100 all three reference lines are drawn, with at least five
      degrees of margin where the 0..100 bounds allow it. */
  lemma AllLinesShown(t: Thresholds)
    requires Ordered(t) && 0.0 <= t.optimalMin && t.criticalTemp <= 100.0
    ensures var y := GetYRange(t.optimalMin, t.criticalTemp);
            LineShown(t.optimalMin, y) && LineShown(t.warningTemp, y) && LineShown(t.criticalTemp, y)
  {
  }

  /** A limit above 100 is never drawn: the span stops at 100. */
  lemma HighLimitHidden(t: Thresholds)
    requires t.criticalTemp > 100.0
    ensures !LineShown(t.criticalTemp, GetYRange(t.optimalMin, t.criticalTemp))
  {
  }

  /** The triple LoadTemperatureSettingsAsync caches. A settings service reads the stored triple
      of Kolv, Destillat and Kylare (`stored` None: the store threw, and the catch falls back);
      other names, and a view without a settings service, get the fallback tables. */
  function LoadedThresholds(sensorName: string, hasSettingsService: bool, stored: Option<LocalSettings>): (r: Thresholds)
    ensures hasSettingsService && IsKnownSensor(sensorName) && stored.Some? ==>
              r == StoredFor(stored.value, sensorName)
    ensures !(hasSettingsService && IsKnownSensor(sensorName) && stored.Some?) ==> r == Fallback(sensorName)
  {
    if hasSettingsService then
      match sensorName
      case "Kolv" => if stored.Some? then stored.value.kolv else Fallback(sensorName)
      case "Destillat" => if stored.Some? then stored.value.destillat else Fallback(sensorName)
      case "Kylare" => if stored.Some? then stored.value.kylare else Fallback(sensorName)
      case _ => Fallback(sensorName)
    else Fallback(sensorName)
  }

  class TemperatureGraphView {
    var sensorName: string
    const hasSettingsService: bool
    var temperatureHistory: seq<TemperaturePoint>
    var cachedOptimalMin: real
    var cachedWarningTemp: real
    var cachedCriticalTemp: real
    var settingsLoaded: bool

    constructor (sensorName: string, hasSettingsService: bool)
      ensures this.sensorName == sensorName && this.hasSettingsService == hasSettingsService
      ensures temperatureHistory == [] && !settingsLoaded
      ensures cachedOptimalMin == 50.0 && cachedWarningTemp == 80.0 && cachedCriticalTemp == 90.0
    {
      this.sensorName := sensorName;
      this.hasSettingsService := hasSettingsService;
      temperatureHistory := [];
      cachedOptimalMin, cachedWarningTemp, cachedCriticalTemp := 50.0, 80.0, 90.0;
      settingsLoaded := false;
    }

    function Cached(): Thresholds
      reads this
    {
      Thresholds(cachedOptimalMin, cachedWarningTemp, cachedCriticalTemp)
    }

    /** AddTemperature: `now` is the clock reading of the call. */
    method AddTemperature(temp: real, now: int)
      modifies this`temperatureHistory
      ensures temperatureHistory == Added(old(temperatureHistory), temp, now)
    {
      temperatureHistory := temperatureHistory + [TemperaturePoint(temp, now)];
      var cutoffTime := now - WindowSeconds;
      temperatureHistory := Recent(temperatureHistory, cutoffTime);
      if |temperatureHistory| > MaxPoints {
        temperatureHistory := temperatureHistory[|temperatureHistory| - MaxPoints..];
      }
    }

    /** LoadTemperatureSettingsAsync: nothing happens without a sensor name. */
    method LoadTemperatureSettings(stored: Option<LocalSettings>)
      modifies this`cachedOptimalMin, this`cachedWarningTemp, this`cachedCriticalTemp, this`settingsLoaded
      ensures sensorName == [] ==> Cached() == old(Cached()) && settingsLoaded == old(settingsLoaded)
      ensures sensorName != [] ==>
                Cached() == LoadedThresholds(sensorName, hasSettingsService, stored) && settingsLoaded
    {
      if sensorName == [] {
        return;
      }
      if hasSettingsService && IsKnownSensor(sensorName) && stored.None? {
        // the first store read throws; the catch block installs the fallbacks
        cachedOptimalMin := GetFallbackOptimalMin(sensorName);
        cachedWarningTemp := GetFallbackWarningTemp(sensorName);
        cachedCriticalTemp := GetFallbackCriticalTemp(sensorName);
        settingsLoaded := true;
        return;
      }
      var t := LoadedThresholds(sensorName, hasSettingsService, stored);
      cachedOptimalMin := t.optimalMin;
      cachedWarningTemp := t.warningTemp;
      cachedCriticalTemp := t.criticalTemp;
      settingsLoaded := true;
    }
  }
}
