/** TemperatureThresholdService: the four-tier classification of a reading and the
    per-sensor threshold cache that feeds it. */
module ThresholdService {
  import opened Models

  /** The comparison chain of GetTemperatureStatusAsync: checked from the top tier down,
      so it is total for any triple, ordered or not. */
  function Classify(temperature: real, t: Thresholds): (r: TemperatureStatus)
    ensures r == Critical <==> temperature >= t.criticalTemp
    ensures r == Warning <==> t.warningTemp <= temperature < t.criticalTemp
    ensures r == Optimal <==>
      t.optimalMin <= temperature && temperature < t.warningTemp && temperature < t.criticalTemp
    ensures r == TooLow <==>
      temperature < t.optimalMin && temperature < t.warningTemp && temperature < t.criticalTemp
  {
    if temperature >= t.criticalTemp then Critical
    else if temperature >= t.warningTemp then Warning
    else if temperature >= t.optimalMin then Optimal
    else TooLow
  }

  /** With ordered thresholds the bands are half-open and a boundary belongs to the tier above. */
  lemma OrderedBands(temperature: real, t: Thresholds)
    requires Ordered(t)
    ensures Classify(temperature, t) == TooLow <==> temperature < t.optimalMin
    ensures Classify(temperature, t) == Optimal <==> t.optimalMin <= temperature < t.warningTemp
    ensures Classify(temperature, t) == Warning <==> t.warningTemp <= temperature < t.criticalTemp
    ensures Classify(temperature, t) == Critical <==> t.criticalTemp <= temperature
    ensures Classify(t.optimalMin, t) == Optimal
    ensures Classify(t.warningTemp, t) == Warning
    ensures Classify(t.criticalTemp, t) == Critical
  {
  }

  /** For any triple, ordered or not, a hotter reading never gets a lower tier. */
  lemma ClassifyMonotone(t1: real, t2: real, t: Thresholds)
    requires t1 <= t2
    ensures Rank(Classify(t1, t)) <= Rank(Classify(t2, t))
  {
  }

  /** LoadThresholdsFromSettings: the three named sensors read their own stored triple
      (None when the store throws, which GetThresholdsAsync does not catch); any other name
      gets 50/80/90 without touching the store. */
  function LoadThresholdsFromSettings(sensorName: string, settings: Option<LocalSettings>): (r: Option<Thresholds>)
    ensures !IsKnownSensor(sensorName) ==> r == Some(Thresholds(50.0, 80.0, 90.0))
    ensures IsKnownSensor(sensorName) ==>
      r == if settings.Some? then Some(StoredFor(settings.value, sensorName)) else None
  {
    match sensorName
    case "Kolv" => if settings.Some? then Some(settings.value.kolv) else None
    case "Destillat" => if settings.Some? then Some(settings.value.destillat) else None
    case "Kylare" => if settings.Some? then Some(settings.value.kylare) else None
    case _ => Some(Thresholds(50.0, 80.0, 90.0))
  }

  /** Result and new cache of one GetThresholdsAsync call. */
  datatype Lookup = Lookup(result: Option<Thresholds>, cache: map<string, Thresholds>)

  /** GetThresholdsAsync on a cache value: a hit returns the entry and leaves the cache alone;
      a miss loads, stores what was loaded and returns it. */
  function CachedLookup(cache: map<string, Thresholds>, sensorName: string, settings: Option<LocalSettings>): (r: Lookup)
    ensures sensorName in cache ==> r == Lookup(Some(cache[sensorName]), cache)
    ensures sensorName !in cache ==> r.result == LoadThresholdsFromSettings(sensorName, settings)
    ensures sensorName !in cache && r.result.Some? ==> r.cache == cache[sensorName := r.result.value]
    ensures r.result.None? ==> r.cache == cache
  {
    if sensorName in cache then Lookup(Some(cache[sensorName]), cache)
    else
      var loaded := LoadThresholdsFromSettings(sensorName, settings);
      if loaded.Some? then Lookup(loaded, cache[sensorName := loaded.value]) else Lookup(loaded, cache)
  }

  /** Once a lookup succeeded, every later lookup of that name returns the same triple,
      whatever the settings store says by then, and changes nothing. */
  lemma CacheIsSticky(cache: map<string, Thresholds>, sensorName: string,
                      first: Option<LocalSettings>, later: Option<LocalSettings>)
    requires CachedLookup(cache, sensorName, first).result.Some?
    ensures var l1 := CachedLookup(cache, sensorName, first);
            CachedLookup(l1.cache, sensorName, later) == l1
  {
  }

  /** The event payload of a settings change for one sensor. */
  datatype TemperatureSettingsChanged = TemperatureSettingsChanged(
    sensorName: string, optimalMin: real, warningTemp: real, criticalTemp: real)

  /** OnTemperatureSettingsChanged on a cache value. */
  function ApplySettingsChanged(cache: map<string, Thresholds>, e: TemperatureSettingsChanged): (r: map<string, Thresholds>)
    ensures r.Keys == cache.Keys + {e.sensorName}
    ensures r[e.sensorName] == Thresholds(e.optimalMin, e.warningTemp, e.criticalTemp)
    ensures forall n :: n in cache && n != e.sensorName ==> r[n] == cache[n]
  {
    cache[e.sensorName := Thresholds(e.optimalMin, e.warningTemp, e.criticalTemp)]
  }

  /** After a change event the status of that sensor is computed from the event's values. */
  lemma StatusFollowsChange(cache: map<string, Thresholds>, e: TemperatureSettingsChanged,
                            settings: Option<LocalSettings>, temperature: real)
    ensures var l := CachedLookup(ApplySettingsChanged(cache, e), e.sensorName, settings);
            l.result == Some(Thresholds(e.optimalMin, e.warningTemp, e.criticalTemp)) &&
            Classify(temperature, l.result.value) ==
              Classify(temperature, Thresholds(e.optimalMin, e.warningTemp, e.criticalTemp))
  {
  }

  class TemperatureThresholdService {
    var cachedThresholds: map<string, Thresholds>

    constructor ()
      ensures cachedThresholds == map[]
    {
      cachedThresholds := map[];
    }

    /** GetThresholdsAsync. `settings` is what the settings store would answer (None: it throws). */
    method GetThresholds(sensorName: string, settings: Option<LocalSettings>) returns (r: Option<Thresholds>)
      modifies this
      ensures Lookup(r, cachedThresholds) == CachedLookup(old(cachedThresholds), sensorName, settings)
    {
      if sensorName in cachedThresholds {
        return Some(cachedThresholds[sensorName]);
      }
      r := LoadThresholdsFromSettings(sensorName, settings);
      if r.Some? {
        cachedThresholds := cachedThresholds[sensorName := r.value];
      }
    }

    /** GetTemperatureStatusAsync: None when loading the thresholds threw. */
    method GetTemperatureStatus(sensorName: string, temperature: real, settings: Option<LocalSettings>)
      returns (r: Option<TemperatureStatus>)
      modifies this
      ensures var l := CachedLookup(old(cachedThresholds), sensorName, settings);
              cachedThresholds == l.cache &&
              r == if l.result.Some? then Some(Classify(temperature, l.result.value)) else None
    {
      var thresholds := GetThresholds(sensorName, settings);
      if thresholds.None? {
        return None;
      }
      r := Some(Classify(temperature, thresholds.value));
    }

    /** OnTemperatureSettingsChanged: overwrite exactly the entry of the event's sensor. */
    method OnTemperatureSettingsChanged(e: TemperatureSettingsChanged)
      modifies this
      ensures cachedThresholds == ApplySettingsChanged(old(cachedThresholds), e)
    {
      cachedThresholds := cachedThresholds[e.sensorName := Thresholds(e.optimalMin, e.warningTemp, e.criticalTemp)];
    }
  }
}
