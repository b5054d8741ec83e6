/** MockDataService: simulated device readings that drift, stay inside fixed ranges and are
    labelled with the device's status and LED strings. */
module MockData {
  import opened Models
  import ThresholdService

  /** GetStatusForTemperature: the device's status string. */
  function GetStatusForTemperature(temp: real, optimalMin: real, warningTemp: real, criticalTemp: real): (r: string)
    ensures r == "cold" <==> temp < optimalMin
    ensures r == "optimal" <==> optimalMin <= temp < warningTemp
    ensures r == "warning" <==> optimalMin <= temp && warningTemp <= temp < criticalTemp
    ensures r == "hot" <==> optimalMin <= temp && warningTemp <= temp && criticalTemp <= temp
  {
    if temp < optimalMin then "cold"
    else if temp >= optimalMin && temp < warningTemp then "optimal"
    else if temp >= warningTemp && temp < criticalTemp then "warning"
    else "hot"
  }

  /** GetLedColorForTemperature: the LED colour string. */
  function GetLedColorForTemperature(temp: real, optimalMin: real, warningTemp: real, criticalTemp: real): (r: string)
    ensures r in {"blue", "green", "yellow", "red"}
  {
    if temp < optimalMin then "blue"
    else if temp >= optimalMin && temp < warningTemp then "green"
    else if temp >= warningTemp && temp < criticalTemp then "yellow"
    else "red"
  }

  /** The colour that belongs to each status string. */
  function LedForStatus(status: string): string {
    match status
    case "cold" => "blue"
    case "optimal" => "green"
    case "warning" => "yellow"
    case _ => "red"
  }

  /** Status and LED colour always take the same branch, for any triple. */
  lemma LedMatchesStatus(temp: real, optimalMin: real, warningTemp: real, criticalTemp: real)
    ensures GetLedColorForTemperature(temp, optimalMin, warningTemp, criticalTemp) ==
            LedForStatus(GetStatusForTemperature(temp, optimalMin, warningTemp, criticalTemp))
  {
  }

  /** The device's name for each tier of the threshold service. */
  function DeviceStatusName(s: TemperatureStatus): string {
    match s
    case TooLow => "cold"
    case Optimal => "optimal"
    case Warning => "warning"
    case Critical => "hot"
  }

  /** With ordered thresholds the mock status and the threshold service's tier agree. */
  lemma AgreesWithThresholdService(temp: real, t: Thresholds)
    requires Ordered(t)
    ensures GetStatusForTemperature(temp, t.optimalMin, t.warningTemp, t.criticalTemp) ==
            DeviceStatusName(ThresholdService.Classify(temp, t))
  {
  }

  /** Without the ordering they can disagree: the mock checks the bands bottom-up, the
      service top-down. */
  lemma DisagreesWhenDisordered()
    ensures var t := Thresholds(10.0, 30.0, 20.0);
            GetStatusForTemperature(25.0, t.optimalMin, t.warningTemp, t.criticalTemp) == "optimal" &&
            ThresholdService.Classify(25.0, t) == Critical
  {
  }

  /** Math.Max(lo, Math.Min(hi, x)). */
  function Clamp(lo: real, hi: real, x: real): (r: real)
    requires lo <= hi
    ensures lo <= r <= hi
    ensures lo <= x <= hi ==> r == x
    ensures x < lo ==> r == lo
    ensures x > hi ==> r == hi
  {
    if hi < x then hi else if x < lo then lo else x
  }

  /** Math.Round(x, 1): nearest tenth, ties to the even tenth (the default MidpointRounding). */
  function Round1(x: real): (r: real)
    ensures -1.0 / 20.0 <= r - x <= 1.0 / 20.0
  {
    var y := x * 10.0;
    var f := y.Floor;
    var frac := y - f as real;
    var n := if frac < 0.5 then f else if frac > 0.5 then f + 1 else if f % 2 == 0 then f else f + 1;
    n as real / 10.0
  }

  /** GetTemperatureSettingsAsync without a settings service. */
  const DefaultSettings: LocalSettings :=
    LocalSettings(Thresholds(70.0, 80.0, 90.0), Thresholds(75.0, 85.0, 95.0), Thresholds(20.0, 30.0, 40.0))

  lemma DefaultsOrdered()
    ensures Ordered(DefaultSettings.kolv) && Ordered(DefaultSettings.destillat) && Ordered(DefaultSettings.kylare)
    ensures DefaultSettings.kolv == Thresholds(70.0, 80.0, 90.0)
    ensures DefaultSettings.destillat == Thresholds(75.0, 85.0, 95.0)
    ensures DefaultSettings.kylare == Thresholds(20.0, 30.0, 40.0)
  {
  }

  /** GetTemperatureSettingsAsync: the store's values when a settings service was given,
      the fixed defaults otherwise. */
  function GetTemperatureSettings(hasSettingsService: bool, stored: LocalSettings): (r: LocalSettings)
    ensures !hasSettingsService ==> r == DefaultSettings
    ensures hasSettingsService ==> r == stored
  {
    if !hasSettingsService then DefaultSettings else stored
  }

  /** One reading labelled from its unrounded value. */
  function MockReading(id: int, name: string, value: real, t: Thresholds): (r: TemperatureReading)
    ensures r.id == id && r.name == name && r.temperature == Round1(value)
    ensures Ordered(t) ==> r.status == DeviceStatusName(ThresholdService.Classify(value, t))
    ensures r.ledColor == LedForStatus(r.status)
  {
    TemperatureReading(id, name, Round1(value),
      GetStatusForTemperature(value, t.optimalMin, t.warningTemp, t.criticalTemp),
      GetLedColorForTemperature(value, t.optimalMin, t.warningTemp, t.criticalTemp))
  }

  /** The fixed three-sensor list built by GenerateRealisticMockSensorsAsync. */
  function MockSensors(kolv: real, destillat: real, kylare: real, s: LocalSettings): (r: seq<TemperatureReading>)
    ensures |r| == 3
    ensures r[0].id == 0 && r[0].name == Kolv
    ensures r[1].id == 1 && r[1].name == Destillat
    ensures r[2].id == 2 && r[2].name == Kylare
  {
    [MockReading(0, Kolv, kolv, s.kolv), MockReading(1, Destillat, destillat, s.destillat),
     MockReading(2, Kylare, kylare, s.kylare)]
  }

  class MockDataService {
    const hasSettingsService: bool
    var lastKolvTemp: real
    var lastDestillatTemp: real
    var lastKylareTemp: real

    /** The simulated values stay inside the clamping ranges. */
    ghost predicate Valid()
      reads this
    {
      65.0 <= lastKolvTemp <= 95.0 && 70.0 <= lastDestillatTemp <= 100.0 && 15.0 <= lastKylareTemp <= 45.0
    }

    constructor (hasSettingsService: bool)
      ensures Valid()
      ensures this.hasSettingsService == hasSettingsService
      ensures lastKolvTemp == 78.0 && lastDestillatTemp == 82.0 && lastKylareTemp == 25.0
    {
      this.hasSettingsService := hasSettingsService;
      lastKolvTemp, lastDestillatTemp, lastKylareTemp := 78.0, 82.0, 25.0;
    }

    /** GenerateRealisticMockSensorsAsync. The random drifts are the parameters; `stored` is the
        settings store's answer. */
    method GenerateRealisticMockSensors(kolvStep: real, destillatStep: real, kylareStep: real, stored: LocalSettings)
      returns (sensors: seq<TemperatureReading>)
      modifies this
      ensures Valid()
      ensures lastKolvTemp == Clamp(65.0, 95.0, old(lastKolvTemp) + kolvStep)
      ensures lastDestillatTemp == Clamp(70.0, 100.0, old(lastDestillatTemp) + destillatStep)
      ensures lastKylareTemp == Clamp(15.0, 45.0, old(lastKylareTemp) + kylareStep)
      ensures sensors == MockSensors(lastKolvTemp, lastDestillatTemp, lastKylareTemp,
                                     GetTemperatureSettings(hasSettingsService, stored))
    {
      var settings := GetTemperatureSettings(hasSettingsService, stored);
      lastKolvTemp := lastKolvTemp + kolvStep;
      lastDestillatTemp := lastDestillatTemp + destillatStep;
      lastKylareTemp := lastKylareTemp + kylareStep;

      lastKolvTemp := Clamp(65.0, 95.0, lastKolvTemp);
      lastDestillatTemp := Clamp(70.0, 100.0, lastDestillatTemp);
      lastKylareTemp := Clamp(15.0, 45.0, lastKylareTemp);

      sensors := MockSensors(lastKolvTemp, lastDestillatTemp, lastKylareTemp, settings);
    }

    /** GetTemperaturesAsync: `now` is the Unix time of the answer. */
    method GetTemperatures(kolvStep: real, destillatStep: real, kylareStep: real, stored: LocalSettings, now: int)
      returns (response: TemperatureResponse)
      modifies this
      ensures Valid()
      ensures response.timestamp == now && response.sensorCount == |response.sensors| == 3
      ensures response.sensors == MockSensors(lastKolvTemp, lastDestillatTemp, lastKylareTemp,
                                              GetTemperatureSettings(hasSettingsService, stored))
    {
      var sensors := GenerateRealisticMockSensors(kolvStep, destillatStep, kylareStep, stored);
      response := TemperatureResponse(sensors, now, |sensors|);
    }
  }
}
