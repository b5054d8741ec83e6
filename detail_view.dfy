/** TemperatureDetailViewModel: the status text and colour of one sensor's detail page, its
    temperature limits and the guards around saving them to and loading them from the device. */
module DetailView {
  import opened Models
  import ThresholdService
  import MockData
  import GraphView
  import Notifications

  /** StatusNew. */
  function StatusNew(temperature: real, t: Thresholds): (r: string)
    ensures r == "\U{1F535} Kalt" <==> temperature < t.optimalMin
    ensures r == "\U{1F7E2} Optimal" <==> t.optimalMin <= temperature < t.warningTemp
    ensures r == "\U{1F7E1} Varning" <==> t.optimalMin <= temperature && t.warningTemp <= temperature < t.criticalTemp
    ensures r == "\U{1F534} Kritisk" <==>
              t.optimalMin <= temperature && t.warningTemp <= temperature && t.criticalTemp <= temperature
  {
    if temperature < t.optimalMin then "\U{1F535} Kalt"
    else if temperature >= t.optimalMin && temperature < t.warningTemp then "\U{1F7E2} Optimal"
    else if temperature >= t.warningTemp && temperature < t.criticalTemp then "\U{1F7E1} Varning"
    else "\U{1F534} Kritisk"
  }

  /** StatusColorHex. */
  function StatusColorHex(temperature: real, t: Thresholds): (r: string)
    ensures r in {"#2196F3", "#4CAF50", "#FF9800", "#F44336"}
  {
    if temperature < t.optimalMin then "#2196F3"
    else if temperature >= t.optimalMin && temperature < t.warningTemp then "#4CAF50"
    else if temperature >= t.warningTemp && temperature < t.criticalTemp then "#FF9800"
    else "#F44336"
  }

  /** A colour as Color.FromArgb builds it. */
  datatype Color = FromArgb(hex: string)

  /** StatusColor. */
  function StatusColor(temperature: real, t: Thresholds): Color {
    if temperature < t.optimalMin then FromArgb("#2196F3")
    else if temperature >= t.optimalMin && temperature < t.warningTemp then FromArgb("#4CAF50")
    else if temperature >= t.warningTemp && temperature < t.criticalTemp then FromArgb("#FF9800")
    else FromArgb("#F44336")
  }

  /** The colour that goes with each status text. */
  function HexForStatus(status: string): string {
    match status
    case "\U{1F535} Kalt" => "#2196F3"
    case "\U{1F7E2} Optimal" => "#4CAF50"
    case "\U{1F7E1} Varning" => "#FF9800"
    case _ => "#F44336"
  }

  /** The three computed properties always take the same branch. */
  lemma ColoursFollowStatus(temperature: real, t: Thresholds)
    ensures StatusColorHex(temperature, t) == HexForStatus(StatusNew(temperature, t))
    ensures StatusColor(temperature, t) == FromArgb(StatusColorHex(temperature, t))
  {
  }

  /** The page's status text for each tier of the threshold service. */
  function DetailName(s: TemperatureStatus): string {
    match s
    case TooLow => "\U{1F535} Kalt"
    case Optimal => "\U{1F7E2} Optimal"
    case Warning => "\U{1F7E1} Varning"
    case Critical => "\U{1F534} Kritisk"
  }

  /** With ordered limits the page agrees with the threshold service. */
  lemma AgreesWithThresholdService(temperature: real, t: Thresholds)
    requires Ordered(t)
    ensures StatusNew(temperature, t) == DetailName(ThresholdService.Classify(temperature, t))
  {
  }

  /** The page and the mock device check the bands in the same order, so for every triple,
      ordered or not, they pick the same band. */
  lemma AgreesWithMockDevice(temperature: real, t: Thresholds)
    ensures var device := MockData.GetStatusForTemperature(temperature, t.optimalMin, t.warningTemp, t.criticalTemp);
            (device == "cold" <==> StatusNew(temperature, t) == "\U{1F535} Kalt") &&
            (device == "optimal" <==> StatusNew(temperature, t) == "\U{1F7E2} Optimal") &&
            (device == "warning" <==> StatusNew(temperature, t) == "\U{1F7E1} Varning") &&
            (device == "hot" <==> StatusNew(temperature, t) == "\U{1F534} Kritisk")
  {
  }

  /** SetTemperatureLimitsHardcoded. */
  function HardcodedLimits(sensorName: string): Thresholds {
    match sensorName
    case "Kolv" => Thresholds(70.0, 80.0, 90.0)
    case "Destillat" => Thresholds(75.0, 85.0, 95.0)
    case "Kylare" => Thresholds(20.0, 30.0, 40.0)
    case _ => Thresholds(50.0, 80.0, 90.0)
  }

  /** The hard-coded limits are strictly ordered and are the graph's fallback table. */
  lemma HardcodedLimitsFacts(sensorName: string)
    ensures Ordered(HardcodedLimits(sensorName))
    ensures HardcodedLimits(sensorName) == GraphView.Fallback(sensorName)
    ensures !IsKnownSensor(sensorName) ==> HardcodedLimits(sensorName) == Thresholds(50.0, 80.0, 90.0)
  {
  }

  /** SetTemperatureLimitsFromSettings: the device's triple unless in mock mode or it answered
      null; then the stored triple, where an unknown name reads Kolv's; any exception ends in
      the hard-coded limits. `stored` None: the settings store threw. */
  function LimitsFromSettings(sensorName: string, useMockData: bool, esp32: Fetch<Thresholds>,
                              stored: Option<LocalSettings>): (r: Thresholds)
    ensures !useMockData && esp32.Got? ==> r == esp32.value
    ensures !useMockData && esp32.Threw? ==> r == HardcodedLimits(sensorName)
    ensures (useMockData || esp32.Null?) && stored.None? ==> r == HardcodedLimits(sensorName)
    ensures (useMockData || esp32.Null?) && stored.Some? ==>
              r == StoredFor(stored.value, if IsKnownSensor(sensorName) then sensorName else Kolv)
  {
    if !useMockData && esp32.Threw? then HardcodedLimits(sensorName)
    else if !useMockData && esp32.Got? then esp32.value
    else if stored.None? then HardcodedLimits(sensorName)
    else match sensorName
      case "Kolv" => stored.value.kolv
      case "Destillat" => stored.value.destillat
      case "Kylare" => stored.value.kylare
      case _ => stored.value.kolv
  }

  /** Mock mode never consults the device. */
  lemma MockIgnoresDevice(sensorName: string, a: Fetch<Thresholds>, b: Fetch<Thresholds>, stored: Option<LocalSettings>)
    ensures LimitsFromSettings(sensorName, true, a, stored) == LimitsFromSettings(sensorName, true, b, stored)
  {
  }

  /** The page's message for a device status string. */
  datatype StatusMessage =
    | OptimalFor(lowerName: string)
    | WarningAt(temperature: real)
    | LowAt(temperature: real)
    | HighAt(temperature: real)
    | StatusUnknown

  /** GetStatusMessage. */
  function GetStatusMessage(status: string, temperature: real, sensorName: string): (r: StatusMessage)
    ensures r.StatusUnknown? <==> status !in {"optimal", "warning", "cold", "hot"}
    ensures r.OptimalFor? ==> r.lowerName == Notifications.Lower(sensorName)
    ensures r.WarningAt? || r.LowAt? || r.HighAt? ==> r.temperature == temperature
  {
    match status
    case "optimal" => OptimalFor(Notifications.Lower(sensorName))
    case "warning" => WarningAt(temperature)
    case "cold" => LowAt(temperature)
    case "hot" => HighAt(temperature)
    case _ => StatusUnknown
  }

  /** Every status the mock device produces gets a real message; "critical", which the
      device never sends, gets the unknown-status text. */
  lemma DeviceStatusesHaveMessages(temperature: real, t: Thresholds, sensorName: string)
    ensures !GetStatusMessage(MockData.GetStatusForTemperature(temperature, t.optimalMin, t.warningTemp, t.criticalTemp),
                              temperature, sensorName).StatusUnknown?
    ensures GetStatusMessage("critical", temperature, sensorName) == StatusUnknown
  {
  }

  class TemperatureDetailViewModel {
    var sensorName: string
    var useMockData: bool
    var optimalMin: real
    var warningTemp: real
    var criticalTemp: real

    constructor ()
      ensures sensorName == [] && !useMockData
      ensures optimalMin == 0.0 && warningTemp == 0.0 && criticalTemp == 0.0
    {
      sensorName := [];
      useMockData := false;
      optimalMin, warningTemp, criticalTemp := 0.0, 0.0, 0.0;
    }

    function Limits(): Thresholds
      reads this
    {
      Thresholds(optimalMin, warningTemp, criticalTemp)
    }

    /** IsEsp32IntegrationAvailable. */
    predicate IsEsp32IntegrationAvailable()
      reads this
    {
      !useMockData && sensorName != []
    }

    /** SetTemperatureLimitsHardcoded. */
    method SetTemperatureLimitsHardcoded(name: string)
      modifies this`optimalMin, this`warningTemp, this`criticalTemp
      ensures Limits() == HardcodedLimits(name)
    {
      match name
      case "Kolv" =>
        optimalMin, warningTemp, criticalTemp := 70.0, 80.0, 90.0;
      case "Destillat" =>
        optimalMin, warningTemp, criticalTemp := 75.0, 85.0, 95.0;
      case "Kylare" =>
        optimalMin, warningTemp, criticalTemp := 20.0, 30.0, 40.0;
      case _ =>
        optimalMin, warningTemp, criticalTemp := 50.0, 80.0, 90.0;
    }

    /** SetTemperatureLimitsFromSettings. */
    method SetTemperatureLimitsFromSettings(name: string, esp32: Fetch<Thresholds>, stored: Option<LocalSettings>)
      modifies this`optimalMin, this`warningTemp, this`criticalTemp
      ensures Limits() == LimitsFromSettings(name, useMockData, esp32, stored)
    {
      if !useMockData {
        if esp32.Threw? {
          SetTemperatureLimitsHardcoded(name);
          return;
        }
        if esp32.Got? {
          optimalMin, warningTemp, criticalTemp := esp32.value.optimalMin, esp32.value.warningTemp, esp32.value.criticalTemp;
          return;
        }
      }
      if stored.None? {
        SetTemperatureLimitsHardcoded(name);
        return;
      }
      var s := stored.value;
      match name
      case "Kolv" =>
        optimalMin, warningTemp, criticalTemp := s.kolv.optimalMin, s.kolv.warningTemp, s.kolv.criticalTemp;
      case "Destillat" =>
        optimalMin, warningTemp, criticalTemp := s.destillat.optimalMin, s.destillat.warningTemp, s.destillat.criticalTemp;
      case "Kylare" =>
        optimalMin, warningTemp, criticalTemp := s.kylare.optimalMin, s.kylare.warningTemp, s.kylare.criticalTemp;
      case _ =>
        optimalMin, warningTemp, criticalTemp := s.kolv.optimalMin, s.kolv.warningTemp, s.kolv.criticalTemp;
    }

    /** SaveSettingsToEsp32Async: `saved` is what the device call returns (an exception
        counts as false). */
    method SaveSettingsToEsp32(newOptimalMin: real, newWarningTemp: real, newCriticalTemp: real, saved: bool)
      returns (ok: bool)
      modifies this`optimalMin, this`warningTemp, this`criticalTemp
      ensures ok <==> IsEsp32IntegrationAvailable() && saved
      ensures ok ==> Limits() == Thresholds(newOptimalMin, newWarningTemp, newCriticalTemp)
      ensures !ok ==> Limits() == old(Limits())
    {
      if sensorName == [] || useMockData {
        return false;
      }
      if saved {
        optimalMin, warningTemp, criticalTemp := newOptimalMin, newWarningTemp, newCriticalTemp;
        return true;
      }
      return false;
    }

    /** RefreshSettingsFromEsp32Async: `fetched` None is a null answer or an exception. */
    method RefreshSettingsFromEsp32(fetched: Option<Thresholds>) returns (ok: bool)
      modifies this`optimalMin, this`warningTemp, this`criticalTemp
      ensures ok <==> IsEsp32IntegrationAvailable() && fetched.Some?
      ensures ok ==> Limits() == fetched.value
      ensures !ok ==> Limits() == old(Limits())
    {
      if sensorName == [] || useMockData {
        return false;
      }
      if fetched.Some? {
        optimalMin, warningTemp, criticalTemp := fetched.value.optimalMin, fetched.value.warningTemp, fetched.value.criticalTemp;
        return true;
      }
      return false;
    }
  }
}
