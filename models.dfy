/** Shared data model: the records that travel between the services and view models,
    the four-tier temperature status and the per-sensor threshold triple. */
module Models {

  datatype Option<+T> = None | Some(value: T)

  /** The outcome of an awaited call that may throw or answer null. */
  datatype Fetch<+T> = Threw | Null | Got(value: T)

  /** The three sensors the device reports, and the names the settings store knows. */
  const Kolv: string := "Kolv"
  const Destillat: string := "Destillat"
  const Kylare: string := "Kylare"

  predicate IsKnownSensor(name: string) {
    name == Kolv || name == Destillat || name == Kylare
  }

  /** Status tiers, declared in increasing order of temperature. */
  datatype TemperatureStatus = TooLow | Optimal | Warning | Critical

  /** Position of a tier in the declared order TooLow < Optimal < Warning < Critical. */
  function Rank(s: TemperatureStatus): (r: nat)
    ensures r < 4
  {
    match s
    case TooLow => 0
    case Optimal => 1
    case Warning => 2
    case Critical => 3
  }

  /** Optimal band starts at optimalMin, warning at warningTemp, critical at criticalTemp. */
  datatype Thresholds = Thresholds(optimalMin: real, warningTemp: real, criticalTemp: real)

  predicate Ordered(t: Thresholds) {
    t.optimalMin < t.warningTemp < t.criticalTemp
  }

  /** A reading as the device (or the mock service) reports it. */
  datatype TemperatureReading = TemperatureReading(
    id: int, name: string, temperature: real, status: string, ledColor: string)

  /** A stored history sample. Timestamps are whole seconds counted from DateTime.MinValue. */
  datatype TemperatureHistory = TemperatureHistory(
    id: int, sensorName: string, sensorId: int, temperature: real, timestamp: nat)

  /** One poll's answer: the readings, a Unix timestamp and the reported count. */
  datatype TemperatureResponse = TemperatureResponse(
    sensors: seq<TemperatureReading>, timestamp: int, sensorCount: int)

  /** What the local settings store returns for the three named sensors at one moment. */
  datatype LocalSettings = LocalSettings(kolv: Thresholds, destillat: Thresholds, kylare: Thresholds)

  /** The stored triple of a known sensor name. */
  function StoredFor(s: LocalSettings, name: string): (t: Thresholds)
    requires IsKnownSensor(name)
  {
    if name == Kolv then s.kolv else if name == Destillat then s.destillat else s.kylare
  }

  /** Taking one more element of a sequence appends that element. */
  lemma TakeSnoc<T>(s: seq<T>, i: nat)
    requires i < |s|
    ensures s[..i + 1] == s[..i] + [s[i]]
  {
  }

  /** Concatenation is associative. */
  lemma AppendAssoc<T>(a: seq<T>, b: seq<T>, c: seq<T>)
    ensures (a + b) + c == a + (b + c)
  {
  }

  /** Building three- and five-element displays one element at a time. */
  lemma SnocThree<T>(a: T, b: T, c: T)
    ensures [] + [a] == [a] && [a] + [b] == [a, b] && [a, b] + [c] == [a, b, c]
  {
  }

  lemma SnocFive<T>(a: T, b: T, c: T, d: T, e: T)
    ensures [] + [a] == [a] && [a] + [b] == [a, b] && [a, b] + [c] == [a, b, c]
    ensures [a, b, c] + [d] == [a, b, c, d] && [a, b, c, d] + [e] == [a, b, c, d, e]
  {
  }

  /** A non-empty sequence is its front followed by its last element. */
  lemma TakeLast<T>(s: seq<T>)
    requires s != []
    ensures s[..|s| - 1] + [s[|s| - 1]] == s
  {
  }

  /** Dropping the head of a concatenation drops it from the first part. */
  lemma DropAppend<T>(a: seq<T>, b: seq<T>)
    requires a != []
    ensures (a + b)[1..] == a[1..] + b && (a + b)[0] == a[0]
  {
  }
}
