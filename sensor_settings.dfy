/** SensorSettingsViewModel: the three limit text fields of one sensor's settings page, their
    validation, the per-sensor defaults and the order in which saving reaches the device and
    the local settings store. */
module SensorSettings {
  import opened Models
  import DetailView

  // ---------------------------------------------------------------------------
  // Parsing the text fields

  predicate IsDigit(c: char) {
    '0' <= c <= '9'
  }

  predicate AllDigits(s: string)
    decreases |s|
  {
    s == [] || (AllDigits(s[..|s| - 1]) && IsDigit(s[|s| - 1]))
  }

  /** The value of a run of decimal digits. */
  function DigitsValue(s: string): nat
    requires AllDigits(s)
    decreases |s|
  {
    if s == [] then 0 else 10 * DigitsValue(s[..|s| - 1]) + (s[|s| - 1] as int - '0' as int)
  }

  function Pow10(n: nat): (r: nat)
    ensures r >= 1
  {
    if n == 0 then 1 else 10 * Pow10(n - 1)
  }

  /** The position of the first '.'. */
  function DotIndex(s: string): (r: Option<nat>)
    ensures r.Some? ==> r.value < |s|
  {
    if s == [] then None
    else if s[0] == '.' then Some(0)
    else
      var r := DotIndex(s[1..]);
      if r.Some? then Some(r.value + 1) else None
  }

  lemma {:induction false} DotIndexFacts(s: string)
    ensures DotIndex(s).None? <==> '.' !in s
    ensures DotIndex(s).Some? ==> s[DotIndex(s).value] == '.' && '.' !in s[..DotIndex(s).value]
  {
    if s != [] && s[0] != '.' {
      DotIndexFacts(s[1..]);
      assert s == [s[0]] + s[1..];
      var r := DotIndex(s[1..]);
      if r.Some? {
        assert s[..r.value + 1] == [s[0]] + s[1..][..r.value];
      }
    }
  }

  /** Digits with an optional point among them: the digits before the point or those after it
      may be missing, but not both. */
  function ParseUnsigned(s: string): (r: Option<real>)
    ensures r.Some? ==> r.value >= 0.0
  {
    match DotIndex(s)
    case None =>
      if s != [] && AllDigits(s) then Some(DigitsValue(s) as real) else None
    case Some(i) =>
      var whole, fraction := s[..i], s[i + 1..];
      if (whole != [] || fraction != []) && AllDigits(whole) && AllDigits(fraction)
      then Some(DigitsValue(whole) as real + DigitsValue(fraction) as real / Pow10(|fraction|) as real)
      else None
  }

  /** double.Parse on plain decimal notation: an optional sign, then digits with an optional
      point; anything else fails. */
  function ParseDecimal(s: string): (r: Option<real>)
    ensures s == [] ==> r.None?
    ensures r.Some? && r.value < 0.0 ==> s[0] == '-'
    ensures |s| > 0 && s[0] == '+' ==> r == ParseUnsigned(s[1..])
  {
    if |s| > 0 && (s[0] == '-' || s[0] == '+') then
      var u := ParseUnsigned(s[1..]);
      if u.None? then None else if s[0] == '-' then Some(-u.value) else u
    else ParseUnsigned(s)
  }

  /** A whole number in decimal digits, as the default values are written. */
  function FormatNat(n: nat): (r: string)
    ensures r != [] && AllDigits(r) && IsDigit(r[0])
    ensures '.' !in r
  {
    if n < 10 then
      var digit := ('0' as int + n) as char;
      assert [digit][..0] == [] && AllDigits([]);
      assert IsDigit(digit) && digit != '.';
      [digit]
    else
      var prefix, last := FormatNat(n / 10), ('0' as int + n % 10) as char;
      assert (prefix + [last])[..|prefix|] == prefix;
      assert IsDigit(last) && last != '.';
      prefix + [last]
  }

  lemma {:induction false} FormatNatValue(n: nat)
    ensures DigitsValue(FormatNat(n)) == n
  {
    if n >= 10 {
      FormatNatValue(n / 10);
      var f := FormatNat(n);
      assert f[..|f| - 1] == FormatNat(n / 10);
    }
  }

  /** Whole numbers written in digits parse back to themselves. */
  lemma ParseWhole(n: nat)
    ensures ParseDecimal(FormatNat(n)) == Some(n as real)
  {
    var f := FormatNat(n);
    FormatNatValue(n);
    DotIndexFacts(f);
    assert ParseDecimal(f) == ParseUnsigned(f) by { assert IsDigit(f[0]); }
  }

  /** Two digits, as every default is written. */
  lemma ParseTwoDigits(a: char, b: char)
    requires IsDigit(a) && IsDigit(b)
    ensures ParseDecimal([a, b]) == Some((10 * (a as int - '0' as int) + (b as int - '0' as int)) as real)
  {
    assert [a, b][..1] == [a];
    assert [a][..0] == [];
    assert AllDigits([a, b]);
    assert DotIndex([a, b]) == None by {
      assert [a, b][1..] == [b];
    }
    assert DigitsValue([a]) == a as int - '0' as int;
    assert DigitsValue([a, b]) == 10 * DigitsValue([a]) + (b as int - '0' as int);
  }

  /** A sign or a point alone, or a letter after the digits, does not parse. */
  lemma ParseRejects()
    ensures ParseDecimal("") == None && ParseDecimal("-") == None && ParseDecimal("+") == None
    ensures ParseDecimal(".") == None && ParseDecimal("-.") == None && ParseDecimal("7a") == None
  {
    assert !AllDigits("7a") by { assert !IsDigit("7a"[1]); }
    assert DotIndex(".") == Some(0);
    assert "-."[1..] == ".";
  }

  /** Either side of the point may be left out, and a plus sign may lead. */
  lemma ParseShortForms()
    ensures ParseDecimal(".5") == Some(0.5) && ParseDecimal("5.") == Some(5.0)
    ensures ParseDecimal("+5") == Some(5.0) && ParseDecimal("-.5") == Some(-0.5)
  {
    assert DotIndex(".5") == Some(0);
    assert ".5"[1..] == "5" && "5"[..0] == [] && AllDigits("5");
    assert DotIndex("5.") == Some(1) by { assert "5."[1..] == "."; }
    assert "5."[..1] == "5" && "5."[2..] == [];
    assert "+5"[1..] == "5" && DotIndex("5") == None;
    assert "-.5"[1..] == ".5";
  }

  /** All three fields parsed, when they all parse. */
  function ParsedTriple(optimal: string, warning: string, critical: string): Option<Thresholds> {
    var o, w, c := ParseDecimal(optimal), ParseDecimal(warning), ParseDecimal(critical);
    if o.Some? && w.Some? && c.Some? then Some(Thresholds(o.value, w.value, c.value)) else None
  }

  /** ValidateTemperatureValues: all three parse (a parse failure is caught and gives
      false) and are strictly increasing. */
  predicate ValidateTemperatureValues(optimal: string, warning: string, critical: string) {
    var p := ParsedTriple(optimal, warning, critical);
    p.Some? && Ordered(p.value)
  }

  // ---------------------------------------------------------------------------
  // Defaults

  function GetDefaultOptimalMin(sensorName: string): string {
    match sensorName
    case "Kolv" => "70"
    case "Destillat" => "75"
    case "Kylare" => "20"
    case _ => "50"
  }

  function GetDefaultWarningTemp(sensorName: string): string {
    match sensorName
    case "Kolv" => "80"
    case "Destillat" => "85"
    case "Kylare" => "30"
    case _ => "80"
  }

  function GetDefaultCriticalTemp(sensorName: string): string {
    match sensorName
    case "Kolv" => "90"
    case "Destillat" => "95"
    case "Kylare" => "40"
    case _ => "90"
  }

  /** Every sensor's default texts pass validation and parse to the detail page's hard-coded
      limits. */
  lemma DefaultsValid(sensorName: string)
    ensures ValidateTemperatureValues(GetDefaultOptimalMin(sensorName), GetDefaultWarningTemp(sensorName),
                                      GetDefaultCriticalTemp(sensorName))
    ensures ParsedTriple(GetDefaultOptimalMin(sensorName), GetDefaultWarningTemp(sensorName),
                         GetDefaultCriticalTemp(sensorName)) == Some(DetailView.HardcodedLimits(sensorName))
  {
    match sensorName
    case "Kolv" =>
      ParseTwoDigits('7', '0'); ParseTwoDigits('8', '0'); ParseTwoDigits('9', '0');
    case "Destillat" =>
      ParseTwoDigits('7', '5'); ParseTwoDigits('8', '5'); ParseTwoDigits('9', '5');
    case "Kylare" =>
      ParseTwoDigits('2', '0'); ParseTwoDigits('3', '0'); ParseTwoDigits('4', '0');
    case _ =>
      ParseTwoDigits('5', '0'); ParseTwoDigits('8', '0'); ParseTwoDigits('9', '0');
  }

  // ---------------------------------------------------------------------------
  // Status texts

  /** The texts the ConnectionStatus field takes while saving. */
  datatype Status = NoStatus | TestData | SensorActive | LocalSettingsOnly | FullySynced | LocalOnly | Esp32Only | SaveFailed

  function StatusText(s: Status): string {
    match s
    case NoStatus => ""
    case TestData => "\U{1F9EA} Testdata - inst\U{E4}llningar"
    case SensorActive => "\U{2705} Sensor aktiv - inst\U{E4}llningar"
    case LocalSettingsOnly => "\U{1F4F1} Lokala inst\U{E4}llningar - ESP32 ej tillg\U{E4}nglig"
    case FullySynced => "\U{2705} ESP32 + Lokalt - Fullst\U{E4}ndigt synkroniserat"
    case LocalOnly => "\U{1F4F1} Endast lokalt - ESP32 ej tillg\U{E4}nglig"
    case Esp32Only => "\U{2705} ESP32 - Lokala settings misslyckades"
    case SaveFailed => "\U{274C} Sparning misslyckades"
  }

  /** Dialog titles. */
  datatype Title = Saved | PartlySaved | Failed | Restored

  function TitleText(t: Title): string {
    match t
    case Saved => "Sparat! \U{2705}"
    case PartlySaved => "Delvis sparat \U{26A0}\U{FE0F}"
    case Failed => "Fel \U{274C}"
    case Restored => "\U{C5}terst\U{E4}llt! \U{1F504}"
  }

  /** Messages of the error dialog, which is titled Failed. */
  datatype ErrorMessage = InvalidValues | ResetFailed

  function ErrorText(m: ErrorMessage): string {
    match m
    case InvalidValues => "Ogiltiga temperaturv\U{E4}rden. Kontrollera att: Optimal < Varning < Kritisk"
    case ResetFailed => "Kunde inte spara standardv\U{E4}rdena. F\U{F6}rs\U{F6}k igen."
  }

  /** UpdateConnectionStatus. */
  function ConnectionStatusFor(useMockData: bool, fromEsp32: bool): (r: Status)
    ensures useMockData ==> r == TestData
    ensures !useMockData && fromEsp32 ==> r == SensorActive
    ensures !useMockData && !fromEsp32 ==> r == LocalSettingsOnly
  {
    if useMockData then TestData
    else if fromEsp32 then SensorActive
    else LocalSettingsOnly
  }

  /** Mock mode decides the status text whatever the device did. */
  lemma MockStatusWins(a: bool, b: bool)
    ensures ConnectionStatusFor(true, a) == ConnectionStatusFor(true, b)
  {
  }

  /** What ShowSaveResultAsync does: the dialog title (None: no dialog) and the new
      ConnectionStatus. */
  datatype SaveReport = SaveReport(title: Option<Title>, connectionStatus: Status)

  function ShowSaveResult(esp32Success: bool, localSuccess: bool): (r: SaveReport)
    ensures r.title.None? <==> !esp32Success && !localSuccess
    ensures r.title == Some(Saved) <==> esp32Success && localSuccess
    ensures r.title == Some(PartlySaved) <==> esp32Success != localSuccess
  {
    if esp32Success && localSuccess then
      SaveReport(Some(Saved), FullySynced)
    else if !esp32Success && localSuccess then
      SaveReport(Some(PartlySaved), LocalOnly)
    else if esp32Success && !localSuccess then
      SaveReport(Some(PartlySaved), Esp32Only)
    else
      SaveReport(None, SaveFailed)
  }

  /** The four outcomes leave four different statuses, so the status alone tells them
      apart, while the two partial outcomes share a title. */
  lemma SaveResultsDistinct(e1: bool, l1: bool, e2: bool, l2: bool)
    requires (e1, l1) != (e2, l2)
    ensures ShowSaveResult(e1, l1).connectionStatus != ShowSaveResult(e2, l2).connectionStatus
    ensures ShowSaveResult(true, false).title == ShowSaveResult(false, true).title
  {
  }

  // ---------------------------------------------------------------------------
  // Saving

  /** What the page does to the world, in order. A LocalWrite is the start of the three store
      writes of a triple; how far they got shows in the store. */
  datatype Action =
    | Esp32Save(sensorName: string, limits: Thresholds)
    | LocalWrite(sensorName: string, limits: Thresholds)
    | Dialog(title: Title)
    | ErrorDialog(message: ErrorMessage)
    | NavigateBack

  /** How the store takes the three writes (optimal, warning, critical, in that order): all of
      them, or it throws once `written` of them are done. */
  datatype StoreWrites = AllWritten | ThrowsAfter(written: WriteCount)

  type WriteCount = k: nat | k < 3

  function WrittenCount(w: StoreWrites): (r: nat)
    ensures r <= 3
    ensures r == 3 <==> w.AllWritten?
  {
    if w.AllWritten? then 3 else w.written
  }

  /** The stored triple after the first `k` of the three writes of `t`. */
  function PartlyWritten(before: Thresholds, t: Thresholds, k: nat): (r: Thresholds)
    requires k <= 3
    ensures k == 0 ==> r == before
    ensures k == 3 ==> r == t
    ensures r.optimalMin == (if k >= 1 then t.optimalMin else before.optimalMin)
    ensures r.warningTemp == (if k >= 2 then t.warningTemp else before.warningTemp)
    ensures r.criticalTemp == (if k == 3 then t.criticalTemp else before.criticalTemp)
  {
    if k == 0 then before
    else if k == 1 then before.(optimalMin := t.optimalMin)
    else if k == 2 then before.(optimalMin := t.optimalMin, warningTemp := t.warningTemp)
    else t
  }

  /** A store that throws after one write can be left holding a triple that is not ordered,
      although both the old and the new triple are. */
  lemma PartialWriteCanBreakOrder()
    ensures var before, t := Thresholds(70.0, 80.0, 90.0), Thresholds(85.0, 90.0, 95.0);
            Ordered(before) && Ordered(t) && !Ordered(PartlyWritten(before, t, 1))
  {
  }

  /** The local store with the sensor's triple replaced; the other two are kept. */
  function StoreWith(s: LocalSettings, sensorName: string, t: Thresholds): (r: LocalSettings)
    requires IsKnownSensor(sensorName)
    ensures StoredFor(r, sensorName) == t
    ensures forall n :: IsKnownSensor(n) && n != sensorName ==> StoredFor(r, n) == StoredFor(s, n)
  {
    if sensorName == Kolv then s.(kolv := t)
    else if sensorName == Destillat then s.(destillat := t)
    else s.(kylare := t)
  }

  /** The local store after SaveToLocalSettingsAsync for a known name. */
  function Written(s: LocalSettings, sensorName: string, t: Thresholds, writes: StoreWrites): (r: LocalSettings)
    requires IsKnownSensor(sensorName)
    ensures writes.AllWritten? ==> StoredFor(r, sensorName) == t
    ensures writes == ThrowsAfter(0) ==> r == s
    ensures StoredFor(r, sensorName) == PartlyWritten(StoredFor(s, sensorName), t, WrittenCount(writes))
    ensures forall n :: IsKnownSensor(n) && n != sensorName ==> StoredFor(r, n) == StoredFor(s, n)
  {
    if writes == ThrowsAfter(0) then s
    else StoreWith(s, sensorName, PartlyWritten(StoredFor(s, sensorName), t, WrittenCount(writes)))
  }

  /** The save part shared by SaveAsync and ResetAsync: the device save unless in mock mode,
      then the local save. */
  datatype SaveOutcome = SaveOutcome(esp32Success: bool, localSuccess: bool, store: LocalSettings, actions: seq<Action>)

  function SaveBoth(sensorName: string, t: Thresholds, useMockData: bool, deviceSaves: bool,
                    writes: StoreWrites, store: LocalSettings): (r: SaveOutcome)
    ensures r.esp32Success <==> !useMockData && deviceSaves
    ensures r.localSuccess <==> IsKnownSensor(sensorName) && writes.AllWritten?
    ensures IsKnownSensor(sensorName) ==> r.store == Written(store, sensorName, t, writes)
    ensures !IsKnownSensor(sensorName) ==> r.store == store
    ensures Esp32Save(sensorName, t) in r.actions <==> !useMockData
    ensures LocalWrite(sensorName, t) in r.actions <==> IsKnownSensor(sensorName)
    ensures forall a :: a in r.actions ==> a == Esp32Save(sensorName, t) || a == LocalWrite(sensorName, t)
  {
    var device := if useMockData then [] else [Esp32Save(sensorName, t)];
    if IsKnownSensor(sensorName) then
      SaveOutcome(!useMockData && deviceSaves, writes.AllWritten?, Written(store, sensorName, t, writes),
                  device + [LocalWrite(sensorName, t)])
    else SaveOutcome(!useMockData && deviceSaves, false, store, device)
  }

  /** The page's state that saving changes. */
  datatype PageState = PageState(store: LocalSettings, connectionStatus: Status, isEsp32Available: bool)

  /** SaveAsync on the page's field texts, given as parsed (None: one of them does not
      parse). `deviceSaves` is the device's answer to the save (an exception counts as
      false) and `writes` how the store takes the local save. */
  function Save(st: PageState, sensorName: string, parsed: Option<Thresholds>,
                useMockData: bool, deviceSaves: bool, writes: StoreWrites): (PageState, seq<Action>)
  {
    if parsed.None? || !Ordered(parsed.value) then (st, [ErrorDialog(InvalidValues)])
    else SaveValid(st, sensorName, parsed.value, useMockData, deviceSaves, writes)
  }

  /** The part of SaveAsync after validation: both saves, the result dialog and the
      navigation back. */
  function SaveValid(st: PageState, sensorName: string, t: Thresholds,
                     useMockData: bool, deviceSaves: bool, writes: StoreWrites): (PageState, seq<Action>)
  {
    var s := SaveBoth(sensorName, t, useMockData, deviceSaves, writes, st.store);
    var report := ShowSaveResult(s.esp32Success, s.localSuccess);
    var dialog := if report.title.Some? then [Dialog(report.title.value)] else [];
    (PageState(s.store, report.connectionStatus, st.isEsp32Available || s.esp32Success),
     s.actions + dialog + (if s.localSuccess then [NavigateBack] else []))
  }

  /** Invalid field texts reach neither the device nor the store, change nothing and only
      show the error dialog. */
  lemma InvalidSavesNothing(st: PageState, sensorName: string, optimal: string, warning: string, critical: string,
                            useMockData: bool, deviceSaves: bool, writes: StoreWrites)
    requires !ValidateTemperatureValues(optimal, warning, critical)
    ensures Save(st, sensorName, ParsedTriple(optimal, warning, critical), useMockData, deviceSaves, writes)
            == (st, [ErrorDialog(InvalidValues)])
  {
  }

  /** With valid texts the device is tried exactly when not in mock mode, the store write is
      started exactly for the three known names, both with the parsed triple, which is
      ordered, and the page navigates back exactly when the local save succeeded, that is
      when all three writes went through. */
  lemma ValidSaveActions(st: PageState, sensorName: string, optimal: string, warning: string, critical: string,
                         useMockData: bool, deviceSaves: bool, writes: StoreWrites)
    requires ValidateTemperatureValues(optimal, warning, critical)
    ensures var t := ParsedTriple(optimal, warning, critical).value;
            var a := Save(st, sensorName, ParsedTriple(optimal, warning, critical), useMockData, deviceSaves, writes).1;
            && Ordered(t)
            && (Esp32Save(sensorName, t) in a <==> !useMockData)
            && (LocalWrite(sensorName, t) in a <==> IsKnownSensor(sensorName))
            && (NavigateBack in a <==> IsKnownSensor(sensorName) && writes.AllWritten?)
  {
  }

  /** ... and the store and the status text follow both outcomes. */
  lemma ValidSaveState(st: PageState, sensorName: string, optimal: string, warning: string, critical: string,
                       useMockData: bool, deviceSaves: bool, writes: StoreWrites)
    requires ValidateTemperatureValues(optimal, warning, critical)
    ensures var t := ParsedTriple(optimal, warning, critical).value;
            var st' := Save(st, sensorName, ParsedTriple(optimal, warning, critical), useMockData, deviceSaves, writes).0;
            && (IsKnownSensor(sensorName) ==> st'.store == Written(st.store, sensorName, t, writes))
            && (!IsKnownSensor(sensorName) ==> st'.store == st.store)
            && st'.connectionStatus == ShowSaveResult(!useMockData && deviceSaves,
                                                      IsKnownSensor(sensorName) && writes.AllWritten?).connectionStatus
            && st'.isEsp32Available == (st.isEsp32Available || (!useMockData && deviceSaves))
  {
  }

  /** A store that throws during a valid save: the page stays, and the status says the device
      alone saved or nothing did. */
  lemma StoreThrowsOnSave(st: PageState, sensorName: string, t: Thresholds, useMockData: bool, deviceSaves: bool,
                          written: WriteCount)
    requires Ordered(t)
    ensures var (st', a) := Save(st, sensorName, Some(t), useMockData, deviceSaves, ThrowsAfter(written));
            && NavigateBack !in a
            && st'.connectionStatus == (if !useMockData && deviceSaves then Esp32Only else SaveFailed)
            && (Dialog(PartlySaved) in a <==> !useMockData && deviceSaves)
  {
  }

  /** ResetAsync after the confirmation: the defaults, which parse to the hard-coded limits
      (DefaultsValid), go through the same saves without validation. */
  function Reset(st: PageState, sensorName: string, useMockData: bool, deviceSaves: bool,
                 writes: StoreWrites): (PageState, seq<Action>)
  {
    var t := DetailView.HardcodedLimits(sensorName);
    var s := SaveBoth(sensorName, t, useMockData, deviceSaves, writes, st.store);
    var available := st.isEsp32Available || s.esp32Success;
    if s.localSuccess then
      (PageState(s.store, ConnectionStatusFor(useMockData, s.esp32Success), available), s.actions + [Dialog(Restored)])
    else
      (PageState(s.store, st.connectionStatus, available), s.actions + [ErrorDialog(ResetFailed)])
  }

  /** Skipping validation is safe: every triple a reset sends anywhere is strictly ordered. */
  lemma ResetSavesOrdered(st: PageState, sensorName: string, useMockData: bool, deviceSaves: bool, writes: StoreWrites)
    ensures var (_, a) := Reset(st, sensorName, useMockData, deviceSaves, writes);
            forall i :: 0 <= i < |a| && (a[i].Esp32Save? || a[i].LocalWrite?) ==>
              a[i].limits == DetailView.HardcodedLimits(sensorName) && Ordered(a[i].limits)
  {
    DefaultsValid(sensorName);
    DetailView.HardcodedLimitsFacts(sensorName);
  }

  /** A reset ends in the restored dialog exactly when the local save went through, and in the
      error dialog, with the status text kept, otherwise. */
  lemma ResetOutcome(st: PageState, sensorName: string, useMockData: bool, deviceSaves: bool, writes: StoreWrites)
    ensures var (st', a) := Reset(st, sensorName, useMockData, deviceSaves, writes);
            && (Dialog(Restored) in a <==> IsKnownSensor(sensorName) && writes.AllWritten?)
            && (ErrorDialog(ResetFailed) in a <==> !(IsKnownSensor(sensorName) && writes.AllWritten?))
            && (!(IsKnownSensor(sensorName) && writes.AllWritten?) ==> st'.connectionStatus == st.connectionStatus)
  {
  }

  class SensorSettingsViewModel {
    var sensorName: string
    var optimalMin: string
    var warningTemp: string
    var criticalTemp: string
    var isLoading: bool
    var useMockData: bool
    var connectionStatus: Status
    var isEsp32Available: bool
    /** What the local settings store holds. */
    var store: LocalSettings
    /** Device calls, store writes, dialogs and navigation, in order. */
    ghost var actions: seq<Action>

    constructor (sensorName: string, store: LocalSettings)
      ensures this.sensorName == sensorName && this.store == store
      ensures optimalMin == "70" && warningTemp == "85" && criticalTemp == "90"
      ensures !isLoading && !useMockData && connectionStatus == NoStatus && !isEsp32Available && actions == []
    {
      this.sensorName := sensorName;
      this.store := store;
      optimalMin, warningTemp, criticalTemp := "70", "85", "90";
      isLoading, useMockData, isEsp32Available := false, false, false;
      connectionStatus := NoStatus;
      actions := [];
    }

    function State(): PageState
      reads this
    {
      PageState(store, connectionStatus, isEsp32Available)
    }

    /** UpdateConnectionStatus. */
    method UpdateConnectionStatus(fromEsp32: bool)
      modifies this`connectionStatus
      ensures connectionStatus == ConnectionStatusFor(useMockData, fromEsp32)
    {
      if useMockData {
        connectionStatus := TestData;
      } else if fromEsp32 {
        connectionStatus := SensorActive;
      } else {
        connectionStatus := LocalSettingsOnly;
      }
    }

    /** SetDefaultValues. */
    method SetDefaultValues()
      modifies this`optimalMin, this`warningTemp, this`criticalTemp
      ensures optimalMin == GetDefaultOptimalMin(sensorName)
      ensures warningTemp == GetDefaultWarningTemp(sensorName)
      ensures criticalTemp == GetDefaultCriticalTemp(sensorName)
    {
      optimalMin := GetDefaultOptimalMin(sensorName);
      warningTemp := GetDefaultWarningTemp(sensorName);
      criticalTemp := GetDefaultCriticalTemp(sensorName);
    }

    /** SaveToEsp32Async: `deviceSaves` is the device's answer. */
    method SaveToEsp32(t: Thresholds, deviceSaves: bool) returns (ok: bool)
      modifies this`isEsp32Available, this`actions
      ensures ok == deviceSaves
      ensures isEsp32Available == (old(isEsp32Available) || deviceSaves)
      ensures actions == old(actions) + [Esp32Save(sensorName, t)]
    {
      actions := actions + [Esp32Save(sensorName, t)];
      if deviceSaves {
        isEsp32Available := true;
        return true;
      }
      return false;
    }

    /** SaveToLocalSettingsAsync: writes the three values of a known sensor one by one;
        `writes` says after how many of them the store throws, which the catch turns into
        false. */
    method SaveToLocalSettings(t: Thresholds, writes: StoreWrites) returns (ok: bool)
      modifies this`store, this`actions
      ensures ok <==> IsKnownSensor(sensorName) && writes.AllWritten?
      ensures IsKnownSensor(sensorName) ==>
                store == Written(old(store), sensorName, t, writes) && actions == old(actions) + [LocalWrite(sensorName, t)]
      ensures !IsKnownSensor(sensorName) ==> store == old(store) && actions == old(actions)
    {
      if !IsKnownSensor(sensorName) {
        return false;
      }
      actions := actions + [LocalWrite(sensorName, t)];
      var before := StoredFor(store, sensorName);
      if writes == ThrowsAfter(0) {
        return false;
      }
      store := StoreWith(store, sensorName, before.(optimalMin := t.optimalMin));
      if writes == ThrowsAfter(1) {
        return false;
      }
      store := StoreWith(store, sensorName, StoredFor(store, sensorName).(warningTemp := t.warningTemp));
      if writes == ThrowsAfter(2) {
        return false;
      }
      store := StoreWith(store, sensorName, StoredFor(store, sensorName).(criticalTemp := t.criticalTemp));
      return true;
    }

    /** ShowSaveResultAsync. */
    method ShowSaveResultAsync(esp32Success: bool, localSuccess: bool)
      modifies this`connectionStatus, this`actions
      ensures var r := ShowSaveResult(esp32Success, localSuccess);
              connectionStatus == r.connectionStatus &&
              actions == old(actions) + if r.title.Some? then [Dialog(r.title.value)] else []
    {
      var title: Title;
      if esp32Success && localSuccess {
        title := Saved;
        connectionStatus := FullySynced;
      } else if !esp32Success && localSuccess {
        title := PartlySaved;
        connectionStatus := LocalOnly;
      } else if esp32Success && !localSuccess {
        title := PartlySaved;
        connectionStatus := Esp32Only;
      } else {
        connectionStatus := SaveFailed;
        return;
      }
      actions := actions + [Dialog(title)];
    }

    /** The device save (skipped in mock mode) followed by the local save, as both SaveAsync
        and ResetAsync do them. */
    method SaveToBoth(t: Thresholds, deviceSaves: bool, writes: StoreWrites) returns (esp32Success: bool, localSuccess: bool)
      modifies this`isEsp32Available, this`store, this`actions
      ensures var s := SaveBoth(sensorName, t, useMockData, deviceSaves, writes, old(store));
              && esp32Success == s.esp32Success && localSuccess == s.localSuccess
              && store == s.store && actions == old(actions) + s.actions
              && isEsp32Available == (old(isEsp32Available) || s.esp32Success)
    {
      esp32Success := false;
      if !useMockData {
        esp32Success := SaveToEsp32(t, deviceSaves);
      }
      localSuccess := SaveToLocalSettings(t, writes);
    }

    /** SaveAsync. */
    method SaveAsync(deviceSaves: bool, writes: StoreWrites)
      modifies this`isLoading, this`store, this`connectionStatus, this`isEsp32Available, this`actions
      ensures var parsed := ParsedTriple(optimalMin, warningTemp, criticalTemp);
              State() == Save(old(State()), sensorName, parsed, useMockData, deviceSaves, writes).0 &&
              actions == old(actions) + Save(old(State()), sensorName, parsed, useMockData, deviceSaves, writes).1
      ensures !isLoading
    {
      isLoading := true;
      if !ValidateTemperatureValues(optimalMin, warningTemp, criticalTemp) {
        actions := actions + [ErrorDialog(InvalidValues)];
      } else {
        var t := ParsedTriple(optimalMin, warningTemp, criticalTemp).value;
        SaveValidValues(t, deviceSaves, writes);
      }
      isLoading := false;
    }

    /** The valid branch of SaveAsync. */
    method SaveValidValues(t: Thresholds, deviceSaves: bool, writes: StoreWrites)
      modifies this`store, this`connectionStatus, this`isEsp32Available, this`actions
      ensures State() == SaveValid(old(State()), sensorName, t, useMockData, deviceSaves, writes).0
      ensures actions == old(actions) + SaveValid(old(State()), sensorName, t, useMockData, deviceSaves, writes).1
    {
      ghost var before := actions;
      ghost var s := SaveBoth(sensorName, t, useMockData, deviceSaves, writes, store);
      var esp32Success, localSuccess := SaveToBoth(t, deviceSaves, writes);
      ShowSaveResultAsync(esp32Success, localSuccess);
      ghost var report := ShowSaveResult(esp32Success, localSuccess);
      ghost var dialog := if report.title.Some? then [Dialog(report.title.value)] else [];
      AppendAssoc(before, s.actions, dialog);
      if localSuccess {
        AppendAssoc(before, s.actions + dialog, [NavigateBack]);
        actions := actions + [NavigateBack];
      }
    }

    /** ResetAsync: `confirmed` is the answer to the confirmation dialog. */
    method ResetAsync(confirmed: bool, deviceSaves: bool, writes: StoreWrites)
      modifies this`isLoading, this`optimalMin, this`warningTemp, this`criticalTemp,
               this`store, this`connectionStatus, this`isEsp32Available, this`actions
      ensures !confirmed ==> State() == old(State()) && actions == old(actions) &&
                             optimalMin == old(optimalMin) && warningTemp == old(warningTemp) &&
                             criticalTemp == old(criticalTemp) && isLoading == old(isLoading)
      ensures confirmed ==> State() == Reset(old(State()), sensorName, useMockData, deviceSaves, writes).0
      ensures confirmed ==> actions == old(actions) + Reset(old(State()), sensorName, useMockData, deviceSaves, writes).1
      ensures confirmed ==>
                optimalMin == GetDefaultOptimalMin(sensorName) && warningTemp == GetDefaultWarningTemp(sensorName) &&
                criticalTemp == GetDefaultCriticalTemp(sensorName) && !isLoading
    {
      if !confirmed {
        return;
      }
      isLoading := true;
      SetDefaultValues();
      assert ParsedTriple(optimalMin, warningTemp, criticalTemp) == Some(DetailView.HardcodedLimits(sensorName)) by {
        DefaultsValid(sensorName);
      }
      var t := ParsedTriple(optimalMin, warningTemp, criticalTemp).value;
      SaveDefaults(t, deviceSaves, writes);
      isLoading := false;
    }

    /** The saves and the result dialog of ResetAsync. */
    method SaveDefaults(t: Thresholds, deviceSaves: bool, writes: StoreWrites)
      requires t == DetailView.HardcodedLimits(sensorName)
      modifies this`store, this`connectionStatus, this`isEsp32Available, this`actions
      ensures State() == Reset(old(State()), sensorName, useMockData, deviceSaves, writes).0
      ensures actions == old(actions) + Reset(old(State()), sensorName, useMockData, deviceSaves, writes).1
    {
      ghost var before := actions;
      ghost var s := SaveBoth(sensorName, t, useMockData, deviceSaves, writes, store);
      var esp32Success, localSuccess := SaveToBoth(t, deviceSaves, writes);
      if localSuccess {
        AppendAssoc(before, s.actions, [Dialog(Restored)]);
        actions := actions + [Dialog(Restored)];
        UpdateConnectionStatus(esp32Success);
      } else {
        AppendAssoc(before, s.actions, [ErrorDialog(ResetFailed)]);
        actions := actions + [ErrorDialog(ResetFailed)];
      }
    }
  }
}
