# DistilleryMonitor core in Dafny

A model of the rules inside the DistilleryMonitor mobile app, which watches the three
temperature sensors of a still (Kolv, the boiler; Destillat, the distillate; Kylare, the
condenser) through an ESP32 device. With timers, UI binding and platform calls stripped away,
the model covers:

- `models.dfy`: the shared records (readings, history samples, threshold triples, the
  settings store snapshot) and small sequence lemmas.
- `threshold_service.dfy`: the four-tier classification and the threshold cache of
  TemperatureThresholdService.
- `mock_data.dfy`: the simulated device in MockDataService, with its clamped random walk, its
  status and LED classifiers, and its defaults.
- `notification_service.dfy`: AppNotificationService. It covers the per-sensor alert
  de-duplication over three key sets and the data-loss watchdog. Every notification is
  appended to a ghost alert log.
- `history_filter.dfy`: FilterToInterval of MainPageViewModel, which thins stored history per
  sensor.
- `sensor_list.dfy`: the by-Id merge of MainPageViewModel.UpdateSensors.
- `graph_view.dfy`: the rolling point buffer, the fallback and interval tables, and the plotted
  range of TemperatureGraphView.
- `detail_view.dfy`: the status text, colour, limits and device save and refresh of
  TemperatureDetailViewModel.
- `sensor_settings.dfy`: validation, defaults and the save and reset logic of
  SensorSettingsViewModel.
- `about_page.dfy`: the seven-tap developer unlock and the log count bounds of
  AboutPageViewModel.

Each stateful class of the app is a Dafny class with the app's fields. Each of its methods is
specified by a pure transition function, and the properties are proved as lemmas about those
functions.

Temperatures are `real` and times are whole seconds (`int`). History sample timestamps are
whole seconds counted from `DateTime.MinValue`, so timestamp 0 stands for `DateTime.MinValue`
itself, the value FilterToInterval's `lastAddedTime` starts at. The following become
parameters:

- the clock;
- the settings store's answer, where `None` means it threw;
- the device's answers;
- the random steps.

## Model

| member | source | states |
|---|---|---|
| ThresholdService.Classify | src/DistilleryMonitor.Mobile/Services/TemperatureThresholdService.cs:52-61 | Critical exactly at or above the critical limit, Warning exactly in [warning, critical), Optimal and TooLow exactly in the remaining bands, for any triple |
| ThresholdService.OrderedBands | src/DistilleryMonitor.Mobile/Services/TemperatureThresholdService.cs:52-61 | with ordered limits the four bands are half-open intervals and each limit itself belongs to the tier above it |
| ThresholdService.ClassifyMonotone | src/DistilleryMonitor.Core/Models/TemperatureStatus.cs:6-12 | for any triple, a hotter reading never gets a lower tier in the declared order TooLow < Optimal < Warning < Critical |
| ThresholdService.LoadThresholdsFromSettings | src/DistilleryMonitor.Mobile/Services/TemperatureThresholdService.cs:86-110 | Kolv, Destillat and Kylare read their own stored triple (none when the store throws); every other name gets 50/80/90 |
| ThresholdService.CachedLookup | src/DistilleryMonitor.Mobile/Services/TemperatureThresholdService.cs:24-43 | a cached name returns its entry and leaves the cache alone; a miss returns the loaded triple and caches it; a failed load caches nothing |
| ThresholdService.CacheIsSticky | src/DistilleryMonitor.Mobile/Services/TemperatureThresholdService.cs:24-43 | after one successful lookup, later lookups of that name return the same triple whatever the store then holds |
| ThresholdService.ApplySettingsChanged | src/DistilleryMonitor.Mobile/Services/TemperatureThresholdService.cs:67-81 | a change event adds or overwrites exactly the entry of its sensor with the event's three values; other entries are kept |
| ThresholdService.StatusFollowsChange | src/DistilleryMonitor.Mobile/Services/TemperatureThresholdService.cs:48-81 | after a change event, the next status of that sensor is computed from the event's values without consulting the store |
| ThresholdService.TemperatureThresholdService.constructor | src/DistilleryMonitor.Mobile/Services/TemperatureThresholdService.cs:12-19 | the cache starts empty |
| ThresholdService.TemperatureThresholdService.GetThresholds | src/DistilleryMonitor.Mobile/Services/TemperatureThresholdService.cs:24-43 | result and new cache are those of the cache lookup |
| ThresholdService.TemperatureThresholdService.GetTemperatureStatus | src/DistilleryMonitor.Mobile/Services/TemperatureThresholdService.cs:48-62 | the tier of the looked-up triple, or none when loading threw; the cache is updated as by GetThresholds |
| ThresholdService.TemperatureThresholdService.OnTemperatureSettingsChanged | src/DistilleryMonitor.Mobile/Services/TemperatureThresholdService.cs:67-81 | the cache becomes the result of applying the event |
| MockData.GetStatusForTemperature | src/DistilleryMonitor.Core/Services/MockDataService.cs:152-161 | cold below optimalMin, optimal in [optimalMin, warning), warning from warning up to critical, hot otherwise; each as an if-and-only-if, checked bottom-up |
| MockData.GetLedColorForTemperature | src/DistilleryMonitor.Core/Services/MockDataService.cs:166-175 | one of blue, green, yellow, red |
| MockData.LedMatchesStatus | src/DistilleryMonitor.Core/Services/MockDataService.cs:152-175 | the LED colour always follows the status string: cold-blue, optimal-green, warning-yellow, hot-red, for any triple |
| MockData.AgreesWithThresholdService | src/DistilleryMonitor.Core/Services/MockDataService.cs:152-161 | with ordered limits the mock status names the threshold service's tier: cold-TooLow, optimal-Optimal, warning-Warning, hot-Critical |
| MockData.DisagreesWhenDisordered | src/DistilleryMonitor.Core/Services/MockDataService.cs:152-161 | with the disordered triple 10/30/20 a reading of 25 is optimal for the mock but Critical for the threshold service |
| MockData.Clamp | src/DistilleryMonitor.Core/Services/MockDataService.cs:60-62 | the result lies in the range, equals the input inside it and the nearer bound outside it |
| MockData.Round1 | src/DistilleryMonitor.Core/Services/MockDataService.cs:71 | the rounded reading is within a twentieth of a degree of the simulated value |
| MockData.DefaultsOrdered | src/DistilleryMonitor.Core/Services/MockDataService.cs:103-117 | the defaults without a settings service are 70/80/90, 75/85/95 and 20/30/40, each strictly ordered |
| MockData.GetTemperatureSettings | src/DistilleryMonitor.Core/Services/MockDataService.cs:101-147 | the fixed defaults without a settings service, the stored values with one |
| MockData.MockReading | src/DistilleryMonitor.Core/Services/MockDataService.cs:64-95 | a reading carries its id and name, the rounded value, the status of the unrounded value (the threshold tier, for ordered limits) and the LED colour of that status |
| MockData.MockSensors | src/DistilleryMonitor.Core/Services/MockDataService.cs:64-95 | exactly three readings, ids 0, 1, 2 named Kolv, Destillat, Kylare |
| MockData.MockDataService.constructor | src/DistilleryMonitor.Core/Services/MockDataService.cs:16-26 | the simulated values start at 78, 82 and 25 |
| MockData.MockDataService.GenerateRealisticMockSensors | src/DistilleryMonitor.Core/Services/MockDataService.cs:49-96 | each simulated value moves by its step and is clamped to Kolv [65, 95], Destillat [70, 100], Kylare [15, 45]; the readings are the three-sensor list of the clamped values |
| MockData.MockDataService.GetTemperatures | src/DistilleryMonitor.Core/Services/MockDataService.cs:31-44 | the answer holds the three readings, the given timestamp, and a count equal to the list length |
| GraphView.Recent | src/DistilleryMonitor.Mobile/Components/TemperatureGraphView.cs:148-149 | the time filter never lengthens the buffer |
| GraphView.RecentMembers | src/DistilleryMonitor.Mobile/Components/TemperatureGraphView.cs:148-149 | the filter keeps exactly the points at or after the cutoff |
| GraphView.Cap | src/DistilleryMonitor.Mobile/Components/TemperatureGraphView.cs:152-155 | at most MAX_POINTS = 100 points remain |
| GraphView.CapKeeps | src/DistilleryMonitor.Mobile/Components/TemperatureGraphView.cs:152-155 | capping only drops points, and the newest point stays last |
| GraphView.CapRecentWindow | src/DistilleryMonitor.Mobile/Components/TemperatureGraphView.cs:148-155 | filtering then capping leaves no point older than the cutoff |
| GraphView.RecentLast | src/DistilleryMonitor.Mobile/Components/TemperatureGraphView.cs:141-149 | a newest point inside the window survives the filter and stays last |
| GraphView.RecentSuffix | src/DistilleryMonitor.Mobile/Components/TemperatureGraphView.cs:149-154 | dropping the oldest points of a filtered buffer is the same as filtering a suffix of it |
| GraphView.Added | src/DistilleryMonitor.Mobile/Components/TemperatureGraphView.cs:139-158 | defines the buffer after one AddTemperature: append, drop points older than the window, keep the newest 100; AddedFacts, AddedKeepsOrder and OldPointsExpire state its properties |
| GraphView.AddedFacts | src/DistilleryMonitor.Mobile/Components/TemperatureGraphView.cs:139-158 | after AddTemperature: at most 100 points, none older than ten minutes, and the new point is the last one |
| GraphView.AddedKeepsOrder | src/DistilleryMonitor.Mobile/Components/TemperatureGraphView.cs:139-158 | the new buffer is the in-window part of a suffix of old buffer plus the new point, so old order is kept |
| GraphView.OldPointsExpire | src/DistilleryMonitor.Mobile/Components/TemperatureGraphView.cs:148-149 | a point older than ten minutes is gone after the next AddTemperature, however small the buffer |
| GraphView.GetFallbackOptimalMin | src/DistilleryMonitor.Mobile/Components/TemperatureGraphView.cs:273-282 | defines the fallback optimal limit per name; FallbackTable states its values |
| GraphView.GetFallbackWarningTemp | src/DistilleryMonitor.Mobile/Components/TemperatureGraphView.cs:284-293 | defines the fallback warning limit per name; FallbackTable states its values |
| GraphView.GetFallbackCriticalTemp | src/DistilleryMonitor.Mobile/Components/TemperatureGraphView.cs:295-304 | defines the fallback critical limit per name; FallbackTable states its values |
| GraphView.FallbackTable | src/DistilleryMonitor.Mobile/Components/TemperatureGraphView.cs:273-304 | fallbacks are Kolv 70/80/90, Destillat 75/85/95, Kylare 20/30/40, any other name 50/80/90, all strictly ordered |
| GraphView.GridInterval | src/DistilleryMonitor.Mobile/Components/TemperatureGraphView.cs:383-389 | grid spacing 0.5, 1, 2, 5 for spans up to 20, 40, 60 and above |
| GraphView.LabelInterval | src/DistilleryMonitor.Mobile/Components/TemperatureGraphView.cs:488-494 | label spacing 2, 5, 10, 20 for the same spans |
| GraphView.LabelsOnGrid | src/DistilleryMonitor.Mobile/Components/TemperatureGraphView.cs:383-389 | for every span the label spacing is four or five grid spacings, so labels sit on grid lines |
| GraphView.IntervalsMonotone | src/DistilleryMonitor.Mobile/Components/TemperatureGraphView.cs:383-389 | a wider span never gets a finer grid or finer labels |
| GraphView.GetYRange | src/DistilleryMonitor.Mobile/Components/TemperatureGraphView.cs:186-187 | the plotted span is [max(0, optimal - 5), min(100, critical + 5)] and stays inside 0..100 |
| GraphView.AllLinesShown | src/DistilleryMonitor.Mobile/Components/TemperatureGraphView.cs:329-372 | ordered limits inside 0..100 get all three reference lines drawn |
| GraphView.HighLimitHidden | src/DistilleryMonitor.Mobile/Components/TemperatureGraphView.cs:329-372 | a critical limit above 100 is never drawn |
| GraphView.LoadedThresholds | src/DistilleryMonitor.Mobile/Components/TemperatureGraphView.cs:77-137 | with a settings service a known name loads its stored triple; otherwise, or when the store throws, the fallback table |
| GraphView.TemperatureGraphView.constructor | src/DistilleryMonitor.Mobile/Components/TemperatureGraphView.cs:37-44 | empty buffer, cache 50/80/90, settings not loaded |
| GraphView.TemperatureGraphView.AddTemperature | src/DistilleryMonitor.Mobile/Components/TemperatureGraphView.cs:139-158 | the buffer becomes the buffer after one addition |
| GraphView.TemperatureGraphView.LoadTemperatureSettings | src/DistilleryMonitor.Mobile/Components/TemperatureGraphView.cs:77-137 | an empty sensor name changes nothing; otherwise the cache holds the loaded triple and is marked loaded |
| DetailView.StatusNew | src/DistilleryMonitor.Mobile/ViewModels/TemperatureDetailViewModel.cs:55-67 | Kalt, Optimal, Varning, Kritisk, each exactly in its band (checked bottom-up) |
| DetailView.StatusColorHex | src/DistilleryMonitor.Mobile/ViewModels/TemperatureDetailViewModel.cs:69-81 | one of blue, green, orange, red in hex |
| DetailView.StatusColor | src/DistilleryMonitor.Mobile/ViewModels/TemperatureDetailViewModel.cs:83-95 | defines the status colour by the same band chain as the status text; ColoursFollowStatus ties each colour to its status |
| DetailView.ColoursFollowStatus | src/DistilleryMonitor.Mobile/ViewModels/TemperatureDetailViewModel.cs:55-95 | the hex colour and the Color always take the branch of the status text |
| DetailView.AgreesWithThresholdService | src/DistilleryMonitor.Mobile/ViewModels/TemperatureDetailViewModel.cs:55-67 | with ordered limits the page's status names the threshold service's tier |
| DetailView.AgreesWithMockDevice | src/DistilleryMonitor.Mobile/ViewModels/TemperatureDetailViewModel.cs:55-67 | for any triple the page and the mock device put a reading in the same band |
| DetailView.HardcodedLimits | src/DistilleryMonitor.Mobile/ViewModels/TemperatureDetailViewModel.cs:240-269 | defines the hard-coded triple per name; HardcodedLimitsFacts states its values and that each is ordered |
| DetailView.HardcodedLimitsFacts | src/DistilleryMonitor.Mobile/ViewModels/TemperatureDetailViewModel.cs:240-269 | hard-coded limits are ordered, equal the graph's fallback table, and are 50/80/90 for other names |
| DetailView.LimitsFromSettings | src/DistilleryMonitor.Mobile/ViewModels/TemperatureDetailViewModel.cs:175-235 | the device's triple unless in mock mode or it answered null; a device exception gives the hard-coded limits; otherwise the stored triple (unknown names read Kolv's), or the hard-coded limits when the store throws |
| DetailView.MockIgnoresDevice | src/DistilleryMonitor.Mobile/ViewModels/TemperatureDetailViewModel.cs:175-235 | in mock mode the device's answer makes no difference |
| DetailView.GetStatusMessage | src/DistilleryMonitor.Mobile/ViewModels/TemperatureDetailViewModel.cs:371-381 | the unknown-status message exactly for statuses other than optimal, warning, cold, hot; the optimal message names the lower-cased sensor |
| DetailView.DeviceStatusesHaveMessages | src/DistilleryMonitor.Mobile/ViewModels/TemperatureDetailViewModel.cs:371-381 | every status the mock device emits has its own message; "critical" gets the unknown-status message |
| DetailView.TemperatureDetailViewModel.constructor | src/DistilleryMonitor.Mobile/ViewModels/TemperatureDetailViewModel.cs:37-49 | empty name, mock mode off, limits zero |
| DetailView.TemperatureDetailViewModel.SetTemperatureLimitsHardcoded | src/DistilleryMonitor.Mobile/ViewModels/TemperatureDetailViewModel.cs:240-269 | the limits become the hard-coded triple of the name |
| DetailView.TemperatureDetailViewModel.SetTemperatureLimitsFromSettings | src/DistilleryMonitor.Mobile/ViewModels/TemperatureDetailViewModel.cs:175-235 | the limits become the settings-derived triple |
| DetailView.TemperatureDetailViewModel.IsEsp32IntegrationAvailable | src/DistilleryMonitor.Mobile/ViewModels/TemperatureDetailViewModel.cs:540 | defines integration as available outside mock mode with a non-empty name; SaveSettingsToEsp32 and RefreshSettingsFromEsp32 succeed only when it holds |
| DetailView.TemperatureDetailViewModel.SaveSettingsToEsp32 | src/DistilleryMonitor.Mobile/ViewModels/TemperatureDetailViewModel.cs:441-490 | success exactly when integration is available and the device saved; then the limits are the arguments, otherwise unchanged |
| DetailView.TemperatureDetailViewModel.RefreshSettingsFromEsp32 | src/DistilleryMonitor.Mobile/ViewModels/TemperatureDetailViewModel.cs:496-535 | success exactly when integration is available and the device answered; then the limits are the fetched ones, otherwise unchanged |
| Notifications.Lower | src/DistilleryMonitor.Mobile/Services/NotificationService.cs:361 | lower-casing keeps the length and maps each character |
| Notifications.GetSensorSettings | src/DistilleryMonitor.Mobile/Services/NotificationService.cs:357-385 | the lower-cased name picks the stored triple; other names and store failures give 70/80/90 |
| Notifications.SettingsIgnoreCase | src/DistilleryMonitor.Mobile/Services/NotificationService.cs:361 | names equal up to ASCII case get the same thresholds |
| Notifications.UpperCaseNameFound | src/DistilleryMonitor.Mobile/Services/NotificationService.cs:361-367 | "KOLV" finds Kolv's stored triple |
| Notifications.WarningKey | src/DistilleryMonitor.Mobile/Services/NotificationService.cs:295-297 | defines a sensor's warning key as its name with a suffix; KeysDistinct states that keys of different names and kinds never collide |
| Notifications.KeysDistinct | src/DistilleryMonitor.Mobile/Services/NotificationService.cs:295-297 | different sensor names have different warning, critical and optimal keys |
| Notifications.Evaluate | src/DistilleryMonitor.Mobile/Services/NotificationService.cs:295-345 | per band: whether an alert is raised (as an if-and-only-if on the sensor's keys), which single key remains, its title, and that only critical alerts vibrate; other sensors' keys are untouched |
| Notifications.Announce | src/DistilleryMonitor.Mobile/Services/NotificationService.cs:299-345 | defines the three-flag hysteresis machine: announce on entering a tier or on returning to a lower one; EvaluateRefinesAnnounce proves the key sets implement it |
| Notifications.EvaluateRefinesAnnounce | src/DistilleryMonitor.Mobile/Services/NotificationService.cs:299-345 | the key sets implement the three-flag hysteresis machine: announce on entering a band or coming back from a higher one |
| Notifications.Step | src/DistilleryMonitor.Mobile/Services/NotificationService.cs:292-345 | defines one pass of the foreach body; StepAnnounces states its effect on the flags and the log |
| Notifications.EvaluateAll | src/DistilleryMonitor.Mobile/Services/NotificationService.cs:288-352 | defines the whole foreach over a batch; BatchKeepsAtMostOne and SameTierRunAlertsAtMostOnce state its properties |
| Notifications.StepAnnounces | src/DistilleryMonitor.Mobile/Services/NotificationService.cs:292-345 | each loop pass moves the sensor's flags as the flag machine does and appends an alert exactly when it announces |
| Notifications.SameTierTwiceAlertsOnce | src/DistilleryMonitor.Mobile/Services/NotificationService.cs:295-345 | two consecutive readings of one sensor in the same band: the second never alerts |
| Notifications.SameTierRunAlertsAtMostOnce | src/DistilleryMonitor.Mobile/Services/NotificationService.cs:292-346 | a batch of readings of one sensor, all in one band, raises at most one alert |
| Notifications.OtherSensorsUntouched | src/DistilleryMonitor.Mobile/Services/NotificationService.cs:292-346 | readings of other sensors leave a sensor's keys alone |
| Notifications.BatchKeepsAtMostOne | src/DistilleryMonitor.Mobile/Services/NotificationService.cs:292-346 | every batch keeps at most one key per sensor |
| Notifications.Excursion | src/DistilleryMonitor.Mobile/Services/NotificationService.cs:292-346 | readings 60, 82, 92, 82, 60 against 70/80/90 raise exactly a warning, a critical alert and the warning again |
| Notifications.KolvExcursionApplies | src/DistilleryMonitor.Mobile/Services/NotificationService.cs:357-385 | Kolv reads those limits from the store, and gets the same from the fallback when the store fails |
| Notifications.Report | src/DistilleryMonitor.Mobile/Services/NotificationService.cs:167-171 | data now, warning re-armed, everything else kept |
| Notifications.Start | src/DistilleryMonitor.Mobile/Services/NotificationService.cs:176-192 | no change at all while monitoring; otherwise the timeout, monitoring, now as last data, warning cleared, timer created |
| Notifications.Stop | src/DistilleryMonitor.Mobile/Services/NotificationService.cs:197-203 | monitoring off and timer gone; the rest kept |
| Notifications.UpdateTimeout | src/DistilleryMonitor.Mobile/Services/NotificationService.cs:208-211 | only the timeout changes |
| Notifications.TimerTick | src/DistilleryMonitor.Mobile/Services/NotificationService.cs:231-243 | an alert exactly when the timer runs, the timeout has elapsed and none was shown; it is the critical timeout alert and sets the warned flag |
| Notifications.OperationsKeepTimerMatch | src/DistilleryMonitor.Mobile/Services/NotificationService.cs:176-211 | every operation keeps the timer existing exactly while monitoring |
| Notifications.TickAll | src/DistilleryMonitor.Mobile/Services/NotificationService.cs:216-226 | defines a run of timer ticks without a data report; OneAlertPerGap, GapIsReported and NoAlertAfterStop state its properties |
| Notifications.OneAlertPerGap | src/DistilleryMonitor.Mobile/Services/NotificationService.cs:231-243 | without a data report, any run of ticks raises at most one alert, none if already warned |
| Notifications.GapIsReported | src/DistilleryMonitor.Mobile/Services/NotificationService.cs:231-243 | if some tick sees the timeout elapsed, the run raises exactly one alert |
| Notifications.NoAlertAfterStop | src/DistilleryMonitor.Mobile/Services/NotificationService.cs:197-203 | after stopping, no tick alerts |
| Notifications.WatchdogScenario | src/DistilleryMonitor.Mobile/Services/NotificationService.cs:167-243 | start with 5 s at 0: ticks 1..6 alert once; data at 7 silences ticks 8..11; tick 12 alerts again |
| Notifications.AppNotificationService.constructor | src/DistilleryMonitor.Mobile/Services/NotificationService.cs:40-48 | empty key sets, timeout 5, not monitoring, no timer, no alerts |
| Notifications.AppNotificationService.ShowNotification | src/DistilleryMonitor.Mobile/Services/NotificationService.cs:250-281 | the notification is appended to the alert log |
| Notifications.AppNotificationService.CheckTemperatureWarnings | src/DistilleryMonitor.Mobile/Services/NotificationService.cs:288-352 | key sets and alert log become those of the whole batch evaluation |
| Notifications.AppNotificationService.CheckSensor | src/DistilleryMonitor.Mobile/Services/NotificationService.cs:294-345 | key sets and alert log follow one evaluation |
| Notifications.AppNotificationService.ReportDataReceived | src/DistilleryMonitor.Mobile/Services/NotificationService.cs:167-171 | the watchdog fields become those of a report |
| Notifications.AppNotificationService.StartSensorMonitoring | src/DistilleryMonitor.Mobile/Services/NotificationService.cs:176-192 | the watchdog fields become those of a start |
| Notifications.AppNotificationService.StopSensorMonitoring | src/DistilleryMonitor.Mobile/Services/NotificationService.cs:197-203 | the watchdog fields become those of a stop |
| Notifications.AppNotificationService.UpdateMonitoringSettings | src/DistilleryMonitor.Mobile/Services/NotificationService.cs:208-211 | only the timeout changes |
| Notifications.AppNotificationService.Tick | src/DistilleryMonitor.Mobile/Services/NotificationService.cs:216-226 | one timer tick: the watchdog and the log follow the tick function |
| Notifications.AppNotificationService.CheckForTimeout | src/DistilleryMonitor.Mobile/Services/NotificationService.cs:231-243 | the tick function with the timer present |
| HistoryFilter.Insert | src/DistilleryMonitor.Mobile/ViewModels/MainPageViewModel.cs:548 | an insertion step keeps the multiset and adds one element |
| HistoryFilter.InsertSorted | src/DistilleryMonitor.Mobile/ViewModels/MainPageViewModel.cs:548 | inserting into a sorted sequence keeps it sorted |
| HistoryFilter.SortByTime | src/DistilleryMonitor.Mobile/ViewModels/MainPageViewModel.cs:514 | the stable sort is a permutation |
| HistoryFilter.SortByTimeSorts | src/DistilleryMonitor.Mobile/ViewModels/MainPageViewModel.cs:514 | the stable sort orders by timestamp |
| HistoryFilter.SortByTimeOfSorted | src/DistilleryMonitor.Mobile/ViewModels/MainPageViewModel.cs:548 | sorting a sorted sequence changes nothing |
| HistoryFilter.Group | src/DistilleryMonitor.Mobile/ViewModels/MainPageViewModel.cs:510 | a sensor's group holds exactly its samples, in input order |
| HistoryFilter.GroupConcat | src/DistilleryMonitor.Mobile/ViewModels/MainPageViewModel.cs:510 | grouping distributes over concatenation |
| HistoryFilter.GroupSortCommute | src/DistilleryMonitor.Mobile/ViewModels/MainPageViewModel.cs:510-514 | per sensor, sorting then grouping equals grouping then sorting, since OrderBy is stable |
| HistoryFilter.GroupKeys | src/DistilleryMonitor.Mobile/ViewModels/MainPageViewModel.cs:510-512 | the group keys have no repeats, cover every sample's sensor and are each some sample's sensor |
| HistoryFilter.GroupKeysInFirstAppearanceOrder | src/DistilleryMonitor.Mobile/ViewModels/MainPageViewModel.cs:510-512 | the keys come in order of first appearance: every sample of a later key has a sample of each earlier key before it |
| HistoryFilter.Thin | src/DistilleryMonitor.Mobile/ViewModels/MainPageViewModel.cs:523-539 | defines the interval rule on one sorted group; ThinFacts, ThinSorted, ThinSpacing and ThinIdempotent state its properties |
| HistoryFilter.ThinFacts | src/DistilleryMonitor.Mobile/ViewModels/MainPageViewModel.cs:523-539 | the interval rule keeps only input points, once each at most, including the first, and lastAddedTime is the last kept timestamp |
| HistoryFilter.ThinSorted | src/DistilleryMonitor.Mobile/ViewModels/MainPageViewModel.cs:523-539 | thinning sorted points keeps them sorted |
| HistoryFilter.ThinSpacing | src/DistilleryMonitor.Mobile/ViewModels/MainPageViewModel.cs:534-538 | successive points kept by the interval rule are at least interval apart, unless the earlier one is stamped 0 (DateTime.MinValue) |
| HistoryFilter.ThinIdempotent | src/DistilleryMonitor.Mobile/ViewModels/MainPageViewModel.cs:523-539 | thinning what was kept keeps all of it |
| HistoryFilter.ForcedLastWasSkipped | src/DistilleryMonitor.Mobile/ViewModels/MainPageViewModel.cs:541-546 | the force-added last point is one the interval rule had left out |
| HistoryFilter.KeepGroup | src/DistilleryMonitor.Mobile/ViewModels/MainPageViewModel.cs:520-546 | defines one sensor's contribution: the thinned group plus its last point when that was skipped; KeepGroupFacts, KeepGroupSorted, KeepGroupSingle and KeepGroupIdempotent state its properties |
| HistoryFilter.Kept | src/DistilleryMonitor.Mobile/ViewModels/MainPageViewModel.cs:513-546 | defines the outer loop: the contributions of the group keys, in key order; Filter sorts it and FilterToInterval is proved equal to it |
| HistoryFilter.KeepGroupFacts | src/DistilleryMonitor.Mobile/ViewModels/MainPageViewModel.cs:523-546 | a sensor contributes only its own points, its first point first and a point at its last timestamp last |
| HistoryFilter.KeepGroupSorted | src/DistilleryMonitor.Mobile/ViewModels/MainPageViewModel.cs:523-546 | a sorted group's contribution is sorted |
| HistoryFilter.KeepGroupSingle | src/DistilleryMonitor.Mobile/ViewModels/MainPageViewModel.cs:541-546 | a sensor with one point contributes it exactly once |
| HistoryFilter.KeepGroupIdempotent | src/DistilleryMonitor.Mobile/ViewModels/MainPageViewModel.cs:523-546 | thinning a contribution again changes nothing |
| HistoryFilter.Filter | src/DistilleryMonitor.Mobile/ViewModels/MainPageViewModel.cs:502-549 | defines FilterToInterval: each sensor's sorted samples thinned, the whole sorted by time; FilterSorted, FilterBounded, FilterPerSensor and FilterKeepsEnds state its properties |
| HistoryFilter.FilterEmpty | src/DistilleryMonitor.Mobile/ViewModels/MainPageViewModel.cs:504-505 | empty input gives empty output |
| HistoryFilter.FilterSorted | src/DistilleryMonitor.Mobile/ViewModels/MainPageViewModel.cs:548 | the output is sorted by timestamp |
| HistoryFilter.FilterBounded | src/DistilleryMonitor.Mobile/ViewModels/MainPageViewModel.cs:507-546 | every output sample is an input sample, none more often than in the input, so the output is no longer |
| HistoryFilter.FilterPerSensor | src/DistilleryMonitor.Mobile/ViewModels/MainPageViewModel.cs:510-548 | per sensor, the output is that sensor's time-sorted samples, thinned |
| HistoryFilter.FilterKeepsEnds | src/DistilleryMonitor.Mobile/ViewModels/MainPageViewModel.cs:526-546 | each sensor keeps its earliest point and a point at its latest timestamp |
| HistoryFilter.FilterIdempotentPerSensor | src/DistilleryMonitor.Mobile/ViewModels/MainPageViewModel.cs:523-548 | filtering the output again leaves every sensor's samples and their order unchanged |
| HistoryFilter.FilterNotIdempotent | src/DistilleryMonitor.Mobile/ViewModels/MainPageViewModel.cs:510-548 | filtering [A@5, B@1, B@5] twice with interval 10 reorders the two samples at time 5 |
| HistoryFilter.FilterToInterval | src/DistilleryMonitor.Mobile/ViewModels/MainPageViewModel.cs:502-549 | the nested loops compute the filter |
| HistoryFilter.AddSensorGroup | src/DistilleryMonitor.Mobile/ViewModels/MainPageViewModel.cs:513-546 | one pass of the outer loop appends that sensor's contribution |
| HistoryFilter.AddSensorPoints | src/DistilleryMonitor.Mobile/ViewModels/MainPageViewModel.cs:520-546 | the inner loop and the force-added last point append the thinned group |
| SensorList.FirstWithId | src/DistilleryMonitor.Mobile/ViewModels/MainPageViewModel.cs:409-412 | the first position with that id, or none exactly when the id is absent |
| SensorList.RemoveNext | src/DistilleryMonitor.Mobile/ViewModels/MainPageViewModel.cs:429-436 | each collected stale entry is still present and removing its first occurrence removes exactly it |
| SensorList.WithoutAll | src/DistilleryMonitor.Mobile/ViewModels/MainPageViewModel.cs:429-436 | removing every collected stale entry leaves exactly the live entries |
| SensorList.Merge | src/DistilleryMonitor.Mobile/ViewModels/MainPageViewModel.cs:407-436 | defines the merge: place each reading by Id, then keep the entries whose Id the poll reports; MergeIds, MergeDistinct, MergeLatest and MergeOrder state its properties |
| SensorList.MergeIds | src/DistilleryMonitor.Mobile/ViewModels/MainPageViewModel.cs:407-436 | after the merge the list holds exactly the ids of the poll |
| SensorList.MergeDistinct | src/DistilleryMonitor.Mobile/ViewModels/MainPageViewModel.cs:407-436 | a list without repeated ids keeps that property, even when the poll repeats an id |
| SensorList.MergeLatest | src/DistilleryMonitor.Mobile/ViewModels/MainPageViewModel.cs:407-436 | each entry is the latest reading of the poll for its id |
| SensorList.RepeatedIdKeepsStaleEntry | src/DistilleryMonitor.Mobile/ViewModels/MainPageViewModel.cs:407-436 | with a repeated id in the list, a merge overwrites only the first entry and keeps a stale one |
| SensorList.MergeOrder | src/DistilleryMonitor.Mobile/ViewModels/MainPageViewModel.cs:407-436 | surviving entries keep their order and new ids follow in order of first appearance |
| SensorList.MainPageViewModel.constructor | src/DistilleryMonitor.Mobile/ViewModels/MainPageViewModel.cs:404-437 | the list starts empty |
| SensorList.MainPageViewModel.UpdateSensors | src/DistilleryMonitor.Mobile/ViewModels/MainPageViewModel.cs:404-474 | the list becomes the merge of the old list with the poll; when a later step throws, the catch leaves exactly the poll's readings |
| SensorSettings.DotIndexFacts | src/DistilleryMonitor.Mobile/ViewModels/SensorSettingsViewModel.cs:216-218 | the decimal point found is the first one |
| SensorSettings.ParseDecimal | src/DistilleryMonitor.Mobile/ViewModels/SensorSettingsViewModel.cs:216-218 | the empty text does not parse; a negative value needs a leading minus; a leading plus changes nothing |
| SensorSettings.FormatNatValue | src/DistilleryMonitor.Mobile/ViewModels/SensorSettingsViewModel.cs:588-625 | a whole number written in digits has that value |
| SensorSettings.ParseWhole | src/DistilleryMonitor.Mobile/ViewModels/SensorSettingsViewModel.cs:216-218 | whole numbers written in digits parse back to themselves |
| SensorSettings.ParseTwoDigits | src/DistilleryMonitor.Mobile/ViewModels/SensorSettingsViewModel.cs:588-625 | two digits parse to their decimal value |
| SensorSettings.ParseRejects | src/DistilleryMonitor.Mobile/ViewModels/SensorSettingsViewModel.cs:630-645 | the empty text, a lone sign, a lone point (signed or not) and trailing letters do not parse |
| SensorSettings.ParseShortForms | src/DistilleryMonitor.Mobile/ViewModels/SensorSettingsViewModel.cs:216-218 | ".5", "5.", "+5" and "-.5" parse to 0.5, 5, 5 and -0.5 |
| SensorSettings.ValidateTemperatureValues | src/DistilleryMonitor.Mobile/ViewModels/SensorSettingsViewModel.cs:630-645 | defines validation: all three texts parse and are strictly increasing; InvalidSavesNothing and ValidSaveActions state what each answer leads to |
| SensorSettings.GetDefaultOptimalMin | src/DistilleryMonitor.Mobile/ViewModels/SensorSettingsViewModel.cs:588-600 | defines the default optimal text per name (Kolv 70, Destillat 75, Kylare 20, otherwise 50); DefaultsValid states that it parses to the hard-coded limit |
| SensorSettings.GetDefaultWarningTemp | src/DistilleryMonitor.Mobile/ViewModels/SensorSettingsViewModel.cs:602-614 | defines the default warning text per name (80, 85, 30, otherwise 80); DefaultsValid states that it parses to the hard-coded limit |
| SensorSettings.GetDefaultCriticalTemp | src/DistilleryMonitor.Mobile/ViewModels/SensorSettingsViewModel.cs:616-625 | defines the default critical text per name (90, 95, 40, otherwise 90); DefaultsValid states that it parses to the hard-coded limit |
| SensorSettings.DefaultsValid | src/DistilleryMonitor.Mobile/ViewModels/SensorSettingsViewModel.cs:588-645 | every name's default texts pass validation and parse to the detail page's hard-coded limits |
| SensorSettings.ConnectionStatusFor | src/DistilleryMonitor.Mobile/ViewModels/SensorSettingsViewModel.cs:182-196 | mock mode shows test data; otherwise sensor active or local settings only |
| SensorSettings.MockStatusWins | src/DistilleryMonitor.Mobile/ViewModels/SensorSettingsViewModel.cs:184-187 | mock mode decides the status whatever the device did |
| SensorSettings.ShowSaveResult | src/DistilleryMonitor.Mobile/ViewModels/SensorSettingsViewModel.cs:332-374 | the all-saved title exactly when both saves succeed, the partly-saved title exactly when one does, no dialog exactly when both fail |
| SensorSettings.SaveResultsDistinct | src/DistilleryMonitor.Mobile/ViewModels/SensorSettingsViewModel.cs:332-374 | the four outcomes leave four different statuses; both partial saves share one title |
| SensorSettings.StoreWith | src/DistilleryMonitor.Mobile/ViewModels/SensorSettingsViewModel.cs:298-317 | a known sensor's stored triple becomes the new one; other sensors are kept |
| SensorSettings.WrittenCount | src/DistilleryMonitor.Mobile/ViewModels/SensorSettingsViewModel.cs:298-317 | a store that throws has done fewer than three writes; only a store that does not throw does all three |
| SensorSettings.PartlyWritten | src/DistilleryMonitor.Mobile/ViewModels/SensorSettingsViewModel.cs:298-317 | after the first k writes the optimal value is new from one write on, the warning value from two, the critical value only after all three |
| SensorSettings.PartialWriteCanBreakOrder | src/DistilleryMonitor.Mobile/ViewModels/SensorSettingsViewModel.cs:300-303 | a store that throws after one write can hold an unordered triple although the old and new triples are ordered |
| SensorSettings.Written | src/DistilleryMonitor.Mobile/ViewModels/SensorSettingsViewModel.cs:292-327 | the local store after the writes: the sensor's triple is the partly written one (all new when no write throws, unchanged when the first throws), the others are kept |
| SensorSettings.SaveBoth | src/DistilleryMonitor.Mobile/ViewModels/SensorSettingsViewModel.cs:224-230 | device success exactly when not in mock mode and the device saved; local success exactly for a known name whose three writes all go through; a known name's store holds what was written before any throw; the device save is tried exactly outside mock mode, the store writes exactly for a known name, both with the given triple |
| SensorSettings.Save | src/DistilleryMonitor.Mobile/ViewModels/SensorSettingsViewModel.cs:204-249 | defines SaveAsync on the page state: the validation error, or the valid branch; InvalidSavesNothing, ValidSaveActions, ValidSaveState and StoreThrowsOnSave state its outcomes |
| SensorSettings.SaveValid | src/DistilleryMonitor.Mobile/ViewModels/SensorSettingsViewModel.cs:216-238 | defines the valid branch: both saves, the result dialog and the navigation back after a local success; its outcomes are stated by ValidSaveActions, ValidSaveState and StoreThrowsOnSave |
| SensorSettings.InvalidSavesNothing | src/DistilleryMonitor.Mobile/ViewModels/SensorSettingsViewModel.cs:210-214 | invalid texts reach neither the device nor the store and only display the error |
| SensorSettings.ValidSaveActions | src/DistilleryMonitor.Mobile/ViewModels/SensorSettingsViewModel.cs:216-238 | valid texts are ordered; the device save is tried exactly when not in mock mode, the store writes exactly for a known name, navigation back exactly when all three writes went through |
| SensorSettings.ValidSaveState | src/DistilleryMonitor.Mobile/ViewModels/SensorSettingsViewModel.cs:224-238 | the store holds what was written, and the status and device availability follow both outcomes |
| SensorSettings.StoreThrowsOnSave | src/DistilleryMonitor.Mobile/ViewModels/SensorSettingsViewModel.cs:230-238 | when the store throws during a valid save the page stays; the status is "ESP32 only" with the partly-saved dialog when the device saved, else "save failed" with no dialog |
| SensorSettings.Reset | src/DistilleryMonitor.Mobile/ViewModels/SensorSettingsViewModel.cs:397-433 | defines ResetAsync after the confirmation: the hard-coded limits through both saves, then the restored or the failed dialog; ResetSavesOrdered and ResetOutcome state its outcomes |
| SensorSettings.ResetSavesOrdered | src/DistilleryMonitor.Mobile/ViewModels/SensorSettingsViewModel.cs:397-414 | every triple a reset sends to the device or the store is the hard-coded one, strictly ordered |
| SensorSettings.ResetOutcome | src/DistilleryMonitor.Mobile/ViewModels/SensorSettingsViewModel.cs:416-433 | a reset shows the restored dialog exactly when the local save went through, otherwise the reset-failed error with the status kept |
| SensorSettings.SensorSettingsViewModel.constructor | src/DistilleryMonitor.Mobile/ViewModels/SensorSettingsViewModel.cs:31-43 | texts 70/85/90, not loading, mock off, no status, device not known available |
| SensorSettings.SensorSettingsViewModel.UpdateConnectionStatus | src/DistilleryMonitor.Mobile/ViewModels/SensorSettingsViewModel.cs:182-196 | the status becomes that of the data source |
| SensorSettings.SensorSettingsViewModel.SetDefaultValues | src/DistilleryMonitor.Mobile/ViewModels/SensorSettingsViewModel.cs:576-584 | the three texts become the name's defaults |
| SensorSettings.SensorSettingsViewModel.SaveToEsp32 | src/DistilleryMonitor.Mobile/ViewModels/SensorSettingsViewModel.cs:254-287 | returns the device's answer; a success marks the device available |
| SensorSettings.SensorSettingsViewModel.SaveToLocalSettings | src/DistilleryMonitor.Mobile/ViewModels/SensorSettingsViewModel.cs:292-327 | succeeds exactly for a known name whose three writes all go through; a known name's store holds the writes done before any throw; otherwise nothing is written |
| SensorSettings.SensorSettingsViewModel.ShowSaveResultAsync | src/DistilleryMonitor.Mobile/ViewModels/SensorSettingsViewModel.cs:332-374 | status and dialog follow the save outcome |
| SensorSettings.SensorSettingsViewModel.SaveToBoth | src/DistilleryMonitor.Mobile/ViewModels/SensorSettingsViewModel.cs:224-230 | the device save unless in mock mode, then the local save |
| SensorSettings.SensorSettingsViewModel.SaveAsync | src/DistilleryMonitor.Mobile/ViewModels/SensorSettingsViewModel.cs:204-249 | page state and actions are those of the save specification; loading is off afterwards |
| SensorSettings.SensorSettingsViewModel.SaveValidValues | src/DistilleryMonitor.Mobile/ViewModels/SensorSettingsViewModel.cs:216-238 | the valid branch of the save specification |
| SensorSettings.SensorSettingsViewModel.ResetAsync | src/DistilleryMonitor.Mobile/ViewModels/SensorSettingsViewModel.cs:382-445 | a declined confirmation changes nothing; a confirmed one sets the defaults and follows the reset specification |
| SensorSettings.SensorSettingsViewModel.SaveDefaults | src/DistilleryMonitor.Mobile/ViewModels/SensorSettingsViewModel.cs:404-433 | the saves and result dialog of a reset |
| AboutPage.ProgressMessageFor | src/DistilleryMonitor.Mobile/ViewModels/AboutPageViewModel.cs:251-252 | "Ett steg kvar..." exactly at six taps; otherwise the number of taps left |
| AboutPage.ProgressMessagesDistinct | src/DistilleryMonitor.Mobile/ViewModels/AboutPageViewModel.cs:251-252 | different counts give different messages |
| AboutPage.Tap | src/DistilleryMonitor.Mobile/ViewModels/AboutPageViewModel.cs:219-247 | defines one version tap on the tap fields; TapCounts, TapProgress, TapsBeforeUnlock and SeventhTapUnlocks state its properties |
| AboutPage.TapCounts | src/DistilleryMonitor.Mobile/ViewModels/AboutPageViewModel.cs:219-247 | a tap counts first; reaching seven with the section hidden resets to zero and turns on developer mode; a shown section is never reset |
| AboutPage.TapProgress | src/DistilleryMonitor.Mobile/ViewModels/AboutPageViewModel.cs:249-254 | taps three to six report the taps left; before the third only the count changes |
| AboutPage.TapsBeforeUnlock | src/DistilleryMonitor.Mobile/ViewModels/AboutPageViewModel.cs:217-266 | from zero with the section hidden, the first six taps only count and report |
| AboutPage.SeventhTapUnlocks | src/DistilleryMonitor.Mobile/ViewModels/AboutPageViewModel.cs:217-266 | the seventh tap unlocks; taps one and two change only the count |
| AboutPage.LogCountAfter | src/DistilleryMonitor.Mobile/ViewModels/AboutPageViewModel.cs:134-147 | values in 1..100 are taken, others ignored |
| AboutPage.LogCountStaysInRange | src/DistilleryMonitor.Mobile/ViewModels/AboutPageViewModel.cs:134-147 | from its initial 20 the count stays in 1..100 whatever is typed, and stays 20 while nothing is accepted |
| AboutPage.ShownLogCount | src/DistilleryMonitor.Mobile/ViewModels/AboutPageViewModel.cs:162 | the shown count is the smaller of asked and available |
| AboutPage.AboutPageViewModel.constructor | src/DistilleryMonitor.Mobile/ViewModels/AboutPageViewModel.cs:34-150 | count 20, nothing shown, no developer mode |
| AboutPage.AboutPageViewModel.SetIsDeveloperMode | src/DistilleryMonitor.Mobile/ViewModels/AboutPageViewModel.cs:60-91 | switching off hides the section; the value is passed to the developer service |
| AboutPage.AboutPageViewModel.SetLogCountToShow | src/DistilleryMonitor.Mobile/ViewModels/AboutPageViewModel.cs:134-147 | the count follows the setter rule and stays in range |
| AboutPage.AboutPageViewModel.OnVersionTapped | src/DistilleryMonitor.Mobile/ViewModels/AboutPageViewModel.cs:217-267 | the tap fields follow the tap rule; an unlock enables developer mode and logs the unlock |

## Left out

- Timers, `Task.Run` fire-and-forget work, `MainThread` dispatch and locks: the monitoring
  timer is an explicit `Tick(now)` call. The clearing of the progress message after a delay on
  the About page is not modelled.
- Notification delivery, vibration, permission checks and the app-settings screen: platform
  calls, modelled only as entries of the alert log.
- The HTTP client and the settings, database and developer services: their answers are
  parameters. ApiService.GetSensorSettingsAsync and SetSensorSettingsAsync are not part of this
  model; their results are parameters too.
- Event wiring of the settings-changed event: the handler is a plain method.
- Drawing: pixel positions, colours of lines and `CalculateYPosition`. Only the tables, the
  plotted range and the decision whether a reference line is drawn are modelled.
- `double` arithmetic, culture-dependent parsing and formatting, NaN and `ToString("F1")`:
  temperatures are exact reals, and texts built from numbers are datatypes (`Body`,
  `StatusMessage`).
- SensorSettings.ParseDecimal: models `double.Parse` on plain decimal notation only (an
  optional sign, then digits with an optional point, where the digits on one side of the
  point may be missing). Exponents, thousands separators, white space, "Infinity", "NaN" and
  culture are left out.
- The random walk and the retry recursion of MockDataService.GetTemperatureSettingsAsync: the
  steps are parameters and the store's answer is given.
- MockData.Round1: states only the rounding error bound. The body rounds half to even, as
  `Math.Round` does by default.
- MockData.GetLedColorForTemperature: its own contract names the four colours only.
  MockData.LedMatchesStatus ties each colour to its status branch.
- DetailView.StatusColorHex: its own contract names the four colours only.
  DetailView.ColoursFollowStatus ties each colour to its status branch.
- Notifications.Lower: `ToLower` is modelled on ASCII letters only.
- Exceptions inside the page flows: a device call that throws is treated as a failed call, and
  a store read that throws is `None`. A store write that throws is modelled by `StoreWrites`. The generic catch blocks of SaveAsync and ResetAsync are
  unreachable from `double.Parse`, because validation (or the defaults) guarantee parsing;
  they also catch exceptions of the dialogs and of the navigation, which are UI calls and
  left out.
- The unreachable branch of UpdateSensors that removes and re-adds an entry when `IndexOf`
  misses: the entry was found by the same predicate.
- HistoryFilter.FilterIdempotentPerSensor: idempotence is proved per sensor, not for the
  whole sequence. Two sensors with samples at the same second can swap places on a second
  pass, as HistoryFilter.FilterNotIdempotent exhibits.
- SensorList.MergeLatest: needs the list to have no repeated Ids beforehand.
  SensorList.MergeDistinct shows that the merge keeps this property, but the catch path of
  UpdateSensors copies a poll with repeated Ids as it is, and then a later merge can keep a
  stale entry, as SensorList.RepeatedIdKeepsStaleEntry exhibits.
- The database save and the notification calls of UpdateSensors: the database save is a
  background task whose errors are swallowed; ReportDataReceived and the warnings check are
  modelled in Notifications.
- LoadSensorSettingsAsync and the two-way sync commands of the settings page, LoadDataAsync,
  ToggleMockData, log clearing and refreshing: these are loading and UI flows around the
  modelled rules.
- The text of LogCountInfo: only the number it shows is modelled.
- The texts of ConnectionStatus and of the dialogs: modelled as enumerations with a text
  function each.
