# SafeTravel safety monitor — Dafny model

A model of the decision logic in a women's-safety web app. It has five parts:

- **Zone classifier.** `components/google-maps.tsx` labels the user's position danger, warning or safe. It uses the worst label among sample incident points within 10 km.
- **Dashboard.** `app/dashboard/page.tsx` counts seconds spent in a danger zone while tracking is on, and raises the emergency alert on every tick from 300 on. It also has the area statistics, `m:ss` formatting and the badge tables.
- **Heat-map page.** `app/map/page.tsx` uses a two-tier planar test: high-severity records within 0.01 degree, then medium ones within 0.02 degree.
- **Registration form.** `app/register/page.tsx` has the field-by-field validator, the per-field error clear and the submit gate.
- **API-key status card.** `components/api-key-checker.tsx` covers missing and placeholder detection, key masking, the probe outcome and the badge text and colour.

Each source file is one module. Shared values live in `Common`.

State that the code updates in place is a class. `GoogleMaps.MapComponent`, `Dashboard.DashboardPage`, `Register.RegisterPage` and `ApiKeyChecker.ApiKeyCheckerCard` each have methods that change their fields. Each such method is proved against a pure function, and the properties are lemmas about that function:

- The dashboard timer is the value `DwellState`. `Tick`, `HandleZoneChange` and `HandleLocationGranted` each ensure `Dwell() == <step function>(old(Dwell()))`. Lemmas about `Run`, which folds the step functions over a sequence of events, cover whole event sequences.
- The validator builds its error map with the source's nine `if`s. Each `if` is proved to extend `ErrorsUpTo`, the map after the first k checks, and `ErrorsUpToSpec` proves what that map holds.
- `checkApiKey` keeps its early returns. It is proved to end in `CheckResult(key, probe)` with `isChecking` false.

Things the environment supplies are parameters:

- the great-circle distance (`dist`);
- the environment variable (an `Option<string>`);
- the geolocation outcome (a handler call);
- the timer interval (`Tick`);
- the result of the `fetch` probe (`ProbeOutcome`).

The model follows the code as written. Four behaviours of the code are kept and stated as lemmas or, for the map component, a scenario method, rather than corrected:

- **The alert repeats.** The interval fires the alert on every tick whose new count is at least 300. There is no once-only flag, so 301 ticks give two alerts (`Dashboard.ThreeHundredOneTicks`). The on-screen countdown `300 - timeInZone` goes negative after 300 s (`Dashboard.CountdownNegativePastThreshold`).
- **Mid-length keys fail.** Masking a key of 9 to 11 characters asks `"*".repeat` for a negative count. That throws, and the outer `catch` reports "Error checking API key status" with `exists` false. The map component accepts such keys (`ApiKeyChecker.MidLengthKeyDisagrees`).
- **The dashboard never gets a zone.** The map component classifies only from its mount effect, whose dependency list is empty, and from the script callbacks that effect installs. Both use the `userLocation` prop of the first render. The dashboard mounts the map while `currentLocation` is still null, and the location arrives later from a button in the permission card. So `onZoneChange` is never called from the dashboard, `dangerZone` stays "safe" and the dwell timer never starts (`GoogleMaps.LocationAfterMountNeverClassified`). The timer lemmas describe what the dashboard does whenever zone changes do reach it.
- **Banner and submit can disagree.** After a field is edited, its error is set to `""` but the key stays in the map. The registration banner tests only whether the map has keys, so it stays visible (`Register.ClearKeepsBanner`). `handleSubmit` re-validates from scratch, so this does not block a valid submit.

## Model

| member | source | states |
|---|---|---|
| GoogleMaps.NearbyPoints | safety-app/components/google-maps.tsx:215-218 | keeps exactly the points whose distance is strictly below 10 km, at most as many as the input |
| GoogleMaps.NearbyPointsCounts | safety-app/components/google-maps.tsx:215-218 | every occurrence of a nearby point is kept, duplicates included, and no far point |
| GoogleMaps.SomeLabelled | safety-app/components/google-maps.tsx:222-223 | true exactly when some point carries the wanted label |
| GoogleMaps.DetermineUserZone | safety-app/components/google-maps.tsx:211-228 | danger iff some nearby point is danger; warning iff none is danger and one is warning; safe when no point is nearby |
| GoogleMaps.ZoneIsWorstNearbyLabel | safety-app/components/google-maps.tsx:220-227 | the zone ranks at least as high as every nearby label and is one of them or safe (worst-wins as a maximum) |
| GoogleMaps.SameNearbyLabelsSameZone | safety-app/components/google-maps.tsx:222-223 | the result depends only on the set of labels among nearby points, not on order, exact distance or far points |
| GoogleMaps.PermutationKeepsZone | safety-app/components/google-maps.tsx:215-227 | reordering the dataset never changes the zone |
| GoogleMaps.FarPointIgnored | safety-app/components/google-maps.tsx:215-218 | inserting a point at 10 km or more anywhere never changes the zone (the filter is strict) |
| GoogleMaps.NearbyDangerWins | safety-app/components/google-maps.tsx:222-225 | one nearby danger point makes the zone danger whatever else is nearby |
| GoogleMaps.HasApiKey | safety-app/components/google-maps.tsx:40 | a key is usable exactly when it is set, non-empty and neither placeholder |
| GoogleMaps.GetZoneColor | safety-app/components/google-maps.tsx:360-371 | gray exactly for labels other than danger, warning and safe; the three labels get their zone colours |
| GoogleMaps.ZoneColorsDistinct | safety-app/components/google-maps.tsx:360-371 | the three zones are drawn in three distinct colours |
| GoogleMaps.MarkerColor | safety-app/components/google-maps.tsx:351-352 | agrees with the zone colour on the three labels and is green for every other label |
| GoogleMaps.MapComponent.constructor | safety-app/components/google-maps.tsx:26-34 | the first render: the prop is both the current location and the one the mount effect sees; no key, not loaded, no error, no data, zone safe, nothing reported |
| GoogleMaps.MapComponent.LoadCrimeDataAndDetermineZone | safety-app/components/google-maps.tsx:168-175 | stores the sample; with a location at mount the stored zone is the classification and is the value reported to the parent, without one nothing is classified or reported |
| GoogleMaps.MapComponent.CheckApiKeyOnMount | safety-app/components/google-maps.tsx:38-48 | without a usable key: error "Google Maps API key not configured" and the sample loaded and classified at once (the zone untouched when there was no location at mount); with one only the flag is set |
| GoogleMaps.MapComponent.OnScriptEvent | safety-app/components/google-maps.tsx:178-206 | ready sets the loaded flag, a load error or an auth failure record their messages (the latter also the billing flag); each then loads and classifies with the location at mount |
| GoogleMaps.MapComponent.SetUserLocation | safety-app/components/google-maps.tsx:242-291 | a new location prop is stored, and the zone and the reports are unchanged |
| GoogleMaps.LocationAfterMountNeverClassified | safety-app/components/google-maps.tsx:38-48 | mounted without a location, then given one, whatever the key and the script's answer: nothing reported and the zone stays safe |
| Dashboard.RerunEffect | safety-app/app/dashboard/page.tsx:68-88 | nothing changes unless the zone or tracking flag changed; then the counter is kept if the interval now runs and cleared otherwise |
| Dashboard.TickStep | safety-app/app/dashboard/page.tsx:71-79 | while in danger and tracking the counter grows by one and an alert fires iff the new value is at least 300; otherwise nothing changes; the timer invariant is kept |
| Dashboard.ZoneChangeStep | safety-app/app/dashboard/page.tsx:48-53 | stores the zone; any zone but danger clears the counter; staying in danger keeps it |
| Dashboard.GrantedStep | safety-app/app/dashboard/page.tsx:29-37 | switches tracking on without touching zone, counter or alerts |
| Dashboard.Step | safety-app/app/dashboard/page.tsx:29-88 | no event takes an alert back or breaks "not counting implies counter 0" |
| Dashboard.RunKeepsInvariant | safety-app/app/dashboard/page.tsx:48-88 | every event sequence keeps the timer invariant and never lowers the alert count |
| Dashboard.DangerTicks | safety-app/app/dashboard/page.tsx:70-80 | n ticks in danger add n to the counter and one alert per new value at or above 300 |
| Dashboard.DangerTicksFromZero | safety-app/app/dashboard/page.tsx:70-80 | from 0, n danger ticks give counter n and max(0, n - 299) alerts |
| Dashboard.ThreeHundredOneTicks | safety-app/app/dashboard/page.tsx:72-79 | 301 danger ticks give counter 301 and two alerts |
| Dashboard.ResetBeforeThreshold | safety-app/app/dashboard/page.tsx:48-53 | 150 danger ticks, a switch to safe and back, then 200 ticks: counter 200 and no alert |
| Dashboard.UntrackedNeverAlerts | safety-app/app/dashboard/page.tsx:39-46 | with tracking off and no grant arriving, the counter stays 0 and no alert fires whatever the zone does |
| Dashboard.LoadCrimeStatistics | safety-app/app/dashboard/page.tsx:55-66 | high-risk figures exactly inside the strict Delhi box, the medium figures everywhere else |
| Dashboard.DemoLocationIsDanger | safety-app/app/dashboard/page.tsx:39-46 | the fallback location is in the Delhi box (risk "high") and, when dist(a, a) = 0, classifies as danger on the map sample |
| Dashboard.PadStart2 | safety-app/app/dashboard/page.tsx:100 | pads on the left with zeros to length 2 and keeps the string as its suffix |
| Dashboard.FormatTime | safety-app/app/dashboard/page.tsx:97-101 | "m:ss" with two-digit seconds below 60 and minutes without leading zeros, and minutes * 60 + seconds read back equals the input |
| Dashboard.GetZoneColor | safety-app/app/dashboard/page.tsx:103-114 | gray exactly for labels other than safe, warning and danger |
| Dashboard.GetZoneText | safety-app/app/dashboard/page.tsx:116-127 | "Unknown" exactly for labels other than safe, warning and danger |
| Dashboard.ZoneTablesAgree | safety-app/app/dashboard/page.tsx:103-127 | the text and colour tables agree on unknown labels and each tells the three zones apart |
| Dashboard.GetRiskColor | safety-app/app/dashboard/page.tsx:129-140 | gray exactly for risks other than high, medium and low |
| Dashboard.CountdownSeconds | safety-app/app/dashboard/page.tsx:346 | shown exactly in danger past 240 s, and then the shown value plus the counter is 300 |
| Dashboard.CountdownNegativePastThreshold | safety-app/app/dashboard/page.tsx:346 | past 300 s the countdown is still shown and is negative |
| Dashboard.DashboardPage.constructor | safety-app/app/dashboard/page.tsx:15-26 | safe, not tracking, counter 0, no location, zero statistics with risk "low" |
| Dashboard.DashboardPage.TriggerEmergencyAlert | safety-app/app/dashboard/page.tsx:90-95 | the alert count grows by one |
| Dashboard.DashboardPage.RunTimerEffect | safety-app/app/dashboard/page.tsx:68-88 | clears the counter unless in danger and tracking |
| Dashboard.DashboardPage.Tick | safety-app/app/dashboard/page.tsx:71-79 | the timer state moves by `TickStep` and the result says whether an alert fired |
| Dashboard.DashboardPage.HandleZoneChange | safety-app/app/dashboard/page.tsx:48-53 | the timer state moves by `ZoneChangeStep` |
| Dashboard.DashboardPage.HandleLocationGranted | safety-app/app/dashboard/page.tsx:29-37 | stores the location, tracks, clears the error and loads the statistics for it |
| Dashboard.DashboardPage.HandleLocationDenied | safety-app/app/dashboard/page.tsx:39-46 | records the error, falls back to the Delhi demo location with high-risk statistics, timer untouched |
| MapPage.HighCrimeAreas | safety-app/app/map/page.tsx:44 | every occurrence of a record of severity 4 or more, duplicates included, and no other |
| MapPage.MediumCrimeAreas | safety-app/app/map/page.tsx:45 | every occurrence of a record of severity at least 2 and below 4, duplicates included, and no other |
| MapPage.AnyWithin | safety-app/app/map/page.tsx:47-55 | true exactly when some record is strictly within the radius |
| MapPage.GetDangerLevel | safety-app/app/map/page.tsx:40-58 | unknown iff no user location; else danger iff a high record is within 0.01 degree, warning iff not that and a medium record is within 0.02, safe otherwise |
| MapPage.CurrentDangerLevel | safety-app/app/map/page.tsx:60 | unknown iff no location; at the user's position danger iff a high record is within 0.01 degree, warning iff not that and a medium record is within 0.02, safe otherwise |
| MapPage.SameRecordsSameLevel | safety-app/app/map/page.tsx:44-57 | two datasets with the same records of severity 2 and up give the same level |
| MapPage.LowSeverityIgnored | safety-app/app/map/page.tsx:44-45 | a record below severity 2 never changes the level |
| MapPage.FarHighRecordIgnored | safety-app/app/map/page.tsx:47-55 | a high record 0.01 degree away or more never changes the level, even within 0.02 |
| MapPage.EmptyDataIsSafe | safety-app/app/map/page.tsx:40-57 | with a location and no records yet, the level is safe |
| MapPage.FallbackLocationIsDanger | safety-app/app/map/page.tsx:23-37 | the Times Square fallback location is danger on the page's sample |
| Register.WithField | safety-app/app/register/page.tsx:95-96 | the edited field takes the new value and every other field is unchanged |
| Register.TrimSpec | safety-app/app/register/page.tsx:35 | `trim` is empty exactly for all-whitespace strings and otherwise starts and ends on a non-whitespace character |
| Register.TrimShape | safety-app/app/register/page.tsx:35 | `trim` keeps the middle of the string between a whitespace prefix and a whitespace suffix |
| Register.EmailLooksValidSpec | safety-app/app/register/page.tsx:41 | the scan succeeds exactly when `\S+@\S+\.\S+` matches somewhere in the string |
| Register.ValidationRules | safety-app/app/register/page.tsx:35-73 | each field's error stated as its rule: blank text fields, email required or malformed, password missing or shorter than 6, mismatch, unchecked boxes |
| Register.EqualPasswordsNoMismatch | safety-app/app/register/page.tsx:49-57 | equal passwords never mismatch, and two empty ones still fail "Password is required" |
| Register.ErrorsUpToSpec | safety-app/app/register/page.tsx:33-73 | after k checks the map holds exactly the errors of the first k fields checked |
| Register.CheckField | safety-app/app/register/page.tsx:35-73 | one field's `if` extends the map of the checks so far by that field |
| Register.BuildErrors | safety-app/app/register/page.tsx:32-74 | the map has a key exactly for each broken rule, carrying that rule's message |
| Register.ClearFieldError | safety-app/app/register/page.tsx:97-100 | the keys are kept, the edited field's error becomes "", other errors are unchanged |
| Register.ClearKeepsBanner | safety-app/app/register/page.tsx:97-100 | clearing never hides the error banner |
| Register.RegisterPage.constructor | safety-app/app/register/page.tsx:17-29 | empty form, no errors, not loading |
| Register.RegisterPage.ValidateForm | safety-app/app/register/page.tsx:32-77 | replaces the error map and passes exactly when no rule is broken |
| Register.RegisterPage.HandleSubmit | safety-app/app/register/page.tsx:79-93 | a failed validation returns before the loading flag is set; a passed one sets it |
| Register.RegisterPage.HandleInputChange | safety-app/app/register/page.tsx:95-101 | stores the value, clears that field's error and never hides a shown banner |
| ApiKeyChecker.Repeat | safety-app/components/api-key-checker.tsx:53-54 | `count` stars, and a throw exactly for a negative count |
| ApiKeyChecker.Mask | safety-app/components/api-key-checker.tsx:51-54 | up to 8 characters: all stars; 12 or more: first 8, stars, last 4; same length as the key; a throw exactly for 9 to 11 |
| ApiKeyChecker.ShortKeysMaskAlike | safety-app/components/api-key-checker.tsx:54 | short keys of equal length are masked alike |
| ApiKeyChecker.LongKeysMaskByEnds | safety-app/components/api-key-checker.tsx:53 | long keys that agree on length, first 8 and last 4 characters are masked alike |
| ApiKeyChecker.CheckResult | safety-app/components/api-key-checker.tsx:27-103 | missing key: not found; 9 to 11 characters: check error; isDefault iff a placeholder, which is present but invalid; valid iff a real key whose probe URL has no "error"; an error message iff not valid: "may be invalid or restricted" when the URL has "error", "unable to validate" when the request throws |
| ApiKeyChecker.PlaceholderKeysAreDefault | safety-app/components/api-key-checker.tsx:48-66 | both placeholders get through masking and end as the placeholder status |
| ApiKeyChecker.AgreesWithMapComponent | safety-app/components/api-key-checker.tsx:31-66 | apart from 9 to 11 characters, the card and the map component agree on which keys are real |
| ApiKeyChecker.MidLengthKeyDisagrees | safety-app/components/api-key-checker.tsx:51-53 | a 9 to 11 character key is usable for the map component but reported missing by the card |
| ApiKeyChecker.StatusText | safety-app/components/api-key-checker.tsx:122-127 | Not Found, then Default Placeholder, then Valid, then Needs Validation, each exactly in its case |
| ApiKeyChecker.StatusColor | safety-app/components/api-key-checker.tsx:129-134 | destructive exactly when absent, default exactly when a valid real key, secondary otherwise |
| ApiKeyChecker.ColorFollowsText | safety-app/components/api-key-checker.tsx:122-134 | the badge colour is determined by the badge text |
| ApiKeyChecker.ValidBadgeAfterCheck | safety-app/components/api-key-checker.tsx:75-81 | after a check the badge reads Valid exactly for a real key of usable length whose probe URL has no "error" |
| ApiKeyChecker.ApiKeyCheckerCard.constructor | safety-app/components/api-key-checker.tsx:11-25 | initial status: absent, invalid, not default, empty mask, no error; not checking |
| ApiKeyChecker.ApiKeyCheckerCard.CheckApiKey | safety-app/components/api-key-checker.tsx:27-103 | the status becomes `CheckResult` of the key and probe, and every path ends with `isChecking` false |

## Left out

- The haversine formula (`calculateDistance`, google-maps.tsx:230-239) is not modelled. The distance is a parameter, and only `dist(a, a) = 0` is assumed, where a lemma needs it.
- Floating point: coordinates and distances are exact reals. The map page compares squared distances with 0.0001 and 0.0004 instead of taking `Math.sqrt`. Rounding near a boundary is not modelled.
- Google Maps plumbing is not modelled:
  - the script element itself; its three callbacks are the events of `OnScriptEvent`;
  - the map-drawing effect (google-maps.tsx:242-291), `recenterMap` (374-375) and the fallback markup (406, 438), which read later values of `userLocation`; none of them classifies or calls `onZoneChange`;
  - map, marker, heat-map and info-window rendering, with the heat-map weight;
  - `toggleMapType`.
- React scheduling:
  - State updates are applied at once, in program order, with no batching.
  - The interval is an explicit `Tick`.
  - The dependency-keyed effect runs after the handler that changed a dependency.
  - `alert` is an alert counter.
- Geolocation and the `LocationPermission` component are not modelled; their callbacks are the handler methods.
- The map page's mount effect (geolocation and the sample) is not modelled; the sample and the fallback location are constants.
- The `fetch` probe is the parameter `ProbeOutcome`; the request itself is not modelled.
- ApiKeyChecker: `getStatusIcon`, the show-full-key toggle and the card markup are not modelled. The icon follows the same priority as the text.
- Register: the `setTimeout` that clears `isLoading` and navigates to the dashboard is not modelled.
- Register: field names are the nine known fields. `handleInputChange` is never called with any other name.
- String lengths count Unicode characters. JavaScript counts UTF-16 code units, so keys or passwords with characters outside the Basic Multilingual Plane can differ.
- Dashboard.FormatTime: only for non-negative whole seconds, which is all the counter holds.
- Dashboard markup, the billing-guide toggle and the static sample panels are not modelled.
