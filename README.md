# EdgeOne monitoring dashboard — a Dafny model

A model of the decision logic of an EdgeOne (Tencent Cloud TEO) monitoring
dashboard and of its small Node backend, with proofs about that logic.

On the front end, `assets/dashboard/*` covers:
- how a raw API answer becomes a top list or a time series (`processData`);
- how the time window and its previous period are computed;
- the comparison arrows and the units charts choose;
- the origin-pull section with its cache-hit rate;
- the top-10 charts with their names, labels and colours;
- the dashboard's own state (cached re-renders, the generation token that drops stale top-analysis loads, the single pending rebuild, the zone selector);
- the batches one refresh requests;
- locale detection and message lookup.

On the back end, `node-functions/api/*` covers:
- the `/traffic` route (metric parsing, family classification, the cache);
- the three `/pages` routes (zone resolution, region fallback, the cache);
- the `/zones` route with its single-slot cache;
- reading the credentials from the environment or `key.txt`.

How the model is built:
- **One module per source file.**
  - Pure code becomes functions on datatypes.
  - Code that changes state becomes classes whose methods are proved against specification functions (`ensures` tying the new state to a function of the old one). The dashboard state, the locale state, the three caches and the route handlers are built this way.
  - Loops stay loops with invariants: the label loop of `processData`, the two passes over origin-pull metrics, `deepGet`, the credentials scan, the region-fallback retry, and the zone-option loop.
- **Shared modules** model JavaScript itself:
  - values and truthiness (`JsValue`);
  - string operations (`JsText`);
  - calendar arithmetic (`Civil`);
  - ISO date texts (`IsoDate`).
- **Time and the outside world become parameters.** Local time is the epoch plus a fixed offset. Everything the source asks of the world is a parameter of the model: the clock (`nowMs`, and a second instant `doneMs` where the code reads the clock after an await), HTTP and SDK outcomes, DOM control values, environment variables and the contents of `key.txt`.

Where a description of the system and the code disagree, the model follows the code:
- **Credentials.** `key.txt` keeps the text between the first and the second full-width colon (`split('：')[1]`), not everything after the first colon.
- **`/traffic` checks credentials first.** It answers 500 for missing credentials before it looks at the cache or at mixed families.
- **`/pages` checks the cache first.** It consults its cache before the credentials.
- **`/zones` writes its cache even under `noCache=1`.**

## Model

| member | source | states |
|---|---|---|
| Api.DataList | assets/dashboard/api.js:40 | the data list is `Data` when present (even empty), else `TimingDataRecords`, else empty |
| Api.FirstNamed | assets/dashboard/api.js:48-50 | the index found is the first entry carrying the metric name; none when no entry carries it |
| Api.SelectEntry | assets/dashboard/api.js:46-61 | no entry only when both lists are empty; a match in `TypeValue` (or in `Value` when `TypeValue` is absent) wins; otherwise the first entry of `TypeValue`, else of `Value` |
| Api.TypeValueShadowsValue | assets/dashboard/api.js:47-60 | once `TypeValue` is present a match in `Value` is never used |
| Api.IsDayInterval | assets/dashboard/api.js:77-87 | day data iff the interval is `day`, or `auto` with a first gap of at least 82800 s or a 14d/31d range with at most 32 samples |
| Api.ChooseStyle | assets/dashboard/api.js:99-108 | the date layout iff day data; date and time iff not day data and the span exceeds a day or the range is long; time otherwise |
| Api.TimeOfDayShape | assets/dashboard/api.js:107 | `HH:mm` has five characters, a colon at 2, and hour and minute read back from the digits |
| Api.MonthDayTimeShape | assets/dashboard/api.js:104 | `MM-DD HH:mm` has eleven characters with every field read back from its digits |
| Api.DayLabelShape | assets/dashboard/api.js:101 | `YYYY-MM-DD` ends in two-digit month and day after the year's digits |
| Api.ContextOf | assets/dashboard/api.js:72-73 | the range and the interval are never empty (defaults `30min` and `auto`) |
| Api.Labels | assets/dashboard/api.js:95-110 | one label per sample, in order, each the sample's local-time label |
| Api.Values | assets/dashboard/api.js:111 | one value per sample, in order |
| Api.Process | assets/dashboard/api.js:28-115 | a top list whenever `Data[0].DetailData` exists; the zero record for an empty list; otherwise the selected entry's labels, values, sum, max and average (0 when absent) |
| Api.EmptyDataIsZero | assets/dashboard/api.js:40-41 | a present but empty `Data` gives the zero record even when `TimingDataRecords` has samples |
| Api.ProcessData | assets/dashboard/api.js:28-115 | the loop that pushes labels and values returns exactly `Process` |
| Api.FetchData | assets/dashboard/api.js:4-26 | `null` iff the request threw or the payload carries a truthy `error`; otherwise the payload |
| Civil.CivilFromDays | assets/dashboard/utils.js:4 | the calendar date of a day number is valid and maps back to that day number |
| Civil.Breakdown | assets/dashboard/utils.js:4 | the UTC fields of a time value are valid, compose back to it, and keep its milliseconds |
| Civil.LocalBreakdown | assets/dashboard/api.js:96-107 | the local fields read by `getFullYear`…`getMinutes` are valid calendar fields that compose back to the instant shifted by the offset, with the millisecond field the shifted instant modulo 1000 |
| Civil.LocalMsOfDay | assets/dashboard/utils.js:32 | the local time of day lies in one day |
| Civil.LocalMidnight | assets/dashboard/utils.js:32 | `setHours(0,0,0,0)` stays on the same local day, lands at 00:00:00.000 and is not after the original instant |
| DashboardUtils.DigitRunLength | assets/dashboard/utils.js:48-51 | the digit run `parseInt` reads is the longest prefix of radix digits |
| DashboardUtils.ParseInt | assets/dashboard/utils.js:48-51 | `parseInt` yields NaN iff no digit follows the white space, sign and `0x` prefix |
| DashboardUtils.RadixValueDecimal | assets/dashboard/utils.js:48-51 | decimal digit text has its decimal value under the radix reading |
| DashboardUtils.ParseIntDecimal | assets/dashboard/utils.js:48-51 | a non-empty run of decimal digits parses to its value |
| DashboardUtils.ParseIntOfNatText | assets/dashboard/utils.js:48-51 | the text of a natural number parses back to it, also through `\|\| 0` |
| DashboardUtils.ParseIntNoDigits | assets/dashboard/utils.js:48-51 | text without digits reads as 0 through `\|\| 0` |
| DashboardUtils.SetHours | assets/dashboard/utils.js:32-41 | `setHours` keeps the local day and sets exactly the given local time of day |
| DashboardUtils.CalculateWindow | assets/dashboard/utils.js:20-78 | every window starts no later than it ends, ends no later than now, spans at most 31 days; the error line is touched iff the key is `custom`; every key but `yesterday` ends now |
| DashboardUtils.WindowText | assets/dashboard/utils.js:74-77 | both ends are written as 20-character ISO texts (what they read back to is `WindowTextReadsBack`) |
| DashboardUtils.WindowTextReadsBack | assets/dashboard/utils.js:74-77 | each text reads back to its end truncated to the whole second, for ends in the years 0..9999 |
| DashboardUtils.CalculateTimeRange | assets/dashboard/utils.js:20-78 | the window for the key written as two 20-character ISO texts |
| DashboardUtils.TimeRangeEndsNow | assets/dashboard/utils.js:20-78 | every key but `yesterday` ends at the current second, read back from the end text |
| DashboardUtils.NamedWindows | assets/dashboard/utils.js:27-71 | the fixed keys end now and reach back their span; an unknown key reaches back 24 hours |
| DashboardUtils.TodayWindow | assets/dashboard/utils.js:30-33 | `today` runs from local midnight of the current day to now |
| DashboardUtils.YesterdayWindow | assets/dashboard/utils.js:34-42 | `yesterday` is the previous local day from 00:00:00.000 to 23:59:59.999 |
| DashboardUtils.YesterdayIgnoresTimeOfDay | assets/dashboard/utils.js:34-42 | the `yesterday` window depends only on the local day of now |
| DashboardUtils.SameLocalInstant | assets/dashboard/utils.js:34-42 | equal local day and local time of day mean the same instant |
| DashboardUtils.CustomWindow | assets/dashboard/utils.js:47-70 | a custom window ends now and lasts the typed duration capped at 31 days (error line set iff capped), or one hour when the duration is not positive |
| DashboardUtils.CustomFromDigits | assets/dashboard/utils.js:48-53 | whole-number fields give the duration they spell out |
| DashboardUtils.GetBestCountUnit | assets/dashboard/utils.js:114-126 | the divisor is one of the locale's tiers, the largest not above the value (1 below the first); NaN and +Infinity take the top tier |
| DashboardUtils.Pow1024 | assets/dashboard/utils.js:140 | every power of 1024 is at least 1 |
| DashboardUtils.Pow1024Monotone | assets/dashboard/utils.js:140 | powers of 1024 grow with the exponent |
| DashboardUtils.ScaleIndex | assets/dashboard/utils.js:136-138 | the clamped logarithm is the largest index up to the top whose power of 1024 is not above the value |
| DashboardUtils.ScaleIndexUnique | assets/dashboard/utils.js:136-138 | an index with both bounds is the one `ScaleIndex` picks |
| DashboardUtils.GetBestUnit | assets/dashboard/utils.js:128-141 | a unit is picked iff the value is non-negative; 0 picks the first unit with divisor 1; otherwise the largest power of 1024 not above the value, at most PB |
| DashboardUtils.FormatSize | assets/dashboard/utils.js:80-98 | zero gives `0` and the first unit; below 1 the raw value; from 1 on the scaled value in the unit of its power, capped at the ninth; negative or NaN gives `NaN undefined` |
| DashboardUtils.FormatBytes | assets/dashboard/utils.js:80-88 | `formatBytes(0)` is `0 B` |
| DashboardUtils.FormatBps | assets/dashboard/utils.js:90-98 | `formatBps(0)` is `0 bps` |
| DashboardUtils.FormatCount | assets/dashboard/utils.js:100-112 | `0` iff the value is zero; the plain text iff non-zero and below 1000; the value itself is carried otherwise |
| Compare.PreviousWindow | assets/dashboard/compare.js:121-137 | today/yesterday shift one day back; other keys get the window of equal length ending at the current start, and one exists iff the length is positive |
| Compare.PreviousWindowOfTexts | assets/dashboard/compare.js:117-119 | no previous window when either text does not parse as a date |
| Compare.CalculatePreviousTimeRange | assets/dashboard/compare.js:116-138 | a range is returned iff a previous window exists, both ends as 20-character ISO texts (what they read back to is `PreviousRangeReadsBack`) |
| Compare.PreviousRangeReadsBack | assets/dashboard/compare.js:116-138 | both texts of the previous range read back exactly to the previous window's ends, for years 0..9999 |
| Compare.PreviousWindowWholeSeconds | assets/dashboard/compare.js:117-137 | the previous window of two parsed texts has whole-second ends |
| Compare.PreviousWindowWholeMs | assets/dashboard/compare.js:121-137 | shifting whole-second ends by a day or by the window length keeps them whole seconds |
| Compare.DayShiftNeverNull | assets/dashboard/compare.js:122-129 | today/yesterday always have a previous range once both texts parse, exactly one day earlier |
| Compare.PreviousRangeWindow | assets/dashboard/compare.js:131-137 | for other keys a non-empty window has a previous range of the same length ending at its start |
| Compare.PreviousRangeNeedsPositiveLength | assets/dashboard/compare.js:131-132 | for other keys an empty or reversed window has none |
| Compare.IsSecurityCompareAllowed | assets/dashboard/compare.js:140-145 | allowed iff the start parses and lies no more than 14 days and one minute before now |
| Compare.SecurityCompareExpires | assets/dashboard/compare.js:140-145 | a start too old at one instant stays too old later |
| Compare.PercentAbs | assets/dashboard/compare.js:54 | the magnitude is non-negative and is the percentage or its negation |
| Compare.CompareDecision | assets/dashboard/compare.js:63-103 | hidden iff disabled or either number is not finite; against a zero previous value `→ 0%` or `↑ ∞%`; otherwise the magnitude of the relative change |
| Compare.RelativeChange | assets/dashboard/compare.js:98 | the relative change against a non-zero previous value: times the previous value it gives the difference |
| Compare.CompareDirection | assets/dashboard/compare.js:98-100 | against a positive previous value the arrow follows the change; against a negative one it is reversed |
| Compare.LineStyle | assets/dashboard/compare.js:39-50 | green iff shown and up, red iff shown and down, muted otherwise |
| Compare.LineText | assets/dashboard/compare.js:67-101 | the text is empty iff the line is hidden |
| Constants.Lookup | assets/dashboard/constants.js:202-203 | a property read finds a value iff some entry has the key, and the value is that of an entry with the key |
| Constants.GetMetricLabel | assets/dashboard/constants.js:201-204 | the label is the metric name or a non-empty label the locale's table gives that metric; the name when every such label is empty or there is none; the table's label (the last one for the key) whenever it is non-empty |
| Constants.ConfiguredMetricLabel | assets/dashboard/constants.js:201-204 | every metric of every `metricsConfig` family gets its English label under `en-US` and its Chinese label under any other locale, and never the bare metric name |
| Constants.LabelsZhHansProper | assets/dashboard/constants.js:109-153 | every Chinese label is non-empty and differs from its key |
| Constants.LabelsEnUSProper | assets/dashboard/constants.js:155-199 | every English label is non-empty and differs from its key |
| Constants.ListedInObject | assets/dashboard/constants.js:109-250 | metrics listed as keys of an object literal are found in it |
| Constants.ConfigComplete | assets/dashboard/constants.js:98-250 | every metric of every family of `metricsConfig` has a Chinese label, an English label and a colour |
| Constants.ConfigDisjoint | assets/dashboard/constants.js:98-107 | the eight families of `metricsConfig` are pairwise disjoint |
| Constants.WorldNames | assets/dashboard/constants.js:91-96 | the keys of `worldNameMap` are exactly the map names of the codes that have a Chinese country name |
| Constants.WorldNamesExact | assets/dashboard/constants.js:91-96 | with distinct map names, each such map name maps to its own code's Chinese name |
| Constants.BuildWorldNameMap | assets/dashboard/constants.js:91-96 | the `forEach` builds exactly `WorldNames` |
| Credentials.FieldValue | node-functions/api/lib/credentials.js:27-30 | a field is read iff the line has a full-width colon; the field is trimmed and holds no colon |
| Credentials.ReadLine | node-functions/api/lib/credentials.js:25-32 | a line throws iff it is wanted for a still-unset key and has no colon; otherwise each wanted key takes the line's field and the others are kept |
| Credentials.GetKeys | node-functions/api/lib/credentials.js:7-39 | both environment keys set, or no file: the environment keys; otherwise the line-by-line scan of the file from the environment keys, stopping at the first throw |
| Credentials.ScanStops | node-functions/api/lib/credentials.js:17-36 | once a line has thrown no further line is read |
| Credentials.SetKeysKept | node-functions/api/lib/credentials.js:26-29 | a key that is already set is never replaced, by the file or a later line |
| Credentials.KeysComeFromNamingLines | node-functions/api/lib/credentials.js:25-32 | every key the file supplies is the field of a line that names it |
| Credentials.IdFromNamingLine | node-functions/api/lib/credentials.js:26-28 | the id the file supplies is the field of a line naming `SecretId` |
| Credentials.KeyFromNamingLine | node-functions/api/lib/credentials.js:29-31 | the key the file supplies is the field of a line naming `SecretKey` |
| Dashboard.ValueOr | assets/dashboard/main.js:49-51 | a present non-empty value is kept, otherwise the fallback |
| Dashboard.GetControlState | assets/dashboard/main.js:48-53 | the range defaults to `30min`, the interval to `auto`, the zone is trimmed and defaults to empty |
| Dashboard.IsSameControlState | assets/dashboard/main.js:55-58 | true iff both sides exist and agree on range, interval and zone |
| Dashboard.Rerendered | assets/dashboard/main.js:398-431 | the core sections are drawn iff the core cache was taken under the current controls; pages iff asked; the top section iff asked, activated and cached under the current controls |
| Dashboard.ZoneEntries | assets/dashboard/main.js:188-199 | one option per zone in list order, valued by its id, with the pages suffix on `default-pages-zone` |
| Dashboard.ZoneOptions | assets/dashboard/main.js:170-199 | a missing list gives the single failure option; otherwise "all zones" followed by the zone options; the first option is always `*` |
| Dashboard.KeptSelection | assets/dashboard/main.js:201-205 | the previous value is kept iff it is non-empty and offered, else `*` |
| Dashboard.SelectionIsOffered | assets/dashboard/main.js:166-206 | the selector always ends on a value one of its options carries |
| Dashboard.SelectionKeptIffListed | assets/dashboard/main.js:188-205 | with a list the selection survives iff it is `*` or a listed zone id |
| Dashboard.CachedZones | assets/dashboard/main.js:208-220 | `null` iff the request threw; the `Zones` array when it is one; `[]` otherwise |
| Dashboard.DashboardState.constructor | assets/dashboard/main.js:30-42 | no charts, an empty cache, token 0, nothing pending |
| Dashboard.DashboardState.InitCharts | assets/dashboard/main.js:536 | the charts exist without the top charts; nothing else changes |
| Dashboard.DashboardState.LoadTopAnalysis | assets/dashboard/main.js:129-131 | without charts nothing happens; otherwise the token advances and the load carries the new id |
| Dashboard.DashboardState.OnTopSectionVisible | assets/dashboard/main.js:115-122 | top analysis becomes activated and a load starts when charts exist |
| Dashboard.DashboardState.TopFrameStart | assets/dashboard/main.js:134-136 | the frame goes on iff charts exist and its id is the latest; the top charts then exist |
| Dashboard.DashboardState.TopFrameFinish | assets/dashboard/main.js:138-152 | results are committed to the top cache iff charts exist and the id is still the latest; otherwise nothing changes |
| Dashboard.DashboardState.SupersededLoad | assets/dashboard/main.js:129-153 | of two loads in a row only the second one's results are committed |
| Dashboard.DashboardState.ScheduleChartsRebuild | assets/dashboard/main.js:74-77 | a rebuild is scheduled iff none was pending; afterwards one is pending |
| Dashboard.DashboardState.RunScheduledRebuild | assets/dashboard/main.js:77-87 | with charts they are rebuilt (top charts iff activated) and redrawn from the cache; the pending flag is always cleared |
| Dashboard.DashboardState.RerenderFromCache | assets/dashboard/main.js:398-431 | false without charts; otherwise true with exactly what `Rerendered` allows drawn |
| Dashboard.DashboardState.RenderZonesFromCache | assets/dashboard/main.js:166-206 | the loop builds exactly `ZoneOptions` and the selection is `KeptSelection`, `*` without a list |
| Dashboard.DashboardState.FetchZones | assets/dashboard/main.js:208-220 | the cached zone list becomes `CachedZones` of the reply and the selector is rebuilt from it |
| Dashboard.DashboardState.RefreshData | assets/dashboard/main.js:433-526 | without charts nothing happens; otherwise the batches of `PlanRefresh` are requested, the core cache holds what each family's batch gives, and a top load starts iff top analysis is activated |
| Dashboard.TopResults | assets/dashboard/main.js:143-148 | the results hold exactly the top metrics whose fetch came back, each normalised for its metric |
| Dashboard.ExtractFamily | assets/dashboard/main.js:495-510 | the loop adds to each map exactly the records of the batches that arrived |
| Dashboard.ExtractedStep | assets/dashboard/main.js:495-510 | one more metric adds its record iff its batch arrived |
| I18n.NormalizeLocale | assets/dashboard/i18n.js:6-16 | the result is always supported; falsy input gives zh-Hans; truthy input gives en-US iff its trimmed lower-case text starts with `en` |
| I18n.SupportedTagsCaught | assets/dashboard/i18n.js:11-14 | both exact supported tags are caught by the first two tests, so the third never decides |
| I18n.NormalizeIdempotent | assets/dashboard/i18n.js:6-16 | normalising a normalised locale changes nothing |
| I18n.NormalizeSupported | assets/dashboard/i18n.js:6-16 | each supported tag normalises to itself |
| I18n.TagSpellings | assets/dashboard/i18n.js:9-14 | the supported tags lower-cased, and which of the two prefix tests each passes |
| I18n.FirstTruthy | assets/dashboard/i18n.js:40 | the first truthy entry, none iff every entry is empty |
| I18n.NavigatorLocale | assets/dashboard/i18n.js:35-44 | the first truthy language when the list is non-empty, otherwise `navigator.language` when truthy |
| I18n.DetectInitialLocale | assets/dashboard/i18n.js:18-48 | the `lang`/`locale` query parameter, else the stored locale, else the navigator's, normalised; always supported |
| I18n.ArrayIndex | assets/dashboard/i18n.js:388 | an array index is read only from non-empty digit text |
| I18n.WalkConcat | assets/dashboard/i18n.js:383-391 | walking a path in two pieces is walking the whole path |
| I18n.WalkStopsAtNonObject | assets/dashboard/i18n.js:387 | once a prefix reaches a non-object the rest of the path finds nothing |
| I18n.DeepGet | assets/dashboard/i18n.js:383-391 | the loop returns exactly the walk of the dotted parts |
| I18n.WordRun | assets/dashboard/i18n.js:395 | the run of `\w` characters is maximal |
| I18n.PlaceholderAt | assets/dashboard/i18n.js:395 | a placeholder found is at least three characters, opening with `{` and closing with `}` |
| I18n.Interpolate | assets/dashboard/i18n.js:393-399 | text without `{` is copied whatever the variables |
| I18n.InterpolateLiteral | assets/dashboard/i18n.js:395-398 | a leading stretch without `{` is copied and the rest interpolated |
| I18n.InterpolatePlaceholder | assets/dashboard/i18n.js:395-398 | a leading `{word}` becomes the variable's value when defined and stays as written otherwise, and the rest is interpolated |
| I18n.InterpolateNothingDefined | assets/dashboard/i18n.js:395-398 | with no variable defined every placeholder is kept and the text comes back unchanged |
| I18n.InterpolateOne | assets/dashboard/i18n.js:395-398 | a lone placeholder of a defined variable becomes that variable's text |
| I18n.WordRunOf | assets/dashboard/i18n.js:395 | the word run of a word followed by a non-word character is the word |
| I18n.Resolved | assets/dashboard/i18n.js:441 | the locale's message unless nullish, else the default's unless nullish, else the key |
| I18n.Translate | assets/dashboard/i18n.js:437-443 | without variables the resolved message (locale table, then default table, then the key); with variables that message as text with its placeholders filled by `Interpolate` |
| I18n.TranslateLocaleMessage | assets/dashboard/i18n.js:437-443 | a message the locale's own table holds is what `t` interpolates |
| I18n.MissingKeyIsItself | assets/dashboard/i18n.js:437-443 | a key missing from both tables translates to itself |
| I18n.DefaultLocaleHasNoOtherFallback | assets/dashboard/i18n.js:439-441 | in the default locale a missing message is the key |
| I18n.LocaleState.constructor | assets/dashboard/i18n.js:51-52 | the module starts in zh-Hans, not initialised |
| I18n.LocaleState.InitI18n | assets/dashboard/i18n.js:401-407 | the first call detects the locale and sets the document's language; later calls change nothing; the current locale is returned |
| I18n.LocaleState.GetLocale | assets/dashboard/i18n.js:409-412 | initialises on first use and returns the current locale |
| I18n.LocaleState.SetLocale | assets/dashboard/i18n.js:414-430 | the current locale becomes the normalised request; it is stored and announced exactly when it differs from the locale before |
| I18n.LocaleState.Switch | assets/dashboard/i18n.js:418-429 | the new locale is current, stored and announced once |
| I18n.LocaleState.T | assets/dashboard/i18n.js:437-443 | the result is `Translate` in the current locale; nothing is stored or announced |
| IsoDate.YearText | assets/dashboard/utils.js:4 | at least four characters; a year in 0..9999 is its four zero-padded digits |
| IsoDate.ToIsoString | assets/dashboard/utils.js:4 | the ISO text of an instant has at least 24 characters |
| IsoDate.FormatDate | assets/dashboard/utils.js:3-5 | `formatDate` gives 20 characters ending in `Z` |
| IsoDate.ReadFields | assets/dashboard/compare.js:117-118 | fields are read only from a well-formed text and name a valid date and time at millisecond 0 |
| IsoDate.ParseDate | assets/dashboard/compare.js:117-119 | a text parses iff its fields read as a valid date and time |
| IsoDate.ParseWholeSecond | assets/dashboard/compare.js:117-118 | every parsed instant is a whole second |
| IsoDate.SecondsText | assets/dashboard/utils.js:4 | for years 0..9999 the ISO text cut after the seconds and closed with `Z` is the layout of the padded fields |
| IsoDate.ReadFieldsLayout | assets/dashboard/compare.js:117-118 | reading the layout of valid fields gives them back at millisecond 0 |
| IsoRoundTrip.ParseFormatDate | assets/dashboard/utils.js:3-5 | for years 0..9999 parsing `formatDate(ms)` gives `ms` truncated to the whole second |
| IsoRoundTrip.FormatDateReadsBack | assets/dashboard/utils.js:3-5 | for any instant whose year is 0..9999, the `formatDate` text reads back to the instant truncated to the second |
| IsoRoundTrip.WholeSecondReadsBack | assets/dashboard/utils.js:3-5 | a whole-second instant in the years 0..9999 reads back exactly |
| IsoRoundTrip.ParseSecondsText | assets/dashboard/utils.js:4 | the seconds-precision text of valid fields parses to their instant without the milliseconds |
| JsText.TrimStart | node-functions/api/lib/credentials.js:27 | the suffix left after dropping exactly the leading white space |
| JsText.TrimEnd | node-functions/api/lib/credentials.js:27 | the prefix left after dropping exactly the trailing white space |
| JsText.Trim | node-functions/api/lib/credentials.js:27 | no white space at either end and no longer than the input (that it is the middle of the input is `TrimSlice`) |
| JsText.TrimSlice | node-functions/api/lib/credentials.js:27 | the trim is the contiguous middle of the text, and everything cut off at either end is white space |
| JsText.TrimChars | node-functions/api/lib/credentials.js:27 | every character of the trim comes from the text |
| JsText.TrimKeepsNonSpace | node-functions/api/lib/credentials.js:27 | every character of the text that is not white space is kept |
| JsText.TrimFixedPoint | assets/dashboard/main.js:51 | a text without white space at either end is its own trim |
| JsText.TrimIdempotent | assets/dashboard/main.js:51 | trimming twice trims once |
| JsText.Split | node-functions/api/lib/credentials.js:23 | a split has at least one part and no part holds the separator |
| JsText.JoinSplit | node-functions/api/lib/credentials.js:23 | joining the parts of a split gives back the text |
| JsText.SplitHasSecondPart | node-functions/api/lib/credentials.js:27 | a split has a second part iff the separator occurs in the text |
| JsText.SplitWhole | node-functions/api/lib/credentials.js:23 | a text without the separator splits into itself |
| JsText.SplitAfterPart | node-functions/api/lib/credentials.js:23 | a separator ends the first part and the rest is split on its own |
| JsText.SplitJoin | node-functions/api/lib/teoPagesRegionFallback.js:10-13 | splitting the join of separator-free parts gives the parts back |
| JsText.TrimmedNonEmpty | node-functions/api/lib/teoPagesRegionFallback.js:12-13 | only non-empty trimmed parts, never more than it was given (which ones, in which order, is stated by the lemmas below) |
| JsText.TrimmedNonEmptyOne | node-functions/api/lib/teoPagesRegionFallback.js:12-13 | one part gives its trim, or nothing when the trim is empty |
| JsText.TrimmedNonEmptyConcat | node-functions/api/lib/teoPagesRegionFallback.js:12-13 | the filter works part by part: the result for `a + b` is that for `a` followed by that for `b`, so order is kept |
| JsText.TrimmedNonEmptyFrom | node-functions/api/lib/teoPagesRegionFallback.js:12-13 | every kept entry is the trim of one of the parts |
| JsText.TrimmedNonEmptyCovers | node-functions/api/lib/teoPagesRegionFallback.js:12-13 | every part whose trim is non-empty has that trim in the result |
| JsText.TrimmedNonEmptyKeeps | node-functions/api/lib/teoPagesRegionFallback.js:12-13 | parts already trimmed and non-empty pass unchanged |
| JsText.SplitList | node-functions/api/routes/traffic.js:28-31 | only non-empty trimmed names, none holding the separator, made only of characters of the text |
| JsText.SplitChars | node-functions/api/routes/traffic.js:28 | every character of every split part comes from the text |
| JsText.SplitListPiece | node-functions/api/routes/traffic.js:28-31 | text without the separator gives its trim, or nothing when that is empty |
| JsText.SplitListAfter | node-functions/api/routes/traffic.js:28-31 | a piece, the separator and the rest give the piece's entry followed by the rest's entries |
| JsText.SplitListEmpty | node-functions/api/lib/teoPagesRegionFallback.js:9-13 | an empty text is an empty list |
| JsText.SplitListJoin | node-functions/api/lib/teoPagesRegionFallback.js:10-13 | trimmed, non-empty, separator-free names survive a join and a split |
| JsText.ToLower | assets/dashboard/i18n.js:9 | lower-casing keeps the length and folds each character |
| JsText.ToLowerIdempotent | assets/dashboard/i18n.js:9 | lowering twice lowers once |
| JsText.ContainsLower | assets/dashboard/charts/topAnalysis.js:54-60 | an occurrence survives lower-casing |
| JsText.RemoveAll | assets/dashboard/charts/topAnalysis.js:300 | no occurrence of the character remains, every other character is kept as often as it occurred, and a text without it is unchanged |
| JsText.RemoveAllConcat | assets/dashboard/charts/topAnalysis.js:300 | removal works piece by piece, so the kept characters stay in order |
| JsText.NatToString | assets/dashboard/api.js:101 | the decimal text of a number is non-empty digits |
| JsText.NatToStringValue | assets/dashboard/api.js:101 | reading back the text of a number gives the number |
| JsText.NatToStringLength | assets/dashboard/api.js:101 | a number below 10^k has at most k digits |
| JsText.PadStart | assets/dashboard/api.js:101 | the padded text has the width (or its own length when longer) and stays digits |
| JsText.LeadingZero | assets/dashboard/api.js:101 | a leading zero does not change a digit run's value |
| JsText.PadStartValue | assets/dashboard/api.js:101 | padding with zeros keeps the value |
| JsText.Pad | assets/dashboard/api.js:101-107 | a padded number is digits at least as long as the width |
| JsText.PadRoundTrip | assets/dashboard/api.js:101-107 | a number below 10^width takes exactly `width` digits that read back to it |
| JsValue.NumOf | assets/dashboard/compare.js:76-77 | `Number` of a present value is that finite value; of `undefined` it is NaN |
| JsValue.OrText | assets/dashboard/i18n.js:47 | `a \|\| b` is `a` when truthy, else `b` |
| JsValue.TextOr | assets/dashboard/charts/topAnalysis.js:44 | `a \|\| fallback` is `a` when truthy, else the fallback |
| JsValue.Largest | assets/dashboard/charts/originPull.js:28 | `Math.max` of an empty list is none; otherwise an element at least as large as every element |
| JsValue.Get | assets/dashboard/charts/topAnalysis.js:44 | a property read finds a value iff the key is present, and it is that key's value |
| Metrics.FamiliesDisjoint | node-functions/api/lib/metrics.js:2-46 | no metric belongs to two of the four backend lists |
| Metrics.SameFamiliesAsDashboard | node-functions/api/lib/metrics.js:11-46 | the top, security and function lists hold exactly the dashboard's families of the same name |
| Metrics.OriginPullReordered | node-functions/api/lib/metrics.js:2-8 | the origin-pull list holds the dashboard's origin-pull family in another order |
| Metrics.TimingUnlisted | node-functions/api/lib/metrics.js:2-46 | no metric of the dashboard's timing batch is in any of the four lists |
| Metrics.TimingNotTop | node-functions/api/lib/metrics.js:11-36 | no timing metric is a top metric |
| Metrics.TimingNotSeries | node-functions/api/lib/metrics.js:2-46 | no timing metric is a security, function or origin-pull metric |
| OriginPull.GroupMax | assets/dashboard/charts/originPull.js:20-37 | a group maximum is non-negative, bounds every value of every drawn metric of the group, and is 0 or one of those values |
| OriginPull.GroupMaxStep | assets/dashboard/charts/originPull.js:25-37 | one more visited metric applies one raise step |
| OriginPull.GroupMaxima | assets/dashboard/charts/originPull.js:20-37 | the first pass computes the three group maxima |
| OriginPull.PreviousField | assets/dashboard/charts/originPull.js:52-61 | the previous value is finite iff the compare results hold a time series for the metric, and then it is the same field |
| OriginPull.KpiFieldChoice | assets/dashboard/charts/originPull.js:48-63 | traffic and request KPIs show and compare `sum`, bandwidth KPIs `max`; the compare line is hidden when the previous period has no series |
| OriginPull.DrawnMetrics | assets/dashboard/charts/originPull.js:43-45 | exactly the metrics present as time series (order: `DrawnMetricsConcat`) |
| OriginPull.DrawnMetricsOne | assets/dashboard/charts/originPull.js:43-45 | one metric is drawn iff its result is a time series |
| OriginPull.DrawnMetricsConcat | assets/dashboard/charts/originPull.js:43-45 | the filter works piece by piece, so the drawn metrics keep the order of the list |
| OriginPull.Axis | assets/dashboard/charts/originPull.js:65 | the axis is empty iff every drawn metric's labels are; otherwise the labels of the first drawn metric that has some |
| OriginPull.UnitsOf | assets/dashboard/charts/originPull.js:39-41 | each unit is the one its group maximum selects: the byte and bit-rate units are the power of 1024 not above the maximum (capped at 5), the count unit the largest tier not above it |
| OriginPull.Kpis | assets/dashboard/charts/originPull.js:48-63 | one KPI per drawn metric |
| OriginPull.SeriesList | assets/dashboard/charts/originPull.js:95-105 | one series per drawn metric |
| OriginPull.HitRateOf | assets/dashboard/charts/originPull.js:146-166 | the fallback unless both results exist and the edge sum is positive; then one minus origin over edge sum for a time-series origin, NaN for a top-list origin |
| OriginPull.HitRate | assets/dashboard/charts/originPull.js:146-152 | zero unless the guard holds; with both results drawn and a positive edge sum, one minus the ratio of the sums |
| OriginPull.PreviousHitRate | assets/dashboard/charts/originPull.js:161-166 | NaN without compare results or when the guard fails; otherwise one minus the ratio of the previous sums |
| OriginPull.HitRateExample | assets/dashboard/charts/originPull.js:149-152 | origin 200 against edge 1000 gives a rate of 0.8 |
| OriginPull.HitRateTopOriginIsNaN | assets/dashboard/charts/originPull.js:149-152 | a top-list origin result passes the guard and makes the rate NaN |
| OriginPull.HitRateNotClamped | assets/dashboard/charts/originPull.js:150-153 | an origin sum above the edge sum gives a negative rate |
| OriginPull.HitRateInUnitRange | assets/dashboard/charts/originPull.js:150-151 | an origin sum between 0 and a positive edge sum gives a rate in [0, 1] |
| OriginPull.HitRateCompareHidden | assets/dashboard/charts/originPull.js:161-167 | the hit-rate compare line is hidden whenever the previous rate stays NaN |
| OriginPull.UpdateOriginPullSection | assets/dashboard/charts/originPull.js:13-168 | the two passes and the hit rates produce exactly `SectionOf` |
| OriginPull.DrawMetrics | assets/dashboard/charts/originPull.js:43-106 | the second pass yields the KPIs, axis and series of the drawn metrics |
| OriginPull.AppendKpi | assets/dashboard/charts/originPull.js:48-63 | a drawn metric appends its KPI |
| OriginPull.AppendSeries | assets/dashboard/charts/originPull.js:95-105 | a drawn metric appends its series |
| OriginPull.AppendAxis | assets/dashboard/charts/originPull.js:65 | a drawn metric fills an axis that is still empty |
| PagesRoute.EndpointKeysSeparate | node-functions/api/routes/pages.js:28-137 | the three Pages routes never share a `PAGES_CACHE` entry, whatever their queries |
| PagesRoute.ZoneKeysSeparate | node-functions/api/routes/pages.js:28-137 | build-count and monthly-stats keys for different requested zones (`zoneId \|\| "*"`) are different |
| PagesRoute.WhenTruthy | node-functions/api/routes/pages.js:103-104 | an optional `StartTime`/`EndTime` is put in the payload exactly when the query text is truthy, and then unchanged |
| PagesRoute.Params | node-functions/api/routes/pages.js:47-164 | each route asks for its own `Interface` about the resolved zone; build-count sends `{}`, monthly stats `{ ZoneId }`, requests `{ ZoneId, Interval: "hour" }` plus the truthy bounds |
| PagesRoute.CacheKey | node-functions/api/routes/pages.js:28-137 | each route's key starts with its own prefix: `build-count:`, `cf-requests:`, `cf-monthly:` |
| PagesRoute.Pages | node-functions/api/routes/pages.js:24-185 | only the route's own cache key changes; no entry is added without an API call; a call is made only with both keys and a resolved zone, with that route's parameters |
| PagesRoute.Annotated | node-functions/api/routes/pages.js:55-64 | the reply carries `usedRegion` = the answering region, keeps every other field of the answer, adds nothing else, and has `parsedResult` exactly when `Result` is truthy and parses (then equal to the parse) |
| PagesRoute.CacheCheckedBeforeCredentials | node-functions/api/routes/pages.js:27-38 | a live cached answer is sent with no API call even when the credentials are missing |
| PagesRoute.GuardsBeforeCall | node-functions/api/routes/pages.js:34-54 | past the cache, missing keys give 500 "Missing credentials", then an unresolvable zone gives 400, neither calling the API; the API is called iff both are present, with that route's params |
| PagesRoute.RequestedZoneUsed | node-functions/api/routes/pages.js:41-51 | a requested (truthy) zone id is the zone the API call names |
| PagesRoute.AnsweredAndCached | node-functions/api/routes/pages.js:54-67 | an answer is sent annotated with a region drawn from the candidates; without `noCache` a later request is served from the cache iff it arrives before the route's TTL runs out, and gets the same body |
| PagesRoute.FailuresNotCached | node-functions/api/routes/pages.js:68-71 | an SDK error, or every region refusing, is answered 500 with message, code and request id, and nothing is stored |
| PagesRoute.NoCacheBypassesCache | node-functions/api/routes/pages.js:27-66 | with `noCache=1` the route leaves `PAGES_CACHE` exactly as it was |
| PagesRoute.CacheStaysBounded | node-functions/api/routes/pages.js:17-21 | a cache of at most 201 entries still has at most 201 after any request |
| PagesRoute.SettleBounded | node-functions/api/routes/pages.js:17-21 | storing the answer keeps a cache of at most 201 entries within 201 |
| PagesRoute.HandlePages | node-functions/api/routes/pages.js:24-72 | the handler on the live cache object yields the reply, the call made and the cache that the route's specification gives for the old cache |
| PagesRoute.CallAndSettle | node-functions/api/routes/pages.js:54-71 | the region-fallback call, the reply and the cache write agree with settling the fallback's outcome |
| RefreshPlan.PreviousFetch | assets/dashboard/main.js:486-490 | a previous-period batch is requested exactly when a previous range exists, for the same metrics over that range |
| RefreshPlan.PlanRefresh | assets/dashboard/main.js:443-492 | the timing, origin-pull and edge-function families are always fetched for the current window and for the previous one when it exists; security is fetched iff the window is at most 14 days and a minute long, and its previous period iff additionally a previous range exists and is still eligible for comparison |
| RefreshPlan.FixedSpansInSeconds | assets/dashboard/utils.js:43-46 | every fixed range key spans whole seconds, and only `31d` is longer than the security limit |
| RefreshPlan.SpanSecurityGate | assets/dashboard/main.js:443-447 | for a whole-second window, the gate computed on the formatted texts holds iff the real window is at most 14 days and a minute |
| RefreshPlan.FormattedSpan | assets/dashboard/main.js:443-446 | two whole-second-apart instants, formatted by `formatDate` and parsed back, are exactly as far apart as before |
| RefreshPlan.SameMillis | assets/dashboard/utils.js:3-5 | dropping the milliseconds of two instants a whole number of seconds apart keeps their distance |
| RefreshPlan.Answer | assets/dashboard/main.js:484-492 | a skipped `Promise.all` slot resolves to `null`, a requested one to its batch answer |
| RefreshPlan.Extracted | assets/dashboard/main.js:495-510 | a batch that arrived fills in exactly its family's metrics, each normalised by `processData`; a `null` one fills in nothing |
| RefreshPlan.RefreshKeys | assets/dashboard/main.js:495-510 | `results` and `compareResults` only ever hold time-series metrics of `metricsConfig` |
| RefreshPlan.SecurityComparedOnlyWhenEligible | assets/dashboard/main.js:447-509 | a previous-period security result implies a short window, an existing previous range and an eligible previous start |
| RefreshPlan.SecurityFetchedOnlyForShortWindows | assets/dashboard/main.js:447-508 | a current security result implies a window of at most 14 days and a minute |
| RefreshPlan.SecurityApart | assets/dashboard/main.js:465-473 | no security metric belongs to the timing, origin-pull or edge-function batch |
| RegionFallback.RegionCandidates | node-functions/api/lib/teoPagesRegionFallback.js:8-16 | the candidate list is never empty |
| RegionFallback.UnsetRegionDefers | node-functions/api/lib/teoPagesRegionFallback.js:9 | an unset or empty `TEO_PAGES_REGION` gives the candidates `TEO_PAGES_REGIONS` alone would give |
| RegionFallback.RegionsListUsed | node-functions/api/lib/teoPagesRegionFallback.js:9-14 | with `TEO_PAGES_REGION` unset or empty, a comma-joined `TEO_PAGES_REGIONS` list is used name for name |
| RegionFallback.BlankRegionDefaults | node-functions/api/lib/teoPagesRegionFallback.js:9-15 | a non-empty `TEO_PAGES_REGION` that names no region gives the defaults, whatever `TEO_PAGES_REGIONS` says |
| RegionFallback.CommasOnlyDefaults | node-functions/api/lib/teoPagesRegionFallback.js:9-15 | `TEO_PAGES_REGION=" , "` gives the defaults even with `TEO_PAGES_REGIONS=eu-frankfurt` |
| RegionFallback.ConfiguredRegions | node-functions/api/lib/teoPagesRegionFallback.js:8-14 | a `TEO_PAGES_REGION` written as a comma-joined list of trimmed names gives exactly those names, in order, whatever `TEO_PAGES_REGIONS` holds |
| RegionFallback.NamedCandidates | node-functions/api/lib/teoPagesRegionFallback.js:9-14 | a non-empty `TEO_PAGES_REGION` that leaves any name after splitting and trimming is the candidate list |
| RegionFallback.JoinedList | node-functions/api/lib/teoPagesRegionFallback.js:10-13 | a comma-joined list of names is a non-empty text that splits, trims and filters back into those names |
| RegionFallback.JoinNonEmpty | node-functions/api/lib/teoPagesRegionFallback.js:9 | a list whose first name is non-empty joins to a truthy text |
| RegionFallback.UnsetRegions | node-functions/api/lib/teoPagesRegionFallback.js:15 | with neither variable set the candidates are `ap-guangzhou` then `ap-singapore` |
| RegionFallback.HeaderNamedInMessage | node-functions/api/lib/teoPagesRegionFallback.js:18-23 | a message naming `X-TC-Region` passes the case-insensitive test, and the test gives the same verdict on the lower-cased message |
| RegionFallback.IsUnsupportedRegionError | node-functions/api/lib/teoPagesRegionFallback.js:18-23 | `UnsupportedRegion` always qualifies; otherwise only `InvalidParameterValue` can, and it does exactly when its message names the `X-TC-Region` header in any letter case |
| RegionFallback.OtherParameterErrorRethrown | node-functions/api/lib/teoPagesRegionFallback.js:33-47 | an `InvalidParameterValue` error that does not name the region header, at the first candidate, is rethrown after that one region |
| RegionFallback.ExhaustedError | node-functions/api/lib/teoPagesRegionFallback.js:51-59 | the wrapped error carries the last error's code and request id (none when nothing was tried) |
| RegionFallback.TryRegions | node-functions/api/lib/teoPagesRegionFallback.js:25-60 | regions are tried in order, each one passed over was refused with a region error; an answer comes from the last region tried; any other error is rethrown at once; the candidates are used up only when every one refused, and the wrapped error is built from the last refusal |
| RegionFallback.TryFrom | node-functions/api/lib/teoPagesRegionFallback.js:33-59 | the regions tried are a prefix of the candidates from the start position on; all of them when the candidates run out |
| RegionFallback.TryFromPrefix | node-functions/api/lib/teoPagesRegionFallback.js:33-49 | the loop from any candidate on tries a prefix of the list and stops exactly at an answer or a non-region error |
| RegionFallback.TryFromRefused | node-functions/api/lib/teoPagesRegionFallback.js:38-45 | every region the loop moves past failed with a region error |
| RegionFallback.TryFromExhausted | node-functions/api/lib/teoPagesRegionFallback.js:39-59 | the loop runs out of candidates only when all of them were refused, and then wraps the last one's error |
| RegionFallback.RequestWithRegionFallback | node-functions/api/lib/teoPagesRegionFallback.js:25-60 | the `for` loop with `lastError` computes the outcome and the regions tried that `TryRegions` describes |
| TopAnalysis.TopUnitOf | assets/dashboard/charts/topAnalysis.js:25-39 | `outFlux` metrics get a byte unit and all others a count unit, both chosen for the largest shown value; the divisor is at least 1, and missing (NaN) only for a negative byte maximum |
| TopAnalysis.BarValue | assets/dashboard/charts/topAnalysis.js:48-51 | a bar is its value divided by the unit's divisor (bar × divisor = value); with no divisor the bar is NaN |
| TopAnalysis.TopItemsOf | assets/dashboard/charts/topAnalysis.js:19-21 | a chart has data exactly when the metric's result is a top list, and then it is that list |
| TopAnalysis.RenderTopChart | assets/dashboard/charts/topAnalysis.js:17-109 | a chart is drawn exactly when the metric's result is a top list |
| TopAnalysis.TopChartRows | assets/dashboard/charts/topAnalysis.js:23-60 | a drawn chart has as many names as bars, at most ten; position `i` shows the row ranked `n-1-i`, named through the resolver and scaled by the unit, in the metric's colour |
| TopAnalysis.InGB | assets/dashboard/charts/topAnalysis.js:305 | a gigabyte figure times 1024³ gives back the byte count |
| TopAnalysis.FluxRefererChart | assets/dashboard/charts/topAnalysis.js:288-343 | drawn exactly when the flux-referer result is a top list; the ten largest rows bottom-up, named by the flux referer label and measured in GB |
| TopAnalysis.RequestRefererChart | assets/dashboard/charts/topAnalysis.js:345-396 | drawn exactly when the request-referer result is a top list; the ten largest rows bottom-up, named by the request referer label and measured as raw counts |
| TopAnalysis.TopMapChart | assets/dashboard/charts/topAnalysis.js:111-173 | skipped without a country top list, cleared when no world map is loaded; otherwise every row (not just ten) becomes one point with its map name and value, and the colour scale tops out at the largest value (0 for no rows) |
| TopAnalysis.SectionCoversTopAnalysis | assets/dashboard/charts/topAnalysis.js:258-285 | the section draws one chart per top-analysis metric of the configuration, in the configuration's order |
| TopAnalysis.OutFluxPlan | assets/dashboard/charts/topAnalysis.js:258-270 | the first twelve charts are the twelve `outFlux` top metrics, in order |
| TopAnalysis.RequestPlan | assets/dashboard/charts/topAnalysis.js:273-285 | the next twelve charts are the twelve request top metrics, in order |
| TopAnalysis.TopAnalysisSection | assets/dashboard/charts/topAnalysis.js:176-286 | the section makes the map outcome plus one chart per plan entry, and chart `k` is drawn exactly when its metric's result is a top list |
| TopAnalysis.PlanRenderers | assets/dashboard/charts/topAnalysis.js:266-281 | the two referer renderers are used only for their own referer metrics |
| TopLabels.ResolveName | assets/dashboard/charts/topAnalysis.js:41-45 | without a resolver a key is shown as is; a function resolver is applied to it; an object resolver gives its truthy entry, or else the key |
| TopLabels.DashPassesThrough | assets/dashboard/charts/topAnalysis.js:47 | the placeholder key `-` is shown verbatim by a generic chart with no resolver, or with an object resolver that has no entry for `-` |
| TopLabels.RegionDisplayName | assets/dashboard/charts/topAnalysis.js:206-214 | zh-Hans uses the Chinese country name or the code; other locales use the platform's truthy region name, then the map's English name, then the code, and the same when the platform throws |
| TopLabels.ProvinceDisplayName | assets/dashboard/charts/topAnalysis.js:216-255 | zh-Hans uses the Chinese province name or the code; other locales use the built-in English name, then the Chinese one, then the code |
| TopLabels.DisplayNamesNonEmpty | assets/dashboard/charts/topAnalysis.js:206-255 | neither display name is ever empty for a non-empty code |
| TopLabels.FirstMatch | assets/dashboard/charts/topAnalysis.js:53-60 | the colour comes from the first rule that has a passing test, and is blue when no rule passes |
| TopLabels.Chain | assets/dashboard/charts/topAnalysis.js:53-60 | the rule list is the `if`/`else if` chain written out: country, then province/resourcetype/browser, then statuscode/referer/`_ua` suffix, then domain/device, then url/os, then sip |
| TopLabels.AnyOfOne | assets/dashboard/charts/topAnalysis.js:55 | a one-test rule passes exactly when its test does |
| TopLabels.AnyOfTwo | assets/dashboard/charts/topAnalysis.js:58-59 | a two-test rule is the `\|\|` of its tests |
| TopLabels.AnyOfThree | assets/dashboard/charts/topAnalysis.js:56-57 | a three-test rule is the `\|\|` of its tests |
| TopLabels.ColorIsFirstMatch | assets/dashboard/charts/topAnalysis.js:53-60 | the bar colour of a metric is the first matching rule applied to its lower-cased name |
| TopLabels.ColorFor | assets/dashboard/charts/topAnalysis.js:53-60 | one of the six colours, blue whenever the lower-cased name mentions `country` |
| TopLabels.CleanKey | assets/dashboard/charts/topAnalysis.js:300 | a cleaned key has no backtick and no blank at either end, holds only characters of the key, and keeps every one that is neither a backtick nor white space |
| TopLabels.FluxRefererLabel | assets/dashboard/charts/topAnalysis.js:298-303 | a key that cleans to nothing or to `-` shows the missing-field text; any other key shows its cleaned form, which is non-empty, not `-` and free of backticks |
| TopLabels.FluxRefererLabelIdempotent | assets/dashboard/charts/topAnalysis.js:298-303 | labelling a label again changes nothing when the missing-field text is itself clean |
| TopLabels.CleanKeyOfClean | assets/dashboard/charts/topAnalysis.js:300 | a key without backticks or surrounding blanks is left as it is |
| TopLabels.RequestRefererLabel | assets/dashboard/charts/topAnalysis.js:355-361 | a raw `-` shows the missing-field text; any other key is cleaned and shown whole up to 50 characters, otherwise as its first 50 characters plus `...` (53 in all) |
| TopLabels.RefererLabelsDiffer | assets/dashboard/charts/topAnalysis.js:298-361 | the two referer charts disagree on keys that only clean to `-` or to nothing: the flux chart shows the missing-field text, the request chart shows `-` or an empty name |
| TopLabels.TrimNoSpace | assets/dashboard/charts/topAnalysis.js:300 | a text with no blank at either end is its own trim |
| TopRanking.InsertPos | assets/dashboard/charts/topAnalysis.js:23 | the stable sort puts an earlier row after every larger row and before the first row that is not larger |
| TopRanking.Insert | assets/dashboard/charts/topAnalysis.js:23 | one insertion places the row at that position, keeping the other rows in order and the multiset of rows plus the new one |
| TopRanking.InsertSorted | assets/dashboard/charts/topAnalysis.js:23 | inserting into a list sorted by decreasing value keeps it sorted |
| TopRanking.SortDesc | assets/dashboard/charts/topAnalysis.js:23 | `sort((a, b) => b.Value - a.Value)` gives a list sorted by decreasing value that is a permutation of the input |
| TopRanking.TopRows | assets/dashboard/charts/topAnalysis.js:23 | a chart shows min(n, 10) rows, sorted by decreasing value, each drawn from the input |
| TopRanking.TopRowsAreLargest | assets/dashboard/charts/topAnalysis.js:23 | no row left out is larger than any row shown |
| TopRanking.PrefixDominates | assets/dashboard/charts/topAnalysis.js:23 | in a sorted list every row of a prefix is at least as large as every row after it |
| TopRanking.ShortListsShownWhole | assets/dashboard/charts/topAnalysis.js:23 | a list of at most ten rows is shown whole, each row as often as it occurs in the input |
| TopRanking.TopMaxIsLargest | assets/dashboard/charts/topAnalysis.js:30-35 | the value a unit is chosen for is the largest value of the whole list (0 for an empty list) |
| TopRanking.BottomUp | assets/dashboard/charts/topAnalysis.js:47-51 | `map(f).reverse()` keeps the length and puts the image of the last row first |
| TrafficRoute.NonEmpty | node-functions/api/routes/traffic.js:32 | a metric list is accepted exactly when it is non-empty, and then unchanged |
| TrafficRoute.ParseMetricsQuery | node-functions/api/routes/traffic.js:23-33 | an absent or empty `metrics` query gives nothing; a parsed list is non-empty and every name is non-empty and trimmed |
| TrafficRoute.ListReadsAsText | node-functions/api/routes/traffic.js:27 | a repeated `metrics` parameter reads exactly like its comma-joined text |
| TrafficRoute.MetricsQueryRoundTrip | node-functions/api/routes/traffic.js:23-33 | a comma-joined list of trimmed names, as text or as repeated parameters, parses back to exactly those names |
| TrafficRoute.ClassifyMetricFamily | node-functions/api/routes/traffic.js:35-41 | a top-analysis metric is `top`; `timing` only for a metric in none of the four lists |
| TrafficRoute.FamilyIsMembership | node-functions/api/routes/traffic.js:35-41 | a metric is classed top, security, function or origin-pull iff it is listed in that family (checked in that order), and timing iff it is in none of them |
| TrafficRoute.SingleFamily | node-functions/api/routes/traffic.js:81-82 | a list whose metrics all belong to one family is not mixed, and is classed as that family |
| TrafficRoute.DashboardBatchesAccepted | node-functions/api/routes/traffic.js:81-87 | each batch the dashboard sends (timing, origin pull, edge functions, security) belongs to a single family, the one its API needs |
| TrafficRoute.WithDefaults | node-functions/api/routes/traffic.js:62-72 | the metrics are the parsed list, or else just the `metric` parameter (by default `l7Flow_flux`); given start and end times are kept; interval and zone are copied; `noCache` is on exactly when the query says `"1"` |
| TrafficRoute.DefaultWindowIsOneDay | node-functions/api/routes/traffic.js:57-68 | with neither bound given, the default start and end parse, lie exactly one day apart, and the end is now truncated to the second |
| TrafficRoute.DayInSeconds | node-functions/api/routes/traffic.js:62 | one day is a whole number of seconds, so second-truncated formatting keeps it |
| TrafficRoute.CacheKeysSeparateFamilies | node-functions/api/routes/traffic.js:89 | requests of different families never share a `TRAFFIC_CACHE` entry |
| TrafficRoute.KeyPrefix | node-functions/api/routes/traffic.js:89 | a cache key begins with the first two letters of its family's name, and the five families have five different prefixes |
| TrafficRoute.ForwardedInterval | node-functions/api/routes/traffic.js:120-160 | `Interval` is sent exactly when the query's interval is truthy and not `auto`, and then unchanged |
| TrafficRoute.FunctionMetricNames | node-functions/api/routes/traffic.js:129-133 | the function metric list is the request's list, with `function_requestCount` put in front exactly when `function_cpuCostTime` is asked for without it |
| TrafficRoute.UpstreamCall | node-functions/api/routes/traffic.js:95-169 | every family is sent the request's window and zones (`["*"]` when no zone), to its own API action: top gets its single metric name and no interval; the others get their list (the function list with the added request count) and the forwarded interval |
| TrafficRoute.Traffic | node-functions/api/routes/traffic.js:44-177 | the route answers 200, 400 or 500 |
| TrafficRoute.TrafficCacheFootprint | node-functions/api/routes/traffic.js:89-171 | a request touches only its own cache key, and adds no entry without an API call |
| TrafficRoute.TrafficAnswerCached | node-functions/api/routes/traffic.js:89-171 | unless `noCache` is set, a 200 answer is what the request's key holds afterwards |
| TrafficRoute.CredentialsCheckedFirst | node-functions/api/routes/traffic.js:49-53 | missing keys give 500 "Missing credentials" before anything else, with no call and the cache untouched, even when the cache holds the answer |
| TrafficRoute.MixedFamiliesRejected | node-functions/api/routes/traffic.js:81-87 | a batch mixing families is answered 400 without a call and without touching the cache |
| TrafficRoute.TopBatchRejected | node-functions/api/routes/traffic.js:95-101 | an uncached top-analysis request naming more than one metric is answered 400 without a call |
| TrafficRoute.CallOnlyWhenAccepted | node-functions/api/routes/traffic.js:49-110 | the API is called iff the keys are present, the families are not mixed, the cache does not answer, and a top request names a single metric; the call is the one for the request's family |
| TrafficRoute.TrafficFailureAnswered | node-functions/api/routes/traffic.js:170-175 | a failed API call is answered 500 with the error's message; the call was made and nothing is stored |
| TrafficRoute.NoCacheBypassesCache | node-functions/api/routes/traffic.js:72-171 | with `noCache=1` the cache is left as it was, and every accepted request calls the API |
| TrafficRoute.CachedAnswers | node-functions/api/routes/traffic.js:89-172 | a live entry is served as stored, with no call and no change; an API answer is sent and, without `noCache`, served to the same request iff it arrives within 30 seconds |
| TrafficRoute.CacheStaysBounded | node-functions/api/routes/traffic.js:17-21 | a cache of at most 301 entries still has at most 301 after any request |
| TrafficRoute.HandleTraffic | node-functions/api/routes/traffic.js:44-177 | the handler on the live cache object yields the reply, the call made and the cache that the route's specification gives, for the request with its defaults filled in |
| TrafficRoute.Serve | node-functions/api/routes/traffic.js:81-176 | serving a request with defaults filled in matches the route's specification on the old cache |
| Caches.Read | node-functions/api/routes/traffic.js:7-15 | a read returns the entry's data iff the key is present and not yet expired, leaving the map as it was; otherwise it returns nothing and the key is gone |
| Caches.Stored | node-functions/api/routes/traffic.js:17-21 | after a write the key maps to the new entry, the map holds at most limit+1 entries, and the other entries are kept unless the map held more than the limit (then only the new key remains) |
| Caches.ReadAfterStore | node-functions/api/routes/pages.js:7-21 | a stored entry reads back as the stored data until, and only until, it expires |
| Caches.ReadTwice | node-functions/api/routes/pages.js:7-15 | reading again at the same instant finds the same thing and leaves the same map |
| Caches.TtlCache.constructor | node-functions/api/routes/traffic.js:5 | a new cache is an empty `Map` within its size bound |
| Caches.TtlCache.Get | node-functions/api/routes/traffic.js:7-15 | the read on the live map returns and leaves what `Read` describes, keeping the size bound |
| Caches.TtlCache.Set | node-functions/api/routes/traffic.js:17-21 | the write on the live map leaves what `Stored` describes, keeping the size bound |
| ZoneResolve.FindPagesZone | node-functions/api/lib/zones.js:14 | finds the first site named `default-pages-zone`, and finds nothing only when no site has that name |
| ZoneResolve.ResolveZoneId | node-functions/api/lib/zones.js:3-28 | a truthy requested zone id is used as is; otherwise the first `default-pages-zone` site, else the first listed site; the requested value is kept when the lookup throws, has no `Zones`, or lists none |
| ZoneResolve.PagesZonePreferred | node-functions/api/lib/zones.js:13-17 | with no zone requested, the first `default-pages-zone` site is chosen wherever it appears in the list |
| ZoneResolve.ResolvedFromList | node-functions/api/lib/zones.js:13-21 | a zone id different from the requested one is always the id of a site in the list |
| ZonesRoute.ZonesCache.constructor | node-functions/api/routes/zones.js:4-7 | `ZONES_CACHE` starts as `{ expiresAt: 0, data: null }` |
| ZonesRoute.InitialCacheEmpty | node-functions/api/routes/zones.js:4-16 | the initial cache answers no request |
| ZonesRoute.Zones | node-functions/api/routes/zones.js:10-39 | the route answers 200 or 500, a 200 answer is the cached list, the cache changes only after an API call, and a call is made only with both keys when the cache does not serve |
| ZonesRoute.CallOnlyWhenNotServed | node-functions/api/routes/zones.js:15-31 | `DescribeZones` is called iff the cache does not answer and the keys are present; a served list is the cached one; missing keys give 500 and leave the cache unchanged |
| ZonesRoute.ListCachedForFiveMinutes | node-functions/api/routes/zones.js:31-34 | a fetched list is sent and stored even under `noCache`, and a later request without `noCache` is served from the cache iff it arrives within 300 seconds |
| ZonesRoute.FailureKeepsCache | node-functions/api/routes/zones.js:35-38 | a failed call is answered 500 with the error's message and leaves the cache as it was |
| ZonesRoute.HandleZones | node-functions/api/routes/zones.js:10-39 | the handler on the live `ZONES_CACHE` yields the reply, whether the API was called, and the cache state that the route's specification gives for the old state |

## Left out

- Drawing: DOM updates, ECharts options and `setOption`, chart-instance wiring (`initCharts`), `waitForEchartsReady` polling, `IntersectionObserver` and `requestAnimationFrame` scheduling. Each renderer returns the data it would hand to the chart instead.
- KPI element plumbing in `assets/dashboard/compare.js` and `main.js` (`wrapKpiValueEl`, `getOrCreateCompareEl`, `hideAllKpiCompareLines`, loading texts): DOM only. The compare decision is modelled, and so are its style and text.
- Number rendering: `toFixed`, `toLocaleString`, `Intl.NumberFormat`, `Intl.DisplayNames` as platform code, and the logarithm-based texts of `formatBytes`/`formatBps` above zero. Values are `real`; NaN and ±Infinity are an explicit case of `JsValue.Num`.
- FormatBytes: states only `formatBytes(0) == "0 B"`, because the text for non-zero values goes through `toFixed`, which is not modelled; the scaling itself is stated by `FormatSize`.
- FormatBps: states only `formatBps(0) == "0 bps"`, for the same reason.
- Kpis: states the number of KPIs only; their fields are stated per metric by `KpiFieldChoice`.
- SeriesList: states the number of series only; their metrics and scaling are stated by `DrawMetrics`.
- SortDesc: states the order and the permutation, not that ties keep their input order as JavaScript's stable `sort` does.
- DefaultWindowIsOneDay: holds for instants in years 0 to 9999, the range the 20-character ISO text can write.
- ParseFormatDate: round-trips instants in years 0 to 9999 only, because `toISOString` switches to six-digit years outside that range.
- FormatDateReadsBack, WholeSecondReadsBack, WindowTextReadsBack, TimeRangeEndsNow and PreviousRangeReadsBack: state the read-back for ends in years 0 to 9999 only, for the same reason.
- ParseDate: reads only the 20-character `YYYY-MM-DDTHH:MM:SSZ` form that `formatDate` writes, and gives `None` for anything else. `new Date(s)` in `compare.js` accepts many more forms; the dashboard only ever parses texts it wrote itself.
- FetchData: building the request URL (the `interval` and `zoneId` query parameters of `api.js`) and the `fetch` itself are not modelled; what the request did is a parameter.
- UnitsOf: for the request count, states the divisor chosen, not the unit's wording; the wording per locale and tier is `GetBestCountUnit`.
- Time zones: local time is the epoch plus one fixed offset, so daylight-saving transitions are not modelled.
- Text: `toLowerCase` lowers ASCII letters only. Strings are sequences of characters, with no UTF-16 surrogates.
- `fetchBatchData` (the batched `/api/traffic` request of `refreshData`): not modelled. Each batch answer is a parameter. `assets/dashboard/main.js` imports it from `api.js`, which does not export it, so the refresh as written fails when the module loads; the model describes the refresh the code intends.
- `charts/performance.js` imports `metricLabels`, which `constants.js` does not export. That renderer is not part of this model.
- The Pages KPI fetchers of `main.js` (`fetchPagesBuildStats` and the two cloud-function fetchers) and `handleTimeRangeChange`: DOM plumbing around the backend routes, which are modelled.
- The per-family chart renderers (traffic, bandwidth, requests, performance, edge functions, security), `theme.js`, `head.js`, `geo.js` and `config.js` are not part of this model. Their unit choice is the `getBestUnit`/`getBestCountUnit` logic modelled in `DashboardUtils`.
- Locale side effects: `onLocaleChange` listeners, `applyTranslations` and the language switcher. `SetLocale` records that a change was stored and announced, but not what listeners do. The message tables are a parameter.
- Concurrency: `Promise.all` and async interleaving are modelled as sequential steps. The top-analysis load is split into a start frame and a finish step so that a superseding load can come between them.
- SDK clients (`lib/teoClients.js` is not part of this model): every upstream call is an outcome parameter, and for the Pages routes a function from region to outcome.
- Express plumbing: `res.set("Cache-Control", …)` headers and `console` logging. Each route result is a status and a body.
- `JSON.stringify` of the Pages payload: the payload is a datatype. `JSON.parse` of `Result` is a parameter that gives `None` where it throws.
- A null or non-object SDK answer on a Pages route (where `data.usedRegion = region` throws): answers are modelled as objects.
- RegionFallback.RegionCandidates: the candidate list is read from the environment once, when the module loads. The Pages handler takes the candidates as a parameter.
- The three Pages handlers are one handler with the route as a parameter. They differ only in key, TTL, interface and payload, all of which are modelled.
- `readFileSync` I/O errors: `key.txt` is an optional text, absent when the file does not exist. A read failure is not distinguished from a missing file.
