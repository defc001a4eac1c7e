# TokenEater — a Dafny model of the usage-tracking core

TokenEater is a macOS menu-bar app with desktop widgets. It shows how much
of their Claude usage limits a user has consumed: the five-hour session
window, the seven-day window and the per-model (Sonnet, Opus, OAuth apps)
windows. This project models the logic behind those displays and proves
properties of it:

- the sync and credential-recovery engine: `UsageStore.refresh`, the
  repository's fetch with its token-refresh retry, the "last refused
  token" gate, and how errors reach the store's state;
- the shared record file that app and widget exchange, its migration from
  the legacy App Group container, and what the widget reads back;
- the wire format: decoding of usage buckets and the API client's
  classification of HTTP statuses (including the older cookie/OAuth
  client with its fallback);
- pacing: how far ahead of or behind an even burn rate the user is, its
  zones and its menu-bar rendering;
- threshold notifications: zone transitions, escalation and recovery
  messages, and their notification bodies;
- the settings, theme and update stores, the settings view's actions, the
  menu-bar text renderer, the widget timeline providers and onboarding;
- the reader of `~/.claude.json` that totals token use per model.

Conventions: a `Date` is an `int` number of seconds, a Swift `Double` is a
`real`, and `Int(x)` of a `Double` truncates toward zero (`Decimal.Truncate`).
Localized strings are modelled as their keys with their arguments
(`Localized.Text`). The network, the keychain, the file system,
`UserDefaults`, the notification centre and the clock are inputs: a
recorded HTTP exchange, a keychain object with the token it would return,
a map from paths to files, a map from keys to values, a list of
notifications sent, and a `now` parameter. JSON text is modelled by an
abstract `Json` value, already parsed.

## Model

| member | source | states |
|---|---|---|
| CredentialsFileReader.ReadToken | Shared/Services/CredentialsFileReader.swift:20-30 | a token is returned exactly when the file is JSON with a `claudeAiOauth` object whose `accessToken` is a non-empty string, and it is that string |
| CredentialsFileReader.ReadTokenCases | Shared/Services/CredentialsFileReader.swift:21-29 | a missing or non-JSON file gives nil; an access token is returned unless empty; a credentials object without `accessToken` gives nil |
| CredentialsFileReader.TokenExistsIgnoresContents | Shared/Services/CredentialsFileReader.swift:32-34 | any file that is present counts as existing, whatever it holds, and a readable token implies existence |
| ApiClient.MakeRequest | Shared/Services/APIClient.swift:17-23 | the request is a GET of the usage URL carrying `Bearer <token>` and the `oauth-2025-04-20` beta header |
| ApiClient.SessionFor | Shared/Services/APIClient.swift:6-15 | a SOCKS session is used exactly when a proxy configuration is present and enabled, with its host and port |
| ApiClient.DecodeBody | Shared/Services/APIClient.swift:35 | a 200 body decodes exactly when it is a JSON object |
| ApiClient.FetchClassification | Shared/Services/APIClient.swift:25-41 | only a 200 can succeed, and it does exactly when the body decodes; 401 and 403, and only they, give `tokenExpired`; any other status gives `httpError(status)` |
| ApiClient.TestAgreesWithFetch | Shared/Services/APIClient.swift:43-59 | the connection test succeeds exactly when the fetch would, reporting the truncated five-hour utilization (0 when absent); 401/403 report `test.expired` with the status |
| ApiClient.TestFailureMessages | Shared/Services/APIClient.swift:48-65 | the test never fails by throwing: a non-HTTP response, an unreadable 200, another status and a transport error each map to their own failure message |
| LegacyApiClient.ResolveAuthMethod | Shared/ClaudeAPIClient.swift:22-32 | a keychain OAuth token wins; otherwise cookies are used only when session key and organization id are both non-empty; nil exactly when neither is available |
| LegacyApiClient.RequestFor | Shared/ClaudeAPIClient.swift:44-65 | `invalidURL` exactly when the endpoint text does not parse as a URL; otherwise an OAuth method sends the newer client's request, and a cookie method GETs its organization's usage endpoint with a JSON content type and `sessionKey=<key>` as Cookie |
| LegacyApiClient.LegacyFetchClassification | Shared/ClaudeAPIClient.swift:67-87 | non-HTTP gives `invalidResponse`; a 200 succeeds exactly when the body decodes; 401/403 without a possible fallback give `sessionExpired`; other statuses give `httpError(status)` |
| LegacyApiClient.NoMethodSendsNothing | Shared/ClaudeAPIClient.swift:36-41 | with no usable method `noSessionKey` is thrown and no request is sent |
| LegacyApiClient.InvalidUrlSendsNothing | Shared/ClaudeAPIClient.swift:43-59 | an endpoint that does not parse throws `invalidURL`, described as `error.invalidurl`, and nothing is sent |
| LegacyApiClient.InvalidUrlReported | Shared/ClaudeAPIClient.swift:92-108 | the connection test fails with `error.invalidurl` exactly when the endpoint does not parse, and otherwise reports the exchange of the method's request |
| LegacyApiClient.FallbackBounded | Shared/ClaudeAPIClient.swift:43-84 | at most two requests, none exactly when the endpoint does not parse; the second only after a 401/403 on cookies with a keychain token, and it is the OAuth request for that token; an OAuth request is never retried |
| LegacyApiClient.FallbackNeedsKeychainChange | Shared/ClaudeAPIClient.swift:79-83 | when the keychain reads the same at resolution and at fallback, a single request is sent |
| LegacyApiClient.ClaudeAPIClient.constructor | Shared/ClaudeAPIClient.swift:8-18 | the client starts with the given cache and no request sent |
| LegacyApiClient.ClaudeAPIClient.FetchUsageWith | Shared/ClaudeAPIClient.swift:43-88 | the outcome and the requests sent are those of the fallback model; a success writes the cache with the response and fetch time; a failure leaves the cache |
| LegacyApiClient.ClaudeAPIClient.FetchUsage | Shared/ClaudeAPIClient.swift:36-41 | resolves the method, then fetches with it; the cache is written only on success |
| ClaudeJsonReader.DropDateStamps | Shared/Services/ClaudeJsonReader.swift:59 | what is kept comes from the input and is never an eight-character integer part |
| ClaudeJsonReader.DropDateStampsAppend | Shared/Services/ClaudeJsonReader.swift:59 | the filter works part by part: filtering a concatenation concatenates the filtered halves |
| ClaudeJsonReader.ShortModelName | Shared/Services/ClaudeJsonReader.swift:47-63 | an id outside the opus, sonnet and haiku families comes back unchanged; inside, the families are tried in the order opus, sonnet, haiku and the name starts with the first one the lower-cased id contains |
| ClaudeJsonReader.VersionedShortName | Shared/Services/ClaudeJsonReader.swift:47-63 | `claude-<family>-<v1>-…-<vn>` with numeric version parts is named `<Family> v1.….vn` |
| ClaudeJsonReader.DatedVersionedShortName | Shared/Services/ClaudeJsonReader.swift:56-62 | a trailing 8-digit date is dropped: `claude-sonnet-4-6-20251101` is named `Sonnet 4.6`, and so for every family and numeric version |
| ClaudeJsonReader.DatedVersion | Shared/Services/ClaudeJsonReader.swift:57-60 | the version parts after the first two are the same with or without a trailing eight-digit date stamp |
| ClaudeJsonReader.DatedIdAggregates | Shared/Services/ClaudeJsonReader.swift:47-63 | a dated id of a known family and the same id without the date get the same short name, so their tokens add up together |
| ClaudeJsonReader.UnknownFamilyKeepsId | Shared/Services/ClaudeJsonReader.swift:51-54 | an id whose lower-cased form contains none of the three family names keeps its full name |
| ClaudeJsonReader.UsageTokens | Shared/Services/ClaudeJsonReader.swift:31-35 | an entry that is not an object contributes nothing (its four counters are summed, a missing one as 0) |
| ClaudeJsonReader.Insert | Shared/Services/ClaudeJsonReader.swift:44 | insertion adds exactly the new element to the multiset |
| ClaudeJsonReader.SortDescending | Shared/Services/ClaudeJsonReader.swift:44 | the sort is a permutation of its input |
| ClaudeJsonReader.InsertSorted | Shared/Services/ClaudeJsonReader.swift:44 | inserting into a list sorted by descending tokens keeps it sorted |
| ClaudeJsonReader.SortDescendingSorted | Shared/Services/ClaudeJsonReader.swift:44 | the sort's output is in descending token order |
| ClaudeJsonReader.SortKeepsDistinctNames | Shared/Services/ClaudeJsonReader.swift:44 | sorting entries with distinct names keeps the names distinct |
| ClaudeJsonReader.InsertKeepsDistinctNames | Shared/Services/ClaudeJsonReader.swift:44 | inserting an entry under a new name keeps the names distinct |
| ClaudeJsonReader.AddEntry | Shared/Services/ClaudeJsonReader.swift:30-37 | one model entry adds its tokens to the total of its short name and changes no other total |
| ClaudeJsonReader.AddModelUsage | Shared/Services/ClaudeJsonReader.swift:30-38 | after the inner loop, each short name's total has grown by the sum of the project's entries with that short name |
| ClaudeJsonReader.VisitTotal | Shared/Services/ClaudeJsonReader.swift:42-43 | visiting one more key keeps the entries exactly the positive totals seen so far, with distinct names |
| ClaudeJsonReader.PositiveEntries | Shared/Services/ClaudeJsonReader.swift:41-43 | one entry per name whose total is positive, carrying that total, with distinct names |
| ClaudeJsonReader.AddProject | Shared/Services/ClaudeJsonReader.swift:25-38 | one project's model usage is added to the running totals; a project that is not an object or has no `lastModelUsage` adds nothing |
| ClaudeJsonReader.SumProjects | Shared/Services/ClaudeJsonReader.swift:24-39 | after the outer loop every short name's total is its sum over all projects, whatever order the dictionary yields |
| ClaudeJsonReader.SortedEntriesReport | Shared/Services/ClaudeJsonReader.swift:41-44 | sorting the positive entries gives a report: descending, distinct names, one entry per positive total |
| ClaudeJsonReader.ReadModelStats | Shared/Services/ClaudeJsonReader.swift:18-45 | a missing file, non-JSON file or one without a `projects` object gives the empty list; otherwise exactly the positive per-short-name totals, largest first |
| UsageModels.DecodeBucket | Shared/Models/UsageModels.swift:44-51 | a bucket decodes only from an object with a numeric `utilization`, which it carries |
| UsageModels.DecodeResponse | Shared/Models/UsageModels.swift:32-41 | decoding fails only when the payload is not an object |
| UsageModels.BucketRoundTrip | Shared/Models/UsageModels.swift:44-51 | a bucket encoded by the synthesized encoder decodes back to itself |
| UsageModels.EncodeMembersAt | Shared/Models/UsageModels.swift:13-20 | with distinct wire names, a name is a member of the encoded object exactly when its bucket is present, and holds that bucket's encoding |
| UsageModels.ResponseRoundTrip | Shared/Models/UsageModels.swift:5-41 | a response written out (as the shared file does) decodes back to the same response |
| UsageModels.UnknownKeysIgnored | Shared/Models/UsageModels.swift:13-20 | a member under any name other than the six wire names never changes the decoded response |
| UsageModels.BucketsIndependent | Shared/Models/UsageModels.swift:32-41 | breaking one bucket makes exactly that field nil and leaves the other five as they were |
| UsageModels.MemberAfterBreak | Shared/Models/UsageModels.swift:35-40 | a broken member decodes to nil and every other member decodes as before |
| UsageModels.AllMalformedDecodesEmpty | Shared/Models/UsageModels.swift:33-41 | an object whose buckets are all malformed still decodes, to the response with every bucket nil |
| UsageModels.TolerantDecodeExample | Shared/Models/UsageModels.swift:32-41 | one good bucket, one with a string utilization and an unknown member decode to a response holding only the good bucket |
| UsageModels.ResetsAtDate | Shared/Models/UsageModels.swift:53-63 | a date exactly when `resets_at` is present and one of the two formats parses it; the fractional-seconds result when that form parses, otherwise the plain form's result |
| UsageModels.ProxyConfigDefaults | Shared/UsageModels.swift:80-84 | `ProxyConfig()` is disabled, on host 127.0.0.1, port 1080 |
| DateTime.ParseInternetDateTime | Shared/Models/UsageModels.swift:55-62 | an accepted date-time has at least 20 characters with `T` between date and time |
| DateTime.FormatsDisjoint | Shared/Models/UsageModels.swift:55-62 | no string is accepted by both the fractional and the plain formatter, so trying them in order is unambiguous |
| DateTime.ParseUtc | Shared/Models/UsageModels.swift:60-62 | a plain UTC `YYYY-MM-DDThh:mm:ssZ` reads as the instant its fields name, counted in seconds from 1970 |
| DateTime.FractionDropped | Shared/Models/UsageModels.swift:55-62 | `…:ss.<digits><zone>` read with fractional seconds is the same instant as `…:ss<zone>` read without them |
| DateTime.OffsetShiftsInstant | Shared/Models/UsageModels.swift:55-62 | a numeric zone `±hh:mm` is accepted exactly when the same fields with `Z` are, and gives that instant minus the offset |
| DateTime.PlusOneHour | Shared/Models/UsageModels.swift:55-62 | the zone `+01:00` is 3600 seconds ahead of UTC, so `…+01:00` is one hour before `…Z` |
| Extensions.TrimHash | Shared/Extensions/Extensions.swift:7 | the trimmed string is no longer, starts and ends with something other than `#`, and is empty only when the input was all `#` |
| Extensions.HexRun | Shared/Extensions/Extensions.swift:8-10 | the scanner reads the longest leading run of hexadecimal digits |
| Extensions.HexValue | Shared/Extensions/Extensions.swift:9-10 | the scanned value always fits an unsigned 64-bit integer |
| Extensions.ScanHex | Shared/Extensions/Extensions.swift:8-10 | `scanHexInt64` skips leading whitespace and an optional `0x`/`0X`, then reads the hex digits, leaving a value between 0 and the largest `UInt64` (0 when nothing scans) |
| Extensions.ScanHexWithPrefix | Shared/Extensions/Extensions.swift:8-10 | after leading whitespace, a `0x` or `0X` prefix is skipped and the digits after it are read |
| Extensions.ScanHexWithoutPrefix | Shared/Extensions/Extensions.swift:8-10 | after leading whitespace, without a prefix the digits there are read |
| Extensions.ScanHexNoDigits | Shared/Extensions/Extensions.swift:8-10 | when the first non-blank character is not a hex digit nothing scans and the value is 0 |
| Extensions.PrefixedSixDigitHex | Shared/Extensions/Extensions.swift:6-17 | `0xRRGGBB` gives the same colour as `#RRGGBB` |
| Extensions.Channels | Shared/Extensions/Extensions.swift:12-14 | each of the three masked and shifted channels lies in 0..255 |
| Extensions.HexChannels | Shared/Extensions/Extensions.swift:36-46 | the `NSColor(hex:)` channels are the `Color(hex:)` channels, each in 0..255 |
| Extensions.ByteSplit | Shared/Extensions/Extensions.swift:12-14 | the masks take a 24-bit value apart into exactly the three bytes it was built from |
| Extensions.HexValueSnoc | Shared/Extensions/Extensions.swift:9-10 | one more digit shifts the scanned value by one hexadecimal place while it fits in 64 bits |
| Extensions.SixDigitHex | Shared/Extensions/Extensions.swift:6-17 | `#RRGGBB` gives each pair of digits as one channel, red first |
| Extensions.HoursMinutes | Shared/Extensions/Extensions.swift:56-57 | whole hours and minutes of the interval: minutes in 0..59, and together they are the interval rounded down to the minute |
| Extensions.WidgetResetTimeCases | Shared/Extensions/Extensions.swift:52-59 | "" without a date; `widget.soon` once the date is reached; `{h}h{mm}` with two-digit minutes from an hour on; `{m} min` below an hour |
| Extensions.Pad2 | Shared/Extensions/Extensions.swift:58 | `%02d` of a value below 100 is two digits that read back as that value |
| LegacyExtensions.RelativeFormattedBuckets | Shared/Extensions.swift:22-38 | "a l'instant" up to 0 s, "moins d'une minute" below 60 s, then minutes, hours and days, the buckets starting at 60, 3600 and 86400 s with floor division |
| MenuBarRendering.PctInk | Shared/Helpers/MenuBarRenderer.swift:43-46 | a percentage is drawn in the label colour exactly when the menu bar is monochrome |
| MenuBarRendering.ZoneInk | Shared/Helpers/MenuBarRenderer.swift:48-51 | the pacing dot is drawn in the label colour exactly when the menu bar is monochrome |
| MenuBarRendering.Filter | Shared/Helpers/MenuBarRenderer.swift:68 | a metric survives the filter exactly when it is in the list and pinned |
| MenuBarRendering.FilterKeepsOrder | Shared/Helpers/MenuBarRenderer.swift:68 | filtering a list in drawing order leaves it in drawing order |
| MenuBarRendering.Ordered | Shared/Helpers/MenuBarRenderer.swift:68 | the drawn metrics are exactly the pinned ones, strictly in the order five-hour, seven-day, Sonnet, pacing |
| MenuBarRendering.MetricRuns | Shared/Helpers/MenuBarRenderer.swift:73-107 | a percentage metric draws its short label then its value with "%"; pacing draws the zone-coloured dot, followed by the signed delta only in dot-and-delta mode |
| MenuBarRendering.RenderSpec | Shared/Helpers/MenuBarRenderer.swift:24-38 | every image is 22 points high |
| MenuBarRendering.PlaceholderExactlyWhenUnavailable | Shared/Helpers/MenuBarRenderer.swift:30-34 | "--" is drawn if and only if there is no configuration or there is an error |
| MenuBarRendering.JoinedShape | Shared/Helpers/MenuBarRenderer.swift:69-108 | the metric drawing never contains the placeholder and is non-empty when some metric is pinned |
| MenuBarRendering.JoinedPosition | Shared/Helpers/MenuBarRenderer.swift:69-108 | the runs of the i-th listed metric occur contiguously in the drawing |
| MenuBarRendering.JoinedShowsEach | Shared/Helpers/MenuBarRenderer.swift:69-108 | every listed metric is drawn |
| MenuBarRendering.OrderedIndex | Shared/Helpers/MenuBarRenderer.swift:68 | each pinned metric has a position in the drawing order |
| MenuBarRendering.PinnedMetricIsDrawn | Shared/Helpers/MenuBarRenderer.swift:30-34 | with a configuration and no error, every pinned metric's runs appear in the image |
| MenuBarRendering.LabelRunIsOwn | Shared/Helpers/MenuBarRenderer.swift:101 | a metric's label run is drawn by no other metric |
| MenuBarRendering.JoinedOnlyListed | Shared/Helpers/MenuBarRenderer.swift:69-108 | a metric that is not listed contributes no label run |
| MenuBarRendering.UnpinnedMetricIsNotDrawn | Shared/Helpers/MenuBarRenderer.swift:68 | a metric that is not pinned never shows its label in the image |
| MenuBarRendering.OrderedDefault | Shared/Helpers/MenuBarRenderer.swift:68 | pinning five-hour and seven-day draws them in that order |
| MenuBarRendering.MonochromeRuns | Shared/Helpers/MenuBarRenderer.swift:43-44 | in monochrome, a percentage metric is its label in tertiary colour then its value in the label colour |
| MenuBarRendering.JoinedPair | Shared/Helpers/MenuBarRenderer.swift:69-72 | two metrics are separated by exactly one two-space run |
| MenuBarRendering.DefaultPinnedRuns | Shared/Helpers/MenuBarRenderer.swift:55-108 | five-hour at 42 and seven-day at 10 in monochrome draw "5h 42%  7d 10%" |
| MenuBarRendering.OrderedPacingOnly | Shared/Helpers/MenuBarRenderer.swift:68 | pacing alone is drawn alone |
| MenuBarRendering.JoinedSingle | Shared/Helpers/MenuBarRenderer.swift:69-72 | a single metric is drawn with no separator |
| MenuBarRendering.DeltaRuns | Shared/Helpers/MenuBarRenderer.swift:83-89 | a delta of -7 in dot-and-delta mode is drawn as the dot then " -7%" |
| MenuBarRendering.PacingDeltaRuns | Shared/Helpers/MenuBarRenderer.swift:83-89 | pacing alone with a delta of -7 draws the dot and " -7%" in the zone colour |
| MenuBarRendering.MenuBarRenderer.constructor | Shared/Helpers/MenuBarRenderer.swift:21-22 | the cache starts empty |
| MenuBarRendering.MenuBarRenderer.AppendMetric | Shared/Helpers/MenuBarRenderer.swift:73-107 | one loop iteration appends exactly the metric's runs |
| MenuBarRendering.MenuBarRenderer.AppendAll | Shared/Helpers/MenuBarRenderer.swift:69-108 | the drawing loop produces the joined runs of the ordered metrics |
| MenuBarRendering.MenuBarRenderer.RenderPinnedMetrics | Shared/Helpers/MenuBarRenderer.swift:55-119 | the pinned-metrics image is the specified rendering |
| MenuBarRendering.MenuBarRenderer.Render | Shared/Helpers/MenuBarRenderer.swift:24-39 | the result is the specified image whether or not the cache hit, and the cache then holds this data and its image |
| Metrics.MetricFromRaw | Shared/Models/MetricModels.swift:3-7 | a raw string names a metric exactly when it is that metric's raw value |
| Metrics.MetricRawRoundTrip | Shared/Models/MetricModels.swift:3-7 | decoding a metric's raw value gives the metric back |
| Metrics.MetricNamesDistinct | Shared/Models/MetricModels.swift:3-25 | different metrics have different raw values and different short labels |
| Metrics.AllMetricsEnumerates | Shared/Models/MetricModels.swift:3 | the case list holds all four metrics |
| Metrics.PacingDisplayModeFromRaw | Shared/Models/MetricModels.swift:28-31 | only "dot" and "dotDelta" name a display mode, and decoding inverts the raw value |
| NotificationBody.FormatCountdownCases | Shared/Helpers/NotificationBodyFormatter.swift:77-94 | a past or present target reads "now"; a day or more gives whole days and the remaining hours, which add up to the interval within an hour; under a day gives "Hh Mmin"; under an hour gives "Mmin" |
| NotificationBody.EscalationBody | Shared/Helpers/NotificationBodyFormatter.swift:19-22 | without a future reset time, or at green, the body is the level's fallback |
| NotificationBody.RecoveryBody | Shared/Helpers/NotificationBodyFormatter.swift:60-63 | without a future reset time the recovery body is the generic one |
| NotificationBody.EscalationRouting | Shared/Helpers/NotificationBodyFormatter.swift:24-51 | with a future reset, the key follows level and metric type, an orange session alert picks one of three distinct keys by pacing zone (no zone counts as on track), and the orange fallback carries the warning percentage |
| NotificationBody.RecoveryRouting | Shared/Helpers/NotificationBodyFormatter.swift:61-72 | a future reset names the time (session) or date and time (weekly); a past one gives the generic body |
| Notifications.LevelFrom | Shared/Services/NotificationService.swift:15-19 | red exactly at or above the critical percentage, orange exactly from the warning percentage up to below critical, green below both |
| Notifications.LevelFromRaw | Shared/Services/NotificationService.swift:6-9 | only the raw values 0, 1 and 2 name a level, and decoding inverts the raw value |
| Notifications.LevelOrder | Shared/Services/NotificationService.swift:6-13 | green < orange < red, the order is strict and total, and a level's raw value decodes back to it |
| Notifications.LevelFromMonotone | Shared/Services/NotificationService.swift:15-19 | with warning at or below critical, a higher percentage never gives a lower level |
| Notifications.TransitionCases | Shared/Services/NotificationService.swift:86-95 | nothing happens exactly when the level is unchanged; an alert escalates exactly when the level rises; a recovery is sent exactly on a return to green; red to orange is persisted silently |
| Notifications.StoredLevel | Shared/Services/NotificationService.swift:81-83 | a level never stored reads as green |
| Notifications.CheckPersistsEveryChange | Shared/Services/NotificationService.swift:73-96 | an unchanged level leaves the store and sends nothing; a change stores the new raw value under "lastLevel_" and the metric, touches no other key, and sends at most one request: an escalation exactly when the level rose, a recovery only on return to green |
| Notifications.ZoneOnlyReachesSession | Shared/Services/NotificationService.swift:58-71 | the pacing zone changes neither the store, the number of alerts nor any alert other than the session's |
| Notifications.CheckZoneOnlyInBody | Shared/Services/NotificationService.swift:73-96 | the pacing zone affects neither the store nor the number of alerts, and every alert is for the metric checked |
| Notifications.ThresholdsStoreEachLevel | Shared/Services/NotificationService.swift:58-71 | after the three checks each metric's stored level is its current level |
| Notifications.LevelKeysDistinct | Shared/Services/NotificationService.swift:81 | distinct metrics store their levels under distinct keys |
| Notifications.CheckLeavesOtherMetrics | Shared/Services/NotificationService.swift:81-87 | checking one metric leaves every other metric's stored level as it was |
| Notifications.ReplayExample | Shared/Services/NotificationService.swift:86-95 | 10, 10, 65, 65, 90, 40 at 60/85 from a fresh install send exactly an orange escalation, a red escalation and a recovery |
| Notifications.ReplaySkipsSameLevel | Shared/Services/NotificationService.swift:86 | a reading at the stored level changes nothing for the readings after it |
| Notifications.ReplayFromGreen | Shared/Services/NotificationService.swift:98-138 | from nothing stored, 65, 65, 90, 40 send the orange alert with 60 in its body, the red alert and the generic recovery, in that order |
| Notifications.ReplayFromOrange | Shared/Services/NotificationService.swift:86-95 | with orange stored, 65, 90, 40 send the red alert then the recovery |
| Notifications.NotificationService.constructor | Shared/Services/NotificationService.swift:34-35 | a new service has sent nothing |
| Notifications.NotificationService.Check | Shared/Services/NotificationService.swift:73-143 | the defaults and the delivered requests become exactly those of the threshold check's specification |
| Notifications.NotificationService.CheckThresholds | Shared/Services/NotificationService.swift:58-71 | the three metrics are checked in order, five-hour with the zone, the others without |
| LegacyNotifications.LegacyLevelFrom | Shared/UsageNotificationManager.swift:13-17 | red from 85, orange from 60 up to 84, green below 60 |
| LegacyNotifications.LegacyIsDefaultThresholds | Shared/UsageNotificationManager.swift:13-17 | the fixed classifier is the configurable one at 60/85 |
| LegacyNotifications.LegacyAgreesWithService | Shared/UsageNotificationManager.swift:33-77 | the older check stores the same levels and sends the same requests as the newer one, bodies aside |
| LegacyNotifications.UsageNotificationManager.constructor | Shared/UsageNotificationManager.swift:20-21 | a new manager has sent nothing |
| LegacyNotifications.UsageNotificationManager.Check | Shared/UsageNotificationManager.swift:33-86 | the defaults and delivered requests become those of the older check's specification |
| LegacyNotifications.UsageNotificationManager.CheckThresholds | Shared/UsageNotificationManager.swift:27-31 | the three metrics are checked in order, each under its own key |
| Onboarding.OnboardingStep.RawValue | TokenEaterApp/OnboardingViewModel.swift:4-9 | every step's raw value lies in 0..3 |
| Onboarding.StepFromRaw | TokenEaterApp/OnboardingViewModel.swift:4-9 | exactly the raw values 0 to 3 name a step, and decoding inverts the raw value |
| Onboarding.RawValueRoundTrip | TokenEaterApp/OnboardingViewModel.swift:4-9 | a step's raw value decodes back to the step |
| Onboarding.StepNavigation | TokenEaterApp/OnboardingViewModel.swift:110-122 | next adds one to the raw value except at connection, where it stays; back subtracts one except at welcome, where it stays |
| Onboarding.BackUndoesNext | TokenEaterApp/OnboardingViewModel.swift:110-122 | back undoes next away from the last step, and next undoes back away from the first |
| Onboarding.AdvanceStopsAtConnection | TokenEaterApp/OnboardingViewModel.swift:110-115 | n presses of next reach raw value min(raw + n, 3) |
| Onboarding.StatusFor | TokenEaterApp/OnboardingViewModel.swift:62-71 | authorized, provisional and ephemeral read as authorized, denied as denied, not determined as not yet asked, and anything else as unknown, each in both directions |
| Onboarding.ConnectSpec | TokenEaterApp/OnboardingViewModel.swift:86-104 | connect always ends in success or failure, never idle or connecting |
| Onboarding.ConnectWithoutTokenFetchesNothing | TokenEaterApp/OnboardingViewModel.swift:88-93 | with no token anywhere, connect fails with the no-token message, changes nothing and makes no request |
| Onboarding.ConnectUsesKeychainToken | TokenEaterApp/OnboardingViewModel.swift:88-101 | a keychain token is used for the first request, and connect succeeds exactly when the refresh does, with its usage |
| Onboarding.OnboardingViewModel.constructor | TokenEaterApp/OnboardingViewModel.swift:33-50 | a new model is at welcome, checking, idle and unknown |
| Onboarding.OnboardingViewModel.GoNext | TokenEaterApp/OnboardingViewModel.swift:110-115 | the step becomes the next one and nothing else changes |
| Onboarding.OnboardingViewModel.GoBack | TokenEaterApp/OnboardingViewModel.swift:117-122 | the step becomes the previous one and nothing else changes |
| Onboarding.OnboardingViewModel.CheckClaudeCode | TokenEaterApp/OnboardingViewModel.swift:52-53 | the Claude Code status becomes checking |
| Onboarding.OnboardingViewModel.ClaudeCodeChecked | TokenEaterApp/OnboardingViewModel.swift:54-56 | the status becomes detected exactly when a token exists, otherwise not found |
| Onboarding.OnboardingViewModel.CheckNotificationStatus | TokenEaterApp/OnboardingViewModel.swift:59-73 | the notification status becomes the mapped authorization status |
| Onboarding.OnboardingViewModel.Connect | TokenEaterApp/OnboardingViewModel.swift:86-104 | the connection status, the shared file and the requests made become those of the specification |
| Pacing.Clamp01 | Shared/PacingCalculator.swift:37 | the clamped share lies in 0..1 and a share already in 0..1 is unchanged |
| Pacing.ZoneOf | Shared/PacingCalculator.swift:42-53 | chill exactly below -10, hot exactly above 10, on track from -10 to 10 inclusive |
| Pacing.Calculate | Shared/PacingCalculator.swift:29-66 | there is no result exactly when the weekly bucket or its reset date is missing; otherwise the actual usage is the bucket's utilization, the expected usage lies in 0..100, the delta is actual minus expected and the zone is the delta's zone |
| Pacing.ExpectedUsageFollowsElapsedTime | Shared/PacingCalculator.swift:34-39 | the expected usage is 0 before the week began, 100 once it has ended, and the elapsed share of the week times 100 in between |
| Pacing.ZoneSign | Shared/PacingCalculator.swift:40-53 | hot means a positive delta and chill a negative one |
| Pacing.HalfwayExamples | Shared/PacingCalculator.swift:34-53 | halfway through the week 50 is expected: 60 and 40 are on track, 61 is hot and 39 is chill |
| SettingsStores.PinnedFrom | Shared/Stores/SettingsStore.swift:61-65 | without a saved list the pinned set is five-hour and seven-day; otherwise a metric is pinned exactly when its raw value is saved, unknown strings being dropped |
| SettingsStores.PinnedRoundTrip | Shared/Stores/SettingsStore.swift:61-82 | a saved pinned set reads back as the same set, whatever order it was saved in |
| SettingsStores.ToggleCases | Shared/Stores/SettingsStore.swift:70-78 | an absent metric is added, a present one removed unless it is the last, no other metric changes, and a non-empty set never becomes empty |
| SettingsStores.ToggleTwice | Shared/Stores/SettingsStore.swift:70-78 | toggling a metric twice restores a non-empty set |
| SettingsStores.LoadAppSettings | Shared/Stores/SettingsStore.swift:49-65 | the port is always positive and each missing key gives its default: menu bar shown, five-hour and seven-day pinned, dot-and-delta, host 127.0.0.1, port 1080, proxy off, onboarding not completed |
| SettingsStores.AppSettingsRoundTrip | Shared/Stores/SettingsStore.swift:8-30 | what the observers persist is what the next start reads back, for a positive port |
| SettingsStores.SettingsStore.constructor | Shared/Stores/SettingsStore.swift:42-66 | the properties are those read from the defaults |
| SettingsStores.SettingsStore.SavePinnedMetrics | Shared/Stores/SettingsStore.swift:80-82 | only the pinned key changes, and it holds each pinned raw value once |
| SettingsStores.SettingsStore.ToggleMetric | Shared/Stores/SettingsStore.swift:70-78 | only the pinned set changes, as the toggle says; a changed set is saved under its key and every other defaults key is untouched, an unchanged one writes nothing |
| SettingsStores.SettingsStore.SetPinnedMetrics | Shared/Stores/SettingsStore.swift:11-13 | assigning the pinned set saves exactly that set under its key and changes no other key |
| SettingsStores.SettingsStore.SetShowMenuBar | Shared/Stores/SettingsStore.swift:8-10 | the property and its key change and nothing else |
| SettingsStores.SettingsStore.SetPacingDisplayMode | Shared/Stores/SettingsStore.swift:14-16 | the mode and its raw value under its key change and nothing else |
| SettingsStores.SettingsStore.SetHasCompletedOnboarding | Shared/Stores/SettingsStore.swift:17-19 | the property and its key change and nothing else |
| SettingsStores.SettingsStore.SetProxyEnabled | Shared/Stores/SettingsStore.swift:22-24 | the property and its key change and nothing else |
| SettingsStores.SettingsStore.SetProxyHost | Shared/Stores/SettingsStore.swift:25-27 | the property and its key change and nothing else |
| SettingsStores.SettingsStore.SetProxyPort | Shared/Stores/SettingsStore.swift:28-30 | the property and its key change and nothing else |
| SettingsViewHandlers.AfterWarningSlider | TokenEaterApp/SettingsView.swift:526-534 | the warning threshold takes the slider value, and a critical threshold above it is left alone |
| SettingsViewHandlers.AfterCriticalSlider | TokenEaterApp/SettingsView.swift:535-543 | the critical threshold takes the slider value, and a warning threshold below it is left alone |
| SettingsViewHandlers.HandlersKeepThresholdsOrdered | TokenEaterApp/SettingsView.swift:526-543 | within the slider ranges, either handler leaves warning strictly below critical, both within range |
| SettingsViewHandlers.HandlerEchoIsFixedPoint | TokenEaterApp/SettingsView.swift:526-552 | when a handler moves the other threshold, that slider's own handler then changes nothing |
| SettingsViewHandlers.SyncMetricCases | TokenEaterApp/SettingsView.swift:558-566 | turning on pins the metric; turning off unpins it unless it is the last, in which case the toggle is reverted and the set kept; the set never becomes empty, and the handler agrees with the store's toggle |
| SettingsViewHandlers.OnWarningSliderChange | TokenEaterApp/SettingsView.swift:526-534 | the theme store's thresholds become the handler's result and its other settings are unchanged; every defaults key but the two threshold keys is unchanged, a threshold that changed is saved under its key, each threshold key either holds its threshold's new value or is as it was, and within the slider range a move that changes neither threshold writes nothing |
| SettingsViewHandlers.OnCriticalSliderChange | TokenEaterApp/SettingsView.swift:535-543 | the theme store's thresholds become the handler's result and its other settings are unchanged; every defaults key but the two threshold keys is unchanged, a threshold that changed is saved under its key, each threshold key either holds its threshold's new value or is as it was, and within the slider range a move that changes neither threshold writes nothing |
| SettingsViewHandlers.SyncMetricToggle | TokenEaterApp/SettingsView.swift:558-566 | the pinned set and the revert follow the handler and nothing else in the settings changes; a revert leaves the defaults untouched, otherwise the new set is saved under its key and no other key changes |
| LegacySettingsView.LoadPinned | ClaudeUsageApp/SettingsView.swift:371-379 | without a saved list the toggles stay; otherwise each toggle is whether its raw value was saved |
| LegacySettingsView.SavedListShape | ClaudeUsageApp/SettingsView.swift:381-388 | the saved list is never empty, has no duplicates and follows the fixed order |
| LegacySettingsView.SavedListContents | ClaudeUsageApp/SettingsView.swift:381-388 | the list holds exactly the enabled metrics, and the toggles change only when all were off, which turns five-hour back on |
| LegacySettingsView.SavedHoldsEnabled | ClaudeUsageApp/SettingsView.swift:381-388 | a metric's raw value is saved exactly when its toggle is on after saving |
| LegacySettingsView.SaveLoadRoundTrip | ClaudeUsageApp/SettingsView.swift:371-388 | what was saved loads back as the toggles left after saving |
| LegacySettingsView.PinnedMetricToggles.constructor | ClaudeUsageApp/SettingsView.swift:22-25 | five-hour and seven-day start on, Sonnet and pacing off |
| LegacySettingsView.PinnedMetricToggles.LoadPinnedMetrics | ClaudeUsageApp/SettingsView.swift:371-379 | the toggles become those loaded from the defaults |
| LegacySettingsView.PinnedMetricToggles.SavePinnedMetrics | ClaudeUsageApp/SettingsView.swift:381-390 | the defaults gain the saved list under its key, the toggles become those after saving, and `displaySettingsDidChange` is posted once |
| LegacySettingsView.PinnedMetricToggles.OnPacingDisplayModeChange | ClaudeUsageApp/SettingsView.swift:196-198 | a change of pacing display mode posts `displaySettingsDidChange` once and leaves the toggles |
| SharedFile.LoadFrom | Shared/Services/SharedFileService.swift:63-68 | a missing or undecodable file loads as the empty record; a decodable one loads as its record |
| SharedFile.MigrationNoOpWithoutOldFile | Shared/Services/SharedFileService.swift:38 | without the old file, migration changes nothing |
| SharedFile.MigrationEffect | Shared/Services/SharedFileService.swift:33-50 | migration never overwrites an existing new file, copies the old file when there is no new one, removes the whole old directory and touches nothing else |
| SharedFile.MigrationIdempotent | Shared/Services/SharedFileService.swift:31-32 | running the migration again changes nothing |
| SharedFile.SaveLoadRoundTrip | Shared/Services/SharedFileService.swift:63-74 | a saved record is what the next load returns |
| SharedFile.ThemeOf | Shared/Services/SharedFileService.swift:97-99 | a record without a theme reads the default theme |
| SharedFile.ThresholdsOf | Shared/Services/SharedFileService.swift:101-103 | a record without thresholds reads the default thresholds |
| SharedFile.SharedFileService.constructor | Shared/Services/SharedFileService.swift:27-29 | the disk is the migrated one |
| SharedFile.SharedFileService.Save | Shared/Services/SharedFileService.swift:70-74 | only the new file changes, to the record |
| SharedFile.SharedFileService.IsConfigured | Shared/Services/SharedFileService.swift:78 | configured exactly when the stored record has a token |
| SharedFile.SharedFileService.SetOAuthToken | Shared/Services/SharedFileService.swift:80-87 | only the token of the stored record changes |
| SharedFile.SharedFileService.UpdateAfterSync | Shared/Services/SharedFileService.swift:109-114 | only the cache and the sync date change, in one write |
| SharedFile.SharedFileService.UpdateTheme | Shared/Services/SharedFileService.swift:116-121 | only the theme and the thresholds change |
| SharedFile.SharedFileService.UpdateModelStats | Shared/Services/SharedFileService.swift:123-127 | only the model statistics change |
| SharedFile.SharedFileService.Clear | Shared/Services/SharedFileService.swift:129-131 | the empty record is saved |
| LegacySharedContainer.LegacyLoad | Shared/SharedContainer.swift:28-33 | a missing or undecodable file loads as the empty record |
| LegacySharedContainer.MigrationCarriesLegacyRecord | Shared/Services/SharedFileService.swift:54-68 | what the older app saved is what the newer service reads after migrating, with no theme |
| LegacySharedContainer.LegacyRoundTrip | Shared/SharedContainer.swift:28-39 | a saved record is what the next load returns |
| LegacySharedContainer.SharedContainer.constructor | Shared/SharedContainer.swift:3-5 | the container reads the given disk |
| LegacySharedContainer.SharedContainer.Save | Shared/SharedContainer.swift:35-39 | only the old-path file changes, to the record |
| LegacySharedContainer.SharedContainer.IsConfigured | Shared/SharedContainer.swift:85-87 | configured exactly when the stored record has a token |
| LegacySharedContainer.SharedContainer.SetOAuthToken | Shared/SharedContainer.swift:43-50 | only the token changes |
| LegacySharedContainer.SharedContainer.SetCachedUsage | Shared/SharedContainer.swift:54-61 | only the cached usage changes |
| LegacySharedContainer.SharedContainer.SetLastSyncDate | Shared/SharedContainer.swift:65-72 | only the sync date changes |
| LegacySharedContainer.SharedContainer.UpdateAfterSync | Shared/SharedContainer.swift:76-81 | the cache and the sync date change in one write and the token is kept |
| LegacySharedContainer.SharedContainer.Clear | Shared/SharedContainer.swift:89-91 | the empty record is saved, so the container is no longer configured |
| UserDefaultsStore.IntegerIn | Shared/Stores/SettingsStore.swift:54 | a missing key reads as 0 and a stored integer as itself |
| UserDefaultsStore.BoolIn | Shared/Stores/SettingsStore.swift:50-51 | a missing key reads as false and a stored Bool as itself |
| UserDefaultsStore.OptionalBoolIn | Shared/Stores/SettingsStore.swift:49 | there is a value exactly when a Bool is stored |
| UserDefaultsStore.StringIn | Shared/Stores/SettingsStore.swift:52 | there is a value exactly when a string is stored |
| UserDefaultsStore.StringArrayIn | Shared/Stores/SettingsStore.swift:61 | there is a value exactly when a string array is stored |
| UserDefaultsStore.SetGetRoundTrip | Shared/Stores/SettingsStore.swift:8-30 | a value written under a key is what the getter of its kind reads back |
| UserDefaultsStore.UserDefaults.Set | Shared/Stores/SettingsStore.swift:9 | only the key written changes |
| ThemeModels.FirstPreset | Shared/Models/ThemeModels.swift:68-70 | there is no palette exactly when no entry has the key; a palette found belongs to an entry with that key, and the first entry wins |
| ThemeModels.PresetTable | Shared/Models/ThemeModels.swift:17-70 | "default", "monochrome", "neon" and "pastel" name their palettes, and exactly these four keys name one |
| ThemeModels.GaugeLevelOf | Shared/Models/ThemeModels.swift:74-78 | critical exactly at or above the critical percentage, warning exactly from warning up to below critical, normal below both |
| ThemeModels.GaugeColor | Shared/Models/ThemeModels.swift:98-102 | the gauge colour is the palette's critical, warning or normal entry by those bands |
| ThemeModels.GaugeLevelMonotone | Shared/Models/ThemeModels.swift:74-78 | a higher percentage never takes a lower gauge level |
| ThemeModels.DefaultThresholdBands | Shared/Models/ThemeModels.swift:115-119 | at 60/85, below 60 is normal, 60 up to 85 warning, and 85 and above critical |
| ThemeStores.EncodeTheme | Shared/Models/ThemeModels.swift:5 | a palette encodes as a JSON object |
| ThemeStores.StringMember | Shared/Stores/ThemeStore.swift:60-62 | a member reads as a string exactly when the object has that key holding a string |
| ThemeStores.DecodeTheme | Shared/Stores/ThemeStore.swift:60-62 | only a JSON object can decode to a palette |
| ThemeStores.ThemeJsonRoundTrip | Shared/Stores/ThemeStore.swift:14-22 | a saved custom palette decodes to itself |
| ThemeStores.ThemeJsonNeedsEveryField | Shared/Stores/ThemeStore.swift:60-66 | a palette missing one colour does not decode |
| ThemeStores.LoadThemeSettings | Shared/Stores/ThemeStore.swift:46-67 | missing keys give "default", 60, 85, the default palette and colour; the thresholds are always positive |
| ThemeStores.ThemeSettingsRoundTrip | Shared/Stores/ThemeStore.swift:7-67 | persisted settings are those the next store starts with, a non-positive threshold coming back as its default |
| ThemeStores.ResolveCases | Shared/Stores/ThemeStore.swift:71-74 | "custom" gives the custom palette, the preset keys their palettes, any other key the default, and the custom palette matters only under "custom" |
| ThemeStores.MenuBarColorCases | Shared/Stores/ThemeStore.swift:82-90 | the label colour is used exactly in monochrome; otherwise the gauge colour is the current palette's entry for the level under the store's thresholds |
| ThemeStores.DefaultsResolve | Shared/Stores/ThemeStore.swift:94-101 | after a reset the default palette and 60/85 decide the menu-bar colour |
| ThemeStores.ThemeStore.constructor | Shared/Stores/ThemeStore.swift:46-67 | the properties are those read from the defaults |
| ThemeStores.ThemeStore.Current | Shared/Stores/ThemeStore.swift:71-74 | the current palette is the resolved one |
| ThemeStores.ThemeStore.MenuBarNSColor | Shared/Stores/ThemeStore.swift:82-85 | the menu-bar gauge colour is the specified one for the store's settings |
| ThemeStores.ThemeStore.MenuBarPacingNSColor | Shared/Stores/ThemeStore.swift:87-90 | the menu-bar pacing colour is the specified one for the store's settings |
| ThemeStores.ThemeStore.SetSelectedPreset | Shared/Stores/ThemeStore.swift:7-12 | the property and its key change and nothing else |
| ThemeStores.ThemeStore.SetCustomTheme | Shared/Stores/ThemeStore.swift:14-22 | the palette and its JSON under its key change and nothing else |
| ThemeStores.ThemeStore.SetWarningThreshold | Shared/Stores/ThemeStore.swift:24-29 | the property and its key change and nothing else |
| ThemeStores.ThemeStore.SetCriticalThreshold | Shared/Stores/ThemeStore.swift:31-36 | the property and its key change and nothing else |
| ThemeStores.ThemeStore.SetMenuBarMonochrome | Shared/Stores/ThemeStore.swift:38-42 | the property and its key change and nothing else |
| ThemeStores.ThemeStore.SyncToSharedFile | Shared/Stores/ThemeStore.swift:116-119 | only the theme and thresholds of the shared record change, to the current palette and thresholds |
| ThemeStores.ThemeStore.ResetToDefaults | Shared/Stores/ThemeStore.swift:94-101 | every setting is back to its default, each persisted, and the defaults reach the shared file |
| UpdateServices.CheckRequest | Shared/Services/UpdateService.swift:26-28 | the check asks GitHub's latest-release endpoint of the repository with the GitHub JSON Accept header |
| UpdateServices.RequiredString | Shared/Models/UpdateModels.swift:3-16 | a required member decodes exactly when it is present as a string |
| UpdateServices.OptionalString | Shared/Models/UpdateModels.swift:3-16 | an optional member is nil exactly when absent or null and a value exactly when a string |
| UpdateServices.DecodeAsset | Shared/Models/UpdateModels.swift:19-27 | only a JSON object decodes to an asset |
| UpdateServices.DecodeAssets | Shared/Models/UpdateModels.swift:8 | the asset list decodes exactly when every element does, element by element |
| UpdateServices.DecodeRelease | Shared/Models/UpdateModels.swift:3-16 | a release decodes only from an object with tag_name, html_url and assets |
| UpdateServices.EncodeAssets | Shared/Models/UpdateModels.swift:8 | every asset becomes its JSON, in order |
| UpdateServices.AssetsRoundTrip | Shared/Models/UpdateModels.swift:19-27 | an asset list decodes back from its JSON |
| UpdateServices.ReleaseRoundTrip | Shared/Models/UpdateModels.swift:3-16 | every release decodes back from its JSON |
| UpdateServices.CompactParse | Shared/Services/UpdateService.swift:90-91 | never longer than the components, exactly as long when every component parses, and every value kept is the parse of some component |
| UpdateServices.CompactParseSingle | Shared/Services/UpdateService.swift:90-91 | one component gives its `Int` value, or nothing when `Int(_:)` rejects it |
| UpdateServices.CompactParseAppend | Shared/Services/UpdateService.swift:90-91 | the parse of joined component lists is the joined parses, so the values keep the components' order |
| UpdateServices.IsNewer | Shared/Services/UpdateService.swift:89-99 | the loop answers the reference ordering on the parsed components |
| UpdateServices.NewerParts | Shared/Services/UpdateService.swift:92-98 | the comparison loop decides exactly as the first differing component, missing ones read as 0 |
| UpdateServices.NewerAtFirstDifference | Shared/Services/UpdateService.swift:92-96 | a remote larger at the first difference is newer |
| UpdateServices.NotNewerWhenEqual | Shared/Services/UpdateService.swift:92-98 | versions equal in every component are not newer |
| UpdateServices.NotNewerAfterSmaller | Shared/Services/UpdateService.swift:92-97 | a remote smaller at the first difference is not newer |
| UpdateServices.NewerIrreflexive | Shared/Services/UpdateService.swift:89-99 | no version is newer than itself |
| UpdateServices.NewerAsymmetric | Shared/Services/UpdateService.swift:89-99 | of two versions at most one is newer than the other |
| UpdateServices.TrailingZeroIrrelevant | Shared/Services/UpdateService.swift:92-94 | a trailing zero component changes no comparison |
| UpdateServices.NumericNotTextual | Shared/Services/UpdateService.swift:90-96 | components compare as numbers: 1.10 is newer than 1.9 and not the other way |
| UpdateServices.StripV | Shared/Services/UpdateService.swift:37-39 | one leading "v" is dropped and any other tag is kept |
| UpdateServices.FirstDmg | Shared/Services/UpdateService.swift:49 | the asset chosen is the first whose name ends in ".dmg", and there is none exactly when no name does |
| UpdateServices.CheckOutcomeOffers | Shared/Services/UpdateService.swift:32-56 | an update is offered only from a decodable 200 release that is newer than the running version and has a valid page URL; it carries the stripped version, the notes, the page and, when present, the first dmg's download address |
| UpdateServices.SameVersionNotOffered | Shared/Services/UpdateService.swift:41-43 | the running version's own release is not offered |
| UpdateServices.CheckOutcomeErrors | Shared/Services/UpdateService.swift:30-34 | only a 200 can succeed; a transport error keeps its description; a non-HTTP or non-200 answer is an invalid response |
| UpdateServices.CheckForUpdate | Shared/Services/UpdateService.swift:25-57 | the check returns the specified outcome for the running version |
| UpdateServices.Pasteboard.constructor | Shared/Services/UpdateService.swift:67-68 | the pasteboard starts with the given contents |
| UpdateServices.LaunchBrewUpdate | Shared/Services/UpdateService.swift:61-85 | the launch fails, with the launch error, exactly when the script does not compile; the manual command is on the pasteboard when the script does not compile or its execution fails, and the pasteboard is untouched otherwise |
| UpdateStores.CheckSettled | Shared/Stores/UpdateStore.swift:40-64 | after an answer the store is not checking; an error is shown exactly for a failed check the user asked for; a failure leaves the defaults alone and an answer records the check time |
| UpdateStores.SkipSpec | Shared/Stores/UpdateStore.swift:84-87 | skipping closes the modal, remembers the shown version and changes no other key |
| UpdateStores.PerformSpec | Shared/Stores/UpdateStore.swift:67-82 | the app quits and updating stays on exactly when the script compiles, an error is shown otherwise, and the modal closes on success |
| UpdateStores.ThrottleWindow | Shared/Stores/UpdateStore.swift:35-38 | a throttled background check changes nothing, an unthrottled one settles the service's answer, and a user's check is never throttled |
| UpdateStores.AnsweredCheckStartsWindow | Shared/Stores/UpdateStore.swift:45-55 | an answered check records its time, throttles background checks for six hours after it and no longer |
| UpdateStores.BackgroundFailureIsSilent | Shared/Stores/UpdateStore.swift:60-64 | a failed background check shows no error, records nothing and leaves the update flags |
| UpdateStores.UserCheckReportsFailure | Shared/Stores/UpdateStore.swift:60-63 | a failed check the user asked for shows the error's description |
| UpdateStores.UserCheckShowsUpdate | Shared/Stores/UpdateStore.swift:51-59 | an update found by the user's check opens the modal with its version |
| UpdateStores.SkippedVersionStaysQuiet | Shared/Stores/UpdateStore.swift:57-59 | after skipping a version, a background check finding it again does not open the modal but still marks an update available |
| UpdateStores.NewerThanSkippedIsShown | Shared/Stores/UpdateStore.swift:57-59 | a version other than the skipped one opens the modal on a background check |
| UpdateStores.UpdateStore.constructor | Shared/Stores/UpdateStore.swift:9-16 | a new store shows no update, no error and nothing in progress |
| UpdateStores.UpdateStore.CheckForUpdate | Shared/Stores/UpdateStore.swift:35-65 | the state and defaults become those of the specified check |
| UpdateStores.UpdateStore.Check | Shared/Stores/UpdateStore.swift:40-64 | past the throttle, the state and defaults become those settled with the service's answer |
| UpdateStores.UpdateStore.Settle | Shared/Stores/UpdateStore.swift:44-64 | the answer is settled into the state and the defaults as specified |
| UpdateStores.UpdateStore.PerformUpdate | Shared/Stores/UpdateStore.swift:67-82 | the state and the quit follow the specification, and the pasteboard as the service leaves it |
| UpdateStores.UpdateStore.SkipCurrentUpdate | Shared/Stores/UpdateStore.swift:84-87 | the state and defaults become those of the skip |
| UpdateStores.UpdateStore.DismissUpdate | Shared/Stores/UpdateStore.swift:89-91 | only the modal closes |
| UsageRepositories.RecoveryRetriesAtMostOnce | Shared/Repositories/UsageRepository.swift:43-94 | a refresh calls the API at most twice, not at all without a stored token and first with the stored one; a second call follows only an expired first token and uses a different silently read one; an expired token with nothing in the keychain is a locked keychain, and with the same token stays expired, the record unchanged in both |
| UsageRepositories.RefreshEffectOnRecord | Shared/Repositories/UsageRepository.swift:45-94 | only a successful fetch writes the cache, the sync date and the model statistics, with the token last used; theme and thresholds are never touched; the token changes only to the silently read one after a retry |
| UsageRepositories.KeychainService.constructor | Shared/Services/KeychainService.swift:6-14 | the two reads return the given tokens |
| UsageRepositories.UsageRepository.constructor | Shared/Repositories/UsageRepository.swift:8-16 | a new repository has made no request |
| UsageRepositories.UsageRepository.IsConfigured | Shared/Repositories/UsageRepository.swift:31-33 | configured exactly when there is a current token |
| UsageRepositories.UsageRepository.SyncKeychainToken | Shared/Repositories/UsageRepository.swift:18-22 | a token found by the interactive read replaces the stored one; otherwise nothing changes |
| UsageRepositories.UsageRepository.SyncKeychainTokenSilently | Shared/Repositories/UsageRepository.swift:24-29 | a token found by the silent read replaces the stored one; otherwise nothing changes, and no other file is touched |
| UsageRepositories.UsageRepository.RefreshUsage | Shared/Repositories/UsageRepository.swift:45-61 | the result, the shared record and the requests made are those of the specified refresh |
| UsageRepositories.UsageRepository.AttemptSilentTokenRecovery | Shared/Repositories/UsageRepository.swift:72-94 | the result, the shared record and the requests made are those of the specified recovery |
| UsageRepositories.UsageRepository.TestConnection | Shared/Repositories/UsageRepository.swift:63-68 | without a token the test fails with the no-token message; otherwise it is the client's test of the current token |
| UsageStores.Pct | Shared/Stores/UsageStore.swift:134-136 | a missing bucket shows 0, and a non-negative utilization shows its whole part |
| UsageStores.ResetText | Shared/Stores/UsageStore.swift:138-149 | no reset gives an empty text, a past reset "now", an hour or more "Hh Mmin", and less "Mmin" |
| UsageStores.UpdateFrom | Shared/Stores/UsageStore.swift:133-156 | the three percentages always follow the response; the five-hour countdown is the reset text for the bucket's reset date at `now`; when pacing can be computed the result, its zone and its delta truncated toward zero are shown, and otherwise all three are kept; the token, error, configuration, loading flag and last update time are untouched |
| UsageStores.ErrorStateOf | Shared/Stores/UsageStore.swift:68-80 | an expired token and a locked keychain are shown as themselves, anything else as a network error, never as no error |
| UsageStores.Settle | Shared/Stores/UsageStore.swift:55-80 | a failure records its error, remembers the token only when it expired and checks no thresholds; a success clears the error and the dead token, records the time and checks the thresholds with the new percentages |
| UsageStores.DeadTokenIsNotRetried | Shared/Stores/UsageStore.swift:36-51 | while the keychain offers nothing newer than the refused token, a refresh makes no request, checks nothing and only marks the store configured |
| UsageStores.ExpiredTokenThenQuiet | Shared/Stores/UsageStore.swift:70-72 | after a refresh ends in an expired token, the next refresh with the same keychain makes no request |
| UsageStores.NewKeychainTokenRevives | Shared/Stores/UsageStore.swift:39-53 | a new keychain token revives a store stuck on a refused one: it is the first token tried |
| UsageStores.SuccessfulRefresh | Shared/Stores/UsageStore.swift:55-67 | when the repository's refresh succeeds with the token held after the silent keychain read, the API is called, the error is cleared, the dead token forgotten, the time recorded, the cache holds the response, the percentages and countdown shown are the response's, and one threshold check is made with them |
| UsageStores.NoTokenNoFetch | Shared/Stores/UsageStore.swift:47-51 | with no token anywhere nothing is fetched and the store is configured only if it remembers a refused token |
| UsageStores.RefreshEndsNotLoading | Shared/Stores/UsageStore.swift:53-54 | `isLoading` is raised only around the fetch: a refresh that starts idle ends idle, whatever its outcome |
| UsageStores.ReloadRearmsRefresh | Shared/Stores/UsageStore.swift:36-51 | once the refused token is forgotten, the next refresh calls the API exactly when a token is stored or the keychain has one, first with the stored token, else the keychain's |
| UsageStores.UsageStore.constructor | Shared/Stores/UsageStore.swift:5-34 | a new store shows zeros, on track, no error and no configuration |
| UsageStores.UsageStore.Update | Shared/Stores/UsageStore.swift:133-156 | the state becomes the specified update and nothing else changes |
| UsageStores.UsageStore.ShowPercentages | Shared/Stores/UsageStore.swift:134-149 | the state gains the percentages and the countdown |
| UsageStores.UsageStore.ShowPacing | Shared/Stores/UsageStore.swift:151-155 | the state gains the pacing result, if any |
| UsageStores.UsageStore.RecoverSilently | Shared/Stores/UsageStore.swift:37-45 | the state and the shared record become those of the silent recovery and no request is made |
| UsageStores.UsageStore.ApplyResult | Shared/Stores/UsageStore.swift:55-80 | the state and the threshold checks become those of the specified settlement |
| UsageStores.UsageStore.ApplySuccess | Shared/Stores/UsageStore.swift:56-67 | the state and the threshold checks become those the settlement of a success specifies: the usage shown, the error and refused token cleared, the update time set, one threshold check |
| UsageStores.UsageStore.ApplyFailure | Shared/Stores/UsageStore.swift:68-80 | the state becomes the settlement of the failure: its error state, the current token remembered when it expired, no threshold check |
| UsageStores.UsageStore.Refresh | Shared/Stores/UsageStore.swift:36-81 | the state, the shared record, the threshold checks and the requests made become those of the specified refresh |
| UsageStores.UsageStore.LoadCached | Shared/Stores/UsageStore.swift:83-88 | a cached response is shown with its fetch date; without one nothing changes |
| UsageStores.UsageStore.ReloadConfig | Shared/Stores/UsageStore.swift:90-97 | after a silent keychain sync the refused token and the error are forgotten and the configuration flag re-read; the cached usage, when there is one, is then shown with its fetch date, otherwise the state is left there; notification permission is asked once and nothing else changes |
| UsageStores.UsageStore.ForgetFailure | Shared/Stores/UsageStore.swift:90-95 | a silent keychain sync, then the refused token and the error are forgotten and the configuration flag becomes whether the repository is configured; the shown usage is kept |
| UsageStores.UsageStore.ConnectAutoDetect | Shared/Stores/UsageStore.swift:122-129 | the test uses the silently read token when there is one, otherwise the stored token, and cannot succeed with no token anywhere; the silent read is written to the shared file only when there is one; a success marks the store configured and nothing else changes |
| WidgetProviders.FetchEntry | TokenEaterWidget/Provider.swift:25-46 | unconfigured exactly when the shared file has no token; otherwise an entry dated now showing the cached usage with no error, or no usage and the no-data message when nothing is cached |
| WidgetProviders.Snapshot | TokenEaterWidget/Provider.swift:11-17 | the placeholder exactly in a preview |
| WidgetProviders.TimelineMatchesSnapshot | TokenEaterWidget/Provider.swift:19-23 | the timeline has one entry, the snapshot's, and reloads five minutes on |
| WidgetProviders.StaleIsMonotone | TokenEaterWidget/Provider.swift:31-36 | stale data stays stale as time passes |
| WidgetProviders.EntryAfterSync | TokenEaterWidget/Provider.swift:30-43 | after a sync the widget shows that usage with the stored model statistics and is stale exactly when more than two minutes have passed |
| WidgetProviders.CacheWithoutSyncDateIsStale | TokenEaterWidget/Provider.swift:32-36 | a cache without a sync date is stale |
| WidgetProviders.ClearedFileIsUnconfigured | TokenEaterWidget/Provider.swift:26-45 | a cleared file shows the unconfigured entry, and a token alone shows the no-data message |
| LegacyWidgetProviders.LegacyEntry | ClaudeUsageWidget/Provider.swift:34-53 | unconfigured exactly when the client is not configured; an entry is stale exactly when a fetch failed with a cache, and shows an error exactly when it failed without one |
| LegacyWidgetProviders.LegacyEntryShows | ClaudeUsageWidget/Provider.swift:39-52 | a success is shown fresh; a failure shows the cached usage, or the error's description when there is no cache |
| LegacyWidgetProviders.FailureFallsBackOnLastSuccess | ClaudeUsageWidget/Provider.swift:42-50 | a failing fetch shows the last successful usage, stale |
| LegacyWidgetProviders.LegacyFetchEntry | ClaudeUsageWidget/Provider.swift:34-53 | the entry is the specified one, and nothing is sent or cached when the client is not configured |
| LegacyWidgetProviders.LegacyTimeline | ClaudeUsageWidget/Provider.swift:19-24 | one entry, the next reload fifteen minutes on |
| LegacyWidgetProviders.LegacySnapshot | ClaudeUsageWidget/Provider.swift:11-17 | the placeholder in a preview with nothing sent, otherwise the specified entry |
| Decimal.ParseInt | Shared/Services/UpdateService.swift:90-91 | a parsed component fits a 64-bit Int and comes from non-empty text |
| Decimal.ShortDigitsParse | Shared/Services/UpdateService.swift:90-91 | a run of one to eighteen digits always parses, to its value |
| Decimal.IntToStringRoundTrip | Shared/Helpers/MenuBarRenderer.swift:106 | every 64-bit value interpolated into text parses back to itself |
| Decimal.IntToStringShape | Shared/Helpers/MenuBarRenderer.swift:106 | an interpolated integer is never empty and starts with '-' exactly when negative |
| Decimal.Truncate | Shared/Stores/UsageStore.swift:134-136 | converting a Double to Int drops the fraction toward zero |
| Strings.Lowercase | Shared/Services/ClaudeJsonReader.swift:48 | each ASCII capital becomes its small letter and every other character is kept, so the length is kept |
| Strings.Components | Shared/Services/ClaudeJsonReader.swift:57 | splitting on a character gives at least one part, none containing the separator |
| Strings.JoinComponents | Shared/Services/ClaudeJsonReader.swift:57 | joining the parts with the separator gives the string back |
| Strings.ComponentsJoin | Shared/Services/ClaudeJsonReader.swift:57 | splitting a join of separator-free parts gives the parts back |
| Strings.SplitOmittingEmpty | Shared/Services/UpdateService.swift:90-91 | splitting a version keeps only non-empty parts without the separator |
| UserDefaultsStore.DateIn | Shared/Stores/UpdateStore.swift:26-29 | there is a date exactly when a date is stored |
| UserDefaultsStore.UserDefaults.Remove | Shared/Stores/UpdateStore.swift:21-24 | assigning nil removes that key and nothing else |

## Left out

- SwiftUI and AppKit views, layout, colours as drawn, fonts and pixel sizes: presentation only; the renderer is modelled as the text and colour choices it makes.
- URLSession, the Security framework's keychain queries, UNUserNotificationCenter, WidgetCenter, NSAppleScript and the file manager: replaced by inputs (a recorded HTTP exchange, a keychain object holding the token each query would return, a list of notifications sent, a map of files) because they are foreign calls.
- JSON text parsing and encoding: a `Json` value stands for already-parsed JSON, so malformed text appears only as "not JSON".
- Timers, debouncing and delayed work (`startAutoRefresh`/`stopAutoRefresh`, `startAutoCheck`, the widget reloader, `ThemeStore.scheduleSync`, `asyncAfter` delays, the delayed termination after an update): timing is not modelled; only the state each callback leaves is.
- `requestNotifications`, `sendTestNotification`, `completeOnboarding`'s permission request, `setupDelegate` and `sendTest`: they only forward to the system notification centre.
- Calendar arithmetic in widget timelines: the next refresh dates are modelled as `now + 300` and `now + 900` seconds, ignoring calendar irregularities.
- Swift `Int` overflow: integers are unbounded; token counts and percentages in the source stay far below 2^63.
- The randomly chosen pacing message (Shared/PacingCalculator.swift:55): not modelled; `PacingResult` is modelled without its message, which is display text picked at random.
- `DateFormatter` output (`formatTime`, `formatDateTime`, the widget's reset-date formatting): the formatted strings are parameters (`TimeOf`, `DateTimeOf`), since locale formatting is foreign code.
- `msFormatted`, `Color.lighter` and the division of colour components by 255: floating-point presentation details.
- LocalCache disk I/O: the cache is a field written by the client.
- `readModelStats` as the repository calls it: the repository takes the model statistics as a parameter; the reader itself is modelled separately.
- The older `ClaudeUsageApp/OnboardingViewModel.swift`: superseded by the TokenEater onboarding, which is modelled.
- The duplicate decoder in `Shared/UsageModels.swift`: it is the same as the one in `Shared/Models/UsageModels.swift` and is modelled once.
- MenuBarRendering.MenuBarRenderer.RenderPinnedMetrics: the source's switch on pacing display mode also names a `.delta` case (Shared/Helpers/MenuBarRenderer.swift:90-91) that `PacingDisplayMode` does not declare; the model has only the enum's two declared cases.
- UsageStores.UsageStore.Refresh: the store calls the notification service through its protocol, whose threshold check takes `Int` percentages; the model records those `Int` arguments and does not model the `Double`-taking `NotificationService` method reached that way.
- The legacy widget's `applyProxy` and `isConfigured`: whether the widget is configured is a parameter.
- `UsageEntry` is not part of this model's sources; its fields are taken from how the providers build it.
- Where the source's test files disagree with the code (for example the short model names the reader's tests expect), the model follows the code.
- Strings.Lowercase: lower-cases ASCII letters only. Swift's `lowercased()` follows Unicode and can change a string's length (for example "İ"); model ids are ASCII in practice.
- UsageStores.UsageStore.ReloadConfig: the refresh `Task` it starts (cancelling the previous one) is not modelled; the caller's next `Refresh` stands for it, and `UsageStores.ReloadRearmsRefresh` states what that refresh does after the reload.
- The keychain's silent read: one `keychain.silentToken` stands for the store's silent sync and the repository's own recovery read, which are assumed to return the same token.
- Foundation's `URL(string:)`: whether it accepts a text is the `UrlParser` parameter, since which texts it rejects depends on the Foundation release.
