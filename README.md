# TrendyBOT decision logic in Dafny

TrendyBOT alerts creators when YouTube Shorts in the channels they follow start to trend. It has three parts:

- an Express backend that polls the YouTube Data API, matches videos against each user's alert thresholds and notifies the user by e-mail, Discord or Telegram;
- a React front end where users sign up, onboard, set thresholds and templates, and browse trends;
- a small Python Telegram bot that tells a user their chat id.

Almost every operation calls a network service: Supabase, NocoDB, YouTube, PayPal, Discord or Telegram. Between those calls sits deterministic decision logic. This project models that logic. Each outside call becomes an input parameter, an outcome datatype or an in-memory table. The model proves what the logic promises about those inputs.

One Dafny module models each source file:

- `ApiKeyManager` (`backend/services/apiKeyManager.service.js`): the YouTube API-key rotation manager. It is a class holding the keys, today's failed key values, the round-robin index and the Pacific date of the last daily reset. The operations are `getKey`, `reportKeyFailure`, the daily reset, `getStats` and the two start-up paths.
- `SubscriptionLogic`, `SubscriptionController`, `PaypalController`: the trial and plan lifecycle of a user record, the PayPal webhook router and the subscription approval chain.
- `TrendDetection`, `Polling`: the threshold matcher and the user, group and channel walk of the trend detector. Also the polling service's ISO 8601 duration parser, its Shorts filter, its tracked-channel list and its per-Short alert conditions.
- `YoutubeService`, `YoutubeQueries`: the YouTube helpers. These cover the duration parser and Short rule, error classification, de-duplication, the cache, the time-frame cut-off, batching and playlist paging. `YoutubeQueries` covers the filter, sort and pagination plan of the stored-video listing.
- `NotificationService`: template formatting, the time-ago text, channel gating and the overall delivery status.
- `Helpers`: the Telegram access-code generator.
- `TelegramInfoBot`: the `/getinfo` reply, its MarkdownV2 escaping, the error handler and the token check.
- `UserController`, `TrendsController`, `YoutubeController`, `AuthController`: the HTTP handlers' validation chains, update-object builders, default-filling readers and status tables.
- `WebSocketService`: the server's client registry and message handler.
- `WebSocketClient`: the browser hook's user-update computation.
- `AlertPreferencesStore`, `AlertTemplatesStore`: the two front-end stores.
- `ResearchPage`, `Onboarding`, `Trending`, `Signup`, `ResetPassword`, `DashboardLayout`: the pages' validators, derived lists, sorts and handlers.

Four modules hold shared vocabulary:

- `Wrappers` holds `Option`.
- `Js` holds the JavaScript string and number primitives the code relies on: `trim`, `parseInt`, `split`, `includes`, `replace` and case mapping.
- `JsonValue` holds JSON values and JavaScript's truthiness and conversions.
- `Sorting` holds a comparator insertion sort standing for `Array.prototype.sort`. It is proved to return a sorted permutation, and to keep the input order when the comparator finds every pair equal.

State the source changes in place is a Dafny class with `modifies` clauses. Examples are the key manager, the user table, the socket registry, the two stores and the page components. Each class method is proved against a function of its old state, and the properties are lemmas about that function. Pure code is written as functions and lemmas. Loops in the source are `while` or `for` loops with invariants.

## Model

| member | source | states |
|---|---|---|
| ApiKeyManager.UsePercent | backend/services/apiKeyManager.service.js:20 | the stored daily-use share is calls/10000 capped at 1: always in [0,1], equal to 1 exactly from the quota on, and otherwise exactly calls/10000 (also line 273) |
| ApiKeyManager.Clamp01 | backend/services/apiKeyManager.service.js:364 | the getStats clamp always lands in [0,1] and leaves a value already in [0,1] unchanged |
| ApiKeyManager.LoadKey | backend/services/apiKeyManager.service.js:104-196 | a key is loaded exactly when its environment value is non-empty, keeps that name and value, and falls back to a fresh in-memory key when the fetch fails or the insert of a missing row fails |
| ApiKeyManager.Available | backend/services/apiKeyManager.service.js:262 | the available list holds, in increasing order, exactly the positions of keys that have a value, are not in the failed set and are not flagged failed today |
| ApiKeyManager.FirstWithValue | backend/services/apiKeyManager.service.js:304 | `keys.find` yields the first key holding the value, or nothing when no key holds it |
| ApiKeyManager.ResetOnNewDay | backend/services/apiKeyManager.service.js:206-249 | on a new Pacific date the failed set is emptied and every key's calls, flag, status and percent are zeroed while names, values, ids and the round-robin index stay |
| ApiKeyManager.ResetSameDay | backend/services/apiKeyManager.service.js:210-250 | on the date of the last reset the check changes nothing except filling a missing lastResetDatePT |
| ApiKeyManager.ResetIdempotent | backend/services/apiKeyManager.service.js:206-251 | a second reset check on the same date is a no-op |
| ApiKeyManager.ResetPreservesValid | backend/services/apiKeyManager.service.js:206-251 | the reset keeps the manager invariant: failed values belong to loaded keys, keys have values, percents in [0,1] |
| ApiKeyManager.GetKeyNullIff | backend/services/apiKeyManager.service.js:260-267 | getKey returns null exactly when, after the reset check, no loaded key is usable |
| ApiKeyManager.GetKeyPicksUsable | backend/services/apiKeyManager.service.js:262-297 | a handed-out key has a value, is not in the failed set, is not flagged failed, and the index is (previous+1) mod the number of usable keys, a valid position |
| ApiKeyManager.GetKeyCountsOneCall | backend/services/apiKeyManager.service.js:272-276 | exactly one key gains one call and gets the capped percent; every other key and the failed set are unchanged; with no key handed out nothing but the reset happens |
| ApiKeyManager.GetKeyPreservesValid | backend/services/apiKeyManager.service.js:253-298 | getKey keeps the manager invariant |
| ApiKeyManager.PickPreservesValid | backend/services/apiKeyManager.service.js:262-276 | the round-robin pick keeps the manager invariant |
| ApiKeyManager.ReportUnknownNoop | backend/services/apiKeyManager.service.js:302-308 | reporting an empty or unknown value changes nothing |
| ApiKeyManager.ReportKnown | backend/services/apiKeyManager.service.js:304-317 | reporting a known value flags its first key failed with today's date, status 'Failed' and the capped percent, adds the value to the failed set and touches no other key |
| ApiKeyManager.ReportIdempotent | backend/services/apiKeyManager.service.js:300-317 | reporting the same failure twice equals reporting it once |
| ApiKeyManager.ReportPreservesValid | backend/services/apiKeyManager.service.js:300-317 | reportKeyFailure keeps failed values among the loaded keys' values |
| ApiKeyManager.StatsConsistent | backend/services/apiKeyManager.service.js:343-389 | in a valid state available + failed = total with both non-negative, one entry per key with its call count, every reported percent in [0,1] |
| ApiKeyManager.InitClearsRestoredFailures | backend/services/apiKeyManager.service.js:69-81 | initialisation from the store restores today's failures and then always runs a first reset (the logic date starts null), so every key starts usable at zero calls (also lines 206-244) |
| ApiKeyManager.InitDegradedShape | backend/services/apiKeyManager.service.js:49-65 | degraded mode loads one fresh key per configured name with a non-empty environment value, all usable |
| ApiKeyManager.Manager.FromStore | backend/services/apiKeyManager.service.js:69-81 | the constructor's filter and restore loops leave the state InitFromStore describes, and it is valid |
| ApiKeyManager.Manager.PerformDailyResetCheck | backend/services/apiKeyManager.service.js:206-251 | the in-place reset loop leaves exactly the state ResetCheck describes and keeps the invariant |
| ApiKeyManager.Manager.AvailablePositions | backend/services/apiKeyManager.service.js:262 | the filter loop computes the available positions |
| ApiKeyManager.Manager.GetKey | backend/services/apiKeyManager.service.js:253-298 | the new state and the returned key are those of GetKeyStep, and the invariant holds |
| ApiKeyManager.Manager.NextKey | backend/services/apiKeyManager.service.js:262-297 | the round-robin update in place matches PickFrom |
| ApiKeyManager.Manager.FindKey | backend/services/apiKeyManager.service.js:304 | the search loop returns the first position holding the value |
| ApiKeyManager.Manager.ReportKeyFailure | backend/services/apiKeyManager.service.js:300-317 | the new state is ReportFailure of the old one and the invariant holds |
| ApiKeyManager.Manager.GetStats | backend/services/apiKeyManager.service.js:343-389 | after the reset check, the statistics are those of the new state and available + failed = total |
| ApiKeyManager.Manager.Details | backend/services/apiKeyManager.service.js:350-374 | one statistics entry per key, in order |
| Helpers.ClampLength | backend/utils/helpers.js:8-10 | the length used is always in [8,12], is the requested length when that is already in range, and 12 when none is given |
| Helpers.ClampBounds | backend/utils/helpers.js:9-10 | a request below 8 is served at 8, one above 12 at 12, and clamping twice changes nothing |
| Helpers.ByteLength | backend/utils/helpers.js:12 | ceil(n/2) bytes give at least n and at most n+1 hex characters |
| Helpers.Hex | backend/utils/helpers.js:13 | hex encoding gives two lowercase hex digits per byte |
| Helpers.UnhexHex | backend/utils/helpers.js:13 | hex encoding is injective: decoding it gives back the bytes |
| Helpers.AccessCode | backend/utils/helpers.js:8-14 | the code has exactly the clamped length when ceil(len/2) bytes are supplied, is all lowercase hex digits and is a prefix of the hex encoding of the bytes |
| Helpers.DefaultCodeDecodes | backend/utils/helpers.js:8-13 | a default-length code carries all six random bytes: it decodes back to them |
| SubscriptionLogic.Lookup | backend/services/subscriptionLogic.service.js:18-22 | a record is found exactly for a non-zero id present in the table |
| SubscriptionLogic.Write | backend/services/subscriptionLogic.service.js:46 | an update succeeds exactly for a non-zero id, a non-empty patch and a working store; it keeps the table's ids, patches only the named record and leaves every other record as it was (also lines 89, 126, 180, 241) |
| SubscriptionLogic.TrialPatchApplied | backend/services/subscriptionLogic.service.js:31-43 | the trial patch sets start, expiry = start + 3 days, trial used, status Active, plan Free Trial, the code and the valid flag, and nothing else |
| SubscriptionLogic.ViralPatchApplied | backend/services/subscriptionLogic.service.js:80-86 | the Viral patch sets plan Viral, status Active, the code and the valid flag, and nothing else |
| SubscriptionLogic.VerifiedPatchApplied | backend/services/subscriptionLogic.service.js:174-177 | the verification patch stores the chat id and clears the valid flag, and nothing else |
| SubscriptionLogic.ExpiryPatchApplied | backend/services/subscriptionLogic.service.js:233-237 | the expiry patch sets status Inactive, plan "" and clears the code flag, and nothing else |
| SubscriptionLogic.TrialFailureWritesNothing | backend/services/subscriptionLogic.service.js:15-58 | a refused trial start leaves the table unchanged, and a thrown read becomes the generic error message |
| SubscriptionLogic.ViralFailureWritesNothing | backend/services/subscriptionLogic.service.js:68-100 | a refused Viral subscription leaves the table unchanged, and a thrown read becomes the generic message |
| SubscriptionLogic.OtherPlanFailureWritesNothing | backend/services/subscriptionLogic.service.js:111-136 | a refused Surge/Spark subscription leaves the table unchanged, and a failing write always refuses |
| SubscriptionLogic.VerifyFailureWritesNothing | backend/services/subscriptionLogic.service.js:149-188 | a refused verification leaves the table unchanged, and a thrown read becomes the generic message |
| SubscriptionLogic.UnknownUserRefused | backend/services/subscriptionLogic.service.js:18-22 | an unknown user gets 'User not found.' from trial start, Viral and verification, with no write (also lines 72-76, 152-156) |
| SubscriptionLogic.TrialStartWrites | backend/services/subscriptionLogic.service.js:25-53 | a successful start needs an unused trial, writes only that user: Active, Free Trial, a 12-character code flagged valid, expiry exactly 3 days after the start |
| SubscriptionLogic.AtMostOneTrial | backend/services/subscriptionLogic.service.js:25-38 | after a successful start every later start is refused with 'Free trial already used for this account.' and writes nothing |
| SubscriptionLogic.ViralPatchKeys | backend/services/subscriptionLogic.service.js:80-86 | the Viral update holds exactly plan, status, code and flag, never a trial column |
| SubscriptionLogic.ViralWrites | backend/services/subscriptionLogic.service.js:78-96 | a successful Viral subscription writes plan Viral, status Active and a fresh valid code to that user only, leaving its trial fields as they were |
| SubscriptionLogic.ViralWritten | backend/services/subscriptionLogic.service.js:80-89 | writing the Viral update changes only that user's plan, status and code columns |
| SubscriptionLogic.OtherPlanRules | backend/services/subscriptionLogic.service.js:113-132 | any plan other than Surge/Spark is refused without a write; the update never holds the code columns; success sets only plan and status of that user |
| SubscriptionLogic.VerifySucceedsIff | backend/services/subscriptionLogic.service.js:158-183 | with a working store, verification succeeds exactly when the stored code is non-empty, equals the submitted one and is flagged valid |
| SubscriptionLogic.VerifyIsOneShot | backend/services/subscriptionLogic.service.js:174-183 | a verification stores the chat id and clears the flag for that user only, and the same code then fails with 'already been used' |
| SubscriptionLogic.ExpireOnlyExpired | backend/services/subscriptionLogic.service.js:222-245 | the expiry pass keeps the table's ids and changes only returned rows with an id, an expiry strictly before now and a working update |
| SubscriptionLogic.ExpireDeactivates | backend/services/subscriptionLogic.service.js:231-242 | every such row ends Inactive with plan "" and the code flag cleared |
| SubscriptionLogic.UserTable.Update | backend/services/subscriptionLogic.service.js:46 | the table becomes Write's result when the write succeeds and stays unchanged otherwise |
| SubscriptionLogic.UserTable.StartFreeTrial | backend/services/subscriptionLogic.service.js:15-59 | the outcome and the new table are those of StartTrialStep |
| SubscriptionLogic.UserTable.HandleViralSubscription | backend/services/subscriptionLogic.service.js:68-101 | the outcome and the new table are those of ViralStep |
| SubscriptionLogic.UserTable.HandleOtherSubscription | backend/services/subscriptionLogic.service.js:111-137 | the outcome and the new table are those of OtherPlanStep |
| SubscriptionLogic.UserTable.VerifyTelegramCode | backend/services/subscriptionLogic.service.js:149-189 | the outcome and the new table are those of VerifyStep |
| SubscriptionLogic.UserTable.ExpireInactiveTrials | backend/services/subscriptionLogic.service.js:222-249 | the loop leaves the table ExpireAll describes |
| SubscriptionController.ResultResponse | backend/controllers/subscription.controller.js:86-92 | a handler result answers 200 exactly when it succeeded and 500 otherwise, carrying the handler's message |
| SubscriptionController.OtherEventsIgnored | backend/controllers/subscription.controller.js:17-30 | any event type other than BILLING.SUBSCRIPTION.ACTIVATED gets 200 'Event type ignored.' and dispatches nothing |
| SubscriptionController.MissingFieldsRejected | backend/controllers/subscription.controller.js:47-54 | an activation with a missing custom_id, or a missing plan_id, gets 400 with no dispatch |
| SubscriptionController.ActivationRouting | backend/controllers/subscription.controller.js:56-83 | Viral dispatches to the Viral handler, then Surge, then Spark to the other-plan handler with that name, each exactly when the earlier ids do not match; no match answers 200 'Plan ID not relevant' |
| SubscriptionController.OtherRouteAccepted | backend/controllers/subscription.controller.js:80-83 | the router only hands the other-plan handler Surge or Spark, so its 'Invalid plan specified.' branch is never reached from the webhook |
| SubscriptionController.DispatchStatus | backend/controllers/subscription.controller.js:74-92 | a dispatched request answers 200 exactly when the handler succeeded and 500 otherwise |
| PaypalController.PlanMapInjective | backend/controllers/paypal.controller.js:19-23 | the plan map has exactly three ids and maps them injectively onto Spark, Surge and Viral |
| PaypalController.UnauthorizedBeforePaypal | backend/controllers/paypal.controller.js:35-37 | a missing user id or subscription id gives 401 whatever PayPal or the store would do |
| PaypalController.FetchErrorStatus | backend/controllers/paypal.controller.js:46-54 | a failed PayPal fetch answers its status code, or 500 when it has none, and writes nothing |
| PaypalController.WriteOnlyWhenActiveAndKnown | backend/controllers/paypal.controller.js:59-86 | a status other than ACTIVE gives 400, a missing or unmapped plan id 500; an update is written exactly when the subscription is ACTIVE on a mapped plan and the store works |
| PaypalController.SuccessWritesThreeColumns | backend/controllers/paypal.controller.js:80-92 | a success writes exactly the mapped plan name, the subscription id and status ACTIVE, and answers 200 |
| TrendDetection.CheckThresholds | backend/services/TrendDetectionService.js:87-137 | the step-by-step matchedParams/criteriaMet loop computes exactly Thresholds on the parsed counts |
| TrendDetection.DoesVideoMeetCriteria | backend/services/TrendDetectionService.js:69-138 | the method returns exactly MeetCriteria: shape check, date check, counts parsed with a 0 default, then the thresholds |
| TrendDetection.RejectsMalformedAndOld | backend/services/TrendDetectionService.js:70-79 | a video missing id, snippet or statistics never matches, and neither does one published at or before the cut-off |
| TrendDetection.MatchedKeys | backend/services/TrendDetectionService.js:91-118 | a match happens exactly when every defined minimum holds and a defined ratio has non-zero views and is met; the map then records exactly the defined minimums with their counts, plus the ratio when there are views |
| TrendDetection.RatioNeedsViews | backend/services/TrendDetectionService.js:116-118 | with a ratio required and zero views the video is rejected whatever else holds |
| TrendDetection.MissingCountsAreZero | backend/services/TrendDetectionService.js:81-83 | a missing or non-numeric count reads as 0 |
| TrendDetection.InertParamsMatchNothing | backend/services/TrendDetectionService.js:91-118 | params with none of the four supported thresholds yield an empty map, which never becomes an alert (also line 238) |
| TrendDetection.HoursFilter | backend/services/TrendDetectionService.js:208 | an unset or 0 hours filter falls back to 24 |
| TrendDetection.DefaultWindow | backend/services/TrendDetectionService.js:208-209 | with the hours filter unset the cut-off is exactly 24 hours before now |
| TrendDetection.AllAlertsMatched | backend/services/TrendDetectionService.js:236-238 | every alert the walk records carries a non-empty map of met parameters |
| TrendDetection.SkipRules | backend/services/TrendDetectionService.js:193-217 | a user whose filter_channels is blank, not JSON, not an array (such as the {"groups":…} object) or an empty array yields no alert, and so does one whose every group lacks channels or params or has none of the four thresholds |
| TrendDetection.CheckVideos | backend/services/TrendDetectionService.js:231-238 | the video loop records exactly the alerts VideoAlerts describes, in order |
| TrendDetection.CheckChannels | backend/services/TrendDetectionService.js:220-230 | the channel loop records exactly ChannelAlerts, skipping channels whose fetch throws |
| TrendDetection.CheckGroups | backend/services/TrendDetectionService.js:213-219 | the group loop skips groups without channels or params and records exactly GroupAlerts |
| TrendDetection.CheckForTrendsAndAlertUsers | backend/services/TrendDetectionService.js:145-213 | the nested loops record exactly CheckForTrends's alerts, in insertion order, each with a non-empty match map; nothing when the store is not ready or the user query fails |
| Polling.Field | backend/services/polling.service.js:30 | one optional `(\d+)U` group either takes nothing and leaves the text as it was, or takes a digit run closed by its own designator |
| Polling.MatchDuration | backend/services/polling.service.js:30-35 | a match needs a leading P and a T, and a matched fractional seconds group holds only digits |
| Polling.DurationSeconds | backend/services/polling.service.js:26-56 | the result is null exactly for a missing, non-string or empty argument or a string the pattern rejects, and otherwise the total of the matched parts |
| Polling.ParseISO8601Duration | backend/services/polling.service.js:26-56 | the statement sequence gives s + 60·min + 3600·h + 86400·d + 604800·w + 2629800·mo + 31557600·y with absent parts as 0, and null exactly when the pattern does not match |
| Polling.AddUp | backend/services/polling.service.js:37-55 | the running additions reach the weighted sum of the parts |
| Polling.MatchRender | backend/services/polling.service.js:30 | every set of components is read back by the pattern from its canonical text |
| Polling.RenderedDuration | backend/services/polling.service.js:30-55 | a rendered duration converts to the seconds of its parts |
| Polling.DesignatorsRequired | backend/services/polling.service.js:30-35 | a string without a leading P, or without any T, gives null |
| Polling.MinutesAndSeconds | backend/services/polling.service.js:22-56 | "PT1M30S" is 90 seconds |
| Polling.DaysNeedTime | backend/services/polling.service.js:30-35 | "P1D", which has no T, gives null |
| Polling.FilterForShorts | backend/services/polling.service.js:61-70 | exactly the items whose duration is present, parses and is at most 61 s are kept, and nothing else |
| Polling.ShortsKeepOrder | backend/services/polling.service.js:61-70 | the filter keeps the original order: filtering a concatenation filters each part |
| Polling.TrackedChannelIds | backend/services/polling.service.js:92-101 | a user is skipped for a missing or blank list or an empty result; otherwise the list is non-empty |
| Polling.TrackedIdsArePieces | backend/services/polling.service.js:97 | every tracked id is a non-empty, comma-free, already trimmed piece of the list, and every non-blank piece is tracked |
| Polling.Count | backend/services/polling.service.js:158-160 | a missing or empty count reads as 0 |
| Polling.MetricFlag | backend/services/polling.service.js:169-186 | one count flag: the plain threshold test, then the window override, giving MetricMet |
| Polling.VelocityFlag | backend/services/polling.service.js:192-207 | the velocity block computes VelocityMet |
| Polling.EvaluateShort | backend/services/polling.service.js:156-223 | the flags combined with && give exactly ConditionsMet |
| Polling.RelativeBlocksAlerts | backend/services/polling.service.js:210-223 | with both relative-performance fields set no Short ever meets the conditions |
| Polling.MetricRules | backend/services/polling.service.js:169-186 | an unset or 0 threshold with no window is met; a set window the age exceeds forces not-met; a set threshold not reached is not met |
| Polling.VelocityBands | backend/services/polling.service.js:192-207 | with a velocity threshold: met at age ≤ 0 h, met iff views/hours ≥ threshold for 0 < age < 72, not met from 72 h or for an unknown age |
| Polling.NotificationChannels | backend/services/polling.service.js:228-231 | email, telegram and discord are listed, once each and in that order, exactly when verified and configured |
| Polling.AlertIffConditions | backend/services/polling.service.js:223-251 | an alert is saved exactly when the conditions hold |
| Polling.AlertStatus | backend/services/polling.service.js:228-256 | the saved status is 'sent_attempted' exactly when some channel is verified and configured, otherwise 'no_channel' with channel 'none' |
| YoutubeService.FindPT | backend/services/youtube.service.js:20-21 | the unanchored match starts at the first "PT" of the string, and there is none exactly when no position holds "PT" |
| YoutubeService.EscapedGroup | backend/services/youtube.service.js:20 | a group of the pattern as written captures only text that starts with a backslash |
| YoutubeService.BackslashIsNaN | backend/services/youtube.service.js:23-25 | `parseInt` of a capture that starts with a backslash is NaN, so `|| 0` makes it 0 |
| YoutubeService.DurationAsWrittenIsZero | backend/services/youtube.service.js:18-27 | as written the parser returns null for an empty string or one without "PT", and 0 for every other string |
| YoutubeService.EscapedIsZero | backend/services/youtube.service.js:23-26 | the hours, minutes and seconds read by the pattern as written always add up to 0 |
| YoutubeService.DurationRoundTrip | backend/services/youtube.service.js:18-27 | the parser with `\d+` groups reads 3600·h + 60·m + s back from every rendering PT[hH][mM][sS] |
| YoutubeService.DurationCounterexample | backend/services/youtube.service.js:20 | "PT1M30S" parses to 0 as written and to 90 with the intended pattern |
| YoutubeService.NoShortAsWritten | backend/services/youtube.service.js:233 | with the parser as written no video is ever stored as a Short |
| YoutubeService.ShortRuleCorrected | backend/services/youtube.service.js:233 | with the intended parser a video is a Short iff its live-broadcast content is 'none' and it lasts between 1 and 60 seconds |
| YoutubeService.HandleYoutubeApiError | backend/services/youtube.service.js:75-101 | the key is reported iff the error blames the key and a key was given; the thrown status is the response status or 500 |
| YoutubeService.ClassificationTable | backend/services/youtube.service.js:81-90 | with reasons, the key is reported exactly for keyInvalid, reasons containing 'disabled', accessNotConfigured, quotaExceeded and dailyLimitExceeded; without, exactly for statuses 403 and 429; never without a key |
| YoutubeService.PlaylistNotFoundIsNoKeyReason | backend/services/youtube.service.js:453-457 | 'playlistNotFound' is not one of the reasons that blame the key |
| YoutubeService.ErrorTablesAgree | backend/services/youtube.service.js:446-479 | the video-statistics error branch reports the key for exactly the errors `_handleYoutubeApiError` reports it for |
| YoutubeService.FreshChannelsSkipApi | backend/services/youtube.service.js:294-307 | a stored channel with a thumbnail fetched at most seven days ago is asked of the API only when refresh is forced; one older than seven days always is |
| YoutubeService.ChannelsListFailureAborts | backend/services/youtube.service.js:323-343 | a failed `channels.list` call aborts the aggregation by the rethrown error, so no channel result ever carries 'API error' |
| YoutubeService.Dedup | backend/services/youtube.service.js:257 | the de-duplicated ids are the same set of ids with no id twice, never more than were given |
| YoutubeService.DedupDistinct | backend/services/youtube.service.js:257 | a list without repetitions is left as it is |
| YoutubeService.DedupPrefix | backend/services/youtube.service.js:257 | ids keep the order of their first occurrence: de-duplicating a prefix gives a prefix of the result |
| YoutubeService.CacheKeyIgnoresRepeats | backend/services/youtube.service.js:257-259 | repeating an id already present does not change the cache key |
| YoutubeService.ChannelDataCache.constructor | backend/services/youtube.service.js:71 | the cache starts empty |
| YoutubeService.ChannelDataCache.Get | backend/services/youtube.service.js:261-267 | an entry is returned only when refresh is not forced and the entry is younger than one hour |
| YoutubeService.ChannelDataCache.Set | backend/services/youtube.service.js:505 | the entry for the key is replaced by the new time stamp and data, every other entry kept |
| YoutubeService.CacheTtl | backend/services/youtube.service.js:72 | a stored result is served for the next hour and never after or when refresh is forced; storing one key leaves every other key's answer unchanged (also lines 261-267, 505) |
| YoutubeService.PublishedAfter | backend/services/youtube.service.js:269-285 | the cut-off is 24 hours back, 7 days back, none for all time, and 30 days back for every other time frame |
| YoutubeService.RoundedAverage | backend/services/youtube.service.js:497 | the average is total/n rounded half up, and 0 without videos |
| YoutubeService.Chunks | backend/services/youtube.service.js:419-421 | every slice holds 1 to 50 ids and every slice but the last exactly 50 |
| YoutubeService.ChunksFlatten | backend/services/youtube.service.js:419-421 | the slices joined in order give back the original id list |
| YoutubeService.Batches | backend/services/youtube.service.js:419-421 | the loop over `i += 50` produces exactly the slices, and they join back to the id list |
| YoutubeService.AddBatch | backend/services/youtube.service.js:430-440 | the loop over one answer adds to the totals exactly the counts of the videos published in the window |
| YoutubeService.Tally | backend/services/youtube.service.js:431-435 | a video in the window adds its parsed counts (NaN as 0) and one video; any other adds nothing |
| YoutubeService.FetchVideoTotals | backend/services/youtube.service.js:417-441 | the batched fetch sums the totals of each batch in order and stops at the first batch without a key |
| YoutubeService.TotalsCountOnly | backend/services/youtube.service.js:431 | videos outside the window contribute nothing to any total |
| YoutubeService.FallbackTotals | backend/services/youtube.service.js:384-386 | the Supabase fallback counts every stored row as a video, sums the stored view counts (missing as 0), and reports no likes or comments |
| YoutubeService.ScanPage | backend/services/youtube.service.js:404-411 | the scan of one page keeps the video ids of the in-window items up to the first older item and says whether it met one |
| YoutubeService.PlaylistVideoIds | backend/services/youtube.service.js:393-415 | the paging loop gathers exactly the ids of the page sequence it follows, with one to five requests |
| YoutubeService.PageLoop | backend/services/youtube.service.js:394-415 | at most the given number of requests are made and the ids are those of the pages followed |
| YoutubeService.RequestPage | backend/services/youtube.service.js:396-413 | one request yields the page's in-window ids and the token line 412 chooses for the next request |
| YoutubeService.PagingAsWrittenReadsOnePage | backend/services/youtube.service.js:393-412 | as written only the first page is ever read, because the token checked is the one the first page was requested with, which is null |
| YoutubeService.PagingIntendedFollowsToken | backend/services/youtube.service.js:412 | with the intended test a full, entirely in-window first page with a next-page token is followed by the next page |
| YoutubeService.CollectBound | backend/services/youtube.service.js:393-415 | no more than 50 ids are gathered per request made |
| YoutubeQueries.BoundClause | backend/services/youtube.service.js:691-720 | a bound is added exactly when the value is truthy and parses to a number that is positive (strict bounds) or non-negative |
| YoutubeQueries.DateClauses | backend/services/youtube.service.js:660-688 | the date filter only ever constrains the publish time, from below or strictly from above |
| YoutubeQueries.ApplyDateFilter | backend/services/youtube.service.js:660-688 | the reassignments of `query` for the date filter add exactly the date clauses |
| YoutubeQueries.ApplyBounds | backend/services/youtube.service.js:690-720 | the six bound tests append their clauses in the source's order |
| YoutubeQueries.ApplyOrder | backend/services/youtube.service.js:727-743 | one database order is appended unless the engagement-rate sort is asked for |
| YoutubeQueries.ApplyRange | backend/services/youtube.service.js:640 | the range is rows (page−1)·limit to (page−1)·limit+limit−1 (also line 746) |
| YoutubeQueries.BuildQuery | backend/services/youtube.service.js:640-746 | the builder produces the requested channels' clause, the date clauses, the bounds, the order and the range, in that order |
| YoutubeQueries.ChannelsFirst | backend/services/youtube.service.js:643-658 | the query first restricts the rows to the requested channels, and names no other set of channels |
| YoutubeQueries.FilterRules | backend/services/youtube.service.js:691-720 | duration min/max and views max apply when they parse above 0; views, likes and comments min apply when they parse at or above 0 |
| YoutubeQueries.BoundsComeFromValues | backend/services/youtube.service.js:691-720 | conversely every duration or count bound in the query comes from a value that passed its own test |
| YoutubeQueries.SortTable | backend/services/youtube.service.js:727-743 | the engagement-rate sort has no database order; every other value has exactly one, an unknown one publish time descending; only views_low_high and date_old_new ascend |
| YoutubeQueries.QueryEndsWithRange | backend/services/youtube.service.js:745-746 | the query always ends with the page range, which spans exactly `limit` rows |
| YoutubeQueries.DateFilterTable | backend/services/youtube.service.js:675-688 | last_7_days cuts at 7 days back; 'any', empty or no filter adds no date clause; an unrecognised filter cuts at now |
| YoutubeQueries.CustomRange | backend/services/youtube.service.js:661-674 | a custom range keeps videos from the start date up to, and including, the end day |
| YoutubeQueries.DefaultQuery | backend/services/youtube.service.js:615-658 | with only channel ids given the query reads those channels' rows, newest first, rows 0 to 23 |
| YoutubeQueries.EngagementRate | backend/services/youtube.service.js:783-792 | the rate is 0 without views and never negative for non-negative counts |
| YoutubeQueries.Rate | backend/services/youtube.service.js:783-792 | each fetched row, in order, gets its own engagement rate |
| YoutubeQueries.MinRate | backend/services/youtube.service.js:795-796 | a minimum rate is applied only when it parses to a number above 0 |
| YoutubeQueries.RateFilterKeeps | backend/services/youtube.service.js:796-798 | with a minimum rate exactly the rows at or above it are kept, and no row is added |
| YoutubeQueries.InsertElements | backend/services/youtube.service.js:801-803 | inserting one row adds exactly that row |
| YoutubeQueries.InsertSorted | backend/services/youtube.service.js:801-803 | inserting into a descending list keeps it descending |
| YoutubeQueries.SortByRateSorts | backend/services/youtube.service.js:801-803 | the engagement-rate sort yields descending rates and is a permutation of its input |
| YoutubeQueries.SortSortedIsIdentity | backend/services/youtube.service.js:801-803 | rows already in descending order keep their order (the sort is stable) |
| YoutubeQueries.Ceil | backend/services/youtube.service.js:810 | `Math.ceil` gives the least integer at or above its argument |
| YoutubeQueries.TotalPages | backend/services/youtube.service.js:809-810 | for a positive limit, ceil(count/limit) pages hold all counted rows and one page fewer does not; a zero limit gives no finite page count |
| YoutubeQueries.CeilPages | backend/services/youtube.service.js:810 | (pages−1)·limit < total ≤ pages·limit |
| YoutubeQueries.EmptyChannelList | backend/services/youtube.service.js:636-638 | no channel ids gives an empty list with zero items and pages, whatever the database holds |
| YoutubeQueries.PostFetchShape | backend/services/youtube.service.js:783-803 | the listed rows are fetched rows with their own rates, all at or above a given minimum, and descending for the engagement-rate sort |
| YoutubeQueries.RatedRows | backend/services/youtube.service.js:783-792 | every rated row is a fetched row with its own rate |
| YoutubeQueries.KeptRows | backend/services/youtube.service.js:795-798 | the filter keeps only rows, all at or above a given minimum rate |
| YoutubeQueries.SortedRows | backend/services/youtube.service.js:801-803 | the sorted rows are the kept rows in descending order |
| YoutubeQueries.ListingPagination | backend/services/youtube.service.js:632-635 | a listed answer is the post-processed rows with the count taken before the rate filter; an unready store throws 'Supabase client not ready' (also lines 805-815) |
| NotificationService.Or | backend/services/NotificationService.js:29-34 | `x || d` gives the value when it is a non-empty string and otherwise the default |
| NotificationService.Token | backend/services/NotificationService.js:49-57 | each placeholder token is a brace-enclosed name with no other brace inside |
| NotificationService.TokenRoundTrip | backend/services/NotificationService.js:49-57 | the nine tokens are distinct: each is read back to its own placeholder |
| NotificationService.InOrder | backend/services/NotificationService.js:48-57 | every one of the nine placeholders is in the replacement chain |
| NotificationService.RoundMinutes | backend/services/NotificationService.js:42 | `Math.round(diffMs / 60000)` is the nearest whole minute, halves rounded up |
| NotificationService.FormatMessage | backend/services/NotificationService.js:26-27 | an absent or empty template gives 'Trend Alert: Video data missing.' |
| NotificationService.TimeAgoBuckets | backend/services/NotificationService.js:36-46 | time_ago is "Nm ago" under 60 rounded minutes, floor(N/60)+"h ago" under 1440, and floor(N/1440)+"d ago" beyond |
| NotificationService.TimeAgoExamples | backend/services/NotificationService.js:41-45 | exactly one hour ago reads "1h ago" and exactly one day ago "1d ago" |
| NotificationService.OneAgo | backend/services/NotificationService.js:42-45 | 60 and 1440 rounded minutes read "1h ago" and "1d ago" |
| NotificationService.ApplyAbsent | backend/services/NotificationService.js:48-57 | replacements of tokens that do not occur leave the text unchanged |
| NotificationService.FormatWithoutPlaceholders | backend/services/NotificationService.js:48-57 | a non-empty template containing no placeholder token is returned unchanged |
| NotificationService.Subst | backend/services/NotificationService.js:48-57 | substituting one placeholder keeps the number of template pieces |
| NotificationService.TokenNotPrefix | backend/services/NotificationService.js:49-57 | no token starts a text that starts with a different token |
| NotificationService.SubstStep | backend/services/NotificationService.js:49-57 | one global `replace` of a token replaces exactly that placeholder's occurrences in the template |
| NotificationService.ReplaceAtToken | backend/services/NotificationService.js:49-57 | a token at the front is replaced by its value |
| NotificationService.ReplacePastToken | backend/services/NotificationService.js:49-57 | a different token at the front is copied unchanged |
| NotificationService.SubstPlain | backend/services/NotificationService.js:49-57 | substituting a brace-free value keeps the template's text brace-free |
| NotificationService.ApplyAllRender | backend/services/NotificationService.js:48-57 | the chain of nine replacements acts on the template pieces as the chain of substitutions |
| NotificationService.SubstAllAt | backend/services/NotificationService.js:48-57 | after the chain, exactly the slots of the placeholders replaced hold their values |
| NotificationService.FormatFillsTemplate | backend/services/NotificationService.js:26-57 | every occurrence of each of the nine placeholders is replaced by its value and nothing else changes, for brace-free text and values |
| NotificationService.DefaultValues | backend/services/NotificationService.js:29-57 | missing values default to 'N/A', '0', '#', 'recently' and 'User' |
| NotificationService.ChannelNameFallback | backend/services/NotificationService.js:30 | channel_name is the video's channel title when set, else the group name value ('N/A' without one) |
| NotificationService.SuccessNames | backend/services/NotificationService.js:109-149 | `sentTo` has at most one name per log entry |
| NotificationService.Record | backend/services/NotificationService.js:108-112 | a step appends its entry to the log and pushes the channel onto `sentTo` exactly for a success |
| NotificationService.Deliver | backend/services/NotificationService.js:77-158 | the three steps leave the log of the email, Discord and Telegram entries and the successes named in order |
| NotificationService.SomeFailed | backend/services/NotificationService.js:163 | `some(status === 'failed')` is true iff some entry is a failure |
| NotificationService.SendTrendAlert | backend/services/NotificationService.js:67-193 | the alert run is the one the specification function describes: nothing without user, record, video or group; else the log, `sentTo`, status and update |
| NotificationService.Attempt | backend/services/NotificationService.js:73-182 | the run's status is computed from the log and written with it only when the store is ready |
| NotificationService.SuccessNamesAppend | backend/services/NotificationService.js:109-149 | the successes of two logs in sequence are the successes of each in sequence |
| NotificationService.ChannelGating | backend/services/NotificationService.js:78-135 | each channel is attempted, and logged once, exactly when its verified flag and its address or id are set |
| NotificationService.EntryShapes | backend/services/NotificationService.js:78-158 | each step logs one entry for its own channel exactly when its gate is open |
| NotificationService.GatedThree | backend/services/NotificationService.js:78-158 | three gated steps give a log naming exactly the open channels |
| NotificationService.SuccessNamesOne | backend/services/NotificationService.js:109-149 | a single entry names its channel exactly when it is a success |
| NotificationService.SentToOrder | backend/services/NotificationService.js:109-149 | `sentTo` lists the channels that succeeded in the order Email, Discord, Telegram |
| NotificationService.EntryNames | backend/services/NotificationService.js:108-156 | each channel's entry contributes its name exactly when that channel succeeded |
| NotificationService.FailuresLogged | backend/services/NotificationService.js:110-157 | the log holds a failure iff some open channel did not succeed |
| NotificationService.FailedInThree | backend/services/NotificationService.js:163 | a log of three single steps has a failure iff one of the steps failed |
| NotificationService.StatusTable | backend/services/NotificationService.js:161-167 | NOTIFIED (…) when something succeeded; NOTIFICATION_FAILED_ALL_ATTEMPTED iff nothing succeeded but a channel was attempted; NO_VERIFIED_CHANNELS iff none was |
| NotificationService.NotifiedDistinct | backend/services/NotificationService.js:161-167 | a NOTIFIED status is never one of the other two |
| NotificationService.DiscordFalseIsFailure | backend/services/NotificationService.js:121-127 | a DM that resolves false is logged as a failure with the fixed message |
| NotificationService.MissingBotToken | backend/services/NotificationService.js:139-141 | without a bot token no Telegram request is made and the attempt is logged as failed |
| NotificationService.UpdateWhenReady | backend/services/NotificationService.js:68-71 | nothing happens without user, record, video or group; the row is updated with the status and log exactly when the store is ready (also lines 169-182) |
| NotificationService.FormatTextThenToken | backend/services/NotificationService.js:48-57 | a brace-free text followed by one token becomes the text followed by the value |
| NotificationService.TextThenSlot | backend/services/NotificationService.js:48-57 | a text then a slot renders as the text then the token, and fills to the text then the value |
| NotificationService.DefaultSubjectFilled | backend/services/NotificationService.js:79-96 | with no subject template the subject is the default text followed by the video title value |
| TelegramInfoBot.Escape | backend/telegram_info_bot.py:59-64 | escaping adds at most one backslash per character and removes nothing |
| TelegramInfoBot.EscapeRoundTrip | backend/telegram_info_bot.py:59-64 | dropping the escape backslashes gives back the original text |
| TelegramInfoBot.EscapeWellEscaped | backend/telegram_info_bot.py:59-64 | every special character of the output is preceded by a backslash and no plain character is |
| TelegramInfoBot.UnescapeEscape | backend/telegram_info_bot.py:59-64 | conversely every well-escaped text is the escape of its unescaped form |
| TelegramInfoBot.EscapePlain | backend/telegram_info_bot.py:64 | text without special characters is left as it is |
| TelegramInfoBot.EscapeAppend | backend/telegram_info_bot.py:59-64 | escaping works character by character: the escape of a concatenation is the concatenation of the escapes |
| TelegramInfoBot.EscapeChatId | backend/telegram_info_bot.py:63-64 | a non-negative chat id is unchanged and a negative one appears as `\-` followed by its digits |
| TelegramInfoBot.GetInfo | backend/telegram_info_bot.py:39-76 | one reply when Telegram accepts it; otherwise the same first attempt followed by the fallback "couldn't retrieve the info" reply |
| TelegramInfoBot.ErrorHandler | backend/telegram_info_bot.py:30-36 | replies "something went wrong" once exactly when the update carries a message, and never raises |
| TelegramInfoBot.StartBot | backend/telegram_info_bot.py:11-16 | the bot starts exactly when the token is set and non-empty, and with that token |
| TelegramInfoBot.MissingUserOrChat | backend/telegram_info_bot.py:41-44 | without an effective user or chat the only reply is "couldn't identify your chat" |
| TelegramInfoBot.ZeroChatId | backend/telegram_info_bot.py:50-53 | a falsy (zero) chat id gets the "couldn't get your chat ID" reply and nothing else |
| TelegramInfoBot.InfoReply | backend/telegram_info_bot.py:66-73 | on success exactly one reply is sent, in MarkdownV2, starting with the unescaped user id in backticks |
| TelegramInfoBot.LeadStartsWithId | backend/telegram_info_bot.py:67 | the message starts with the user-id line |
| TelegramInfoBot.HeadFirst | backend/telegram_info_bot.py:66-72 | a text starts with its first piece |
| TelegramInfoBot.PrefixStep | backend/telegram_info_bot.py:66-72 | appending keeps a prefix |
| TelegramInfoBot.ChatIdTwice | backend/telegram_info_bot.py:69-71 | the escaped chat id appears twice in the reply, each time in backticks |
| TelegramInfoBot.TwiceIn | backend/telegram_info_bot.py:69-71 | a text holding a piece at two places can be cut between them |
| TelegramInfoBot.ContainsMiddle | backend/telegram_info_bot.py:69-71 | a piece is contained in any text it sits in the middle of |
| TelegramInfoBot.UsernameShown | backend/telegram_info_bot.py:58-61 | a username is shown as "@" plus its escape, which unescapes back to it; a missing one as the escaped "(Not Set)" |
| TelegramInfoBot.EscapeParenthesised | backend/telegram_info_bot.py:61-71 | a plain word in parentheses is escaped by escaping the two parentheses |
| TelegramInfoBot.NotSetIsEscaped | backend/telegram_info_bot.py:61 | the hand-escaped literal is exactly the escape of "(Not Set)" |
| TelegramInfoBot.FailureFallsBack | backend/telegram_info_bot.py:74-76 | any failure of the first reply is followed by the fallback reply |
| UserController.Column | backend/controllers/user.controller.js:60-80 | `process.env.NAME || fallback` is the fallback unless the variable is set to a non-empty name |
| UserController.FillSnoc | backend/controllers/user.controller.js:60-80 | one more guarded assignment acts on the object built so far |
| UserController.FillKeys | backend/controllers/user.controller.js:60-80 | a key is in the update object exactly when some assignment for it had a defined value |
| UserController.FillValue | backend/controllers/user.controller.js:60-80 | a key holds the value of its last defined assignment |
| UserController.FillDistinct | backend/controllers/user.controller.js:60-80 | with distinct columns the object holds exactly the defined assignments, each with its value |
| UserController.Assign | backend/controllers/user.controller.js:60-62 | `if (value !== undefined) data[column] = value` extends the object by exactly that guarded assignment |
| UserController.BuildPreferences | backend/controllers/user.controller.js:57-87 | the onboarding update object holds the defined fields, `selectedChannels` as JSON text when it is an array, the three channel inputs when `channelInputs` is an object, and the onboarding flag; a null `channelInputs` throws |
| UserController.AssignInputs | backend/controllers/user.controller.js:70-80 | the three `channelInputs` members are assigned only when it is an object, and reading them from null throws |
| UserController.InputSlots | backend/controllers/user.controller.js:70-80 | the three channel-input assignments are those of the email, telegram and discord members |
| UserController.UpdateUserPreferences | backend/controllers/user.controller.js:44-109 | the handler's answer is the one the outcome function describes |
| UserController.UpdateProfile | backend/controllers/user.controller.js:116-156 | the handler's answer is the one the outcome function describes |
| UserController.NotificationData | backend/controllers/user.controller.js:176-187 | the notification update object holds exactly the fields given |
| UserController.UpdateNotificationSettings | backend/controllers/user.controller.js:163-209 | the handler's answer is the one the outcome function describes |
| UserController.GetNotificationSettings | backend/controllers/user.controller.js:216-242 | 401 without a user, 404 for no record, the error passed on, else 200 with the three defaulted columns |
| UserController.GetAlertPreferences | backend/controllers/user.controller.js:249-280 | 401 without a user, 404 for no record, the error passed on, else 200 with the seven defaulted columns |
| UserController.GetAlertTemplates | backend/controllers/user.controller.js:345-376 | 401 without a user, 404 for no record, the error passed on, else 200 with the four templates, defaults for falsy ones |
| UserController.BuildAlertPreferences | backend/controllers/user.controller.js:305-313 | the alert-preference update object holds the seven guarded assignments |
| UserController.UpdateAlertPreferences | backend/controllers/user.controller.js:287-338 | the handler's answer is the one the outcome function describes |
| UserController.BuildTemplates | backend/controllers/user.controller.js:396-400 | the template update object holds the four guarded assignments |
| UserController.UpdateAlertTemplates | backend/controllers/user.controller.js:383-420 | the handler's answer is the one the outcome function describes |
| UserController.MissingUserRejected | backend/controllers/user.controller.js:46-50 | every one of the eight handlers answers 401 and calls no store when the user id is missing (also lines 118-120, 165-167, 218-220, 251-253, 289-291, 347-349, 385-387) |
| UserController.OnboardingAlwaysWritten | backend/controllers/user.controller.js:87-92 | the onboarding flag is always set, so the update object is never empty and the 400 answer is unreachable |
| UserController.NullInputsThrow | backend/controllers/user.controller.js:70-71 | a null `channelInputs` passes the `typeof` test and throws before the store is called |
| UserController.FillWrites | backend/controllers/user.controller.js:60-80 | with distinct columns every defined field is written and no other column is |
| UserController.PreferenceColumnsDistinct | backend/controllers/user.controller.js:60-87 | with the default names the six onboarding columns are distinct |
| UserController.PreferencesWritten | backend/controllers/user.controller.js:60-87 | with the default names the onboarding object holds exactly the defined fields and `onboarding_complete: true` |
| UserController.PreferencesSent | backend/controllers/user.controller.js:94 | what the onboarding handler sends to the store is that update object |
| UserController.ChannelsCellMeaning | backend/controllers/user.controller.js:66-69 | `selectedChannels` is written, as its JSON text, exactly when it is an array |
| UserController.InputCellMeaning | backend/controllers/user.controller.js:70-80 | a channel input is written exactly when `channelInputs` is an object that has that member |
| UserController.FillEmpty | backend/controllers/user.controller.js:90 | the update object is empty exactly when every field is undefined (also lines 136, 191, 316, 403) |
| UserController.ProfileNoFields | backend/controllers/user.controller.js:136-140 | a profile update with no field given answers 200 without calling the store, and any field given calls it |
| UserController.NotificationNoFields | backend/controllers/user.controller.js:191-193 | a notification update with no field given answers 200 without calling the store, and any field given calls it |
| UserController.TemplatesNoFields | backend/controllers/user.controller.js:402-405 | a template update with no template given answers 200 without calling the store, and any template given calls it |
| UserController.ProfileWritten | backend/controllers/user.controller.js:126-131 | with the default names a profile update writes exactly the given fields |
| UserController.NotificationWritten | backend/controllers/user.controller.js:179-187 | with the default names a notification update writes exactly the given fields |
| UserController.NotificationSent | backend/controllers/user.controller.js:195 | once a field is given the update object is what is sent |
| UserController.NotificationFill | backend/controllers/user.controller.js:179-187 | the default notification columns are written exactly as given |
| UserController.AlertColumnsDistinct | backend/controllers/user.controller.js:307-313 | with the default names the seven alert columns are distinct |
| UserController.AlertPreferencesWritten | backend/controllers/user.controller.js:307-313 | the object holds exactly the seven names given, thresholds as `parseInt(x, 10) || 0` and filters as sent; any other body field is dropped |
| UserController.AlertPreferencesSent | backend/controllers/user.controller.js:315-320 | the handler sends that object whenever it is non-empty, and nothing otherwise |
| UserController.ThresholdMeaning | backend/controllers/user.controller.js:307-310 | numbers and their decimal text are kept; empty text and null become 0 |
| UserController.ThresholdIs | backend/controllers/user.controller.js:307-310 | a threshold is written as its `parseInt(x, 10) || 0` value |
| UserController.AfterUpdateStrips | backend/controllers/user.controller.js:96-103 | the response is the stored record without its password column, every other column kept |
| UserController.PasswordStripped | backend/controllers/user.controller.js:96-98 | the three handlers that return the user strip the password column (also lines 143-144, 196-197) |
| UserController.PreferencesStrip | backend/controllers/user.controller.js:96-98 | the onboarding response strips the password column |
| UserController.ProfileStrip | backend/controllers/user.controller.js:143-144 | the profile response strips the password column |
| UserController.NotificationStrip | backend/controllers/user.controller.js:196-197 | the notification-settings response strips the password column |
| UserController.EchoesOnlyUpdated | backend/controllers/user.controller.js:323-327 | the alert-preference and template updates echo back exactly the written columns, with the stored values (also lines 408-411) |
| UserController.PreferencesEchoWritten | backend/controllers/user.controller.js:323-327 | the alert-preference update echoes only the written columns |
| UserController.TemplatesEchoWritten | backend/controllers/user.controller.js:408-411 | the template update echoes only the written columns |
| UserController.NotificationDefaults | backend/controllers/user.controller.js:228-232 | the notification reader returns exactly three columns, null or missing values filled with '' and 'Instantly' |
| UserController.AlertReaderWrites | backend/controllers/user.controller.js:264-272 | the alert-preference reader fills its seven columns in order |
| UserController.AlertPreferenceDefaults | backend/controllers/user.controller.js:264-272 | null or missing values read as 10000, 1000, 100, 500 and "" for the three filters, and no other column is returned |
| UserController.FillFour | backend/controllers/user.controller.js:359-368 | four defined assignments give the object that maps each column to its value |
| UserController.TemplateDefaults | backend/controllers/user.controller.js:32-37 | every falsy stored template reads as its default, and only the four template columns are returned (also lines 359-368) |
| TrendsController.QueryInt | backend/controllers/trends.controller.js:39-40 | `parseInt(q, 10) || d` is never 0: unreadable or zero parameters fall back to the default |
| TrendsController.CeilDiv | backend/controllers/trends.controller.js:64 | `Math.ceil(count / limit)` is the least whole number of pages of `limit` rows that holds `count` rows |
| TrendsController.PagingDefaults | backend/controllers/trends.controller.js:39-40 | absent, empty, non-numeric or zero paging parameters give page 1 of 20, readable non-zero ones are used as given |
| TrendsController.RangeTiles | backend/controllers/trends.controller.js:41-51 | a page asks for exactly `limit` rows from `(page - 1) * limit`; consecutive pages ask for adjacent ranges and page 1 starts at row 0 |
| TrendsController.TotalPagesBound | backend/controllers/trends.controller.js:64 | the page count is never negative, is 0 exactly when there are no alerts, and is the ceiling of count over limit |
| TrendsController.MulPositive | backend/controllers/trends.controller.js:64 | multiplying by a positive page size keeps the sign and order used by the page-count bound |
| TrendsController.AlertsGate | backend/controllers/trends.controller.js:29-51 | not ready answers 503, a missing user 401, and only then is the alerts query made: the requesting user's alerts alone, newest first by trigger time, in the page's row range |
| TrendsController.DetailErrors | backend/controllers/trends.controller.js:103-113 | the not-found error code and a null row answer 404, and any other query error goes to the error handler |
| TrendsController.OwnerOnly | backend/controllers/trends.controller.js:115-118 | an alert is shown exactly when its `user_id` is strictly equal to the requester's id; otherwise 403 and no history query |
| TrendsController.HistoryAttached | backend/controllers/trends.controller.js:120-137 | an owned alert comes back with all its columns plus `videoStatsHistory`: the history rows when asked and answered, an empty list when the query fails or the alert has no video id; the history is asked for exactly when the video id is truthy, as that video's 50 newest checks by `checked_at` descending |
| YoutubeController.DataApiDisabledMissed | backend/controllers/youtube.controller.js:108 | the case-sensitive `includes('disabled')` misses the `dataApiDisabled` reason named beside it, and the case-insensitive test catches it |
| YoutubeController.MapError | backend/controllers/youtube.controller.js:93-112 | keyInvalid gives 500, a quota reason 429, a reason holding the lower-case text "disabled" 403, and anything else the API's own status and message or 500 and the default message |
| YoutubeController.ParseChannel | backend/controllers/youtube.controller.js:76-86 | the answer is a channel carrying the id of the channels.list item |
| YoutubeController.LookupChannel | backend/controllers/youtube.controller.js:11-117 | the handler's answer, the calls it makes and the id it asks channels.list about are those of the decision table `LookupOf` |
| YoutubeController.Search | backend/controllers/youtube.controller.js:23-52 | from the search on, the handler follows `AfterSearch` |
| YoutubeController.Details | backend/controllers/youtube.controller.js:54-90 | a failed channels.list answers its mapped error, no items answer 404 with a message that depends on whether the search found something, else the first item is parsed |
| YoutubeController.ErrorReply | backend/controllers/youtube.controller.js:93-115 | the catch block as written, with its case-sensitive test, always answers with a status and a message |
| YoutubeController.ErrorReplyIntended | backend/controllers/youtube.controller.js:93-115 | the catch block with a case-insensitive test always answers with a status and a message |
| YoutubeController.Guard | backend/controllers/youtube.controller.js:14-21 | a request that passes the guards has a string query |
| YoutubeController.Admitted | backend/controllers/youtube.controller.js:14-21 | a string query that does not trim to "" with a usable key passes the guards |
| YoutubeController.NotBlank | backend/controllers/youtube.controller.js:14 | text that does not trim to "" is not a blank query |
| YoutubeController.RejectedBeforeRequest | backend/controllers/youtube.controller.js:14-21 | a missing or all-blank query answers 400, and a usable query with a missing, placeholder or short key answers 500, both before any request |
| YoutubeController.QueryUsedAsId | backend/controllers/youtube.controller.js:39-62 | when the search finds nothing, channels.list is asked about the raw query |
| YoutubeController.NoHitsAskQuery | backend/controllers/youtube.controller.js:42-46 | with no search hits the chosen id is the query itself |
| YoutubeController.HitWithoutId | backend/controllers/youtube.controller.js:40-52 | a first hit without a channel id answers 404 and channels.list is not called |
| YoutubeController.NoIdFirst | backend/controllers/youtube.controller.js:40-52 | a first hit without a channel id stops the handler with 404 |
| YoutubeController.ParsedShape | backend/controllers/youtube.controller.js:77-86 | the id is the item's; the title defaults to 'Unknown Title'; the thumbnail prefers the default size, then the medium size, then the placeholder; the count is left out exactly when the channel hides it |
| YoutubeController.SubscriberCountRead | backend/controllers/youtube.controller.js:85 | a visible subscriber count is read back as the number its decimal text denotes |
| YoutubeController.ErrorTable | backend/controllers/youtube.controller.js:94-111 | the error table as written: keyInvalid 500, quotaExceeded and dailyLimitExceeded 429, a reason holding "disabled" 403, dataApiDisabled and an empty reason list as no reason, otherwise the API's status or 500 with its message or the default |
| YoutubeController.ErrorTableIntended | backend/controllers/youtube.controller.js:108 | with the case-insensitive test dataApiDisabled answers 403, and the two tables differ only for reasons that mention "disabled" in another letter case |
| YoutubeController.DisabledLowered | backend/controllers/youtube.controller.js:108 | a reason the case-sensitive test catches is caught by the case-insensitive one too |
| YoutubeController.SearchedOnlyWhenValid | backend/controllers/youtube.controller.js:14-37 | a blank query answers 400 and a non-string one throws, both without a call; the search is made exactly for a usable string query with a usable key; a failed search answers its mapped error (also lines 92-116) |
| YoutubeController.GuardTable | backend/controllers/youtube.controller.js:14-21 | the guards stop exactly the blank, non-string and unusable-key requests, before any call |
| YoutubeController.AfterSearchSearched | backend/controllers/youtube.controller.js:29-37 | past the guards the search is always made, and a failed search answers its mapped error (also lines 92-116) |
| YoutubeController.DetailsAskedAboutChosenId | backend/controllers/youtube.controller.js:39-62 | channels.list is asked only after a successful search, and only about the non-empty id that step 1 chose |
| YoutubeController.DetailsPastGuard | backend/controllers/youtube.controller.js:39-62 | past the guards, channels.list is asked only about the chosen non-empty id |
| YoutubeController.NoDetailsAtGuard | backend/controllers/youtube.controller.js:14-21 | a request stopped by the guards never reaches channels.list |
| YoutubeController.LookupSplit | backend/controllers/youtube.controller.js:14-23 | the handler answers with the guards' reply, or else with the rest of the handler |
| YoutubeController.DetailsAfterSearch | backend/controllers/youtube.controller.js:39-62 | from the search on, channels.list is asked only about the chosen non-empty id |
| YoutubeController.AnswerFromFirstItem | backend/controllers/youtube.controller.js:76-90 | a channel answer is always the parse of the first channels.list item |
| YoutubeController.AnswerAfterSearch | backend/controllers/youtube.controller.js:76-90 | from the search on, a channel answer is the parse of the first channels.list item |
| YoutubeController.GuardNoAnswer | backend/controllers/youtube.controller.js:14-21 | the guards answer with an error or a throw, never with a channel |
| AuthController.GenerateToken | backend/controllers/auth.controller.js:6-10 | the token payload carries the user's id under `id` and nothing else, and no `userId` |
| AuthController.SignupRejects | backend/controllers/auth.controller.js:24-35 | a missing name, email or password, then a password shorter than 8, each answer 400 before any store call; a taken email answers 400 with no create call |
| AuthController.SignupSucceeds | backend/controllers/auth.controller.js:32-57 | a valid new signup creates the user with the name, email and hash (never the plain password) and answers 201 with a token for the record's `Id` and the record without the hash column |
| AuthController.SignupCreatedIff | backend/controllers/auth.controller.js:19-57 | signup answers 201 exactly when every check passes, no user has the email, hashing succeeds and the store returns a record |
| AuthController.SignupLeaksHash | backend/controllers/auth.controller.js:52 | as written, with the column variable unset, the key stripped is "undefined", so the hash written under "password" is sent back |
| AuthController.SignupStripsDefaultColumn | backend/controllers/auth.controller.js:52-87 | the corrected signup strips the same column login reads, "password" by default |
| AuthController.SignupsAgreeWhenSet | backend/controllers/auth.controller.js:52-87 | the as-written and corrected signups agree whenever the column variable is set to a non-empty name |
| AuthController.LoginSameRefusal | backend/controllers/auth.controller.js:81-92 | an unknown email and a wrong password get the same 401 answer |
| AuthController.LoginRefusedIff | backend/controllers/auth.controller.js:76-92 | login answers 401 exactly when both fields are given and the user is unknown or the password does not match |
| AuthController.LoginSucceeds | backend/controllers/auth.controller.js:87-103 | a matching password answers 200 with a token for the user's `Id` and the record without its password column, having compared against the value stored in that column |
| AuthController.TokenPayload | backend/controllers/auth.controller.js:6-10 | the payload is exactly `{ id }` and the default expiry is one day |
| WebSocketService.HandleMessage | backend/services/websocket.service.js:16-51 | a connection is authenticated only together with the auth_success reply, and only as a truthy user id |
| WebSocketService.Without | backend/services/websocket.service.js:55-60 | deleting a connection keeps every other connection and drops exactly that one |
| WebSocketService.WithoutDistinct | backend/services/websocket.service.js:55-60 | deleting a connection keeps the registry free of repeats |
| WebSocketService.Targets | backend/services/websocket.service.js:77-79 | the connections sent to are exactly the registered, open ones whose user id is strictly the target number |
| WebSocketService.Registry.constructor | backend/services/websocket.service.js:8 | the registry starts empty |
| WebSocketService.Registry.Set | backend/services/websocket.service.js:13-32 | `clients.set` maps the connection to the new entry, a new key going last in iteration order and an existing one keeping its place |
| WebSocketService.Registry.Connect | backend/services/websocket.service.js:10-63 | a new connection is registered with its timestamp id and a null user, and is sent the authentication request |
| WebSocketService.Registry.OnMessage | backend/services/websocket.service.js:16-51 | one message gives the handler's reply, and changes the registry only when the connection authenticates, then setting its user id and keeping its temporary id |
| WebSocketService.Registry.Disconnect | backend/services/websocket.service.js:53-61 | a close or an error deletes exactly that connection's entry |
| WebSocketService.Registry.SendToUser | backend/services/websocket.service.js:67-93 | a user id whose `Number` is NaN or not an integer sends nothing and answers false (decimal text such as "42.0" or "4.2e1" is the integer it denotes); otherwise every open connection of the user is sent the message in registry order, and the answer is true exactly when some such connection's send did not throw |
| WebSocketService.TargetsStep | backend/services/websocket.service.js:77-88 | one more connection of the registry adds itself to the targets exactly when it qualifies |
| WebSocketService.DeliveredSnoc | backend/services/websocket.service.js:81-86 | one more attempted send makes the answer true exactly when it did not throw or an earlier one did not |
| WebSocketService.DeliveredMeaning | backend/services/websocket.service.js:76-92 | the answer is true exactly when some open, non-failing connection has the target user id |
| WebSocketService.NonJsonRejected | backend/services/websocket.service.js:18-25 | a frame that is not JSON is answered with the format error and changes nothing |
| WebSocketService.AuthenticateIff | backend/services/websocket.service.js:27-41 | an authenticate message sets the user exactly when the verified payload has a truthy `userId`, to that id with auth_success; otherwise auth_error |
| WebSocketService.AuthTokensRejected | backend/services/websocket.service.js:29-31 | tokens issued at login and signup carry `id` and no `userId`, so presenting one is answered auth_error and leaves the connection unauthenticated |
| WebSocketService.AuthenticationRequired | backend/services/websocket.service.js:42-44 | before authentication any other message is answered auth_required |
| WebSocketService.AuthenticatedAnswers | backend/services/websocket.service.js:45-50 | an authenticated connection gets pong for a ping and no reply otherwise |
| WebSocketService.NaNReachesNobody | backend/services/websocket.service.js:69-73 | an object or non-numeric text is NaN as a user id |
| WebSocketService.TextAndNumberAgree | backend/services/websocket.service.js:69 | a user id given as decimal text targets the same number as the id itself |
| WebSocketService.DisconnectedNotTargeted | backend/services/websocket.service.js:55-79 | after a disconnect no send targets that connection |
| WebSocketService.DecimalTextTargets | backend/services/websocket.service.js:69-73 | a user id written as a number's digits, a point and zeros ("42.000") targets that number; one digit after the point and an exponent ("4.2e1") targets the shifted whole number; a non-zero digit after the point alone ("42.5") targets nobody |
| JsonValue.PointLiteral | backend/services/websocket.service.js:69 | `Number` reads digits, a point, fraction digits and an exponent as the mantissa scaled by the exponent less the fraction length |
| JsonValue.PointZerosRead | backend/services/websocket.service.js:69 | a whole number's digits followed by a point and zeros read as that number |
| JsonValue.PointZerosNumber | backend/services/websocket.service.js:69 | the same once `Number` has trimmed the text |
| JsonValue.PointExponentRead | backend/services/websocket.service.js:69 | a number `a`, a point, one digit `c` and an exponent `e >= 1` read as `10a + c` times `10^(e - 1)`, so "4.2e1" reads as 42 |
| JsonValue.PointExponentNumber | backend/services/websocket.service.js:69 | the same once `Number` has trimmed the text |
| JsonValue.FractionNotWhole | backend/services/websocket.service.js:69 | a number, a point and one non-zero digit ("42.5") read as no integer |
| JsonValue.FractionNumber | backend/services/websocket.service.js:69 | the same once `Number` has trimmed the text |
| AlertPreferencesStore.Put | src/stores/alertPreferencesStore.ts:217-222 | `{ ...thresholds, [field]: value }` replaces the named field and keeps every other one |
| AlertPreferencesStore.SetField | src/stores/alertPreferencesStore.ts:191-223 | editing a field stores its processed input in that field and changes no other field |
| AlertPreferencesStore.BlankTrims | src/stores/alertPreferencesStore.ts:207 | white space alone trims to the empty text |
| AlertPreferencesStore.NullableInput | src/stores/alertPreferencesStore.ts:205-207 | a nullable field is null for blank input, for "0" and for words, and holds any other integer typed in decimal |
| AlertPreferencesStore.MandatoryInput | src/stores/alertPreferencesStore.ts:208-215 | a mandatory field holds the integer typed and 0 for blank input or words; the comparison metric is kept exactly as typed |
| AlertPreferencesStore.NumberReading | src/stores/alertPreferencesStore.ts:134-144 | `getNumberOrNull` gives the default for a missing or null value, a words or true value, a list or an object, and a number as itself |
| AlertPreferencesStore.NumberNeverNull | src/stores/alertPreferencesStore.ts:146-149 | with a numeric default `getNumberOrDefault` is never null and agrees with `getNumberOrNull` |
| AlertPreferencesStore.NumberTextReading | src/stores/alertPreferencesStore.ts:138-141 | a value stored as decimal text is read as its number, whatever non-digit text follows |
| AlertPreferencesStore.TrimKeepsHead | src/stores/alertPreferencesStore.ts:168 | trimming text that starts with a non-space keeps its first character |
| AlertPreferencesStore.FilterRule | src/stores/alertPreferencesStore.ts:164-171 | a stored filter is kept exactly when its trimmed text starts with `{`; a missing, empty or non-text value reads as the default, and the default is kept |
| AlertPreferencesStore.FetchFallsBack | src/stores/alertPreferencesStore.ts:116-121 | without a token, or when the request fails, both sections take their defaults (also lines 183-187) |
| AlertPreferencesStore.AnswerHasNoCamelKeys | src/stores/alertPreferencesStore.ts:152-164 | none of the store's camel-case keys is a key of the server's answer (the server side: backend/controllers/user.controller.js:264-272) |
| AlertPreferencesStore.CamelShape | src/stores/alertPreferencesStore.ts:152-164 | every camel-case key the store reads has no underscore where the answer's keys have one |
| AlertPreferencesStore.NotAnAnswerKey | backend/controllers/user.controller.js:264-272 | a key without those underscores is none of the answer's seven column names |
| AlertPreferencesStore.FetchAsWrittenShowsDefaults | src/stores/alertPreferencesStore.ts:152-171 | as written, whatever the user has stored, loading shows the default thresholds and channel filter (the server side: backend/controllers/user.controller.js:264-272) |
| AlertPreferencesStore.LoadShowsDefaults | src/stores/alertPreferencesStore.ts:116-188 | the store's load with a token and a successful answer shows the default thresholds and channel filter whatever is stored (the server side: backend/controllers/user.controller.js:264-272) |
| AlertPreferencesStore.FetchShowsStored | src/stores/alertPreferencesStore.ts:42-54 | read under the column names, loading shows the four stored thresholds, and the five fields the server does not answer with keep their defaults (also lines 152-162) (the server side: backend/controllers/user.controller.js:264-272) |
| AlertPreferencesStore.FetchFreshUser | backend/controllers/user.controller.js:264-272 | a user who never saved thresholds is shown the server's defaults, not the store's |
| AlertPreferencesStore.AnswerLookups | backend/controllers/user.controller.js:264-272 | the server answers four thresholds under the store's column names and none of the other five fields |
| AlertPreferencesStore.FetchShowsFilter | src/stores/alertPreferencesStore.ts:164-171 | a stored `{`-led channel filter is shown as stored under the column name, and as the default as written (the server side: backend/controllers/user.controller.js:264-272) |
| AlertPreferencesStore.SaveStores | src/stores/alertPreferencesStore.ts:245-266 | a save stores the four thresholds and the channel filter and nothing else: the relative and time-window settings are dropped and the niche and hashtag filters are left alone (the server side: backend/controllers/user.controller.js:305-313) |
| AlertPreferencesStore.PayloadBody | src/stores/alertPreferencesStore.ts:245-258 | the server finds the four thresholds and the channel filter in a save's payload and no other filter (the server side: backend/controllers/user.controller.js:293-301) |
| AlertPreferencesStore.Store.constructor | src/stores/alertPreferencesStore.ts:107-112 | the store starts unloaded, loading, with the default channel filter |
| AlertPreferencesStore.Store.FetchPreferences | src/stores/alertPreferencesStore.ts:116-188 | loading leaves the sections read under the camel-case keys, or the defaults, and clears the loading flag |
| AlertPreferencesStore.Store.SetThresholdField | src/stores/alertPreferencesStore.ts:191-224 | nothing while unloaded, otherwise only the named threshold changes |
| AlertPreferencesStore.Store.SetFilterField | src/stores/alertPreferencesStore.ts:227-231 | the channel filter takes the text, and stays null while null |
| AlertPreferencesStore.Store.SaveThresholds | src/stores/alertPreferencesStore.ts:234-274 | without a token or either section nothing is sent; otherwise the whole state is sent and the saving flag ends false |
| AlertPreferencesStore.Store.ResetThresholds | src/stores/alertPreferencesStore.ts:277-318 | both sections take their defaults before anything is sent and keep them whatever the outcome; with a token the defaults are sent |
| AlertTemplatesStore.With | src/stores/alertTemplatesStore.ts:112 | `{ ...templates, [field]: value }` replaces the named template and keeps the other three |
| AlertTemplatesStore.KeysInjective | src/stores/alertTemplatesStore.ts:54-59 | the column map and the body-field names each give the four templates distinct keys |
| AlertTemplatesStore.TextOr | src/stores/alertTemplatesStore.ts:96-99 | a missing or falsy template reads as the fallback, and a non-empty text as itself |
| AlertTemplatesStore.ChangedSnoc | src/stores/alertTemplatesStore.ts:179-184 | visiting one more field adds it to the payload, under its key with its current text, exactly when it differs from the initial copy |
| AlertTemplatesStore.AnyDiffersSnoc | src/stores/alertTemplatesStore.ts:180-183 | `hasChanges` after one more field is its old value or whether that field differs |
| AlertTemplatesStore.ChangedDomain | src/stores/alertTemplatesStore.ts:179-184 | every payload key is the key of some visited field that differs |
| AlertTemplatesStore.ChangedFields | src/stores/alertTemplatesStore.ts:179-184 | over distinct fields with distinct keys, a field's key is in the payload exactly when the field differs, and then with its current text |
| AlertTemplatesStore.SavePayload | src/stores/alertTemplatesStore.ts:176-190 | the save payload holds exactly the differing templates with their edited text, and there are changes exactly when the edited copy differs from the initial one |
| AlertTemplatesStore.CollectChanges | src/stores/alertTemplatesStore.ts:176-184 | the `forEach` loop builds that payload keyed by column name through `keyMap`, and the `hasChanges` flag |
| AlertTemplatesStore.Store.constructor | src/stores/alertTemplatesStore.ts:77-82 | the store starts with no templates, loading, and nothing being saved or reset |
| AlertTemplatesStore.Store.FetchTemplates | src/stores/alertTemplatesStore.ts:85-107 | loading puts the same templates in both copies, the ones read under the column names or the store's own defaults, and clears the loading flag |
| AlertTemplatesStore.Store.SetTemplateField | src/stores/alertTemplatesStore.ts:110-114 | an edit changes only the named template of the edited copy, and nothing while unloaded |
| AlertTemplatesStore.Store.ResetTemplateField | src/stores/alertTemplatesStore.ts:117-163 | the field shows the store's default at once; with a token and loaded templates that default alone is sent under the field's column name, and a successful request also records it in the initial copy |
| AlertTemplatesStore.Store.SaveTemplates | src/stores/alertTemplatesStore.ts:166-209 | without a token or either copy nothing happens; otherwise only the differing templates are sent, under their column names, nothing when none differs, and a successful request makes the edited copy the initial one |
| AlertTemplatesStore.ColumnsAreNotBodyFields | src/stores/alertTemplatesStore.ts:54-59 | no column name is one of the body field names the server reads |
| AlertTemplatesStore.SaveAsWrittenIgnored | src/stores/alertTemplatesStore.ts:176-199 | as written the payload is keyed by column name, so however many templates changed the server stores nothing and answers 200 with no fields to update |
| AlertTemplatesStore.NoStateKeys | src/stores/alertTemplatesStore.ts:181 | the as-written payload never holds a body field name |
| AlertTemplatesStore.TemplateColumnsDistinct | src/stores/alertTemplatesStore.ts:14-17 | the four template columns the server writes are distinct, each in its field's slot |
| AlertTemplatesStore.FieldIndex | src/stores/alertTemplatesStore.ts:54-59 | each template has its own position in the key order |
| AlertTemplatesStore.SaveStoresChanges | src/stores/alertTemplatesStore.ts:176-199 | keyed by the body field names, a save makes the server write exactly the changed templates, each to its column with its new text |
| AlertTemplatesStore.MisdecodedDefaultDiffers | src/stores/alertTemplatesStore.ts:20-41 | the store's fallback subject as written differs from the server's default, which is what a fresh user is shown |
| AlertTemplatesStore.ResetAsWrittenIgnored | src/stores/alertTemplatesStore.ts:117-137 | as written a reset sends the store's default under the column name, so the server stores nothing and answers 200 with no fields to update |
| AlertTemplatesStore.ResetStoresDefault | src/stores/alertTemplatesStore.ts:135-137 | sent under the body field name, a reset makes the server write that one template column with the default and nothing else |
| AlertTemplatesStore.ResetMatchesFreshUser | src/stores/alertTemplatesStore.ts:117-153 | with the intended defaults, resetting a template and reloading shows the same text as a user who never set it |
| AlertTemplatesStore.FetchFallsBack | src/stores/alertTemplatesStore.ts:85-106 | no token, a failed request or a null body give the store's own defaults, and a missing column reads as that default |
| WebSocketClient.Apply | src/hooks/useWebSocket.ts:127 | applying a partial user sets every named field to its new value (an `undefined` one reads as absent) and keeps every other field |
| WebSocketClient.SubscriptionFieldsMeaning | src/hooks/useWebSocket.ts:109-123 | the plan is asked for exactly when the payload has one that is not `===` the user's current plan, with the payload's value; likewise the status; no other field |
| WebSocketClient.SubscriptionSettles | src/hooks/useWebSocket.ts:109-128 | once applied, the same subscription update asks for nothing more, for plan and status values that compare by content |
| WebSocketClient.TelegramFieldsMeaning | src/hooks/useWebSocket.ts:134-149 | `verified` is asked for exactly when given and not `===` the current flag; the chat id is set to the payload's when verified is true and it differs, cleared to null when verified is false and the user has one, else untouched |
| WebSocketClient.VerifiedWithoutChatId | src/hooks/useWebSocket.ts:145-146 | a verified status without a chat id, for a user who has one, leaves the user with no chat id |
| WebSocketClient.TelegramSettles | src/hooks/useWebSocket.ts:134-155 | once applied, the same Telegram status asks for nothing more, for a boolean `verified` and a null, non-empty or non-zero chat id |
| WebSocketClient.UpdatesNeverEmpty | src/hooks/useWebSocket.ts:124-128 | the user context is never asked to apply an empty update |
| WebSocketClient.UnknownTypeDoesNothing | src/hooks/useWebSocket.ts:89-161 | only an auth request sends and only an auth error closes; only the two status types update the user, and never without a user; a message that is not an object does nothing |
| WebSocketClient.AuthOnRequest | src/hooks/useWebSocket.ts:90-97 | the token is sent exactly for an auth request over an open, held socket when there is a token, and it is that token |
| WebSocketClient.UpdatesLostWithoutUpdater | src/hooks/useWebSocket.ts:36 | without `updateUserContext` no message updates the user, and a subscription update that changes something throws (also lines 125-128) |
| WebSocketClient.UpdatesApplied | src/hooks/useWebSocket.ts:107-128 | with an updater, a subscription update naming another plan leaves the user on that plan once applied |
| WebSocketClient.TelegramPassedOn | src/hooks/useWebSocket.ts:131-156 | with an updater, any Telegram status change is passed on whole |
| WebSocketClient.Connection.constructor | src/hooks/useWebSocket.ts:37-39 | the hook starts with no socket, disconnected and with no last message |
| WebSocketClient.Connection.Connect | src/hooks/useWebSocket.ts:41-49 | a socket is opened exactly when there is a token and none is held |
| WebSocketClient.Connection.OnOpen | src/hooks/useWebSocket.ts:52-56 | opening marks the hook connected |
| WebSocketClient.Connection.OnClose | src/hooks/useWebSocket.ts:58-64 | closing marks it disconnected and clears the reference |
| WebSocketClient.Connection.Cleanup | src/hooks/useWebSocket.ts:175-181 | the cleanup closes a held socket and clears the reference |
| WebSocketClient.Connection.SendMessage | src/hooks/useWebSocket.ts:185-191 | a message goes out exactly when a socket is held and open |
| WebSocketClient.Connection.BuildSubscriptionFields | src/hooks/useWebSocket.ts:111-122 | the subscription arm's update object is the one `SubscriptionFields` describes |
| WebSocketClient.Connection.BuildTelegramFields | src/hooks/useWebSocket.ts:135-149 | the Telegram arm's update object is the one `TelegramFields` describes |
| WebSocketClient.Connection.OnMessage | src/hooks/useWebSocket.ts:71-165 | a parsed message becomes the last message and takes the effect its type calls for; a frame that is not JSON fails and one of another kind is ignored |
| WebSocketClient.Connection.Dispatch | src/hooks/useWebSocket.ts:89-161 | the `switch` on the message type has the effect `MessageEffect` describes |
| ResearchPage.JsRem | src/pages/ResearchPage.tsx:114 | JavaScript's `%`: the remainder takes the sign of the dividend and is smaller than the divisor in size |
| ResearchPage.SplitAtColon | src/pages/ResearchPage.tsx:115 | a duration text splits at its one colon into minutes and seconds |
| ResearchPage.ReadPaddedDigit | src/pages/ResearchPage.tsx:115 | a seconds value below 10, padded with a 0, reads back as itself |
| ResearchPage.ReadTwoDigits | src/pages/ResearchPage.tsx:115 | a two-digit seconds value reads back as itself |
| ResearchPage.NoColon | src/pages/ResearchPage.tsx:115 | a number's decimal text holds no colon |
| ResearchPage.SecondsText | src/pages/ResearchPage.tsx:115 | the seconds part is always two digits, colon-free, and reads back as the seconds |
| ResearchPage.PaddedDigit | src/pages/ResearchPage.tsx:115 | seconds below 10 are shown as two digits that read back as themselves |
| ResearchPage.PaddedPair | src/pages/ResearchPage.tsx:115 | seconds from 10 to 59 are shown as two digits that read back as themselves |
| ResearchPage.DurationRoundTrip | src/pages/ResearchPage.tsx:111-116 | a whole number of seconds is shown as minutes, a colon and two-digit seconds that read back as the same duration; a missing duration is "N/A" |
| ResearchPage.DurationTextReads | src/pages/ResearchPage.tsx:113-115 | the text for m minutes and sec seconds reads back as 60 * m + sec |
| ResearchPage.FormatParts | src/pages/ResearchPage.tsx:113-115 | a non-negative duration is shown as its whole minutes and its remaining seconds |
| ResearchPage.ReadParts | src/pages/ResearchPage.tsx:115 | reading back a two-part text gives minutes times 60 plus seconds |
| ResearchPage.StatsMeaning | src/pages/ResearchPage.tsx:414-445 | each per-video average is 0 without videos or without its total and otherwise the total spread over the videos; the engagement rate is null over all time, 0 without views or interactions, and otherwise likes plus comments per 100 views |
| ResearchPage.BoundsApply | src/pages/ResearchPage.tsx:448-457 | a view bound applies only when it reads as a positive integer; blank, words and 0 impose none, and with no bounds every row is kept |
| ResearchPage.NoBoundsKeepAll | src/pages/ResearchPage.tsx:452-457 | with no bounds the filter keeps every row in order |
| ResearchPage.LexTrichotomy | src/pages/ResearchPage.tsx:468 | text order is total, asymmetric and irreflexive |
| ResearchPage.LexTransitive | src/pages/ResearchPage.tsx:468 | text order is transitive |
| ResearchPage.OrderAntisymmetric | src/pages/ResearchPage.tsx:460-475 | swapping two rows negates the comparator's answer |
| ResearchPage.OrderTransitive | src/pages/ResearchPage.tsx:460-475 | the comparator's "not after" is transitive |
| ResearchPage.ComparatorConsistent | src/pages/ResearchPage.tsx:460-475 | the comparator is a consistent ordering for every column and direction, so the sort is well defined |
| ResearchPage.TableContents | src/pages/ResearchPage.tsx:413-477 | the table holds exactly the channels within the view bounds, each with its stats and as many times as given, sorted by the chosen column and direction |
| ResearchPage.MissingValuesPlaced | src/pages/ResearchPage.tsx:470-475 | in a numeric column missing values come last descending and first ascending, and the rest are in the chosen order |
| ResearchPage.SortState.constructor | src/pages/ResearchPage.tsx:168-169 | the table starts sorted by subscribers, descending |
| ResearchPage.SortState.HandleSort | src/pages/ResearchPage.tsx:482-489 | clicking the sorted column flips the direction, clicking another sorts by it descending |
| ResearchPage.PagingButtons | src/pages/ResearchPage.tsx:978-995 | Next is enabled exactly while the page is before the last, Previous exactly after the first, and the controls show only when there is more than one page |
| Onboarding.LastIndexOf | src/pages/Onboarding.tsx:69 | the last position of a character, or none exactly when it does not occur |
| Onboarding.EmailScanMatches | src/pages/Onboarding.tsx:67-71 | the pattern `^\S+@\S+\.\S+$` matches exactly the texts without white space that have some `@` with text before it and a later `.` with text on both sides |
| Onboarding.EmailExamples | src/pages/Onboarding.tsx:67-71 | "ann@site.io" is a valid address; a dot right after the `@`, a trailing dot or a space is not |
| Onboarding.DottedDomainPasses | src/pages/Onboarding.tsx:69 | an address with a dotted domain matches the pattern |
| Onboarding.DotAfterAtFails | src/pages/Onboarding.tsx:69 | a dot right after the `@` leaves no text between them, so the pattern fails |
| Onboarding.TrailingDotFails | src/pages/Onboarding.tsx:69 | a trailing dot leaves no text after it, so the pattern fails |
| Onboarding.WebhookExamples | src/pages/Onboarding.tsx:73-75 | every URL with the https Discord webhook prefix passes and the http one fails |
| Onboarding.InputProblem | src/pages/Onboarding.tsx:117-135 | a selected channel's input is fine exactly when its trimmed text is non-empty, a valid address for email and a webhook URL for Discord |
| Onboarding.FirstProblem | src/pages/Onboarding.tsx:115-138 | the notification inputs pass exactly when every selected channel's input is fine |
| Onboarding.AllFineAfterHead | src/pages/Onboarding.tsx:116-138 | every selected channel is fine exactly when the first one is and every later one is |
| Onboarding.AllAfterHead | src/pages/Onboarding.tsx:116 | a property holds of every element exactly when it holds of the first and of every later one |
| Onboarding.FirstProblemSkip | src/pages/Onboarding.tsx:116-138 | channels whose inputs are fine do not change the problem reported |
| Onboarding.CheckInputs | src/pages/Onboarding.tsx:115-142 | the validation loop stops at, and reports, the first selected channel whose input has a problem |
| Onboarding.Ids | src/pages/Onboarding.tsx:158 | `trackedChannels.map(ch => ch.id)` lists each tracked channel's id in order |
| Onboarding.NextAdvances | src/pages/Onboarding.tsx:97-189 | the wizard advances exactly when the step is not the last and its validation passes: a niche on the niche step; at least one channel, each with a fine input, on the notification step |
| Onboarding.NextSaves | src/pages/Onboarding.tsx:146-169 | the last step sends the preferences exactly when signed in, with the niche, channels, inputs and the tracked channels' ids |
| Onboarding.NextStopsAtFirst | src/pages/Onboarding.tsx:116-142 | the notification step reports the problem of the first selected channel that has one |
| Onboarding.FirstProblemAt | src/pages/Onboarding.tsx:116-138 | the problem reported is the one of the first channel that has a problem |
| Onboarding.ChannelToggled | src/pages/Onboarding.tsx:191-197 | checking appends the channel; unchecking removes every copy of it and keeps the others |
| Onboarding.Confirmed | src/pages/Onboarding.tsx:241-253 | confirming appends the looked-up channel at the end unless one with its id is already tracked, keeps every other channel and keeps ids unique |
| Onboarding.Removed | src/pages/Onboarding.tsx:255-257 | removing drops every channel with that id and keeps all the others |
| Onboarding.OnboardingPage.constructor | src/pages/Onboarding.tsx:79-92 | the wizard starts at step 0 with nothing selected, blank inputs and no tracked channels |
| Onboarding.OnboardingPage.HandleNext | src/pages/Onboarding.tsx:97-189 | the page does what `NextOf` describes, moving one step only when it advances and staying within the four steps |
| Onboarding.OnboardingPage.HandleChannelToggle | src/pages/Onboarding.tsx:191-197 | the selection becomes the toggled list; every other field of the page keeps its value |
| Onboarding.OnboardingPage.HandleChannelInput | src/pages/Onboarding.tsx:199-204 | only the named channel's input changes; every other field of the page keeps its value |
| Onboarding.OnboardingPage.HandleChannelLookup | src/pages/Onboarding.tsx:207-239 | a blank query only shows the enter-a-query notice and no session only the log-in-again notice; otherwise the trimmed query is sent, a found channel is kept and the box cleared, or the error message is kept; the niche, the selected channels, their inputs, the tracked list and the step never change |
| Onboarding.OnboardingPage.HandleConfirmAddChannel | src/pages/Onboarding.tsx:241-253 | the looked-up channel is added unless already tracked, which is noticed; the lookup result is cleared either way, the lookup error is cleared on adding and kept otherwise, and the niche, selections, inputs, query box and step never change |
| Onboarding.OnboardingPage.HandleRemoveChannel | src/pages/Onboarding.tsx:255-257 | the tracked list loses that channel; every other field of the page keeps its value |
| Trending.Toggled | src/pages/Trending.tsx:126-137 | "All" clears the selection; any other category is removed when selected and appended when not, every other category's membership is kept, and a selection without repeats stays without repeats |
| Trending.FilterKeepsUnique | src/pages/Trending.tsx:133 | removing a category from a selection without repeats leaves one without repeats |
| Trending.TrendingPage.constructor | src/pages/Trending.tsx:122-124 | the page starts with an empty search, no category selected and the 'growth' sort |
| Trending.TrendingPage.ToggleCategory | src/pages/Trending.tsx:126-137 | the selection becomes the toggled one; the search and sort are kept |
| Trending.FilterMeaning | src/pages/Trending.tsx:140-150 | a video is kept, as often as it occurs, exactly when the lower-cased query occurs in its lower-cased title or channel and the selection is empty or holds its category; an empty query with an empty selection keeps every video |
| Trending.SortMeaning | src/pages/Trending.tsx:153-163 | the sorted list is a permutation of the filtered one in non-increasing view growth, views or likes-plus-comments growth for 'growth', 'views' and 'engagement'; any other option keeps the filtered order |
| Signup.BlankTrims | src/pages/Signup.tsx:21 | a field counts as blank exactly when it trims to the empty string |
| Signup.Step2Error | src/pages/Signup.tsx:41-48 | the access code step passes exactly when the code is not blank |
| Signup.Step1Order | src/pages/Signup.tsx:19-39 | the details pass exactly when no field is blank, the passwords agree, the password has at least 8 characters and the email contains both '@' and '.'; the problems are reported in that order |
| Signup.SubmitMeaning | src/pages/Signup.tsx:58-80 | the sign-up is sent exactly when both steps pass; a blank code alone leaves "Access code is required"; a failure shows its message, or the generic one when it has none |
| Signup.SignupPage.constructor | src/pages/Signup.tsx:10-16 | the form starts on step 1 with every field and the error empty |
| Signup.SignupPage.Edit | src/pages/Signup.tsx:11-15 | editing a field changes the form only |
| Signup.SignupPage.HandleNextStep | src/pages/Signup.tsx:50-56 | valid details move the form to step 2 and clear the error; invalid ones keep the step and show the first problem |
| Signup.SignupPage.HandleFinalSubmit | src/pages/Signup.tsx:58-80 | the request sent and the error shown are those SubmitRequest and SubmitError describe; invalid details send the form back to step 1 |
| Signup.SignupPage.HandleBack | src/pages/Signup.tsx:82-85 | going back shows step 1 with no error and the same details |
| ResetPassword.SubmitMeaning | src/pages/ResetPassword.tsx:48-61 | the request goes exactly when the passwords agree, have at least 8 characters and a token is present, with a mismatch reported before a short password; the button is enabled exactly when nothing is loading and those checks pass |
| ResetPassword.ResetPasswordPage.constructor | src/pages/ResetPassword.tsx:28-46 | a token in the link is kept; without one the page shows the invalid-link error screen instead of the form |
| ResetPassword.ResetPasswordPage.HandleSubmit | src/pages/ResetPassword.tsx:48-86 | a failed check only shows its notice; otherwise the token and new password are posted, success is shown with the server's message, and a failure shows the server's message or the generic one |
| DashboardLayout.TrailingSpaceInitials | src/components/DashboardLayout.tsx:92-103 | as written a name with a trailing space, "Ann ", shows the initials "Aundefined" |
| DashboardLayout.Words | src/components/DashboardLayout.tsx:97 | the words of a name are its non-empty space-separated pieces |
| DashboardLayout.Initials | src/components/DashboardLayout.tsx:92-103 | the intended initials have one or two characters: the first letters of the first and last word when there are several |
| DashboardLayout.InitialsAgree | src/components/DashboardLayout.tsx:92-103 | on names without leading, trailing or double spaces the written initials are the intended ones; "U" with neither name nor email; the email's first two characters upper-cased without a name |
| DashboardLayout.AgreeOnWords | src/components/DashboardLayout.tsx:96-101 | a non-empty well-spaced name gives the same initials as written and as intended |
| DashboardLayout.ActiveMeaning | src/components/DashboardLayout.tsx:106-110 | every page under /settings marks the settings entry active; any other entry is active only on its exact path |
| DashboardLayout.ProductionNeverShowsUpload | src/components/DashboardLayout.tsx:19 | in a production build the API base is '/api', removing '/api' leaves an empty base, the URL constructor throws, and the fallback picture is always shown (also lines 69-88) |
| DashboardLayout.AvatarMeaning | src/components/DashboardLayout.tsx:64-88 | with the upload resolved against the page origin in production, a string path under /uploads is shown exactly when the base is accepted, otherwise the fallback picture for the name, else the email, else 'U'; outside production this agrees with the code as written |
| TrendDetection.VideoAlertsMatched | backend/services/TrendDetectionService.js:231-238 | every alert recorded for a channel's videos has a non-empty match map, and params without any of the four thresholds record none |
| TrendDetection.ChannelAlertsMatched | backend/services/TrendDetectionService.js:220-238 | every alert recorded for a group's channels has a non-empty match map, and inert params record none |
| TrendDetection.GroupAlertsMatched | backend/services/TrendDetectionService.js:213-238 | every alert recorded for a user's groups has a non-empty match map; groups whose params are all inert record none |
| TrendDetection.GroupsInertOrSkipped | backend/services/TrendDetectionService.js:213-238 | groups that are all skipped or inert record no alert |
| YoutubeService.AsWrittenAt | backend/services/youtube.service.js:18-27 | as written a string holding "PT" is read from just after its first "PT" |
| YoutubeService.AsWrittenWithoutPT | backend/services/youtube.service.js:20-21 | as written a string without "PT" does not match and yields null |
| YoutubeService.DurationOfPT | backend/services/youtube.service.js:18-27 | with the intended pattern a string starting with "PT" is read from its third character |
| YoutubeService.HmsRender | backend/services/youtube.service.js:20-26 | the hours, minutes and seconds fields read back the numbers a rendering wrote, absent fields as absent |
| YoutubeService.TotalsOf | backend/services/youtube.service.js:430-440 | a batch answer never counts more videos than it holds |
| YoutubeService.PageIds | backend/services/youtube.service.js:404-411 | one page never yields more ids than it has items |
| YoutubeService.GatherPage | backend/services/youtube.service.js:396-413 | one pass adds the page's in-window ids and returns the token for the next request, keeping the gathered ids a prefix of all the ids the loop will gather |
| ApiKeyManager.RestoredAreLoaded | backend/services/apiKeyManager.service.js:69-81 | failures restored from the store are always values of loaded keys |
| ApiKeyManager.EnvKeysShape | backend/services/apiKeyManager.service.js:49-65 | degraded mode loads at most one key per configured name, each with a non-empty value |

## Left out

- I/O of every kind is an input or an outcome datatype, not a computation. This covers Supabase, NocoDB, the YouTube Data API, PayPal, Discord, nodemailer, the Telegram Bot API, axios and fetch.
- Cryptographic and token operations are inputs: bcrypt hashing and comparison, JWT signing and verification, and `crypto.randomBytes`.
- Clocks are integer milliseconds passed as parameters. Calendar arithmetic such as `setDate` becomes millisecond arithmetic on those values, and daylight-saving changes are ignored. Timestamps written into saved records are not modelled.
- The Pacific-time date used by the key manager is a string parameter; the time-zone conversion is not modelled.
- The key manager's writes to the key-status table, its observer callbacks and its logging are not modelled. Only the in-memory state is.
- Concurrency is not modelled. Handlers run one at a time; the key manager's singleton, cron schedules, timers and the polling interval loop are left out. One polling pass is modelled as a function of its inputs.
- Floating-point arithmetic in the computations is modelled with Dafny's exact `real` numbers, so rounding error is ignored. The `toFixed` renderings of the engagement rate and percentages are left out.
- JsonValue.ToNumber: JSON numbers are integers here, so a fractional number in a request body or a stored row is not represented. `Number` of text reads decimal, point and exponent literals exactly, and gives no integer for a fractional value. It reads the `0o` and `0b` prefixes as NaN, where JavaScript reads octal and binary. Values beyond the double range, such as "1e400" (Infinity in JavaScript), and integers beyond 2^53 are exact here.
- Case mapping (`toLowerCase`, `toUpperCase`) maps ASCII letters only. `localeCompare` is modelled as lexicographic order on characters.
- `String.prototype.replace` is modelled for literal patterns and replacement texts without `$` patterns.
- The MarkdownV2 escape is modelled from the Telegram Bot API's formatting rule. The helper library the bot imports is not part of this model.
- `YoutubeService`: `getRecentVideosForChannel`, the upsert of fetched videos and the thumbnail refresh are left out, beyond the batching and paging arithmetic they share. The 'all_time' lifetime-statistics branch and the Supabase readers behind the aggregation are inputs.
- PaypalController.FetchErrorStatus: a negative status code is answered 500. `err.statusCode || 500` would pass it through, but HTTP status codes are never negative.
- The polling pass `pollYouTubeAndCheckAlerts` is not modelled as a whole. It imports functions that the YouTube and NocoDB services do not export, so it throws at once and ends in its own catch. Only its tracked-channel list, its per-Short conditions and the status of the saved alert are modelled.
- `ResearchPage`: `formatNumber` is left out, because it is display rounding with `toFixed`.
- Front-end pages: toasts, navigation, `localStorage`, timers and rendering are left out. Only the state, the validations and the derived lists are modelled.
- `WebSocketClient`: the socket URL, reconnection and binary frames are not modelled. Only the message-to-update computation and its application are.
- Signup.Step1Order: `Step1Error` measures the password in characters (code points), while JavaScript's `length` counts UTF-16 code units. So "😀😀😀😀", of length 8 in JavaScript, is rejected here as too short and accepted by the page.
- ResetPassword.SubmitMeaning: `SubmitProblem` and `SubmitEnabled` measure the new password in code points, not UTF-16 code units, with the same effect on characters outside the Basic Multilingual Plane.
- AuthController.SignupRejects: `TooShort` measures a string password in code points, not UTF-16 code units. It also treats only strings and arrays as having a `length`, so a JSON object body with a numeric `length` field below 8 passes the check here, while the handler would reject it.

## Findings

| source | as written | input that shows it | evidently intended | confidence | as-written member | corrected member |
|---|---|---|---|---|---|---|
| backend/services/youtube.service.js:20 | the duration pattern is written with `\\d` inside a regex literal, so each group matches a backslash followed by 'd' characters and every parsed duration is 0 | "PT1M30S" parses to 0, so no video is stored as a Short | `\d+` groups, reading 3600·h + 60·m + s | not executed | YoutubeService.DurationCounterexample | YoutubeService.DurationRoundTrip |
| backend/services/youtube.service.js:233 | `is_short` uses the parser as written, so it is false for every video | any video with "PT45S" and live content 'none' | a Short is a non-live video of 1 to 60 seconds | not executed | YoutubeService.NoShortAsWritten | YoutubeService.ShortRuleCorrected |
| backend/services/youtube.service.js:412 | the paging condition tests the token the page was requested with, which is null for the first page, so paging always stops after one page | a first page of 50 in-window items with a next-page token | continue with the next-page token the answer carries | not executed | YoutubeService.PagingAsWrittenReadsOnePage | YoutubeService.PagingIntendedFollowsToken |
| backend/controllers/youtube.controller.js:108 | `reason?.includes('disabled')` is case-sensitive | the reason "dataApiDisabled" gets the API's status instead of 403 | a case-insensitive test, which maps it to 403 | not executed | YoutubeController.DataApiDisabledMissed | YoutubeController.ErrorTableIntended |
| backend/controllers/auth.controller.js:52 | signup strips the column named by an environment variable that has no default | the variable unset: the key "undefined" is stripped and the password hash is returned | strip the same column login strips, "password" by default | not executed | AuthController.SignupLeaksHash | AuthController.SignupStripsDefaultColumn |
| src/stores/alertTemplatesStore.ts:176-199 | the save payload is keyed by column names, while the server reads camelCase body fields | change one template and save: the server finds no field and stores nothing | key the payload by the body field names | not executed | AlertTemplatesStore.SaveAsWrittenIgnored | AlertTemplatesStore.SaveStoresChanges |
| src/stores/alertTemplatesStore.ts:117-137 | a reset sends the store's default under the field's column name, which the update handler does not read | reset the Telegram template with a token: the server answers 200 "No alert templates provided to update." and stores nothing, while the store records the field as saved | send the default under the body field name | not executed | AlertTemplatesStore.ResetAsWrittenIgnored | AlertTemplatesStore.ResetStoresDefault |
| src/stores/alertTemplatesStore.ts:20-41 | the store's default templates hold mis-decoded emoji, so they differ from the server's defaults | reset the subject of a fresh user: the shown text differs from what the server answers | the server's default texts | not executed | AlertTemplatesStore.MisdecodedDefaultDiffers | AlertTemplatesStore.ResetMatchesFreshUser |
| src/stores/alertPreferencesStore.ts:152-171 | loading reads camelCase keys, while the server answers with column names | a user with stored minimum views 5000: the page shows the store's default 3000000 | read the column names the server sends | not executed | AlertPreferencesStore.FetchAsWrittenShowsDefaults | AlertPreferencesStore.FetchShowsStored |
| src/hooks/useWebSocket.ts:36 | the hook takes `updateUserContext` from the auth context, which does not provide it | a subscriptionUpdate naming a new plan: calling the missing updater throws and the plan is not updated | an updater supplied by the auth context | not executed | WebSocketClient.UpdatesLostWithoutUpdater | WebSocketClient.UpdatesApplied |
| src/components/DashboardLayout.tsx:97-100 | the initials split the name at every single space, so an empty piece gives "undefined" | the name "Ann " shows "Aundefined" | the first letters of the first and last non-empty words | not executed | DashboardLayout.TrailingSpaceInitials | DashboardLayout.InitialsAgree |
| src/components/DashboardLayout.tsx:77-78 | in production the API base is '/api', removing '/api' leaves an empty base, and `new URL` throws | any uploaded photo in a production build shows the fallback picture | resolve the upload against the page's own origin | not executed | DashboardLayout.ProductionNeverShowsUpload | DashboardLayout.AvatarMeaning |

The store classes, `YoutubeController.MapError` and the lookup handler follow the code as written. The corrected behaviour of each row is stated by its corrected member, beside them.

Two more behaviours are proved as written and not corrected in the model:

- `ApiKeyManager.InitClearsRestoredFailures`: start-up restores today's failed keys from the store, then always runs a first daily reset, which clears them.
- `WebSocketService.AuthTokensRejected`: tokens issued at login carry `id`, while the socket handler reads `userId`, so a login token never authenticates a socket.
