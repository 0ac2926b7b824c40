# agency45_hub, modelled in Dafny

agency45_hub is an advertising dashboard. It has three parts:

- a React front end that shows Facebook ad accounts, campaigns and their insights;
- a FastAPI back end that proxies the Facebook Graph API and sends Telegram reports;
- an older Python service with its own Telegram bot and Facebook module.

This project models the logic of these parts that is not view code or plumbing:

- **Insight roll-up and objective grouping.** This covers the front end's `insightHelpers.ts` and its back-end twin in `broadcast.py`. Metric strings are parsed leniently and five counters are summed. CPC, CPM and CTR are derived, with guards against zero denominators. Campaigns are grouped by objective and the groups are sorted. Also modelled:
  - the objective label and the per-objective page filter;
  - the period-to-date-range rules;
  - the per-objective count label;
  - the guards that decide whether a user's Telegram report is sent.
- **The Graph API client.** This is cursor pagination over a sequence of server answers, the cleaning and indexing of insight rows, and the joins that attach insights to campaigns and ad sets. The base HTTP client's URL joining, header and timeout defaulting, and error mapping are modelled too.
- **The client session.** This is the `authStore` (five fields plus two `localStorage` keys) and the `AuthGuard` bootstrap over it. The JSON Web Token decoder (RFC 7519, the `sub` and `exp` claims of sections 4.1.2 and 4.1.4) is a parameter.
- **Telegram linking.**
  - The users table is a map from user id to row. A session object holds the table as seen before and after commit.
  - The gateways of both back ends are methods that update that table.
  - The services build registration links.
  - The `/start` handler parses its payload and keeps `telegram_chat_id` unique while linking.
  - Locale normalisation is modelled on both sides.
- **Access and shaping rules.**
  - The Facebook service's account filter and access-check ordering.
  - The login guard sequence.
  - The two Facebook-token upsert gateways.
  - Two small front-end helpers: the default date range and the Facebook error message.

How values are represented:

- Python dicts are `Json.Value`/`Json.Object` and numbers are `real`.
- Foreign calls are function-typed parameters:
  - `parseFloat` and `float()`;
  - `jwtDecode`;
  - bcrypt `checkpw`;
  - the JWT issuer;
  - `localeCompare`;
  - the Graph API fetches;
  - the report sender.
- Clocks (`date.today()`, `datetime.now()`, `Date.now()`) and `uuid4()` are arguments.
- `Users.Valid` includes unique registration tokens (`Users.TokensUnique`). No database constraint backs this: the `telegram_token` column has no `unique` (backend/src/app/api/modules/users/models.py:33). It rests on `uuid4()` not colliding. `StartHandler.NeverCrashesOnValid` and `StartHandler.StartLinksTokenHolder` depend on it.

## Model

| member | source | states |
|---|---|---|
| InsightHelpers.ParseInsightValue | frontend/src/utils/insightHelpers.ts:3-6 | null, `''` and unparsable strings give 0; a non-empty string that parses gives its number (0 included); any non-zero result is the parsed number |
| InsightHelpers.SumInsights | frontend/src/utils/insightHelpers.ts:8-34 | the one-pass loop's totals equal the per-metric sums over the non-missing entries, with the rates derived from them |
| InsightHelpers.RollupEmpty | frontend/src/utils/insightHelpers.ts:8-34 | an empty list rolls up to zero totals and absent conversations |
| InsightHelpers.RollupPermutation | frontend/src/utils/insightHelpers.ts:15-22 | the roll-up does not depend on the order of the input |
| InsightHelpers.TotalAppend | frontend/src/utils/insightHelpers.ts:15-22 | totals over a concatenation are the sums of the totals |
| InsightHelpers.RollupRates | frontend/src/utils/insightHelpers.ts:29-32 | cpc·clicks = spend, cpm·impressions = 1000·spend, ctr·impressions = 100·clicks when the denominator is positive, 0 otherwise; conversations present iff their total is positive |
| InsightHelpers.BuildGroups | frontend/src/utils/insightHelpers.ts:43-48 | one group per key in the given order, holding that key's bucket and its roll-up |
| InsightHelpers.GroupCampaignsByObjective | frontend/src/utils/insightHelpers.ts:36-50 | group keys are exactly the campaigns' keys (`UNKNOWN` for none); groups are strictly ascending under the comparator; each group holds exactly its key's campaigns in input order and their roll-up; empty input iff empty output |
| InsightHelpers.ReorderedGroups | frontend/src/utils/insightHelpers.ts:49 | sorting keeps each group's key and contents |
| InsightHelpers.ExactlyOneGroup | frontend/src/utils/insightHelpers.ts:37-42 | every input campaign lies in exactly one returned group |
| Grouping.Bucket | frontend/src/utils/insightHelpers.ts:37-42 | the buckets are keyed by exactly the keys that occur; each bucket is the members with that key in input order; the key order lists each key once |
| Sorting.SortPermutes | frontend/src/utils/insightHelpers.ts:49 | sorting is a permutation |
| Sorting.SortSorted | frontend/src/utils/insightHelpers.ts:49 | under a strict total order, items with distinct keys come out strictly ascending |
| ObjectiveLabel.FormatObjectiveNameSpec | frontend/src/pages/AdAccountPage.tsx:31-38 | one character per character of the stripped objective; a space exactly where that had `_` or a space, so no underscore is left; each word's first character kept, the rest lower-cased |
| ObjectiveLabel.CapitalizeWordsCharwise | frontend/src/pages/AdAccountPage.tsx:35-37 | split, per-word casing and join equal a character-wise rule: keep a character at the start or after a space, lower-case the others |
| ObjectiveLabel.StripOutcomeSpec | frontend/src/pages/AdAccountPage.tsx:33 | `OUTCOME_` is removed only as a prefix |
| ObjectiveLabel.FormatObjectiveNameWords | frontend/src/pages/AdAccountPage.tsx:35-37 | the label splits into one more word than the stripped objective has underscores and spaces |
| ObjectiveLabel.CampaignsForRouteAreGroup | frontend/src/pages/CampaignGroupPage.tsx:30 | the page's filter keeps exactly the members of the route key's group, in fetch order |
| ObjectiveLabel.PageMatchesGroup | frontend/src/pages/CampaignGroupPage.tsx:30 | the page for a group's objective lists exactly that group's campaigns |
| ObjectiveLabel.CampaignsForMissingRoute | frontend/src/pages/CampaignGroupPage.tsx:30 | with no route objective nothing is kept |
| ObjectiveLabel.MissingObjectiveLabel | frontend/src/pages/CampaignGroupPage.tsx:35-40 | a missing or empty route objective is labelled `Unknown` |
| DateRange.DefaultRangeDates | frontend/src/hooks/useDateRange.ts:17-22 | `since` is the first of the month and `until` is today, both rendered as `%Y-%m-%d` |
| DateRange.DefaultRangeShape | frontend/src/hooks/useDateRange.ts:19-20 | for four-digit years both strings have 10 characters and share `YYYY-MM-`, and `since` ≤ `until` lexicographically |
| ApiError.ResolveSpec | frontend/src/utils/apiError.ts:7-20 | the translation is chosen iff the error is an axios error whose detail is exactly the inverted-time-range string; every other error gives the fallback; the translator matters only at that one key |
| AuthStore.Store.constructor | frontend/src/store/authStore.ts:23-28 | starts logged out with storage as given |
| AuthStore.Store.SetTokens | frontend/src/store/authStore.ts:30-48 | both keys written, both tokens set, authenticated; user id = `sub` when the token decodes, else unchanged; profile untouched |
| AuthStore.Store.SetUser | frontend/src/store/authStore.ts:50-52 | only the profile changes |
| AuthStore.Store.ClearAuth | frontend/src/store/authStore.ts:54-64 | both keys removed, all five fields reset |
| AuthStore.Store.LoadFromStorage | frontend/src/store/authStore.ts:66-97 | the transition `LoadStep`, in which expiry plays no part |
| AuthStore.ClearAuthIdempotent | frontend/src/store/authStore.ts:54-64 | logging out twice equals logging out once |
| AuthStore.ClearAfterSetTokens | frontend/src/store/authStore.ts:30-64 | logout after login gives the initial fields and no stored token |
| AuthStore.SetTokensUndecodable | frontend/src/store/authStore.ts:41-47 | an undecodable token still authenticates, and the user id is kept |
| AuthStore.LoadAfterSetTokens | frontend/src/store/authStore.ts:66-89 | restoring right after a login succeeds and changes nothing |
| AuthStore.LoadSpec | frontend/src/store/authStore.ts:66-97 | restore succeeds iff both keys are non-empty and the token decodes; on success it authenticates with `sub`; otherwise the fields are untouched; storage is cleared only on a decode failure |
| AuthStore.Guard.Init | frontend/src/components/guards/AuthGuard.tsx:12-27 | one restore; a profile lookup only after a successful restore with a user id and no profile; success sets the profile, failure logs out; `loading` ends false |
| AuthStore.Guard.View | frontend/src/components/guards/AuthGuard.tsx:31-43 | spinner while loading, then redirect iff not authenticated |
| AuthStore.BootFailedLookupLogsOut | frontend/src/components/guards/AuthGuard.tsx:19-23 | a failed lookup ends logged out with no stored token |
| AuthStore.BootFromFresh | frontend/src/components/guards/AuthGuard.tsx:12-43 | from a fresh start the session ends authenticated iff the tokens are stored, the token decodes, and the subject is empty or its lookup succeeds; redirect iff not authenticated |
| Locale.IsLocaleExactly | frontend/src/i18n/locale.tsx:297-302 | true exactly for `ua` and `ru`; false for null and `''` |
| Locale.DetectBrowserLocaleSpec | frontend/src/i18n/locale.tsx:304-309 | Russian iff the language begins with `ru` in either case; Ukrainian otherwise |
| Locale.StoredLocaleRestored | frontend/src/i18n/locale.tsx:311-321 | a stored supported locale is restored whatever the browser says |
| Locale.InitialLocaleFallback | frontend/src/i18n/locale.tsx:311-321 | without a window the result is `ua`; without a usable stored value the browser decides |
| Locale.TranslateFallback | frontend/src/i18n/locale.tsx:339-342 | current table, then the `ua` table, then the key |
| Locale.Provider.constructor | frontend/src/i18n/locale.tsx:331-337 | initial locale from storage or browser, then persisted |
| Locale.Provider.Persist | frontend/src/i18n/locale.tsx:334-337 | storage key and document language hold the current locale |
| Locale.Provider.SetLocale | frontend/src/i18n/locale.tsx:332-337 | after a change the storage key holds the new locale |
| Broadcast.LabelSpec | backend/src/app/api/modules/telegram/services/broadcast.py:37-41 | an unknown key is its own label; otherwise the locale's text, falling back to Ukrainian |
| Broadcast.PeriodKey | backend/src/app/api/modules/telegram/services/broadcast.py:61-63 | `period_<p>` is a label key iff p is one of the five periods or `default` |
| Broadcast.PeriodLabelSpec | backend/src/app/api/modules/telegram/services/broadcast.py:61-63 | the five periods get their own label, anything else the default one |
| Broadcast.RangeDatesSpec | backend/src/app/api/modules/telegram/services/broadcast.py:44-58 | yesterday is [today-1, today-1]; week is [today-6, today]; month is [first of month, today]; last30 is [today-29, today]; others are [today, today]; since ≤ until; defined from year 2 on |
| Broadcast.AddCampaign | backend/src/app/api/modules/telegram/services/broadcast.py:118-123 | each counter grows by the campaign's contribution |
| Broadcast.Aggregate | backend/src/app/api/modules/telegram/services/broadcast.py:112-127 | the nested loop computes the per-counter totals and then the rates |
| Broadcast.ContributionSpec | backend/src/app/api/modules/telegram/services/broadcast.py:118-123 | missing insights, falsy fields and values `float` rejects count 0; otherwise the parsed value |
| Broadcast.WithRatesSpec | backend/src/app/api/modules/telegram/services/broadcast.py:124-126 | counters kept; each rate times its denominator gives its numerator, or the rate is 0 when the denominator is 0 |
| Broadcast.AggregateRates | backend/src/app/api/modules/telegram/services/broadcast.py:112-127 | the result holds the five totals and rates consistent with them |
| Broadcast.AggregatePermutation | backend/src/app/api/modules/telegram/services/broadcast.py:117-123 | the roll-up does not depend on campaign order |
| Broadcast.TotalAppend | backend/src/app/api/modules/telegram/services/broadcast.py:117-123 | totals over a concatenation add up |
| Broadcast.OrdinalStrictTotalOrder | backend/src/app/api/modules/telegram/services/broadcast.py:211 | Python's code-point string order is a strict total order |
| Broadcast.Items | backend/src/app/api/modules/telegram/services/broadcast.py:211 | one (key, bucket) pair per key, in key order |
| Broadcast.SortedGroups | backend/src/app/api/modules/telegram/services/broadcast.py:130-137 | group keys are exactly the campaigns' keys (`OTHER` for none), strictly ascending; each group holds exactly its key's campaigns in input order |
| Broadcast.SameElements | backend/src/app/api/modules/telegram/services/broadcast.py:211 | sorting keeps the groups' keys and contents |
| Broadcast.GroupsPartition | backend/src/app/api/modules/telegram/services/broadcast.py:130-137 | a campaign is in a group iff the group's key is its key |
| Broadcast.ActiveCountAppend | backend/src/app/api/modules/telegram/services/broadcast.py:170 | the active count over a concatenation adds up |
| Broadcast.ActiveCountSpec | backend/src/app/api/modules/telegram/services/broadcast.py:170-171 | the count is 0 iff none is active and is the length iff all are |
| Broadcast.CountLabelSpec | backend/src/app/api/modules/telegram/services/broadcast.py:170-176 | `a ✅ / p ⏸` when both kinds occur, `n ⏸` when none is active, `n` when none is paused |
| Broadcast.GetTokenForUserSpec | backend/src/app/api/modules/telegram/services/broadcast.py:274-281 | a token is returned iff the owner (self for admins, creator otherwise) has a record with a non-empty token, and it is that token |
| Broadcast.SendReportSpec | backend/src/app/api/modules/telegram/services/broadcast.py:305-324 | a report is sent only with a chat, a token and a successful sender; no chat or no token means not sent; with a chat, a token and a range, an admin or a user with an ad account gets the sender's outcome (an exception counts as not sent) and any other user gets no report; only year 1 raises |
| Broadcast.DailyLocale | backend/src/app/api/modules/telegram/services/broadcast.py:390-394 | always a supported locale: the user's own when it is `ua` or `ru`, otherwise `ua` |
| FacebookClient.Stop | backend/src/app/clients/facebook.py:52-65 | the first terminal page; every page before it is error-free and has a next link |
| FacebookClient.FetchWithPagination | backend/src/app/clients/facebook.py:40-68 | the loop's result is the page-by-page specification `Fetched` |
| FacebookClient.FetchedSpec | backend/src/app/clients/facebook.py:52-68 | the error code of the stop page when it holds an error (earlier items lost), else every page's `data` up to it, concatenated in order |
| FacebookClient.ConversationsIn | backend/src/app/clients/facebook.py:167-172 | the loop with `break` returns the first matching action's value |
| FacebookClient.FirstConversationSpec | backend/src/app/clients/facebook.py:167-174 | Null when no action matches, else the value of the first matching action |
| FacebookClient.CleanSpec | backend/src/app/clients/facebook.py:159-176 | the dropped keys are gone and other keys are kept; campaign rows gain `conversations`, so they are never empty |
| FacebookClient.BuildIndex | backend/src/app/clients/facebook.py:155-177 | the indexing loop computes `IndexOf` |
| FacebookClient.IndexKeys | backend/src/app/clients/facebook.py:155-177 | an id is indexed iff some row carries it and cleans to a non-empty row |
| FacebookClient.IndexLastWins | backend/src/app/clients/facebook.py:155-177 | an id maps to its last row, cleaned |
| FacebookClient.JoinCampaignsLoop | backend/src/app/clients/facebook.py:179-202 | the loop computes `JoinCampaigns` and stops at a conversion error |
| FacebookClient.JoinCampaignsAppend | backend/src/app/clients/facebook.py:179-202 | joining a concatenation is joining each part in order; the first failure stops it |
| FacebookClient.JoinOneSpec | backend/src/app/clients/facebook.py:180-200 | no insight means dropped; with an insight, a campaign with zero spend and zero impressions is dropped, one with either is kept as its row carrying its insight, and an unreadable value raises; a dropped campaign with an insight had no activity |
| FacebookClient.JoinAdsetsLoop | backend/src/app/clients/facebook.py:252-268 | the loop computes `JoinAdsets` |
| FacebookClient.JoinAdsetsSpec | backend/src/app/clients/facebook.py:252-268 | ad sets keep their order; exactly those with an insight are kept, each with its own insight |
| FacebookClient.Kept | backend/src/app/clients/facebook.py:253-256 | every kept ad set has an insight |
| FacebookClient.GetCampaigns | backend/src/app/clients/facebook.py:123-202 | fetch the campaigns; an empty list returns `[]`; else fetch, index and join the insights |
| FacebookClient.CampaignsEmpty | backend/src/app/clients/facebook.py:142-143 | no campaigns gives `[]` whatever the insight endpoint says |
| FacebookClient.GetAdsets | backend/src/app/clients/facebook.py:204-268 | as `GetCampaigns`, at ad-set level without the activity filter |
| HttpClient.Client.constructor | backend/src/app/clients/base.py:24-34 | the base URL loses its trailing slashes (`''` when none is given); the defaults are kept |
| HttpClient.Client.BuildUrlSpec | backend/src/app/clients/base.py:36-40 | base, one `/`, the path without leading slashes; never a doubled slash at the seam |
| HttpClient.Client.MergeHeaders | backend/src/app/clients/base.py:42-46 | the keys are the union; the given headers win; otherwise the default |
| HttpClient.Client.PrepareKwargs | backend/src/app/clients/base.py:54-60 | the default timeout is added only when none is given; explicit headers are merged; otherwise the defaults are attached only when non-empty; other arguments are untouched |
| HttpClient.Client.VerbHeaders | backend/src/app/clients/base.py:120-190 | the verb helpers always pass headers, so the defaults merged with the given ones are sent |
| HttpClient.MapOutcomeSpec | backend/src/app/clients/base.py:86-118 | a status error keeps its code; timeouts and request errors carry none |
| Users.SelectOne | backend/src/app/api/modules/telegram/gateway.py:20-28 | `scalar_one_or_none`: no row, the one row, or more than one |
| Users.LookupIsFind | backend/src/app/api/modules/telegram/gateway.py:20-28 | a lookup outcome is determined by the matching rows |
| Users.FindIsLookup | backend/src/app/api/modules/telegram/gateway.py:20-28 | the specified outcome is a lookup outcome |
| Users.UpdateWhere | backend/src/app/api/modules/telegram/gateway.py:30-33 | an UPDATE by id rewrites only that row and no keys change |
| Users.ClearingUpdatesKeepValid | backend/src/app/api/modules/users/models.py:29-31 | logout, token clearing and the daily toggle keep chat ids and tokens unique |
| Users.FreshTokenKeepsValid | backend/src/app/api/modules/users/models.py:29-33 | storing a token no other row holds keeps the table valid |
| Users.LinkKeepsValid | backend/src/app/api/modules/users/models.py:29-31 | linking a chat no other row holds keeps the table valid |
| Users.UpdateKeepsChatIdsUnique | backend/src/app/api/modules/users/models.py:29-31 | rewrites that never add a chat id keep chat ids unique |
| Users.UpdateKeepsTokensUnique | backend/src/app/api/modules/users/models.py:33 | rewrites that never add a token keep tokens unique |
| Users.ChatLookupAtMostOne | backend/src/app/api/modules/telegram/gateway.py:25-28 | with unique chat ids, a lookup by chat id finds at most one row |
| Users.TokenLookupAtMostOne | backend/src/app/api/modules/telegram/gateway.py:20-23 | with unique tokens, a lookup by token finds at most one row |
| TelegramGateway.Gateway.SetTelegramToken | backend/src/app/api/modules/telegram/gateway.py:13-18 | only that row's token changes, to the returned value |
| TelegramGateway.Gateway.GetUserByToken | backend/src/app/api/modules/telegram/gateway.py:20-23 | the lookup outcome over the rows holding the token |
| TelegramGateway.Gateway.GetUserByChatId | backend/src/app/api/modules/telegram/gateway.py:25-28 | the lookup outcome over the rows holding the chat id |
| TelegramGateway.Gateway.ClearToken | backend/src/app/api/modules/telegram/gateway.py:30-33 | only the token is set to None |
| TelegramGateway.Gateway.UpdateTelegramChatId | backend/src/app/api/modules/telegram/gateway.py:35-51 | the link rewrite, or an integrity error with the table unchanged iff another row holds the chat |
| TelegramGateway.LinkFrame | backend/src/app/api/modules/telegram/gateway.py:42-48 | chat id set, username overwritten, token cleared, locale changed only for a non-empty one; nothing else changes |
| TelegramGateway.Gateway.GetUsersWithTelegram | backend/src/app/api/modules/telegram/gateway.py:58-67 | exactly the active rows with a chat id (and opted in when `daily_only`), each once |
| TelegramGateway.Gateway.ToggleDaily | backend/src/app/api/modules/telegram/gateway.py:69-76 | only the daily flag changes |
| TelegramGateway.Gateway.LogoutUser | backend/src/app/api/modules/telegram/gateway.py:78-85 | the logout rewrite of that row |
| TelegramGateway.LogoutUserFrame | backend/src/app/api/modules/telegram/gateway.py:78-85 | chat id, username and token become None; no other field changes |
| TelegramLink.RegistrationLink | backend/src/app/api/modules/telegram/service.py:34 | bot link, `?start=`, then the payload `token_locale` |
| TelegramService.Service.GetRegistrationLink | backend/src/app/api/modules/telegram/service.py:29-35 | the token is stored and committed, and the link carries that token |
| TelegramService.RegistrationStoresLinkedToken | backend/src/app/api/modules/telegram/service.py:29-35 | a fresh token keeps the table valid and is held by exactly that user; the link's `start` parameter parses back into that token and the locale |
| TelegramService.Service.Logout | backend/src/app/api/modules/telegram/service.py:37-39 | one logout rewrite, then commit |
| TelegramService.Service.ToggleDaily | backend/src/app/api/modules/telegram/service.py:52-54 | one daily-flag rewrite, then commit |
| TelegramService.Service.GetChatId | backend/src/app/api/modules/telegram/service.py:41-50 | the chat status of the looked-up user |
| TelegramService.GetChatIdStatusSpec | backend/src/app/api/modules/telegram/service.py:41-50 | an unknown user has no chat; a known user's chat id, username and daily flag are reported; the daily flag is distinguishable |
| TelegramService.DailyFlagDropped | backend/src/app/api/modules/telegram/service.py:46-50 | as written, the response cannot tell opted-in users from others |
| TelegramService.ValidateBroadcastSpec | backend/src/app/api/modules/telegram/service.py:56-67 | success iff the user exists with a non-zero chat id; 404 first, then 400 |
| TelegramService.Service.ValidateBroadcastFor | backend/src/app/api/modules/telegram/service.py:56-67 | the check on the looked-up user |
| FacebookAuthGateway.Gateway.GetByOwner | backend/src/app/api/modules/facebook/gateway.py:13-16 | the owner's record, or None |
| FacebookAuthGateway.Gateway.SetToken | backend/src/app/api/modules/facebook/gateway.py:18-27 | the upsert; the returned record is the owner's |
| FacebookAuthGateway.UpsertSpec | backend/src/app/api/modules/facebook/gateway.py:18-27 | afterwards the owner's record holds the token; other owners are unchanged; the table stays keyed by owner |
| LegacyTelegramGateway.Gateway.SetTelegramToken | src/app/api/modules/telegram/gateway.py:15-21 | only that row's token changes, to the returned value |
| LegacyTelegramGateway.Gateway.GetUserByToken | src/app/api/modules/telegram/gateway.py:23-27 | the lookup outcome `Find` over the token holders |
| LegacyTelegramGateway.Gateway.GetUserByChatId | src/app/api/modules/telegram/gateway.py:29-33 | the lookup outcome `Find` over the chat holders |
| LegacyTelegramGateway.Gateway.ClearToken | src/app/api/modules/telegram/gateway.py:35-39 | only the token is set to None |
| LegacyTelegramGateway.Gateway.UpdateTelegramChatId | src/app/api/modules/telegram/gateway.py:41-58 | chat id and username set and token cleared, or an integrity error with the table unchanged iff another row holds the chat |
| LegacyTelegramGateway.LinkKeepsLocale | src/app/api/modules/telegram/gateway.py:48-56 | linking without a locale keeps the stored one |
| LegacyTelegramGateway.Gateway.GetChatIdByUserId | src/app/api/modules/telegram/gateway.py:60-64 | the stored chat id, or None; the back end's `get_chat_id_by_user_id` (backend/src/app/api/modules/telegram/gateway.py:53-56) is the same query, so this one member models both |
| LegacyTelegramGateway.Gateway.LogoutUser | src/app/api/modules/telegram/gateway.py:66-74 | the logout rewrite of that row |
| LegacyTelegramService.Service.GetRegistrationLink | src/app/api/modules/telegram/service.py:19-26 | the token is stored and committed, and the link carries that token |
| LegacyTelegramService.Service.Logout | src/app/api/modules/telegram/service.py:28-31 | one logout rewrite, then commit |
| LegacyTelegramService.Service.GetChatId | src/app/api/modules/telegram/service.py:33-42 | the response for the looked-up user |
| LegacyTelegramService.GetChatIdResponseSpec | src/app/api/modules/telegram/service.py:33-42 | an unknown user gets (None, None); a known user gets the stored chat id and username |
| Messages.NormalizeLocale | src/app/api/modules/telegram/services/messages.py:31-36 | always a supported locale |
| Messages.NormalizeLocaleSpec | src/app/api/modules/telegram/services/messages.py:31-36 | `ru` iff the input is `ru`; `uk` and absent give `ua`; idempotent |
| Messages.DetectTelegramLocale | src/app/api/modules/telegram/services/messages.py:39-44 | always a supported locale |
| Messages.DetectTelegramLocaleSpec | src/app/api/modules/telegram/services/messages.py:39-44 | `ru` iff the code begins with `ru` in either case |
| Messages.GetMessageTotal | src/app/api/modules/telegram/services/messages.py:47-49 | with the complete table, a text exists iff the key is known, in the normalised locale; otherwise `KeyError` |
| StartHandler.ParseStartPayloadSpec | src/app/api/modules/telegram/services/handlers/start.py:17-28 | no token iff the payload is absent or empty; tokens are non-empty; locales are supported; without a locale the whole payload is the token |
| StartHandler.ParseStartPayloadRoundTrip | src/app/api/modules/telegram/services/handlers/start.py:22-27 | parsing `token_locale` gives back the token and the locale (`uk` read as `ua`) |
| StartHandler.StartCommand | src/app/api/modules/telegram/services/handlers/start.py:33-105 | the committed table and the reply are those of `StartSpec` |
| StartHandler.Link | src/app/api/modules/telegram/services/handlers/start.py:65-105 | the committed table and the reply are those of `LinkStep` |
| StartHandler.ReadOnlyPaths | src/app/api/modules/telegram/services/handlers/start.py:50-63 | without a token (`already_registered` or `use_link`), or with an unknown one (`invalid_token`), the table is unchanged |
| StartHandler.CrashesOnlyOnDuplicates | src/app/api/modules/telegram/services/handlers/start.py:48-63 | the handler crashes only when a lookup finds two rows, and never replies `save_error` |
| StartHandler.LinkStepSucceeds | src/app/api/modules/telegram/services/handlers/start.py:91-105 | after detaching, linking never violates the constraint, so `save_error` is unreachable |
| StartHandler.NeverCrashesOnValid | src/app/api/modules/telegram/services/handlers/start.py:48-63 | on a valid table the handler always replies |
| StartHandler.LinkStepKeepsValid | src/app/api/modules/telegram/services/handlers/start.py:65-92 | linking keeps chat ids and tokens unique |
| StartHandler.StartKeepsValid | src/app/api/modules/telegram/services/handlers/start.py:33-105 | the handler keeps the table valid |
| StartHandler.LinkStepLinks | src/app/api/modules/telegram/services/handlers/start.py:65-97 | afterwards the token holder has the chat and no token, and no other row has the chat |
| StartHandler.StartFollowsLink | src/app/api/modules/telegram/services/handlers/start.py:44-59 | a generated link reaches the linking step for its token's holder |
| StartHandler.StartLinksTokenHolder | src/app/api/modules/telegram/services/handlers/start.py:44-97 | following a generated link links its holder uniquely and replies `success` or `already_registered` in the link's locale |
| StartHandler.RepliesHaveText | src/app/api/modules/telegram/services/handlers/start.py:52-105 | every reply key has a text in the reply's locale |
| LegacyFacebookAuthGateway.Gateway.Get | src/app/api/modules/facebook/gateway.py:15-19 | the first record, or None |
| LegacyFacebookAuthGateway.Gateway.SetToken | src/app/api/modules/facebook/gateway.py:21-31 | the shared upsert; the returned record is the first |
| LegacyFacebookAuthGateway.SetSharedSpec | src/app/api/modules/facebook/gateway.py:21-31 | from at most one record exactly one remains, and `get` returns it with the token |
| FacebookService.BuildTimeRangeSpec | src/app/api/modules/facebook/service.py:24-33 | both dates given: each is formatted and the clock is not read; otherwise the current month up to today |
| FacebookService.AccessTokenSpec | src/app/api/modules/facebook/service.py:35-43 | the token iff the first record has a non-empty one, else 400 |
| FacebookService.CheckAccountAccessSpec | src/app/api/modules/facebook/service.py:45-53 | passes iff the user is an admin or owns the account, else 403 |
| FacebookService.Service.ExchangeToken | src/app/api/modules/facebook/service.py:55-61 | the exchanged token becomes the shared one; a missing key writes nothing |
| FacebookService.MatchingAccountsSpec | src/app/api/modules/facebook/service.py:74-76 | keeps exactly the accounts with the user's id, in order |
| FacebookService.GetAdAccountsSpec | src/app/api/modules/facebook/service.py:63-76 | fails iff there is no token or the Graph API fetch fails, with that error; admins see every fetched account; a non-admin with an account sees exactly the fetched accounts that carry it, and only those |
| FacebookService.AccessCheckedFirst | src/app/api/modules/facebook/service.py:78-111 | a user without access gets 403 whatever the token store holds; success implies both access and a token |
| FacebookService.GetAdsUnchecked | src/app/api/modules/facebook/service.py:113-124 | `get_ads` succeeds iff there is a token, whoever calls |
| AuthService.FirstByUsername | src/app/api/modules/auth/service.py:19-21 | a returned user is in the rows and has the name; None iff no row has it |
| AuthService.FirstByUsernameIsFirst | src/app/api/modules/auth/service.py:19-21 | the first row with the name is the one used |
| AuthService.LoginSpec | src/app/api/modules/auth/service.py:18-39 | tokens are issued iff the first such user is active and the password verifies; every failure is the same 401 |
| AuthService.NoPasswordCheckForUnknownUsers | src/app/api/modules/auth/service.py:22-26 | a missing or inactive user is refused before the password is checked |

## Left out

- Rendering, routing and network I/O are not modelled. Graph API calls, `httpx` dispatch, Telegram sending, database sessions and commits become parameters or map updates.
- Concurrency is not modelled: the `asyncio.gather`/semaphore fan-out of `get_ads`, bot polling and cron tasks.
- The Graph API's response shapes are preconditions, not error paths. Specifically:
  - `data` is a list of objects;
  - error and paging values are objects;
  - campaign and ad-set `id`s are strings;
  - insight `actions` are lists of objects;
  - row ids are strings when present.
  The `KeyError`/`AttributeError` that malformed answers would raise are therefore not modelled. A truthy non-dict `insights` value and a truthy non-string `objective` in the broadcast roll-up are also not modelled.
- The message text of `FacebookAPIError` is not modelled; only the error code is kept. The request parameters (fields, `time_range` JSON, filtering) are not modelled.
- `HttpClient.MapOutcome`: `httpx`'s classification of a failure is an input. `response.text` and `str(e)` are given strings.
- `HttpClient.Client.PrepareKwargs`: a `headers` argument is assumed to be a dict or None. Other types are not modelled.
- Number formatting is not modelled: `toFixed`, `toString`, `_n`/`_c`/`_p`, `_metrics_lines`. Neither is the report layout, including `obj.replace("_", " ").title()`.
- Translation and label texts are parameters (`MESSAGES`, `_LABELS`, the front-end tables). Only the lookup and fallback rules are modelled.
- Floating point is modelled as `real`, so NaN, infinities and rounding are not modelled. `parseFloat` and `float()` are abstract parsers.
- `Broadcast.ActiveCount` counts by `status == "ACTIVE"` only. Other statuses count as paused, as in the source.
- Case mapping (`toLowerCase`, `str.lower`) is modelled on ASCII letters only.
- `localeCompare` is an abstract strict total order, not a collation.
- `Broadcast.RangeDatesSpec`: `strftime` for years below 1000 is not pinned down, because Python's zero-padding there is platform-dependent. `Calendar.Iso` writes the year unpadded, as glibc's `%Y` does; month and day are padded to two digits.
- `InsightHelpers.GroupCampaignsByObjective` and `Grouping.Bucket` group into a map. The source groups into a plain object literal `{}`. For an objective such as `constructor`, `toString` or `__proto__`, `groups[obj]` there is an inherited value without `push`, so the page throws a `TypeError`. The model groups such objectives like any other.
- `FacebookClient.FetchWithPagination`, `FacebookClient.Fetched` and `FacebookClient.Stop` assume the cursor chain ends (`requires Ends(pages)`): the server's pages are a finite sequence whose last page has an error or no `paging.next`. The source's `while url:` has no page cap, so on a server whose `next` links never end it loops forever. That behaviour is not modelled.
- `FacebookService.GetAdAccounts`: the `FacebookAPIError` that `sdk.get_ad_accounts` raises is the fetch's `Failure`, passed through unchanged. How the application turns it into an HTTP response is not modelled.
- `StartHandler.StartCommand`: splitting the command text (`split(maxsplit=1)`) is not modelled; the payload is an input.
- `Broadcast.SendReportForUser`: `_send_admin_report` and `_send_user_report` are one sender oracle beyond the no-account guard. The guard on `telegram_chat_id` follows Python truthiness, so a chat id of 0 counts as none. `send_daily_reports`' logging and iteration are not modelled; only the locale choice is (`Broadcast.DailyLocale`).
- `AuthService.Login`: `build_filters` is taken to select exactly the rows with that username. The rows arrive in the database's order, which is an input.
- `Users.SelectOne` scans the table in an unspecified order. Only the outcome, not the scan order, is specified.
- `TelegramGateway.Gateway.GetUsersWithTelegram` returns the qualifying rows in an unspecified order, as SQL without `ORDER BY` does.
- `FacebookService.CurrentMonthRange` takes the SDK's clock reading as its `now` argument.
- src/app/clients/facebook.py is not part of this model: it is the older service's client, outside the modelled core. Its join differs from the back end's: each campaign fetches its own insights and keeps the first row, only `date_start` and `date_stop` are dropped, no `conversations` field is added, and there is no activity filter.
- `ProfilePage.getDateRange`, `useAuth.ts`, `formatters.ts`, the ORM models beyond the row shape, migrations and dependency wiring are not part of this model.

## Findings

| source | as written | input that shows it | evidently intended | confidence | as-written member | corrected member |
|---|---|---|---|---|---|---|
| backend/src/app/api/modules/telegram/service.py:46-50 | `get_chat_id` passes `telegram_daily_enabled` to `TelegramChatIdResponse`, whose schema (backend/src/app/api/modules/telegram/schema.py:8-10) declares only `chat_id` and `telegram_username`, so pydantic drops the flag | a user with `telegram_daily_enabled = true` gets the same response as one with `false` | the response carries the daily flag, as the front end's `TelegramChatIdResponse` type expects | not executed | TelegramService.DailyFlagDropped | TelegramService.GetChatIdStatusSpec |
