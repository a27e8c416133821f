# A verified model of the cloud AI platform's core

The platform is a set of microservices behind a gateway, with a Next.js dashboard in front of them:

- a NestJS **users service** that keeps user accounts and refresh-token sessions and issues JWTs;
- an **analytics API** that turns MongoDB aggregation results into usage reports;
- a **text-to-image** and a **text-to-speech** service that file every generation in S3 (MinIO) under
  `requests/{yyyy}/{mm}/{dd}/{id}/…` and keep a per-user JSON Lines history index;
- the **gateway**'s CORS configuration;
- the **dashboard pages**: image and speech generation with local history and status polling, chat, analytics, the
  dashboard frame and the landing page.

This project restates that core in Dafny and proves what the code promises.

Stateful parts are classes whose methods change their fields:

- the user and session stores (`Users.UsersService`);
- the authentication orchestrator (`Auth.AuthService`);
- an S3 bucket (`ObjectStore.Bucket`) and the two storage services over it;
- the React page state (`MediaPages.MediaPage`, `ChatPage.ChatView`, `AnalyticsPage.AnalyticsView`);
- the landing-page typewriter (`LandingPage.Typewriter`).

Pure parts are functions with lemmas. Loops of the source are methods with loop invariants, each proved against a
function that states its result. This covers the usage-statistics fold, the history reconciliation loop, the polling
loop and the per-service statistics loop.

Some inputs come from outside the code and are parameters of the model:

- the clock, as integer milliseconds, integer seconds or civil dates and times;
- every server answer and database query result;
- the bucket's failures, as a map from key to error code.

bcrypt is an abstract salted hash. A digest records its cost, the salt it was made with and what was hashed, and
every hash draws a salt that no earlier digest used. JWT signing is an abstract `Sign`/`Verify` pair. Verification
succeeds exactly for a token signed with the same secret that has not yet expired.

**The refresh-token lookup as written.** `refresh` and `logout` look the session up by `bcrypt.hash(refreshToken, 10)`
(users/src/auth/auth.service.ts:123, 154). That digest is made with a fresh salt, so it never equals the digest stored
when the session was created (lines 43, 93). The model keeps this behaviour. `Auth.AuthService.Refresh` proves that,
while every stored digest uses an earlier salt, refresh always fails with `Unauthorized("Invalid refresh token")` and
leaves the sessions unchanged. `Auth.AuthService.Logout` proves that logout then revokes nothing, and
`Auth.IssuedRefreshTokenIsRejected` proves that a refresh token issued a moment earlier by `register` verifies and is
still rejected. The rotation branch, where a session is matched, is modelled and proved too, so the behaviour a
matching lookup would have is also pinned down.

## Model

| member | source | states |
|---|---|---|
| Users.SaltSource.Hash | users/src/users/users.service.ts:32-33 | a digest records the requested cost, a salt not drawn before, and the hashed value |
| Users.UserByEmail | users/src/users/users.service.ts:45-47 | a user is found iff one has that e-mail; the one found is a stored user with that e-mail |
| Users.UserById | users/src/users/users.service.ts:49-51 | a user is found iff one has that id; the one found is a stored user with that id |
| Users.ActiveSessionByHash | users/src/users/users.service.ts:73-80 | only an active session whose stored digest equals the argument is returned; none is returned only when no active session has that digest |
| Users.RevokeById | users/src/users/users.service.ts:82-86 | every row with that id gets `revokedAt = now` whether or not it was already revoked; all other rows are unchanged |
| Users.RevokeAllOfUser | users/src/users/users.service.ts:88-93 | exactly the active rows of that user get `revokedAt = now`; all other rows are unchanged |
| Users.RevokeByIdTwice | users/src/users/users.service.ts:82-86 | revoking twice equals revoking once at the later time: the revoked state is idempotent, the timestamp is not |
| Users.RevokeByIdEvolves | users/src/users/users.service.ts:82-86 | revocation is an ACTIVE to REVOKED step for every row and leaves no active row with that id |
| Users.RevokeAllEvolves | users/src/users/users.service.ts:88-93 | every row takes at most one ACTIVE to REVOKED step; no active session of the user remains; other users' rows and already revoked rows keep their timestamps |
| Users.EvolveTransitive | users/src/users/users.service.ts:82-93 | steps compose, so over any run of operations no `revokedAt` is ever cleared |
| Users.UsersService.constructor | users/src/users/users.service.ts:14-19 | both stores start empty |
| Users.UsersService.CreateUser | users/src/users/users.service.ts:21-43 | a taken e-mail gives Conflict and leaves the users unchanged; otherwise exactly one user is appended with a new id, role `user` and a digest of the password; e-mails stay unique |
| Users.UsersService.FindUserByEmail | users/src/users/users.service.ts:45-47 | changes nothing; returns a user only if its e-mail equals the argument, and returns one whenever such a user exists |
| Users.UsersService.FindUserById | users/src/users/users.service.ts:49-51 | changes nothing; returns a user only if its id equals the argument, and returns one whenever such a user exists |
| Users.UsersService.CreateSession | users/src/users/users.service.ts:57-71 | appends exactly one active session with the given user, digest, agent, address and a new id; existing rows are unchanged |
| Users.UsersService.FindSessionByRefreshToken | users/src/users/users.service.ts:73-80 | the session lookup over the stored sessions: an active session with that digest, none only when no active session has it; nothing changes |
| Users.UsersService.RevokeSession | users/src/users/users.service.ts:82-86 | the sessions become `RevokeById` of the old sessions; users are unchanged |
| Users.UsersService.RevokeAllUserSessions | users/src/users/users.service.ts:88-93 | the sessions become `RevokeAllOfUser` of the old sessions; users are unchanged |
| Users.PasswordCheck | users/src/users/users.service.ts:53-55 | a password checks against the digest made from it, and no other password does |
| Users.ValidatePassword | users/src/users/users.service.ts:53-55 | a password checks against a user exactly when it is the password the user's digest was made from |
| Users.FreshDigestMatchesNothing | users/src/auth/auth.service.ts:123-129 | a lookup digest with a salt no stored digest used matches no session |
| Auth.AuthService.constructor | users/src/auth/auth.service.ts:18-22 | the service works on the given users service and JWT configuration |
| Auth.AuthService.Register | users/src/auth/auth.service.ts:25-61 | Conflict before anything is written; otherwise exactly one new user who validates with the password and one new active session whose digest is of the returned refresh token; the tokens carry the user's claims |
| Auth.AuthService.Login | users/src/auth/auth.service.ts:63-111 | the same Unauthorized for an unknown e-mail and a wrong password, with no session written; otherwise exactly one active session for that user, no new user, and tokens with the user's claims |
| Auth.AuthService.Refresh | users/src/auth/auth.service.ts:113-150 | either tokens or Unauthorized("Invalid refresh token") with the sessions unchanged; on success the token verified and a matched active session was rotated; while salts are fresh it always fails |
| Auth.AuthService.RotateSession | users/src/auth/auth.service.ts:131-146 | the old session is revoked and exactly one new active session of the same user holds a digest of the new refresh token; the tokens carry the owner's claims |
| Auth.AuthService.Logout | users/src/auth/auth.service.ts:152-164 | never fails; revokes at most one active session whose digest equals the lookup digest; changes nothing when none matches, which is always the case while salts are fresh |
| Auth.AuthService.ValidateJwtPayload | users/src/auth/auth.service.ts:166-172 | returns the user whose id is `sub` exactly when one exists, else Unauthorized("User not found") |
| Auth.AppendEvolves | users/src/auth/auth.service.ts:44-49 | appending a session changes no existing row |
| Auth.RegisterThenLogin | users/src/auth/auth.service.ts:30-99 | registering a new e-mail and then logging in with the same password both succeed, for the same user |
| Auth.IssuedRefreshTokenIsRejected | users/src/auth/auth.service.ts:43 | the refresh token register has just issued verifies against the refresh secret, yet refresh rejects it (also lines 113-150) |
| TokenIssuer.Duration.InSeconds | users/src/auth/auth.service.ts:178-182 | the length in seconds: the amount itself, or 60, 3600 or 86400 times it for minutes, hours and days |
| TokenIssuer.UnitsScale | users/src/auth/auth.service.ts:178-182 | a minute is 60 seconds, an hour 60 minutes, a day 24 hours |
| TokenIssuer.Sign | users/src/auth/auth.service.ts:176-183 | the token carries the payload and secret and expires `expiresIn` after issue |
| TokenIssuer.Verify | users/src/auth/auth.service.ts:118-120 | yields the payload exactly for a token signed with that secret that has not expired |
| TokenIssuer.GenerateTokens | users/src/auth/auth.service.ts:174-187 | both tokens sign the same payload; the access token uses the access secret and lifetime, the refresh token the refresh secret and lifetime |
| TokenIssuer.DefaultLifetimes | users/src/auth/auth.service.ts:178-182 | without configuration the tokens last 15 minutes and 30 days |
| TokenIssuer.RefreshVerifiesAfterSign | users/src/auth/auth.service.ts:118-120 | a refresh token verifies with the refresh secret for its whole lifetime (also lines 180-183) |
| TokenIssuer.AccessTokenRejectedAsRefresh | users/src/auth/auth.service.ts:118-120 | with distinct secrets an access token never passes as a refresh token (also lines 176-179) |
| AnalyticsDb.TimeRangeStart | analytics_api/db.py:371-386 | every range except ALL starts before now; ALL starts at `datetime.min` |
| AnalyticsDb.TimeRangeStartsOrdered | analytics_api/db.py:371-386 | ALL, YEAR, MONTH, WEEK, DAY and HOUR start in that order |
| AnalyticsDb.GroupFormat | analytics_api/db.py:310-311 | daily buckets exactly for WEEK and MONTH, hourly for every other range including ALL |
| AnalyticsDb.RangeFilter | analytics_api/db.py:94-96 | admits an instant iff the range is ALL or the instant is no earlier than the range start (also lines 164-166, 226-228, 305-307) |
| AnalyticsDb.LongerRangesAdmitMore | analytics_api/db.py:371-386 | widening the range never loses an event |
| AnalyticsDb.UserAnalyticsQuery | analytics_api/db.py:84-96 | always matches on `user_id`; explicit dates replace the range filter |
| AnalyticsDb.UsageStatsQuery | analytics_api/db.py:301-307 | a user condition only when a user id is given |
| AnalyticsDb.NoUserIdMeansAnonymousOrEveryone | analytics_api/db.py:84 | without a user id the user report selects anonymous events and the usage report selects every event (also line 302) |
| AnalyticsDb.SuccessRate | analytics_api/db.py:137-141 | `successful / total * 100` when total is positive, else 0.0 |
| AnalyticsDb.SuccessRateIsPercentage | analytics_api/db.py:137-141 | within [0, 100], and 100 exactly when every request succeeded (also lines 198-202) |
| AnalyticsDb.UserAnalyticsOf | analytics_api/db.py:132-149 | no events give zero counts and rate 0.0; otherwise total tokens is input plus output tokens and the reported rate is the success percentage of the reported counts |
| AnalyticsDb.CountNone | analytics_api/db.py:191 | the anonymous count is at most the number of ids |
| AnalyticsDb.DistinctIdsCount | analytics_api/db.py:190-204 | for distinct ids, `None` occurs at most once and the ids minus the anonymous count are the distinct named users (also lines 270-276) |
| AnalyticsDb.NoNoneCountsZero | analytics_api/db.py:191 | a list without `None` has anonymous count 0 |
| AnalyticsDb.ServiceAnalyticsOf | analytics_api/db.py:188-212 | the report names the service; no events give zero counts; otherwise unique users plus anonymous users equal the distinct ids, and the reported rate is the success percentage of the reported counts (0.0 when there are none) and the average latency is the reported one |
| AnalyticsDb.ServiceBreakdown | analytics_api/db.py:246-250 | one report per service type, in declaration order |
| AnalyticsDb.SystemAnalyticsOf | analytics_api/db.py:268-288 | the services are passed through; no events give zero totals; otherwise total users is distinct ids minus anonymous |
| AnalyticsDb.SystemUserCounts | analytics_api/db.py:270-276 | total users counts the distinct named users, and the anonymous count is at most one |
| AnalyticsDb.Rates | analytics_api/db.py:352-357 | one rate per service, in the same order |
| AnalyticsDb.GetUsageStats | analytics_api/db.py:331-365 | the loop yields the per-period and per-service totals and the per-service success rates |
| AnalyticsDb.TallyRows | analytics_api/db.py:335-350 | the first loop leaves the per-period totals, the per-service totals and the per-service tallies of all the rows |
| AnalyticsDb.RecordRow | analytics_api/db.py:346-350 | creating the entry when absent and then adding both counts is one tally step |
| AnalyticsDb.RatesOf | analytics_api/db.py:352-357 | the second loop replaces every tally by its rate, keeping the keys and their order |
| AnalyticsDb.RecordGet | analytics_api/db.py:346-350 | a step adds the row's count and success count to its own service's tally and leaves every other tally alone |
| AnalyticsDb.RecordInSteps | analytics_api/db.py:346-350 | create-if-absent, then add, equals one assignment of the sums |
| AnalyticsDb.PutTwice | analytics_api/db.py:346-350 | creating an absent key and then assigning it equals assigning it once |
| AnalyticsDb.TotalsValue | analytics_api/db.py:341-344 | each key's total is the sum of its rows' counts |
| AnalyticsDb.TotalsKeys | analytics_api/db.py:341-344 | a key is present exactly when some row carries it |
| AnalyticsDb.TotalsSumToCount | analytics_api/db.py:335-344 | the totals sum to the sum of all grouped counts |
| AnalyticsDb.PeriodAndServiceTotalsAgree | analytics_api/db.py:335-344 | the per-period and per-service totals have the same sum |
| AnalyticsDb.FindByKeys | analytics_api/db.py:353-357 | dictionaries with the same keys place each key at the same position |
| AnalyticsDb.TalliesKeys | analytics_api/db.py:343-350 | the success tallies have exactly the keys of the per-service totals, in the same order |
| AnalyticsDb.TalliesValue | analytics_api/db.py:346-350 | each tally holds the sum of its service's counts and success counts |
| AnalyticsDb.RatesPerService | analytics_api/db.py:346-357 | every rate key is a service of the totals, and its value is the guarded success percentage of that service |
| GatewayConfig.CorsOriginsList | gateway_api/config.py:39-44 | exactly `"*"` gives `["*"]`; otherwise one stripped entry per comma-separated field, in order |
| GatewayConfig.OriginsTrimmed | gateway_api/config.py:44 | no entry starts or ends with whitespace, and there are commas + 1 entries |
| GatewayConfig.EmptySettingGivesOneEmptyOrigin | gateway_api/config.py:44 | an empty setting gives one empty origin |
| GatewayConfig.OriginsRejoin | gateway_api/config.py:44 | when no field is padded, joining the entries with commas gives back the setting |
| Text.Split | gateway_api/config.py:44 | `str.split(",")`: commas + 1 fields, none containing the separator |
| Text.JoinSplit | gateway_api/config.py:44 | joining the fields of a split with the separator gives back the string |
| Text.PyStrip | gateway_api/config.py:44 | `str.strip()` is the input with Python whitespace removed at both ends: a slice of it with only whitespace before and after, starting and ending with a non-space |
| Text.JsTrim | frontend/app/dashboard/chat/page.tsx:179 | `trim()` is the input with JavaScript whitespace removed at both ends: a slice of it with only whitespace before and after, starting and ending with a non-space |
| Text.Strip | gateway_api/config.py:44 | the result is the input's slice with only whitespace cut off either end, and it neither starts nor ends with whitespace |
| Text.StrippedOfUnique | gateway_api/config.py:44 | only one string is a stripped form of a given input, so the description fixes the result of `strip()` and `trim()` |
| Text.StripKeepsCharacters | gateway_api/config.py:44 | stripping only removes characters: every character left was in the input |
| Text.TrimEmptyIffAllSpace | frontend/app/dashboard/chat/page.tsx:179 | trimming gives the empty string exactly for all-whitespace input |
| Text.StripUnpadded | gateway_api/config.py:44 | stripping a string without padding leaves it unchanged |
| Text.Take | text_speech_api/clients/s3.py:160 | `s[:n]`: the first min(n, length) characters |
| Text.AsciiUpper | frontend/app/dashboard/layout.tsx:114 | upper-cases ASCII letters and keeps every other character |
| Text.ReplaceFirst | frontend/app/dashboard/images/page.tsx:205-212 | without an occurrence nothing changes; otherwise the first occurrence is replaced |
| Text.IndexOf | frontend/app/dashboard/images/page.tsx:205-212 | the position found is an occurrence and no earlier position is one; none exactly when there is no occurrence |
| Text.ReplaceAtStart | frontend/app/dashboard/images/page.tsx:205-208 | a pattern at the very start is the occurrence replaced |
| Calendar.DayBefore | text_image_api/app/services/history.py:142 | the previous civil date is a valid earlier date |
| Calendar.DaysBefore | text_image_api/app/services/history.py:142 | `date - timedelta(days=k)` is a valid date, earlier when k is positive |
| Calendar.DaysBeforeStrictlyDecreasing | text_image_api/app/services/history.py:141-142 | probing further back reaches strictly earlier dates |
| Calendar.LateEnoughHasDaysBefore | text_image_api/app/services/history.py:142 | from a date on or after day k + 1 of year 1, stepping back k days stays within the calendar |
| Calendar.IsoFormat | text_speech_api/clients/s3.py:120 | `isoformat()` text is at least 19 characters; for a valid timestamp it is the year padded to 4 digits, `-`, month, `-`, day, `T`, hour, `:`, minute, `:`, second (each padded to 2 digits) at fixed places, followed by `.` and the microseconds padded to 6 digits exactly when they are not zero (also text_image_api/app/services/history.py line 76) |
| Calendar.IsoFormatShape | text_speech_api/clients/s3.py:120 | for a valid timestamp the `isoformat()` text holds digits everywhere except the `-`, `-`, `T`, `:`, `:` and `.` separators |
| Text.NatToStringFits | text_speech_api/clients/s3.py:120 | a number below 10 to the k has at most k decimal digits, so zero padding to k digits gives exactly k |
| Text.ZeroPad | text_speech_api/clients/s3.py:120 | the digits of the number, padded with zeros to exactly the width when they fit in it and unpadded otherwise |
| Text.ZeroPadValue | text_speech_api/clients/s3.py:120 | the padded digits still denote the number, so each `isoformat()` field reads back as its value |
| Text.NatToStringValue | text_image_api/app/services/history.py:31 | `str(n)` and `%Y`: the decimal digits denote n, and only 0 is written with a leading zero |
| Text.LeadingZeros | text_speech_api/clients/s3.py:120 | zeros in front of a string of digits do not change the number it denotes |
| JsonText.DumpsStrings | text_image_api/app/services/history.py:121-125 | `json.dumps` of a flat string object is braced, printable ASCII text that a JSON reader reads back as exactly the same members, in order |
| JsonText.DumpsLine | text_image_api/app/services/history.py:121-125 | `json.dumps(entry) + "\n"` holds one line break, at its end, and the text before it reads back as the entry's members |
| JsonText.UnicodeEscape | text_image_api/app/services/history.py:121-125 | the `\uXXXX` escape of a code unit holds four hex digits that read back as that code unit |
| JsonText.HexDigit | text_image_api/app/services/history.py:121-125 | a lower-case hex digit, read back as its value |
| JsonText.ParseEscapedChar | text_image_api/app/services/history.py:121-125 | every escape `json.dumps` writes for a character reads back as that character: the two-character escapes, `\uXXXX`, and the surrogate pair of a character beyond the Basic Multilingual Plane |
| JsonText.ParseSurrogatePair | text_image_api/app/services/history.py:121-125 | a character beyond the Basic Multilingual Plane reads back from its two `\u` escapes |
| JsonText.ParseEscapedString | text_image_api/app/services/history.py:121-125 | an escaped string followed by its closing quote reads back as the string |
| JsonText.ParseQuote | text_image_api/app/services/history.py:121-125 | a quoted string reads back as itself, leaving what follows unread |
| JsonText.MembersRoundTrip | text_image_api/app/services/history.py:121-125 | the members written with `": "` and `", "` and closed by `}` read back as the members |
| JsonText.DumpsRoundTrip | text_image_api/app/services/history.py:121-125 | the braced text of any object, empty or not, reads back as its members |
| JsonText.DumpedLineIsOneLine | text_image_api/app/services/history.py:121-125 | a dumped object plus `"\n"` holds exactly one line break |
| ImageHistory.BasePath | text_image_api/app/services/history.py:31-34 | starts with `requests/` and ends with `/{id}/` |
| ImageHistory.RequestKeysDistinct | text_image_api/app/services/history.py:44-89 | input, image and record keys share the base path and are pairwise distinct |
| ImageHistory.ProbeKeyIsRecordKey | text_image_api/app/services/history.py:146 | the key probed for a date is the record key a save on that date wrote (also line 89) |
| ImageHistory.IndexKey | text_image_api/app/services/history.py:114 | `users/{user}/image/history/…` ending in `.jsonl` |
| ImageHistory.Utf8Length | text_image_api/app/services/history.py:72 | between one and four bytes per character |
| ImageHistory.ParamsOf | text_image_api/app/services/history.py:40-42 | a present size, seed or model is copied as stored; an absent one defaults to `1024x1024`, null and `flux` |
| ImageHistory.RecordOf | text_image_api/app/services/history.py:59-87 | the record carries the id, user and prompt, `sha256:` digest, status 200, the image key as artifact, the prompt's byte length, and a `createdAt` ending in `Z` |
| ImageHistory.IndexLine | text_image_api/app/services/history.py:121-125 | exactly one line, ending in `"\n"`, whose text reads back as the object with `id`, `record` and the `%Y-%m-%d` `timestamp`, in that order |
| ImageHistory.IndexGrowsByOneLine | text_image_api/app/services/history.py:117-128 | the old index is a prefix of the new one, which has exactly one more line and ends in `"\n"` |
| ImageHistory.ImageHistoryService.constructor | text_image_api/app/services/history.py:12-14 | the service works on the given bucket |
| ImageHistory.ImageHistoryService.UpdateUserIndex | text_image_api/app/services/history.py:104-133 | reads the index (empty when missing) and writes it back with one appended line, as JSON Lines; nothing else changes |
| ImageHistory.ImageHistoryService.SaveImageHistory | text_image_api/app/services/history.py:16-102 | succeeds exactly when none of the four writes fails and the old index is readable; the first failing step returns its error and the store keeps exactly the writes made before it; on success returns the id and the record and image keys, and the store is the old one with exactly four writes: input, image and record under the request's keys, then the index holding its old text (empty when missing) plus one line |
| ImageHistory.ImageHistoryService.GetImageRecord | text_image_api/app/services/history.py:135-154 | the result of probing days 0 to 6 in order, every read error a miss |
| ImageHistory.ProbeDate | text_image_api/app/services/history.py:141-142 | the date probed first is today, and every later one is a valid, strictly earlier date |
| ImageHistory.ProbeDatesDecreasing | text_image_api/app/services/history.py:141-142 | a later probe reaches a strictly earlier date, so no date is probed twice |
| ImageHistory.ProbeKeys | text_image_api/app/services/history.py:141-146 | exactly seven keys are probed |
| ImageHistory.ProbeKeyAtIsRecordKey | text_image_api/app/services/history.py:142-146 | the key probed `days_back` days back is the record key of that date (also line 89) |
| ImageHistory.FirstReadableFinds | text_image_api/app/services/history.py:141-154 | reading the keys in order, skipping failures, returns the document at the only present key |
| ImageHistory.SaveLeavesOneRecordKey | text_image_api/app/services/history.py:44 | after the writes of a save for a new id, its record key holds the record and is the only record key of that id on any date (also lines 48, 89-90, 114) |
| ImageHistory.DaysBackAvailable | text_image_api/app/services/history.py:141-142 | from a date on or after 7 January of year 1, each of the seven probe dates exists |
| ImageHistory.IndexKeyIsNotARequestKey | text_image_api/app/services/history.py:34 | the index never overwrites a request object (also line 114) |
| ImageHistory.ProbeFindsSavedRecord | text_image_api/app/services/history.py:141-152 | a record saved within the last seven days is found |
| ImageHistory.RecordKeyIsOnlyARecordKey | text_image_api/app/services/history.py:44 | a record key is no input, image or index key of any date (also lines 48, 89, 114) |
| ImageHistory.SaveThenLookUp | text_image_api/app/services/history.py:89-90 | for a fresh id whose record key is readable: once the input and image writes have gone through, the saved record is found again by id within the week, even when the index write then fails (also lines 146-150) |
| TtsHistory.KeyLayout | text_speech_api/clients/s3.py:73-78 | input, record and audio keys share `requests/{yyyy}/{mm}/{dd}/{id}/` and are pairwise distinct |
| TtsHistory.LookupKeyIsRecordKey | text_speech_api/clients/s3.py:77 | `get_record` reads the key `save_tts_history` wrote for that date (also line 182) |
| TtsHistory.HistoryPrefix | text_speech_api/clients/s3.py:154 | every index key starts with the default listing prefix (also line 215) |
| TtsHistory.RecordOf | text_speech_api/clients/s3.py:104-122 | the record carries the id, user and prompt, service `tts`, the audio and input keys as artifacts, a `createdAt` ending in `Z`, and meta defaulting to empty |
| TtsHistory.IndexEntry | text_speech_api/clients/s3.py:157-169 | exactly one line, ending in `"\n"`, whose text reads back as the object with `id`, `ts` (the `isoformat()` text and `Z`), the first 100 characters of `prompt`, and `voice`, in that order |
| TtsHistory.TtsStorage.constructor | text_speech_api/clients/s3.py:16-25 | the storage works on the given bucket |
| TtsHistory.TtsStorage.AppendUserHistory | text_speech_api/clients/s3.py:141-174 | overwrites the index with one entry as `application/x-ndjson`; a failure is swallowed and changes nothing |
| TtsHistory.TtsStorage.SaveTtsHistory | text_speech_api/clients/s3.py:41-139 | succeeds exactly when the input, audio and record writes all go through; the first failing write returns its error and the store keeps exactly the writes made before it; on success returns exactly the three keys, and the store holds those writes plus the appended index only for a truthy user id whose index write goes through |
| TtsHistory.TtsStorage.GetRecord | text_speech_api/clients/s3.py:176-191 | a missing key gives None, any other error fails, a stored record document is returned |
| TtsHistory.TtsStorage.ListUserAudios | text_speech_api/clients/s3.py:206-228 | an absent or empty prefix defaults to the user's history prefix; an error gives []; otherwise at most `limit` keys, all with the prefix and no key twice |
| TtsHistory.IndexKeyIsNotARequestKey | text_speech_api/clients/s3.py:73-78 | the index never overwrites a request object (also line 154) |
| TtsHistory.SaveThenGet | text_speech_api/clients/s3.py:123-128 | for a record key that is readable: once the input and audio writes have gone through, the save succeeds and its record is read back unchanged for the same date (also lines 182-186) |
| TtsHistory.AppendTwice | text_speech_api/clients/s3.py:164-171 | after two appends the index holds only the second entry: one line |
| MediaPages.FormatRelativeTime | frontend/app/dashboard/images/page.tsx:327-340 | empty without a timestamp; `just now` exactly below a minute, including future times; then `Nm ago`, `Nh ago`, `Nd ago` with N the floored count |
| MediaPages.StatusBadge | frontend/app/dashboard/images/page.tsx:343-355 | green iff completed, blue iff processing or pending, red iff failed, gray for any other status |
| MediaPages.StatusColor | frontend/app/dashboard/images/page.tsx:343-355 | the source's exact class lists: green for completed, blue for processing or pending, red for failed, gray for any other status (the four cases cover every status) |
| MediaPages.WithStoredPrompt | frontend/app/dashboard/images/page.tsx:79-82 | the stored prompt fills in only a missing one |
| MediaPages.Kept | frontend/app/dashboard/images/page.tsx:74-100 | never longer than the stored history |
| MediaPages.Loaded | frontend/app/dashboard/images/page.tsx:74-100 | never more cards than stored entries |
| MediaPages.Reverse | frontend/app/dashboard/images/page.tsx:74-104 | element i is element n-1-i of the input |
| MediaPages.ReverseConcat | frontend/app/dashboard/images/page.tsx:74-104 | reversing a concatenation reverses and swaps the parts |
| MediaPages.LoadHistory | frontend/app/dashboard/images/page.tsx:62-115 | the loop's write-back is the history minus the gone entries, in order, and happens only when something was dropped; the shown cards are the loaded ones, most recent first |
| MediaPages.RewrittenIffSomethingGone | frontend/app/dashboard/images/page.tsx:101-106 | the history is rewritten iff some fetch gave 404 or no data |
| MediaPages.KeptAndLoadedFromStored | frontend/app/dashboard/speech/page.tsx:61-115 | kept entries come from the stored history, and there are at most as many cards as kept entries |
| MediaPages.RecordGenerated | frontend/app/dashboard/images/page.tsx:154-163 | the old history is a prefix; at most one entry is added; the id is present afterwards; the history is unchanged iff the id was already there |
| MediaPages.RecordGeneratedKeepsIdsUnique | frontend/app/dashboard/images/page.tsx:154-163 | stored ids stay unique |
| MediaPages.Refresh | frontend/app/dashboard/images/page.tsx:257-263 | only cards with the polled id are merged with the answer |
| MediaPages.Polled | frontend/app/dashboard/images/page.tsx:239-304 | polling keeps the number of cards |
| MediaPages.MediaPage.constructor | frontend/app/dashboard/images/page.tsx:50-52 | no cards, the stored history, an empty prompt, not loading |
| MediaPages.MediaPage.HandleGenerate | frontend/app/dashboard/images/page.tsx:134-178 | a blank prompt (or, on the image page, a generation already loading) changes nothing; a success puts the new card first, records the id in the history and clears the prompt; loading ends false |
| MediaPages.MediaPage.PollStatus | frontend/app/dashboard/images/page.tsx:239-304 | between one and `maxAttempts` requests; stops at the first terminal status or error; the cards are the fold of the answers received |
| MediaPages.RewriteMinioHost | frontend/app/dashboard/images/page.tsx:205-212 | a link without the MinIO host is unchanged |
| MediaPages.InternalLinkMovesToLocalhost | frontend/app/dashboard/images/page.tsx:205-212 | `http://minio:9000` + path becomes `http://localhost:9000` + path |
| MediaPages.LocalhostLinkHasNoSecureHost | frontend/app/dashboard/images/page.tsx:209-212 | prefixing `http://localhost:9000` creates no `https://minio:9000` for the second rewrite to find |
| ImagesPage.PollingKeepsShownPrompts | frontend/app/dashboard/images/page.tsx:257-263 | a card that shows a prompt keeps it through polling |
| ImagesPage.KeepPrompt | frontend/app/dashboard/images/page.tsx:257-263 | the refreshed card is the server's record with the card's own prompt when it has one, else the server's, else the one in the generation parameters |
| ImagesPage.PollImageStatus | frontend/app/dashboard/images/page.tsx:239-304 | at most 60 requests, and shown prompts are kept |
| ImagesPage.ImageSource | frontend/app/dashboard/images/page.tsx:195-215 | a JSON answer links `url`, else `signedUrl`, else `downloadUrl`, each with the storage host rewritten; otherwise the body is shown as a blob (the speech page's `download_url` is held in the same `downloadUrl` field) |
| SpeechPage.PollingReplacesWholesale | frontend/app/dashboard/speech/page.tsx:223-227 | after a successful final answer, the polled card is that server record |
| SpeechPage.KeepsMatchingIds | frontend/app/dashboard/speech/page.tsx:223-227 | replacing keeps the polled card's id |
| SpeechPage.PollSpeechStatus | frontend/app/dashboard/speech/page.tsx:214-262 | at most 30 requests; the cards are the fold of the answers with wholesale replacement |
| SpeechPage.SpeechSource | frontend/app/dashboard/speech/page.tsx:134-155 | links only `download_url`, rewritten; otherwise a blob |
| SpeechPage.Flag | frontend/app/dashboard/speech/page.tsx:313-327 | a two-letter country gives a pair of regional indicators, never the globe |
| SpeechPage.FlagCountry | frontend/app/dashboard/speech/page.tsx:313-327 | a country exactly for the ten listed languages, always two capital letters |
| SpeechPage.FlagCountryInverse | frontend/app/dashboard/speech/page.tsx:313-327 | each listed language is recovered from its country, so no two listed languages share one |
| SpeechPage.FlagInjective | frontend/app/dashboard/speech/page.tsx:313-327 | different two-letter countries give different pairs of regional indicators |
| SpeechPage.LanguageFlag | frontend/app/dashboard/speech/page.tsx:313-327 | the globe exactly for a code outside the ten listed |
| SpeechPage.FlagsDistinct | frontend/app/dashboard/speech/page.tsx:313-327 | listed languages have different flags |
| ChatPage.FirstUserMessage | frontend/app/dashboard/chat/page.tsx:86-88 | found iff some message is the user's, and it is one of them |
| ChatPage.SessionTitle | frontend/app/dashboard/chat/page.tsx:85-107 | `Chat sin título` on a fetch error, `Nueva Conversación` without a user message, otherwise the message if at most 50 characters, else its first 50 and `...` |
| ChatPage.TitleBounded | frontend/app/dashboard/chat/page.tsx:85-107 | a title has at most 53 characters |
| ChatPage.Titled | frontend/app/dashboard/chat/page.tsx:81-109 | one session per listed id, in order, titled from its messages |
| ChatPage.ModelName | frontend/app/dashboard/chat/page.tsx:133-144 | strings are kept; an object gives its `id` when set, else its `name` when set, else its `model` when set, else its JSON text; other values their string form |
| ChatPage.AnswerOf | frontend/app/dashboard/chat/page.tsx:208-213 | an assistant message stamped with the answer time, with the server's id (else one made from the clock) and `content` (else `response`) |
| ChatPage.WithoutId | frontend/app/dashboard/chat/page.tsx:219-220 | no message with the removed id remains, and none is added |
| ChatPage.WithoutIdMembers | frontend/app/dashboard/chat/page.tsx:219-220 | keeps exactly the messages with another id |
| ChatPage.WithoutAbsentId | frontend/app/dashboard/chat/page.tsx:219-220 | filtering an id that no message has changes nothing |
| ChatPage.ChatView.constructor | frontend/app/dashboard/chat/page.tsx:54-60 | empty draft, messages, sessions and models; no current session; not loading |
| ChatPage.ChatView.LoadSessions | frontend/app/dashboard/chat/page.tsx:75-127 | a failure changes nothing; otherwise the titled sessions, and the first session becomes current with its messages |
| ChatPage.ChatView.LoadModels | frontend/app/dashboard/chat/page.tsx:129-152 | a failure gives the three fallback models; otherwise one normalised name per entry, in order |
| ChatPage.ChatView.CreateNewSession | frontend/app/dashboard/chat/page.tsx:172-175 | clears the current session and the messages, nothing else |
| ChatPage.ChatView.HandleSendMessage | frontend/app/dashboard/chat/page.tsx:177-224 | a blank draft or a send in progress changes nothing; success appends the sent and the answered message; failure filters the sent message out again; loading ends false |
| ChatPage.ChatView.SendDraft | frontend/app/dashboard/chat/page.tsx:182-224 | a draft worth sending is cleared and shown as a user message; success adds the answer and adopts a first session id, failure removes every message with the temporary id; loading ends false |
| ChatPage.FailedSendRestoresMessages | frontend/app/dashboard/chat/page.tsx:184-220 | after a failed send the messages are those before it, when no earlier message shares the temporary id |
| ChatPage.WithoutIdAppend | frontend/app/dashboard/chat/page.tsx:219-220 | filtering distributes over concatenation |
| AnalyticsPage.NameMapsAreInverse | frontend/app/dashboard/analytics/page.tsx:61-72 | the two service-name maps are mutual inverses |
| AnalyticsPage.DisplayName | frontend/app/dashboard/analytics/page.tsx:75-82 | a known service, under either spelling, gets its label from the table; any other name is shown raw (also lines 457-458) |
| AnalyticsPage.DisplayNameIgnoresSpelling | frontend/app/dashboard/analytics/page.tsx:75-82 | a frontend and its backend name get the same label |
| AnalyticsPage.BackendName | frontend/app/dashboard/analytics/page.tsx:450-453 | a string entry is its own name; an object gives its `service_type` when set, else exactly `service-` followed by the index in decimal |
| AnalyticsPage.RequestCount | frontend/app/dashboard/analytics/page.tsx:461-466 | the backend key's count if non-zero, else the frontend alias's, else 0 |
| AnalyticsPage.CountFoundUnderFrontendName | frontend/app/dashboard/analytics/page.tsx:461-466 | a count stored under the frontend name is found for the backend name |
| AnalyticsPage.DistributionWidth | frontend/app/dashboard/analytics/page.tsx:556-562 | 0 when the total is 0; otherwise the count's percentage of the total, within [0, 100] for a count within the total |
| AnalyticsPage.CountOf | frontend/app/dashboard/analytics/page.tsx:526-529 | a number entry counts as itself, an object entry as its `total_requests` (0 when missing) |
| AnalyticsPage.LastWeek | frontend/app/dashboard/analytics/page.tsx:606 | the last min(7, n) days, in order |
| AnalyticsPage.BarWidth | frontend/app/dashboard/analytics/page.tsx:623 | never above 100; ten per request up to 10 requests |
| AnalyticsPage.AnalyticsView.constructor | frontend/app/dashboard/analytics/page.tsx:51-57 | nothing loaded yet, and loading |
| AnalyticsPage.AnalyticsView.LoadAnalytics | frontend/app/dashboard/analytics/page.tsx:88-139 | each failed fetch becomes its zeroed default; the service statistics are keyed by frontend name, each from its backend name's answer or zeroed; loading ends false |
| DashboardLayout.HeadsOfSplit | frontend/app/dashboard/layout.tsx:111-113 | the first characters of the space-separated words are the characters that follow a space or the start |
| DashboardLayout.GetInitials | frontend/app/dashboard/layout.tsx:109-117 | `U` for a missing or empty name; otherwise the upper-cased word starts, at most two |
| DashboardLayout.SpacesHaveNoWordStarts | frontend/app/dashboard/layout.tsx:111-114 | spaces start no word |
| DashboardLayout.BlankNameGivesNoInitials | frontend/app/dashboard/layout.tsx:111-114 | a name of spaces only gives empty initials |
| DashboardLayout.TwoWordInitials | frontend/app/dashboard/layout.tsx:111-116 | two words give their upper-cased first letters |
| DashboardLayout.NoSpaceWordStarts | frontend/app/dashboard/layout.tsx:111-113 | a text without spaces starts no further word |
| DashboardLayout.WordStartsConcat | frontend/app/dashboard/layout.tsx:111-113 | word starts of a concatenation are those of its parts |
| DashboardLayout.AtMostOneActive | frontend/app/dashboard/layout.tsx:187 | under the raw prefix test at most one navigation entry is active |
| DashboardLayout.IsActive | frontend/app/dashboard/layout.tsx:187 | an item is highlighted iff there is a path and the link matches its first characters one by one |
| DashboardLayout.Frame | frontend/app/dashboard/layout.tsx:73-107 | redirect to `/login` iff loading is over and nobody is signed in; the spinner iff loading; the dashboard iff signed in and not loading |
| LandingPage.Typewriter.constructor | frontend/app/page.tsx:41-44 | the first subtitle, nothing shown, typing, at the initial delay |
| LandingPage.Typewriter.Tick | frontend/app/page.tsx:49-71 | keeps the shown text a prefix of the current subtitle; typing adds one character at delay 50; at full length nothing changes and deleting is scheduled after 2000 ms; deleting removes one at delay 30; at empty it moves to the next subtitle, cyclically, at delay 500 |
| LandingPage.Typewriter.StartDeleting | frontend/app/page.tsx:56-57 | only switches to deleting |
| LandingPage.TypeOut | frontend/app/page.tsx:49-71 | n typing ticks show the first n characters of the subtitle |
| LandingPage.GetStartedRoute | frontend/app/page.tsx:77-83 | `/dashboard/chat` iff signed in, else `/login` |

## Left out

- Cryptography: bcrypt internals, JWT encoding, and SHA-256 of the prompt. The first two are abstract and the digest is a parameter. A salt is modelled as never repeating.
- Duration strings such as `JWT_ACCESS_EXPIRATION`: the configured value is a `Duration`, and parsing the text is not modelled.
- Database and network failures of the users store, and the atomicity of the revoke and create pair in refresh. Concurrency is not modelled.
- The MongoDB aggregation pipelines: their result rows are inputs. `avg_response_time_ms`, `start_date` and `end_date` are passed through and not modelled.
- AnalyticsDb.TimeRangeStart: Python raises OverflowError for an instant within a year of `datetime.min`; the model subtracts regardless.
- AnalyticsDb.SystemAnalyticsOf: `total_anonymous_requests` is the count of `None` among distinct ids (at most one), as written, not a request count.
- The `%Y` field is written without padding, and years below 1000 are not padded to four digits.
- JSON documents stored in S3 (`input.json`, `record.json`) are typed values rather than serialised text, so `indent=2` formatting and `json.loads` decoding are not modelled. Only the JSON Lines index entries are serialised.
- TtsHistory.TtsStorage.GetRecord: a record key that holds a body other than a record document is reported as a decoding failure.
- A stored index body is either `Text` (content that decodes as UTF-8) or `Bytes` (content that does not). `ExistingIndex` fails a non-empty `Bytes` body with `UnicodeDecodeError`, so the save fails; which byte strings decode is not modelled.
- ImageHistory.ImageHistoryService.GetImageRecord: requires today to be on or after 7 January of year 1; earlier, Python's date arithmetic raises OverflowError while probing, which the model does not reproduce.
- S3 listing order, and the creation of the bucket at start-up.
- `get_signed_url` (presigned URLs) and the Pollinations and gTTS clients.
- Strings are sequences of code points. Python's `prompt[:100]` slices by code point as `Take` does, but JavaScript measures and slices UTF-16 units, so `substring(0, 50)` may cut an astral character in half where the model keeps it whole.
- Text.AsciiUpper: `toUpperCase` is modelled on ASCII letters only.
- JavaScript object-prototype keys in the name maps and the flag table are not modelled.
- An absent or falsy JavaScript value is modelled as the empty string, and an unknown name as the text `undefined`.
- Timestamps are integer milliseconds: `new Date(...)` parsing is left out, and a missing or invalid timestamp is `None`.
- MediaPages.FormatRelativeTime: an unparsable timestamp string gives `NaN` in the page, which renders `NaNd ago`; the model has no such timestamp and gives "" for `None`.
- JsonText.ParseObject is a reference reader for the index entries, not a source operation: it reads only what `json.dumps` writes with its default separators, and rejects a lone surrogate escape, which Python's decoder would accept.
- Floating point: rates and widths are exact reals, and `toFixed` rounding is not modelled.
- Rendering, animation, `setTimeout` scheduling, Blob and object URLs, and `localStorage` reads and writes: the stored history is a parameter and the written value a result.
- The reload of the session list after a message opens a new session is not modelled.
- ChatPage.ModelName: `JSON.stringify` and `String(...)` are given as text in the entry, not computed.
- The gateway routes, authentication middleware and other services' route handlers are not part of this model.
