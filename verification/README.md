# My Everything — a Dafny model of the journaling core

"My Everything" is a private journaling app: a mobile client (Expo / React
Native) keeps diary entries on the device, classifies each entry's mood with
a keyword scorer, writes monthly reports and an "autobiography" over a
period, offers an offline mentor reply, rations the online mentor with a
per-day quota and mirrors entries to a small Next.js server through an
outbox queue. The server appends the entries to a JSON-lines file and
answers queries over it, and proxies mentor questions to a language-model
service.

This project models that core as pure Dafny functions over immutable
datatypes and proves what each piece promises:

| module | file | what it models |
|---|---|---|
| `Types` | `types.dfy` | diary entries, mood labels, locales, chat messages, calendar dates, the clock |
| `Emotion` | `emotion.dfy` | the keyword mood classifier |
| `MentorQuota` | `mentor_quota.dfy` | the per-day mentor quota state machine and its status report |
| `SyncQueue` | `sync_queue.dfy` | the deduplicating, capped outbox and its head-of-line-blocking flush |
| `LogStore` | `log_store.dfy` | adding, listing (newest first) and finding entries |
| `LogsRoute` | `logs_route.dfy` | the server's `/sync/logs` POST validation and GET query / debug tail |
| `Calendar` | `calendar.dfy` | the range picker: civil calendar, 42-cell grid, two-tap selection |
| `Assistant` | `assistant.dfy` | the offline mentor reply: FNV-1a hash, keyword picker, reply assembly |
| `Monthly` | `monthly.dfy` | the monthly report: month filter, most frequent mood, highlight line |
| `Autobiography` | `autobiography.dfy` | the autobiography: range / last-months filter, dates, paragraphs |
| `ApiBase`, `SyncHeaders` | `api_base.dfy`, `sync_headers.dfy` | server base URL and sync headers |
| `MentorApi`, `AdviseRoute` | `mentor_api.dfy`, `advise_route.dfy` | the mentor client's answer handling and the mentor proxy endpoint |
| `Text`, `Seqs`, `Sorting`, `Json`, `JsNumber`, `Wrappers` | | JavaScript string, array, sort, JSON and number semantics the core relies on |

Storage, the network, the file system, the environment and the clock are
parameters: a stored value is passed in and the value to store comes out; the
outcome of a `fetch` or a file write is an argument; `JSON.parse`, date parsing
and local-time conversion are functions in the `Clock` and in parameters named
`parse` and `timeOf`. Strings are `seq<char>`; where the source counts UTF-16
code units (the hash, the content length that picks a highlight) the model
converts explicitly (`Text.CodeUnits`). JavaScript numbers that can be NaN or
infinite are `JsNumber.JsNum`, so `Math.min`/`Math.max`/`slice` keep their
NaN behaviour.

## Model

| member | source | states |
|---|---|---|
| Emotion.Keywords | mobile/src/ai/emotion.ts:9-14 | every label has exactly eight keywords |
| Emotion.Hits | mobile/src/ai/emotion.ts:19-21 | the number of keywords found is between 0 and the keyword count; 0 exactly when none occurs, all exactly when every one occurs |
| Emotion.ScoreFor | mobile/src/ai/emotion.ts:16-25 | a score lies in [0, 17], and in [0, 16] for the two labels without the mark bonus |
| Emotion.ScoreParts | mobile/src/ai/emotion.ts:16-24 | a score is twice the number of distinct keywords found, plus 1 exactly for 불안/혼란 when the text has `!` or `?` |
| Emotion.RankInverse | mobile/src/ai/emotion.ts:29 | the label order 안정, 피곤, 불안, 혼란 of the keyword table is a bijection with 0..3 |
| Emotion.ScoresByRank | mobile/src/ai/emotion.ts:29-31 | the score list built in table order holds each label's score at its rank |
| Emotion.Winner | mobile/src/ai/emotion.ts:29-35 | the chosen label has a maximal score; a positive winner beats every earlier label strictly (stable sort); a zero top score gives 혼란 |
| Emotion.NothingScored | mobile/src/ai/emotion.ts:34-35 | all scores are zero exactly when the result is 혼란 with score zero |
| Emotion.Analyze | mobile/src/ai/emotion.ts:27-45 | the label is a maximal-score label of the trimmed, lower-cased text with the earliest-label tie-break and the 혼란 default, and the summary is that label's fixed summary |
| Emotion.AnalyzeLocalized | mobile/src/ai/emotion.ts:47-68 | the localized result has the same label as `analyzeEmotion`, the locale's summary for it, and is `analyzeEmotion` itself in Korean |
| Emotion.AnalyzeTrimmed | mobile/src/ai/emotion.ts:28 | trimming the content first does not change the result |
| Emotion.AnalyzeIgnoresPadding | mobile/src/ai/emotion.ts:28 | surrounding whitespace does not change the result |
| Emotion.TiredExample | mobile/src/ai/emotion.ts:11-21 | "오늘은 너무 피곤하고 지쳤다" is classified 피곤 |
| MentorQuota.Resolve | mobile/src/storage/mentorQuota.ts:91-100 | with no overrides the policy is `MentorQuotaLimits` (5 requests, 60 s, 1200 chars, 220 tokens, 9000 tokens) |
| MentorQuota.EstimateTokens | mobile/src/storage/mentorQuota.ts:31-34 | the estimate is the least integer `r` with `3.5·r ≥ len`, that is `ceil(len / 3.5)` |
| MentorQuota.Effective | mobile/src/storage/mentorQuota.ts:120-128 | the state used is the stored one when it is today's, and zero counters with `lastAtMs = 0` otherwise |
| MentorQuota.Consume | mobile/src/storage/mentorQuota.ts:102-154 | each rejection happens exactly under its condition in the order length, cooldown, budget, with the source's limit/used details; success stores `{today, reqCount+1, tokenCount+cost, now}` and stays within both daily limits |
| MentorQuota.TooLongIgnoresState | mobile/src/storage/mentorQuota.ts:102-109 | an over-long message is rejected the same way whatever the stored state, time and day |
| MentorQuota.StaleDayIsFresh | mobile/src/storage/mentorQuota.ts:120-128 | a stored state from another day behaves exactly like no stored state |
| MentorQuota.CooldownAfterSuccess | mobile/src/storage/mentorQuota.ts:130-154 | right after an admitted request, another acceptable message within the interval is rate limited |
| MentorQuota.RunCountsAdmitted | mobile/src/storage/mentorQuota.ts:140-154 | over any sequence of attempts the stored count grows by the number admitted, never past the daily limits, and nothing is written when none is admitted |
| MentorQuota.FreshDayAdmitsAtMostMax | mobile/src/storage/mentorQuota.ts:140-145 | a day that starts without a record admits at most `dailyMaxRequests` requests |
| MentorQuota.Status | mobile/src/storage/mentorQuota.ts:46-80 | remaining requests are `max(0, max − used)`; the wait is 0 outside the cooldown and otherwise ends exactly at `lastAtMs + cooldown`, within (0, cooldown] when the clock has not gone back |
| MentorQuota.StatusAgreesWithConsume | mobile/src/storage/mentorQuota.ts:66-145 | the status reports a wait exactly when the default consumer would rate-limit an acceptable message, and none remaining means it would reject |
| SyncQueue.Enqueue | mobile/src/storage/sync.ts:17-21 | a queued id leaves the queue unchanged; otherwise the log is prepended and the queue cut to 2000 from the tail; the id is queued afterwards |
| SyncQueue.EnqueueIdempotent | mobile/src/storage/sync.ts:17-19 | enqueuing the same log twice is enqueuing it once |
| SyncQueue.EnqueueKeepsInvariant | mobile/src/storage/sync.ts:17-21 | enqueuing keeps ids unique and the queue within the cap |
| SyncQueue.BatchSize | mobile/src/storage/sync.ts:36 | the batch size lies in [1, 200], is 30 by default and the requested value when that is in range |
| SyncQueue.FlushPendingSync | mobile/src/storage/sync.ts:41-65 | exactly the first `sent` items were delivered, `sent ≤ max`, the rest `q[sent..]` stays in order, `sent + pending` is the queue length, the first undelivered item stops the flush, and the queue is rewritten exactly when something was sent |
| SyncQueue.SyncLogToServer | mobile/src/storage/sync.ts:76-92 | a delivered log leaves the queue untouched; a failed one is enqueued |
| LogStore.AddLog | mobile/src/storage/logs.ts:13-29 | one new entry with the trimmed content and `analyzeEmotion`'s label and summary goes in front of the unchanged stored list |
| LogStore.AddLogKeepsClassified | mobile/src/storage/logs.ts:15-22 | when every stored entry carries its content's classification, so does every entry after adding |
| LogStore.LoadLogs | mobile/src/storage/logs.ts:7-11 | the listing is a permutation of the stored entries, newest `createdAtISO` first |
| LogStore.FindById | mobile/src/storage/logs.ts:33 | the result is the first entry with that id, and there is none exactly when no entry has it |
| LogStore.GetLogById | mobile/src/storage/logs.ts:31-34 | a stored entry with that id is returned whenever one exists, `null` otherwise |
| LogStore.SameIds | mobile/src/storage/logs.ts:31-34 | sorting neither adds nor removes ids |
| LogsRoute.Rejection | app/sync/logs/route.ts:36-44 | each check, in the order device id, log object, id, `createdAtISO`, content, rejects with its own message exactly when the earlier ones pass; a body that passes all five is accepted |
| LogsRoute.HandlePost | app/sync/logs/route.ts:34-62 | a row is appended exactly when the body is acceptable and the write succeeds, which is exactly when the reply is ok; the row carries the server time, the trimmed device id, the log unchanged and the user agent; otherwise the reply is 400 with the check's message, or 500 |
| LogsRoute.NonEmpty | app/sync/logs/route.ts:74 | `filter(Boolean)` keeps exactly the non-empty lines, and all of them when none is empty |
| LogsRoute.Lines | app/sync/logs/route.ts:74 | every line read back is non-empty and holds no newline |
| LogsRoute.AppendedLinesReadBack | app/sync/logs/route.ts:57-74 | a file of appended newline-terminated rows reads back as exactly those rows |
| LogsRoute.WindowOf | app/sync/logs/route.ts:78-82 | a window exists exactly when both ends are non-empty and parse, and runs from the smaller to the larger |
| LogsRoute.WindowSymmetric | app/sync/logs/route.ts:78-82 | swapping `startISO` and `endISO` gives the same window |
| LogsRoute.Selected | app/sync/logs/route.ts:86-97 | a line contributes exactly when it is an object row of the device whose log has a truthy `createdAtISO`, inside the window when there is one, and then it contributes that log |
| LogsRoute.CollectComplete | app/sync/logs/route.ts:85-101 | every selected line's log is in the query result |
| LogsRoute.CollectSound | app/sync/logs/route.ts:85-101 | every log in the query result comes from a selected line |
| LogsRoute.QueryLogs | app/sync/logs/route.ts:103-104 | the answer is sorted newest first, drawn from the collected logs, a prefix of their sorted order, and as long as the limit clamped to [1, 5000] allows |
| LogsRoute.QueryKeepsNewest | app/sync/logs/route.ts:103-104 | the limit only cuts off logs no newer than every one returned |
| LogsRoute.DebugTail | app/sync/logs/route.ts:108-114 | the tail is the last `n` lines, `n` clamped to [1, 200], each parsed or kept as `{raw}` |
| LogsRoute.HandleGet | app/sync/logs/route.ts:64-120 | a non-blank device id selects query mode; debug mode counts all non-empty lines; an unreadable file gives an empty answer of the mode's shape |
| LogsRoute.AcceptedEntryIsSelected | app/sync/logs/route.ts:49-97 | a log accepted by POST is returned by a query for its device, inside a window exactly when its time is in it |
| Calendar.DaysInMonth | mobile/src/components/CalendarRangePicker.tsx:53 | a month has 28 to 31 days |
| Calendar.Weekday | mobile/src/components/CalendarRangePicker.tsx:52 | `getDay()` lies in 0..6 |
| Calendar.YearLength | mobile/src/components/CalendarRangePicker.tsx:53 | a Gregorian year has 366 days when leap and 365 otherwise |
| Calendar.NextDay | mobile/src/components/CalendarRangePicker.tsx:67-69 | the next day is a valid date one day later |
| Calendar.DayNumberInjective | mobile/src/components/CalendarRangePicker.tsx:85-92 | comparing midnights compares dates: two valid dates have equal day numbers exactly when they are the same date |
| Calendar.IsSameDay | mobile/src/components/CalendarRangePicker.tsx:14-20 | `isSameDay` holds exactly for equal dates, which for valid dates is having the same day number |
| Calendar.DayOrder | mobile/src/components/CalendarRangePicker.tsx:89-93 | comparing two midnights orders valid dates by year, then month, then day of month |
| Calendar.ClampToMonth | mobile/src/components/CalendarRangePicker.tsx:22-24 | the clamped view's first day is on or before the date and within a month of it, and equals it exactly on day 1 |
| Calendar.NextMonth | mobile/src/components/CalendarRangePicker.tsx:112-115 | `›` moves to the following month, whose first day comes right after the shown month's last |
| Calendar.PrevMonth | mobile/src/components/CalendarRangePicker.tsx:100-103 | `‹` moves to the preceding month, whose last day comes right before the shown month's first |
| Calendar.NavigationRoundTrip | mobile/src/components/CalendarRangePicker.tsx:100-116 | the two buttons undo each other |
| Calendar.InitialView | mobile/src/components/CalendarRangePicker.tsx:45-47 | the picker opens on the month of the end, else of the start, else of today |
| Calendar.LeadingCells | mobile/src/components/CalendarRangePicker.tsx:56-60 | the leading cells are the last days of the previous month, consecutive, up to the first of the month |
| Calendar.MonthCells | mobile/src/components/CalendarRangePicker.tsx:61-64 | the in-month cells are days 1..daysInMonth in order |
| Calendar.TrailingCells | mobile/src/components/CalendarRangePicker.tsx:65-71 | the trailing cells continue day by day after the last in-month day |
| Calendar.Cells | mobile/src/components/CalendarRangePicker.tsx:50-73 | the grid has 42 consecutive days starting `firstWeekday` days before the first; exactly the month's days are flagged in-month, at the positions of days 1..daysInMonth |
| Calendar.GridIsRun | mobile/src/components/CalendarRangePicker.tsx:55-71 | the three pieces joined are consecutive days flagged by the middle piece |
| Calendar.RowsStartOnSunday | mobile/src/components/CalendarRangePicker.tsx:52-60 | every row of the grid starts on a Sunday |
| Calendar.OnPick | mobile/src/components/CalendarRangePicker.tsx:78-87 | with no start or a complete range a tap starts over; with a start only, the tap and the start become the two ends, the earlier first |
| Calendar.InRange | mobile/src/components/CalendarRangePicker.tsx:89-93 | nothing is highlighted without a start, only the start without an end, and otherwise exactly the dates from the start to the end in calendar order, both included |
| Calendar.TwoTaps | mobile/src/components/CalendarRangePicker.tsx:78-93 | after one tap only that day is highlighted, after two exactly the days between the taps inclusive in either order, and a third tap starts over |
| Assistant.HashString | mobile/src/ai/assistant.ts:5-12 | the loop computes 32-bit FNV-1a over the UTF-16 code units, a value in [0, 2^32) |
| Assistant.FnvSnoc | mobile/src/ai/assistant.ts:7-10 | hashing one more code unit is one more xor-and-multiply step |
| Assistant.HashOfA | mobile/src/ai/assistant.ts:5-12 | the hash of "a" is the FNV-1a value 0xe40c292c |
| Assistant.VariantOf | mobile/src/ai/assistant.ts:164 | the variant is in {0, 1, 2} and congruent to the seed modulo 3 |
| Assistant.SeedDependsOnDayAndText | mobile/src/ai/assistant.ts:95 | the same date part and the same trimmed text give the same seed text |
| Assistant.KeepAll | mobile/src/ai/assistant.ts:47 | exactly the words of length 2..12 that are not stopwords are kept |
| Assistant.Words | mobile/src/ai/assistant.ts:43-47 | every word is a kept piece of the text free of separators, and every kept piece is a word |
| Assistant.WordsOfText | mobile/src/ai/assistant.ts:43-47 | the words are exactly the kept pieces of the split, and the pieces with the separator characters between them give back the text |
| Assistant.Bound | mobile/src/ai/assistant.ts:49-53 | the loop collects up to `max` words when `max` is at least 1, and one word otherwise |
| Assistant.FirstDistinct | mobile/src/ai/assistant.ts:49-54 | the picked words are the first distinct words in order of first appearance, as many as the bound allows or all of them; stopping short means every word was taken |
| Assistant.CollectDistinct | mobile/src/ai/assistant.ts:49-54 | the early-exit loop returns the first distinct words in order of first appearance |
| Assistant.EnoughCollected | mobile/src/ai/assistant.ts:51-52 | stopping once the bound is reached or the words run out gives the first distinct words |
| Assistant.PickKeywordsKo | mobile/src/ai/assistant.ts:14-55 | `pickKeywordsKo` returns the first distinct kept words of the text, at most `max` |
| Assistant.PickedKeywordsWellFormed | mobile/src/ai/assistant.ts:14-54 | the keywords are distinct, within the bound, of length 2..12, not stopwords and free of separators |
| Assistant.LastLogHint | mobile/src/ai/assistant.ts:77-82 | no hint exactly without entries; otherwise the newest entry's label and the first `min(60, length)` characters of its first non-blank line, empty only for blank content |
| Assistant.ReasonIndex | mobile/src/ai/assistant.ts:99-126 | each skip reason selects one of the four reason lines of a wording |
| Assistant.Topic | mobile/src/ai/assistant.ts:129-140 | the topic is the fixed empty text, or the prefix and the trimmed text when it has at most 160 characters, or its first 160 characters and `…` |
| Assistant.RefLine | mobile/src/ai/assistant.ts:167-173 | the reference is the locale's quote around the hint's first line |
| Assistant.KeywordLine | mobile/src/ai/assistant.ts:182 | the keyword line starts with `키워드: `, and keywords without commas or surrounding spaces read back from the rest by splitting at the commas and trimming |
| Assistant.KeywordsReadBack | mobile/src/ai/assistant.ts:182 | splitting `keywords.join(", ")` at the commas and trimming each piece gives the keywords back when none contains a comma or surrounding space |
| Assistant.Suggestions | mobile/src/ai/assistant.ts:164-165 | the suggestions are the variant's lines joined by newlines: splitting at the newlines gives them back |
| Assistant.Assemble | mobile/src/ai/assistant.ts:183 | `filter(Boolean)` keeps the present paragraphs in order, and drops nothing else when none is empty |
| Assistant.Sections | mobile/src/ai/assistant.ts:128-183 | no paragraph is empty; there are five, plus the reason, the Korean keyword line and the entry reference when present; header first, question last |
| Assistant.SectionsOrder | mobile/src/ai/assistant.ts:128-183 | the reason follows the header, then the topic, the keywords (Korean only), the reference, the prompt and the suggestions |
| Assistant.ReplyWith | mobile/src/ai/assistant.ts:94-183 | the reply is the paragraphs of `Sections` for the trimmed text, the newest entry's hint, the seeded variant and the Korean keywords, joined by blank lines; it starts with the offline header and ends with the question |
| Assistant.ReplyKeywords | mobile/src/ai/assistant.ts:128 | the `pickKeywordsKo` loop gives the first three distinct kept words of the trimmed text in Korean, and none in the other locales |
| Assistant.ReplyVariant | mobile/src/ai/assistant.ts:95-164 | the `hashString` loop over the date and the trimmed text picks the variant the reply's paragraphs use |
| Assistant.MakeAssistantReply | mobile/src/ai/assistant.ts:84-191 | the message has role assistant, an id and time from the clock, and as text the reply's paragraphs in the locale's wording joined by blank lines |
| Monthly.MonthKey | mobile/src/ai/monthly.ts:5-9 | the key is the year, a dash and the two-digit month; "NaN-NaN" for an invalid date |
| Monthly.MonthKeyInjective | mobile/src/ai/monthly.ts:5-9 | two dates have the same key exactly when they fall in the same month (or are both invalid) |
| Monthly.SplitMonthKey | mobile/src/ai/monthly.ts:12 | splitting a key at the dash gives back the year and the padded month |
| Monthly.FormatMonthTitle | mobile/src/ai/monthly.ts:11-19 | the Korean and Japanese titles start with the key's year and end with 월 or 月, the English one formats the split year and month; in Korean and Japanese a key without a dash has the month NaN |
| Monthly.TitleOfMonth | mobile/src/ai/monthly.ts:11-19 | the Korean and Japanese titles show the year and the unpadded month; the English one formats that year and month |
| Monthly.InMonthKeeps | mobile/src/ai/monthly.ts:36-37 | the report keeps every entry whose month key is the target's, as often as it occurs, and nothing else |
| Monthly.CountPositive | mobile/src/ai/monthly.ts:23 | a label is counted exactly when some entry carries it |
| Monthly.TopEmotion | mobile/src/ai/monthly.ts:21-26 | `null` exactly without entries; otherwise a label with the maximal count, the one met first among equals |
| Monthly.Longest | mobile/src/ai/monthly.ts:29 | the stable sort by length puts first the earliest entry of maximal UTF-16 length |
| Monthly.HighlightLine | mobile/src/ai/monthly.ts:28-33 | `null` exactly without entries; otherwise the first `min(width, length)` characters of the longest entry's first non-blank line, empty only for blank content |
| Monthly.ReportWith | mobile/src/ai/monthly.ts:35-104 | the subtitle is the target month's title; no entries give the fixed empty body; otherwise the body is the four paragraphs of the count, the top label, the highlight cut to 80 characters and the closing, joined by blank lines |
| Monthly.ParagraphsQuote | mobile/src/ai/monthly.ts:60-104 | there are four paragraphs; the second names the top label or falls back, the third quotes the highlight when it is non-empty or falls back |
| Monthly.MakeMonthlyReport | mobile/src/ai/monthly.ts:35-104 | the report in the locale's wording: its fixed title, the month's title as subtitle, and the fixed empty body or the four paragraphs joined by blank lines |
| Autobiography.InRange | mobile/src/ai/autobiography.ts:15-22 | an entry is in range exactly when all three times parse and it lies between the ends, inclusive, in either order |
| Autobiography.InLastMonths | mobile/src/ai/autobiography.ts:5-13 | an entry is kept only for a finite month count of at least 1, at or before now and at or after the start the months give |
| Autobiography.LongerWindowKeepsMore | mobile/src/ai/autobiography.ts:5-13 | a longer window keeps every entry a shorter one keeps |
| Autobiography.PeriodKeeps | mobile/src/ai/autobiography.ts:41-44 | with both ends given the period is exactly the entries in range, otherwise exactly those of the last `months` (12 by default) months |
| Autobiography.RangeEndsCommute | mobile/src/ai/autobiography.ts:41-44 | swapping the two ends selects the same entries |
| Autobiography.FmtYmd | mobile/src/ai/autobiography.ts:24-32 | an invalid date prints NaN in every field, in each locale's shape |
| Autobiography.FmtYmdJa | mobile/src/ai/autobiography.ts:30 | the Japanese date shows year, month and day without padding |
| Autobiography.FmtYmdSplit | mobile/src/ai/autobiography.ts:29-31 | the English and Korean dates split into the year and the two-digit month and day |
| Autobiography.FmtYmdInjective | mobile/src/ai/autobiography.ts:24-32 | two dates print the same exactly when they are the same date |
| Autobiography.BioWith | mobile/src/ai/autobiography.ts:41-124 | an empty period gives the fixed body; otherwise the body is the four paragraphs opened by the period and its entry count, with the top label, the highlight cut to 90 characters and the closing, joined by blank lines; the title is fixed |
| Autobiography.OpeningIsValid | mobile/src/ai/autobiography.ts:73-89 | a non-empty period is described by real data: both range dates parse, or the month count is finite and at least 1 |
| Autobiography.MakeAutobiography | mobile/src/ai/autobiography.ts:34-124 | the autobiography in the locale's wording: its fixed title, and the fixed empty body or the four paragraphs of the period joined by blank lines |
| ApiBase.GetApiBase | mobile/src/lib/apiBase.ts:1-22 | native and non-http origins go to production, the Expo dev ports to the Next.js dev server, and any other http origin to itself |
| ApiBase.FallbacksNotExpoDev | mobile/src/lib/apiBase.ts:10-21 | neither the Next.js dev server nor the production domain is an Expo dev origin |
| ApiBase.BaseIdempotent | mobile/src/lib/apiBase.ts:1-22 | the base is a fixed point: a page served from the base the app picked picks that same base |
| SyncHeaders.GetSyncKey | mobile/src/lib/syncHeaders.ts:3-10 | a key exists exactly when the variable is set and not blank, and is its trimmed value |
| SyncHeaders.GetSyncAuth | mobile/src/lib/syncHeaders.ts:12-25 | the device id header is always there; `authorization: Bearer key` and `x-sync-key` appear exactly when there is a key; no other header |
| SyncHeaders.KeyIgnoresPadding | mobile/src/lib/syncHeaders.ts:7-8 | whitespace around the key does not change the headers |
| MentorApi.WithLanguageHint | mobile/src/ai/mentorApi.ts:5-13 | the question is the locale's hint followed by the message unchanged |
| MentorApi.HintsDistinct | mobile/src/ai/mentorApi.ts:5-13 | the hinted question determines both the locale and the message |
| MentorApi.Interpret | mobile/src/ai/mentorApi.ts:30-49 | a thrown error is its message; a failed status gives `mentor_api_http_<status>`, followed by `: ` and the first 200 characters of a non-empty body; `ok: false` gives its message or `mentor_api_not_ok`; otherwise the trimmed `reply` string, else the trimmed `advice` string, and `mentor_api_bad_response` when that is empty or neither is a string |
| MentorApi.ReadsRouteReply | mobile/src/ai/mentorApi.ts:44-49 | the client reads the mentor endpoint's success body as exactly the reply it carries |
| MentorApi.RouteFailuresAreErrors | mobile/src/ai/mentorApi.ts:30-42 | every non-success answer of the mentor endpoint reaches the client as an error |
| AdviseRoute.CorsHeaders | app/sync/mentor/advise-gpt/route.ts:17-33 | methods, headers and credentials are always granted; the origin is echoed exactly for the five allowed origins; nothing else |
| AdviseRoute.NoOriginNoGrant | app/sync/mentor/advise-gpt/route.ts:18-31 | a request without an origin is never granted one |
| AdviseRoute.Options | app/sync/mentor/advise-gpt/route.ts:35-37 | the preflight is an empty 204 with the CORS headers |
| AdviseRoute.JsonReply | app/sync/mentor/advise-gpt/route.ts:11-15 | a JSON reply keeps the CORS headers and adds the JSON content type |
| AdviseRoute.MaxOut | app/sync/mentor/advise-gpt/route.ts:49-53 | the budget lies in [64, 600]: 220 unless a number is given, else that number's floor clamped |
| AdviseRoute.ReplyText | app/sync/mentor/advise-gpt/route.ts:91-97 | the text is trimmed; a string `output_text` wins; else with an `output` array a string `output[0].content[0].text`, trimmed, and the empty text when that is missing or null; without either the text is empty |
| AdviseRoute.Post | app/sync/mentor/advise-gpt/route.ts:39-104 | a request goes upstream exactly with a key and a non-blank question; a missing key is 500 before the body is read, a blank question 400; every answer carries the CORS headers; success only after a request |
| AdviseRoute.PostUpstream | app/sync/mentor/advise-gpt/route.ts:83-102 | a thrown error is 500, a failed status 502 `openai_http_<status>` with 300 characters of detail, an ok answer with empty text 502 `empty_reply`, and 200 exactly for an ok answer with non-empty text, which is the reply |
| JsNumber.Clamp | app/sync/logs/route.ts:30-32 | `clamp` keeps NaN, and otherwise lands in [min, max], leaving values inside unchanged |
| JsNumber.ClampNearest | app/sync/logs/route.ts:30-32 | the clamped value is the closest point of [min, max] |
| JsNumber.ClampIdempotent | app/sync/logs/route.ts:30-32 | clamping twice is clamping once |
| JsNumber.ClampMonotone | app/sync/logs/route.ts:30-32 | clamping preserves order |
| JsNumber.Trunc | app/sync/logs/route.ts:108 | truncation rounds toward zero |
| JsNumber.RelativeIndex | app/sync/logs/route.ts:108 | a `slice` index: NaN and -Infinity give 0, +Infinity and anything past the length the length, values in [0, length] their floor, values in (-1, 0) 0, and other negatives count back from the length, stopping at 0 |
| JsNumber.SliceHead | app/sync/logs/route.ts:104 | `slice(0, clamp(n))` keeps the first `floor(n)` items (none for NaN) |
| JsNumber.SliceTail | app/sync/logs/route.ts:108 | `slice(-clamp(n))` keeps the last `floor(n)` items (all for NaN) |
| JsNumber.ToText | mobile/src/ai/autobiography.ts:84 | `String(n)` of NaN and the infinities is their name, and of a whole number below 10^21 in magnitude its decimal digits, after a minus sign when it is negative |
| Json.At | app/sync/mentor/advise-gpt/route.ts:96 | `?.[i]` reads an array element when in range, an object's key `"i"`, nothing otherwise |
| Json.ToStr | app/sync/mentor/advise-gpt/route.ts:96 | `String(v)` of a string is itself, of an empty array empty, of a one-string array that string |
| Text.Trim | mobile/src/ai/assistant.ts:94 | the trimmed text is the input without leading and trailing whitespace, empty exactly for blank input |
| Text.TrimIgnoresPadding | mobile/src/ai/assistant.ts:94 | added whitespace around a text does not change its trim |
| Text.PickFirstNonEmpty | mobile/src/ai/assistant.ts:69-75 | empty exactly when every line is blank, otherwise the trim of the first non-blank line |
| Text.BlankContent | mobile/src/ai/monthly.ts:31 | every line of a text is blank exactly when the text is blank |
| Text.Padded2 | mobile/src/ai/monthly.ts:7 | `padStart(2, "0")` of a month or day is two digits that read back as it |
| Text.NumberText | mobile/src/ai/monthly.ts:17 | `String(Number(s))` of a digit string is a digit string of the same value without leading zeros, and of "NaN" is "NaN" |
| Text.SplitOfJoin | mobile/src/ai/monthly.ts:12 | splitting at a separator no part contains gives the parts back |
| Text.SplitJoin | mobile/src/ai/monthly.ts:31 | joining the pieces of a split with the separator gives the text back |
| Text.SplitWhereRoundTrip | mobile/src/ai/assistant.ts:45 | the pieces of a split and the separator characters between them interleave back into the text |
| Text.IntToStringInjective | mobile/src/ai/monthly.ts:8 | distinct years print differently |
| Text.LessTransitive | mobile/src/storage/logs.ts:10 | the string order the comparators use is transitive |
| Text.LessTotal | mobile/src/storage/logs.ts:10 | any two different strings are ordered one way |
| Seqs.Dedup | mobile/src/ai/assistant.ts:49-53 | `includes`-guarded pushes keep each element once, nothing else |
| Seqs.DedupPrefix | mobile/src/ai/assistant.ts:49-53 | deduplicating a prefix gives a prefix of the deduplicated whole |
| Seqs.BestIndex | mobile/src/ai/monthly.ts:24 | a stable descending sort puts first the earliest maximal element |
| Seqs.FilterCounts | mobile/src/ai/monthly.ts:37 | `filter` keeps every element satisfying the test, as often as it occurs, and nothing else |
| Seqs.FilterSame | mobile/src/ai/autobiography.ts:43 | two tests that agree everywhere filter alike |
| Sorting.Insert | mobile/src/storage/logs.ts:10 | inserting into a sorted list keeps it sorted and adds exactly that element |
| Sorting.SortDesc | mobile/src/storage/logs.ts:10 | the sort returns a permutation ordered newest key first |
| Sorting.NewestFirst | app/sync/logs/route.ts:103-104 | no element left out of a sorted prefix is newer than one inside it |
| Sorting.PrefixMultiset | app/sync/logs/route.ts:104 | a prefix takes elements from the whole |

## Left out

- Storage: `getJson`/`setJson` on device storage become a stored value passed in and a value returned; the `keys.ts` table is not part of this model, including that `sync.ts` uses a `pendingSync` key the table does not define (the queue is modelled as the stored list, whatever its key).
- Network: `fetch`, `AbortController` and the timeouts are outcomes passed in (`delivered`, `AdviseRoute.Upstream`, `MentorApi.Answer`); `sendOne`'s request body and headers are not modelled.
- The server's file system: `mkdir`/`appendFile` become the `stored` flag of `LogsRoute.HandlePost`, `readFile` the optional file text of `LogsRoute.HandleGet`; `JSON.stringify` of a row is `LogsRoute.RowJson` as a JSON value, not its text.
- `JSON.parse`, `new Date(iso)`, local-time fields and `setMonth` arithmetic are parameters (`Clock`, `parse`, `timeOf`); `new Date()` is read once per call as `Clock.now`; `toLocaleDateString` for English month titles is the `enTitle` parameter, and `String` of non-whole numbers the `numText` parameter.
- `process.env` and `window.location.origin` are optional strings passed in; device id creation (`device.ts`, `id.ts`) depends on time and randomness and gives the ids as parameters.
- UTF-16: strings are sequences of Unicode scalar values; `length` and `slice` count those, except the hash and the highlight's length comparison, which convert to UTF-16 code units. Text outside the Basic Multilingual Plane is therefore measured differently in `Text.Take` users (topic, hint, highlight, detail, message length). For the same reason `Text.Less` compares scalar values where JavaScript's `<` compares code units; the two orders differ only between text outside the Basic Multilingual Plane and characters from U+E000 to U+FFFF.
- Sorting order of equal keys: the `createdAtISO` comparators never answer "equal", so the engine decides how equal timestamps end up; `LogStore.LoadLogs` and `LogsRoute.QueryLogs` state sortedness and permutation, not one particular order among equal keys.
- Floating point: `ceil(len / 3.5)` is the exact integer `ceil(2·len / 7)`; JSON numbers are exact reals; the range limit of `Date` appears only as `Clock.monthsBack` returning nothing.
- Concurrency: the quota's read-modify-write and overlapping flushes are not modelled.
- `extractConcreteClues` (assistant.ts) is never called, and `makeAssistantReply` discards the result of its `analyzeEmotion` call; neither is modelled.
- `getPendingSyncCount`, the picker's `weekdayLabels` and its own month title, and every screen and component rendering are presentation or trivial reads and are not modelled; the picker's `startOfDay` is the identity on the calendar days the model uses.
- `fetchMentorAdvice` takes no history and does not consume the quota; the model follows it and does not connect the two. The logs endpoint has no DELETE handler and no key check, so neither is modelled.
- The localized label names (`emotionLabels.ts`) and the report and reply wordings are data tables, kept as written and proved nothing about beyond being non-empty.
- Autobiography.FmtYmdInjective: proved for Korean dates and for English dates with non-negative years only; a negative year's minus sign collides with the English separator, and the Japanese format is not covered.
- Monthly.SplitMonthKey: requires a non-negative year for the same reason, and so does Monthly.TitleOfMonth.
- Autobiography.InLastMonths: states what a kept entry satisfies, not the converse.
- Text.NumberText: states `String(Number(s))` for digit strings and "NaN" only; every other string is read as NaN, whereas `Number` also accepts signs, surrounding spaces, fractions, exponents and hexadecimal. The month keys it reads are digit strings or "NaN" except for negative years.
- Text.ToLower: lower-cases ASCII letters only, where `toLowerCase` covers all of Unicode; the mood keywords are Hangul, Japanese and ASCII, so only the few non-ASCII capitals that lower-case to an ASCII letter (such as the Kelvin sign) classify differently.
- The query sort key: a `createdAtISO` that is not a string sorts as the empty string, whereas the handler compares the raw values; POST only stores rows whose `createdAtISO` is a non-empty string, so only rows put into the file by other means are affected.
- Json.ToStr: states `String(v)` only for strings, empty arrays and one-string arrays; booleans, `null`, objects, numbers (through `numText`) and longer arrays are defined as JavaScript prints them but not stated.
- Calendar.ClampToMonth: states the month's first day relative to the date rather than each field; the view's year and month are the date's by construction.
