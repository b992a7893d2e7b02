# MUED core logic in Dafny

This project models the decision logic of MUED, a music-education platform. It covers a web
booking system for lessons with mentors, an AI study-material generator, a practice-log
interviewer with retrieval search, two mobile screens and a macOS MIDI hub. One Dafny module
stands for each modelled source file:

- **Booking screens.** `BookingCalendarClient`, `BookingModal`, `MentorCalendar`, `MonthView`,
  `MentorDayView`, `ReservationManagement`, `SlotModal` and `LessonsPage` share the vocabulary in
  `Bookings`. They cover:
  - which slots still offer a free hour after their reservations are clipped, sorted and merged;
  - the 15-minute start options of the booking dialog;
  - the booking status of slots and days;
  - cancellation fees and deadlines;
  - slot form validation;
  - the lessons page filter.
- **Server side.** `LessonSlotsRoute` (the lesson-slot API), `LessonSlotsRepository`,
  `SubscriptionsRepository` and `SessionsRepository` are in-memory tables with the repositories'
  guards and defaults. `AiTools` is the assistant's tool dispatch. `AiMaterialService` is prompt
  templates and the quota guard. `InterviewerService` is the question fallback chain.
  `RagService` is the embedding cache and retry policy. `NotificationService` is the
  reservation-confirmed flow. `MentorSearch` is the mentor-matching search.
- **Analysis.** `RagMetrics` covers recall, precision, MRR, F1, NDCG, aggregation and the quality
  assertion. `AbcAnalyzer` covers the educational quality analysis of an ABC melody.
- **Clients.** `ReviewScreen` and `HistoryScreen` are the mobile screens. `MidiReceiver` is the
  hub's UMP decoding with its control-change debounce.
- **Shared.** `Common` holds Option/Result, the millisecond calendar, JavaScript rounding and
  integer rendering. `Text` holds the JavaScript string operations used. `Sorting` is a stable
  sort by an integer key, the behaviour of `Array.prototype.sort` with a numeric comparator.

Times are integer milliseconds since the epoch, and a calendar day is
`t / 86400000` in the local zone. Scores, amounts and ratios are exact reals or integers. NaN
appears as `None` where the source can produce it. Code the modelled files call but do not
contain is passed in as function parameters. This covers the database, the language model, the
embedder, abcjs, the instrument tables, `calculateMatchScore`, `getDateKey`, `Math.log2` and the
clock. Where the source changes state step by step, the model is a class with methods. Each such
method is proved equal to a specification function, and the properties are lemmas about those
functions.

## Model

| member | source | states |
|---|---|---|
| Common.ClampReal | lib/abc-analyzer.ts:391 | `Math.max(0, Math.min(10, x))` lies within the bounds, keeps a value inside them and otherwise answers the bound crossed |
| Common.JsRound | lib/services/notification.service.ts:93 | `Math.round` answers the integer within half of x, halves rounding up |
| Common.FloorDiv | apps/muednote-mobile/src/screens/ReviewScreen.tsx:96 | `Math.floor(a / b)` is the quotient q with q·b ≤ a < q·b + b |
| Common.DayStart | apps/web/app/dashboard/slots-calendar/_components/MentorDayView.tsx:109-110 | `setHours(0, 0, 0, 0)` gives the first millisecond of the same day |
| Common.DayEnd | apps/web/app/dashboard/slots-calendar/_components/MentorDayView.tsx:111-112 | `setHours(23, 59, 59, 999)` gives the last millisecond of the same day |
| Common.Weekday | lib/repositories/lesson-slots.repository.ts:372 | `getDay()` lies in 0..6 |
| Common.SameDayIffWithinDay | apps/web/app/dashboard/slots-calendar/_components/MentorDayView.tsx:108-112 | an instant is on the selected day exactly when it lies between that day's first and last millisecond |
| Common.NatToString | lib/services/notification.service.ts:95-99 | a natural number renders as decimal digits, one digit exactly below 10 |
| Common.NatToStringRoundTrip | lib/services/notification.service.ts:95-99 | reading the rendered digits back gives the number |
| Common.IntToString | lib/services/rag.service.ts:235 | an integer renders as digits with a leading "-" exactly when it is negative |
| Common.IntToStringRoundTrip | lib/services/rag.service.ts:235 | reading a rendered integer back, sign included, gives the integer |
| Common.PadStart2 | apps/muednote-mobile/src/screens/ReviewScreen.tsx:307 | `padStart(2, '0')` leaves two or more characters alone and otherwise left-fills with '0' to length 2 |
| Common.JsRem | apps/muednote-mobile/src/screens/ReviewScreen.tsx:306 | JavaScript `%` agrees with the modulus for non-negative operands and lies in (-b, 0] for negative ones |
| Text.IndexOf | lib/services/ai-material.service.ts:422-426 | the first position where the pattern occurs, present exactly when the pattern occurs |
| Text.IndexOfAfter | lib/services/ai-material.service.ts:422-426 | a pattern whose first character does not occur before it is found where it stands |
| Text.Expand | lib/services/ai-material.service.ts:422-426 | a replacement without "$" is inserted as it is |
| Text.ExpandEscapes | lib/services/ai-material.service.ts:422-426 | in a replacement "$$" becomes one "$" and "$&" becomes the matched text |
| Text.Trim | lib/services/interviewer.service.ts:386-413 | `trim()` is the text with exactly its maximal leading whitespace and its maximal trailing whitespace removed: what is left sits right after the leading run and only whitespace follows it |
| Text.TrimIdentity | lib/services/interviewer.service.ts:413 | text with no whitespace at either end is its own trim |
| Text.LeadingOfPadded | lib/services/interviewer.service.ts:413 | whitespace put in front of a text adds its own length to the leading whitespace run |
| Text.TrimOfPadded | lib/services/interviewer.service.ts:413 | a text that starts and ends with non-whitespace, padded by any whitespace on either side, trims back to itself |
| Text.ToLowerAscii | app/api/mentor-matching/search/route.ts:238-256 | lower-casing maps each character in place |
| Text.ToLowerAsciiKeepsLower | app/api/mentor-matching/search/route.ts:238-250 | text without capitals is unchanged |
| Text.ReplaceFirst | lib/services/ai-material.service.ts:422-426 | `replace` with a string pattern leaves text without the pattern unchanged and otherwise changes only the first occurrence, into the replacement with its "$" patterns expanded against the text before and after it |
| Text.ReplaceFirstAfter | lib/services/ai-material.service.ts:422-426 | a placeholder preceded by text free of its first character is the one replaced, by the expanded replacement |
| Text.AbsentAround | lib/services/ai-material.service.ts:422-426 | a second placeholder cannot be found across the first placeholder's surroundings |
| Text.ReplaceAll | lib/services/interviewer.service.ts:474 | a global replace leaves text without the pattern unchanged |
| Text.ReplaceAllOnce | lib/services/interviewer.service.ts:474 | one placeholder between brace-free text becomes the value with its "$" patterns expanded against the text before and after it; the rest is kept |
| Text.ReplaceAllSelf | lib/services/interviewer.service.ts:474 | replacing every occurrence of any pattern by "$&", the matched text, gives back the text |
| Text.ReplaceAllFromMatched | lib/services/interviewer.service.ts:474 | from any index on, a global replace by "$&" gives back the rest of the text |
| Text.Join | lib/services/interviewer.service.ts:354-356 | joining nothing gives "" and joining one part gives that part |
| Text.JoinSplit | lib/services/interviewer.service.ts:354-356 | a join of any number of parts is the join of the parts before any inner boundary, the separator, and the join of the parts after it |
| Text.JoinLength | lib/services/interviewer.service.ts:354-356 | a join holds every part and exactly one separator between each two neighbours |
| Sorting.InsertBySorted | apps/muednote-mobile/src/screens/ReviewScreen.tsx:67 | inserting into a key-ordered list keeps it ordered, after every element with the same key |
| Sorting.InsertByElements | apps/muednote-mobile/src/screens/ReviewScreen.tsx:67 | insertion adds exactly the new element |
| Sorting.SortedByApart | app/api/mentor-matching/search/route.ts:284 | in a key-ordered list an earlier element never has a larger key |
| Sorting.SortByProperties | apps/muednote-mobile/src/screens/ReviewScreen.tsx:67 | the stable sort by a key is ordered and a permutation of its input |
| Sorting.SortByMembers | app/api/mentor-matching/search/route.ts:284 | the sort keeps exactly the input's elements |
| Sorting.SortBySortedIdentity | app/api/mentor-matching/search/route.ts:284 | sorting an already ordered list changes nothing |
| Sorting.InsertByWithKey | apps/muednote-mobile/src/screens/ReviewScreen.tsx:67 | inserting an element appends it to the run of its own key and leaves every other key's run as it was |
| Sorting.SortByStable | apps/muednote-mobile/src/screens/ReviewScreen.tsx:67 | the sort is stable: for every key, the elements with that key appear in their input order |
| Sorting.SortBy | apps/muednote-mobile/src/screens/ReviewScreen.tsx:67 | keeps the length; `SortByProperties` proves the result is ordered by key and a permutation, and `SortByStable` that equal keys keep their order |
| RagMetrics.TopK | lib/utils/rag-metrics.ts:80 | the top K is the first min(k, \|results\|) results |
| RagMetrics.Hits | lib/utils/rag-metrics.ts:81-82 | hits never exceed the retrieved count and are 0 exactly when no retrieved id is relevant |
| RagMetrics.HitsIsCount | lib/utils/rag-metrics.ts:81-82 | the hit count is the number of retrieved positions whose id is in the ground truth |
| RagMetrics.RecallAtK | lib/utils/rag-metrics.ts:73-85 | recall is non-negative and is 0 exactly when the ground truth is empty or nothing in the top K hits |
| RagMetrics.HitsOfDistinct | lib/utils/rag-metrics.ts:81-82 | with distinct retrieved ids the hits are the distinct relevant ids found |
| RagMetrics.HitsOfDistinctBounded | lib/utils/rag-metrics.ts:81-84 | distinct retrieved ids hit at most \|groundTruth\| times |
| RagMetrics.RecallAtMostOne | lib/utils/rag-metrics.ts:71-85 | recall lies in [0, 1], as documented, when the top K holds no repeated id |
| RagMetrics.RecallExceedsOneWithDuplicates | lib/utils/rag-metrics.ts:71-85 | a repeated relevant id is counted twice, so recall reaches 2 for ["doc1","doc1"] against ["doc1"] |
| RagMetrics.PrecisionAtKAsWritten | lib/utils/rag-metrics.ts:97-109 | as written, precision is NaN exactly when k > 0 and there are no results (0 / 0) |
| RagMetrics.PrecisionAtK | lib/utils/rag-metrics.ts:97-109 | corrected precision lies in [0, 1] and is 0 exactly when k = 0 or nothing in the top K hits |
| RagMetrics.PrecisionAgreesWhereDefined | lib/utils/rag-metrics.ts:97-109 | the corrected precision equals the source's wherever the source yields a number |
| RagMetrics.PrecisionNaNOnEmptyResults | lib/utils/rag-metrics.ts:97-109 | no results, one relevant id, k = 5: the source divides 0 by 0; the corrected one gives 0 |
| RagMetrics.FirstRelevant | lib/utils/rag-metrics.ts:127-133 | the index found is relevant and every earlier result is not; none means no result is relevant |
| RagMetrics.Mrr | lib/utils/rag-metrics.ts:121-134 | the reciprocal rank lies in [0, 1] |
| RagMetrics.CalculateMrr | lib/utils/rag-metrics.ts:121-134 | the scanning loop with its early return computes the reciprocal rank of the first relevant result |
| RagMetrics.MrrExtremes | lib/utils/rag-metrics.ts:121-134 | MRR is 1 exactly when the top result is relevant and 0 exactly when none is |
| RagMetrics.F1Score | lib/utils/rag-metrics.ts:145-148 | F1 is 0 when precision + recall is 0 |
| RagMetrics.F1Symmetric | lib/utils/rag-metrics.ts:145-148 | F1 is symmetric in precision and recall |
| RagMetrics.F1OfEqual | lib/utils/rag-metrics.ts:145-148 | F1 of equal precision and recall is that value |
| RagMetrics.F1Between | lib/utils/rag-metrics.ts:145-148 | for non-negative inputs F1 lies between the smaller and the larger |
| RagMetrics.CalculateRagMetrics | lib/utils/rag-metrics.ts:158-181 | totalRetrieved = min(k, \|results\|), totalRelevant = \|groundTruth\|, hits <= totalRetrieved, precision and MRR in [0, 1], recall = hits / totalRelevant |
| RagMetrics.CalculateDcg | lib/utils/rag-metrics.ts:192-203 | the accumulating loop equals the sum of relevance / log2(position + 1) over the first k (default all) scores |
| RagMetrics.DcgPrefixNonNegative | lib/utils/rag-metrics.ts:192-203 | non-negative relevance gives a non-negative DCG |
| RagMetrics.InsertDescending | lib/utils/rag-metrics.ts:224 | inserting into a descending list keeps it descending and adds exactly that element |
| RagMetrics.SortDescending | lib/utils/rag-metrics.ts:224 | the copy sorted with `b - a` is descending and a permutation of the scores |
| RagMetrics.SortDescendingOfSorted | lib/utils/rag-metrics.ts:224 | sorting already descending scores changes nothing |
| RagMetrics.NdcgOf | lib/utils/rag-metrics.ts:215-234 | NDCG is 0 when IDCG is 0 and otherwise DCG / IDCG |
| RagMetrics.CalculateNdcg | lib/utils/rag-metrics.ts:215-234 | calculateNDCG computes the DCG, the IDCG of the descending copy and their quotient |
| RagMetrics.DcgOfIdealOrder | lib/utils/rag-metrics.ts:215-234 | scores already sorted descending have DCG = IDCG |
| RagMetrics.NdcgOfIdealOrder | lib/utils/rag-metrics.ts:215-234 | scores already sorted descending have NDCG 1 unless IDCG is 0 |
| RagMetrics.AggregateRagMetrics | lib/utils/rag-metrics.ts:242-291 | queryCount is the number of evaluations and the empty list aggregates to all zeros |
| RagMetrics.AggregateOfOne | lib/utils/rag-metrics.ts:242-291 | aggregating one evaluation reproduces it with queryCount 1 |
| RagMetrics.AggregateMeansBounded | lib/utils/rag-metrics.ts:242-291 | each mean metric stays within any bounds every evaluation meets |
| RagMetrics.EvaluateRagQuery | lib/utils/rag-metrics.ts:303-324 | the evaluation keeps the top K ids and the metrics, and has NDCG exactly when relevance scores are supplied |
| RagMetrics.ErrorIfFails | lib/utils/rag-metrics.ts:371-393 | one error for a metric exactly when its threshold is supplied and the metric is below it |
| RagMetrics.QualityErrorsSound | lib/utils/rag-metrics.ts:360-398 | every collected error names a failing metric with its value and threshold |
| RagMetrics.QualityErrorsComplete | lib/utils/rag-metrics.ts:360-398 | every failing metric is reported, and nothing is reported exactly when no metric fails |
| RagMetrics.AppendHigherRank | lib/utils/rag-metrics.ts:371-393 | appending at most one error of a later metric keeps the order |
| RagMetrics.QualityErrorsOrdered | lib/utils/rag-metrics.ts:371-393 | errors come in the order recall, precision, MRR, F1, each at most once |
| RagMetrics.AssertRagQuality | lib/utils/rag-metrics.ts:360-398 | the collected errors are exactly those above, and the check throws exactly when some metric fails |
| RagMetrics.NaNPrecisionPassesEveryThreshold | lib/utils/rag-metrics.ts:97-109 | an empty result list makes the source's precision NaN, which no `<` comparison flags; the corrected precision 0 fails every positive minimum |
| RagMetrics.Dcg | lib/utils/rag-metrics.ts:192-203 | DCG over the first `k` scores, all of them when fewer; `CalculateDcg` is proved equal to it and `NdcgOf` uses it |
| RagMetrics.QualityErrors | lib/utils/rag-metrics.ts:360-398 | the failed checks in the order recall, precision, MRR, F1; `QualityErrorsSound`, `QualityErrorsComplete` and `QualityErrorsOrdered` prove it lists exactly the failed ones in that order |
| RagService.Int32 | lib/services/rag.service.ts:233 | `hash & hash` gives the signed 32-bit value congruent to the hash modulo 2^32 |
| RagService.Int32Congruent | lib/services/rag.service.ts:232-233 | values congruent modulo 2^32 truncate to the same 32-bit integer |
| RagService.Int32InRange | lib/services/rag.service.ts:233 | truncation leaves a value already in the signed 32-bit range alone |
| RagService.Hash | lib/services/rag.service.ts:229-235 | the rolling hash is a signed 32-bit integer |
| RagService.HashIsPolynomial | lib/services/rag.service.ts:229-235 | truncating at each step gives the 32-bit truncation of the polynomial sum of 31^(n-1-i) * code unit i |
| RagService.HashOfPair | lib/services/rag.service.ts:229-235 | the hash of a two-unit text is 31 * first + second |
| RagService.HashStepSmall | lib/services/rag.service.ts:232-233 | a step that stays below 2^31 is exactly 31 * hash + code unit |
| RagService.CacheKeysCollide | lib/services/rag.service.ts:228-236 | two distinct texts of the same length share one cache key (with lines 169-173) |
| RagService.RetryWithBackoff | lib/services/rag.service.ts:244-273 | at most maxRetries attempts; every attempt but the last was rate limited (429); a success is returned, any other error is rethrown at once, a 429 on the last attempt is rethrown, no attempts means "Max retries exceeded"; the waits are 1000 * 2^attempt for each retried attempt |
| RagService.Schedule | lib/services/rag.service.ts:260 | the waits before attempts 1..n are 1000 * 2^k for k below n |
| RagService.WaitsTotal | lib/services/rag.service.ts:260 | the waits of n retries total 1000 * (2^n - 1) ms |
| RagService.ToSimilarLog | lib/services/rag.service.ts:453-466 | a row keeps its id and similarity; an absent or empty session id falls back to the log id; absent content becomes "" |
| RagService.SimilarLogs | lib/services/rag.service.ts:453-466 | every row maps to one log, in order |
| RagService.Service.constructor | lib/services/rag.service.ts:140-158 | a new service starts with an empty cache |
| RagService.Service.GetCacheKey | lib/services/rag.service.ts:228-236 | the loop computes "emb_" + 32-bit rolling hash + "_" + length |
| RagService.Service.GenerateEmbedding | lib/services/rag.service.ts:164-210 | text outside 1..8000 characters is rejected before the cache or the embedder is touched; a cache hit returns the stored vector with no call; otherwise retried calls, and a vector of length 1536 is cached under the key while any failure leaves the cache alone (with lines 81-84) |
| RagService.Service.ClearCache | lib/services/rag.service.ts:278-281 | the cache is empty afterwards |
| RagService.Service.GetCacheSize | lib/services/rag.service.ts:287-289 | the size is the number of cached entries |
| RagService.Service.FindSimilarLogs | lib/services/rag.service.ts:421-483 | invalid query, limit or threshold is an error; otherwise the rows found become logs, and any failure (embedding, search) gives [] (with lines 100-104) |
| RagService.CollidingTextsShareVector | lib/services/rag.service.ts:228-236 | with the vector of one text cached, a different text with the same key gets that vector back without calling the embedder (with lines 169-173) |
| RagService.CacheKey | lib/services/rag.service.ts:228-236 | "emb_", the 32-bit text hash, "_" and the text's length; `CacheKeysCollide` shows two different texts that share a key |
| RagService.HashStep | lib/services/rag.service.ts:232-233 | `((hash << 5) - hash) + char` wrapped to a signed 32-bit integer; `HashStepSmall` proves it equals `31 * hash + char` while that stays below 2^31 |
| RagService.Backoff | lib/services/rag.service.ts:260 | 1000 ms times 2 to the attempt number; `Schedule` lists these waits in retry order and `RetryWithBackoff` is proved to wait exactly them |
| MentorSearch.Limit | app/api/mentor-matching/search/route.ts:50 | a valid request's limit lies in [1, 10] and defaults to 5 |
| MentorSearch.TakeCount | app/api/mentor-matching/search/route.ts:294 | `slice(0, limit)` takes the whole part of the limit, between 1 and 10 items |
| MentorSearch.MapKnown | app/api/mentor-matching/search/route.ts:65-92 | the corrected goal and genre mapping keeps exactly the values that are known goals or genres |
| MentorSearch.PrototypeKeyPassesGoalLookup | app/api/mentor-matching/search/route.ts:65-77 | as written, a goal named "toString" is answered by the function the object literal inherits, which survives the `undefined` filter in place of a goal; the corrected mapping drops it |
| MentorSearch.MapKnownKeepsKnown | app/api/mentor-matching/search/route.ts:65-92 | known values pass the mapping unchanged and in order |
| MentorSearch.CriteriaToStudentProfile | app/api/mentor-matching/search/route.ts:60-103 | the profile has the user's id, only known goals and genres, skill level "beginner" when absent or empty, no styles or slots, and the price range 0..10000 when absent |
| MentorSearch.UserToMentorProfile | app/api/mentor-matching/search/route.ts:109-141 | name falls back to "Unknown Mentor"; genres are the skills, or ["general"] when there are none; repertoire_expansion is added exactly for guitar or ギター; the fixed level, price and rating |
| MentorSearch.FirstHit | app/api/mentor-matching/search/route.ts:248-253 | the group chosen is the first whose alias occurs in the instrument; none when no group matches |
| MentorSearch.LowerAll | app/api/mentor-matching/search/route.ts:250 | every alias is lower-cased, in order |
| MentorSearch.FindMatchTerms | app/api/mentor-matching/search/route.ts:247-253 | the loop with its break yields the first hit group's lower-cased aliases, else the instrument alone, and never nothing |
| MentorSearch.ElectricGuitarUsesGuitarGroup | app/api/mentor-matching/search/route.ts:239-253 | "エレキギター" matches through the whole guitar group |
| MentorSearch.EmptySkillMatchesEveryInstrument | app/api/mentor-matching/search/route.ts:255-260 | a mentor with an empty skill matches any instrument, since every term contains "" |
| MentorSearch.ResultOf | app/api/mentor-matching/search/route.ts:273-281 | isRecommended exactly at 80 or more and isPerfectMatch exactly at 90 or more |
| MentorSearch.MinMatchScore | app/api/mentor-matching/search/route.ts:288 | the threshold is 30 exactly when a non-empty instrument is given, else 70 |
| MentorSearch.Suggestions | app/api/mentor-matching/search/route.ts:303-319 | one suggestion per top match, in order; only the first is a top pick, and only with a score of 80 or more |
| MentorSearch.Search | app/api/mentor-matching/search/route.ts:198-357 | the handler answers the validation error exactly for an invalid request, and otherwise the empty response for an empty pool or the ranked, filtered top matches |
| MentorSearch.FilterKeepsOrder | app/api/mentor-matching/search/route.ts:284-291 | filtering the sorted matches keeps them sorted |
| MentorSearch.SortedSnoc | app/api/mentor-matching/search/route.ts:284-291 | appending a match scored no higher than the last keeps the order |
| MentorSearch.RankedOrder | app/api/mentor-matching/search/route.ts:283-294 | at most `limit` matches come back, each scored at or above the threshold, from the pool, in descending score |
| MentorSearch.QualifiedOrdered | app/api/mentor-matching/search/route.ts:283-291 | the qualified matches are in descending score and are exactly the pool's matches at or above the threshold |
| MentorSearch.RankedComplete | app/api/mentor-matching/search/route.ts:283-294 | a qualified match left out means the answer is full and every returned match scores at least as high |
| MentorSearch.QualityBounds | app/api/mentor-matching/search/route.ts:321-327 | the search quality of a non-empty answer lies between threshold / 100 and 1 |
| MentorSearch.EmptyPoolAnswersNothing | app/api/mentor-matching/search/route.ts:223-230 | an empty mentor pool gives no mentors, total 0 and quality 0 |
| MentorSearch.SearchQuality | app/api/mentor-matching/search/route.ts:321-327 | the mean top score over 100, or 0 without matches; `QualityBounds` proves it lies between the threshold over 100 and 1 when every top score lies between the threshold and 100 |
| MentorSearch.Candidates | app/api/mentor-matching/search/route.ts:233-266 | the profiles of all mentor users, kept only when one of their skills matches one of the instrument's terms when an instrument is given; `MentorSearch.Search` is proved equal to the response built from it |
| MentorSearch.Ranked | app/api/mentor-matching/search/route.ts:283-294 | the qualified results cut to the requested count; `RankedComplete` and `RankedOrder` prove it keeps the best results in descending score order |
| MentorSearch.Qualified | app/api/mentor-matching/search/route.ts:283-291 | the results sorted by descending score and cut at the threshold; `QualifiedOrdered` proves the order |
| MentorSearch.MatchTerms | app/api/mentor-matching/search/route.ts:247-253 | the first alias group the instrument hits, lower-cased, else the instrument alone; `ElectricGuitarUsesGuitarGroup` and `EmptySkillMatchesEveryInstrument` show its effect, and `FindMatchTerms` is proved equal to it |
| ReviewScreen.TodaySessionsMeaning | apps/muednote-mobile/src/screens/ReviewScreen.tsx:63-67 | today's sessions are exactly the completed sessions started today, each kept once, ordered by start time |
| ReviewScreen.Shift | apps/muednote-mobile/src/screens/ReviewScreen.tsx:85-91 | every log of a session is kept, in order, with its timestamp moved by the running offset |
| ReviewScreen.AudioPathsMeaning | apps/muednote-mobile/src/screens/ReviewScreen.tsx:81-83 | the audio paths collected are exactly those of the sessions that have a recording |
| ReviewScreen.AudioPathsStep | apps/muednote-mobile/src/screens/ReviewScreen.tsx:80-83 | one more session adds its path exactly when it has a recording |
| ReviewScreen.Combine | apps/muednote-mobile/src/screens/ReviewScreen.tsx:76-98 | the loop builds the combined timeline and the audio path list their specifications describe |
| ReviewScreen.LoadAllSessionLogs | apps/muednote-mobile/src/screens/ReviewScreen.tsx:60-107 | the screen holds today's sorted sessions, their combined timeline and their audio paths |
| ReviewScreen.CombinedCount | apps/muednote-mobile/src/screens/ReviewScreen.tsx:80-98 | the combined timeline holds every log of every session |
| ReviewScreen.CombinedLogsAt | apps/muednote-mobile/src/screens/ReviewScreen.tsx:78-98 | log j of session k sits after the logs of the earlier sessions, shifted by the whole seconds the earlier finished sessions lasted |
| ReviewScreen.Payload | apps/muednote-mobile/src/screens/ReviewScreen.tsx:180-198 | the payload's duration is the floor of the seconds from start to end (or now), its end is the end or now, the memo is the edited one only for the current session, and the logs are the session's own, with their own timestamps, or none |
| ReviewScreen.SentLogsAreUnshifted | apps/muednote-mobile/src/screens/ReviewScreen.tsx:184-188 | the logs sent for a session are the ones the timeline shows moved later by the lengths of the sessions before it |
| ReviewScreen.HandleSync | apps/muednote-mobile/src/screens/ReviewScreen.tsx:173-234 | sessions are sent in order; the first failure stops the loop with the earlier ones marked synced; otherwise every session is sent and marked; the total counts the saved logs of the synced sessions |
| ReviewScreen.MemoOnlyForCurrent | apps/muednote-mobile/src/screens/ReviewScreen.tsx:196 | with distinct ids only the latest session is sent with the edited memo |
| ReviewScreen.ClosedPayloadMatchesOffset | apps/muednote-mobile/src/screens/ReviewScreen.tsx:93-97 | a finished session is sent with the same whole seconds the timeline offsets by (with lines 180-183) |
| ReviewScreen.FormatDuration | apps/muednote-mobile/src/screens/ReviewScreen.tsx:310-320 | the loop gives "0m" for no sessions and otherwise the floor of the summed minutes, open sessions counted up to now |
| ReviewScreen.TotalMsGrowsWithNow | apps/muednote-mobile/src/screens/ReviewScreen.tsx:310-320 | the total never shrinks as the clock advances, and does not move when every session is finished |
| ReviewScreen.ClosedTotalCoversOffsets | apps/muednote-mobile/src/screens/ReviewScreen.tsx:310-320 | for finished sessions the total is within one second per session of the summed whole-second offsets (with lines 93-97) |
| ReviewScreen.CombinedLogs | apps/muednote-mobile/src/screens/ReviewScreen.tsx:76-98 | every session's logs in turn, each moved later by the sessions before it; `CombinedLogsAt` proves log `j` of session `k` lands after all earlier sessions' logs, moved by their length, and `CombinedCount` that nothing else is added |
| ReviewScreen.TodaySessions | apps/muednote-mobile/src/screens/ReviewScreen.tsx:63-67 | the completed sessions started today, earliest first; `TodaySessionsMeaning` proves membership and order |
| ReviewScreen.AudioPaths | apps/muednote-mobile/src/screens/ReviewScreen.tsx:81-83 | the audio paths of the sessions that have one, in order; `AudioPathsMeaning` states membership both ways |
| ReviewScreen.DurationLabel | apps/muednote-mobile/src/screens/ReviewScreen.tsx:310-320 | "0m" with no sessions, else the whole minutes of all sessions followed by "m"; `FormatDuration` is proved equal to it |
| Common.ClockTextSplits | apps/muednote-mobile/src/screens/ReviewScreen.tsx:304-308 | a non-negative seconds count renders as its minutes, ":" and the remaining seconds padded to two digits |
| Common.ClockTextNegative | apps/muednote-mobile/src/screens/HistoryScreen.tsx:354-358 | a negative count renders with floor minutes and a negative remainder: -5 seconds is "-1:-5" |
| Common.ClockText | apps/muednote-mobile/src/screens/ReviewScreen.tsx:304-308 | a count of seconds as minutes, a colon and the two-digit seconds; `ClockTextSplits` proves a non-negative count reads as its whole minutes and two-digit remaining seconds, and `ClockTextNegative` shows a negative count reading "-1:-5" |
| HistoryScreen.LexLeqTotal | apps/muednote-mobile/src/screens/HistoryScreen.tsx:87 | any two day keys are comparable |
| HistoryScreen.InsertDesc | apps/muednote-mobile/src/screens/HistoryScreen.tsx:87 | inserting a key adds exactly that key |
| HistoryScreen.InsertDescSorted | apps/muednote-mobile/src/screens/HistoryScreen.tsx:87 | inserting into newest-first keys keeps them newest first |
| HistoryScreen.SnocDesc | apps/muednote-mobile/src/screens/HistoryScreen.tsx:87 | appending a key no later than the last keeps the keys newest first |
| HistoryScreen.SortDesc | apps/muednote-mobile/src/screens/HistoryScreen.tsx:87 | sorting the keys is a permutation of them |
| HistoryScreen.SortDescSorted | apps/muednote-mobile/src/screens/HistoryScreen.tsx:87 | the sorted keys are newest first |
| HistoryScreen.NoDuplicatesPermutation | apps/muednote-mobile/src/screens/HistoryScreen.tsx:87 | sorting the map's distinct keys leaves them distinct |
| HistoryScreen.Members | apps/muednote-mobile/src/screens/HistoryScreen.tsx:78-84 | a day's list holds exactly the sessions with that day key |
| HistoryScreen.MembersAppend | apps/muednote-mobile/src/screens/HistoryScreen.tsx:78-84 | a day's sessions keep their input order: the list of a concatenation is the lists of its parts, one after the other |
| HistoryScreen.KeyOrder | apps/muednote-mobile/src/screens/HistoryScreen.tsx:78-84 | the map's keys, in first-seen order, are distinct |
| HistoryScreen.KeyOrderMembers | apps/muednote-mobile/src/screens/HistoryScreen.tsx:78-84 | a key is in the map exactly when some session falls on that day |
| HistoryScreen.GroupOf | apps/muednote-mobile/src/screens/HistoryScreen.tsx:89-98 | a group's total duration is the sum of its sessions' durations, its count is their number, and it is expanded exactly when its key is in the expanded set |
| HistoryScreen.GroupByKey | apps/muednote-mobile/src/screens/HistoryScreen.tsx:76-84 | the forEach fills the map with each day's sessions in input order, keys in first-seen order |
| HistoryScreen.DateGroups | apps/muednote-mobile/src/screens/HistoryScreen.tsx:75-101 | one group per day some session falls on, newest day first, each day once, each holding that day's sessions with its total, count and expanded flag |
| HistoryScreen.DayKeys | apps/muednote-mobile/src/screens/HistoryScreen.tsx:76-87 | the sorted keys are newest first, distinct, and exactly the days some session falls on |
| HistoryScreen.SessionInItsGroupOnly | apps/muednote-mobile/src/screens/HistoryScreen.tsx:78-98 | every session lands in the group of its day and in no other |
| HistoryScreen.ToggleDateGroup | apps/muednote-mobile/src/screens/HistoryScreen.tsx:135-146 | the key's membership flips and no other key changes |
| HistoryScreen.ToggleDateGroupTwice | apps/muednote-mobile/src/screens/HistoryScreen.tsx:135-146 | toggling a day twice restores the expanded set |
| HistoryScreen.ToggleSession | apps/muednote-mobile/src/screens/HistoryScreen.tsx:149-164 | only sessions with the id flip their expanded flag, and a log load starts exactly when one of them is being expanded without logs |
| HistoryScreen.ToggleSessionTwice | apps/muednote-mobile/src/screens/HistoryScreen.tsx:149-164 | toggling a session twice restores the list |
| NotificationService.RoundedMinutes | lib/services/notification.service.ts:92-93 | the minutes are the lesson length rounded to the nearest minute, half a minute rounding up |
| NotificationService.DurationText | lib/services/notification.service.ts:94-99 | under an hour the text is the minutes followed by 分 |
| NotificationService.DurationSplits | lib/services/notification.service.ts:94-99 | from an hour up the text is hours 時間 followed by the remaining minutes 分, which are dropped exactly when they are zero |
| NotificationService.DurationExamples | lib/services/notification.service.ts:92-100 | 90 minutes read "1時間30分", 120 read "2時間", 45 read "45分" |
| NotificationService.DisplayName | lib/services/notification.service.ts:139-140 | the user's name, or the email when the name is empty |
| NotificationService.Failures | lib/services/notification.service.ts:161-166 | one failure line per failed send, the student's first |
| NotificationService.OnReservationConfirmed | lib/services/notification.service.ts:115-190 | an exception gives failure with its message; a missing user gives "User not found" and sends nothing; otherwise the email carries both display names, the duration text, the id and the dashboard link, and the outcome succeeds exactly when both sends succeed, with the failure lines only on failure |
| NotificationService.CalculateDuration | lib/services/notification.service.ts:92-100 | the rounded minutes between start and end as "N分" under an hour, else "H時間" followed by "M分" when minutes remain; `DurationExamples` pins the three shapes |
| InterviewerService.ParseFocus | lib/services/interviewer.service.ts:29-37 | a string parses to the focus area of that name, and to none exactly when no focus area has it |
| InterviewerService.ParseDepth | lib/services/interviewer.service.ts:42 | a string parses to the depth of that name, and to none exactly when no depth has it |
| InterviewerService.ValidateInput | lib/services/interviewer.service.ts:47-53 | input is accepted exactly when the session id is a UUID, the focus area is known and both texts are non-empty; previous questions default to [] (with line 247) |
| InterviewerService.DefaultQuestions | lib/services/interviewer.service.ts:134-233 | each focus area has two distinct non-empty default questions of that area, shallow then medium, numbered 0 and 1 |
| InterviewerService.TranslateFocusArea | lib/services/interviewer.service.ts:533-544 | every focus area has a non-empty Japanese name |
| InterviewerService.TranslationInjective | lib/services/interviewer.service.ts:533-544 | different focus areas have different Japanese names |
| InterviewerService.FromAi | lib/services/interviewer.service.ts:334-339 | one question per AI item, numbered by position, with "" text, the requested focus and "medium" depth standing in for missing fields |
| InterviewerService.Normalize | lib/services/interviewer.service.ts:392-418 | an unknown focus becomes the expected one, an unknown depth becomes medium, and the text is trimmed |
| InterviewerService.ValidateAndNormalize | lib/services/interviewer.service.ts:368-419 | as many questions come out as had text after trimming, numbered 0, 1, ..., each with trimmed non-empty text |
| InterviewerService.NormalizeAppend | lib/services/interviewer.service.ts:383-418 | a further question adds its normalized form, numbered after the survivors, exactly when it has text |
| InterviewerService.NormalizeKeepsTexted | lib/services/interviewer.service.ts:383-391 | questions that all have text all survive; questions that all lack it all vanish |
| InterviewerService.CountAll | lib/services/interviewer.service.ts:383-391 | when every question has text, all of them are counted |
| InterviewerService.CountNone | lib/services/interviewer.service.ts:383-391 | when no question has text, none is counted |
| InterviewerService.GetQuestionTemplates | lib/services/interviewer.service.ts:424-460 | at most `limit` questions, all of the focus area, numbered in order |
| InterviewerService.RankedMeaning | lib/services/interviewer.service.ts:434-444 | the candidate templates are exactly the enabled ones of the focus area, highest priority first |
| InterviewerService.TemplatesByPriority | lib/services/interviewer.service.ts:434-444 | the chosen templates are enabled ones of the area, and an eligible template left out means the answer is full and it has no higher priority than any chosen |
| InterviewerService.FallbackChain | lib/services/interviewer.service.ts:483-528 | stored templates answer with confidence 0.5 when there are any, and the defaults answer with 0.3 otherwise |
| InterviewerService.GenerateQuestions | lib/services/interviewer.service.ts:243-288 | invalid input is an error; the AI's questions are used, with confidence 0.85, exactly when two or three survive normalization; otherwise the fallback chain answers |
| InterviewerService.AnswerSize | lib/services/interviewer.service.ts:243-288 | AI and default answers hold two or three questions, template answers one to three, always numbered from 0 (with lines 483-519) |
| InterviewerService.SingleTemplateAnswersOne | lib/services/interviewer.service.ts:489-497 | a single stored template yields a one-question answer, below the two the output schema states (with line 69) |
| InterviewerService.Numbered | lib/services/interviewer.service.ts:354-356 | previous question i is listed as "i+1. question" |
| InterviewerService.BuildUserPrompt | lib/services/interviewer.service.ts:345-363 | the prompt is the note, the analysis, the numbered previous questions only when there are some, and the request naming the focus area, in that order |
| InterviewerService.SinglePreviousLine | lib/services/interviewer.service.ts:352-358 | one previous question is listed as "1. question" |
| InterviewerService.Placeholder | lib/services/interviewer.service.ts:473 | a placeholder is the key in braces |
| InterviewerService.SubstituteVariables | lib/services/interviewer.service.ts:466-478 | the loop replaces every occurrence of each variable's placeholder, the variables in order |
| InterviewerService.SubstituteNoPlaceholders | lib/services/interviewer.service.ts:466-478 | a template without braces is left unchanged |
| InterviewerService.SubstituteOne | lib/services/interviewer.service.ts:464-478 | a placeholder between brace-free text becomes the value with its "$" patterns expanded, and exactly the value when the value has no "$" |
| InterviewerService.SubstituteMatchedKeepsTemplate | lib/services/interviewer.service.ts:474 | a variable whose value is "$&" writes every matched placeholder back, so the template is unchanged |
| AiMaterialService.ParseFormat | lib/services/ai-material.service.ts:45 | a string parses to the format of that name, and to none exactly when no format has it |
| AiMaterialService.ParseDifficulty | lib/services/ai-material.service.ts:44 | a string parses to the difficulty of that name, and to none exactly when none has it |
| AiMaterialService.ParseInstrument | lib/services/ai-material.service.ts:47 | a string parses to the instrument of that name, and to none exactly when none has it |
| AiMaterialService.Validate | lib/services/ai-material.service.ts:40-49 | a request is accepted exactly when subject has 1..100 characters, topic 1..200, difficulty and format are known and any instrument is known; userId and the other fields carry over, an instrument is present exactly when the request names one and then is the one named, and isPublic defaults to false (with line 524) |
| AiMaterialService.GetPromptTemplate | lib/services/ai-material.service.ts:402-417 | a known format gets its template and any other is the error "Unknown material format: …" |
| AiMaterialService.FillStep | lib/services/ai-material.service.ts:422-426 | a placeholder preceded by brace-free text is the one `replace` fills, with the value's "$" patterns expanded, and with the value itself when it has no "$" |
| AiMaterialService.HeadFill | lib/services/ai-material.service.ts:422-423 | the subject and topic steps put the subject and the topic exactly where their placeholders were, for a brace-free subject and values without "$" |
| AiMaterialService.MusicDetailsFill | lib/services/ai-material.service.ts:424-426 | in the music template the difficulty, instrument and context steps put their values exactly where their placeholders were, for values without "{" or "$" |
| AiMaterialService.PlainDetailsFill | lib/services/ai-material.service.ts:424-426 | in the other templates the instrument step finds nothing and the difficulty and context steps put their values exactly where their placeholders were, for values without "{" or "$" |
| AiMaterialService.SubstituteFills | lib/services/ai-material.service.ts:419-427 | with values free of "{" and "$" the five replacements give the template with every placeholder filled by its value |
| AiMaterialService.PromptFillsDetails | lib/services/ai-material.service.ts:419-427 | for a request whose text has no "{" or "$", `buildPrompt` fills the request's template with its subject, topic and difficulty, the instrument or "piano" and the context or "None" |
| AiMaterialService.SubjectNamingTopicTakesIt | lib/services/ai-material.service.ts:422-423 | a subject that spells "{topic}" receives the topic, and the template's own topic placeholder stays unfilled |
| AiMaterialService.ValuesOfPlain | lib/services/ai-material.service.ts:419-427 | the difficulty and instrument names and the "None" context never hold "{" or "$", so a request with plain text gives plain values |
| AiMaterialService.DollarsInSubjectCollapse | lib/services/ai-material.service.ts:422 | a subject holding "$$" reaches the prompt with a single "$" in its place, because `replace` expands it |
| AiMaterialService.MatchedSubjectRestoresHole | lib/services/ai-material.service.ts:422 | a subject of "$&" writes the matched "{subject}" back, so the subject step leaves the template unchanged |
| AiMaterialService.CheckMaterialQuota | lib/services/ai-material.service.ts:432-481 | no subscription is refused (0 of 3, "freemium"); basic and premium are unlimited (-1); any other tier has max(0, 3 - used) left and is allowed exactly when some is left |
| AiMaterialService.QuotaAllowsIff | lib/services/ai-material.service.ts:432-481 | generation is allowed exactly with a basic or premium subscription or another with fewer than 3 used |
| AiMaterialService.QuotaStricterThanTable | lib/services/ai-material.service.ts:457-476 | an active freemium subscriber with 3 or 4 used is refused here though within the subscription table's limit of 5 |
| AiMaterialService.Saved | lib/services/ai-material.service.ts:591-656 | the saved row is titled "<subject>: <topic>", described as "<format> for <difficulty> level", has the request's format, difficulty and visibility; its status is "approved" unless a music request came back as music, when the quality gate decides; the usage count goes up by one when there is a subscription |
| AiMaterialService.GenerateMaterial | lib/services/ai-material.service.ts:508-672 | the failures in the source's order (invalid request, unknown user, limit reached with its quota, no content, unparsable reply, invalid ABC), each exactly under its condition (an empty validator message does not reject the ABC); the material is saved exactly when none of them applies |
| AiMaterialService.BuildPrompt | lib/services/ai-material.service.ts:419-427 | the format's template with each placeholder replaced once, in the source's order; `PromptFillsDetails` proves what the filled prompt contains |
| AiTools.AiMaterialsLimit | lib/ai/tools.ts:433-445 | basic and premium are unlimited (-1) and every other tier, known or not, has 3 |
| AiTools.ReservationsLimit | lib/ai/tools.ts:447-460 | premium is unlimited (-1), basic has 5, every other tier 1 |
| AiTools.LimitTablesDisagree | lib/ai/tools.ts:433-460 | the tool's limits differ from the subscription table's (starter 3 vs 20 materials and 1 vs 5 reservations, basic unlimited vs 50) while agreeing on which tiers have unlimited reservations |
| AiTools.ExecuteGetSubscriptionStatus | lib/ai/tools.ts:339-345 | the call fails with the "Invalid uuid" issue exactly when the user id is not a UUID, before any row is read; otherwise it gives the report below |
| AiTools.GetSubscriptionStatus | lib/ai/tools.ts:346-380 | once the user id is valid: without a subscription the report is freemium, active, 0 of 3 materials and 0 of 1 reservation; otherwise the latest subscription's tier, status and usage |
| AiTools.StatusReportLimits | lib/ai/tools.ts:368-378 | a subscription's reported limits are the tool's limits for its tier, the same as the no-subscription ones unless basic or premium |
| AiTools.ExecuteSearchAvailableSlots | lib/ai/tools.ts:207-244 | the call fails with the "Invalid uuid" issue exactly when a mentor id is given that is not a UUID; otherwise it gives the search below, at most 20 slots |
| AiTools.SearchAvailableSlots | lib/ai/tools.ts:207-244 | at most 20 slots come back |
| AiTools.SortedMatchesMeaning | lib/ai/tools.ts:215-229 | the candidates are exactly the open slots starting in [start, end), of the mentor when one is named, earliest first |
| AiTools.SearchFindsMatches | lib/ai/tools.ts:207-244 | every slot returned is an open slot in the range (of the mentor when named), earliest first |
| AiTools.SearchDropsOnlyLater | lib/ai/tools.ts:225-229 | a matching slot is left out only when 20 slots starting no later than it were returned |
| AiTools.ToolStore.CreateReservation | lib/ai/tools.ts:250-300 | the call fails with the "Invalid uuid" issue exactly when the slot id or the user id is not a UUID, changing nothing; with valid ids an open slot is booked: one pending reservation at its price for its mentor is added and only that slot becomes booked; otherwise "Slot not found or already booked" and nothing changes |
| AiTools.BookingTwiceRefused | lib/ai/tools.ts:255-290 | once booked, a slot is no longer open, so a second booking is refused; other slots are untouched |
| AiTools.NewReservationCarriesSlot | lib/ai/tools.ts:269-281 | the reservation is pending, for the slot and the student, with the slot's mentor and price |
| AiTools.Dispatch | lib/ai/tools.ts:412-428 | a known name reaches the tool of that name; any other is the error "Unknown tool: name" |
| AiTools.DispatchByName | lib/ai/tools.ts:402-428 | every tool is reached by its own name, and a name fails exactly when no tool has it |
| SubscriptionsRepository.TierLimits | lib/repositories/subscriptions.repository.ts:23-31 | premium, and only premium, is unlimited (-1) on both counters; every other tier has positive limits |
| SubscriptionsRepository.TierLimitsGrow | lib/repositories/subscriptions.repository.ts:23-31 | freemium < starter < basic for both the materials limit (5, 20, 50) and the reservations limit (1, 5, 15) |
| SubscriptionsRepository.TierSafely | lib/repositories/subscriptions.repository.ts:36-48 | the tier read from a stored value is freemium unless the value is exactly one of the four tier names, in which case it is that tier |
| SubscriptionsRepository.TierSafelyReadsNames | lib/repositories/subscriptions.repository.ts:36-48 | every tier's name reads back as that tier, and a missing or unknown value reads as freemium |
| SubscriptionsRepository.NewSubscription | lib/repositories/subscriptions.repository.ts:103-119 | a created row carries the user, the given tier or freemium, the given status or active, zero usage and no pending cancellation |
| SubscriptionsRepository.CancelThenReactivate | lib/repositories/subscriptions.repository.ts:447-465 | cancelling at the period's end only sets the flag, cancelling at once only sets the status to cancelled, and reactivating after either leaves the row active with the flag cleared and everything else as before |
| SubscriptionsRepository.LatestIndex | lib/repositories/subscriptions.repository.ts:137-166 | the lookup finds nothing exactly when no row is the user's (and active, for the active lookup); otherwise it finds the last such row |
| SubscriptionsRepository.Latest | lib/repositories/subscriptions.repository.ts:137-166 | `findByUserId` and `findActiveByUserId` return the row at the lookup's index, or null |
| SubscriptionsRepository.UpdatedRows | lib/repositories/subscriptions.repository.ts:234-246 | an update keeps the number of rows and changes exactly the rows with the given id, each by the given fields |
| SubscriptionsRepository.IndexOfId | lib/repositories/subscriptions.repository.ts:124-133 | the first row with the id, or none when no row has it |
| SubscriptionsRepository.LatestAfterUpdate | lib/repositories/subscriptions.repository.ts:234-246 | an update that leaves the status alone changes what a user's lookup finds only by updating the row found |
| SubscriptionsRepository.CanUseAiMaterials | lib/repositories/subscriptions.repository.ts:350-366 | no active subscription means no, a premium one always yes |
| SubscriptionsRepository.CanMakeReservation | lib/repositories/subscriptions.repository.ts:371-387 | no active subscription means no, a premium one always yes |
| SubscriptionsRepository.GetUsageLimits | lib/repositories/subscriptions.repository.ts:392-419 | without an active subscription the report is freemium with 0 of 5 materials and 0 of 1 reservation; otherwise the row's tier read safely, its usage counters, and that tier's material and reservation limits |
| SubscriptionsRepository.ChecksAgreeWithUsage | lib/repositories/subscriptions.repository.ts:350-419 | each permission check says yes exactly when there is an active subscription and the reported usage is under the reported limit or the limit is unlimited; the no-subscription report is under its limits yet both checks refuse |
| SubscriptionsRepository.UnknownTierGetsFreemiumLimits | lib/repositories/subscriptions.repository.ts:350-419 | a row whose stored tier is not a known name gets the freemium limits, and may use materials exactly while under 5 |
| SubscriptionsRepository.SubscriptionRepository.Create | lib/repositories/subscriptions.repository.ts:103-119 | the new row is appended to the table and returned |
| SubscriptionsRepository.SubscriptionRepository.Update | lib/repositories/subscriptions.repository.ts:234-246 | the table becomes the updated rows, and the result is the updated row with that id or null |
| SubscriptionsRepository.SubscriptionRepository.Cancel | lib/repositories/subscriptions.repository.ts:447-453 | an update with the flag set (at the period's end) or the status cancelled (at once) |
| SubscriptionsRepository.SubscriptionRepository.Reactivate | lib/repositories/subscriptions.repository.ts:458-463 | an update that sets the status active and clears the flag |
| SubscriptionsRepository.SubscriptionRepository.UpsertByUserId | lib/repositories/subscriptions.repository.ts:426-442 | when the user has a row, the latest one is updated with the input's fields; otherwise a new row is appended |
| SubscriptionsRepository.CancelAtPeriodEndKeepsAccess | lib/repositories/subscriptions.repository.ts:447-453 | cancelling at the period's end leaves the user's active subscription, and both permission checks, as they were |
| SubscriptionsRepository.CancelNowEndsAccess | lib/repositories/subscriptions.repository.ts:447-453 | after cancelling a row at once, the active lookup never finds that row |
| SubscriptionsRepository.UpsertIsFound | lib/repositories/subscriptions.repository.ts:426-442 | after an upsert, the user's lookup finds exactly the row written |
| SubscriptionsRepository.SubscriptionRepository.FindByUserId | lib/repositories/subscriptions.repository.ts:137-146 | nothing exactly when the user has no row; otherwise a row of that user that no later row of theirs follows |
| SubscriptionsRepository.SubscriptionRepository.FindActiveByUserId | lib/repositories/subscriptions.repository.ts:151-165 | nothing exactly when the user has no active row; otherwise an active row of that user that no later active row of theirs follows |
| SessionsRepository.NewSession | lib/repositories/sessions.repository.ts:120-138 | a new session is a draft with no completion time, public only when asked to be, shared with the mentor unless asked not to be, and carries the input's user and title |
| SessionsRepository.CompleteChangesOnlyStatus | lib/repositories/sessions.repository.ts:226-231 | completing a session changes its status to completed and its completion time to now, and nothing else |
| SessionsRepository.NewQuestion | lib/repositories/sessions.repository.ts:333-342 | a question's order is the given one or else its batch index, its author the given one or else "ai" |
| SessionsRepository.QuestionRows | lib/repositories/sessions.repository.ts:327-347 | one row per input, in the batch's order, each the question built from that input at that index |
| SessionsRepository.BatchOrderDefaultsToIndex | lib/repositories/sessions.repository.ts:333-342 | in a batch that gives no orders, the questions' orders are 0, 1, 2, … and so ascending |
| SessionsRepository.LastAnswerIndex | lib/repositories/sessions.repository.ts:448-455 | no index exactly when no answer is for the question; otherwise the last answer for it |
| SessionsRepository.AnswerMapLastWins | lib/repositories/sessions.repository.ts:448-450 | the map from question to answer has an entry for a question exactly when some answer names it, and the entry is the last such answer |
| SessionsRepository.QAPairs | lib/repositories/sessions.repository.ts:444-456 | exactly one pair per question, in the questions' order |
| SessionsRepository.QAPairsMeaning | lib/repositories/sessions.repository.ts:448-455 | a pair has no answer exactly when no answer names its question; otherwise its answer is the last one that does |
| SessionsRepository.SessionAnswers | lib/repositories/sessions.repository.ts:386-391 | the fetched answers are exactly the session's |
| SessionsRepository.SessionQuestionsMeaning | lib/repositories/sessions.repository.ts:316-322 | the fetched questions are exactly the session's, in ascending order |
| SessionsRepository.FirstAnalysis | lib/repositories/sessions.repository.ts:257-265 | the analysis found is one of the session's, and there is none exactly when the session has none |
| SessionsRepository.SessionRepository.CreateSession | lib/repositories/sessions.repository.ts:120-138 | the new session is stored under its id and returned; the other tables are unchanged |
| SessionsRepository.SessionRepository.UpdateSession | lib/repositories/sessions.repository.ts:198-209 | a known session is replaced by its update and returned; an unknown one gives undefined and changes nothing |
| SessionsRepository.SessionRepository.CompleteSession | lib/repositories/sessions.repository.ts:226-231 | a known session becomes completed at the given time; an unknown one gives undefined and changes nothing |
| SessionsRepository.SessionRepository.CreateSessionQuestions | lib/repositories/sessions.repository.ts:327-347 | the batch's rows are appended and returned; an empty batch returns [] and writes nothing |
| SessionsRepository.SessionRepository.CreateInterviewAnswer | lib/repositories/sessions.repository.ts:356-368 | the answer is appended; the other tables are unchanged |
| SessionsRepository.SessionRepository.GetCompleteSession | lib/repositories/sessions.repository.ts:421-440 | null exactly when the session is missing; otherwise the session with its first analysis, its questions in order and its answers |
| SessionsRepository.SessionRepository.GetSessionQAPairs | lib/repositories/sessions.repository.ts:444-456 | one pair per question of the session, in the order the questions are fetched |
| SessionsRepository.ApplyUpdate | lib/repositories/sessions.repository.ts:198-209 | the session with each field the update gives replaced and every other field kept; `CompleteChangesOnlyStatus` and `SessionsRepository.SessionStore.UpdateSession` state its effect |
| SessionsRepository.SessionQuestions | lib/repositories/sessions.repository.ts:316-322 | the session's questions in ascending order; `SessionQuestionsMeaning` proves it is exactly those questions, ordered |
| AbcAnalyzer.Intervals | lib/abc-analyzer.ts:231-239 | one interval per consecutive pair of notes, the absolute pitch distance between them; none for fewer than two notes |
| AbcAnalyzer.CalculateLeaps | lib/abc-analyzer.ts:231-242 | the leaps are exactly the non-zero intervals, in order |
| AbcAnalyzer.RepeatedPitchHasNoLeaps | lib/abc-analyzer.ts:231-242 | a melody that never changes pitch has no leaps |
| AbcAnalyzer.ChromaticDensity | lib/abc-analyzer.ts:248-260 | the density lies in [0, 1] and is 0 for fewer than two notes |
| AbcAnalyzer.CalculateChromaticDensity | lib/abc-analyzer.ts:248-260 | the loop's count of semitone steps over the number of intervals is the density |
| AbcAnalyzer.ChromaticDensityOneIff | lib/abc-analyzer.ts:248-260 | the density is 1 exactly when every step is a semitone |
| AbcAnalyzer.ChromaticDensityZeroIff | lib/abc-analyzer.ts:248-260 | the density is 0 exactly when no step is a semitone |
| AbcAnalyzer.SemitoneCountZeroIff | lib/abc-analyzer.ts:252-257 | no semitone is counted exactly when no step is one |
| AbcAnalyzer.Windows | lib/abc-analyzer.ts:269-279 | the four-note windows start at every position where four notes remain, and none exist for fewer than four notes |
| AbcAnalyzer.RepetitionOf | lib/abc-analyzer.ts:265-292 | the repetition ratio is never negative |
| AbcAnalyzer.TallyStep | lib/abc-analyzer.ts:276-279 | counting one more window keeps the map equal to each window's number of occurrences, and keeps the insertion order of first occurrences |
| AbcAnalyzer.TallyWindowStep | lib/abc-analyzer.ts:276-279 | the loop's step over the window at position i extends the tally of the windows before it |
| AbcAnalyzer.TallyWindows | lib/abc-analyzer.ts:273-279 | the map counts every window's occurrences and the order lists each distinct window once, first occurrence first |
| AbcAnalyzer.TotalRepeated | lib/abc-analyzer.ts:282-288 | the number of windows seen at least twice, and the sum of their counts |
| AbcAnalyzer.AnalyzeRepetition | lib/abc-analyzer.ts:265-292 | the loop and the filter compute the repetition of the notes |
| AbcAnalyzer.RepeatedCountOfTally | lib/abc-analyzer.ts:282-286 | the filtered entries are as many as the distinct windows occurring at least twice |
| AbcAnalyzer.RepeatedTotalOfTally | lib/abc-analyzer.ts:287-289 | the reduce over the filtered entries totals the occurrences of repeated windows |
| AbcAnalyzer.RepeatedOccurrencesZeroIff | lib/abc-analyzer.ts:282-289 | the repeated occurrences total 0 exactly when no window repeats |
| AbcAnalyzer.NoRepetitionIffZeroRatio | lib/abc-analyzer.ts:265-292 | the sequence count is 0 exactly when the repetition ratio is 0 |
| AbcAnalyzer.RepetitionRatioCanExceedOne | lib/abc-analyzer.ts:287-289 | five equal notes give two equal windows and a ratio of 2, so the ratio is not bounded by 1 |
| AbcAnalyzer.DigitRun | lib/abc-analyzer.ts:298-306 | the run of digits starting at a position, maximal, as `\d+` matches |
| AbcAnalyzer.SkipWhitespace | lib/abc-analyzer.ts:298-306 | the run of whitespace starting at a position, maximal, as `\s*` matches |
| AbcAnalyzer.FirstMatch | lib/abc-analyzer.ts:298-306 | the match at the leftmost position where the pattern matches, or none when it matches nowhere |
| AbcAnalyzer.ExtractTempo | lib/abc-analyzer.ts:297-310 | the tempo of the first "Q: a/b=n" if any, else of the first "Q: n", else 120 |
| AbcAnalyzer.TempoDefault | lib/abc-analyzer.ts:297-310 | a tune without "Q:" has tempo 120 |
| AbcAnalyzer.DifficultyPoints | lib/abc-analyzer.ts:321-337 | the four banded measures add up to between 0 and 8 points |
| AbcAnalyzer.EstimateDifficulty | lib/abc-analyzer.ts:315-342 | the level is advanced from 6 points, intermediate from 3, else beginner |
| AbcAnalyzer.DifficultyMonotone | lib/abc-analyzer.ts:315-342 | a piece at least as wide, leaping, dense and fast as another is never rated easier |
| AbcAnalyzer.PlayabilityRaw | lib/abc-analyzer.ts:354-389 | 10 less the penalties lies in [1, 10] |
| AbcAnalyzer.CalculatePlayabilityScore | lib/abc-analyzer.ts:347-392 | the sequence of deductions and the clamp give the score of the coefficient-adjusted leap and tempo, within [1, 10] |
| AbcAnalyzer.PlayabilityClampNeverBites | lib/abc-analyzer.ts:354-391 | the penalties total at most 9, so the clamp to [0, 10] never changes the score |
| AbcAnalyzer.PlayabilityOutOfRangeCostsThree | lib/abc-analyzer.ts:357-359 | a melody outside the comfortable range scores exactly 3 less than the same melody inside it |
| AbcAnalyzer.CalculateLearningValueScore | lib/abc-analyzer.ts:397-439 | the playability plus the bonuses and less the penalties for repetition, sequence count, density and level, clamped to [0, 10] |
| AbcAnalyzer.LearningValueMonotoneInPlayability | lib/abc-analyzer.ts:397-439 | a more playable melody never has a lower learning value, other things equal |
| AbcAnalyzer.SeqMin | lib/abc-analyzer.ts:81 | `Math.min(...notes)`: an element no greater than any other |
| AbcAnalyzer.SeqMax | lib/abc-analyzer.ts:82 | `Math.max(...notes)`: an element no smaller than any other |
| AbcAnalyzer.RangeComfortableIffAllNotesInside | lib/abc-analyzer.ts:220-226 | the range check on the extremes holds exactly when every note lies in the comfortable range |
| AbcAnalyzer.AnalyzeAbc | lib/abc-analyzer.ts:54-154 | null exactly when the parse fails or finds no notes; otherwise the note count, the bar count or 1, the number of distinct pitches, the extremes and span, the range check, the wide-leap count and mean of the leaps (0 without leaps), a largest leap that bounds every interval and is one of them (or 0), notes per measure, density, repetition, tempo, level, playability and learning value, each as defined above |
| AbcAnalyzer.PassesQualityGate | lib/abc-analyzer.ts:444-449 | a piece passes exactly when its learning value reaches the threshold |
| AbcAnalyzer.QualityGateMonotone | lib/abc-analyzer.ts:444-449 | passing a threshold means passing every lower one, and nothing passes a threshold above 10 |
| LessonSlotsRepository.NewSlot | lib/repositories/lesson-slots.repository.ts:79-97 | a created slot has the given capacity or else 1, no places taken, status available, and the input's mentor and times |
| LessonSlotsRepository.BlocksSymmetric | lib/repositories/lesson-slots.repository.ts:306-312 | between two live slots the overlap test of `hasConflict` is symmetric |
| LessonSlotsRepository.StepsMeaning | lib/repositories/lesson-slots.repository.ts:371-394 | the loop visits day k exactly when startDate moved on by k days is not after endDate |
| LessonSlotsRepository.GenerateRecurringSlots | lib/repositories/lesson-slots.repository.ts:360-397 | the while-loop over the days yields the pattern's slots of the visited days |
| LessonSlotsRepository.GeneratedMembers | lib/repositories/lesson-slots.repository.ts:371-394 | every generated slot is the slot of a visited day whose weekday is in the pattern, and every such day yields its slot |
| LessonSlotsRepository.GeneratedCarryPattern | lib/repositories/lesson-slots.repository.ts:381-390 | every generated slot copies the pattern's mentor, price, capacity, tags and metadata, and carries the one series id |
| LessonSlotsRepository.DayStartShift | lib/repositories/lesson-slots.repository.ts:393 | moving on by whole days moves the start of the day by the same amount |
| LessonSlotsRepository.StepTimes | lib/repositories/lesson-slots.repository.ts:368-379 | the slot of day k starts and ends at the pattern's hours and minutes on that day |
| LessonSlotsRepository.GeneratedAscending | lib/repositories/lesson-slots.repository.ts:371-394 | the generated slots come in strictly ascending order of start |
| LessonSlotsRepository.StepsDisjoint | lib/repositories/lesson-slots.repository.ts:368-379 | with both times inside a day and the start first, a slot of an earlier day ends before one of a later day starts |
| LessonSlotsRepository.GeneratedPairwiseDisjoint | lib/repositories/lesson-slots.repository.ts:360-397 | no two generated slots overlap |
| LessonSlotsRepository.AscendingApart | lib/repositories/lesson-slots.repository.ts:371-394 | in an ascending series every earlier slot starts before every later one |
| LessonSlotsRepository.Rows | lib/repositories/lesson-slots.repository.ts:102-124 | the inserted rows are keyed by exactly the new ids |
| LessonSlotsRepository.RowsContent | lib/repositories/lesson-slots.repository.ts:102-124 | each new id holds the slot created from its input |
| LessonSlotsRepository.SlotRepository.Create | lib/repositories/lesson-slots.repository.ts:79-97 | the created slot is stored under its id and returned |
| LessonSlotsRepository.SlotRepository.CreateMany | lib/repositories/lesson-slots.repository.ts:102-124 | one created slot per input, in order, all stored; an empty batch creates nothing |
| LessonSlotsRepository.SlotRepository.CreateRecurring | lib/repositories/lesson-slots.repository.ts:402-421 | refused, with nothing inserted, exactly when some generated slot conflicts with a stored one; otherwise every generated slot is inserted |
| LessonSlotsRepository.SlotRepository.Delete | lib/repositories/lesson-slots.repository.ts:257-284 | refused, with nothing removed, exactly when a pending, approved or paid reservation holds the slot; otherwise the slot is removed and returned, or null when absent |
| LessonSlotsRepository.SlotRepository.IncrementCapacity | lib/repositories/lesson-slots.repository.ts:486-502 | a known slot takes one more place and is booked once full; an unknown one gives undefined and changes nothing |
| LessonSlotsRepository.SlotRepository.DecrementCapacity | lib/repositories/lesson-slots.repository.ts:507-519 | a known slot gives back a place, never below 0, and becomes available; an unknown one gives undefined and changes nothing |
| LessonSlotsRepository.CapacityRoundTrip | lib/repositories/lesson-slots.repository.ts:486-519 | taking a place adds one and books the slot exactly when it is then full; giving it back restores the count and makes the slot available; the count never goes below 0 |
| LessonSlotsRepository.DecrementRevivesCancelled | lib/repositories/lesson-slots.repository.ts:507-519 | giving back a place on a cancelled slot makes it available again |
| LessonSlotsRepository.RecurringKeepsNoOverlaps | lib/repositories/lesson-slots.repository.ts:402-421 | inserting a conflict-free series keeps a store without overlapping live slots free of them, when the pattern's times lie inside a day with the start first |
| LessonSlotsRepository.HasConflict | lib/repositories/lesson-slots.repository.ts:300-326 | some slot of the mentor that is not cancelled and not the excluded one overlaps the interval; `InsertApartKeepsNoOverlaps` and `RecurringKeepsNoOverlaps` prove what checking it buys |
| LessonSlotsRepository.RecurringSlots | lib/repositories/lesson-slots.repository.ts:360-397 | the slots a weekly pattern generates; `GeneratedPairwiseDisjoint` proves they do not overlap one another and `GenerateRecurringSlots` is proved equal to it |
| LessonSlotsRoute.Latest | app/api/lesson-slots/route.ts:233-236 | the reduce keeps a reservation with the latest `updatedAt`, the first such one on a tie |
| LessonSlotsRoute.FormatMeaning | app/api/lesson-slots/route.ts:184-249 | only confirmed reservations count; the slot is reported bookable exactly when it is switched on and nobody else holds a confirmed reservation; it is the caller's exactly when the caller holds one, and then the reported reservation is the caller's latest-updated confirmed one; the full list is shown exactly to an admin or the slot's own mentor |
| LessonSlotsRoute.OwnReservationKeepsSlotOpen | app/api/lesson-slots/route.ts:199-209 | the caller's own confirmed reservations never make a switched-on slot unbookable for them |
| LessonSlotsRoute.ListSlots | app/api/lesson-slots/route.ts:84-284 | 401 exactly without a session; 500 exactly when the slot query finally fails; otherwise the query's rows formatted for the caller |
| LessonSlotsRoute.FormatAll | app/api/lesson-slots/route.ts:184-250 | each row is formatted for the caller, in the rows' order |
| LessonSlotsRoute.ListedInOrder | app/api/lesson-slots/route.ts:126-163 | a listing holds one slot per stored slot starting at most six hours before now, each from that window, in ascending start time |
| LessonSlotsRoute.ListedExactly | app/api/lesson-slots/route.ts:135-163 | the listed rows are exactly the stored slots starting at most six hours before now, each as often as it is stored |
| LessonSlotsRoute.UpperCaseRolesMayCreate | app/api/lesson-slots/route.ts:327-338 | the role check ignores case: "Mentor" and "ADMIN" may create |
| LessonSlotsRoute.CompoundRoleMayCreate | app/api/lesson-slots/route.ts:327-338 | a role merely containing "admin" may create |
| LessonSlotsRoute.StudentMayNotCreate | app/api/lesson-slots/route.ts:327-369 | a student, and a session without a role, are refused |
| LessonSlotsRoute.QueryOverlapsIff | app/api/lesson-slots/route.ts:393-411 | for positive-length intervals the three-case overlap query is exactly "the two intervals share an instant" |
| LessonSlotsRoute.CreateSlot | app/api/lesson-slots/route.ts:298-446 | the table changes exactly when the slot is created |
| LessonSlotsRoute.ConflictsIffClashes | app/api/lesson-slots/route.ts:393-411 | for positive-length stored slots, the three-case overlap query finds a slot of the mentor exactly when one shares an instant with the requested interval |
| LessonSlotsRoute.CreateSlotMeaning | app/api/lesson-slots/route.ts:298-446 | 401 exactly without a session, 403 exactly for a role that may not create, 400 exactly for a missing time or two readable times with the start not before the end, 409 exactly when the lookup succeeds and another slot of the same mentor shares an instant, 500 exactly for an unparsable body, an unreadable time, a lookup that still fails after the retries, or an insert that still fails after them, 201 exactly otherwise; a created slot is the caller's, positive-length and overlap-free and is appended; every refusal leaves the table as it was |
| LessonSlotsRoute.ExecuteQuery | app/api/lesson-slots/route.ts:19-45 | the call-and-retry loop returns the outcome and call count of the retry rule, and waits 1000·(k+1) ms before retry k |
| LessonSlotsRoute.QueryResultBounds | app/api/lesson-slots/route.ts:19-45 | at most four calls; the result is the last call's; a failure means every call failed, a success that every earlier call failed; a failure other than the two connection errors is thrown at once, and only those are retried |
| LessonSlotsRoute.Format | app/api/lesson-slots/route.ts:184-249 | one slot as the caller sees it: open only when switched on and not confirmed for someone else, the caller's own latest reservation, the price, and every reservation only for its mentor or an admin; `FormatMeaning` and `OwnReservationKeepsSlotOpen` prove this |
| LessonSlotsRoute.MayCreate | app/api/lesson-slots/route.ts:327-338 | the lower-cased role contains "mentor" or "admin"; `CompoundRoleMayCreate`, `UpperCaseRolesMayCreate` and `StudentMayNotCreate` pin its cases |
| LessonsPage.MentorIds | app/dashboard/lessons/page.tsx:51-54 | the distinct mentor ids are exactly the non-empty ids of some slot's mentor |
| LessonsPage.FirstWithMentor | app/dashboard/lessons/page.tsx:56 | `find` answers a slot of that mentor exactly when one exists, the first slot when it is one |
| LessonsPage.MentorName | app/dashboard/lessons/page.tsx:57 | the listed name is never empty: the mentor's name or "Unknown" |
| LessonsPage.Mentors | app/dashboard/lessons/page.tsx:51-58 | no more mentors are listed than there are distinct mentor ids |
| LessonsPage.DistinctNoLonger | app/dashboard/lessons/page.tsx:51-53 | removing repeats never lengthens a list |
| LessonsPage.CardinalityOfElements | app/dashboard/lessons/page.tsx:51-53 | a list has no more distinct elements than entries |
| LessonsPage.MentorsListed | app/dashboard/lessons/page.tsx:51-58 | a mentor is listed exactly when some slot has that non-empty mentor id, under the name of the first such slot's mentor |
| LessonsPage.Toggle | app/dashboard/lessons/page.tsx:121-127 | the toggled id is in the result exactly when it was not in the list, and nothing but the list's ids and the toggled one appears |
| LessonsPage.ToggleFlips | app/dashboard/lessons/page.tsx:121-127 | toggling an id adds it exactly when it was absent, leaves every other id as it was, and keeps a list without repeats without them |
| LessonsPage.FilterKeepsNoDuplicates | app/dashboard/lessons/page.tsx:124 | filtering a list without repeats leaves none |
| LessonsPage.ToggleTwice | app/dashboard/lessons/page.tsx:187-193 | toggling twice restores the selection's members, and the list itself when the id was absent (with lines 121-127) |
| LessonsPage.FilterDropsAbsent | app/dashboard/lessons/page.tsx:124 | filtering out an absent id changes nothing |
| LessonsPage.FilteredSlots | app/dashboard/lessons/page.tsx:130-151 | a slot is listed exactly when it is one of the slots and passes every filter |
| LessonsPage.FilterMeaning | app/dashboard/lessons/page.tsx:130-151 | a listed slot is on the selected day, by a selected mentor (or any when none is selected), priced within the range once parsed, and tagged with a selected tag (or any when none is selected); the time-slot setting changes nothing |
| LessonsPage.ResetListsByDayAndPrice | app/dashboard/lessons/page.tsx:517-522 | after a reset only the day and the 0 to 15000 price range decide which slots are listed |
| LessonsPage.FindById | app/dashboard/lessons/page.tsx:154 | a slot with the id is found exactly when one exists |
| LessonsPage.HandleBooking | app/dashboard/lessons/page.tsx:153-170 | a known id opens the modal with that slot selected; an unknown one changes nothing |
| LessonsPage.HandleCloseModal | app/dashboard/lessons/page.tsx:178-181 | closing the modal clears the selection |
| LessonsPage.SelectionCopiesSlot | app/dashboard/lessons/page.tsx:156-167 | the selection copies the slot's id and times, and its price or "0" when missing or empty |
| LessonsPage.Reset | app/dashboard/lessons/page.tsx:517-522 | the date is kept; the other settings return to their defaults, and `ResetListsByDayAndPrice` proves that afterwards only the day and the 0 to 15000 price range decide the listing |
| MentorCalendar.OverlapLength | apps/web/app/dashboard/booking-calendar/_components/MentorCalendar.tsx:199-209 | a reservation's share of the slot is never negative nor longer than the slot, and is positive exactly when it has both times and reaches into the slot |
| MentorCalendar.SumBookedTime | apps/web/app/dashboard/booking-calendar/_components/MentorCalendar.tsx:178-211 | the loop over active reservations adds up the booked time of the slot and counts its confirmed, pending, approved and awaiting-approval reservations |
| MentorCalendar.AnalyzeSlotMethod | apps/web/app/dashboard/booking-calendar/_components/MentorCalendar.tsx:172-253 | the per-slot analysis gives the annotated slot of the booking analysis |
| MentorCalendar.BookedTimeBounds | apps/web/app/dashboard/booking-calendar/_components/MentorCalendar.tsx:198-210 | the booked time is at least 0 and at most the slot's length times the number of active reservations |
| MentorCalendar.NothingBookedIff | apps/web/app/dashboard/booking-calendar/_components/MentorCalendar.tsx:198-210 | nothing is booked exactly when no active reservation with both times reaches into the slot |
| MentorCalendar.UnavailableIffSwitchedOff | apps/web/app/dashboard/booking-calendar/_components/MentorCalendar.tsx:217-226 | a slot is unavailable exactly when it is switched off |
| MentorCalendar.StatusOfPositiveSlot | apps/web/app/dashboard/booking-calendar/_components/MentorCalendar.tsx:213-226 | a switched-on slot of positive length is available exactly when nothing is booked, full exactly when at least 90% is booked, and partial otherwise |
| MentorCalendar.StatusForPositiveLength | apps/web/app/dashboard/booking-calendar/_components/MentorCalendar.tsx:214-226 | the rate thresholds 0 and 0.9 read as integer comparisons of booked time against length |
| MentorCalendar.ZeroLengthSlotIsPartial | apps/web/app/dashboard/booking-calendar/_components/MentorCalendar.tsx:213-226 | a switched-on slot of length 0 books nothing, its NaN rate fails both tests, so it shows as partial with no percentage |
| MentorCalendar.OverlapsCountedTwice | apps/web/app/dashboard/booking-calendar/_components/MentorCalendar.tsx:198-213 | overlapping reservations are added without merging: two confirmed reservations of a whole one-hour slot book two hours, show as full at 200% with -60 minutes left |
| MentorCalendar.MentorTimeSlots | apps/web/app/dashboard/booking-calendar/_components/MentorCalendar.tsx:169-254 | one annotated slot per slot of the mentor that has an id |
| MentorCalendar.AllTimeSlotsCount | apps/web/app/dashboard/booking-calendar/_components/MentorCalendar.tsx:166-258 | the merged list has as many entries as all mentors' slots with an id |
| MentorCalendar.EverySlotListed | apps/web/app/dashboard/booking-calendar/_components/MentorCalendar.tsx:166-258 | every slot with an id of every mentor appears, annotated, in the merged list |
| MentorCalendar.EveryEntryFromASlot | apps/web/app/dashboard/booking-calendar/_components/MentorCalendar.tsx:166-258 | every merged entry is the annotation of some mentor's slot with an id |
| MentorCalendar.CollectTimeSlots | apps/web/app/dashboard/booking-calendar/_components/MentorCalendar.tsx:166-258 | the `forEach` pushing each mentor's slots builds the merged list |
| MentorCalendar.CollectMentorSlots | apps/web/app/dashboard/booking-calendar/_components/MentorCalendar.tsx:169-254 | the filter-and-map over one mentor's slots builds that mentor's list |
| MentorCalendar.DayStartsOfAvailable | apps/web/app/dashboard/booking-calendar/_components/MentorCalendar.tsx:356-360 | a day start is listed exactly when some available slot starts on that day |
| MentorCalendar.AvailableDays | apps/web/app/dashboard/booking-calendar/_components/MentorCalendar.tsx:356-360 | the days with an available slot, each once |
| MentorCalendar.MyIds | apps/web/app/dashboard/booking-calendar/_components/MentorCalendar.tsx:130-131 | exactly the ids of the caller's reservations |
| MentorCalendar.OtherReservationsMembership | apps/web/app/dashboard/booking-calendar/_components/MentorCalendar.tsx:117-142 | a fetched reservation is kept exactly when it starts on the chosen day and is not one of the caller's |
| MentorCalendar.CalendarState.LoadMentors | apps/web/app/dashboard/booking-calendar/_components/MentorCalendar.tsx:153-277 | the slots are replaced by the merged, annotated list and nothing else changes |
| MentorCalendar.CalendarState.FetchReservationsForDate | apps/web/app/dashboard/booking-calendar/_components/MentorCalendar.tsx:92-150 | the other reservations become the chosen day's reservations that are not the caller's, or none when the fetch fails; nothing else changes |
| MentorCalendar.CalendarState.HandleDateClick | apps/web/app/dashboard/booking-calendar/_components/MentorCalendar.tsx:363-371 | clicking a date opens the day view on it and selects just that date |
| MentorCalendar.CalendarState.HandleViewChange | apps/web/app/dashboard/booking-calendar/_components/MentorCalendar.tsx:375-387 | week shows as month; leaving for month or week clears the selected day, the selected dates and the other reservations; switching to day keeps them |
| MentorCalendar.AnalyzeSlot | apps/web/app/dashboard/booking-calendar/_components/MentorCalendar.tsx:172-253 | one slot annotated with its mentor, booked and free minutes, booking rate and status; `StatusOfPositiveSlot`, `UnavailableIffSwitchedOff` and `OverlapsCountedTwice` state what the status and minutes mean |
| MentorCalendar.AllTimeSlots | apps/web/app/dashboard/booking-calendar/_components/MentorCalendar.tsx:166-258 | every mentor's annotated slots, mentor after mentor; `EverySlotListed`, `EveryEntryFromASlot` and `AllTimeSlotsCount` prove it lists each slot exactly once |
| MentorCalendar.OtherReservationsForDate | apps/web/app/dashboard/booking-calendar/_components/MentorCalendar.tsx:92-150 | the fetched reservations starting on the chosen day that are not the student's own, none after a failed fetch; `OtherReservationsMembership` states membership both ways |
| MentorDayView.ShownOnDayIffMeets | apps/web/app/dashboard/slots-calendar/_components/MentorDayView.tsx:104-148 | for a slot that does not end before it starts, the three overlap cases together say exactly that the slot meets the selected day |
| MentorDayView.DaySlots | apps/web/app/dashboard/slots-calendar/_components/MentorDayView.tsx:104-148 | a slot is listed exactly when it is one of the slots and meets the selected day by one of the three cases |
| MentorDayView.DisplayInterval | apps/web/app/dashboard/slots-calendar/_components/MentorDayView.tsx:462-464 | the drawn interval is the slot clipped to the selected day's first and last millisecond |
| MentorDayView.HourOf | apps/web/app/dashboard/slots-calendar/_components/MentorDayView.tsx:467 | `getHours()` lies in 0..23 |
| MentorDayView.DrawnOnceInsideDay | apps/web/app/dashboard/slots-calendar/_components/MentorDayView.tsx:452-471 | a listed slot's drawn start lies on the selected day, inside the one hour row that draws it |
| MentorDayView.ClickMinuteQuarter | apps/web/app/dashboard/slots-calendar/_components/MentorDayView.tsx:438-445 | a click gives a quarter hour from 0 to 45: the nearest one to the click height below 52.5 pixels, and 45 from there on |
| MentorDayView.DraftSlot | apps/web/app/dashboard/slots-calendar/_components/MentorDayView.tsx:205-234 | the draft slot lasts one hour from the chosen start, is available, has no reservations, costs 5000 and allows 30 to 120 minutes |
| MentorDayView.DayViewState.constructor | apps/web/app/dashboard/slots-calendar/_components/MentorDayView.tsx:86-88 | the dialog starts closed, with nothing selected, in view mode |
| MentorDayView.DayViewState.HandleCreateSlot | apps/web/app/dashboard/slots-calendar/_components/MentorDayView.tsx:191-202 | the create dialog opens with nothing selected |
| MentorDayView.DayViewState.HandleCreateSlotWithTime | apps/web/app/dashboard/slots-calendar/_components/MentorDayView.tsx:205-239 | the create dialog opens on the draft slot at the chosen start |
| MentorDayView.DayViewState.HandleRowClick | apps/web/app/dashboard/slots-calendar/_components/MentorDayView.tsx:431-449 | a mentor's click on an empty row opens the create dialog at the quarter hour clicked; any other click changes nothing |
| MentorDayView.DayViewState.HandleEditSlot | apps/web/app/dashboard/slots-calendar/_components/MentorDayView.tsx:242-246 | the edit dialog opens on the slot |
| MentorDayView.DayViewState.HandleModalClose | apps/web/app/dashboard/slots-calendar/_components/MentorDayView.tsx:249-252 | the dialog closes and forgets the slot; the mode is kept |
| MentorDayView.ClickMinute | apps/web/app/dashboard/slots-calendar/_components/MentorDayView.tsx:438-445 | the quarter hour a click stands for, capped at 45; `ClickMinuteQuarter` proves it is one of 0, 15, 30 and 45 |
| MentorDayView.RowOf | apps/web/app/dashboard/slots-calendar/_components/MentorDayView.tsx:452-471 | the hour row a shown slot is drawn in; `DrawnOnceInsideDay` proves the row is one of the day's 24 and holds the drawn start |
| MentorDayView.ShownOnDay | apps/web/app/dashboard/slots-calendar/_components/MentorDayView.tsx:104-148 | the slot starts in the day, ends in it, or spans it; `ShownOnDayIffMeets` proves this is the same as meeting the day's interval |
| MonthView.DaySlots | apps/web/app/dashboard/booking-calendar/_components/MonthView.tsx:72-91 | a slot is listed on a day exactly when it is one of the slots, available, and starts on the day, ends on it or spans it |
| MonthView.OnDayIffIntersects | apps/web/app/dashboard/booking-calendar/_components/MonthView.tsx:72-91 | for a slot that does not end before it starts, the three cases say exactly that an available slot meets the day |
| MonthView.AvailableDayIff | apps/web/app/dashboard/booking-calendar/_components/MonthView.tsx:31-35 | a day is available exactly when some available slot starts on it (with line 94) |
| MonthView.StatusCount | apps/web/app/dashboard/booking-calendar/_components/MonthView.tsx:100-105 | a status is counted exactly when some listed slot has it |
| MonthView.DayStatusCases | apps/web/app/dashboard/booking-calendar/_components/MonthView.tsx:109-117 | a day that is not available is unavailable; otherwise full exactly when it has a full slot and no available one, partial exactly when it has a partial or full slot but is not full, and available otherwise |
| MonthView.OvernightSlotOnUnavailableDay | apps/web/app/dashboard/booking-calendar/_components/MonthView.tsx:72-117 | a slot running from one day into the next is listed on the second day, yet that day shows unavailable when no slot starts on it |
| MonthView.Capped | apps/web/app/dashboard/booking-calendar/_components/MonthView.tsx:243-250 | `slice(0, cap)` keeps a prefix of at most cap items, and the "+n" count is what it leaves out, positive exactly when there are more than cap (with lines 150, 186-189, 209) |
| MonthView.MonthGrid | apps/web/app/dashboard/booking-calendar/_components/MonthView.tsx:45-71 | the empty state is shown exactly when no slot is available; otherwise one cell per calendar day |
| MonthView.NoAvailableDaysIff | apps/web/app/dashboard/booking-calendar/_components/MonthView.tsx:31-53 | the list of available days is empty exactly when no slot is available |
| MonthView.CellLists | apps/web/app/dashboard/booking-calendar/_components/MonthView.tsx:140-260 | a cell shows at most two of the student's own reservations on the day and counts the rest; it shows slot tags, at most three with the rest counted, only on an available day without own reservations |
| MonthView.TagOpensBookingIff | apps/web/app/dashboard/booking-calendar/_components/MonthView.tsx:215-220 | a tag opens the booking dialog exactly for a switched-on slot of positive length less than nine-tenths booked, and never for a switched-off slot |
| MonthView.DayStatus | apps/web/app/dashboard/booking-calendar/_components/MonthView.tsx:109-117 | unavailable, full, partial or available as the day's slot counts decide; `DayStatusCases` states each outcome as an if-and-only-if |
| MonthView.Cell | apps/web/app/dashboard/booking-calendar/_components/MonthView.tsx:94-252 | one calendar cell: up to two own reservations then a "+n" count, else up to three slot tags then a count, with the total reservation count; `CellLists` proves what each list holds |
| MonthView.OnDay | apps/web/app/dashboard/booking-calendar/_components/MonthView.tsx:72-91 | an available slot that starts on the day, ends on it or spans it; `OnDayIffIntersects` relates it to the day's interval |
| MonthView.TagOpensBooking | apps/web/app/dashboard/booking-calendar/_components/MonthView.tsx:215-220 | a tag opens booking for an available or partly booked slot; `TagOpensBookingIff` states both directions |
| MidiReceiver.MessageTypeOf | apps/muednote-hub-macos/Sources/MUEDnoteHub/Services/MIDIReceiverService.swift:138-141 | the UMP message type is the word's top nibble, below 16 |
| MidiReceiver.StatusOf | apps/muednote-hub-macos/Sources/MUEDnoteHub/Services/MIDIReceiverService.swift:143 | the status is the word's second byte, below 256 |
| MidiReceiver.Data1Of | apps/muednote-hub-macos/Sources/MUEDnoteHub/Services/MIDIReceiverService.swift:144 | the first data byte is the word's third byte, below 256 |
| MidiReceiver.Data2Of | apps/muednote-hub-macos/Sources/MUEDnoteHub/Services/MIDIReceiverService.swift:145 | the second data byte is the word's low byte, below 256 |
| MidiReceiver.ChannelOf | apps/muednote-hub-macos/Sources/MUEDnoteHub/Services/MIDIReceiverService.swift:147 | the channel is the status's low nibble, below 16 |
| MidiReceiver.KindOf | apps/muednote-hub-macos/Sources/MUEDnoteHub/Services/MIDIReceiverService.swift:148 | the kind is the status's high nibble, a multiple of 16 below 256 |
| MidiReceiver.EncodeDecode | apps/muednote-hub-macos/Sources/MUEDnoteHub/Services/MIDIReceiverService.swift:137-148 | a type-2 word built from a group, status and two data bytes decodes back to type 2 and exactly that status and those data bytes |
| MidiReceiver.PitchBendOf | apps/muednote-hub-macos/Sources/MUEDnoteHub/Services/MIDIReceiverService.swift:209-210 | the pitch bend stays below 0x8000 and, when data1 is a 7-bit value, equals data2·128 + data1 |
| MidiReceiver.PitchBendFourteenBit | apps/muednote-hub-macos/Sources/MUEDnoteHub/Services/MIDIReceiverService.swift:209-210 | with 7-bit data bytes the pitch bend is the 14-bit value data2·128 + data1, at most 16383 |
| MidiReceiver.PitchBendOverlap | apps/muednote-hub-macos/Sources/MUEDnoteHub/Services/MIDIReceiverService.swift:210 | because the shifted data2 and data1 are combined with OR, data1 = 128 and data2 = 1 give 128 rather than 256 |
| MidiReceiver.ReceiveAll | apps/muednote-hub-macos/Sources/MUEDnoteHub/Services/MIDIReceiverService.swift:122-131 | an event list yields at most one message per packet |
| MidiReceiver.MidiReceiverService.constructor | apps/muednote-hub-macos/Sources/MUEDnoteHub/Services/MIDIReceiverService.swift:20-23 | the debounce table starts empty |
| MidiReceiver.MidiReceiverService.HandleMidiPacket | apps/muednote-hub-macos/Sources/MUEDnoteHub/Services/MIDIReceiverService.swift:133-228 | the new debounce table and the message returned are those of the decoding function for the old table, the word and the arrival time |
| MidiReceiver.MidiReceiverService.HandleMidiEventList | apps/muednote-hub-macos/Sources/MUEDnoteHub/Services/MIDIReceiverService.swift:122-131 | walking the packets in order leaves the table and the message list that the list-level decoding gives for the old table |
| MidiReceiver.OnlyChannelVoiceDecoded | apps/muednote-hub-macos/Sources/MUEDnoteHub/Services/MIDIReceiverService.swift:138-141 | a message is reported only for message type 2, and any other type yields nothing and leaves the table unchanged |
| MidiReceiver.OtherKindsIgnored | apps/muednote-hub-macos/Sources/MUEDnoteHub/Services/MIDIReceiverService.swift:150-227 | a status nibble other than 0x8, 0x9, 0xB or 0xE yields nothing and leaves the table unchanged |
| MidiReceiver.NoteOnIff | apps/muednote-hub-macos/Sources/MUEDnoteHub/Services/MIDIReceiverService.swift:153-172 | a Note On is reported exactly for a type-2 0x9n word with positive velocity; a 0x9n word with velocity 0 is reported as a Note Off with velocity 0 |
| MidiReceiver.DecodedChannel | apps/muednote-hub-macos/Sources/MUEDnoteHub/Services/MIDIReceiverService.swift:153-221 | every reported message carries the status's low nibble as its channel (below 16) and the arrival time (with line 147) |
| MidiReceiver.ControlChangeDebounce | apps/muednote-hub-macos/Sources/MUEDnoteHub/Services/MIDIReceiverService.swift:185-207 | a control change is dropped exactly when the same channel and controller carried the same value less than 50 ms earlier; when it is dropped the table is unchanged, and otherwise it is reported with its value and only its own key is updated |
| MidiReceiver.TableChangesOnlyOnControlChange | apps/muednote-hub-macos/Sources/MUEDnoteHub/Services/MIDIReceiverService.swift:185-207 | only a type-2 control change can change the debounce table |
| MidiReceiver.RepeatAfterWindowReported | apps/muednote-hub-macos/Sources/MUEDnoteHub/Services/MIDIReceiverService.swift:190-196 | after a control change is reported, the same word 50 ms or more later is reported again |
| MidiReceiver.RepeatWithinWindowDropped | apps/muednote-hub-macos/Sources/MUEDnoteHub/Services/MIDIReceiverService.swift:190-196 | after a control change is reported, the same word less than 50 ms later is dropped and leaves the table as it was |
| MidiReceiver.ReceiveAllAppend | apps/muednote-hub-macos/Sources/MUEDnoteHub/Services/MIDIReceiverService.swift:126-129 | appending a packet to an event list appends at most that packet's message to the messages and continues from the table the earlier packets left |
| MidiReceiver.ReceiveAllKeepsTable | apps/muednote-hub-macos/Sources/MUEDnoteHub/Services/MIDIReceiverService.swift:185-207 | an event list with no control changes leaves the debounce table unchanged (with lines 122-131) |
| MidiReceiver.NoteParts | apps/muednote-hub-macos/Sources/MUEDnoteHub/Services/MIDIReceiverService.swift:314-320 | the pitch-class index is below 12, the octave at least -1, and (octave + 1)·12 + index gives back the note number |
| MidiReceiver.NoteName | apps/muednote-hub-macos/Sources/MUEDnoteHub/Services/MIDIReceiverService.swift:314-320 | "?" exactly when there is no note; otherwise the pitch-class name followed by the octave as a signed decimal that reads back as the octave |
| MidiReceiver.NoteNameExamples | apps/muednote-hub-macos/Sources/MUEDnoteHub/Services/MIDIReceiverService.swift:314-320 | note 60 is "C4", note 0 is "C-1" and note 69 is "A4" |
| MidiReceiver.NoteNameReadsBack | apps/muednote-hub-macos/Sources/MUEDnoteHub/Services/MIDIReceiverService.swift:314-320 | the octave read back from the name, with the pitch class, gives the note number again |
| MidiReceiver.CcNameFor | apps/muednote-hub-macos/Sources/MUEDnoteHub/Services/MIDIReceiverService.swift:231-243 | "CC" exactly for controller numbers other than 1, 7, 10, 11, 64, 65, 66 and 67 |
| MidiReceiver.Receive | apps/muednote-hub-macos/Sources/MUEDnoteHub/Services/MIDIReceiverService.swift:150-227 | one packet's message and the control-change table after it; `NoteOnIff`, `ControlChangeDebounce`, `OtherKindsIgnored` and `OnlyChannelVoiceDecoded` state each case |
| BookingCalendarClient.ClippedIntervals | apps/web/app/dashboard/booking-calendar/BookingCalendarClient.tsx:87-108 | at most one interval per reservation, each lying inside the slot and non-empty |
| BookingCalendarClient.SortByStart | apps/web/app/dashboard/booking-calendar/BookingCalendarClient.tsx:113 | sorting keeps the number of intervals |
| BookingCalendarClient.Merge | apps/web/app/dashboard/booking-calendar/BookingCalendarClient.tsx:114-130 | merging a non-empty list yields a non-empty list no longer than its input |
| BookingCalendarClient.CoveredByAppend | apps/web/app/dashboard/booking-calendar/BookingCalendarClient.tsx:114-130 | an instant is covered by a list with one more interval exactly when the list or that interval covers it |
| BookingCalendarClient.TotalLengthAppend | apps/web/app/dashboard/booking-calendar/BookingCalendarClient.tsx:133-136 | the total length of a list with one more interval grows by that interval's length |
| BookingCalendarClient.MergeLastStart | apps/web/app/dashboard/booking-calendar/BookingCalendarClient.tsx:114-130 | on sorted input the last merged interval starts no later than the last input interval |
| BookingCalendarClient.SeparatedAppend | apps/web/app/dashboard/booking-calendar/BookingCalendarClient.tsx:127-129 | appending a non-empty interval that starts after the last one ends keeps a list separated |
| BookingCalendarClient.SeparatedInit | apps/web/app/dashboard/booking-calendar/BookingCalendarClient.tsx:114-130 | dropping the last interval keeps a list separated |
| BookingCalendarClient.MergeSeparated | apps/web/app/dashboard/booking-calendar/BookingCalendarClient.tsx:114-130 | merging sorted non-empty intervals yields non-empty intervals, each ending strictly before the next begins |
| BookingCalendarClient.MergeCoverage | apps/web/app/dashboard/booking-calendar/BookingCalendarClient.tsx:114-130 | on sorted input an instant is covered by the merged list exactly when it is covered by the input |
| BookingCalendarClient.MergeTotal | apps/web/app/dashboard/booking-calendar/BookingCalendarClient.tsx:114-130 | on sorted non-empty intervals the merged total never exceeds the sum of the input lengths |
| BookingCalendarClient.MergeWithin | apps/web/app/dashboard/booking-calendar/BookingCalendarClient.tsx:114-130 | merging intervals that lie inside [lo, hi) yields intervals inside [lo, hi) |
| BookingCalendarClient.SeparatedTotalWithinSpan | apps/web/app/dashboard/booking-calendar/BookingCalendarClient.tsx:133-136 | the total length of separated intervals starting at or after lo is at most the last end minus lo |
| BookingCalendarClient.SortedCappedWithin | apps/web/app/dashboard/booking-calendar/BookingCalendarClient.tsx:111-118 | sorting intervals inside the slot and keeping the first 100 gives a non-empty, sorted list of non-empty intervals inside the slot |
| BookingCalendarClient.MergedTotalWithin | apps/web/app/dashboard/booking-calendar/BookingCalendarClient.tsx:133-136 | the merged total of sorted non-empty intervals inside [lo, hi) lies between 0 and hi - lo |
| BookingCalendarClient.BookedTimeWithinSlot | apps/web/app/dashboard/booking-calendar/BookingCalendarClient.tsx:87-136 | the booked time is never negative and, when some interval was collected, never exceeds the slot's duration |
| BookingCalendarClient.MergedCoverageMatchesBookings | apps/web/app/dashboard/booking-calendar/BookingCalendarClient.tsx:111-130 | with at most 100 collected intervals an instant is covered by the merged list exactly when some active reservation's clipped interval covers it |
| BookingCalendarClient.SameElementsSameCoverage | apps/web/app/dashboard/booking-calendar/BookingCalendarClient.tsx:113 | two lists with the same elements cover the same instants, so sorting does not change coverage |
| BookingCalendarClient.UnbookedSlotNeedsAnHour | apps/web/app/dashboard/booking-calendar/BookingCalendarClient.tsx:82-154 | a slot that lists reservations none of which takes time out of it is offered exactly when its flag is set and it lasts at least 60 minutes |
| BookingCalendarClient.HourRuleOnlyWithReservations | apps/web/app/dashboard/booking-calendar/BookingCalendarClient.tsx:79-157 | a 30-minute available slot with no reservations is offered, but the same slot listing one cancelled reservation is not |
| BookingCalendarClient.CollectBookedIntervals | apps/web/app/dashboard/booking-calendar/BookingCalendarClient.tsx:95-108 | the loop collects exactly the clipped intervals of the active reservations in list order |
| BookingCalendarClient.MergeCapped | apps/web/app/dashboard/booking-calendar/BookingCalendarClient.tsx:113-130 | the merge loop yields the merge of the first min(n, 100) sorted intervals |
| BookingCalendarClient.SumLengths | apps/web/app/dashboard/booking-calendar/BookingCalendarClient.tsx:133-136 | the reduce yields the total length of the merged intervals |
| BookingCalendarClient.IsSlotBookable | apps/web/app/dashboard/booking-calendar/BookingCalendarClient.tsx:77-158 | the filter callback accepts a slot exactly when it is offered: the flag is set and either it lists no reservations or its duration minus the booked time is at least 60 minutes |
| BookingCalendarClient.TeacherIds | apps/web/app/dashboard/booking-calendar/BookingCalendarClient.tsx:162-168 | one teacher id per slot, in slot order |
| BookingCalendarClient.TeacherOrder | apps/web/app/dashboard/booking-calendar/BookingCalendarClient.tsx:162-172 | the grouping keys hold no duplicates and are exactly the teacher ids of the slots |
| BookingCalendarClient.MentorFor | apps/web/app/dashboard/booking-calendar/BookingCalendarClient.tsx:172-208 | a mentor entry carries its id, the group's slots and their number, and the first slot's teacher name or "名前なし" |
| BookingCalendarClient.MentorsOfIndex | apps/web/app/dashboard/booking-calendar/BookingCalendarClient.tsx:161-214 | the k-th entry is built from the k-th teacher in first-appearance order and that teacher's non-empty group of offered slots |
| BookingCalendarClient.MentorsFrom | apps/web/app/dashboard/booking-calendar/BookingCalendarClient.tsx:172-214 | one entry per distinct teacher |
| BookingCalendarClient.FilterHasTeacherNonEmpty | apps/web/app/dashboard/booking-calendar/BookingCalendarClient.tsx:162-168 | every grouping key has at least one slot |
| BookingCalendarClient.MentorIdsDistinct | apps/web/app/dashboard/booking-calendar/BookingCalendarClient.tsx:161-172 | no two entries share a mentor id |
| BookingCalendarClient.MentorSlotsBookableAndOwn | apps/web/app/dashboard/booking-calendar/BookingCalendarClient.tsx:161-208 | each entry lists only offered slots of its own teacher, at least one, and availableSlotsCount is their number |
| BookingCalendarClient.EveryBookableSlotListed | apps/web/app/dashboard/booking-calendar/BookingCalendarClient.tsx:77-168 | every offered slot appears in the entry whose id is its teacher id |
| BookingCalendarClient.FilterBookable | apps/web/app/dashboard/booking-calendar/BookingCalendarClient.tsx:77-158 | the filter keeps exactly the offered slots, in order |
| BookingCalendarClient.UnseenTeacherHasNoSlots | apps/web/app/dashboard/booking-calendar/BookingCalendarClient.tsx:162-168 | a teacher not among the keys of a prefix has no slots in it |
| BookingCalendarClient.GroupByTeacher | apps/web/app/dashboard/booking-calendar/BookingCalendarClient.tsx:162-168 | the keys are the teachers in first-appearance order and each key maps to exactly that teacher's offered slots in order |
| BookingCalendarClient.BuildMentors | apps/web/app/dashboard/booking-calendar/BookingCalendarClient.tsx:172-210 | the entries built from the groups are one per teacher in key order |
| BookingCalendarClient.ConvertLessonSlotsToMentors | apps/web/app/dashboard/booking-calendar/BookingCalendarClient.tsx:57-214 | an empty input gives no mentors; otherwise the result is the offered slots grouped into one entry per teacher |
| BookingCalendarClient.SlotReservationsOf | apps/web/app/dashboard/booking-calendar/BookingCalendarClient.tsx:244-246 | a slot lists as many reservations as were fetched for it with status CONFIRMED or PENDING |
| BookingCalendarClient.CalculateSlotAvailability | apps/web/app/dashboard/booking-calendar/BookingCalendarClient.tsx:242-263 | one slot out per slot in |
| BookingCalendarClient.SlotAvailabilityMembership | apps/web/app/dashboard/booking-calendar/BookingCalendarClient.tsx:242-263 | every field but the reservations is unchanged, and a slot lists a reservation exactly when it was fetched for that slot with status CONFIRMED or PENDING |
| BookingModal.StudentActiveStatuses | apps/web/app/dashboard/booking-calendar/_components/BookingModal.tsx:69-73 | the student's reservations kept after fetching are exactly those not PENDING, CANCELLED or COMPLETED |
| BookingModal.FindSlot | apps/web/app/dashboard/booking-calendar/_components/BookingModal.tsx:113 | a slot found has the id asked for and is one of the mentor's slots; none is found only when no slot has that id |
| BookingModal.MentorBooked | apps/web/app/dashboard/booking-calendar/_components/BookingModal.tsx:114-125 | every CONFIRMED or PENDING reservation with both times becomes a busy interval marked as booked by another student, and nothing else is marked otherwise |
| BookingModal.StudentBooked | apps/web/app/dashboard/booking-calendar/_components/BookingModal.tsx:129-143 | every student reservation starting on the selected day becomes a busy interval marked as booked with another mentor, and nothing else is marked otherwise |
| BookingModal.FirstOverlap | apps/web/app/dashboard/booking-calendar/_components/BookingModal.tsx:159-166 | the index found is the first busy interval overlapping the proposed lesson; none is found only when no busy interval overlaps it |
| BookingModal.OptionCount | apps/web/app/dashboard/booking-calendar/_components/BookingModal.tsx:150-176 | the number of 15-minute steps is the largest count whose last start is still at or before the latest start, and 0 exactly when the latest start precedes the slot's start (with line 106) |
| BookingModal.CheckOverlap | apps/web/app/dashboard/booking-calendar/_components/BookingModal.tsx:156-166 | the inner loop reports available exactly when nothing overlaps, and otherwise the detail of the first overlapping busy interval |
| BookingModal.FirstOverlapIsLeast | apps/web/app/dashboard/booking-calendar/_components/BookingModal.tsx:159-166 | an overlapping busy interval with no overlapping one before it is the one found |
| BookingModal.GenerateStartTimeOptions | apps/web/app/dashboard/booking-calendar/_components/BookingModal.tsx:100-180 | the while loop produces exactly the options of the slot: every 15 minutes from its start up to the latest start, each checked against the busy intervals |
| BookingModal.OptionsFitSlot | apps/web/app/dashboard/booking-calendar/_components/BookingModal.tsx:150-177 | options are 15 minutes apart from the slot's start, every proposed lesson ends by the slot's end, and the next step would overrun it (with line 106) |
| BookingModal.AvailableIffNoOverlap | apps/web/app/dashboard/booking-calendar/_components/BookingModal.tsx:156-173 | an option is available exactly when its lesson overlaps no busy interval, and exactly when it carries no reason |
| BookingModal.ReasonIsEarliestOverlap | apps/web/app/dashboard/booking-calendar/_components/BookingModal.tsx:146-166 | an unavailable option's reason is the detail of an overlapping busy interval that starts no later than any other overlapping one |
| BookingModal.SortedByMonotone | apps/web/app/dashboard/booking-calendar/_components/BookingModal.tsx:146 | in a list sorted by a key, an earlier element's key is no larger than a later one's |
| BookingModal.BusyIntervalsComplete | apps/web/app/dashboard/booking-calendar/_components/BookingModal.tsx:108-146 | the busy list holds every active mentor booking of the slot and every student booking of the selected day |
| BookingModal.AvailableOptionIsFree | apps/web/app/dashboard/booking-calendar/_components/BookingModal.tsx:108-173 | an available option collides neither with an active mentor booking of the slot nor with a student booking of that day |
| BookingModal.CalculateEndTime | apps/web/app/dashboard/booking-calendar/_components/BookingModal.tsx:183-185 | the end lies exactly the duration in minutes after the start |
| BookingModal.CalculateTotalPrice | apps/web/app/dashboard/booking-calendar/_components/BookingModal.tsx:269-276 | the price is 0 until a slot, a start and an end are all chosen |
| BookingModal.PriceOfWholeHours | apps/web/app/dashboard/booking-calendar/_components/BookingModal.tsx:269-276 | a lesson of whole hours costs exactly the rate (5000 when missing) times the hours |
| BookingModal.DefaultRatePrices | apps/web/app/dashboard/booking-calendar/_components/BookingModal.tsx:273-275 | without a rate a 30-minute lesson costs 2500 and a 45-minute one 3750 |
| BookingModal.PriceMonotoneInDuration | apps/web/app/dashboard/booking-calendar/_components/BookingModal.tsx:269-276 | with a positive rate a longer lesson never costs less |
| BookingModal.BookingSelection.constructor | apps/web/app/dashboard/booking-calendar/_components/BookingModal.tsx:43-48 | the dialog opens with no start or end chosen, a 60-minute duration and no error |
| BookingModal.BookingSelection.HandleStartTimeSelect | apps/web/app/dashboard/booking-calendar/_components/BookingModal.tsx:188-193 | the start is recorded, the end is the start plus the current duration, the error is cleared, and the selection stays consistent |
| BookingModal.BookingSelection.HandleDurationChange | apps/web/app/dashboard/booking-calendar/_components/BookingModal.tsx:196-202 | the duration is recorded and, when a start is chosen, the end is re-derived from it; the start and error are untouched and the selection stays consistent |
| BookingModal.PrepareBooking | apps/web/app/dashboard/booking-calendar/_components/BookingModal.tsx:205-226 | an error with the incomplete-booking message exactly when slot, mentor, date, start or end is missing; otherwise the data carries the slot id, the two times, the computed price and JPY |
| BookingModal.PreparedBookingLastsDuration | apps/web/app/dashboard/booking-calendar/_components/BookingModal.tsx:188-226 | a booking prepared from a consistent selection with a start lasts exactly the chosen duration |
| BookingModal.StartTimeOptions | apps/web/app/dashboard/booking-calendar/_components/BookingModal.tsx:150-177 | a start every 15 minutes from the slot's start while the lesson still fits, each marked free or taken; `OptionsFitSlot`, `AvailableIffNoOverlap` and `ReasonIsEarliestOverlap` prove this |
| BookingModal.BusyIntervals | apps/web/app/dashboard/booking-calendar/_components/BookingModal.tsx:108-146 | the mentor's bookings on the slot and the student's bookings on the day, sorted stably by start; `BusyIntervalsComplete` and `BusyIntervalsSorted` prove this |
| Bookings.OverlapsIffSharedInstant | apps/web/app/dashboard/booking-calendar/_components/BookingModal.tsx:162 | for non-empty half-open intervals the start-before-end test holds exactly when the two share an instant |
| Bookings.Clip | apps/web/app/dashboard/booking-calendar/BookingCalendarClient.tsx:101-107 | a clipped interval is non-empty, lies inside [lo, hi) and covers exactly the instants of the booking inside [lo, hi); none is returned only when the booking covers no instant there |
| Bookings.BookedInterval | apps/web/app/dashboard/booking-calendar/BookingCalendarClient.tsx:96-98 | a reservation has a booked interval exactly when both its start and end are present |
| Bookings.RateOrDefault | apps/web/app/dashboard/booking-calendar/_components/BookingModal.tsx:273 | a missing or zero hourly rate becomes 5000, any other rate is kept, and the result is never zero |
| Bookings.StringOr | apps/web/app/dashboard/booking-calendar/BookingCalendarClient.tsx:179 | a present non-empty string is kept; a missing or empty one becomes the fallback |
| ReservationManagement.AmountAsNumber | apps/web/app/dashboard/slots-calendar/_components/ReservationManagementModal.tsx:82-89 | a number is kept as is (NaN stays NaN), a string becomes what parseFloat reads or 0 when it reads nothing, and anything else becomes 0 |
| ReservationManagement.CancelReasonOptions | apps/web/app/dashboard/slots-calendar/_components/ReservationManagementModal.tsx:92-114 | every role's list is non-empty and ends with the emergency reason |
| ReservationManagement.ReasonsByRole | apps/web/app/dashboard/slots-calendar/_components/ReservationManagementModal.tsx:92-114 | every role may cite an emergency; the student's, the mentor's and the administrator's own reasons are offered exactly to that role |
| ReservationManagement.FeeWithinTotal | apps/web/app/dashboard/slots-calendar/_components/ReservationManagementModal.tsx:117-146 | for a non-negative total the fee lies between 0 and the total, so the refund shown is never negative (with line 413) |
| ReservationManagement.FreeForAdminOrEmergency | apps/web/app/dashboard/slots-calendar/_components/ReservationManagementModal.tsx:131-133 | an administrator or an emergency pays nothing, however close the lesson is |
| ReservationManagement.FeeThresholds | apps/web/app/dashboard/slots-calendar/_components/ReservationManagementModal.tsx:117-146 | a student pays the whole total less than 24 hours ahead and nothing otherwise; a mentor pays half the total rounded down less than 2 hours ahead and nothing otherwise |
| ReservationManagement.TimeUntilDeadline | apps/web/app/dashboard/slots-calendar/_components/ReservationManagementModal.tsx:149-170 | the hours shown are non-negative and the minutes lie in 0..59 |
| ReservationManagement.DeadlineShowsWholeMinutesLeft | apps/web/app/dashboard/slots-calendar/_components/ReservationManagementModal.tsx:149-170 | the remaining time is shown exactly while more than the role's deadline hours (24, 2 or 0) remain, and hours·60 + minutes is the number of whole minutes left before the deadline |
| ReservationManagement.FloorOfQuotient | apps/web/app/dashboard/slots-calendar/_components/ReservationManagementModal.tsx:164-166 | the floor of a real quotient of integers is their integer quotient |
| ReservationManagement.CancelState.constructor | apps/web/app/dashboard/slots-calendar/_components/ReservationManagementModal.tsx:74-77 | the dialog opens with no reason, a zero fee and an empty deadline text |
| ReservationManagement.CancelState.HandleReasonChange | apps/web/app/dashboard/slots-calendar/_components/ReservationManagementModal.tsx:173-178 | choosing a reason records it and sets the fee and the deadline text computed for that reason at the given time |
| ReservationManagement.CancellationFee | apps/web/app/dashboard/slots-calendar/_components/ReservationManagementModal.tsx:117-146 | the fee: nothing for an unreadable total, an administrator or an emergency; the whole total for a student under 24 hours ahead; half, rounded down, for a mentor under 2 hours ahead; nothing otherwise. Its bounds and cases are proved by `FeeWithinTotal`, `FreeForAdminOrEmergency` and `FeeThresholds` |
| SlotModal.TwoDigits | app/dashboard/slots-calendar/_components/SlotModal.tsx:91-92 | a number below 100 prints as its tens digit followed by its units digit |
| SlotModal.MinuteOfDay | app/dashboard/slots-calendar/_components/SlotModal.tsx:91-92 | the minute of the day of an instant lies in 0..1439 |
| SlotModal.ParseClock | app/dashboard/slots-calendar/_components/SlotModal.tsx:127-128 | a time read from "HH:mm" text is a minute of the day in 0..1439 |
| SlotModal.DigitCharValue | app/dashboard/slots-calendar/_components/SlotModal.tsx:91-92 | reading back a printed digit gives the digit |
| SlotModal.ClockTextRoundTrip | app/dashboard/slots-calendar/_components/SlotModal.tsx:91-128 | reading back the "HH:mm" text of an instant gives its minute of the day |
| SlotModal.NumberOr | app/dashboard/slots-calendar/_components/SlotModal.tsx:93-97 | a present non-zero number is kept; a missing or zero one becomes the fallback |
| SlotModal.LoadedForm | app/dashboard/slots-calendar/_components/SlotModal.tsx:85-111 | with no slot, creating on a selected date fills 10:00 to 11:00 at 5000 yen for 30 to 120 minutes, and otherwise the form is left as it was |
| SlotModal.FormForSlotReadsBack | app/dashboard/slots-calendar/_components/SlotModal.tsx:86-98 | a slot's form reads back as the slot's own start and end minute, with a rate that is never zero and equals the slot's rate when that is present and non-zero |
| SlotModal.CreateDefaultsValid | app/dashboard/slots-calendar/_components/SlotModal.tsx:121-141 | the default create form passes validation (with lines 99-110) |
| SlotModal.ApplyChangesOneField | app/dashboard/slots-calendar/_components/SlotModal.tsx:113-119 | a change sets exactly the field it names, leaves the other six fields as they were, and applying it again changes nothing |
| SlotModal.Validate | app/dashboard/slots-calendar/_components/SlotModal.tsx:121-141 | a rejection always carries one of the three validation messages |
| SlotModal.ValidateReadableForm | app/dashboard/slots-calendar/_components/SlotModal.tsx:127-140 | on readable times a form is accepted exactly when its end is after its start and its rate is positive |
| SlotModal.EmptyTimeReportedFirst | app/dashboard/slots-calendar/_components/SlotModal.tsx:122-125 | an empty start or end time is reported first, whatever else is wrong |
| SlotModal.UnreadableTimeNotRejected | app/dashboard/slots-calendar/_components/SlotModal.tsx:127-133 | an end text that is not a time passes validation, because comparisons with an invalid date are false |
| SlotModal.AcceptedFormIsOrderedOnDay | app/dashboard/slots-calendar/_components/SlotModal.tsx:158-167 | an accepted form with readable times stands for a slot on the target day that starts before it ends |
| SlotModal.StatusPriority | app/dashboard/slots-calendar/_components/SlotModal.tsx:270-275 | the status is disabled exactly when switched off, reserved exactly when on with a confirmed reservation, on hold exactly when on with a pending but no confirmed one, and open exactly when on with neither |
| SlotModal.FormState.constructor | app/dashboard/slots-calendar/_components/SlotModal.tsx:66-77 | the dialog starts with empty times, 5000 yen, an empty description, available, 30 to 120 minutes, and no error |
| SlotModal.FormState.Load | app/dashboard/slots-calendar/_components/SlotModal.tsx:85-111 | the form becomes the one loaded for the slot, date and mode, and the error is untouched |
| SlotModal.FormState.HandleInputChange | app/dashboard/slots-calendar/_components/SlotModal.tsx:113-119 | the form gets the one change applied and the error is cleared |
| SlotModal.FormState.ValidateForm | app/dashboard/slots-calendar/_components/SlotModal.tsx:121-141 | the result is true exactly when the form passes validation; the form is untouched, and on a rejection the error shows the rejection's message |
| SlotModal.StatusOf | app/dashboard/slots-calendar/_components/SlotModal.tsx:270-275 | the first matching status of switched off, confirmed reservation, pending reservation, open; `StatusPriority` states each outcome as an if-and-only-if |
| SlotModal.Apply | app/dashboard/slots-calendar/_components/SlotModal.tsx:113-119 | the form with the changed field replaced; `ApplyChangesOneField` proves it touches that field only and is idempotent |
| SlotModal.InitialForm | app/dashboard/slots-calendar/_components/SlotModal.tsx:69-77 | the empty form: no times, rate 5000, no description, available, 30 to 120 minutes; used by `SlotModal.FormForSlot` when neither a slot nor a creation date is given |
| SlotModal.ClockText | app/dashboard/slots-calendar/_components/SlotModal.tsx:87-88 | the "HH:mm" text of an instant's minute of the day; `ClockTextRoundTrip` proves it reads back to that minute |

## Left out

- InterviewerService.RankedTemplates: templates of equal priority keep their table order, while the database query leaves their order unspecified; the model fixes one of the orders the database may return.
- Rendering, styling and animation (JSX, Tailwind, StyleSheet) are not modelled, nor are the toasts and console logging.
- Network, database, authentication, email, Stripe and language-model calls are function parameters or in-memory tables. Their failures appear only where the modelled code branches on them.
- Asynchronous ordering is not modelled: each handler is one sequential step, and Promise fan-out, React effect ordering and timers are left out. Retry waits (in `RagService.RetryWithBackoff` and `LessonSlotsRoute.ExecuteQuery`) are returned as a list of delays instead of being slept.
- Time zones and daylight-saving changes are not modelled: local time is a fixed offset folded into the millisecond clock. `Date` formatting (`toLocaleString`, `format(…, 'HH:mm')` beyond the digits, `toISOString`) is not modelled, nor are `formatDate`, `formatTime`, `formatPrice`, `formatDisplayDate` and the display-date helpers.
- Floating point is not modelled: scores and amounts are exact reals, and rounding and flooring are exact. `toFixed` text (used in `explainAnalysis`) is not modelled.
- `localeCompare` is modelled as code-unit order. Only ASCII letters are lower-cased, strings are sequences of characters rather than UTF-16 code units, and regular-expression metacharacters in patterns are not interpreted. The "$" patterns of `replace` ("$$", "$&", "$`", "$'") are expanded; the capture-group forms cannot arise, since the patterns have no groups.
- `Math.random` is not modelled (the mentor specialties), and neither are random UUIDs or their version check.
- Language-model prompt prose is abbreviated: each template keeps its lead sentence, its labelled details and its placeholders. A Zod error is reduced to its issue message ("Invalid uuid" for an argument that is not a UUID).
- abcjs parsing, `countMeasures` and `extractMidiNotes` walk the parsed tune, so they are parameters (the tune's notes and bar count). So are the instrument range and coefficient tables.
- `Math.log2` in DCG is a parameter that is at least 1 from position 2 on. The pgvector similarity query is a parameter of the similar-log search.
- `generateReasonSummary` and `explainAnalysis` in the mentor search are not modelled; they are text formatting.
- Row order by `createdAt` in the repositories is modelled as insertion order, so the latest row is the last matching one.
- Repository methods outside the modelled operations are not modelled, for example `findMany`, statistics, the Stripe-keyed updates, `deleteRecurringSeries`, `cancelFutureRecurring`, `getMentorStats`, `updateSessionAnalysis` and `getSessionStats`.
- `getUserMaterials`, `getMaterialById` and `deleteMaterial` in the material service are not modelled. `incrementMaterialUsage` is modelled only as the usage count after generation. `executeGenerateStudyMaterial` and `executeUpgradeSubscription` in the tools are not modelled; they delegate to services outside this model.
- In the notification service only the reservation-confirmed flow is modelled. The other notification methods are not, and the `NEXT_PUBLIC_APP_URL` setting is fixed to `https://mued.jp`.
- In the retrieval service, `getCacheStats`, `upsertEmbedding`, `embedSession` and the other database-backed methods are not modelled.
- In the mobile screens, `loadSessionLogs`, `fetchSessions`, `handleRefresh`, `saveAudioFiles`, `handleSaveLocal`, `handleDiscard` and `finishAfterSync` are not modelled: they are file-system and network I/O.
- The Supabase realtime subscriptions in the calendar screens are not modelled. The "today" mark and selected-day styling in the month view are presentation only.
- CoreMIDI client and port setup, source connection, the connection flags `isRunning` and `connectedSources`, and `appendToLogFile` in the MIDI hub are not modelled. The debounce clock is a parameter in whole milliseconds, where the source uses seconds as a `Double`.
- `utils/formatTime.ts` is not part of this model. `getDateKey` from it is a parameter of the history screen.
- BookingCalendarClient.IsSlotBookable: the `catch` fallback to an unmerged sum is not modelled, because the merge it guards cannot throw on the modelled values.
- RagMetrics.CalculateRagMetrics: uses the corrected precision@K of the Findings table (0 when nothing is retrieved), not the NaN the source computes; `RagMetrics.EvaluateRagQuery` inherits this. A negative `k`, which `slice(0, k)` reads as dropping that many results from the end, is not modelled: `k` is a `nat`.
- MentorSearch.CriteriaToStudentProfile: uses the corrected goal and genre lookup of the Findings table, which drops prototype keys such as "toString"; `MentorSearch.Search` inherits this.
- BookingCalendarClient.GroupByTeacher: keys are taken in insertion order. JavaScript lists integer-like keys first, in ascending order, so the order differs when teacher ids look like array indices; the ids here are user ids that do not.
- SlotModal.ParseClock: reads only "HH:mm" text. The "24:00" end-of-day form and "HH:mm:ss" text, which `Date` also accepts, come out as invalid here.
- RagService.Service.FindSimilarLogs: the rows returned by the pgvector query are a parameter, so nothing constrains their similarity order or the threshold filter the query applies.
- LessonSlotsRoute.ListSlots: only the 500 of a failed slot query is modelled; the outer catch for other thrown errors is not, and the ordering of slots with equal start times is a stable sort, where the database leaves it unspecified.
- LessonSlotsRoute.CreateSlot: the 500 is modelled as one outcome; its body (message and `details: String(error)`) is not. An unreadable time is taken to make the overlap lookup throw, because the database client refuses an Invalid Date as a query argument.
- LessonsPage.Reset: its own contract states only that the date is kept; what the reset means for the listing is stated by `LessonsPage.ResetListsByDayAndPrice`.

## Findings

| source | as written | input that shows it | evidently intended | confidence | as-written member | corrected member |
|---|---|---|---|---|---|---|
| lib/utils/rag-metrics.ts:97-109 | with k > 0 and no results, precision@K divides 0 by 0; the resulting NaN is never below a threshold, so the quality assertion passes | results [], ground truth ["doc1"], k 5 | precision 0 when nothing is retrieved | not executed | RagMetrics.NaNPrecisionPassesEveryThreshold | RagMetrics.PrecisionAgreesWhereDefined |
| app/api/mentor-matching/search/route.ts:65-92 | learning goals and genres are looked up with `map[key]` on an object literal, so a prototype key such as "toString" finds a function and is kept as if it were known | learning goals ["toString"] | only the listed keys are recognised | not executed | MentorSearch.PrototypeKeyPassesGoalLookup | MentorSearch.MapKnownKeepsKnown |
