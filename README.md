# A verified model of the Social Midia IA analytics core

This project models, in Dafny, the parts of the AgenteSocial / Social Midia IA
backend that compute something, together with two display helpers of its chat
panel. The backend is a FastAPI service whose agents analyse social-media
content, publish to Instagram and keep a content calendar; the model covers:

- **Virality scoring** (`viral_detection.dfy`, module `ViralDetection`): the
  score of one post from its likes, comments, shares, saves, age and follower
  count, its tier (normal, above average, viral, super viral), and the batch
  classification that scores every item and sorts the batch by score.
- **Trend detection** (`trend_patterns.dfy`, module `TrendPatterns`): the
  report built over a classified batch — tier breakdown, viral ratio, media-type
  averages, hashtag pools and their lift, best hours and days, the
  recommendation rules and the top-five list.
- **Learning** (`learning_service.dfy`, `learning_tools.dfy`): the
  content-pattern analysis over the best and worst rows, the growth trajectory
  of account snapshots, the engagement insights of top and bottom fifths with
  their recommended content type, and the save step of a learning.
- **Instagram OAuth state store** (`instagram_oauth.dfy`): a class whose map
  of CSRF states is issued, cleaned after ten minutes and consumed once.
- **Response cache** (`response_cache.dfy`): a class whose entries are served
  while fresh and cleared by key prefix.
- **Tools and routes**: image-size resolution and prompt building
  (`image_tools.dfy`), book listing and description truncation
  (`books_tools.dfy`), the calendar month filter, update and delete
  (`calendar_events.dfy`), the benchmark lookup (`benchmarks.dfy`), the chat
  stream, save step, WebSocket token check and message guard
  (`chat_stream.dfy`), and the publishing guards, payloads, container polling
  and permalink of the Instagram publishing tools (`publishing_tools.dfy`).
- **Chat history panel** (`conversation_history.dfy`): the relative age label
  and the first-message cut.

Shared modules model the Python built-ins the code leans on: `Wrappers`
(`None` and `dict.get` with a default, which replaces an absent key but not an
explicit `null`), `Text` (`str(n)`, `int(s)` on digits, `f"{n:02d}"`,
`lower`/`upper`, `split`/`join` on one character, `strip`), `Rounding`
(Python's `round`, half to even, on exact reals), `StableSort` (the stable
`sort(..., reverse=True)`), and `Tally` (`Counter` and `most_common`, which
keep first-seen order among equal counts).

The database, HTTP replies, clocks and random tokens are parameters: a query
result is an argument, `now` is an argument, and a poll of the Graph API is a
function from the attempt number to a reply. Loops of the source are methods
proved against the function that specifies them; the properties are then
lemmas about those functions.

Where the code and the documented behaviour disagree the model follows the
code. In particular:

- the trend report's recommendations can be empty even for a non-empty batch
  (a viral ratio between 10% and 30%, no dominant media type, shares equal to
  saves, no trending hashtags and no timestamps); `RecommendationRules` states
  each rule as an if-and-only-if;
- the recommendation rules described for the learning aggregator (body length
  against one and a half times the average, engagement bands) do not appear in
  `learning_service.py` or `learning_tools.py` and are not modelled;
- the hashtag pools walk the input list but read the classification at the
  same position of the sorted batch, so a hashtag is credited to whichever item
  landed at its position (`PositionalAttribution`, `PoolsOfTwo`); the normal
  pool also takes the tags of above-average and failed items while the normal
  frequency divides by the normal items only;
- `truncateMessage` adds "..." after 50 characters, so a message of 51 to 53
  characters is shown as long or longer than it is (`TruncatedShorterIff`).

## Model

| member | source | states |
|---|---|---|
| ViralDetection.HourOf | backend/app/services/viral_detection.py:232 | the hour of a posting time is below 24 (hours counted from the epoch, floor division) |
| ViralDetection.HoursSincePost | backend/app/services/viral_detection.py:28 | hours since posting are at least 1 and at least the elapsed seconds over 3600, and equal one of the two |
| ViralDetection.EngagementRate | backend/app/services/viral_detection.py:31 | the rate times the follower count (at least 1) is 100 times the total engagement; non-negative for non-negative engagement |
| ViralDetection.VelocityScore | backend/app/services/viral_detection.py:34-35 | the velocity score is capped at 100, non-negative for non-negative engagement, exactly 100 once engagement reaches hours times 1% of the audience (at least 1), and proportional to engagement below that |
| ViralDetection.RateScore | backend/app/services/viral_detection.py:38-43 | a share or save score is capped at 100, reaches 100 exactly at a 20% share of the engagement, and is 500 times the part over the total below that |
| ViralDetection.Classify | backend/app/services/viral_detection.py:51-58 | each tier holds exactly on its score band: 81 and up, 61 to 81, 31 to 61, below 31 |
| ViralDetection.ClassifyMonotone | backend/app/services/viral_detection.py:51-58 | a higher score never yields a lower tier |
| ViralDetection.CalculateVirality | backend/app/services/viral_detection.py:8-69 | total engagement is the sum of the four counters and the tier is the classification of the final score |
| ViralDetection.ScoreBounds | backend/app/services/viral_detection.py:31-48 | for non-negative counters every sub-score and the final score lie in 0..100, hours are at least 1 and the rate is non-negative |
| ViralDetection.ViewsIgnored | backend/app/services/viral_detection.py:8-48 | the view count never affects the result |
| ViralDetection.WorkedExample | backend/app/services/viral_detection.py:28-58 | 100 likes, 20 comments, 50 shares, 30 saves, 2 hours, 1000 followers score 92.5 and are super viral |
| ViralDetection.ToInt | backend/app/services/viral_detection.py:101-109 | a counter converts to its own value unless it is null or not numeric; an absent counter takes its default |
| ViralDetection.ScoreItem | backend/app/services/viral_detection.py:92-126 | an item fails exactly when it is faulty (unparsable time, bad counter, aware timestamp, null caption); a scored item keeps its id, a caption of at most 200 characters and a consistent tier |
| ViralDetection.DefaultIdsDistinct | backend/app/services/viral_detection.py:112 | items without an id get distinct positional ids |
| ViralDetection.ScoreAll | backend/app/services/viral_detection.py:92-126 | one entry per item, in input order, each scored at its own position |
| ViralDetection.ClassifyContentBatch | backend/app/services/viral_detection.py:72-130 | the batch result has one entry per item and is ordered by non-increasing score (the sort's specification) |
| ViralDetection.ClassifyBatchSpec | backend/app/services/viral_detection.py:129 | the sorted batch is a permutation of the scored items, non-increasing by score, and keeps the input order among equal scores |
| ViralDetection.ClassifyBatchHasEach | backend/app/services/viral_detection.py:92-126 | every item's entry appears in the batch result |
| TrendPatterns.BreakdownCovers | backend/app/services/viral_detection.py:298-304 | the five breakdown counts add up to the number of entries |
| TrendPatterns.ViralCounted | backend/app/services/viral_detection.py:166 | the viral list holds exactly the super viral and viral entries of the breakdown |
| TrendPatterns.FilterMultiset | backend/app/services/viral_detection.py:166-168 | a list comprehension keeps every occurrence of each element satisfying the condition and nothing else |
| TrendPatterns.FilterConcat | backend/app/services/viral_detection.py:166-168 | a list comprehension keeps the input order: it distributes over concatenation |
| TrendPatterns.NormalCounted | backend/app/services/viral_detection.py:168 | the normal list holds exactly the normal entries of the breakdown |
| TrendPatterns.ViralRatio | backend/app/services/viral_detection.py:171 | the viral ratio is a percentage between 0 and 100 |
| TrendPatterns.MediaGroups | backend/app/services/viral_detection.py:174-179 | grouping by media type gives distinct keys with non-empty groups, every entry placed once, and under each key exactly that key's scores in batch order |
| TrendPatterns.Averages | backend/app/services/viral_detection.py:181-183 | one average per group, keyed and ordered as the groups, each the mean of its group rounded to one decimal |
| TrendPatterns.TypeAverages | backend/app/services/viral_detection.py:174-183 | the media-type averages hold one entry per media key of the batch, each the rounded mean of exactly that key's scores |
| TrendPatterns.TagPoolsPartition | backend/app/services/viral_detection.py:190-196 | the viral and normal hashtag pools together hold every hashtag of the input exactly once |
| TrendPatterns.Candidates | backend/app/services/viral_detection.py:198 | at most ten candidate hashtags |
| TrendPatterns.CandidatesCounted | backend/app/services/viral_detection.py:198 | each candidate's count is its number of occurrences in the viral pool |
| TrendPatterns.CandidatesAreMostFrequent | backend/app/services/viral_detection.py:198 | a viral hashtag left out of the candidates occurs no more often than any candidate |
| TrendPatterns.Lift | backend/app/services/viral_detection.py:203-207 | the lift of a hashtag is never negative |
| TrendPatterns.Trending | backend/app/services/viral_detection.py:202-214 | the trending list is a permutation of the candidates with their lifts, ordered by non-increasing lift, equal lifts keeping candidate order |
| TrendPatterns.TrendingEntries | backend/app/services/viral_detection.py:201-214 | a tag is trending exactly when it is a candidate carrying its viral count and its lift |
| TrendPatterns.TrendingCounted | backend/app/services/viral_detection.py:198-214 | each trending tag is among the ten most common viral tags, with its viral-pool count and the lift of that count against its normal-pool count |
| TrendPatterns.TimingStep | backend/app/services/viral_detection.py:221-241 | an item with a usable timestamp adds its score under its time key and nowhere else, any other item changes nothing; distinct keys stay distinct |
| TrendPatterns.HourGroups | backend/app/services/viral_detection.py:221-236 | grouping by hour gives distinct keys below 24, non-empty groups, and under each hour exactly the scores of the positions posted in that hour |
| TrendPatterns.DayGroups | backend/app/services/viral_detection.py:221-240 | grouping by weekday gives distinct keys, non-empty groups, and under each day exactly the scores of the positions posted on that day |
| TrendPatterns.TimingGroupsSize | backend/app/services/viral_detection.py:221-241 | the timing groups hold one score per item with a usable timestamp |
| TrendPatterns.TimingGroupsTogether | backend/app/services/viral_detection.py:243-257 | hour and day groups hold the same number of scores, so best hours are empty exactly when best days are |
| TrendPatterns.HourLabel | backend/app/services/viral_detection.py:244 | an hour label is two digits reading back as the hour, followed by ":00" |
| TrendPatterns.BestHours | backend/app/services/viral_detection.py:243-253 | the labelled hour averages re-sorted by non-increasing average, as a permutation, equal averages keeping first-seen order |
| TrendPatterns.BestDays | backend/app/services/viral_detection.py:246-257 | the weekday averages re-sorted by non-increasing average, as a permutation, equal averages keeping first-seen order |
| TrendPatterns.BestHoursEntries | backend/app/services/viral_detection.py:217-253 | the best-hours table holds exactly one entry per hour that received a score, labelled "HH:00", with the rounded mean of that hour's scores |
| TrendPatterns.BestHourOf | backend/app/services/viral_detection.py:243-253 | every best-hours entry is some scored hour's label and rounded mean |
| TrendPatterns.BestHourPresent | backend/app/services/viral_detection.py:243-253 | every hour that received a score appears in the best-hours table with its rounded mean |
| TrendPatterns.BestDaysEntries | backend/app/services/viral_detection.py:217-257 | the best-days table holds exactly one entry per weekday that received a score, with the rounded mean of that day's scores |
| TrendPatterns.HourKeysBelow | backend/app/services/viral_detection.py:232 | every hour group's key is below 24 |
| TrendPatterns.Patterns | backend/app/services/viral_detection.py:260-270 | share-driven and save-driven viral items together are at most the viral items |
| TrendPatterns.TagNames | backend/app/services/viral_detection.py:288 | the names of the trending hashtags, in order |
| TrendPatterns.RecommendationRules | backend/app/services/viral_detection.py:273-294 | each recommendation appears exactly when its condition holds (both directions), and there are at most five |
| TrendPatterns.TopViral | backend/app/services/viral_detection.py:312-320 | the first five entries of the sorted batch (all of a shorter one), each with its id, score and label, and the first 100 characters of its caption, empty for an error entry |
| TrendPatterns.TopViralHighest | backend/app/services/viral_detection.py:312-320 | on a batch sorted by score, no entry beyond the top five scores higher than any top entry |
| TrendPatterns.TrendingPatterns | backend/app/services/viral_detection.py:133-321 | the empty-input answer is given exactly for an empty input |
| TrendPatterns.GroupByMediaType | backend/app/services/viral_detection.py:174-179 | the grouping loop computes the media groups |
| TrendPatterns.PoolHashtags | backend/app/services/viral_detection.py:188-196 | the pooling loop computes the viral and normal pools |
| TrendPatterns.GroupByTiming | backend/app/services/viral_detection.py:217-241 | the timing loop computes the hour and day groups |
| TrendPatterns.ReportSpec | backend/app/services/viral_detection.py:296-320 | for a non-empty input the report counts every item, its breakdown covers them, the ratio is a percentage, at most ten trending tags by lift, best hours and days sorted and empty together, at most five top entries |
| TrendPatterns.ReportParts | backend/app/services/viral_detection.py:173-321 | each table of a report is its own function of the sorted batch and the input |
| TrendPatterns.ReportTrending | backend/app/services/viral_detection.py:187-214 | every trending tag of a report is a top-ten viral tag with its viral-pool count and its lift against the normal pool |
| TrendPatterns.ReportTypeAverages | backend/app/services/viral_detection.py:173-183 | a report's media-type averages cover exactly the media keys of the batch, each with the rounded mean of its scores |
| TrendPatterns.ReportTiming | backend/app/services/viral_detection.py:217-257 | a report's best hours and best days hold exactly the scored hours and weekdays, each with the rounded mean of its scores |
| TrendPatterns.ReportTopViral | backend/app/services/viral_detection.py:312-320 | a report's top entries score at least as high as every other entry of the sorted batch |
| TrendPatterns.PositionalAttribution | backend/app/services/viral_detection.py:190-196 | after sorting, the entry at a position need not belong to the item at that position of the input: two items swap |
| TrendPatterns.PoolsOfTwo | backend/app/services/viral_detection.py:190-196 | the viral pool takes the hashtags of the input item at each viral position of the sorted batch |
| TrendPatterns.DetectTrendingPatterns | backend/app/services/viral_detection.py:133-321 | the method computes the trend report |
| LearningService.ColumnValue | backend/app/services/learning_service.py:36 | an absent column reads "unknown", a null one None, a present one its value |
| LearningService.ColumnValues | backend/app/services/learning_service.py:35-36 | one value per row, in order |
| LearningService.CountField | backend/app/services/learning_service.py:33-38 | the counting loop yields the most-common list of the column's values |
| LearningService.CountFieldSpec | backend/app/services/learning_service.py:33-38 | the counts add up to the number of rows, each count is the value's multiplicity, every value appears, sorted by count, ties kept in first-seen order |
| LearningService.TotalLength | backend/app/services/learning_service.py:44-45 | the total length exists exactly when no body is null |
| LearningService.AvgLength | backend/app/services/learning_service.py:41-45 | average length is 0 for no rows and fails exactly when a body is null |
| LearningService.AvgLengthNearMean | backend/app/services/learning_service.py:45 | the rounded average lies within one half of the true mean |
| LearningService.ContentPatterns | backend/app/services/learning_service.py:14-30 | the no-content answer is given exactly for no rows |
| LearningService.AnalyzeContentPatterns | backend/app/services/learning_service.py:14-30 | the method computes the content patterns |
| LearningService.ContentPatternsSucceeds | backend/app/services/learning_service.py:17-27 | rows without null bodies give patterns over all of them |
| LearningService.ContentPatternsNullBody | backend/app/services/learning_service.py:24-25 | a null body among the top or bottom ten fails the analysis |
| LearningService.ContentPatternsTallies | backend/app/services/learning_service.py:22-26 | each tally counts the top ten rows (or all, when fewer) |
| LearningService.ContentPatternsOverlap | backend/app/services/learning_service.py:18-19 | with ten rows or fewer top and bottom are the same rows, so their average lengths agree |
| LearningTools.OrZero | backend/app/tools/learning_tools.py:83 | a present count is kept, an absent or null one reads 0 |
| LearningTools.OrZeroReal | backend/app/tools/learning_tools.py:85 | a present rate is kept, an absent or null one reads 0 |
| LearningTools.Rates | backend/app/tools/learning_tools.py:85 | one engagement rate per snapshot, in order |
| LearningTools.Reaches | backend/app/tools/learning_tools.py:88 | one reach per snapshot, in order |
| LearningTools.GrowthTrajectory | backend/app/tools/learning_tools.py:71-92 | no snapshots gives the empty answer; otherwise all are counted and the last (up to) five are returned |
| LearningTools.FollowerCounts | backend/app/tools/learning_tools.py:83 | one follower count per snapshot, in order |
| LearningTools.GrowthChangeTelescopes | backend/app/tools/learning_tools.py:83 | the follower change is the sum of the step-by-step changes |
| LearningTools.GrowthSingle | backend/app/tools/learning_tools.py:74-92 | a single snapshot gives no change and its own rate and reach as averages |
| LearningTools.GrowthAveragesBetween | backend/app/tools/learning_tools.py:84-89 | the averages lie between the bounds of the snapshots' values |
| LearningTools.Cutoff | backend/app/tools/learning_tools.py:126 | the group size is a fifth of the items, at least one |
| LearningTools.Scores | backend/app/tools/learning_tools.py:146 | one engagement score per item, in order |
| LearningTools.SummaryOf | backend/app/tools/learning_tools.py:130-148 | a summary exists exactly when no body is null |
| LearningTools.GatheredCounts | backend/app/tools/learning_tools.py:134-139 | the loop's tallies are the counts of the type and tone columns and the total body length |
| LearningTools.Summarize | backend/app/tools/learning_tools.py:130-148 | the summarizing loop computes the summary |
| LearningTools.SummaryTallies | backend/app/tools/learning_tools.py:141-143 | a summary counts every item once per tally, with distinct keys |
| LearningTools.SummaryEngagementBetween | backend/app/tools/learning_tools.py:145-147 | the average engagement lies between the bounds of the items' scores |
| LearningTools.Recommend | backend/app/tools/learning_tools.py:155 | no types gives no pick; otherwise the first type whose count is the largest (earlier types all count less) |
| LearningTools.EngagementInsights | backend/app/tools/learning_tools.py:122-157 | fewer than five items give the insufficient-data answer, exactly |
| LearningTools.InsightsGroups | backend/app/tools/learning_tools.py:126-128 | top and bottom groups both have the cutoff size and together fit in the items |
| LearningTools.RecommendationIsMostFrequent | backend/app/tools/learning_tools.py:155 | the recommended type occurs among the top group at least as often as any other type |
| LearningTools.LearningsTable | backend/app/tools/learning_tools.py:182 | the configured learnings table, or the default table name |
| LearningTools.SaveLearning | backend/app/tools/learning_tools.py:178-193 | saved exactly when the insert does not fail, with the learning type; otherwise skipped with the failure |
| InstagramOAuth.Unexpired | backend/app/services/instagram_oauth.py:26-31 | exactly the entries not older than the ten-minute window remain, unchanged |
| InstagramOAuth.UnexpiredLater | backend/app/services/instagram_oauth.py:26-31 | cleaning at an earlier and then a later time equals cleaning at the later time |
| InstagramOAuth.Lookup | backend/app/services/instagram_oauth.py:55-61 | a state is valid exactly when stored and unexpired, and yields its user |
| InstagramOAuth.Consumed | backend/app/services/instagram_oauth.py:55-61 | after validation the state is gone and only the other unexpired states remain |
| InstagramOAuth.Issued | backend/app/services/instagram_oauth.py:40-43 | after issuing, the new state and the other unexpired states are stored |
| InstagramOAuth.SingleUse | backend/app/services/instagram_oauth.py:58-60 | a consumed state never validates again |
| InstagramOAuth.IssuedThenLookup | backend/app/services/instagram_oauth.py:16-61 | an issued state validates to its user exactly within ten minutes |
| InstagramOAuth.OtherStatesUntouched | backend/app/services/instagram_oauth.py:29-58 | issuing or consuming one state does not change the validity of another |
| InstagramOAuth.ReadSettingAsWritten | backend/app/config.py:8-49 | reading a setting succeeds exactly for declared settings and gives the environment's value, or else the declared default |
| InstagramOAuth.MetaSettingsAsWrittenRaise | backend/app/services/instagram_oauth.py:37 | the Meta settings as read by the code can never be read, whatever the environment |
| InstagramOAuth.MetaSettingsOf | backend/app/services/instagram_oauth.py:36-38 | the Meta app id and redirect URI come from the environment, empty when unset |
| InstagramOAuth.CsrfStateStore.constructor | backend/app/services/instagram_oauth.py:15 | a new store holds no states |
| InstagramOAuth.CsrfStateStore.CleanupExpiredStates | backend/app/services/instagram_oauth.py:26-31 | the store keeps only its unexpired states |
| InstagramOAuth.CsrfStateStore.GenerateOAuthUrl | backend/app/services/instagram_oauth.py:34-52 | without configuration nothing is stored; otherwise the state is issued and the authorization parameters are the app id, redirect URI, "code", the scopes and the state |
| InstagramOAuth.CsrfStateStore.ValidateAndConsumeState | backend/app/services/instagram_oauth.py:55-61 | returns the state's user when valid and removes the state and the expired ones |
| ResponseCache.CacheKey | backend/app/middleware/cache.py:17 | a key starts with the prefix and a colon and is as long as its three parts and two separators |
| ResponseCache.Fresh | backend/app/middleware/cache.py:20-23 | a hit exactly when the key is stored and younger than the time to live |
| ResponseCache.Retained | backend/app/middleware/cache.py:37-40 | clearing keeps exactly the keys not starting with the prefix |
| ResponseCache.StoredThenFresh | backend/app/middleware/cache.py:20-27 | a just-stored value is returned while it is younger than the time to live |
| ResponseCache.RetainedEmptyPrefix | backend/app/middleware/cache.py:35-36 | clearing without a prefix removes everything |
| ResponseCache.RetainedDropsPrefix | backend/app/middleware/cache.py:37-40 | clearing a prefix removes every key built with it |
| ResponseCache.ResponseCache.constructor | backend/app/middleware/cache.py:7 | a new cache is empty |
| ResponseCache.ResponseCache.Call | backend/app/middleware/cache.py:14-28 | a fresh hit returns the stored value without calling; a miss calls the function and stores its result |
| ResponseCache.ResponseCache.ClearCache | backend/app/middleware/cache.py:33-40 | the cache keeps exactly the entries outside the prefix |
| ImageTools.ResolveSize | backend/app/tools/image_tools.py:56-68 | the resolved size is one of the generator's sizes |
| ImageTools.ResolveSizeIgnoresCase | backend/app/tools/image_tools.py:58-59 | content type and platform are matched case-insensitively |
| ImageTools.ResolveSizeOverride | backend/app/tools/image_tools.py:62-65 | a platform override wins |
| ImageTools.ResolveSizeFallback | backend/app/tools/image_tools.py:68 | without an override the content type's size applies, square for an unknown type |
| ImageTools.OverridesListKnownTypes | backend/app/tools/image_tools.py:10-50 | every overridden content type is a known content type |
| ImageTools.UnknownContentTypeSquare | backend/app/tools/image_tools.py:62-68 | an unknown content type is square on every platform |
| ImageTools.OrientationFixedByType | backend/app/tools/image_tools.py:10-50 | stories and reel covers are vertical and thumbnails landscape on every platform |
| ImageTools.ContentHint | backend/app/tools/image_tools.py:117 | the content type's style hint, the post hint for an unknown type |
| ImageTools.PlatformHint | backend/app/tools/image_tools.py:118 | the platform's hint, empty for an unknown platform |
| ImageTools.BuildPrompt | backend/app/tools/image_tools.py:120-124 | the prompt starts with the content hint, then the platform hint, then the description, and ends with the fixed suffix |
| ImageTools.GenerateImageCore | backend/app/tools/image_tools.py:156-166 | generation proceeds exactly for a valid size and style; otherwise the size error takes precedence over the style error |
| ImageTools.GenerateSocialMediaImage | backend/app/tools/image_tools.py:263-296 | an unknown content type or platform is refused, in that order |
| ImageTools.SocialMediaImageGenerates | backend/app/tools/image_tools.py:281-296 | a known type and platform generate the built prompt at the resolved size in the vivid style |
| BooksTools.ClampMaxResults | backend/app/tools/books_tools.py:22 | the result count is clamped to 1..10 and kept when inside |
| BooksTools.ClampIdempotent | backend/app/tools/books_tools.py:22 | clamping twice is clamping once |
| BooksTools.BeforeLastSpace | backend/app/tools/books_tools.py:220 | the text up to its last space, or all of it without a space |
| BooksTools.Truncate | backend/app/tools/books_tools.py:216-220 | short text is unchanged; long text is cut at the last space of its allowed prefix and gains "..." |
| BooksTools.TruncateSpec | backend/app/tools/books_tools.py:218-220 | a truncated text is a prefix of at most the limit, ending at a space when the prefix has one, followed by "..." |
| BooksTools.BookOf | backend/app/tools/books_tools.py:43-53 | a book is built unless the entry or its authors, description or categories are null |
| BooksTools.MissingVolumeInfo | backend/app/tools/books_tools.py:43-49 | an entry without volume info shows the default title, author and description |
| BooksTools.BooksOf | backend/app/tools/books_tools.py:41-54 | all entries convert, one book each and in order, or the listing fails |
| BooksTools.CollectBooks | backend/app/tools/books_tools.py:41-54 | the listing loop computes the books |
| BooksTools.ListBooks | backend/app/tools/books_tools.py:37-54 | "not found" exactly when the total is 0 or there are no items; a null item list fails; a found listing carries the total (default 0) and one book per item, each that item's book |
| BooksTools.EmptyResultNotFound | backend/app/tools/books_tools.py:37-39 | a zero total or missing items report nothing found |
| BooksTools.ListedDescriptionsBounded | backend/app/tools/books_tools.py:49 | every listed description is at most the limit plus three characters |
| CalendarEvents.NextMonth | backend/app/api/v1/calendar.py:69-73 | the rolled-over month is in 1..12, in the same or the next year |
| CalendarEvents.NextMonthIsNext | backend/app/api/v1/calendar.py:69-74 | for a real month the rollover is the calendar's next month |
| CalendarEvents.ListEventsRange | backend/app/api/v1/calendar.py:66-75 | no filter exactly without a month; a range starts on the month's first day |
| CalendarEvents.ListEventsRangeCanonical | backend/app/api/v1/calendar.py:66-75 | a well-formed month selects up to the first day of the next month, January of the next year after December |
| CalendarEvents.UpdateData | backend/app/api/v1/calendar.py:89-93 | the payload holds status and scheduled time exactly when given |
| CalendarEvents.Updated | backend/app/api/v1/calendar.py:94 | the update replaces the given columns and keeps the others |
| CalendarEvents.UpdateKeepsOtherColumns | backend/app/api/v1/calendar.py:89-94 | an update never changes a column other than status and scheduled time |
| CalendarEvents.DeleteEvent | backend/app/api/v1/calendar.py:105-120 | deleted exactly when rows were removed, 404 exactly for none, 500 exactly when the query raised |
| Benchmarks.NicheEntry | backend/app/api/v1/analysis.py:186-194 | no niche gives none; a known niche its modifier, an unknown one a neutral 1.0 |
| Benchmarks.GetBenchmarks | backend/app/api/v1/analysis.py:166-183 | unsupported exactly for an unknown platform; otherwise the lower-cased platform with its niche entry |
| Benchmarks.TierFilter | backend/app/api/v1/analysis.py:175-178 | a known tier narrows to that tier, any other size returns all tiers |
| Benchmarks.TiersFromTable | backend/app/api/v1/analysis.py:172-178 | every returned tier comes from the platform's table unchanged |
| Benchmarks.PlatformIgnoresCase | backend/app/api/v1/analysis.py:166 | the platform is matched case-insensitively |
| Benchmarks.NicheModifierBounds | backend/app/api/v1/analysis.py:155-164 | every modifier lies between 0.8 and 1.2 |
| ChatStream.Group | backend/app/api/v1/chat.py:64-65 | each chunk holds one to three words |
| ChatStream.ChunkResponse | backend/app/api/v1/chat.py:62-68 | the answer is sent in ceil(words/3) chunks of three words that together spell it exactly |
| ChatStream.OrDefault | backend/app/api/v1/chat.py:44 | an empty value is replaced by the default |
| ChatStream.StreamEvents | backend/app/api/v1/chat.py:37-107 | a typing event first; then an error event when the team fails, or chunks spelling the answer followed by a done event with the conversation id and agent type |
| ChatStream.SaveConversation | backend/app/api/v1/chat.py:85-101 | the stored messages gain the user message and the answer; a new conversation is inserted with its id, user and agent type |
| ChatStream.AuthenticateWsToken | backend/app/api/v1/chat.py:141-164 | a token authenticates exactly when the claims in use decode and have a non-empty subject, with the email and role defaults |
| ChatStream.NoSubNoUser | backend/app/api/v1/chat.py:155-157 | without a subject claim no token authenticates |
| ChatStream.CheckMessage | backend/app/api/v1/chat.py:228-234 | a null message fails, a missing one is empty, and the team only gets non-blank stripped text |
| ChatStream.CheckMessageBlank | backend/app/api/v1/chat.py:228-234 | a message is refused as empty exactly when it is all whitespace |
| PublishingTools.Credentials | backend/app/tools/publishing_tools.py:21-28 | credentials exist exactly when token and account id are both set |
| PublishingTools.PublishGuard | backend/app/tools/publishing_tools.py:55-66 | publishing proceeds exactly with credentials and an image or video type |
| PublishingTools.PublishGuardIgnoresCase | backend/app/tools/publishing_tools.py:60 | the media type is matched case-insensitively |
| PublishingTools.ContainerPayload | backend/app/tools/publishing_tools.py:73-82 | an image container carries the image URL, anything else is sent as a video |
| PublishingTools.CarouselGuard | backend/app/tools/publishing_tools.py:151-160 | a carousel proceeds exactly with credentials and 2 to 10 images |
| PublishingTools.CreateChildren | backend/app/tools/publishing_tools.py:166-183 | children are created in order until the first failure, which is reported by its 1-based position |
| PublishingTools.ScheduleGuard | backend/app/tools/publishing_tools.py:259-283 | scheduling proceeds exactly inside the window from 10 minutes to 75 days ahead; too soon and too late are told apart |
| PublishingTools.NowTimestampAsWritten | backend/app/tools/publishing_tools.py:276 | the code's current timestamp is the true one only on a UTC server |
| PublishingTools.ScheduleRefusedBehindUtc | backend/app/tools/publishing_tools.py:276-281 | on a server three hours behind UTC a post one hour ahead is refused as too soon |
| PublishingTools.NowTimestamp | backend/app/tools/publishing_tools.py:276 | the corrected timestamp is the true current time |
| PublishingTools.ScheduleWindowExact | backend/app/tools/publishing_tools.py:276-283 | with the true time, scheduling proceeds exactly from 600 seconds to 75 days ahead |
| PublishingTools.ScheduleContainerAsWritten | backend/app/tools/publishing_tools.py:289-295 | the code's payload holds image URL, caption, unpublished flag and token only |
| PublishingTools.ScheduledTimeNotSent | backend/app/tools/publishing_tools.py:289-295 | the code's payload is the same whatever time was requested |
| PublishingTools.ScheduleContainer | backend/app/tools/publishing_tools.py:286-295 | the corrected payload adds the scheduled publish time |
| PublishingTools.ScheduledTimeSent | backend/app/tools/publishing_tools.py:286-295 | the corrected payload's publish time reads back as the requested timestamp |
| PublishingTools.WaitMessagesDistinct | backend/app/tools/publishing_tools.py:371-390 | the waiting outcomes have distinct messages |
| PublishingTools.WaitForContainer | backend/app/tools/publishing_tools.py:347-390 | the polling loop computes the waiting outcome |
| PublishingTools.WaitEndsAtFirstTerminal | backend/app/tools/publishing_tools.py:365-382 | waiting ends with the first finished, error or expired status |
| PublishingTools.WaitTimesOut | backend/app/tools/publishing_tools.py:383-390 | without a terminal status in the allowed attempts waiting times out |
| PublishingTools.Permalink | backend/app/tools/publishing_tools.py:393-405 | a failed lookup or missing permalink gives the fallback text, a null one "None", a present one itself |
| ConversationHistory.FormatDate | frontend/src/components/chat/conversation-history.tsx:93-106 | a calendar day exactly from a week on, "Agora" exactly under a minute (and for future dates) |
| ConversationHistory.FormatDateReadsBack | frontend/src/components/chat/conversation-history.tsx:97-105 | every other label is a whole count of the largest passed unit (below 60, 24 or 7) and that unit's letter |
| ConversationHistory.FormatDateExamples | frontend/src/__tests__/components/conversation-history.test.tsx:80-87 | five minutes read "5m atrás" and two hours "2h atrás" |
| ConversationHistory.TruncateMessage | frontend/src/components/chat/conversation-history.tsx:108-111 | a message within the limit is unchanged; a longer one keeps its first characters and gains "..." |
| ConversationHistory.TruncatedShorterIff | frontend/src/components/chat/conversation-history.tsx:108-111 | the shown text is shorter than the message exactly when it is more than three characters over the limit |
| ConversationHistory.TruncateLongMessage | frontend/src/__tests__/components/conversation-history.test.tsx:177-199 | a 100-character message is shown shorter, as its first 50 characters and "..." |
| Rounding.RoundBetween | backend/app/services/viral_detection.py:46-48 | rounding to some places keeps a value between integer bounds |
| Rounding.RoundHalfEvenBetween | backend/app/tools/learning_tools.py:88 | rounding to an integer keeps a value between integer bounds |
| StableSort.SortDescOrdered | backend/app/services/viral_detection.py:129 | the descending sort orders by non-increasing key |
| StableSort.SortDescStable | backend/app/services/viral_detection.py:129 | the sort keeps the input order among equal keys |
| Tally.MostCommonExact | backend/app/services/viral_detection.py:198 | each most-common count is the multiplicity of its key |
| Tally.MostCommonTotal | backend/app/services/learning_service.py:38 | the most-common counts add up to the number of values |
| Text.NatToStringRoundTrip | backend/app/api/v1/calendar.py:74 | a rendered number reads back as itself |
| Text.JoinSplit | backend/app/api/v1/chat.py:62-65 | joining the words of a split gives the text back |
| Text.StripSpec | backend/app/api/v1/chat.py:228 | stripping removes exactly the leading and trailing whitespace |

## Left out

- Database and HTTP I/O (Supabase queries, Graph API, Google Books, OpenAI image calls): their results are parameters of the model.
- The thread-pool bridge that runs the learning tools' coroutines (backend/app/tools/learning_tools.py:27-35): scheduling only.
- The WebSocket loop beyond its message guard (accept, receive, send, disconnect), the chat `user_id` fallback and the context text sent to the team: I/O and string formatting.
- The cache digest (an md5 of the JSON arguments) is a parameter `digest`; `secrets.token_urlsafe` is the parameter `state`; `urlencode` is kept as the parameter record `AuthorizationParams`; the token exchanges are HTTP calls.
- ViralDetection.ToInt: Python's `int()` accepts more than the model's `Numeric` cases (strings with signs, underscores, spaces); the model has integral and unconvertible values only (a float's truncation is not modelled).
- ViralDetection.ContentItem and TrendPatterns.PoolHashtags: `hashtags` is a list of strings. In the source, a `null` value makes `list.extend(None)` raise `TypeError`, and a string value is extended character by character. The model's `seq<string>` field can express neither case.
- Text.Lower and Text.Upper map ASCII letters only; Python's `str.lower`/`str.upper` also map accented and other non-ASCII letters. The callers that fold case before comparing (ImageTools.ResolveSize, Benchmarks.NicheEntry, Benchmarks.GetBenchmarks, PublishingTools.PublishGuard) therefore treat a non-ASCII letter as itself.
- ConversationHistory.TruncateMessage counts Unicode code points; JavaScript's `length` and `substring` count UTF-16 code units, so a message with characters outside the Basic Multilingual Plane is cut at a different place.
- CalendarEvents.ListEventsRange reads each part of the month as plain digits (`ParseNat`); Python's `int()` also accepts surrounding spaces, a leading `+` and digit-separating underscores, which the model reports as `BadMonth`.
- ResponseCache.ResponseCache.Call: when the wrapped function raises, the source stores nothing and the exception propagates; the model's `f` always returns a value.
- Floating point: scores and rates are exact reals, and `round` is half-to-even on the exact value, not on the binary float.
- Benchmarks.GetBenchmarks: each tier keeps only its audience band; the engagement, reach and posting-frequency figures under it are plain data and left out.
- The books display fields (publisher, date, pages) and the text of the result lines, the quote-suggestion formatting and the topic query builder of `books_tools.py`: string formatting only.
- BooksTools.Truncate and ConversationHistory.TruncateMessage take a `nat` limit; negative lengths are not modelled.
- InstagramOAuth.CsrfStateStore.GenerateOAuthUrl: the two clock readings of the source (cleanup and issue) are one `now`.
- The `time.sleep` calls between polls: timing only; a poll reply is a function of the attempt number.
- Error messages built from exceptions (`str(e)`) are abstract cases of result datatypes; the rendered recommendation sentences are constructors of `Recommendation`.
- `toLocaleDateString` is the constructor `CalendarDay`; `strftime("%A")` is the `Weekday` datatype.
- The agent team, the memory agents, reports, webhooks and the remaining routes are outside this model.

## Findings

| source | as written | input that shows it | evidently intended | confidence | as-written member | corrected member |
|---|---|---|---|---|---|---|
| backend/app/services/instagram_oauth.py:37 | reads `settings.META_APP_ID` and `settings.META_REDIRECT_URI`, which the settings class (backend/app/config.py:8-49) does not declare, so the read raises `AttributeError` | any environment, including one that sets both variables | the Meta app id and redirect URI read from the environment, with "not configured" when unset | not executed | InstagramOAuth.MetaSettingsAsWrittenRaise | InstagramOAuth.MetaSettingsOf |
| backend/app/tools/publishing_tools.py:276 | `int(datetime.utcnow().timestamp())` reads the naive UTC time as local time, so the current timestamp is off by the server's UTC offset | a server at UTC-3 and a post scheduled one hour ahead: refused as less than 10 minutes ahead | the true current Unix time, so the window is exactly 10 minutes to 75 days ahead | not executed | PublishingTools.ScheduleRefusedBehindUtc | PublishingTools.ScheduleWindowExact |
| backend/app/tools/publishing_tools.py:286-295 | the scheduled container's payload has no publish time, although its step is described as creating the container with the publish time | two different scheduled times give the same payload | the payload carries `scheduled_publish_time` with the requested timestamp | not executed | PublishingTools.ScheduledTimeNotSent | PublishingTools.ScheduledTimeSent |
