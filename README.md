# Mental: the message-to-wellbeing-signal pipeline in Dafny

This project models the core of a student mental-health chat backend. A user's
chat message passes several stages:

- a **safety gate**: a case-insensitive crisis-phrase check that short-circuits a
  chat turn with a fixed helpline payload;
- a **heuristic analyser**: lexicon hit counts turned into sentiment, mood,
  stress, anxiety and energy on a 0-10 scale, plus keyword and topic lists;
- a **sanitiser** for model-produced analyses: a two-stage JSON extraction,
  range checks, sentiment coercion and list truncation;
- **daily scores**, kept in two divergent ways: a real-time upsert that
  overwrites the metrics with the latest message's values, and a batch
  recomputation that averages a day's analyses;
- **daily insights**, built from threshold rules over the newest five score rows;
- a **nightly job** that recomputes yesterday's score of every active user;
- a **mood classifier** and the **chat analytics** of the mental-health routes:
  the context prompt, topics, mood words, progress tiers, recommendations and
  the streaming line assembler;
- the **query logic** of the insight, graph, day-view and chat-history routes,
  and the optional **Redis cache**.

The MongoDB collections (messages, analyses, chat turns, score rows and
insights) are the fields of one class, `Store.Db`. The score and insight
collections are maps keyed by `(userId, date)`, which is their unique index.
Route handlers that write to the store are methods on it. Pure helpers are
functions, with lemmas about them. The chat-history rows of the PostgreSQL and
Sequelize stores are sequences.

Everything outside the process is a parameter:

- the clock (`now`, `today`);
- the UTC day of a timestamp (`dayOf`);
- the language model's reply (`Option<string>`, `None` when the call fails);
- `JSON.parse`, as a partial function returning `Option`;
- whether a store or cache call throws;
- fresh identifiers.

Lower-casing is ASCII only.

Modules, one per source file or concern:

| module | what it holds |
|---|---|
| `Wrappers`, `Text`, `Json`, `Sorting` | general support |
| `Records` | the schemas |
| `Safety` | the safety gate |
| `Heuristic` | the analyser |
| `HeuristicExamples` | worked inputs for the analyser |
| `ModelOutput` | `utils/analyzeMessage.js` |
| `Aggregation` | scores and averages |
| `Store` | the collections |
| `InsightRules` | the daily insight |
| `DailyScores` | `utils/dailyScores.js` |
| `DailyJob` | the nightly job |
| `MoodDetection` | the mood classifier |
| `ChatRoutes` | `routes/chat.js` |
| `Insights` | `routes/insights.js` |
| `MentalHealth` | `routes/mentalhealth.js` |
| `ChatHistory` | `routes/chatHistory.js` |
| `Cache` | `config/redis.js` |

## Model

| member | source | states |
|---|---|---|
| Safety.SafetyCheckIff | middleware/safetyCheck.js:2-3 | the gate fires exactly when some listed phrase occurs in the lower-cased message |
| Safety.DangerWordsLowerCase | middleware/safetyCheck.js:2 | every listed phrase is already lower case, so only the message needs lowering |
| Safety.SafetyCheckIgnoresCase | middleware/safetyCheck.js:3 | two messages that agree after lower-casing get the same verdict |
| Safety.SafetyCheckMonotone | middleware/safetyCheck.js:3 | any text containing a triggering message also triggers |
| Safety.EmptyNeverTriggers | middleware/safetyCheck.js:2-3 | the empty message never triggers, since no phrase is empty |
| Safety.DieSubsumesWantToDie | middleware/safetyCheck.js:2 | "die" subsumes "want to die": dropping the longer phrase changes no verdict |
| Safety.StudiedTriggers | middleware/safetyCheck.js:2-3 | the false positive "I studied" triggers the gate |
| Safety.DietTriggers | middleware/safetyCheck.js:2-3 | the false positive "diet" triggers the gate |
| Records.MoodOfLabel | models/Chat.js:7 | parses exactly the six mood labels of the enum |
| Records.MoodLabelRoundTrip | models/ChatMessage.js:10 | label and mood convert into each other without loss |
| Records.SenderOf | models/ChatMessage.js:6 | accepts exactly "user" and "bot" |
| Records.NewChatMessage | models/ChatMessage.js:3-13 | creation succeeds iff the user id is set and casts to an ObjectId, the trimmed message is non-empty and the sender is in the enum; a user id that does not cast fails the create; the stored message is trimmed, stamped with the creation time and carries the default meta |
| Records.SentimentOf | models/MessageAnalysis.js:5 | parses exactly the three sentiment labels |
| Records.TrimAll | models/MessageAnalysis.js:10-11 | the trim setter applied element-wise |
| Records.TrimAllTrimmed | models/MessageAnalysis.js:10-11 | every stored list element is trimmed |
| Records.NewAnalysis | models/MessageAnalysis.js:3-14 | creation succeeds iff every present metric is within 0-10; the stored lists are trimmed |
| Heuristic.Matching | routes/chat.js:87-88 | the lexicon words occurring as substrings of the text, in lexicon order, at most one per word |
| Heuristic.MatchingAppend | routes/chat.js:100 | matching against two lists concatenated is the concatenation of the matches |
| Heuristic.Dedup | routes/chat.js:100 | `new Set` keeps the same members without repeats and is the identity on a repeat-free list |
| Heuristic.SentimentOfHits | routes/chat.js:90-92 | negative iff more negative hits, positive iff more positive hits, neutral on a tie |
| Heuristic.AnalyzeAsWritten | routes/chat.js:83-107 | the analyser as written: stress and anxiety within 0-10, energy 3 iff "tired" occurs and 6 otherwise, mood at least 0, at most 4 when negative and at least 8 when positive; the keywords and topics are exactly the lexicon words that occur |
| Heuristic.MoodOverflowIff | routes/chat.js:97 | the written scores leave the 0-10 scale exactly when the sentiment is positive with four or more positive hits |
| Heuristic.Analyze | routes/chat.js:95-98 | the corrected analyser: always in range, equal to the written one whenever that is in range, differing from it only in mood, and giving mood 10 wherever the written mood passes 10 |
| Heuristic.AnalysisRecord | routes/chat.js:109-122 | the record created carries the message id, the scores and the creation time |
| Heuristic.AnalysisRecordAccepted | routes/chat.js:109-122 | the schema accepts the heuristic record iff its scores are in range |
| Heuristic.KeywordsNeedNoDedup | routes/chat.js:100 | the keyword list equals the plain matches, since the lexicon has no repeats |
| Heuristic.StressedCountsTwice | routes/chat.js:84-87 | "stressed" makes both "stress" and "stressed" hit, so it counts twice |
| HeuristicExamples.WorkedExample | routes/chat.js:87-107 | "I feel stressed and tired about work" gives negative sentiment, mood 2, anxiety 3, stress 6, energy 3, keywords [stress, stressed, tired] and topics [work] |
| HeuristicExamples.OverflowTrimmed | models/ChatMessage.js:6 | "happy calm relaxed grateful" is stored unchanged by the trimming create |
| HeuristicExamples.OverflowExample | routes/chat.js:97 | "happy calm relaxed grateful" gives mood 11 as written, which is out of range; the corrected analyser gives 10 |
| ModelOutput.BraceSlice | utils/analyzeMessage.js:48-51 | a slice exists iff some '}' follows the first '{'; it starts with '{' and ends with '}' |
| ModelOutput.BraceSliceOutermost | utils/analyzeMessage.js:48-51 | the slice starts at the first '{', with no '{' before it and no '}' after it |
| ModelOutput.BraceOrder | utils/analyzeMessage.js:50 | the slice condition is the source's `start !== -1 && end > start` |
| ModelOutput.Parsed | utils/analyzeMessage.js:42-58 | the strict parse wins; otherwise the parse of the brace slice; otherwise nothing |
| ModelOutput.ExtractJson | utils/analyzeMessage.js:42-58 | the two-stage extraction computes `Parsed` |
| ModelOutput.Safe | utils/analyzeMessage.js:66-67 | keeps a number iff it is within 0-10; anything else becomes unset |
| ModelOutput.SentimentField | utils/analyzeMessage.js:69-72 | an allowed sentiment label is kept; anything else becomes neutral |
| ModelOutput.ListField | utils/analyzeMessage.js:81-86 | a non-array becomes []; an array is cut to its first 25 items |
| ModelOutput.Candidate | utils/analyzeMessage.js:74-88 | the record built from the parsed object: every metric in scale, each field sanitised |
| ModelOutput.CandidateAccepted | utils/analyzeMessage.js:74-88 | the schema always accepts the sanitised record |
| ModelOutput.FromData | utils/analyzeMessage.js:74-88 | the created record is valid, with trimmed lists; creation fails only on a list item the schema cannot cast |
| ModelOutput.ModelAnalysis | utils/analyzeMessage.js:11-88 | no record without a document, a message or a model reply, or when both parses fail or give a falsy value; a truthy parse gives exactly `FromData`'s record (none iff a list entry does not cast); any record is valid and belongs to the message |
| ModelOutput.AnalyzeMessage | utils/analyzeMessage.js:11-94 | appends exactly the record computed by `ModelAnalysis` and changes no other collection |
| Aggregation.MathRound | routes/chat.js:143-145 | `Math.round`: the nearest integer, halves rounded up |
| Aggregation.RoundQuarter | routes/chat.js:143-145 | rounding a quarter of an integer sum is `(sum + 2) div 4` |
| Aggregation.IntOverall | routes/chat.js:143-145 | the real-time overall score is within 0-10 for in-range metrics |
| Aggregation.RealtimeUpsert | routes/chat.js:131-151 | the upsert increments the message count by exactly one and overwrites the four metrics and the overall score with this message's values |
| Aggregation.RealtimeUpsertStored | routes/chat.js:131-151 | the upserted row satisfies the score schema |
| Aggregation.Round2 | utils/dailyScores.js:64-66 | the result has at most two decimals and lies within half a hundredth of the value (which fixes it), and 0-10 values stay in 0-10 |
| Aggregation.Numbers | utils/dailyScores.js:54-55 | keeps exactly the numeric entries |
| Aggregation.SumBounds | utils/dailyScores.js:56-57 | a sum of values within [lo, hi] lies within [n·lo, n·hi] |
| Aggregation.Avg | utils/dailyScores.js:54-58 | 0 when no entry is numeric; otherwise the mean to two decimals; within 0-10 when every entry is |
| Aggregation.MeanInScale | utils/dailyScores.js:54-58 | the mean of in-scale values is in scale |
| Aggregation.Column | utils/dailyScores.js:18-21 | one metric per analysis, in order |
| Aggregation.ColumnAvgInScale | utils/dailyScores.js:23-26 | each day's metric average is within 0-10 |
| Aggregation.RealOverall | utils/dailyScores.js:27 | the batch overall score is in scale and within half a hundredth of the exact value |
| Aggregation.BatchScore | utils/dailyScores.js:20-41 | no row without analyses; otherwise a valid row whose count is the number of analyses and whose metrics are their two-decimal means |
| Aggregation.BatchOverall | utils/dailyScores.js:32 | the batch row's overall is `round2` of the quarter sum of its stored means, anxiety and stress inverted |
| Aggregation.MeanOfTwoAndEight | utils/dailyScores.js:54-58 | the average of 2 and 8 is 5 |
| Aggregation.RealtimeAndBatchDiverge | routes/chat.js:131-151 | for two messages with moods 2 and 8 both forms count 2, but the live mood is 8 and the batch mood is 5 |
| Store.Db.constructor | models/MentalHealthScore.js:17 | an empty store, with the keyed collections unique by construction |
| Store.Db.InsertMessage | models/ChatMessage.js:3-13 | appends the message and returns its id; nothing else changes |
| Store.Db.InsertAnalysis | models/MessageAnalysis.js:3-14 | appends the analysis; nothing else changes |
| Store.Db.InsertChat | models/Chat.js:3-9 | appends the chat turn; nothing else changes |
| Store.Db.PutScore | models/MentalHealthScore.js:3-17 | writes the row under its (userId, date) key; nothing else changes |
| Store.Db.PutInsight | models/DailyInsight.js:3-17 | inserts an insight under a free (userId, date) key; nothing else changes |
| InsightRules.InsertByDate | routes/chat.js:158 | inserting a row into a newest-first list keeps it newest first and adds exactly that row |
| InsightRules.MetricSumBounds | routes/chat.js:161-163 | a window's metric sum, with a missing value read as 0, is within 0 and 10 per row |
| InsightRules.RoundedAvg | routes/chat.js:161-163 | a rounded window average of in-scale values is within 0-10 |
| InsightRules.MeanOfScaleInScale | routes/chat.js:161-163 | the unrounded window average is within 0-10 |
| InsightRules.MapAdvice | routes/chat.js:176-178 | one recommendation per negative note, in the same order |
| InsightRules.BuildNotes | routes/chat.js:165-179 | the three note lists computed by the threshold rules |
| InsightRules.RecommendationsFollowNegatives | routes/chat.js:170-179 | the default recommendation exactly when no negative fires; otherwise one recommendation per negative, in order |
| InsightRules.FiveIsSilent | routes/chat.js:165-173 | an average of exactly 5 yields neither note for that metric |
| InsightRules.NeverBoth | routes/chat.js:165-173 | no metric gets both a positive and a negative note |
| InsightRules.InsightOf | routes/chat.js:181-189 | the insight carries the notes of the window's averages, the generated flag and the summed message count |
| ChatRoutes.PrefixIsWindow | routes/chat.js:158 | the first n rows of a user's newest-first list are the newest n rows |
| ChatRoutes.RowsNewestFirst | routes/chat.js:158 | lists every score row of the user exactly once, newest date first |
| ChatRoutes.RecentScores | routes/chat.js:158 | `find({userId}).sort({date:-1}).limit(n)` returns the user's n newest rows |
| ChatRoutes.ScoreAt | routes/insights.js:90 | the row stored under the key, or null |
| ChatRoutes.UpsertDailyScore | routes/chat.js:131-151 | the store's row for (user, today) becomes the real-time upsert of its previous value |
| ChatRoutes.MaybeGenerateDailyInsight | routes/chat.js:153-190 | creates an insight iff none exists for (user, today) and the user has a score row; it is built from the newest five rows; otherwise nothing changes |
| ChatRoutes.HeuristicAnalysis | routes/chat.js:109-122 | `create` on the record built from the scores as written: refused iff the written mood passes 10; otherwise the corrected record |
| ChatRoutes.CappedAnalysis | routes/chat.js:109-122 | the corrected record, from the capped scores, which the schema always accepts |
| ChatRoutes.RecordCapped | routes/chat.js:109-124 | the corrected steps: appends the capped analysis and upserts today's score row from the capped scores |
| ChatRoutes.AnalyzeCapped | routes/chat.js:81-129 | the corrected pipeline: the capped analysis appended and today's row upserted; an insight for (user, today) then exists, and an existing one is left untouched |
| ChatRoutes.MetricsOf | routes/chat.js:124 | in-range scores give in-range metrics |
| ChatRoutes.RecordHeuristic | routes/chat.js:109-124 | as written: when `create` throws nothing is written; otherwise the analysis is appended and today's score row upserted from the written scores |
| ChatRoutes.AnalyzeHeuristic | routes/chat.js:72-129 | as written: when `create` throws, no analysis, score row or insight is written (the error is only logged); otherwise the analysis is appended, today's row upserted and an insight for (user, today) then exists, an existing one left untouched |
| ChatRoutes.OverflowNotAnalysed | routes/chat.js:69-126 | posting "happy calm relaxed grateful" stores the message as given and its analysis is refused, so nothing else is written |
| ChatRoutes.ChatAnswer | routes/chat.js:13-59 | 400 iff user id or message is missing; the crisis payload iff the gate fires; the error goes to `next` iff the save throws (a user id that is no ObjectId, or a failing database); otherwise the detected mood and the model reply or the fixed fallback |
| ChatRoutes.PostChat | routes/chat.js:13-59 | saves a chat turn exactly for an answered request, with its reply and mood; nothing is saved on a 400, a crisis or a failed save |
| ChatRoutes.PostMessage | routes/chat.js:62-79 | 400 on a missing field; 500 iff the schema refuses the message, a user id that is no ObjectId included; when `create` accepts a saved user message's analysis, the analysis is appended, today's row becomes the real-time upsert of its old value with the written scores of the trimmed message, and an insight for (user, today) exists, an existing one left untouched; when `create` refuses it nothing more is written; a bot message gets none |
| ChatRoutes.ClampDays | routes/insights.js:51 | `Math.min(Math.max(parseInt(days) \|\| fallback, 1), 90)`: always within 1-90; an in-range number is kept; absent, unparsable or 0 falls back |
| ChatRoutes.ClampDaysWritten | routes/chat.js:202 | a day count written as digits within 1-90 reads back unchanged |
| ChatRoutes.Recent | routes/chat.js:207-210 | exactly the user's messages since the cut-off, with their ids |
| ChatRoutes.LastAnalysisIndex | routes/chat.js:218-221 | the last analysis of the message, -1 when it has none |
| ChatRoutes.LastAnalysis | routes/chat.js:218-225 | null iff the message has no analysis; otherwise the last one written for it, as the reduce keeps |
| ChatRoutes.Attach | routes/chat.js:223-226 | each message paired with its analysis lookup, in order |
| ChatRoutes.HistoryNewestFirst | routes/chat.js:211 | the returned messages are newest first |
| ChatRoutes.HistorySound | routes/chat.js:207-226 | every returned row is a message of the user since the cut-off, with its analysis |
| ChatRoutes.HistoryComplete | routes/chat.js:207-212 | every message of the user since the cut-off is returned |
| ChatRoutes.History | routes/chat.js:193-235 | 400 iff the user id is missing; otherwise the clamped day range, the rows and their count |
| DailyScores.DayAnalyses | utils/dailyScores.js:14-19 | exactly the analyses of the user's messages created on the day |
| DailyScores.DayOrToday | utils/dailyScores.js:11 | the given date, or today when it is empty |
| DailyScores.Recalculated | utils/dailyScores.js:10-52 | only the (user, day) row changes; it becomes the batch score when the day has analyses and is untouched otherwise |
| DailyScores.RecalculateIdempotent | utils/dailyScores.js:45-49 | recomputing twice equals recomputing once |
| DailyScores.NoAnalysesNoRow | utils/dailyScores.js:20 | without analyses the score rows are unchanged |
| DailyScores.CalculateDailyScore | utils/dailyScores.js:10-52 | returns the batch score and writes exactly the recomputed rows |
| DailyJob.ActiveUsers | cron/dailyScoresCron.js:17-19 | each user with a message on the day, once |
| DailyJob.JobScoresEffect | cron/dailyScoresCron.js:26-37 | every handled user whose recomputation succeeds gets the day's batch score; every other row is unchanged; a failing user does not stop the rest |
| DailyJob.RunDailyJob | cron/dailyScoresCron.js:8-43 | yesterday's date, the distinct active users, and the score rows after the per-user loop |
| MoodDetection.KeywordMood | utils/moodDetection.js:19-25 | the first keyword group that matches decides, in the order happy, sad, anxious, stressed, angry; otherwise neutral |
| MoodDetection.DetectMood | utils/moodDetection.js:3-27 | the trimmed, lower-cased model reply when it is a label, neutral for any other reply, the keyword fallback when the call fails |
| MoodDetection.KeywordMoodIgnoresCase | utils/moodDetection.js:19 | the fallback ignores letter case |
| MoodDetection.DetectMoodIsLabel | utils/moodDetection.js:13-15 | the result is always one of the six labels |
| MoodDetection.UnhappyIsHappy | utils/moodDetection.js:20-21 | "unhappy" is classified happy, because the happy group is tried first |
| MoodDetection.PaddedReplyAccepted | utils/moodDetection.js:13 | the reply " Sad\n" is accepted as sad |
| Insights.UserChats | routes/insights.js:18 | exactly the user's chat turns |
| Insights.LatestChats | routes/insights.js:18 | the user's turns, newest first, at most 50: a sub-multiset of the user's turns, and all of them when there are at most 50 |
| Insights.LatestChatsNewest | routes/insights.js:18 | the kept turns are the newest: any turn of the user left out is no newer than every kept one |
| Insights.MoodCounts | routes/insights.js:19-22 | one key per mood that occurs, holding its number of turns |
| Insights.MoodCountsSum | routes/insights.js:19-22 | every turn is counted under exactly one mood |
| Insights.MoodCountsTotal | routes/insights.js:19-22 | the counts add up to the number of turns fetched |
| Insights.MoodTrends | routes/insights.js:12-25 | every key is a mood label with a positive count |
| Insights.ReverseIsChronological | routes/insights.js:59 | reversing the newest-first rows puts the dates in increasing order |
| Insights.GraphOf | routes/insights.js:61-69 | seven arrays of equal length, entry i taken from row i |
| Insights.Graphs | routes/insights.js:42-75 | 400 iff the user id is missing; otherwise the newest `days` rows, reversed into increasing date order, with their count and graph |
| Insights.ShapeOnly | routes/insights.js:86-93 | the date check is on shape only: "2024-13-45" passes it and is no date, "2024-05-17" passes and is one, and "2024-1-05" fails it |
| Insights.DayMessages | routes/insights.js:92-97 | exactly the user's messages within the UTC day |
| Insights.CalendarDay | routes/insights.js:92-93 | the calendar day `new Date` gives a well-formed date: a real date of the same year and the same day of the year, the date itself iff its day exists in its month |
| Insights.RollOverApril | routes/insights.js:92-93 | "2024-04-31" falls on 1 May |
| Insights.RollOverFebruary | routes/insights.js:92-93 | "2023-02-30" falls on 2 March |
| Insights.LeapDayStays | routes/insights.js:92-93 | "2024-02-29" is a day of its own |
| Insights.DayView | routes/insights.js:77-114 | 400 for a missing user id, then 400 for a badly shaped date, then 500 for a well-shaped text that is no date (month outside 01-12 or day outside 01-31); otherwise the score row and the insight (or null) stored under the date as written, and the messages of the day the date falls on, a day past its month's end rolled over, oldest first, with their count |
| Insights.DayViewRollsOver | routes/insights.js:86-108 | "2024-04-31" answers with the user's messages of 1 May and the score row stored under "2024-04-31" |
| MentalHealth.Blocks | routes/mentalhealth.js:27-28 | one "User/Assistant" block per entry, in order |
| MentalHealth.TranscriptOfOne | routes/mentalhealth.js:27-29 | one entry gives one block |
| MentalHealth.TranscriptOldestFirst | routes/mentalhealth.js:27-29 | the transcript begins with the oldest entry, after the reversal of the newest-first history |
| MentalHealth.ContextPrompt | routes/mentalhealth.js:25-34 | the first-message prompt without history; otherwise the transcript framed by the context text |
| MentalHealth.Chat | routes/mentalhealth.js:8-74 | 400 iff the message is empty; 500 iff the model call fails; otherwise the model's reply, the given or a fresh session id, and the context size; saved iff the save does not fail |
| MentalHealth.SaveFailureSwallowed | routes/mentalhealth.js:49-58 | a failing save does not change the reply |
| MentalHealth.MentionCount | routes/mentalhealth.js:114-116 | at most the number of entries |
| MentalHealth.Found | routes/mentalhealth.js:113-120 | exactly the keywords with at least one mention, with their counts |
| MentalHealth.Take | routes/mentalhealth.js:122 | `slice(0, n)` |
| MentalHealth.CutKeepsLargest | routes/mentalhealth.js:122 | an item cut from a descending list is no larger than every kept item |
| MentalHealth.TopicsOfSound | routes/mentalhealth.js:109-123 | at most five topics, each a keyword with its mention count, in decreasing order of mentions |
| MentalHealth.TopicsOfComplete | routes/mentalhealth.js:109-123 | a mentioned keyword is missing only when five topics with at least as many mentions are listed |
| MentalHealth.ExtractCommonTopics | routes/mentalhealth.js:109-123 | the loop over the keywords computes the specified topic list |
| MentalHealth.WordHits | routes/mentalhealth.js:134-135 | at most the number of words |
| MentalHealth.HitTotalBound | routes/mentalhealth.js:132-136 | the total is at most entries × words |
| MentalHealth.Ratio | routes/mentalhealth.js:138 | "0%" (none) iff there is no hit; otherwise the positive share of the hits as a percentage, within 0-100 |
| MentalHealth.RatioZeroCases | routes/mentalhealth.js:138 | no hits gives "0%"; negatives only gives 0; one positive in four gives 25 |
| MentalHealth.ExtractMoodKeywords | routes/mentalhealth.js:126-139 | the loop computes the positive and negative totals and their ratio |
| MentalHealth.CalculateProgress | routes/mentalhealth.js:357-362 | the four tiers at 5, 15 and 30 sessions |
| MentalHealth.ProgressMonotone | routes/mentalhealth.js:357-362 | more sessions never lower the tier |
| MentalHealth.AnyStress | routes/mentalhealth.js:374-377 | true iff some entry mentions "stress" or "anxious" |
| MentalHealth.AdviceDistinct | routes/mentalhealth.js:380-389 | the three advice texts differ |
| MentalHealth.RecommendationsSpec | routes/mentalhealth.js:365-394 | welcome for no history, engage below five; otherwise stress advice iff one of the newest seven mentions stress, return advice iff more than 7 days have passed, today advice iff 0 days have passed |
| MentalHealth.GenerateRecommendations | routes/mentalhealth.js:365-394 | computes the specified recommendations |
| MentalHealth.HistoryView | routes/mentalhealth.js:77-106 | the analytics (count, first and last timestamps, the rounded mean length, topics, mood words) and the history oldest first |
| MentalHealth.Lines | routes/mentalhealth.js:180 | no line kept is blank |
| MentalHealth.NonBlank | routes/mentalhealth.js:180 | keeps exactly the non-blank lines |
| MentalHealth.Piece | routes/mentalhealth.js:183-191 | a line yields text iff it parses with a non-empty string `response`, and that text is the response |
| MentalHealth.LinePieces | routes/mentalhealth.js:182-192 | only non-empty pieces are written |
| MentalHealth.ChunkPieces | routes/mentalhealth.js:179-193 | only non-empty pieces are written |
| MentalHealth.StreamChat | routes/mentalhealth.js:148-213 | 400 iff the message is empty; a stream error iff the request fails; otherwise the pieces written, chunk by chunk, and their concatenation |
| MentalHealth.WriteLines | routes/mentalhealth.js:182-192 | the loop over one chunk's lines appends its pieces and keeps the full response in step |
| MentalHealth.SplitLineIsLost | routes/mentalhealth.js:179-193 | a JSON line split across two chunks is dropped, though the same line in one chunk is written |
| MentalHealth.BufferedPieces | routes/mentalhealth.js:179-193 | the corrected assembler, splitting the whole stream into lines, writes only non-empty pieces |
| MentalHealth.BufferedKeepsSplitLine | routes/mentalhealth.js:179-193 | the corrected assembler writes a split line once, as if it were unsplit |
| MentalHealth.BufferedIgnoresChunking | routes/mentalhealth.js:179-193 | the corrected output depends only on the concatenated stream |
| ChatHistory.WhereOf | routes/chatHistory.js:38-41 | always the user; the session only when it is given and non-empty |
| ChatHistory.Select | routes/chatHistory.js:45-47 | exactly the rows matching the where clause |
| ChatHistory.SelectScopedToUser | routes/chatHistory.js:38-41 | never another user's row; without a session every row of the user |
| ChatHistory.Offset | routes/chatHistory.js:43 | page 1 starts at 0; offsets are non-negative for page ≥ 1 |
| ChatHistory.OffsetStep | routes/chatHistory.js:43 | consecutive pages start `limit` rows apart |
| ChatHistory.TotalPages | routes/chatHistory.js:57 | null iff the limit is 0; otherwise the ceiling of count / limit |
| ChatHistory.Window | routes/chatHistory.js:48-49 | `OFFSET … LIMIT …`: at most `limit` rows starting at the offset |
| ChatHistory.RowOnItsPage | routes/chatHistory.js:43-49 | row i of the ordered result is on page i div limit + 1 |
| ChatHistory.PageOf | routes/chatHistory.js:45-58 | at most `limit` of the selected rows, newest first, with the total and the page count |
| ChatHistory.History | routes/chatHistory.js:34-66 | 500 iff the limit or the offset is negative; otherwise the page of the selected rows |
| ChatHistory.HistoryScoped | routes/chatHistory.js:38-50 | every row shown belongs to the user (and to the session when given), and no more than the limit are shown |
| ChatHistory.DefaultFirstPage | routes/chatHistory.js:36 | without parameters the page is page 1 of the newest 50 rows |
| ChatHistory.DeleteSession | routes/chatHistory.js:96-101 | removes exactly the user's rows of the session |
| ChatHistory.DeleteSparesOthers | routes/chatHistory.js:96-101 | another user's rows are unchanged, even under the same session id |
| Cache.EnabledByConfigIff | config/redis.js:3 | caching is enabled exactly when the variable spells "true" in any letter case |
| Cache.RetryDelay | config/redis.js:13-19 | give up (null) exactly after the fifth retry |
| Cache.RetryDelayLinear | config/redis.js:13-19 | within five retries the delay is 500 ms per attempt, below the 3000 ms cap |
| Cache.TotalBackoff | config/redis.js:13-19 | the retries wait 7.5 s in all before the sixth gives up |
| Cache.Lookup | config/redis.js:43 | the stored text, or null for a missing key |
| Cache.SafeParse | config/redis.js:36-38 | the parsed value, or null on a missing value or a parse failure |
| Cache.SetThenGet | config/redis.js:40-53 | a value written reads back unchanged when serialiser and parser agree |
| Cache.DelThenGet | config/redis.js:40-58 | after deletion a read gives null |
| Cache.Cache.constructor | config/redis.js:3-8 | a client exists iff the configuration enables caching; the reason starts as "Disabled by config" |
| Cache.Cache.Retry | config/redis.js:13-19 | returns the back-off and records the give-up reason when it gives up |
| Cache.Cache.ConnectFailed | config/redis.js:26-31 | a failed connection drops the client |
| Cache.Cache.Get | config/redis.js:40-46 | null without a client or on a throwing call; otherwise the parsed stored value |
| Cache.Cache.Set | config/redis.js:48-53 | stores the serialised value with its expiry (300 s by default); a no-op without a client or on a throwing call |
| Cache.Cache.Del | config/redis.js:55-58 | removes the key; a no-op without a client or on a throwing call |
| Text.TrimUnicodeSpace | utils/moodDetection.js:13 | trimming cuts JavaScript's Unicode white space too: a lone no-break space trims to nothing, a trailing byte order mark is dropped |
| Sorting.SortDesc | routes/mentalhealth.js:122 | a descending sort: a permutation of the input, ordered by the key |
| Sorting.Reverse | routes/insights.js:59 | entry i is entry n-1-i of the input |

## Left out

- The network, the language-model servers, MongoDB, PostgreSQL and Redis are not modelled. Their answers are parameters, and each write is atomic.
- `JSON.parse` and `JSON.stringify` are parameters. Floating-point representation, `NaN` and `toFixed` formatting are left out: reals stand for JavaScript numbers, and `MentalHealth.Ratio` returns the percentage as a real, with none for "0%".
- The `raw` field of an analysis (the model output and hit counts) is not stored. It is free-form and no route reads it.
- The analysis started by POST `/message` runs detached in the source. `ChatRoutes.PostMessage` runs it to completion before answering. The refused `create` is modelled; a database failure of the later upsert or insight steps is not.
- `ChatRoutes.PostMessage`: a database failure of `ChatMessage.create` (a 500 in the source) is not modelled; only the schema's refusals are.
- `today` is taken once per request. The source reads the clock separately in the upsert and in the insight check, which can differ across midnight.
- Day arithmetic: the UTC day of a timestamp is a parameter. The `setDate` local-time step of `routes/chat.js:204-205` is a subtraction of whole days.
- `ChatRoutes.UpsertDailyScore`: requires the metrics to be in range. The update itself runs no validators (`findOneAndUpdate` is given only `upsert` and `new`), so the range is not checked there. The requirement holds at the only call sites: the upsert runs after `create` has accepted an analysis with the same scores.
- `DailyJob.ActiveUsers`: returns the users in order of their first message that day. The database's `distinct` order is unspecified.
- `DailyJob.RunDailyJob`: a failure of the `distinct` query itself is not modelled. Per-user failures are a set parameter.
- The cron schedule (`cron/dailyScoresCron.js:46-48`) is left to the caller. The job writes score rows only and generates no insight.
- `ChatRoutes.ChatAnswer`: when the model answers without a `response` field, the reply is taken to be the given text. The source would store `undefined`.
- The cache-hit path of the mood-trend route (`routes/insights.js:16-17`) is not modelled. It passes an already parsed value back through `JSON.parse`. Only the cache-miss path is modelled, with the cache itself in `Cache`.
- `Cache.Cache.Set`: expiry of the stored keys is not modelled (no clock); the expiry is only recorded.
- `MentalHealth.Piece`: a `response` field that is truthy but not a string is treated as no piece. The source would append its string form.
- `ChatHistory.History`: non-numeric query parameters and `parseInt` of strings are not modelled; the parameters arrive as integers.
- `MentalHealth.HistoryView`: a failing or empty `getChatHistory` result is not distinguished. The history is given as a sequence of entries, and the model of `models/ChatHistory.js` is not part of this model.
- Sorting.SortDesc: says nothing about the order of ties. `Array.prototype.sort` keeps ties in input order, while `ORDER BY` does not promise any order, so no contract depends on it.
- The dashboard, journal, check-in, goal, appointment, profile and onboarding routes are not part of this model. Nor are the HTML viewer, the debug dump, the `/sessions` and `/store` endpoints, rate limiting and authentication. `crypto.randomUUID` is a `freshId` parameter.
- The journal insight route (`routes/insights.js:29-40`) is not modelled.
- Unicode case folding: lower-casing is ASCII only.
- `MentalHealth.HistoryView`: `.length` counts UTF-16 code units in the source; the model counts characters, so a message with characters outside the Basic Multilingual Plane has a smaller length here.
- User ids in queries: every collection but the chat-history store types `userId` as an ObjectId, so a query with an id that does not cast throws and the route answers 500. The read routes (`ChatRoutes.HistoryRows`, `Insights.Graphs`, `Insights.DayView`, `Insights.MoodTrends`, `DailyScores.CalculateDailyScore`) treat such an id as one that matches no row. Only the creates (`Records.NewChatMessage`, `ChatRoutes.PostChat`) model the cast.
- `Cache.Cache.Retry`: `config/redis.js:9` passes the options object, and so `retryStrategy`, only when `REDIS_URL` is unset. With `REDIS_URL` set, the client keeps ioredis's own retry policy, and the back-off and the give-up reason modelled here do not apply.

## Findings

| source | as written | input that shows it | evidently intended | confidence | as-written member | corrected member |
|---|---|---|---|---|---|---|
| routes/chat.js:97 | positive mood is `7 + posHits`, never capped, so the analysis the schema refuses (max 10) is lost, together with the score upsert and insight that follow it | "happy calm relaxed grateful": four positive hits, mood 11 | mood capped at 10 like the other metrics | high, not executed | Heuristic.AnalyzeAsWritten, HeuristicExamples.OverflowExample, Heuristic.AnalysisRecordAccepted, ChatRoutes.HeuristicAnalysis, ChatRoutes.AnalyzeHeuristic, ChatRoutes.OverflowNotAnalysed | Heuristic.Analyze, ChatRoutes.CappedAnalysis, ChatRoutes.AnalyzeCapped |
| routes/mentalhealth.js:179-193 | each network chunk is split into lines on its own, so a JSON line cut across two chunks fails to parse in both halves and its text is dropped | chunks `{"response":"Hi` and `"}` | buffer the partial last line until the next chunk | medium, not executed | MentalHealth.SplitLineIsLost | MentalHealth.BufferedPieces, MentalHealth.BufferedKeepsSplitLine |
