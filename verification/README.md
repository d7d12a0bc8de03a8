# Fitness backend core, modelled in Dafny

This project models the request handlers of a FastAPI + MongoDB fitness backend:

- AI diet plans: the reply clean-up, the seven dated days and the stored plan.
- Diet progress rollups: daily, weekly and monthly.
- The diet chart: the 15 latest calorie entries and the consistency and adherence percentages.
- AI workout plans: delete-then-insert, list and delete.
- The two AI progress reports and their date-range queries.
- The two meal-log handlers, user profiles, and registration and login.

Each source file becomes one module. The handlers take the database collections they read as
sequences. They take the collections they write as a `Collection` object, whose `docs` field the
methods reassign. Each handler's `ensures` states its response and the new collection contents
for every branch of the source, including the branches where an exception ends the request. The lemmas beside it prove the properties those handlers promise:
- uniqueness invariants kept;
- round trips through the text clean-ups;
- sums, bounds and partitions of the rollups;
- ordering of the chart selection.

Some things are outside Dafny or depend on the environment. The handlers take each of these as a parameter:
- the AI service's reply. The diet and workout-plan handlers take the reply text itself (`aiReply`); the progress handlers take a function from the prompt's contents to the reply text. The service never raises: on failure it answers one of two fixed error texts, `Gemini.NotInitializedReply` and `Gemini.CallFailedReply`;
- `json.loads`;
- date parsing;
- the month label;
- password hashing and verification;
- token creation;
- today's date;
- new document ids.

An exception that escapes a handler is the `InternalError` response, which FastAPI answers with 500.
A `Detail` response is an `HTTPException`. An `Enveloped` response is an `api_response` envelope.
`api_response` encodes its envelope with `json.dumps` at once (`Responses.CallApiResponse`), so
the handlers that pass a stored profile, a stored workout plan or `WorkoutPlanDay` models raise
there: every stored profile and plan carries its `created_at` datetime.

Numbers:
- Adherence and percentages are held in hundredths, as integers.
- Python's `round(x, 2)` becomes a round-half-up division (`Rounding.RoundDiv`).

Dates:
- Diet-plan dates are day numbers.
- The chart's dates and the range filters compare the stored date strings character by character (`Text.LexLe`), as MongoDB and Python compare them.

Two behaviours of the code are kept as written:
- The weekly average adherence divides by 7, whatever the number of days.
- The diet reply extractor only finds text between braces. A reply that is a bare JSON array is rejected.

## Model

| member | source | states |
|---|---|---|
| Responses.ApiResponse | app/utils/api_response.py:5-14 | the envelope has exactly message, status, success and data as passed; the HTTP status equals the envelope's status |
| Responses.CallApiResponse | app/utils/api_response.py:5-14 | the call returns that envelope iff `json.dumps` can encode every value of data; otherwise it raises TypeError "Object of type T is not JSON serializable", T being the type it cannot encode |
| Responses.Uncaught | app/utils/api_response.py:5-14 | an exception that escapes the handler is answered with 500; otherwise the response is the one built |
| Rounding.RoundDiv | app/api/routes/diet_progress.py:17 | the result is n/d rounded to the nearest integer: twice the error lies in [-d, d) |
| Ids.Canonical | app/api/routes/users.py:18 | `str(ObjectId(s))` is a valid id spelled in lower case, digit by digit the same as s |
| Ids.ObjectIdKey | app/api/routes/diet_progress.py:31 | a `{"user_id": ObjectId(s)}` filter matches an ObjectId key, never a string key |
| Documents.FindFirst | app/api/routes/users.py:22 | `find_one` gives the first matching document, or reports that none matches |
| Documents.Select | app/api/routes/workout.py:119 | `find` yields exactly the matching documents, never more than stored |
| Documents.SelectSnoc | app/api/routes/workout.py:119 | one more stored document is appended to the result exactly when it matches, so the result keeps stored order |
| Documents.SelectAppend | app/api/routes/workout.py:119 | selecting from two runs of documents selects from each in turn |
| Documents.Collection.InsertOne | app/api/routes/diet.py:125 | the document is appended and nothing else changes |
| Documents.Collection.UpdateAt | app/api/routes/users.py:76-79 | exactly the one document is replaced |
| Documents.Collection.DeleteMany | app/api/routes/workout.py:140 | the non-matching documents remain in order, and the count is the number removed |
| Json.Iterate | app/api/routes/workout.py:81 | `for x in value` visits a list's items, an object's keys in member order (one per stored member) and a string's characters in order, each key and character as a string; numbers, booleans and null raise |
| Json.Lookup | app/api/routes/diet.py:118 | `d.get(key)` is None iff no member has the key; otherwise it is the value of the last member with that key, as `json.loads` keeps the last duplicate |
| Text.TrimStart | app/api/routes/diet.py:15 | only leading whitespace is cut, and the result does not start with whitespace |
| Text.TrimEnd | app/api/routes/diet.py:15 | only trailing whitespace is cut, and the result does not end with whitespace |
| Text.Trim | app/api/routes/diet.py:15 | `strip()` returns a slice of the text with only whitespace cut off around it, and neither of its ends is whitespace |
| Text.JoinLength | app/api/routes/workout.py:31-32 | the joined text is as long as the items plus one separator between each pair |
| Text.JoinItemAt | app/api/routes/workout.py:31-32 | every item appears unchanged in the joined text at its offset |
| Text.LexLeReflexive | app/api/routes/progress_chart.py:41 | every date string sorts with itself |
| Text.LexLeTotal | app/api/routes/progress_chart.py:41 | any two date strings are comparable |
| Text.LexLeTransitive | app/api/routes/progress_chart.py:41 | the string order is transitive |
| Text.LexLeAntisymmetric | app/api/routes/progress_chart.py:41 | two strings each not after the other are equal |
| WorkoutSchema.RequestErrors | app/schemas/workout.py:17-27 | a field is reported iff its bound fails: age > 0, height > 0, weight > 0, 0 <= days <= 7 |
| WorkoutSchema.ValidateRequest | app/schemas/workout.py:17-27 | a request builds iff all four bounds hold; the lists default to empty; otherwise the error lists the failing fields |
| WorkoutSchema.ExerciseFromJson | app/schemas/workout.py:5-10 | an exercise builds iff the value is an object with string name, reps and equipment, numeric sets, and duration_per_set absent, null or a string; the fields are copied, duration_per_set included (None when absent or null, the string otherwise) |
| WorkoutSchema.ValidateAll | app/api/routes/workout.py:81 | the list validates iff every element does; the result is the same length and element-wise the validated values |
| WorkoutSchema.PlanDayFromJson | app/schemas/workout.py:12-15 | a day builds iff the value is an object with string day and focus and an exercises list whose every element is a valid exercise; day and focus are copied and the exercises kept in order |
| WorkoutSchema.PlanFromJson | app/api/routes/workout.py:81 | a JSON list validates iff every day does, keeping its length, and day i is the validation of item i; an empty object or string gives the empty plan; a non-empty object or string, null, a number or a bool never validates |
| Diet.StripFences | app/api/routes/diet.py:15 | removing the fence marks never lengthens the text |
| Diet.NoFenceRemains | app/api/routes/diet.py:15 | no run of three backticks is left |
| Diet.StripFencesKeepsPlainText | app/api/routes/diet.py:15 | text without a backtick is unchanged |
| Diet.StripFencesKeepsCharacters | app/api/routes/diet.py:15 | every character left was in the input |
| Diet.StripFencesPlainPrefix | app/api/routes/diet.py:15 | a backtick-free prefix passes through unchanged |
| Diet.StripFencesHead | app/api/routes/diet.py:15 | a leading backtick or pair of backticks in the result comes from the input's head |
| Diet.StripFencesPlainHead | app/api/routes/diet.py:15 | a first character that is not a backtick is kept |
| Diet.StripFencesJsonHead | app/api/routes/diet.py:15 | a leading "```json" and the whitespace after it are dropped |
| Diet.StripFencesBareFence | app/api/routes/diet.py:15 | a bare "```" is removed entirely |
| Diet.IndexOf | app/api/routes/diet.py:16 | the first occurrence of a character, or the length when there is none |
| Diet.LastIndexOf | app/api/routes/diet.py:16 | the last occurrence of a character, or -1 when there is none |
| Diet.JsonPayload | app/api/routes/diet.py:16-18 | a payload exists iff some '{' precedes some '}'; it runs from the first '{' to the last '}' inclusive |
| Diet.ExtractJsonFromText | app/api/routes/diet.py:14-19 | the ValueError is raised exactly when the cleaned text has no brace pair; otherwise the result is the parse of the payload |
| Diet.FencedObjectRoundTrip | app/api/routes/diet.py:14-19 | an object wrapped in a json fence extracts to the parse of that object |
| Diet.FencedStrip | app/api/routes/diet.py:15 | a json-fenced object comes out of the clean-up as the object and a newline |
| Diet.ReplyWithoutBraceIsRejected | app/api/routes/diet.py:16-19 | a reply with no '{' is rejected |
| Diet.NextSevenDays | app/api/routes/diet.py:24-26 | seven consecutive days starting today |
| Diet.DatedPlan | app/api/routes/diet.py:111-121 | exactly monday..sunday in order, paired with the seven dates; a day missing from the AI object gets empty meals; other keys are dropped |
| Diet.GenerateAiDietPlan | app/api/routes/diet.py:35-138 | extraction failure, and in particular either error text of the AI service, gives the 200 error body with the raw text and no insert; an invalid id gives 500 with no insert; otherwise one plan is stored, from the first to the seventh date |
| Gemini.ErrorReplyHasNoBrace | app/utils/gemini.py:30-39 | neither error text of the AI service contains a brace |
| Diet.ServiceErrorIsRejected | app/api/routes/diet.py:98-108 | either error text of the AI service is rejected by the extractor with "No valid JSON found in response" |
| Diet.GetSavedDietPlan | app/api/routes/diet.py:147-157 | an invalid id gives 500; no plan with that id gives 404; when one exists, the first one comes back with both ids as strings and its profile, week bounds and days |
| DietProgress.EstimateCalories | app/api/routes/diet_progress.py:20-23 | 600 for a truthy meal and 0 otherwise |
| DietProgress.ExtractDayData | app/api/routes/diet_progress.py:13-17 | missing "meals" gives 0 calories and 3 missed; 0 <= missed <= 3; calories = 600*(3-missed); target 1800; adherence in {0, 33.33, 66.67, 100}; missed is 0 iff all slots are truthy and 3 iff none is; a non-object "meals" fails |
| DietProgress.Rows | app/api/routes/diet_progress.py:39-45 | one row per day, in order, each from that day's metrics |
| DietProgress.Values | app/api/routes/diet_progress.py:35 | the plan's day entries in document order |
| DietProgress.AllDaysPrefix | app/api/routes/diet_progress.py:34-35 | the days of a prefix of the plans are a prefix of all the days |
| DietProgress.DayInAllDays | app/api/routes/diet_progress.py:34-35 | every day of every plan is scanned |
| DietProgress.AllDaysStep | app/api/routes/diet_progress.py:34-35 | scanning one more plan appends its days |
| DietProgress.WindowDays | app/api/routes/diet_progress.py:37 | a day is kept iff today-7 <= date <= today, in scan order |
| DietProgress.WindowDaysSnoc | app/api/routes/diet_progress.py:37 | the window filter applied to one more day |
| DietProgress.WindowDaysAppend | app/api/routes/diet_progress.py:37 | the window filter distributes over concatenation |
| DietProgress.RowsSnoc | app/api/routes/diet_progress.py:39-45 | one more day appends its row |
| DietProgress.RowsAppend | app/api/routes/diet_progress.py:39-45 | the rows distribute over concatenation |
| DietProgress.WindowRows | app/api/routes/diet_progress.py:35-45 | the loop yields the rows of the days in the window, or fails on an unreadable day |
| DietProgress.GetDailyDietProgress | app/api/routes/diet_progress.py:26-51 | an invalid id gives 500; otherwise 200 with the rows of the user's days in the window, in scan order |
| DietProgress.TotalsSnoc | app/api/routes/diet_progress.py:79-82 | adding a row adds its fields to the running totals and appends it to the breakdown |
| DietProgress.BreakdownTotals | app/api/routes/diet_progress.py:64-82 | total calories = 600*(3n - missed), target = 1800n, 0 <= missed <= 3n over n rows |
| DietProgress.RowsFromMetrics | app/api/routes/diet_progress.py:71-78 | rows built from readable days satisfy the per-day facts |
| DietProgress.WeeklyReport | app/api/routes/diet_progress.py:58-94 | one entry per plan, in stored order |
| DietProgress.WeeklyEntryTotals | app/api/routes/diet_progress.py:60-94 | week bounds copied; the breakdown has one row per day; target = 1800 times the days; calories = 600*(3 days - missed) |
| DietProgress.WeeklyAverageDividesBySeven | app/api/routes/diet_progress.py:84-91 | for every readable plan the average is the adherence sum divided by a fixed 7, whatever the number of days; for a seven-day plan that is the mean |
| DietProgress.OneDayAverageIsNotItsMean | app/api/routes/diet_progress.py:84-91 | a plan of one fully logged day averages to 14.29%, while its one day's adherence is 100% |
| DietProgress.PlanTotals | app/api/routes/diet_progress.py:64-84 | the accumulation loop computes the totals of the plan's rows |
| DietProgress.GetWeeklyDietProgress | app/api/routes/diet_progress.py:54-100 | an invalid id gives 500; otherwise 200 with one weekly entry per stored plan |
| DietProgress.Labels | app/api/routes/diet_progress.py:107-124 | month labels are distinct and listed in first-seen order |
| DietProgress.Group | app/api/routes/diet_progress.py:126-138 | a month's group holds its days in scan order |
| DietProgress.LabelsSnoc | app/api/routes/diet_progress.py:116-124 | one more day adds its month at the end iff the month is new |
| DietProgress.GroupSnoc | app/api/routes/diet_progress.py:126-138 | one more day joins exactly its own month's group |
| DietProgress.LabelsMembership | app/api/routes/diet_progress.py:116-124 | a label is listed iff some day has that month |
| DietProgress.GroupMembership | app/api/routes/diet_progress.py:126-138 | a day is in a group iff its month is that label |
| DietProgress.GroupReadable | app/api/routes/diet_progress.py:126-138 | a group of readable days is readable |
| DietProgress.GroupOfUnlistedLabel | app/api/routes/diet_progress.py:116-138 | an unlisted month has no days |
| DietProgress.MonthGroupNonEmpty | app/api/routes/diet_progress.py:116-138 | every listed month has at least one day, so its day count is positive |
| DietProgress.MonthlyReport | app/api/routes/diet_progress.py:140-149 | one entry per month in first-seen order; each is the totals of that month's rows, averaged by its day count |
| DietProgress.GroupSizesSnoc | app/api/routes/diet_progress.py:131 | the day counts grow by one in exactly one month |
| DietProgress.MonthGroupsPartition | app/api/routes/diet_progress.py:107-138 | the months partition the days: the counts sum to the number of days and each day is in its own month only |
| DietProgress.FirstDaySnoc | app/api/routes/diet_progress.py:116-124 | a month's first day is unchanged by later days |
| DietProgress.MonthsInFirstSeenOrder | app/api/routes/diet_progress.py:116-141 | the listed months are ordered by the position of their first day |
| DietProgress.GroupedSnoc | app/api/routes/diet_progress.py:116-138 | the grouping invariant survives a day of a month already seen |
| DietProgress.GroupedSnocOwnMonth | app/api/routes/diet_progress.py:116-138 | the grouping invariant survives a day of a new month |
| DietProgress.ScanSnoc | app/api/routes/diet_progress.py:109-138 | the fold over one more day is one more step |
| DietProgress.ScanGrouped | app/api/routes/diet_progress.py:107-138 | the dictionary of groups holds, per month, the totals of exactly that month's days |
| DietProgress.GroupDays | app/api/routes/diet_progress.py:110-138 | the inner loop continues the fold over one plan's days, or fails on an unreadable day |
| DietProgress.FinishMonths | app/api/routes/diet_progress.py:140-149 | the final loop yields the monthly report |
| DietProgress.GetMonthlyDietProgress | app/api/routes/diet_progress.py:103-155 | an invalid id gives 500; otherwise 200 with the monthly report of the user's days |
| ProgressChart.Entries | app/api/routes/progress_chart.py:25-33 | only entries with calories are kept, with missing meal values as 0 |
| ProgressChart.EntriesAreLoggedCalories | app/api/routes/progress_chart.py:25-33 | every kept entry comes from a daily log with calories |
| ProgressChart.LoggedCaloriesAreEntries | app/api/routes/progress_chart.py:25-33 | every daily log with calories is kept |
| ProgressChart.InsertDesc | app/api/routes/progress_chart.py:41 | insertion adds exactly one element |
| ProgressChart.SortDesc | app/api/routes/progress_chart.py:41 | the sort is a permutation |
| ProgressChart.InsertDescNoneLater | app/api/routes/progress_chart.py:41 | insertion keeps an upper bound on the dates |
| ProgressChart.InsertDescSorted | app/api/routes/progress_chart.py:41 | insertion into a descending list stays descending |
| ProgressChart.SortDescSorted | app/api/routes/progress_chart.py:41 | the sort is descending by date |
| ProgressChart.Reversed | app/api/routes/progress_chart.py:42 | the list is reversed element by element |
| ProgressChart.ReversedMultiset | app/api/routes/progress_chart.py:42 | reversal keeps the elements |
| ProgressChart.Latest15 | app/api/routes/progress_chart.py:41-42 | the selection holds min(15, n) entries |
| ProgressChart.Latest15Selection | app/api/routes/progress_chart.py:41-42 | at most 15 entries in ascending date order, drawn from the entries; every entry left out is not later than the earliest kept |
| ProgressChart.LastWeight | app/api/routes/progress_chart.py:45-50 | "N/A" or some log's truthy weight |
| ProgressChart.LastWeightIsLatest | app/api/routes/progress_chart.py:45-50 | the weight of the last log with a truthy weight, or "N/A" when there is none |
| ProgressChart.CountLogged | app/api/routes/progress_chart.py:56-68 | the count of consistent days is at most the number of days |
| ProgressChart.PercentOf | app/api/routes/progress_chart.py:75 | a rounded percentage of c out of n lies in [0, 100], is 0 iff c = 0 and 100 iff c = n |
| ProgressChart.ConsistencyBounds | app/api/routes/progress_chart.py:64-76 | consistency lies in [0, 100], is 0 iff no day is consistent and 100 iff all are; adherence is 0 or 100 |
| ProgressChart.Points | app/api/routes/progress_chart.py:70-73 | one {date, total} per selected entry, in the same order |
| ProgressChart.GetDietChartData | app/api/routes/progress_chart.py:10-90 | an invalid id gives 500; no logs gives 404; no calorie entry gives 404; otherwise 200 with the chart of the selection |
| ProgressChart.BuildChart | app/api/routes/progress_chart.py:41-84 | the success path builds exactly the chart of the fifteen latest entries |
| ProgressChart.FlattenLogs | app/api/routes/progress_chart.py:20-33 | the nested loop flattens the entries of every log in order |
| ProgressChart.FindLastWeight | app/api/routes/progress_chart.py:44-50 | the backward scan finds the last truthy weight |
| ProgressChart.ChartPoints | app/api/routes/progress_chart.py:52-73 | the loop yields the chart points and the count of consistent days |
| Workout.JoinOrNoneRule | app/api/routes/workout.py:31-32 | an empty list renders "None"; otherwise every item appears in order at its offset in the ", "-joined text, whose length is the items plus the separators |
| Workout.StripWorkoutFence | app/api/routes/workout.py:74 | the cleaned reply is never longer than the trimmed reply and at most 12 characters shorter: one opening fence of at most 8 and one closing fence of 4 |
| Workout.OpeningLength | app/api/routes/workout.py:74 | the opening fence matched is "```json\n" (8), "```\n" (4) or nothing |
| Workout.StripWorkoutFenceRemovesOnlyFences | app/api/routes/workout.py:74 | the result is the trimmed text less at most one opening fence line and at most one closing "\n```" |
| Workout.StripWorkoutFencePlainText | app/api/routes/workout.py:74 | text without fences is only trimmed |
| Workout.TrimKeepsUnpadded | app/api/routes/workout.py:74 | text without surrounding whitespace is unchanged by the trim |
| Workout.FencedPayloadRoundTrip | app/api/routes/workout.py:74 | a payload wrapped in either fence comes back unchanged |
| Workout.CreateWeeklyWorkoutPlan | app/api/routes/workout.py:60-110 | an invalid id gives 400 with nothing deleted; otherwise the user's plans are deleted first; a reply that `json.loads` rejects gives 400 "Invalid plan format", invalid days 500, each leaving them deleted; valid days are inserted as one plan with the request, and the answer is 201 only for an empty plan, otherwise the 500 envelope "Failed to generate or save workout plan: Object of type WorkoutPlanDay is not JSON serializable" with the plan kept |
| Workout.OtherPlansKeepsOtherUsers | app/api/routes/workout.py:70 | deleting one user's plans leaves every other user's plans as they were |
| Workout.OtherPlansHasNone | app/api/routes/workout.py:70 | after the delete the user has no plan |
| Workout.ReplacedPlanIsTheOnlyOne | app/api/routes/workout.py:70-107 | after the insert the user owns exactly the new plan and other users' plans are unchanged |
| Workout.FailedGenerationLeavesNoPlan | app/api/routes/workout.py:70-110 | after a failure the user owns no plan and other users' plans are unchanged |
| Workout.GetUserWorkoutPlans | app/api/routes/workout.py:114-131 | an invalid id gives 400; the loop collects exactly the user's plans in stored order; 404 iff there is none; otherwise the encoder raises on their `created_at` and the answer is 500 |
| Workout.DeleteWorkoutPlans | app/api/routes/workout.py:135-145 | an invalid id gives 400 with no change; otherwise the user's plans go, and the response is 404 iff nothing was deleted |
| Workout.NothingDeletedIffNoPlans | app/api/routes/workout.py:140-143 | nothing is deleted iff the user had no plan; the deleted and kept counts add up; afterwards the user has none |
| Workout.CompletionsIn | app/api/routes/workout.py:180-183 | a completion is selected iff it is the user's and start <= logged_at < end |
| Workout.GenerateProgressFromCompletions | app/api/routes/workout.py:162-228 | a malformed date or an invalid id gives 400; no completion in [start, end) gives 404, then a missing profile gives 404; otherwise the AI text, an error text included, with the dates echoed |
| DateRange.CheckRange | app/api/routes/workout_progress.py:22-28 | the range is accepted iff both bounds parse, are both naive or both aware, and start is not after end; a naive bound against an aware one is the uncaught TypeError |
| DateRange.SingleDayRange | app/api/routes/diet_progress_routes.py:21-32 | start = end is accepted, and that range selects exactly the logs of that date |
| DateRange.RangeIncludesBounds | app/api/routes/workout_progress.py:30-33 | both ends of the range are included |
| DateRange.ReversedRangeIsEmpty | app/api/routes/workout_progress.py:30-33 | bounds out of string order select nothing |
| WorkoutProgress.SummarizeExercise | app/api/routes/workout_progress.py:37-45 | an exercise projects iff name, sets, reps and equipment are all present (else KeyError); they are copied, and completed or false |
| WorkoutProgress.SummarizeLog | app/api/routes/workout_progress.py:37-52 | a log projects iff every exercise does; it keeps its date, its status or "", and its exercises in order, each projected |
| WorkoutProgress.LogsInRange | app/api/routes/workout_progress.py:30-33 | a log is selected iff it is the user's and start_date <= date <= end_date |
| WorkoutProgress.LogsInRangeSnoc | app/api/routes/workout_progress.py:30-36 | one more stored log is selected iff it is the user's and in range |
| WorkoutProgress.SummariesSnoc | app/api/routes/workout_progress.py:36-52 | projecting one more log appends its projection |
| WorkoutProgress.MissingMemberFails | app/api/routes/workout_progress.py:36-45 | one selected log with an exercise lacking a required member makes the whole scan raise |
| WorkoutProgress.CollectStep | app/api/routes/workout_progress.py:36-52 | one turn of the loop skips a log out of range, appends a selected log's projection, or ends in the KeyError |
| WorkoutProgress.CollectLogs | app/api/routes/workout_progress.py:30-52 | the loop yields the projections of the selected logs in stored order, or the KeyError when some selected log cannot be projected |
| WorkoutProgress.GenerateAiWorkoutProgress | app/api/routes/workout_progress.py:16-156 | a naive bound against an aware one gives 500; a bad or reversed range gives 400; an invalid id gives 500; a selected log missing an exercise member gives 500; no logs gives 404 before the profile lookup, then a missing profile 404; a reply that `json.loads` rejects gives 500 and stores nothing; otherwise the audit record is stored with the parsed summary, which the response returns with the dates |
| DietProgressRoutes.SummarizeMealLog | app/api/routes/diet_progress_routes.py:35-41 | a projected log keeps its date and meal slots, a missing slot becoming [] |
| DietProgressRoutes.MealLogsInRange | app/api/routes/diet_progress_routes.py:29-32 | a log is selected iff it is the user's and start_date <= date <= end_date |
| DietProgressRoutes.MealSummaries | app/api/routes/diet_progress_routes.py:34-41 | one summary per selected log, summary i being the projection of log i |
| DietProgressRoutes.CollectMealLogs | app/api/routes/diet_progress_routes.py:29-41 | the loop yields the projections of the selected logs, in stored order |
| DietProgressRoutes.GenerateAiProgress | app/api/routes/diet_progress_routes.py:15-88 | a naive bound against an aware one gives 500; a bad or reversed range gives 400 "Invalid date range."; an invalid id gives 500; no log in the range gives 404; otherwise the AI text, unparsed and error texts included, with the dates echoed |
| DietProgressRoutes.NoLogsIffNoneInRange | app/api/routes/diet_progress_routes.py:43-44 | the 404 is returned iff no log of the user falls in the range |
| MealLogSchema.StoredLog | app/api/routes/meal_log_routes.py:37-45 | the stored log carries the given key and date and the three meals verbatim, null when not given |
| MealLogSchema.InsertNewDayKeepsOnePerDay | app/api/routes/meal_log_routes.py:23-45 | inserting a log for a (user, date) nobody has logged keeps at most one log per (user, date) |
| MealLogSchema.RepeatedInsertBreaksOnePerDay | app/api/routes/meal_log.py:12-20 | the same request stored twice gives two logs for one (user, date) |
| MealLogRoutes.LogMeal | app/api/routes/meal_log_routes.py:14-57 | a non-ISO date gives 400 with success false; an invalid id gives 500; an existing log for (user, date) gives 409; otherwise exactly one log under the authenticated user and 201 echoing the input; one log per (user, date) is preserved |
| MealLogRoutes.DuplicateIffLogged | app/api/routes/meal_log_routes.py:23-34 | the 409 is returned iff the user already has a log with that date |
| MealLog.LogMeal | app/api/routes/meal_log.py:10-25 | the only failure is an invalid body user id (500); otherwise exactly one log is appended under that id with the date unchecked, and the input is echoed |
| Users.CreateUserProfile | app/api/routes/users.py:13-45 | an invalid id gives 400, no such user 404, an existing profile under the id string 409, each with no change; otherwise one profile with the id string and exactly the payload fields; at most one profile per user_id is preserved |
| Users.NewUserIdKeepsOneProfile | app/api/routes/users.py:22-39 | inserting under an unused user_id keeps one profile per user_id |
| Users.ProfileUniquenessIsPerSpelling | app/api/routes/users.py:15-24 | two spellings of one ObjectId name the same user but distinct profile keys |
| Users.GetUserProfile | app/api/routes/users.py:47-61 | an invalid id gives 400; no profile under the id string gives 404; a found profile is handed to the encoder, which raises on its `created_at`: 500 |
| Users.Merge | app/api/routes/users.py:72-79 | each supplied field is overwritten and every other field kept |
| Users.MergeLaws | app/api/routes/users.py:72-79 | an empty update changes nothing; applying an update twice equals applying it once |
| Users.FirstMatchSurvivesUpdate | app/api/routes/users.py:76-82 | the profile read back after the update is the one updated |
| Users.UpdateUserProfile | app/api/routes/users.py:63-88 | an invalid id gives 400, no profile 404, an empty update 400, each with no change; otherwise only the first profile is merged, and the profile read back is handed to the encoder, which raises on its `created_at`: 500 with the update kept |
| Users.StringFiledProfilesInvisibleToObjectIdLookup | app/api/routes/users.py:22-39 | profiles filed under strings are never found by an ObjectId lookup |
| Auth.NewLocalUser | app/api/routes/auth.py:26-30 | the new user has the email, the hash of the password, provider "local" and is unverified |
| Auth.RegisterUser | app/api/routes/auth.py:16-38 | a taken email gives 409 with no insert; otherwise one new user and 201 with its id; unique emails are preserved |
| Auth.NewEmailKeepsUnique | app/api/routes/auth.py:19-32 | inserting an unused email keeps emails unique |
| Auth.RegisteredEmailIsTaken | app/api/routes/auth.py:19-23 | once registered, the email is found by the next registration |
| Auth.LoginUser | app/api/routes/auth.py:40-60 | 401 unless a user with the email exists and the password verifies; otherwise 200 with that user's id, a token for the email and type bearer |
| Auth.LoginSucceedsIff | app/api/routes/auth.py:42-49 | with unique emails, login succeeds iff a stored user has the email and a verifying hash, and that user is the one logged in |
| Auth.RegisterThenLogin | app/api/routes/auth.py:16-60 | a user who has just registered can log in with the same password |

## Left out

- The AI service, `json.loads`, `datetime.fromisoformat`/`strptime`, `strftime("%B %Y")`, password hashing and verification, and JWT creation are parameters. The model states what the handlers do with their results, not how they compute them.
- Prompt wording is left out. Where the AI reply matters, the prompt is a record of what it is built from.
- Timestamp values (`created_at`, `generated_at`) are left out, and today's date is a parameter. That every stored profile and workout plan carries a `created_at` datetime is modelled, because the encoder of `api_response` raises on it.
- ISO rendering of diet-plan dates is left out: those dates are day numbers.
- `get_api_key` and the `print` of its result in login are left out. They are assumed to succeed.
- Concurrency is left out. Each handler runs alone, so the uniqueness guards (profiles, meal logs, emails) are proved only for one request at a time.
- Route registration and prefixes are not part of this model. Neither are `get_current_user_id`, `oauth.py` or the settings. The authenticated user id is a parameter.
- Rounding in floating point is left out: values are held in hundredths.
  - `Rounding.RoundDiv` rounds halves up, while Python's `round` on a float can go either way on an exact tie of the decimal text.
  - Only the monthly average can meet such a tie. The weekly average divides a whole number of hundredths by 7, which never lands on a half-hundredth.
- `Json.Iterate`: an object with a repeated key is visited once per stored member, where Python visits each distinct key once. Only whether the loop visits anything and that every key is a string matter to the handlers, and both agree.
- `WorkoutSchema.ExerciseFromJson`: pydantic's coercions are not modelled. It accepts "3" for `sets` and similar; the model requires the JSON types themselves.
- `DietProgress.GetDailyDietProgress`: stored day dates are day numbers, so a date that `fromisoformat` cannot read is not modelled. A day whose "meals" is not an object is modelled: it makes the handler fail with a 500.
- `ProgressChart.GetDietChartData`: a daily log entry without a "date" member is not modelled. Its `None` date would make the Python sort raise.
- `ProgressChart.GetDietChartData`: stored report shapes that make the source raise (500) are not modelled: a "calories" member that is null or not an object, a daily log entry that is not an object (a string or list that does not contain "calories" is skipped, any other raises), a `generated_summary`, `dietProgressReport` or `estimatedCalorieBreakdown` that is present but not an object, and a `dailyLog` that is not a list. The model holds calories as an optional breakdown and the daily log as a list of entries.
- `DietProgressRoutes.GenerateAiProgress`: a stored meal log without a "meals" member is not modelled. Both meal-log handlers always write one.
- `ProgressChart.SortDesc`: stability is not stated. The insertion keeps equal dates in input order, as Python's `sorted(..., reverse=True)` does, but no lemma states it.
- Only what the handlers read of a document is kept. The text of a rendered response is left out; only whether `json.dumps` can encode it is modelled.
- `ProgressChart.ChartPoints`: a stored meal calorie value that is null, a string or another non-number is not modelled; the chart's meal values are integers. The source's `m > 0` on such a value raises TypeError (500), unless an earlier meal of the same entry is already not positive.
- `WorkoutProgress.GenerateAiWorkoutProgress`: a reply holding `NaN` or `Infinity`, which `json.loads` accepts and the response encoder refuses (500 after the audit record is stored), is not modelled; JSON numbers are integers.
- `Diet.GenerateAiDietPlan`: the route's `response_model` validation of the returned dictionary is not modelled; `app/schemas/diet_plan_schema.py` is not part of this model.
- `WorkoutProgress.SummarizeLog`: an `exercises` member that is not a list, or an exercise that is not an object, is not modelled; those raise TypeError in the source.
