/**
 * The AI workout progress report: a date-range check, the projection of the user's workout logs
 * in that range, the profile lookup, and the audit record stored once the AI reply parses.
 */
module WorkoutProgress {
  import opened Wrappers
  import opened Json
  import opened Ids
  import opened Responses
  import opened Documents
  import opened DateRange
  import opened Workout
  import opened WorkoutSchema

  /** One exercise as the prompt lists it. */
  datatype ExerciseSummary = ExerciseSummary(name: Json, sets: Json, reps: Json, equipment: Json, completed: Json)

  /** One log as the prompt lists it. */
  datatype LogSummary = LogSummary(date: string, status: Json, exercises: seq<ExerciseSummary>)

  /** What the prompt is built from; its wording is not modelled. */
  datatype WorkoutPrompt = WorkoutPrompt(startDate: string, endDate: string, profile: ProfileDoc, logs: seq<LogSummary>)

  /** The `data` member of the successful response. */
  datatype ProgressReport = ProgressReport(startDate: string, endDate: string, summary: Json)

  const NoLogsMessage: string := "No workout logs found in this date range."
  const NoProfileMessage: string := "User profile not found."
  const ReportMessage: string := "AI-generated workout progress report."

  /** The four members read with `ex[...]` are all present: otherwise the read raises KeyError. */
  predicate HasRequiredMembers(ex: LoggedExercise)
  {
    ex.name.Some? && ex.sets.Some? && ex.reps.Some? && ex.equipment.Some?
  }

  /** One exercise of the comprehension: None when a required member is missing. */
  function SummarizeExercise(ex: LoggedExercise): (r: Option<ExerciseSummary>)
    ensures r.Some? <==> HasRequiredMembers(ex)
    ensures r.Some? ==> && r.value.name == ex.name.value && r.value.sets == ex.sets.value
                        && r.value.reps == ex.reps.value && r.value.equipment == ex.equipment.value
                        && r.value.completed == (if ex.completed.None? then JBool(false) else ex.completed.value)
  {
    if !HasRequiredMembers(ex) then None
    else Some(ExerciseSummary(ex.name.value, ex.sets.value, ex.reps.value, ex.equipment.value,
                              if ex.completed.Some? then ex.completed.value else JBool(false)))
  }

  /**
   * A summary keeps the log's date, its status or "" when it has none, and its exercises in
   * order, each projected as above. It exists exactly when every exercise has the four members.
   */
  function SummarizeLog(log: WorkoutLogDoc): (r: Option<LogSummary>)
    ensures var exercises := if log.exercises.Some? then log.exercises.value else [];
            r.Some? <==> forall i :: 0 <= i < |exercises| ==> HasRequiredMembers(exercises[i])
    ensures r.Some? ==> r.value.date == log.date
    ensures r.Some? && log.status.None? ==> r.value.status == JStr("")
    ensures r.Some? && log.status.Some? ==> r.value.status == log.status.value
    ensures r.Some? && log.exercises.None? ==> r.value.exercises == []
    ensures r.Some? && log.exercises.Some? ==>
              |r.value.exercises| == |log.exercises.value|
              && forall i :: 0 <= i < |log.exercises.value| ==>
                   Some(r.value.exercises[i]) == SummarizeExercise(log.exercises.value[i])
  {
    var exercises := if log.exercises.Some? then log.exercises.value else [];
    match ValidateAll(exercises, SummarizeExercise)
    case None => None
    case Some(summaries) =>
      Some(LogSummary(log.date, if log.status.Some? then log.status.value else JStr(""), summaries))
  }

  /** The user's logs dated within [startDate, endDate], in stored order. */
  function LogsInRange(logs: seq<WorkoutLogDoc>, key: Key, startDate: string, endDate: string): (r: seq<WorkoutLogDoc>)
    ensures forall l :: l in r <==> l in logs && l.userId == key && InDateRange(l.date, startDate, endDate)
  {
    Select(logs, (l: WorkoutLogDoc) => l.userId == key && InDateRange(l.date, startDate, endDate))
  }

  /** The projections of the logs, or None when some log lacks a required exercise member. */
  function Summaries(logs: seq<WorkoutLogDoc>): Option<seq<LogSummary>>
  {
    ValidateAll(logs, SummarizeLog)
  }

  /**
   * The `async for` over the cursor: the user's logs in range, projected, in stored order. The
   * first log whose exercises lack a required member ends the loop with the KeyError (None).
   */
  method CollectLogs(logs: seq<WorkoutLogDoc>, key: Key, startDate: string, endDate: string)
    returns (collected: Option<seq<LogSummary>>)
    ensures collected == Summaries(LogsInRange(logs, key, startDate, endDate))
  {
    var summaries: seq<LogSummary> := [];
    var i := 0;
    while i < |logs|
      invariant 0 <= i <= |logs|
      invariant Summaries(LogsInRange(logs[..i], key, startDate, endDate)) == Some(summaries)
    {
      CollectStep(logs, key, startDate, endDate, i, summaries);
      var log := logs[i];
      if log.userId == key && InDateRange(log.date, startDate, endDate) {
        var summary := SummarizeLog(log);
        if summary.None? {
          return None;
        }
        summaries := summaries + [summary.value];
      }
      i := i + 1;
    }
    assert logs[..i] == logs;
    collected := Some(summaries);
  }

  /** One turn of the loop: a log out of range is skipped, a selected one is projected or fails. */
  lemma {:induction false} CollectStep(logs: seq<WorkoutLogDoc>, key: Key, startDate: string, endDate: string,
                                       i: nat, summaries: seq<LogSummary>)
    requires i < |logs|
    requires Summaries(LogsInRange(logs[..i], key, startDate, endDate)) == Some(summaries)
    ensures var log := logs[i];
            var next := Summaries(LogsInRange(logs[..i + 1], key, startDate, endDate));
            if !(log.userId == key && InDateRange(log.date, startDate, endDate)) then next == Some(summaries)
            else if SummarizeLog(log).None? then Summaries(LogsInRange(logs, key, startDate, endDate)).None?
            else next == Some(summaries + [SummarizeLog(log).value])
  {
    var log := logs[i];
    LogsInRangeSnoc(logs, key, startDate, endDate, i);
    if log.userId == key && InDateRange(log.date, startDate, endDate) {
      if SummarizeLog(log).None? {
        MissingMemberFails(logs, key, startDate, endDate, i);
      } else {
        SummariesSnoc(LogsInRange(logs[..i], key, startDate, endDate), log, summaries);
      }
    } else {
      assert LogsInRange(logs[..i + 1], key, startDate, endDate) == LogsInRange(logs[..i], key, startDate, endDate);
      assert Summaries(LogsInRange(logs[..i + 1], key, startDate, endDate)) == Some(summaries);
    }
  }

  /** Scanning one more stored log selects it iff it is the user's and in range. */
  lemma {:induction false} LogsInRangeSnoc(logs: seq<WorkoutLogDoc>, key: Key, startDate: string, endDate: string, i: nat)
    requires i < |logs|
    ensures LogsInRange(logs[..i + 1], key, startDate, endDate)
            == LogsInRange(logs[..i], key, startDate, endDate)
               + if logs[i].userId == key && InDateRange(logs[i].date, startDate, endDate) then [logs[i]] else []
  {
    assert logs[..i + 1][..i] == logs[..i];
  }

  /** Projecting one more log appends its projection. */
  lemma {:induction false} SummariesSnoc(xs: seq<WorkoutLogDoc>, x: WorkoutLogDoc, front: seq<LogSummary>)
    requires Summaries(xs) == Some(front) && SummarizeLog(x).Some?
    ensures Summaries(xs + [x]) == Some(front + [SummarizeLog(x).value])
  {
    assert (xs + [x])[..|xs|] == xs;
  }

  /** One selected log that cannot be projected makes the whole projection fail. */
  lemma {:induction false} MissingMemberFails(logs: seq<WorkoutLogDoc>, key: Key, startDate: string, endDate: string, i: nat)
    requires i < |logs| && logs[i].userId == key && InDateRange(logs[i].date, startDate, endDate)
    requires SummarizeLog(logs[i]).None?
    ensures Summaries(LogsInRange(logs, key, startDate, endDate)).None?
  {
    var selected := LogsInRange(logs, key, startDate, endDate);
    assert logs[i] in selected;
    var j :| 0 <= j < |selected| && selected[j] == logs[i];
  }

  /**
   * `generate_ai_workout_progress` (workout_progress.py). `parseDate` stands for
   * `datetime.fromisoformat`, `generate` for the AI call (which answers an error text instead of
   * raising) and `parseJson` for `json.loads`, whose error escapes as a 500. An aware bound
   * compared with a naive one, `ObjectId(user_id)` of an invalid id and a selected log with an
   * exercise lacking a required member raise as well. The audit record goes to `reports` only
   * after the reply parses.
   */
  method GenerateAiWorkoutProgress(reports: Collection<WorkoutReportDoc>, logs: seq<WorkoutLogDoc>,
                                   profiles: seq<ProfileDoc>, userId: string, startDate: string, endDate: string,
                                   parseDate: string -> Option<Moment>, generate: WorkoutPrompt -> string,
                                   parseJson: string -> Result<Json, string>)
    returns (resp: Response<ProgressReport>)
    modifies reports
    ensures MixedRange(parseDate, startDate, endDate) ==> resp == InternalError && reports.docs == old(reports.docs)
    ensures !ValidRange(parseDate, startDate, endDate) && !MixedRange(parseDate, startDate, endDate) ==>
              resp == ApiResponse(InvalidRangeMessage, 400, None) && reports.docs == old(reports.docs)
    ensures ValidRange(parseDate, startDate, endDate) && !IsValidObjectId(userId) ==>
              resp == InternalError && reports.docs == old(reports.docs)
    ensures ValidRange(parseDate, startDate, endDate) && IsValidObjectId(userId) ==>
              var key := ObjectIdKey(userId);
              var selected := LogsInRange(logs, key, startDate, endDate);
              var k := FindFirst(profiles, ProfileOf(key));
              if Summaries(selected).None? then
                resp == InternalError && reports.docs == old(reports.docs)
              else if selected == [] then
                resp == ApiResponse(NoLogsMessage, 404, None) && reports.docs == old(reports.docs)
              else if k == |profiles| then
                resp == ApiResponse(NoProfileMessage, 404, None) && reports.docs == old(reports.docs)
              else
                var reply := generate(WorkoutPrompt(startDate, endDate, profiles[k], Summaries(selected).value));
                if parseJson(StripWorkoutFence(reply)).Err? then
                  resp == InternalError && reports.docs == old(reports.docs)
                else
                  var data := parseJson(StripWorkoutFence(reply)).value;
                  && reports.docs == old(reports.docs) + [WorkoutReportDoc(key, startDate, endDate, data)]
                  && resp == ApiResponse(ReportMessage, 200, Some(ProgressReport(startDate, endDate, data)))
  {
    var check := CheckRange(parseDate, startDate, endDate);
    if check == Incomparable {
      return InternalError;
    }
    if check == BadRange {
      return ApiResponse(InvalidRangeMessage, 400, None);
    }
    if !IsValidObjectId(userId) {
      return InternalError;
    }
    var key := ObjectIdKey(userId);
    var collected := CollectLogs(logs, key, startDate, endDate);
    if collected.None? {
      return InternalError;
    }
    var summaries := collected.value;
    if summaries == [] {
      return ApiResponse(NoLogsMessage, 404, None);
    }
    var k := FindFirst(profiles, ProfileOf(key));
    if k == |profiles| {
      return ApiResponse(NoProfileMessage, 404, None);
    }
    var aiResult := generate(WorkoutPrompt(startDate, endDate, profiles[k], summaries));
    var data := parseJson(StripWorkoutFence(aiResult));
    if data.Err? {
      return InternalError;
    }
    reports.InsertOne(WorkoutReportDoc(key, startDate, endDate, data.value));
    resp := ApiResponse(ReportMessage, 200, Some(ProgressReport(startDate, endDate, data.value)));
  }
}
