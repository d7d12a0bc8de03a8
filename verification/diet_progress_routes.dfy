/**
 * The AI diet progress report: a date-range check, the projection of the user's meal logs in
 * that range, and the AI text handed back as it came.
 */
module DietProgressRoutes {
  import opened Wrappers
  import opened Json
  import opened Ids
  import opened Responses
  import opened Documents
  import opened DateRange

  /** One meal log as the prompt lists it. */
  datatype MealSummary = MealSummary(date: string, breakfast: Json, lunch: Json, dinner: Json)

  /** What the prompt is built from; its wording is not modelled. */
  datatype DietPrompt = DietPrompt(startDate: string, endDate: string, logs: seq<MealSummary>)

  /** The `data` member of the successful response: the AI text is not parsed. */
  datatype DietReport = DietReport(startDate: string, endDate: string, aiGeneratedSummary: string)

  const NoLogsMessage: string := "No meal logs found in this date range."
  const ReportMessage: string := "AI-generated diet progress report."

  /** `meals.get(slot, [])`. */
  function SlotOrEmpty(slot: Option<Json>): Json
  {
    if slot.Some? then slot.value else JArr([])
  }

  /** A summary keeps the log's date and its three slots, an absent slot becoming []. */
  function SummarizeMealLog(log: MealLogDoc): (r: MealSummary)
    ensures r.date == log.date
    ensures (log.breakfast.None? ==> r.breakfast == JArr([])) && (log.breakfast.Some? ==> r.breakfast == log.breakfast.value)
    ensures (log.lunch.None? ==> r.lunch == JArr([])) && (log.lunch.Some? ==> r.lunch == log.lunch.value)
    ensures (log.dinner.None? ==> r.dinner == JArr([])) && (log.dinner.Some? ==> r.dinner == log.dinner.value)
  {
    MealSummary(log.date, SlotOrEmpty(log.breakfast), SlotOrEmpty(log.lunch), SlotOrEmpty(log.dinner))
  }

  /** The user's meal logs dated within [startDate, endDate], in stored order. */
  function MealLogsInRange(logs: seq<MealLogDoc>, key: Key, startDate: string, endDate: string): (r: seq<MealLogDoc>)
    ensures forall l :: l in r <==> l in logs && l.userId == key && InDateRange(l.date, startDate, endDate)
  {
    Select(logs, (l: MealLogDoc) => l.userId == key && InDateRange(l.date, startDate, endDate))
  }

  function MealSummaries(logs: seq<MealLogDoc>): (r: seq<MealSummary>)
    ensures |r| == |logs|
    ensures forall i :: 0 <= i < |logs| ==> r[i] == SummarizeMealLog(logs[i])
  {
    seq(|logs|, i requires 0 <= i < |logs| => SummarizeMealLog(logs[i]))
  }

  /** The `async for` over the cursor: the user's logs in range, projected, in stored order. */
  method CollectMealLogs(logs: seq<MealLogDoc>, key: Key, startDate: string, endDate: string)
    returns (summaries: seq<MealSummary>)
    ensures summaries == MealSummaries(MealLogsInRange(logs, key, startDate, endDate))
  {
    summaries := [];
    ghost var selected: seq<MealLogDoc> := [];
    var i := 0;
    while i < |logs|
      invariant 0 <= i <= |logs|
      invariant selected == MealLogsInRange(logs[..i], key, startDate, endDate)
      invariant summaries == MealSummaries(selected)
    {
      assert logs[..i + 1][..i] == logs[..i];
      var log := logs[i];
      if log.userId == key && InDateRange(log.date, startDate, endDate) {
        selected := selected + [log];
        summaries := summaries + [SummarizeMealLog(log)];
      }
      i := i + 1;
    }
    assert logs[..i] == logs;
  }

  /**
   * `generate_ai_progress`: `parseDate` stands for `datetime.fromisoformat` and `generate` for the
   * AI call, which answers an error text instead of raising; that text comes back like any other.
   * An aware bound compared with a naive one, and `ObjectId(user_id)` of an invalid id, raise and
   * give a 500. Nothing is stored.
   */
  method GenerateAiProgress(logs: seq<MealLogDoc>, userId: string, startDate: string, endDate: string,
                            parseDate: string -> Option<Moment>, generate: DietPrompt -> string)
    returns (resp: Response<DietReport>)
    ensures MixedRange(parseDate, startDate, endDate) ==> resp == InternalError
    ensures !ValidRange(parseDate, startDate, endDate) && !MixedRange(parseDate, startDate, endDate) ==>
              resp == ApiResponse(InvalidRangeMessage, 400, None)
    ensures ValidRange(parseDate, startDate, endDate) && !IsValidObjectId(userId) ==> resp == InternalError
    ensures ValidRange(parseDate, startDate, endDate) && IsValidObjectId(userId) ==>
              var selected := MealLogsInRange(logs, ObjectIdKey(userId), startDate, endDate);
              if selected == [] then resp == ApiResponse(NoLogsMessage, 404, None)
              else
                var reply := generate(DietPrompt(startDate, endDate, MealSummaries(selected)));
                resp == ApiResponse(ReportMessage, 200, Some(DietReport(startDate, endDate, reply)))
  {
    var check := CheckRange(parseDate, startDate, endDate);
    if check == Incomparable {
      return InternalError;
    }
    if check == BadRange {
      return ApiResponse(InvalidRangeMessage, 400, None);
    }
    if !IsValidObjectId(userId) {
      return InternalError;
    }
    var summaries := CollectMealLogs(logs, ObjectIdKey(userId), startDate, endDate);
    if summaries == [] {
      return ApiResponse(NoLogsMessage, 404, None);
    }
    var aiResult := generate(DietPrompt(startDate, endDate, summaries));
    resp := ApiResponse(ReportMessage, 200, Some(DietReport(startDate, endDate, aiResult)));
  }

  /** The 404 is answered exactly when no log of the user falls in the range. */
  lemma {:induction false} NoLogsIffNoneInRange(logs: seq<MealLogDoc>, key: Key, startDate: string, endDate: string)
    ensures MealLogsInRange(logs, key, startDate, endDate) == [] <==>
            forall l :: l in logs && l.userId == key ==> !InDateRange(l.date, startDate, endDate)
  {
    var r := MealLogsInRange(logs, key, startDate, endDate);
    if r != [] {
      assert r[0] in r;
    }
  }
}
