/**
 * Workout plans: the prompt's list rendering, the fence strip applied to the AI reply, the
 * delete-then-insert plan generation, listing and deleting a user's plans, and the half-open
 * date filter of the second progress handler in the same file.
 */
module Workout {
  import opened Wrappers
  import opened Json
  import opened Text
  import opened Ids
  import opened Responses
  import opened WorkoutSchema
  import opened Documents

  // ---------------------------------------------------------------- prompt lists

  /** `', '.join(items) if items else 'None'`. */
  function JoinOrNone(items: seq<string>): string
  {
    if items == [] then "None" else Join(", ", items)
  }

  /**
   * An empty list renders as "None"; otherwise every item appears in order at its place in the
   * ", "-joined text, whose length is the items' total plus two per separator.
   */
  lemma {:induction false} JoinOrNoneRule(items: seq<string>)
    ensures items == [] ==> JoinOrNone(items) == "None"
    ensures items != [] ==> |JoinOrNone(items)| == TotalLength(items) + 2 * (|items| - 1)
    ensures items != [] ==> forall i :: 0 <= i < |items| ==> Occurs(JoinOrNone(items), items[i], ItemOffset(", ", items, i))
  {
    if items != [] {
      JoinLength(", ", items);
      forall i | 0 <= i < |items|
        ensures Occurs(JoinOrNone(items), items[i], ItemOffset(", ", items, i))
      {
        JoinItemAt(", ", items, i);
      }
    }
  }

  // ---------------------------------------------------------------- fence strip

  const OpenJsonFence: string := "```json\n"
  const OpenFence: string := "```\n"
  const CloseFence: string := "\n```"

  /** Length of the `^```(?:json)?\n` match at the start of s (0 when it does not match). */
  function OpeningLength(s: string): (n: nat)
    ensures n in {0, 4, 8} && n <= |s|
    ensures n == 8 <==> |s| >= 8 && s[..8] == OpenJsonFence
    ensures n == 4 <==> |s| >= 4 && s[..4] == OpenFence
  {
    if |s| >= 8 && s[..8] == OpenJsonFence then
      assert s[3] == OpenJsonFence[3];
      8
    else if |s| >= 4 && s[..4] == OpenFence then 4
    else 0
  }

  /**
   * `re.sub(r"^```(?:json)?\n|\n```$", "", raw.strip())`: after trimming, one leading fence line
   * and one trailing fence line go. The stripped text has no trailing newline, so `$` can only
   * match at its very end, and the closing match may not overlap the opening one.
   */
  function StripWorkoutFence(raw: string): (r: string)
    ensures |Trim(raw)| - |OpenJsonFence| - |CloseFence| <= |r| <= |Trim(raw)|
  {
    var s := Trim(raw);
    var start := OpeningLength(s);
    var end := if |s| - start >= 4 && s[|s| - 4..] == CloseFence then |s| - 4 else |s|;
    s[start..end]
  }

  /** The result is the trimmed text less at most one opening fence line and one closing fence line. */
  lemma {:induction false} StripWorkoutFenceRemovesOnlyFences(raw: string)
    ensures var s, r := Trim(raw), StripWorkoutFence(raw);
            var start := OpeningLength(s);
            && start + |r| <= |s| && r == s[start..start + |r|]
            && (start + |r| == |s| || s[start + |r|..] == CloseFence)
  {
  }

  /** Text that neither opens nor closes with a fence line is only trimmed. */
  lemma {:induction false} StripWorkoutFencePlainText(raw: string)
    requires var s := Trim(raw); OpeningLength(s) == 0 && !(|s| >= 4 && s[|s| - 4..] == CloseFence)
    ensures StripWorkoutFence(raw) == Trim(raw)
  {
  }

  /** A string whose first and last characters are not whitespace is its own trim. */
  lemma {:induction false} TrimKeepsUnpadded(s: string)
    requires s != [] && !IsSpace(s[0]) && !IsSpace(s[|s| - 1])
    ensures Trim(s) == s
  {
    var r := Trim(s);
    var i :| SpaceBounded(s, r, i);
  }

  /** Any payload wrapped in a json fence, or a bare fence, comes back unchanged. */
  lemma {:induction false} FencedPayloadRoundTrip(p: string, json: bool)
    ensures StripWorkoutFence((if json then OpenJsonFence else OpenFence) + p + CloseFence) == p
  {
    var open := if json then OpenJsonFence else OpenFence;
    var raw := open + p + CloseFence;
    TrimKeepsUnpadded(raw);
    assert raw[..|open|] == open;
    if !json {
      assert raw[3] == '\n';
      assert !(|raw| >= 8 && raw[..8] == OpenJsonFence);
    }
    assert raw[|raw| - 4..] == CloseFence;
    assert raw[|open|..|raw| - 4] == p;
  }

  // ---------------------------------------------------------------- handlers

  /** The `data` member of this file's successful responses. */
  datatype WorkoutData =
    | PlanCreated(planId: string, plan: seq<WorkoutPlanDay>)
    | PlanList(plans: seq<WorkoutPlanDoc>)
    | ProgressSummary(startDate: string, endDate: string, summary: string)
  {
    /**
     * The type of the first value `json.dumps` cannot encode: a plan day is still a pydantic
     * `WorkoutPlanDay`, and every stored plan carries the `created_at` datetime written with it
     * (only `_id` is made a string).
     */
    function Unencodable(): Option<string>
    {
      match this
      case PlanCreated(_, plan) => if plan == [] then None else Some("WorkoutPlanDay")
      case PlanList(plans) => if plans == [] then None else Some("datetime")
      case ProgressSummary(_, _, _) => None
    }
  }

  const InvalidUserMessage: string := "Unauthorized: Invalid user ID"
  const FailurePrefix: string := "Failed to generate or save workout plan: "
  const FormatPrefix: string := "Invalid plan format: "
  const CreatedMessage: string := "Weekly workout plan created successfully"
  const NoPlansMessage: string := "No workout plans found for this user"

  /** The `{"user_id": user_id}` query of this file: the id string exactly as given. */
  function OwnedBy(userId: string): WorkoutPlanDoc -> bool
  {
    (d: WorkoutPlanDoc) => d.userId == userId
  }

  /** The plans stored under user_id (the id string exactly as given). */
  function PlansOf(docs: seq<WorkoutPlanDoc>, userId: string): seq<WorkoutPlanDoc>
  {
    Select(docs, OwnedBy(userId))
  }

  /** The plans of every other user. */
  function OtherPlans(docs: seq<WorkoutPlanDoc>, userId: string): seq<WorkoutPlanDoc>
  {
    Select(docs, Not(OwnedBy(userId)))
  }

  /**
   * `create_weekly_workout_plan`: an invalid id is refused before anything is deleted; otherwise
   * the user's plans are deleted first, and stay deleted whether the JSON parse or the day
   * validation fails. `aiReply` is the AI service's text (an error text when the service failed:
   * it never raises), `parseJson` stands for `json.loads` and `validationError` for the text of
   * the validation exception. The success envelope holds the `WorkoutPlanDay` models themselves,
   * so for a non-empty plan building it raises after the insert, and the handler's own `except`
   * answers 500 with the encoder's message; only an empty plan gets the 201.
   */
  method CreateWeeklyWorkoutPlan(db: Collection<WorkoutPlanDoc>, payload: WorkoutDietPlanRequest, userId: string,
                                 aiReply: string, parseJson: string -> Result<Json, string>,
                                 validationError: string, newId: string)
    returns (resp: Response<WorkoutData>)
    modifies db
    ensures !IsValidObjectId(userId) ==> resp == ApiResponse(InvalidUserMessage, 400, None) && db.docs == old(db.docs)
    ensures IsValidObjectId(userId) ==>
              var kept := OtherPlans(old(db.docs), userId);
              var parsed := parseJson(StripWorkoutFence(aiReply));
              if parsed.Err? then
                resp == ApiResponse(FormatPrefix + parsed.error, 400, None) && db.docs == kept
              else if PlanFromJson(parsed.value).None? then
                resp == ApiResponse(FailurePrefix + validationError, 500, None) && db.docs == kept
              else
                var plan := PlanFromJson(parsed.value).value;
                && db.docs == kept + [WorkoutPlanDoc(newId, userId, payload, plan)]
                && if plan == [] then resp == ApiResponse(CreatedMessage, 201, Some(PlanCreated(newId, plan)))
                   else resp == ApiResponse(FailurePrefix + NotSerializable("WorkoutPlanDay"), 500, None)
  {
    if !IsValidObjectId(userId) {
      return ApiResponse(InvalidUserMessage, 400, None);
    }
    var _ := db.DeleteMany(OwnedBy(userId));
    var cleaned := StripWorkoutFence(aiReply);
    var planData := parseJson(cleaned);
    if planData.Err? {
      return ApiResponse(FormatPrefix + planData.error, 400, None);
    }
    var validated := PlanFromJson(planData.value);
    if validated.None? {
      return ApiResponse(FailurePrefix + validationError, 500, None);
    }
    db.InsertOne(WorkoutPlanDoc(newId, userId, payload, validated.value));
    var data := PlanCreated(newId, validated.value);
    var built := CallApiResponse(CreatedMessage, 201, Some(data), data.Unencodable());
    if built.Err? {
      return ApiResponse(FailurePrefix + built.error, 500, None);
    }
    resp := built.value;
  }

  /** Deleting the user's plans and filtering by another user commute. */
  lemma {:induction false} OtherPlansKeepsOtherUsers(docs: seq<WorkoutPlanDoc>, userId: string, other: string)
    requires other != userId
    ensures PlansOf(OtherPlans(docs, userId), other) == PlansOf(docs, other)
  {
    if docs != [] {
      var n := |docs| - 1;
      OtherPlansKeepsOtherUsers(docs[..n], userId, other);
      SelectAppend(OtherPlans(docs[..n], userId), if docs[n].userId != userId then [docs[n]] else [],
                   OwnedBy(other));
    }
  }

  lemma {:induction false} OtherPlansHasNone(docs: seq<WorkoutPlanDoc>, userId: string)
    ensures PlansOf(OtherPlans(docs, userId), userId) == []
  {
    if docs != [] {
      var n := |docs| - 1;
      OtherPlansHasNone(docs[..n], userId);
      SelectAppend(OtherPlans(docs[..n], userId), if docs[n].userId != userId then [docs[n]] else [],
                   OwnedBy(userId));
    }
  }

  /**
   * After a successful generation the user owns exactly the new plan, and every other user's
   * plans are what they were.
   */
  lemma {:induction false} ReplacedPlanIsTheOnlyOne(docs: seq<WorkoutPlanDoc>, userId: string, doc: WorkoutPlanDoc)
    requires doc.userId == userId
    ensures PlansOf(OtherPlans(docs, userId) + [doc], userId) == [doc]
    ensures forall other :: other != userId ==> PlansOf(OtherPlans(docs, userId) + [doc], other) == PlansOf(docs, other)
  {
    OtherPlansHasNone(docs, userId);
    SelectAppend(OtherPlans(docs, userId), [doc], OwnedBy(userId));
    forall other | other != userId
      ensures PlansOf(OtherPlans(docs, userId) + [doc], other) == PlansOf(docs, other)
    {
      OtherPlansKeepsOtherUsers(docs, userId, other);
      SelectAppend(OtherPlans(docs, userId), [doc], OwnedBy(other));
    }
  }

  /** A failed generation leaves the user with no plan at all and the other users untouched. */
  lemma {:induction false} FailedGenerationLeavesNoPlan(docs: seq<WorkoutPlanDoc>, userId: string)
    ensures PlansOf(OtherPlans(docs, userId), userId) == []
    ensures forall other :: other != userId ==> PlansOf(OtherPlans(docs, userId), other) == PlansOf(docs, other)
  {
    OtherPlansHasNone(docs, userId);
    forall other | other != userId
      ensures PlansOf(OtherPlans(docs, userId), other) == PlansOf(docs, other)
    {
      OtherPlansKeepsOtherUsers(docs, userId, other);
    }
  }

  const ListedMessage: string := "User workout plans retrieved successfully"

  /**
   * `get_user_workout_plans`: every plan of the user, in stored order, is collected into
   * `userPlans`; 404 when there is none. The listing is handed to `api_response` with each plan's `created_at`
   * datetime, so the encoder raises and a non-empty listing is answered with 500.
   */
  method GetUserWorkoutPlans(db: Collection<WorkoutPlanDoc>, userId: string)
    returns (userPlans: seq<WorkoutPlanDoc>, resp: Response<WorkoutData>)
    ensures !IsValidObjectId(userId) ==> userPlans == [] && resp == ApiResponse(InvalidUserMessage, 400, None)
    ensures IsValidObjectId(userId) ==> userPlans == PlansOf(db.docs, userId)
    ensures IsValidObjectId(userId) ==>
              if PlansOf(db.docs, userId) == [] then resp == ApiResponse(NoPlansMessage, 404, None)
              else resp == InternalError
  {
    if !IsValidObjectId(userId) {
      return [], ApiResponse(InvalidUserMessage, 400, None);
    }
    var docs := db.docs;
    userPlans := [];
    var i := 0;
    while i < |docs|
      invariant 0 <= i <= |docs|
      invariant userPlans == PlansOf(docs[..i], userId)
    {
      assert docs[..i + 1][..i] == docs[..i];
      if docs[i].userId == userId {
        userPlans := userPlans + [docs[i]];
      }
      i := i + 1;
    }
    assert docs[..i] == docs;
    if userPlans == [] {
      return userPlans, ApiResponse(NoPlansMessage, 404, None);
    }
    var data := PlanList(userPlans);
    resp := Uncaught(CallApiResponse(ListedMessage, 200, Some(data), data.Unencodable()));
  }

  const DeletedMessage: string := "All workout plans deleted successfully"

  /** `delete_workout_plans`: the user's plans go; 404 when there were none. */
  method DeleteWorkoutPlans(db: Collection<WorkoutPlanDoc>, userId: string) returns (resp: Response<WorkoutData>)
    modifies db
    ensures !IsValidObjectId(userId) ==> resp == ApiResponse("Invalid user ID", 400, None) && db.docs == old(db.docs)
    ensures IsValidObjectId(userId) ==> db.docs == OtherPlans(old(db.docs), userId)
    ensures IsValidObjectId(userId) ==>
              if |db.docs| == |old(db.docs)| then resp == ApiResponse(NoPlansMessage, 404, None)
              else resp == ApiResponse(DeletedMessage, 200, None)
  {
    if !IsValidObjectId(userId) {
      return ApiResponse("Invalid user ID", 400, None);
    }
    var deletedCount := db.DeleteMany(OwnedBy(userId));
    if deletedCount == 0 {
      return ApiResponse(NoPlansMessage, 404, None);
    }
    resp := ApiResponse(DeletedMessage, 200, None);
  }

  /** Nothing is deleted exactly when the user had no plans; afterwards the user has none. */
  lemma {:induction false} NothingDeletedIffNoPlans(docs: seq<WorkoutPlanDoc>, userId: string)
    ensures |OtherPlans(docs, userId)| == |docs| <==> PlansOf(docs, userId) == []
    ensures |OtherPlans(docs, userId)| + |PlansOf(docs, userId)| == |docs|
    ensures PlansOf(OtherPlans(docs, userId), userId) == []
  {
    OtherPlansHasNone(docs, userId);
    if docs != [] {
      NothingDeletedIffNoPlans(docs[..|docs| - 1], userId);
    }
  }

  // ---------------------------------------------------------------- second progress handler

  const DateFormatMessage: string := "Invalid date format. Use YYYY-MM-DD."
  const NoCompletionsMessage: string := "No workout logs found for this date range."
  const NoProfileMessage: string := "User profile not found."
  const ReportMessage: string := "AI-generated workout progress report."

  /** What the prompt is built from; its wording is not modelled. */
  datatype CompletionPrompt = CompletionPrompt(startDate: string, endDate: string, profile: ProfileDoc,
                                               logs: seq<WorkoutCompletionDoc>)

  /** `logged_at` in [start, end): the start is included, the end is not. */
  predicate InHalfOpenRange(t: int, start: int, end: int)
  {
    start <= t < end
  }

  /** The completions `find({"user_id": ..., "logged_at": {"$gte": start, "$lt": end}})` returns. */
  function CompletionsIn(docs: seq<WorkoutCompletionDoc>, key: Key, start: int, end: int): (r: seq<WorkoutCompletionDoc>)
    ensures forall c :: c in r <==> c in docs && c.userId == key && InHalfOpenRange(c.loggedAt, start, end)
  {
    Select(docs, (c: WorkoutCompletionDoc) => c.userId == key && InHalfOpenRange(c.loggedAt, start, end))
  }

  /**
   * `generate_ai_workout_progress` (the handler later in workout.py): dates parsed with
   * `parseDate` (`strptime`), 400 on a malformed date or an invalid id, 404 when no completion
   * falls in [start, end) or when no profile is stored under the ObjectId; otherwise the text
   * `generate` (the AI call, which answers an error text instead of raising) returns for the
   * dates, the profile and the selected completions comes back with the dates echoed.
   */
  method GenerateProgressFromCompletions(completions: seq<WorkoutCompletionDoc>, profiles: seq<ProfileDoc>,
                                         startDate: string, endDate: string, userId: string,
                                         parseDate: string -> Option<int>,
                                         generate: CompletionPrompt -> string)
    returns (resp: Response<WorkoutData>)
    ensures parseDate(startDate).None? || parseDate(endDate).None? ==> resp == ApiResponse(DateFormatMessage, 400, None)
    ensures parseDate(startDate).Some? && parseDate(endDate).Some? ==>
              var start, end := parseDate(startDate).value, parseDate(endDate).value;
              if !IsValidObjectId(userId) then resp == ApiResponse("Invalid user ID", 400, None)
              else if CompletionsIn(completions, ObjectIdKey(userId), start, end) == [] then
                resp == ApiResponse(NoCompletionsMessage, 404, None)
              else
                var k := FindFirst(profiles, ProfileOf(ObjectIdKey(userId)));
                if k == |profiles| then resp == ApiResponse(NoProfileMessage, 404, None)
                else
                  var reply := generate(CompletionPrompt(startDate, endDate, profiles[k],
                                                         CompletionsIn(completions, ObjectIdKey(userId), start, end)));
                  resp == ApiResponse(ReportMessage, 200, Some(ProgressSummary(startDate, endDate, reply)))
  {
    var start := parseDate(startDate);
    var end := parseDate(endDate);
    if start.None? || end.None? {
      return ApiResponse(DateFormatMessage, 400, None);
    }
    if !IsValidObjectId(userId) {
      return ApiResponse("Invalid user ID", 400, None);
    }
    var key := ObjectIdKey(userId);
    var logs := CompletionsIn(completions, key, start.value, end.value);
    if logs == [] {
      return ApiResponse(NoCompletionsMessage, 404, None);
    }
    var profile := FindFirst(profiles, ProfileOf(key));
    if profile == |profiles| {
      return ApiResponse(NoProfileMessage, 404, None);
    }
    var aiResponse := generate(CompletionPrompt(startDate, endDate, profiles[profile], logs));
    resp := ApiResponse(ReportMessage, 200, Some(ProgressSummary(startDate, endDate, aiResponse)));
  }
}
