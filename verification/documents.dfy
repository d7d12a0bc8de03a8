/**
 * The stored documents of each MongoDB collection the handlers touch, and the collection itself:
 * an in-memory sequence in insertion order, which `find` scans front to back. The values of the
 * timestamps (`created_at`, `generated_at`) are left out; that stored profiles and workout plans
 * carry a `created_at` datetime is modelled where responses are encoded.
 */
module Documents {
  import opened Wrappers
  import opened Json
  import opened Ids
  import opened WorkoutSchema

  /** A MongoDB collection. */
  class Collection<T(!new)> {
    var docs: seq<T>

    constructor ()
      ensures docs == []
    {
      docs := [];
    }

    /** `insert_one`: the document goes to the end. */
    method InsertOne(doc: T)
      modifies this
      ensures docs == old(docs) + [doc]
    {
      docs := docs + [doc];
    }

    /** `update_one` on the document at index i: it is replaced, everything else stays. */
    method UpdateAt(i: nat, doc: T)
      requires i < |docs|
      modifies this
      ensures docs == old(docs)[i := doc]
    {
      docs := docs[i := doc];
    }

    /** `delete_many`: every matching document goes; the others keep their order. */
    method DeleteMany(matches: T -> bool) returns (deletedCount: nat)
      modifies this
      ensures docs == Select(old(docs), Not(matches))
      ensures deletedCount == |old(docs)| - |docs|
    {
      var before := |docs|;
      docs := Select(docs, Not(matches));
      deletedCount := before - |docs|;
    }
  }

  /** The documents a query does not match. */
  function Not<T(!new)>(matches: T -> bool): (r: T -> bool)
    ensures forall x :: r(x) == !matches(x)
  {
    (x: T) => !matches(x)
  }

  /** The `{"user_id": key}` query on `user_profiles`. */
  function ProfileOf(key: Key): ProfileDoc -> bool
  {
    (p: ProfileDoc) => p.userId == key
  }

  /** `find_one`: the index of the first document that matches, |docs| when none does. */
  function FindFirst<T>(docs: seq<T>, matches: T -> bool): (i: nat)
    ensures i <= |docs|
    ensures i < |docs| ==> matches(docs[i])
    ensures forall k :: 0 <= k < i ==> !matches(docs[k])
  {
    if docs == [] then 0
    else if matches(docs[0]) then 0
    else 1 + FindFirst(docs[1..], matches)
  }

  /** `find(query)` read to the end: the matching documents in stored order. */
  function Select<T(!new)>(docs: seq<T>, matches: T -> bool): (r: seq<T>)
    ensures |r| <= |docs|
    ensures forall x :: x in r <==> x in docs && matches(x)
  {
    if docs == [] then []
    else
      var n := |docs| - 1;
      assert docs == docs[..n] + [docs[n]];
      Select(docs[..n], matches) + (if matches(docs[n]) then [docs[n]] else [])
  }

  /** One more stored document is appended to the selection exactly when it matches. */
  lemma {:induction false} SelectSnoc<T(!new)>(docs: seq<T>, x: T, f: T -> bool)
    ensures Select(docs + [x], f) == Select(docs, f) + (if f(x) then [x] else [])
  {
    assert (docs + [x])[..|docs|] == docs;
  }

  /** Selecting from two runs of documents selects from each in turn. */
  lemma {:induction false} SelectAppend<T(!new)>(xs: seq<T>, ys: seq<T>, f: T -> bool)
    ensures Select(xs + ys, f) == Select(xs, f) + Select(ys, f)
  {
    if ys != [] {
      var n := |ys| - 1;
      SelectAppend(xs, ys[..n], f);
      assert (xs + ys)[..|xs| + n] == xs + ys[..n];
      assert ys[..n] + [ys[n]] == ys;
    } else {
      assert xs + ys == xs;
    }
  }

  /** Calendar days as day numbers (today + i is i days later); ISO rendering is not modelled. */
  type Date = int

  /** The diet request stored as `user_profile` with a diet plan. */
  datatype DietRequest = DietRequest(
    vegOrNonVeg: string, activityLevel: string, fitnessGoal: string, experienceLevel: string,
    medicalConditions: string, allergies: string, preferredWorkoutStyle: string,
    preferredTrainingDaysPerWeek: int)

  /** One value of `ai_generated_plan`: its date and its "meals" member (None: the key is absent). */
  datatype DayEntry = DayEntry(date: Date, meals: Option<Json>)

  /** `diet_plans`: `plan` holds the members of `ai_generated_plan` in document order. */
  datatype DietPlanDoc = DietPlanDoc(
    id: string, userId: Key, userProfile: DietRequest,
    weekStartDate: Date, weekEndDate: Date, plan: seq<(string, DayEntry)>)

  /** `meal_logs`: the three members of "meals" (None: the member is absent; JNull: stored None). */
  datatype MealLogDoc = MealLogDoc(userId: Key, date: string,
                                   breakfast: Option<Json>, lunch: Option<Json>, dinner: Option<Json>)

  /** The profile attributes a `user_profiles` document carries besides its ids. */
  datatype ProfileFields = ProfileFields(
    fullName: string, age: int, gender: string, height: real, weight: real,
    activityLevel: string, goal: string)

  /** `user_profiles`. */
  datatype ProfileDoc = ProfileDoc(id: string, userId: Key, fields: ProfileFields)

  /** `users`: `id` is the hex spelling of the document's ObjectId. */
  datatype UserDoc = UserDoc(id: string, email: string, passwordHash: string,
                             oauthProvider: string, isVerified: bool)

  /** `workout_plans`: keyed by the user id string exactly as the token gave it. */
  datatype WorkoutPlanDoc = WorkoutPlanDoc(id: string, userId: string,
                                           request: WorkoutDietPlanRequest, plan: seq<WorkoutPlanDay>)

  /** `workout_completions`: `loggedAt` is a timestamp; the rest of the record is opaque. */
  datatype WorkoutCompletionDoc = WorkoutCompletionDoc(userId: Key, loggedAt: int, record: Json)

  /** An exercise inside a `workout_logs` document; each member may be absent (None). */
  datatype LoggedExercise = LoggedExercise(name: Option<Json>, sets: Option<Json>, reps: Option<Json>,
                                           equipment: Option<Json>, completed: Option<Json>)

  /** `workout_logs`: `status` and `exercises` may be absent. */
  datatype WorkoutLogDoc = WorkoutLogDoc(userId: Key, date: string, status: Option<Json>,
                                         exercises: Option<seq<LoggedExercise>>)

  /** `workout_progress_logs`: the audit record of one generated report. */
  datatype WorkoutReportDoc = WorkoutReportDoc(userId: Key, startDate: string, endDate: string,
                                               generatedSummary: Json)

  /** The members of a daily log's "calories" object (None: absent). */
  datatype CalorieBreakdown = CalorieBreakdown(breakfast: Option<int>, lunch: Option<int>,
                                               dinner: Option<int>, total: Option<int>)

  /** An entry of `dailyLog`; `calories` is None when the entry has no "calories" member. */
  datatype DailyLogEntry = DailyLogEntry(date: string, calories: Option<CalorieBreakdown>)

  /**
   * `diet_progress_logs`: `dailyLog` is
   * `generated_summary.dietProgressReport.estimatedCalorieBreakdown.dailyLog` ([] where a level is
   * missing) and `topLevelWeight` is `dietProgressReport.userProfile.weight` read from the top
   * level of the document (JNull where a level is missing).
   */
  datatype DietProgressLogDoc = DietProgressLogDoc(userId: Key, dailyLog: seq<DailyLogEntry>,
                                                   topLevelWeight: Json)
}
