/**
 * The request and plan records of the workout endpoints and the constraints pydantic checks
 * when it builds them.
 */
module WorkoutSchema {
  import opened Wrappers
  import opened Json

  /** One exercise of a plan day; `durationPerSet` is optional and None by default. `sets` has no bound. */
  datatype Exercise = Exercise(name: string, sets: int, reps: string, equipment: string,
                               durationPerSet: Option<string>)

  datatype WorkoutPlanDay = WorkoutPlanDay(day: string, focus: string, exercises: seq<Exercise>)

  datatype WorkoutDietPlanRequest = WorkoutDietPlanRequest(
    age: int, gender: string, heightCm: real, weightKg: real, activityLevel: string, goal: string,
    workoutDaysPerWeek: int, workoutDuration: string,
    medicalConditions: seq<string>, injuriesOrLimitations: seq<string>)

  /** The field constraints of WorkoutDietPlanRequest: age, height and weight positive, 0..7 days. */
  predicate ValidRequest(r: WorkoutDietPlanRequest)
  {
    r.age > 0 && r.heightCm > 0.0 && r.weightKg > 0.0 && 0 <= r.workoutDaysPerWeek <= 7
  }

  /** The request body as sent; the two lists may be left out. */
  datatype RequestInput = RequestInput(
    age: int, gender: string, heightCm: real, weightKg: real, activityLevel: string, goal: string,
    workoutDaysPerWeek: int, workoutDuration: string,
    medicalConditions: Option<seq<string>>, injuriesOrLimitations: Option<seq<string>>)

  /** The names of the fields whose constraint fails, in declaration order. */
  function RequestErrors(input: RequestInput): (errs: seq<string>)
    ensures "age" in errs <==> input.age <= 0
    ensures "height_cm" in errs <==> input.heightCm <= 0.0
    ensures "weight_kg" in errs <==> input.weightKg <= 0.0
    ensures "workout_days_per_week" in errs <==> !(0 <= input.workoutDaysPerWeek <= 7)
    ensures forall e :: e in errs ==> e in {"age", "height_cm", "weight_kg", "workout_days_per_week"}
  {
    assert "height_cm"[0] != "weight_kg"[0];
    var age := if input.age <= 0 then ["age"] else [];
    var height := if input.heightCm <= 0.0 then ["height_cm"] else [];
    var weight := if input.weightKg <= 0.0 then ["weight_kg"] else [];
    var days := if 0 <= input.workoutDaysPerWeek <= 7 then [] else ["workout_days_per_week"];
    age + height + weight + days
  }

  function OrEmpty(xs: Option<seq<string>>): seq<string>
  {
    match xs
    case Some(v) => v
    case None => []
  }

  /** Building the request model: it exists exactly when every bound holds; missing lists become []. */
  function ValidateRequest(input: RequestInput): (r: Result<WorkoutDietPlanRequest, seq<string>>)
    ensures r.Ok? <==> input.age > 0 && input.heightCm > 0.0 && input.weightKg > 0.0
                       && 0 <= input.workoutDaysPerWeek <= 7
    ensures r.Ok? ==> ValidRequest(r.value)
                      && r.value.age == input.age && r.value.gender == input.gender
                      && r.value.heightCm == input.heightCm && r.value.weightKg == input.weightKg
                      && r.value.activityLevel == input.activityLevel && r.value.goal == input.goal
                      && r.value.workoutDaysPerWeek == input.workoutDaysPerWeek
                      && r.value.workoutDuration == input.workoutDuration
    ensures r.Ok? && input.medicalConditions.None? ==> r.value.medicalConditions == []
    ensures r.Ok? && input.injuriesOrLimitations.None? ==> r.value.injuriesOrLimitations == []
    ensures r.Err? ==> r.error != [] && r.error == RequestErrors(input)
  {
    var errs := RequestErrors(input);
    if errs != [] then Err(errs)
    else Ok(WorkoutDietPlanRequest(
      input.age, input.gender, input.heightCm, input.weightKg, input.activityLevel, input.goal,
      input.workoutDaysPerWeek, input.workoutDuration,
      OrEmpty(input.medicalConditions), OrEmpty(input.injuriesOrLimitations)))
  }

  /** The member `key` when it is present and a string. */
  function StrField(fields: seq<(string, Json)>, key: string): Option<string>
  {
    match Lookup(fields, key)
    case Some(JStr(s)) => Some(s)
    case _ => None
  }

  /** An optional string member: absent or null gives None, a string gives it, anything else fails. */
  predicate OptionalStrOk(fields: seq<(string, Json)>, key: string)
  {
    match Lookup(fields, key)
    case None => true
    case Some(JNull) => true
    case Some(JStr(_)) => true
    case Some(_) => false
  }

  /** `Exercise(**ex)`: the four required members with their types; unknown members are ignored. */
  function ExerciseFromJson(j: Json): (r: Option<Exercise>)
    ensures r.Some? <==> j.JObj? && StrField(j.fields, "name").Some?
                         && Lookup(j.fields, "sets").Some? && Lookup(j.fields, "sets").value.JNum?
                         && StrField(j.fields, "reps").Some? && StrField(j.fields, "equipment").Some?
                         && OptionalStrOk(j.fields, "duration_per_set")
    ensures r.Some? ==> Some(r.value.name) == StrField(j.fields, "name")
                        && Some(JNum(r.value.sets)) == Lookup(j.fields, "sets")
                        && Some(r.value.reps) == StrField(j.fields, "reps")
                        && Some(r.value.equipment) == StrField(j.fields, "equipment")
    ensures r.Some? ==> (r.value.durationPerSet.None? <==> Lookup(j.fields, "duration_per_set") in {None, Some(JNull)})
    ensures r.Some? ==> forall s :: Lookup(j.fields, "duration_per_set") == Some(JStr(s)) ==> r.value.durationPerSet == Some(s)
  {
    if !j.JObj? then None
    else
      var f := j.fields;
      var name := StrField(f, "name");
      var sets := Lookup(f, "sets");
      var reps := StrField(f, "reps");
      var equipment := StrField(f, "equipment");
      if name.None? || sets.None? || !sets.value.JNum? || reps.None? || equipment.None?
         || !OptionalStrOk(f, "duration_per_set")
      then None
      else
        var duration := match Lookup(f, "duration_per_set")
                        case Some(JStr(s)) => Some(s)
                        case _ => None;
        Some(Exercise(name.value, sets.value.n, reps.value, equipment.value, duration))
  }

  /** Validating every element of a list: all of them, in order, or failure. */
  function ValidateAll<A, B>(xs: seq<A>, f: A -> Option<B>): (r: Option<seq<B>>)
    ensures r.Some? <==> forall i :: 0 <= i < |xs| ==> f(xs[i]).Some?
    ensures r.Some? ==> |r.value| == |xs| && forall i :: 0 <= i < |xs| ==> Some(r.value[i]) == f(xs[i])
  {
    if xs == [] then Some([])
    else
      var n := |xs| - 1;
      match ValidateAll(xs[..n], f)
      case None => None
      case Some(front) =>
        match f(xs[n])
        case None => None
        case Some(last) => Some(front + [last])
  }

  /** `WorkoutPlanDay(**day)`: a mapping with a string day and focus and a list of valid exercises. */
  function PlanDayFromJson(j: Json): (r: Option<WorkoutPlanDay>)
    ensures r.Some? <==> && j.JObj? && StrField(j.fields, "day").Some? && StrField(j.fields, "focus").Some?
                         && Lookup(j.fields, "exercises").Some? && Lookup(j.fields, "exercises").value.JArr?
                         && forall i :: 0 <= i < |Lookup(j.fields, "exercises").value.items| ==>
                              ExerciseFromJson(Lookup(j.fields, "exercises").value.items[i]).Some?
    ensures r.Some? ==> j.JObj? && Some(r.value.day) == StrField(j.fields, "day")
                        && Some(r.value.focus) == StrField(j.fields, "focus")
    ensures r.Some? ==> var e := Lookup(j.fields, "exercises");
                        && e.Some? && e.value.JArr? && |e.value.items| == |r.value.exercises|
                        && forall i :: 0 <= i < |e.value.items| ==> ExerciseFromJson(e.value.items[i]) == Some(r.value.exercises[i])
  {
    if !j.JObj? then None
    else
      var day := StrField(j.fields, "day");
      var focus := StrField(j.fields, "focus");
      match Lookup(j.fields, "exercises")
      case Some(JArr(items)) =>
        if day.None? || focus.None? then None
        else
          (match ValidateAll(items, ExerciseFromJson)
           case Some(exs) => Some(WorkoutPlanDay(day.value, focus.value, exs))
           case None => None)
      case _ => None
  }

  /**
   * `[WorkoutPlanDay(**day) for day in plan_data]`: the parsed reply is iterated as Python would;
   * only a list of valid day objects, or a value whose iteration is empty, validates.
   */
  function PlanFromJson(planData: Json): (r: Option<seq<WorkoutPlanDay>>)
    ensures planData.JArr? ==> (r.Some? <==> forall i :: 0 <= i < |planData.items| ==> PlanDayFromJson(planData.items[i]).Some?)
    ensures planData.JArr? && r.Some? ==> |r.value| == |planData.items|
    ensures planData.JArr? && r.Some? ==>
              forall i :: 0 <= i < |planData.items| ==> Some(r.value[i]) == PlanDayFromJson(planData.items[i])
    ensures (planData.JObj? && planData.fields != []) || (planData.JStr? && planData.s != []) ==> r.None?
    ensures planData.JNull? || planData.JNum? || planData.JBool? ==> r.None?
    ensures planData == JObj([]) || planData == JStr("") ==> r == Some([])
  {
    match Iterate(planData)
    case None => None
    case Some(xs) =>
      var r := ValidateAll(xs, PlanDayFromJson);
      assert xs != [] && !planData.JArr? ==> PlanDayFromJson(xs[0]).None?;
      r
  }
}
