/**
 * Diet progress: each stored plan day is turned into calories, a fixed target, an adherence
 * percentage and a missed-meal count, and the days are rolled up per day window, per plan and
 * per month. Percentages are held in hundredths (33.33 is 3333).
 */
module DietProgress {
  import opened Wrappers
  import opened Json
  import opened Ids
  import opened Responses
  import opened Documents
  import opened Rounding

  const CaloriesPerMeal: int := 600
  const TargetCalories: int := 1800

  /** `estimate_calories`: 600 for any truthy meal, 0 for None or an empty value. */
  function EstimateCalories(meal: Json): (r: int)
    ensures r == CaloriesPerMeal || r == 0
    ensures r == CaloriesPerMeal <==> Truthy(meal)
  {
    if Truthy(meal) then CaloriesPerMeal else 0
  }

  /** `round(calories / 1800 * 100, 2)` in hundredths. */
  function AdherencePercent(calories: int): int
  {
    RoundDiv(calories * 10000, TargetCalories)
  }

  datatype DayMetrics = DayMetrics(calories: int, target: int, adherence: int, missed: int)

  /** `meals.get(k)` on the day's meals object: None (here JNull) when the key is absent. */
  function Slot(meals: seq<(string, Json)>, key: string): Json
  {
    GetOr(meals, key, JNull)
  }

  /**
   * `extract_day_data`: the "meals" member defaults to {}; a value that is not an object makes
   * `.get` raise (None here). Each of the three slots is worth 600 calories when truthy and counts
   * as missed otherwise.
   */
  function ExtractDayData(meals: Option<Json>): (r: Option<DayMetrics>)
    ensures r.Some? <==> meals.None? || meals.value.JObj?
    ensures r.Some? ==> && 0 <= r.value.missed <= 3
                        && r.value.calories == CaloriesPerMeal * (3 - r.value.missed)
                        && r.value.target == TargetCalories
                        && r.value.adherence == AdherencePercent(r.value.calories)
                        && r.value.adherence in {0, 3333, 6667, 10000}
    ensures r.Some? && meals.Some? ==>
              var f := meals.value.fields;
              && (r.value.missed == 0 <==> Truthy(Slot(f, "breakfast")) && Truthy(Slot(f, "lunch")) && Truthy(Slot(f, "dinner")))
              && (r.value.missed == 3 <==> !Truthy(Slot(f, "breakfast")) && !Truthy(Slot(f, "lunch")) && !Truthy(Slot(f, "dinner")))
    ensures meals.None? ==> r == Some(DayMetrics(0, TargetCalories, 0, 3))
  {
    var m := if meals.None? then JObj([]) else meals.value;
    if !m.JObj? then None
    else
      var b, l, d := Slot(m.fields, "breakfast"), Slot(m.fields, "lunch"), Slot(m.fields, "dinner");
      var calories := EstimateCalories(b) + EstimateCalories(l) + EstimateCalories(d);
      var missed := (if Truthy(b) then 0 else 1) + (if Truthy(l) then 0 else 1) + (if Truthy(d) then 0 else 1);
      Some(DayMetrics(calories, TargetCalories, AdherencePercent(calories), missed))
  }

  /** A day whose metrics can be computed (its meals are absent or an object). */
  predicate Readable(d: DayEntry)
  {
    d.meals.None? || d.meals.value.JObj?
  }

  predicate AllReadable(days: seq<DayEntry>)
  {
    forall d :: d in days ==> Readable(d)
  }

  /** One element of a daily breakdown. */
  datatype DailyProgress = DailyProgress(date: Date, totalCalories: int, targetCalories: int,
                                         adherencePercent: int, missedMealsCount: int)

  function Row(d: DayEntry): DailyProgress
    requires Readable(d)
  {
    var m := ExtractDayData(d.meals).value;
    DailyProgress(d.date, m.calories, m.target, m.adherence, m.missed)
  }

  function Rows(days: seq<DayEntry>): (r: seq<DailyProgress>)
    requires AllReadable(days)
    ensures |r| == |days| && forall i :: 0 <= i < |days| ==> r[i] == Row(days[i])
  {
    seq(|days|, i requires 0 <= i < |days| => Row(days[i]))
  }

  /** `plan["ai_generated_plan"].values()`, in document order. */
  function Values(plan: seq<(string, DayEntry)>): (r: seq<DayEntry>)
    ensures |r| == |plan| && forall i :: 0 <= i < |plan| ==> r[i] == plan[i].1
  {
    seq(|plan|, i requires 0 <= i < |plan| => plan[i].1)
  }

  /** The plans the cursor `find({"user_id": key})` yields, in stored order. */
  function UserPlans(docs: seq<DietPlanDoc>, key: Key): seq<DietPlanDoc>
  {
    Select(docs, (p: DietPlanDoc) => p.userId == key)
  }

  /** Every day of every plan: plans in stored order, each plan's days in key order. */
  function AllDays(plans: seq<DietPlanDoc>): seq<DayEntry>
  {
    if plans == [] then []
    else AllDays(plans[..|plans| - 1]) + Values(plans[|plans| - 1].plan)
  }

  lemma {:induction false} AllDaysPrefix(plans: seq<DietPlanDoc>, p: nat)
    requires p <= |plans|
    ensures AllDays(plans[..p]) <= AllDays(plans)
  {
    if p < |plans| {
      var n := |plans| - 1;
      AllDaysPrefix(plans[..n], p);
      assert plans[..n][..p] == plans[..p];
    } else {
      assert plans[..p] == plans;
    }
  }

  /** The day j of plan p is one of the days the handlers scan. */
  lemma {:induction false} DayInAllDays(plans: seq<DietPlanDoc>, p: nat, j: nat)
    requires p < |plans| && j < |plans[p].plan|
    ensures plans[p].plan[j].1 in AllDays(plans)
  {
    AllDaysPrefix(plans, p + 1);
    AllDaysStep(plans, p);
    var scanned := AllDays(plans[..p + 1]);
    var k := |AllDays(plans[..p])| + j;
    assert scanned[k] == Values(plans[p].plan)[j] == plans[p].plan[j].1;
    assert AllDays(plans)[k] == scanned[k];
  }

  lemma {:induction false} AllDaysStep(plans: seq<DietPlanDoc>, p: nat)
    requires p < |plans|
    ensures AllDays(plans[..p + 1]) == AllDays(plans[..p]) + Values(plans[p].plan)
  {
    assert plans[..p + 1][..p] == plans[..p];
  }

  // ---------------------------------------------------------------- daily

  /** `past_seven <= date <= today`. */
  predicate InWindow(d: Date, today: Date)
  {
    today - 7 <= d <= today
  }

  /** The filter `past_seven <= date <= today`. */
  function DatedWithin(today: Date): DayEntry -> bool
  {
    (d: DayEntry) => InWindow(d.date, today)
  }

  /** The days inside the window, in scan order. */
  function WindowDays(days: seq<DayEntry>, today: Date): (r: seq<DayEntry>)
    ensures forall x :: x in r <==> x in days && InWindow(x.date, today)
    ensures |r| <= |days|
  {
    Select(days, DatedWithin(today))
  }

  lemma {:induction false} WindowDaysSnoc(days: seq<DayEntry>, d: DayEntry, today: Date)
    ensures WindowDays(days + [d], today) == WindowDays(days, today) + (if InWindow(d.date, today) then [d] else [])
  {
    assert (days + [d])[..|days|] == days;
  }

  lemma {:induction false} WindowDaysAppend(xs: seq<DayEntry>, ys: seq<DayEntry>, today: Date)
    ensures WindowDays(xs + ys, today) == WindowDays(xs, today) + WindowDays(ys, today)
  {
    SelectAppend(xs, ys, DatedWithin(today));
  }

  lemma {:induction false} RowsSnoc(xs: seq<DayEntry>, d: DayEntry)
    requires AllReadable(xs) && Readable(d)
    ensures AllReadable(xs + [d]) && Rows(xs + [d]) == Rows(xs) + [Row(d)]
  {
  }

  lemma {:induction false} RowsAppend(xs: seq<DayEntry>, ys: seq<DayEntry>)
    requires AllReadable(xs) && AllReadable(ys)
    ensures AllReadable(xs + ys) && Rows(xs + ys) == Rows(xs) + Rows(ys)
  {
  }

  /** The inner loop over one plan's days: the rows of its days in the window, or None when one of them cannot be read. */
  method WindowRows(values: seq<DayEntry>, today: Date) returns (rows: Option<seq<DailyProgress>>)
    ensures AllReadable(WindowDays(values, today)) ==> rows == Some(Rows(WindowDays(values, today)))
    ensures !AllReadable(WindowDays(values, today)) ==> rows.None?
  {
    var r: seq<DailyProgress> := [];
    var j := 0;
    while j < |values|
      invariant 0 <= j <= |values|
      invariant AllReadable(WindowDays(values[..j], today))
      invariant r == Rows(WindowDays(values[..j], today))
    {
      var day := values[j];
      assert values[..j + 1] == values[..j] + [day];
      WindowDaysSnoc(values[..j], day, today);
      if InWindow(day.date, today) {
        var metrics := ExtractDayData(day.meals);
        if metrics.None? {
          assert day in WindowDays(values, today);
          return None;
        }
        var m := metrics.value;
        RowsSnoc(WindowDays(values[..j], today), day);
        r := r + [DailyProgress(day.date, m.calories, m.target, m.adherence, m.missed)];
      }
      j := j + 1;
    }
    assert values[..j] == values;
    return Some(r);
  }

  const DailyMessage: string := "Daily diet progress fetched successfully"

  /**
   * `get_daily_diet_progress`: one entry per plan day dated between today - 7 and today,
   * scanning the user's plans and their days in stored order. `ObjectId(user_id)` raises on an
   * invalid id, and a day in the window whose meals are not an object makes the handler raise.
   */
  method GetDailyDietProgress(docs: seq<DietPlanDoc>, userId: string, today: Date)
    returns (resp: Response<seq<DailyProgress>>)
    ensures !IsValidObjectId(userId) ==> resp == InternalError
    ensures IsValidObjectId(userId) ==>
              var days := WindowDays(AllDays(UserPlans(docs, ObjectIdKey(userId))), today);
              if AllReadable(days) then resp == ApiResponse(DailyMessage, 200, Some(Rows(days)))
              else resp == InternalError
  {
    if !IsValidObjectId(userId) {
      return InternalError;
    }
    var plans := UserPlans(docs, ObjectIdKey(userId));
    var dailyProgress: seq<DailyProgress> := [];
    var p := 0;
    while p < |plans|
      invariant 0 <= p <= |plans|
      invariant AllReadable(WindowDays(AllDays(plans[..p]), today))
      invariant dailyProgress == Rows(WindowDays(AllDays(plans[..p]), today))
    {
      var values := Values(plans[p].plan);
      var rows := WindowRows(values, today);
      AllDaysStep(plans, p);
      WindowDaysAppend(AllDays(plans[..p]), values, today);
      if rows.None? {
        var day :| day in WindowDays(values, today) && !Readable(day);
        AllDaysPrefix(plans, p + 1);
        assert day in AllDays(plans[..p + 1]);
        assert day in WindowDays(AllDays(plans), today);
        return InternalError;
      }
      RowsAppend(WindowDays(AllDays(plans[..p]), today), WindowDays(values, today));
      dailyProgress := dailyProgress + rows.value;
      p := p + 1;
    }
    assert plans[..p] == plans;
    resp := ApiResponse(DailyMessage, 200, Some(dailyProgress));
  }

  // ---------------------------------------------------------------- sums

  function SumCalories(rows: seq<DailyProgress>): int
  {
    if rows == [] then 0 else SumCalories(rows[..|rows| - 1]) + rows[|rows| - 1].totalCalories
  }

  function SumTarget(rows: seq<DailyProgress>): int
  {
    if rows == [] then 0 else SumTarget(rows[..|rows| - 1]) + rows[|rows| - 1].targetCalories
  }

  function SumAdherence(rows: seq<DailyProgress>): int
  {
    if rows == [] then 0 else SumAdherence(rows[..|rows| - 1]) + rows[|rows| - 1].adherencePercent
  }

  function SumMissed(rows: seq<DailyProgress>): int
  {
    if rows == [] then 0 else SumMissed(rows[..|rows| - 1]) + rows[|rows| - 1].missedMealsCount
  }

  /** The running totals the handlers keep while they append a breakdown entry. */
  datatype Totals = Totals(calories: int, target: int, adherence: int, missed: int, breakdown: seq<DailyProgress>)

  function TotalsOf(rows: seq<DailyProgress>): Totals
  {
    Totals(SumCalories(rows), SumTarget(rows), SumAdherence(rows), SumMissed(rows), rows)
  }

  function AddRow(t: Totals, row: DailyProgress): Totals
  {
    Totals(t.calories + row.totalCalories, t.target + row.targetCalories,
           t.adherence + row.adherencePercent, t.missed + row.missedMealsCount, t.breakdown + [row])
  }

  lemma {:induction false} TotalsSnoc(rows: seq<DailyProgress>, row: DailyProgress)
    ensures TotalsOf(rows + [row]) == AddRow(TotalsOf(rows), row)
  {
    assert (rows + [row])[..|rows|] == rows;
  }

  /** Rows computed by ExtractDayData. */
  predicate FromMetrics(rows: seq<DailyProgress>)
  {
    forall i :: 0 <= i < |rows| ==>
      && 0 <= rows[i].missedMealsCount <= 3
      && rows[i].totalCalories == CaloriesPerMeal * (3 - rows[i].missedMealsCount)
      && rows[i].targetCalories == TargetCalories
  }

  /**
   * Over any breakdown: the calorie total is 600 for every meal not missed, the target is 1800
   * per day, and between 0 and 3 meals per day are missed.
   */
  lemma {:induction false} BreakdownTotals(rows: seq<DailyProgress>)
    requires FromMetrics(rows)
    ensures SumCalories(rows) == CaloriesPerMeal * (3 * |rows| - SumMissed(rows))
    ensures SumTarget(rows) == TargetCalories * |rows|
    ensures 0 <= SumMissed(rows) <= 3 * |rows|
  {
    if rows != [] {
      BreakdownTotals(rows[..|rows| - 1]);
    }
  }

  lemma {:induction false} RowsFromMetrics(days: seq<DayEntry>)
    requires AllReadable(days)
    ensures FromMetrics(Rows(days))
  {
    forall i | 0 <= i < |days|
      ensures Readable(days[i])
    {
      assert days[i] in days;
    }
  }

  // ---------------------------------------------------------------- weekly

  datatype WeeklyProgress = WeeklyProgress(
    weekStartDate: Date, weekEndDate: Date, totalCalories: int, targetCalories: int,
    averageAdherence: int, missedMeals: int, dailyBreakdown: seq<DailyProgress>)

  /** A plan all of whose days can be read. */
  predicate PlanReadable(plan: DietPlanDoc)
  {
    AllReadable(Values(plan.plan))
  }

  /**
   * The entry for one plan: bounds copied from the plan, sums over its days, and the adherence
   * sum divided by a fixed 7 whatever the number of days.
   */
  function WeeklyEntry(plan: DietPlanDoc): WeeklyProgress
    requires PlanReadable(plan)
  {
    var t := TotalsOf(Rows(Values(plan.plan)));
    WeeklyProgress(plan.weekStartDate, plan.weekEndDate, t.calories, t.target,
                   RoundDiv(t.adherence, 7), t.missed, t.breakdown)
  }

  function WeeklyReport(plans: seq<DietPlanDoc>): (r: seq<WeeklyProgress>)
    requires forall i :: 0 <= i < |plans| ==> PlanReadable(plans[i])
    ensures |r| == |plans| && forall i :: 0 <= i < |plans| ==> r[i] == WeeklyEntry(plans[i])
  {
    seq(|plans|, i requires 0 <= i < |plans| => WeeklyEntry(plans[i]))
  }

  /**
   * Each weekly entry: the bounds are the plan's own, the target is 1800 per day of the plan,
   * the calories are 600 per meal not missed, and the breakdown has one entry per day.
   */
  lemma {:induction false} WeeklyEntryTotals(plan: DietPlanDoc)
    requires PlanReadable(plan)
    ensures var w := WeeklyEntry(plan);
            && w.weekStartDate == plan.weekStartDate && w.weekEndDate == plan.weekEndDate
            && |w.dailyBreakdown| == |plan.plan|
            && w.targetCalories == TargetCalories * |plan.plan|
            && w.totalCalories == CaloriesPerMeal * (3 * |plan.plan| - w.missedMeals)
            && 0 <= w.missedMeals <= 3 * |plan.plan|
  {
    RowsFromMetrics(Values(plan.plan));
    BreakdownTotals(Rows(Values(plan.plan)));
  }

  /**
   * The average adherence divides the adherence of the listed days by a fixed 7, whatever the
   * number of days. For a plan of seven days, the shape every generated plan has, that is the
   * mean adherence of the days.
   */
  lemma {:induction false} WeeklyAverageDividesBySeven(plan: DietPlanDoc)
    requires PlanReadable(plan)
    ensures var w := WeeklyEntry(plan);
            w.averageAdherence == RoundDiv(SumAdherence(w.dailyBreakdown), 7)
    ensures var w := WeeklyEntry(plan);
            |plan.plan| == 7 ==> w.averageAdherence == RoundDiv(SumAdherence(w.dailyBreakdown), |w.dailyBreakdown|)
  {
    WeeklyEntryTotals(plan);
  }

  /** A day with all three meals logged. */
  const FullDay: DayEntry :=
    DayEntry(0, Some(JObj([("breakfast", JBool(true)), ("lunch", JBool(true)), ("dinner", JBool(true))])))

  /**
   * A plan of one full day is not averaged to its mean: its one day has 100% adherence, but the
   * weekly average is 100/7 = 14.29%.
   */
  lemma {:induction false} OneDayAverageIsNotItsMean(plan: DietPlanDoc)
    requires plan.plan == [("monday", FullDay)]
    ensures PlanReadable(plan)
    ensures var w := WeeklyEntry(plan);
            && w.averageAdherence == 1429
            && RoundDiv(SumAdherence(w.dailyBreakdown), |w.dailyBreakdown|) == 10000
  {
    var f := FullDay.meals.value.fields;
    assert forall i :: 0 <= i < |f| ==> f[i].1 == JBool(true);
    assert KeyAt(f, "breakfast", 0) && KeyAt(f, "lunch", 1) && KeyAt(f, "dinner", 2);
    assert Truthy(Slot(f, "breakfast")) && Truthy(Slot(f, "lunch")) && Truthy(Slot(f, "dinner"));
    var m := ExtractDayData(FullDay.meals);
    assert m.Some? && m.value.missed == 0;
    assert Values(plan.plan) == [FullDay];
    var rows := Rows([FullDay]);
    assert rows[0].adherencePercent == 10000;
    assert SumAdherence(rows) == 10000 by {
      assert rows[..0] == [];
    }
  }

  /** The inner loop over one plan's days: running sums, or None when a day cannot be read. */
  method PlanTotals(values: seq<DayEntry>) returns (totals: Option<Totals>)
    ensures AllReadable(values) ==> totals == Some(TotalsOf(Rows(values)))
    ensures !AllReadable(values) ==> totals.None?
  {
    var t := Totals(0, 0, 0, 0, []);
    var j := 0;
    while j < |values|
      invariant 0 <= j <= |values|
      invariant AllReadable(values[..j])
      invariant t == TotalsOf(Rows(values[..j]))
    {
      var day := values[j];
      var metrics := ExtractDayData(day.meals);
      if metrics.None? {
        assert day in values;
        return None;
      }
      var m := metrics.value;
      ghost var before := Rows(values[..j]);
      assert values[..j + 1] == values[..j] + [day];
      assert Rows(values[..j + 1]) == before + [Row(day)];
      TotalsSnoc(before, Row(day));
      t := AddRow(t, DailyProgress(day.date, m.calories, m.target, m.adherence, m.missed));
      j := j + 1;
    }
    assert values[..j] == values;
    return Some(t);
  }

  const WeeklyMessage: string := "Weekly diet progress fetched successfully"

  /** `get_weekly_diet_progress`: one entry per stored plan of the user, in stored order. */
  method GetWeeklyDietProgress(docs: seq<DietPlanDoc>, userId: string)
    returns (resp: Response<seq<WeeklyProgress>>)
    ensures !IsValidObjectId(userId) ==> resp == InternalError
    ensures IsValidObjectId(userId) ==>
              var plans := UserPlans(docs, ObjectIdKey(userId));
              if forall i :: 0 <= i < |plans| ==> PlanReadable(plans[i])
              then resp == ApiResponse(WeeklyMessage, 200, Some(WeeklyReport(plans)))
              else resp == InternalError
  {
    if !IsValidObjectId(userId) {
      return InternalError;
    }
    var plans := UserPlans(docs, ObjectIdKey(userId));
    var weeklyProgress: seq<WeeklyProgress> := [];
    var p := 0;
    while p < |plans|
      invariant 0 <= p <= |plans|
      invariant forall i :: 0 <= i < p ==> PlanReadable(plans[i])
      invariant weeklyProgress == WeeklyReport(plans[..p])
    {
      var plan := plans[p];
      var totals := PlanTotals(Values(plan.plan));
      if totals.None? {
        return InternalError;
      }
      var t := totals.value;
      assert plans[..p + 1] == plans[..p] + [plan];
      weeklyProgress := weeklyProgress + [WeeklyProgress(plan.weekStartDate, plan.weekEndDate, t.calories,
                                                         t.target, RoundDiv(t.adherence, 7), t.missed, t.breakdown)];
      p := p + 1;
    }
    assert plans[..p] == plans;
    resp := ApiResponse(WeeklyMessage, 200, Some(weeklyProgress));
  }

  // ---------------------------------------------------------------- monthly

  /** The month labels (`strftime("%B %Y")`) of the days, each once, in the order first seen. */
  function Labels(days: seq<DayEntry>, monthOf: Date -> string): (r: seq<string>)
    ensures forall i, j :: 0 <= i < j < |r| ==> r[i] != r[j]
  {
    if days == [] then []
    else
      var n := |days| - 1;
      var prev := Labels(days[..n], monthOf);
      var l := monthOf(days[n].date);
      if l in prev then prev else prev + [l]
  }

  /** The days of one month, in scan order. */
  function Group(days: seq<DayEntry>, monthOf: Date -> string, l: string): (r: seq<DayEntry>)
    ensures |r| <= |days|
  {
    if days == [] then []
    else
      var n := |days| - 1;
      Group(days[..n], monthOf, l) + (if monthOf(days[n].date) == l then [days[n]] else [])
  }

  lemma {:induction false} LabelsSnoc(days: seq<DayEntry>, d: DayEntry, monthOf: Date -> string)
    ensures Labels(days + [d], monthOf) ==
              var prev := Labels(days, monthOf);
              if monthOf(d.date) in prev then prev else prev + [monthOf(d.date)]
  {
    assert (days + [d])[..|days|] == days;
  }

  lemma {:induction false} GroupSnoc(days: seq<DayEntry>, d: DayEntry, monthOf: Date -> string, l: string)
    ensures Group(days + [d], monthOf, l) == Group(days, monthOf, l) + (if monthOf(d.date) == l then [d] else [])
  {
    assert (days + [d])[..|days|] == days;
  }

  /** A label is listed exactly when some scanned day carries it. */
  lemma {:induction false} LabelsMembership(days: seq<DayEntry>, monthOf: Date -> string)
    ensures forall l :: l in Labels(days, monthOf) <==> exists i :: 0 <= i < |days| && monthOf(days[i].date) == l
  {
    if days != [] {
      var n := |days| - 1;
      LabelsMembership(days[..n], monthOf);
      assert forall i :: 0 <= i < n ==> days[..n][i] == days[i];
    }
  }

  /** A group holds exactly the scanned days that carry its label. */
  lemma {:induction false} GroupMembership(days: seq<DayEntry>, monthOf: Date -> string, l: string)
    ensures forall x :: x in Group(days, monthOf, l) <==> x in days && monthOf(x.date) == l
  {
    if days != [] {
      var n := |days| - 1;
      GroupMembership(days[..n], monthOf, l);
      assert days == days[..n] + [days[n]];
    }
  }

  lemma {:induction false} GroupReadable(days: seq<DayEntry>, monthOf: Date -> string, l: string)
    requires AllReadable(days)
    ensures AllReadable(Group(days, monthOf, l))
  {
    GroupMembership(days, monthOf, l);
  }

  /** A month with no scanned day has an empty group. */
  lemma {:induction false} GroupOfUnlistedLabel(days: seq<DayEntry>, monthOf: Date -> string, l: string)
    requires l !in Labels(days, monthOf)
    ensures Group(days, monthOf, l) == []
  {
    if days != [] {
      GroupOfUnlistedLabel(days[..|days| - 1], monthOf, l);
    }
  }

  /** Every listed month has at least one day. */
  lemma {:induction false} MonthGroupNonEmpty(days: seq<DayEntry>, monthOf: Date -> string, l: string)
    requires l in Labels(days, monthOf)
    ensures |Group(days, monthOf, l)| >= 1
  {
    var n := |days| - 1;
    if monthOf(days[n].date) != l {
      MonthGroupNonEmpty(days[..n], monthOf, l);
    }
  }

  datatype MonthlyProgress = MonthlyProgress(
    month: string, totalCalories: int, targetCalories: int, averageAdherence: int,
    missedMeals: int, dailyBreakdown: seq<DailyProgress>)

  /** A finished month group; `days_count` is the number of days in its breakdown. */
  function Finish(month: string, t: Totals): MonthlyProgress
    requires |t.breakdown| > 0
  {
    MonthlyProgress(month, t.calories, t.target, RoundDiv(t.adherence, |t.breakdown|), t.missed, t.breakdown)
  }

  /** One entry per month label in first-seen order, summing that month's days only. */
  function MonthlyReport(days: seq<DayEntry>, monthOf: Date -> string): (r: seq<MonthlyProgress>)
    requires AllReadable(days)
    ensures var ls := Labels(days, monthOf);
            && |r| == |ls|
            && forall i :: 0 <= i < |r| ==>
                 && AllReadable(Group(days, monthOf, ls[i]))
                 && |Group(days, monthOf, ls[i])| >= 1
                 && r[i] == Finish(ls[i], TotalsOf(Rows(Group(days, monthOf, ls[i]))))
  {
    var ls := Labels(days, monthOf);
    assert forall i :: 0 <= i < |ls| ==> AllReadable(Group(days, monthOf, ls[i])) && |Group(days, monthOf, ls[i])| >= 1 by {
      forall i | 0 <= i < |ls|
        ensures AllReadable(Group(days, monthOf, ls[i])) && |Group(days, monthOf, ls[i])| >= 1
      {
        MonthGroupNonEmpty(days, monthOf, ls[i]);
        GroupReadable(days, monthOf, ls[i]);
      }
    }
    seq(|ls|, i requires 0 <= i < |ls| =>
      Finish(ls[i], TotalsOf(Rows(Group(days, monthOf, ls[i])))))
  }

  /** The number of days in the groups of the labels ls. */
  function GroupSizes(days: seq<DayEntry>, monthOf: Date -> string, ls: seq<string>): nat
  {
    if ls == [] then 0 else GroupSizes(days, monthOf, ls[..|ls| - 1]) + |Group(days, monthOf, ls[|ls| - 1])|
  }

  lemma {:induction false} GroupSizesSnoc(days: seq<DayEntry>, d: DayEntry, monthOf: Date -> string, ls: seq<string>)
    requires forall i, j :: 0 <= i < j < |ls| ==> ls[i] != ls[j]
    ensures GroupSizes(days + [d], monthOf, ls) == GroupSizes(days, monthOf, ls) + (if monthOf(d.date) in ls then 1 else 0)
  {
    if ls != [] {
      var n := |ls| - 1;
      GroupSizesSnoc(days, d, monthOf, ls[..n]);
      GroupSnoc(days, d, monthOf, ls[n]);
      assert ls == ls[..n] + [ls[n]];
      assert monthOf(d.date) in ls <==> monthOf(d.date) in ls[..n] || monthOf(d.date) == ls[n];
      assert monthOf(d.date) == ls[n] ==> monthOf(d.date) !in ls[..n];
    }
  }

  /**
   * The month groups partition the scanned days: their sizes add up to the number of days, and a
   * day belongs to the group of its own label only.
   */
  lemma {:induction false} MonthGroupsPartition(days: seq<DayEntry>, monthOf: Date -> string)
    ensures GroupSizes(days, monthOf, Labels(days, monthOf)) == |days|
    ensures forall x, l :: x in Group(days, monthOf, l) <==> x in days && l == monthOf(x.date)
  {
    forall l {
      GroupMembership(days, monthOf, l);
    }
    if days != [] {
      var n := |days| - 1;
      var d := days[n];
      var prefix := days[..n];
      assert days == prefix + [d];
      MonthGroupsPartition(prefix, monthOf);
      var ls := Labels(prefix, monthOf);
      LabelsSnoc(prefix, d, monthOf);
      GroupSizesSnoc(prefix, d, monthOf, ls);
      var l := monthOf(d.date);
      if l !in ls {
        assert Labels(days, monthOf) == ls + [l];
        assert (ls + [l])[..|ls|] == ls;
        GroupSnoc(prefix, d, monthOf, l);
        GroupOfUnlistedLabel(prefix, monthOf, l);
      }
    }
  }

  /** The position of the first scanned day with label l (|days| when there is none). */
  function FirstDay(days: seq<DayEntry>, monthOf: Date -> string, l: string): nat
  {
    FindFirst(days, (x: DayEntry) => monthOf(x.date) == l)
  }

  lemma {:induction false} FirstDaySnoc(days: seq<DayEntry>, d: DayEntry, monthOf: Date -> string, l: string)
    requires FirstDay(days, monthOf, l) < |days|
    ensures FirstDay(days + [d], monthOf, l) == FirstDay(days, monthOf, l)
  {
    var i := FirstDay(days, monthOf, l);
    assert (days + [d])[i] == days[i];
  }

  /** Month entries come in the order their months first appear among the scanned days. */
  lemma {:induction false} MonthsInFirstSeenOrder(days: seq<DayEntry>, monthOf: Date -> string)
    ensures var ls := Labels(days, monthOf);
            forall i, j :: 0 <= i < j < |ls| ==> FirstDay(days, monthOf, ls[i]) < FirstDay(days, monthOf, ls[j])
    ensures forall l :: l in Labels(days, monthOf) ==> FirstDay(days, monthOf, l) < |days|
  {
    if days != [] {
      var n := |days| - 1;
      var d := days[n];
      var prefix := days[..n];
      assert days == prefix + [d];
      MonthsInFirstSeenOrder(prefix, monthOf);
      LabelsSnoc(prefix, d, monthOf);
      var ls := Labels(prefix, monthOf);
      forall l | l in ls
        ensures FirstDay(days, monthOf, l) == FirstDay(prefix, monthOf, l)
      {
        FirstDaySnoc(prefix, d, monthOf, l);
      }
      var l := monthOf(d.date);
      if l !in ls {
        LabelsMembership(prefix, monthOf);
        assert FirstDay(days, monthOf, l) == n;
      }
    }
  }

  /** The month groups after scanning some days: labels in first-seen order, one accumulator per label. */
  ghost predicate Grouped(scanned: seq<DayEntry>, monthOf: Date -> string, labels: seq<string>, groups: map<string, Totals>)
    requires AllReadable(scanned)
  {
    && labels == Labels(scanned, monthOf)
    && (forall l :: l in groups <==> l in labels)
    && forall l :: l in groups ==> AllReadable(Group(scanned, monthOf, l)) && groups[l] == TotalsOf(Rows(Group(scanned, monthOf, l)))
  }

  /** Adding one day: a new label is appended, and only that day's month accumulator changes. */
  lemma {:induction false} GroupedSnoc(scanned: seq<DayEntry>, d: DayEntry, monthOf: Date -> string, labels: seq<string>,
                                       groups: map<string, Totals>)
    requires AllReadable(scanned) && Readable(d) && Grouped(scanned, monthOf, labels, groups)
    ensures AllReadable(scanned + [d])
    ensures var l := monthOf(d.date);
            var acc := if l in groups then groups[l] else Totals(0, 0, 0, 0, []);
            Grouped(scanned + [d], monthOf, if l in labels then labels else labels + [l], groups[l := AddRow(acc, Row(d))])
  {
    var l := monthOf(d.date);
    var acc := if l in groups then groups[l] else Totals(0, 0, 0, 0, []);
    var groups' := groups[l := AddRow(acc, Row(d))];
    LabelsSnoc(scanned, d, monthOf);
    forall m | m in groups'
      ensures AllReadable(Group(scanned + [d], monthOf, m))
      ensures groups'[m] == TotalsOf(Rows(Group(scanned + [d], monthOf, m)))
    {
      GroupSnoc(scanned, d, monthOf, m);
      if m == l {
        GroupedSnocOwnMonth(scanned, d, monthOf, labels, groups);
      } else {
        assert m in groups;
        assert Group(scanned + [d], monthOf, m) == Group(scanned, monthOf, m);
      }
    }
  }

  lemma {:induction false} GroupedSnocOwnMonth(scanned: seq<DayEntry>, d: DayEntry, monthOf: Date -> string,
                                               labels: seq<string>, groups: map<string, Totals>)
    requires AllReadable(scanned) && Readable(d) && Grouped(scanned, monthOf, labels, groups)
    ensures var l := monthOf(d.date);
            var acc := if l in groups then groups[l] else Totals(0, 0, 0, 0, []);
            && AllReadable(Group(scanned + [d], monthOf, l))
            && AddRow(acc, Row(d)) == TotalsOf(Rows(Group(scanned + [d], monthOf, l)))
  {
    var l := monthOf(d.date);
    var g := Group(scanned, monthOf, l);
    GroupSnoc(scanned, d, monthOf, l);
    if l !in groups {
      GroupOfUnlistedLabel(scanned, monthOf, l);
    }
    RowsSnoc(g, d);
    TotalsSnoc(Rows(g), Row(d));
  }

  /** The state of the grouping loop: the dict's keys in insertion order and its accumulators. */
  datatype MonthScan = MonthScan(labels: seq<string>, groups: map<string, Totals>)

  /** One iteration of the grouping loop: open the day's month if it is new, then add the day to it. */
  function ScanStep(acc: MonthScan, d: DayEntry, monthOf: Date -> string): MonthScan
    requires Readable(d)
  {
    var l := monthOf(d.date);
    var t := if l in acc.groups then acc.groups[l] else Totals(0, 0, 0, 0, []);
    MonthScan(if l in acc.labels then acc.labels else acc.labels + [l], acc.groups[l := AddRow(t, Row(d))])
  }

  /** The grouping loop run over the days in scan order. */
  function Scan(days: seq<DayEntry>, monthOf: Date -> string): MonthScan
    requires AllReadable(days)
  {
    if days == [] then MonthScan([], map[])
    else
      var n := |days| - 1;
      assert forall x :: x in days[..n] ==> x in days;
      ScanStep(Scan(days[..n], monthOf), days[n], monthOf)
  }

  lemma {:induction false} ScanSnoc(days: seq<DayEntry>, d: DayEntry, monthOf: Date -> string)
    requires AllReadable(days) && Readable(d)
    ensures AllReadable(days + [d])
    ensures Scan(days + [d], monthOf) == ScanStep(Scan(days, monthOf), d, monthOf)
  {
    assert (days + [d])[..|days|] == days;
  }

  /** The grouping loop leaves the labels in first-seen order and each month's sums over its own days. */
  lemma {:induction false} ScanGrouped(days: seq<DayEntry>, monthOf: Date -> string)
    requires AllReadable(days)
    ensures Grouped(days, monthOf, Scan(days, monthOf).labels, Scan(days, monthOf).groups)
  {
    if days != [] {
      var n := |days| - 1;
      assert days == days[..n] + [days[n]];
      assert forall x :: x in days[..n] ==> x in days;
      ScanGrouped(days[..n], monthOf);
      GroupedSnoc(days[..n], days[n], monthOf, Scan(days[..n], monthOf).labels, Scan(days[..n], monthOf).groups);
      ScanSnoc(days[..n], days[n], monthOf);
    }
  }

  const MonthlyMessage: string := "Monthly diet progress fetched successfully"

  /**
   * `get_monthly_diet_progress`: every day of every plan of the user, grouped by month label;
   * one entry per month in first-seen order with the adherence averaged over that month's days.
   */
  method GetMonthlyDietProgress(docs: seq<DietPlanDoc>, userId: string, monthLabel: Date -> string)
    returns (resp: Response<seq<MonthlyProgress>>)
    ensures !IsValidObjectId(userId) ==> resp == InternalError
    ensures IsValidObjectId(userId) ==>
              var days := AllDays(UserPlans(docs, ObjectIdKey(userId)));
              if AllReadable(days) then resp == ApiResponse(MonthlyMessage, 200, Some(MonthlyReport(days, monthLabel)))
              else resp == InternalError
  {
    if !IsValidObjectId(userId) {
      return InternalError;
    }
    var plans := UserPlans(docs, ObjectIdKey(userId));
    var labels: seq<string> := [];
    var groups: map<string, Totals> := map[];
    var p := 0;
    while p < |plans|
      invariant 0 <= p <= |plans|
      invariant AllReadable(AllDays(plans[..p]))
      invariant MonthScan(labels, groups) == Scan(AllDays(plans[..p]), monthLabel)
    {
      var values := Values(plans[p].plan);
      var ok;
      labels, groups, ok := GroupDays(AllDays(plans[..p]), labels, groups, values, monthLabel);
      AllDaysStep(plans, p);
      if !ok {
        var day :| day in values && !Readable(day);
        AllDaysPrefix(plans, p + 1);
        assert day in AllDays(plans[..p + 1]);
        assert day in AllDays(plans);
        assert plans[..|plans|] == plans;
        return InternalError;
      }
      p := p + 1;
    }
    assert plans[..p] == plans;
    ScanGrouped(AllDays(plans), monthLabel);
    var monthlyProgress := FinishMonths(AllDays(plans), monthLabel, labels, groups);
    resp := ApiResponse(MonthlyMessage, 200, Some(monthlyProgress));
  }

  /** One pass of the inner loop: adding the next day to its month group is one more step of `Scan`. */
  lemma {:induction false} GroupDaysStep(scanned: seq<DayEntry>, values: seq<DayEntry>, j: nat, monthOf: Date -> string,
                                         labels: seq<string>, groups: map<string, Totals>)
    requires j < |values| && Readable(values[j])
    requires AllReadable(values[..j]) && AllReadable(scanned + values[..j])
    requires MonthScan(labels, groups) == Scan(scanned + values[..j], monthOf)
    ensures AllReadable(values[..j + 1]) && AllReadable(scanned + values[..j + 1])
    ensures var d := values[j];
            var l := monthOf(d.date);
            var m := ExtractDayData(d.meals).value;
            var acc := if l in groups then groups[l] else Totals(0, 0, 0, 0, []);
            MonthScan(if l in labels then labels else labels + [l],
                      groups[l := AddRow(acc, DailyProgress(d.date, m.calories, m.target, m.adherence, m.missed))])
            == Scan(scanned + values[..j + 1], monthOf)
  {
    assert values[..j + 1] == values[..j] + [values[j]];
    assert scanned + values[..j + 1] == (scanned + values[..j]) + [values[j]];
    ScanSnoc(scanned + values[..j], values[j], monthOf);
  }

  /** The inner loop over one plan's days: each day is added to its month group. */
  method GroupDays(ghost scanned: seq<DayEntry>, labels0: seq<string>, groups0: map<string, Totals>,
                   values: seq<DayEntry>, monthLabel: Date -> string)
    returns (labels: seq<string>, groups: map<string, Totals>, ok: bool)
    requires AllReadable(scanned) && MonthScan(labels0, groups0) == Scan(scanned, monthLabel)
    ensures ok <==> AllReadable(values)
    ensures ok ==> AllReadable(scanned + values) && MonthScan(labels, groups) == Scan(scanned + values, monthLabel)
  {
    labels, groups := labels0, groups0;
    var j := 0;
    assert scanned + values[..0] == scanned;
    while j < |values|
      invariant 0 <= j <= |values|
      invariant AllReadable(values[..j]) && AllReadable(scanned + values[..j])
      invariant MonthScan(labels, groups) == Scan(scanned + values[..j], monthLabel)
    {
      var day := values[j];
      var month := monthLabel(day.date);
      var metrics := ExtractDayData(day.meals);
      if metrics.None? {
        assert day in values;
        return labels, groups, false;
      }
      var m := metrics.value;
      GroupDaysStep(scanned, values, j, monthLabel, labels, groups);
      if month !in labels {
        labels := labels + [month];
      }
      var acc := if month in groups then groups[month] else Totals(0, 0, 0, 0, []);
      groups := groups[month := AddRow(acc, DailyProgress(day.date, m.calories, m.target, m.adherence, m.missed))];
      j := j + 1;
    }
    assert values[..j] == values;
    return labels, groups, true;
  }

  /** The accumulator of the i-th label is non-empty and finishes into the report's i-th entry. */
  lemma {:induction false} FinishMonthAt(days: seq<DayEntry>, monthOf: Date -> string, labels: seq<string>,
                                         groups: map<string, Totals>, i: nat)
    requires AllReadable(days) && Grouped(days, monthOf, labels, groups) && i < |labels|
    ensures |MonthlyReport(days, monthOf)| == |labels|
    ensures labels[i] in groups && |groups[labels[i]].breakdown| > 0
    ensures MonthlyReport(days, monthOf)[i] == Finish(labels[i], groups[labels[i]])
  {
    var l := labels[i];
    MonthGroupNonEmpty(days, monthOf, l);
    assert groups[l] == TotalsOf(Rows(Group(days, monthOf, l)));
  }

  /** The final loop over `month_groups.items()`: one entry per month in insertion order. */
  method FinishMonths(ghost days: seq<DayEntry>, monthLabel: Date -> string, labels: seq<string>, groups: map<string, Totals>)
    returns (monthlyProgress: seq<MonthlyProgress>)
    requires AllReadable(days) && Grouped(days, monthLabel, labels, groups)
    ensures monthlyProgress == MonthlyReport(days, monthLabel)
  {
    ghost var report := MonthlyReport(days, monthLabel);
    monthlyProgress := [];
    var i := 0;
    while i < |labels|
      invariant 0 <= i <= |labels|
      invariant monthlyProgress == report[..i]
    {
      FinishMonthAt(days, monthLabel, labels, groups, i);
      var month := labels[i];
      var data := groups[month];
      assert report[..i + 1] == report[..i] + [Finish(month, data)];
      monthlyProgress := monthlyProgress + [MonthlyProgress(month, data.calories, data.target,
        RoundDiv(data.adherence, |data.breakdown|), data.missed, data.breakdown)];
      i := i + 1;
    }
    if labels == [] {
      assert |report| == 0;
    } else {
      FinishMonthAt(days, monthLabel, labels, groups, 0);
    }
    assert report[..i] == report;
  }
}
