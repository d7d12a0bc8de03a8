/**
 * The diet chart: every daily calorie log of the user's progress reports, the fifteen latest by
 * date in ascending order, the latest recorded weight, and two percentages.
 */
module ProgressChart {
  import opened Wrappers
  import opened Json
  import opened Text
  import opened Ids
  import opened Responses
  import opened Documents
  import opened Rounding

  /** A flattened daily log: the meal members default to 0 when absent. */
  datatype ChartEntry = ChartEntry(date: string, breakfast: int, lunch: int, dinner: int, total: int)

  /** One point of `daily_chart_data`. */
  datatype ChartPoint = ChartPoint(date: string, total: int)

  /** The `data` of a successful response; percentages in hundredths. */
  datatype ChartData = ChartData(period: string, weight: Json, consistencyPercentage: int,
                                 adherencePercentage: int, dailyChartData: seq<ChartPoint>)

  function OrZero(v: Option<int>): int
  {
    if v.Some? then v.value else 0
  }

  function EntryOf(e: DailyLogEntry): ChartEntry
    requires e.calories.Some?
  {
    var c := e.calories.value;
    ChartEntry(e.date, OrZero(c.breakfast), OrZero(c.lunch), OrZero(c.dinner), OrZero(c.total))
  }

  /** The entries of one daily log that have a "calories" member, in log order. */
  function Entries(daily: seq<DailyLogEntry>): (r: seq<ChartEntry>)
    ensures |r| <= |daily|
  {
    if daily == [] then []
    else
      var n := |daily| - 1;
      Entries(daily[..n]) + (if daily[n].calories.Some? then [EntryOf(daily[n])] else [])
  }

  /** Every entry of every log, logs in stored order. */
  function Flatten(logs: seq<DietProgressLogDoc>): seq<ChartEntry>
  {
    if logs == [] then [] else Flatten(logs[..|logs| - 1]) + Entries(logs[|logs| - 1].dailyLog)
  }

  /** Every chart entry is a log entry with calories, its absent meals counted as 0. */
  lemma {:induction false} EntriesAreLoggedCalories(daily: seq<DailyLogEntry>, c: ChartEntry)
    requires c in Entries(daily)
    ensures exists i :: 0 <= i < |daily| && daily[i].calories.Some? && EntryOf(daily[i]) == c
  {
    var n := |daily| - 1;
    if c in Entries(daily[..n]) {
      EntriesAreLoggedCalories(daily[..n], c);
      var i :| 0 <= i < n && daily[..n][i].calories.Some? && EntryOf(daily[..n][i]) == c;
      assert daily[i] == daily[..n][i];
    } else {
      assert EntryOf(daily[n]) == c;
    }
  }

  /** A log entry with calories is on the chart's input. */
  lemma {:induction false} LoggedCaloriesAreEntries(daily: seq<DailyLogEntry>, i: nat)
    requires i < |daily| && daily[i].calories.Some?
    ensures EntryOf(daily[i]) in Entries(daily)
  {
    var n := |daily| - 1;
    if i < n {
      LoggedCaloriesAreEntries(daily[..n], i);
      assert daily[..n][i] == daily[i];
    }
  }

  // ---------------------------------------------------------------- ordering

  /** Newest first by date (string order). */
  predicate SortedDesc(s: seq<ChartEntry>)
  {
    forall i, j :: 0 <= i < j < |s| ==> LexLe(s[j].date, s[i].date)
  }

  /** x goes in front of the first entry whose date is not later than its own. */
  function InsertDesc(x: ChartEntry, s: seq<ChartEntry>): (r: seq<ChartEntry>)
    ensures multiset(r) == multiset(s) + multiset{x}
    ensures |r| == |s| + 1
  {
    if s == [] then [x]
    else if LexLe(s[0].date, x.date) then [x] + s
    else
      assert s == [s[0]] + s[1..];
      [s[0]] + InsertDesc(x, s[1..])
  }

  /**
   * `sorted(entries, key=date, reverse=True)`: a stable sort, newest first; entries with equal
   * dates keep their input order.
   */
  function SortDesc(s: seq<ChartEntry>): (r: seq<ChartEntry>)
    ensures multiset(r) == multiset(s)
    ensures |r| == |s|
  {
    if s == [] then []
    else
      assert s == [s[0]] + s[1..];
      InsertDesc(s[0], SortDesc(s[1..]))
  }

  /** No entry of s is dated later than b. */
  predicate NoneLater(s: seq<ChartEntry>, b: string)
  {
    forall k :: 0 <= k < |s| ==> LexLe(s[k].date, b)
  }

  lemma {:induction false} InsertDescNoneLater(x: ChartEntry, s: seq<ChartEntry>, b: string)
    requires NoneLater(s, b) && LexLe(x.date, b)
    ensures NoneLater(InsertDesc(x, s), b)
  {
    if s != [] && !LexLe(s[0].date, x.date) {
      InsertDescNoneLater(x, s[1..], b);
    }
  }

  lemma {:induction false} InsertDescSorted(x: ChartEntry, s: seq<ChartEntry>)
    requires SortedDesc(s)
    ensures SortedDesc(InsertDesc(x, s))
  {
    if s == [] {
    } else if LexLe(s[0].date, x.date) {
      var r := [x] + s;
      forall i, j | 0 <= i < j < |r|
        ensures LexLe(r[j].date, r[i].date)
      {
        if i == 0 && j > 1 {
          LexLeTransitive(s[j - 1].date, s[0].date, x.date);
        }
      }
    } else {
      LexLeTotal(s[0].date, x.date);
      InsertDescSorted(x, s[1..]);
      InsertDescNoneLater(x, s[1..], s[0].date);
      var t := InsertDesc(x, s[1..]);
      var r := [s[0]] + t;
      forall i, j | 0 <= i < j < |r|
        ensures LexLe(r[j].date, r[i].date)
      {
        if i == 0 {
          assert r[j] == t[j - 1];
        } else {
          assert r[i] == t[i - 1] && r[j] == t[j - 1];
        }
      }
    }
  }

  /** The sort's output is newest first. */
  lemma {:induction false} SortDescSorted(s: seq<ChartEntry>)
    ensures SortedDesc(SortDesc(s))
  {
    if s != [] {
      SortDescSorted(s[1..]);
      InsertDescSorted(s[0], SortDesc(s[1..]));
    }
  }

  function Reversed<T>(s: seq<T>): (r: seq<T>)
    ensures |r| == |s| && forall i :: 0 <= i < |s| ==> r[i] == s[|s| - 1 - i]
  {
    if s == [] then [] else Reversed(s[1..]) + [s[0]]
  }

  function Min(a: int, b: int): int
  {
    if a <= b then a else b
  }

  /** `sorted(...)[:15]` then `.reverse()`: the fifteen newest entries, oldest first. */
  function Latest15(entries: seq<ChartEntry>): (sel: seq<ChartEntry>)
    ensures |sel| == Min(15, |entries|)
  {
    var sorted := SortDesc(entries);
    Reversed(sorted[..Min(15, |sorted|)])
  }

  /**
   * The selection holds min(15, n) entries in ascending date order, all of them from the input,
   * and no entry left out is later than the oldest selected one.
   */
  lemma {:induction false} Latest15Selection(entries: seq<ChartEntry>)
    ensures var sel := Latest15(entries);
            && |sel| == Min(15, |entries|)
            && (forall i, j :: 0 <= i < j < |sel| ==> LexLe(sel[i].date, sel[j].date))
            && multiset(sel) <= multiset(entries)
            && (sel != [] ==> forall k :: 15 <= k < |entries| ==> LexLe(SortDesc(entries)[k].date, sel[0].date))
  {
    var sorted := SortDesc(entries);
    SortDescSorted(entries);
    var m := Min(15, |sorted|);
    assert Latest15(entries) == Reversed(sorted[..m]);
    ReversedPrefixAscending(sorted, m);
    ReversedPrefixDrawn(sorted, m);
    if |entries| > 15 {
      ReversedPrefixNewest(sorted);
    }
  }

  /** The newest-first prefix, reversed, is oldest first. */
  lemma {:induction false} ReversedPrefixAscending(sorted: seq<ChartEntry>, m: nat)
    requires SortedDesc(sorted) && m <= |sorted|
    ensures var sel := Reversed(sorted[..m]);
            forall i, j :: 0 <= i < j < |sel| ==> LexLe(sel[i].date, sel[j].date)
  {
    var sel := Reversed(sorted[..m]);
    forall i, j | 0 <= i < j < |sel|
      ensures LexLe(sel[i].date, sel[j].date)
    {
      assert sel[i] == sorted[m - 1 - i] && sel[j] == sorted[m - 1 - j];
    }
  }

  /** The reversed prefix takes its entries from the sorted sequence. */
  lemma {:induction false} ReversedPrefixDrawn(sorted: seq<ChartEntry>, m: nat)
    requires m <= |sorted|
    ensures multiset(Reversed(sorted[..m])) <= multiset(sorted)
  {
    ReversedMultiset(sorted[..m]);
    assert sorted == sorted[..m] + sorted[m..];
  }

  /** Past the first fifteen, no entry of a newest-first sequence is later than the fifteenth. */
  lemma {:induction false} ReversedPrefixNewest(sorted: seq<ChartEntry>)
    requires SortedDesc(sorted) && |sorted| > 15
    ensures forall k :: 15 <= k < |sorted| ==> LexLe(sorted[k].date, Reversed(sorted[..15])[0].date)
  {
    assert Reversed(sorted[..15])[0] == sorted[14];
  }

  lemma {:induction false} ReversedMultiset<T>(s: seq<T>)
    ensures multiset(Reversed(s)) == multiset(s)
  {
    if s != [] {
      ReversedMultiset(s[1..]);
      assert s == [s[0]] + s[1..];
    }
  }

  // ---------------------------------------------------------------- weight and percentages

  /** `reversed(logs)` scanned for the first truthy weight; "N/A" when there is none. */
  function LastWeight(logs: seq<DietProgressLogDoc>): (w: Json)
    ensures w == JStr("N/A") || exists i :: 0 <= i < |logs| && w == logs[i].topLevelWeight && Truthy(w)
  {
    if logs == [] then JStr("N/A")
    else if Truthy(logs[|logs| - 1].topLevelWeight) then logs[|logs| - 1].topLevelWeight
    else
      var w := LastWeight(logs[..|logs| - 1]);
      assert forall i :: 0 <= i < |logs| - 1 ==> logs[..|logs| - 1][i] == logs[i];
      w
  }

  /** The weight comes from the last log whose weight is truthy; "N/A" when no log has one. */
  lemma {:induction false} LastWeightIsLatest(logs: seq<DietProgressLogDoc>)
    ensures (forall i :: 0 <= i < |logs| ==> !Truthy(logs[i].topLevelWeight)) ==> LastWeight(logs) == JStr("N/A")
    ensures forall i :: 0 <= i < |logs| && Truthy(logs[i].topLevelWeight)
                        && (forall k :: i < k < |logs| ==> !Truthy(logs[k].topLevelWeight))
                        ==> LastWeight(logs) == logs[i].topLevelWeight
  {
    if logs != [] {
      var n := |logs| - 1;
      LastWeightIsLatest(logs[..n]);
      assert forall i :: 0 <= i < n ==> logs[..n][i] == logs[i];
    }
  }

  /** A day counts as consistent when breakfast, lunch and dinner are all positive. */
  predicate AllMealsLogged(e: ChartEntry)
  {
    e.breakfast > 0 && e.lunch > 0 && e.dinner > 0
  }

  function CountLogged(s: seq<ChartEntry>): (n: nat)
    ensures n <= |s|
  {
    if s == [] then 0 else CountLogged(s[..|s| - 1]) + (if AllMealsLogged(s[|s| - 1]) then 1 else 0)
  }

  /** `round(count / len * 100, 2)` in hundredths. */
  function Consistency(sel: seq<ChartEntry>): int
    requires sel != []
  {
    RoundDiv(CountLogged(sel) * 10000, |sel|)
  }

  /** Every adherence score is 100, so their mean is 100 when there is one, else 0.0. */
  function Adherence(sel: seq<ChartEntry>): int
  {
    if CountLogged(sel) > 0 then 10000 else 0
  }

  lemma {:induction false} MulMono(d: int, a: int, b: int)
    requires d >= 0 && a <= b
    ensures d * a <= d * b
  {
  }

  /** round(c / n * 100, 2) for 0 <= c <= n <= 15: a percentage, 0 only for c = 0 and 100 only for c = n. */
  lemma {:induction false} PercentOf(c: int, n: int)
    requires 0 <= c <= n && 1 <= n <= 15
    ensures var r := RoundDiv(c * 10000, n);
            && 0 <= r <= 10000 && (r == 0 <==> c == 0) && (r == 10000 <==> c == n)
  {
    var r := RoundDiv(c * 10000, n);
    var big := c * 10000;
    var m := n * r;
    assert -n <= 2 * (big - m) < n;
    if r < 0 {
      MulMono(n, r, -1);
      assert false;
    }
    if r > 10000 {
      MulMono(n, 10001, r);
      MulMono(10000, c, n);
      assert false;
    }
    if c == 0 && r > 0 {
      MulMono(n, 1, r);
      assert false;
    }
    if c > 0 && r == 0 {
      assert false;
    }
    if c < n && r == 10000 {
      MulMono(10000, c, n - 1);
      assert false;
    }
    if c == n && r < 10000 {
      MulMono(n, r, 9999);
      assert false;
    }
  }

  /**
   * Consistency is a percentage, 0 exactly when no selected day is complete and 100 exactly when
   * every one is; adherence is 0 or 100.
   */
  lemma {:induction false} ConsistencyBounds(sel: seq<ChartEntry>)
    requires sel != [] && |sel| <= 15
    ensures 0 <= Consistency(sel) <= 10000
    ensures Consistency(sel) == 0 <==> CountLogged(sel) == 0
    ensures Consistency(sel) == 10000 <==> CountLogged(sel) == |sel|
    ensures Adherence(sel) == 0 || Adherence(sel) == 10000
  {
    PercentOf(CountLogged(sel), |sel|);
  }

  function Points(sel: seq<ChartEntry>): (r: seq<ChartPoint>)
    ensures |r| == |sel| && forall i :: 0 <= i < |sel| ==> r[i] == ChartPoint(sel[i].date, sel[i].total)
  {
    seq(|sel|, i requires 0 <= i < |sel| => ChartPoint(sel[i].date, sel[i].total))
  }

  /** The response data for a non-empty set of entries. */
  function Chart(logs: seq<DietProgressLogDoc>): ChartData
    requires Flatten(logs) != []
  {
    var sel := Latest15(Flatten(logs));
    ChartData(sel[0].date + " to " + sel[|sel| - 1].date, LastWeight(logs), Consistency(sel),
              Adherence(sel), Points(sel))
  }

  const NoDataMessage: string := "No diet progress data found."
  const NoEntriesMessage: string := "No daily calorie logs found."
  const ChartMessage: string := "Diet chart progress generated successfully."

  /** The logs `find({"user_id": ObjectId(user_id)})` returns. */
  function UserLogs(docs: seq<DietProgressLogDoc>, userId: string): seq<DietProgressLogDoc>
    requires IsValidObjectId(userId)
  {
    Select(docs, (d: DietProgressLogDoc) => d.userId == ObjectIdKey(userId))
  }

  /**
   * `get_diet_chart_data`: 404 when the user has no logs or no entry with calories; otherwise the
   * fifteen latest entries, oldest first, with the period they span.
   */
  method GetDietChartData(docs: seq<DietProgressLogDoc>, userId: string) returns (resp: Response<ChartData>)
    ensures !IsValidObjectId(userId) ==> resp == InternalError
    ensures IsValidObjectId(userId) ==>
              var logs := UserLogs(docs, userId);
              if logs == [] then resp == ApiResponse(NoDataMessage, 404, None)
              else if Flatten(logs) == [] then resp == ApiResponse(NoEntriesMessage, 404, None)
              else resp == ApiResponse(ChartMessage, 200, Some(Chart(logs)))
  {
    if !IsValidObjectId(userId) {
      return InternalError;
    }
    var logs := UserLogs(docs, userId);
    if logs == [] {
      return ApiResponse(NoDataMessage, 404, None);
    }
    var allEntries := FlattenLogs(logs);
    if allEntries == [] {
      return ApiResponse(NoEntriesMessage, 404, None);
    }
    var chart := BuildChart(logs, allEntries);
    resp := ApiResponse(ChartMessage, 200, Some(chart));
  }

  /** The success path: the fifteen latest entries, the last weight, and the percentages over them. */
  method BuildChart(logs: seq<DietProgressLogDoc>, allEntries: seq<ChartEntry>) returns (chart: ChartData)
    requires allEntries == Flatten(logs) && allEntries != []
    ensures chart == Chart(logs)
  {
    var sortedLogs := Latest15(allEntries);
    var lastWeight := FindLastWeight(logs);
    var dailyChartData, consistencyCount := ChartPoints(sortedLogs);
    var consistency := RoundDiv(consistencyCount * 10000, |sortedLogs|);
    var adherence := if consistencyCount > 0 then 10000 else 0;
    var period := sortedLogs[0].date + " to " + sortedLogs[|sortedLogs| - 1].date;
    assert consistency == Consistency(sortedLogs) && adherence == Adherence(sortedLogs);
    chart := ChartData(period, lastWeight, consistency, adherence, dailyChartData);
  }

  /** The flattening loop: each log's entries that carry calories, logs in order. */
  method FlattenLogs(logs: seq<DietProgressLogDoc>) returns (allEntries: seq<ChartEntry>)
    ensures allEntries == Flatten(logs)
  {
    allEntries := [];
    var p := 0;
    while p < |logs|
      invariant 0 <= p <= |logs|
      invariant allEntries == Flatten(logs[..p])
    {
      var dailyLogs := logs[p].dailyLog;
      var j := 0;
      while j < |dailyLogs|
        invariant 0 <= j <= |dailyLogs|
        invariant allEntries == Flatten(logs[..p]) + Entries(dailyLogs[..j])
      {
        var entry := dailyLogs[j];
        assert dailyLogs[..j + 1][..j] == dailyLogs[..j];
        if entry.calories.Some? {
          var c := entry.calories.value;
          allEntries := allEntries + [ChartEntry(entry.date, OrZero(c.breakfast), OrZero(c.lunch),
                                                 OrZero(c.dinner), OrZero(c.total))];
        }
        j := j + 1;
      }
      assert dailyLogs[..j] == dailyLogs;
      assert logs[..p + 1][..p] == logs[..p];
      p := p + 1;
    }
    assert logs[..p] == logs;
  }

  /** The weight loop: logs from the last to the first, stopping at the first truthy weight. */
  method FindLastWeight(logs: seq<DietProgressLogDoc>) returns (lastWeight: Json)
    ensures lastWeight == LastWeight(logs)
  {
    lastWeight := JStr("N/A");
    var k := |logs|;
    assert logs[..k] == logs;
    while k > 0
      invariant 0 <= k <= |logs|
      invariant LastWeight(logs) == LastWeight(logs[..k])
      invariant lastWeight == JStr("N/A")
    {
      assert logs[..k][..k - 1] == logs[..k - 1];
      if Truthy(logs[k - 1].topLevelWeight) {
        lastWeight := logs[k - 1].topLevelWeight;
        return;
      }
      k := k - 1;
    }
  }

  /** The chart loop: one point per selected entry, counting the complete days. */
  method ChartPoints(sortedLogs: seq<ChartEntry>) returns (dailyChartData: seq<ChartPoint>, consistencyCount: nat)
    ensures dailyChartData == Points(sortedLogs)
    ensures consistencyCount == CountLogged(sortedLogs)
  {
    dailyChartData := [];
    consistencyCount := 0;
    var i := 0;
    while i < |sortedLogs|
      invariant 0 <= i <= |sortedLogs|
      invariant consistencyCount == CountLogged(sortedLogs[..i])
      invariant dailyChartData == Points(sortedLogs[..i])
    {
      var entry := sortedLogs[i];
      assert sortedLogs[..i + 1][..i] == sortedLogs[..i];
      if entry.breakfast > 0 && entry.lunch > 0 && entry.dinner > 0 {
        consistencyCount := consistencyCount + 1;
      }
      dailyChartData := dailyChartData + [ChartPoint(entry.date, entry.total)];
      i := i + 1;
    }
    assert sortedLogs[..i] == sortedLogs;
  }
}
