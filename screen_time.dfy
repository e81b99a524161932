/**
 * The usage store and the streak/goal engine of the screen-time service: a chronological
 * list of daily usage records, a settings record, and the values derived from them
 * (weekly window, weekly average, daily goal, current and longest streak, goal count).
 */
module ScreenTime {
  import opened Wrappers

  /** One stored day: its `YYYY-MM-DD` key and the minutes of use recorded for it. */
  datatype DailyUsage = DailyUsage(date: string, usage: int)

  /**
   * The persisted settings. Only `goalReduction` and `longestStreak` are written by this
   * service; the other three fields are carried but never updated here.
   */
  datatype AppSettings = AppSettings(
    goalReduction: int,
    weeklyAverage: int,
    currentStreak: int,
    longestStreak: nat,
    daysCompleted: int)

  /** What `getSettings` yields when nothing is stored. */
  const DefaultSettings := AppSettings(10, 0, 0, 0, 0)

  /** The number of days in the weekly window. */
  const WindowLength := 7

  function Min(a: int, b: int): int { if a <= b then a else b }

  // ---------------------------------------------------------------------------
  // Records, looked up by date
  // ---------------------------------------------------------------------------

  /** `findIndex` on the date key: the first record for `date`, if there is one. */
  function FindDate(data: seq<DailyUsage>, date: string): (r: Option<nat>)
    ensures r.Some? ==> r.value < |data| && data[r.value].date == date
    ensures r.Some? ==> forall j :: 0 <= j < r.value ==> data[j].date != date
    ensures r.None? ==> forall j :: 0 <= j < |data| ==> data[j].date != date
  {
    if |data| == 0 then None
    else if data[0].date == date then Some(0)
    else match FindDate(data[1..], date)
      case None => None
      case Some(i) => Some(i + 1)
  }

  /** The usage recorded for `date` (the first record), as the store's readers see it. */
  function UsageOn(data: seq<DailyUsage>, date: string): Option<int> {
    match FindDate(data, date)
    case Some(i) => Some(data[i].usage)
    case None => None
  }

  /** No two records share a date. */
  predicate UniqueDates(data: seq<DailyUsage>) {
    forall i, j :: 0 <= i < j < |data| ==> data[i].date != data[j].date
  }

  /**
   * Two lists whose dates agree on the first one's length, and whose extra records are not
   * for `date`, find the same record for `date`.
   */
  lemma FindDateAgrees(a: seq<DailyUsage>, b: seq<DailyUsage>, date: string)
    requires |a| <= |b|
    requires forall i :: 0 <= i < |a| ==> a[i].date == b[i].date
    requires forall i :: |a| <= i < |b| ==> b[i].date != date
    ensures FindDate(b, date) == FindDate(a, date)
    decreases |a|
  {
    if |a| > 0 && a[0].date != date {
      assert forall i :: 0 <= i < |a| - 1 ==> a[1..][i].date == b[1..][i].date;
      assert forall i :: |a| - 1 <= i < |b| - 1 ==> b[1..][i].date != date;
      FindDateAgrees(a[1..], b[1..], date);
    }
  }

  /** Appending a record for a date the list does not have makes that record the one found. */
  lemma FindDateAppended(data: seq<DailyUsage>, rec: DailyUsage)
    requires forall j :: 0 <= j < |data| ==> data[j].date != rec.date
    ensures FindDate(data + [rec], rec.date) == Some(|data|)
  {
    var r := data + [rec];
    assert r[|data|].date == rec.date;
  }

  /**
   * Replacing a record for `date` by another one for the same date, or appending
   * a record for a date the list does not have, leaves every other date's usage as it was.
   */
  lemma OtherDatesKept(data: seq<DailyUsage>, r: seq<DailyUsage>, date: string)
    requires |data| <= |r| <= |data| + 1
    requires forall i :: 0 <= i < |data| ==> r[i].date == data[i].date
    requires forall i :: 0 <= i < |data| && data[i].date != date ==> r[i] == data[i]
    requires |r| == |data| + 1 ==> r[|data|].date == date
    ensures forall d :: d != date ==> UsageOn(r, d) == UsageOn(data, d)
  {
    forall d | d != date ensures UsageOn(r, d) == UsageOn(data, d) {
      FindDateAgrees(data, r, d);
    }
  }

  /**
   * `setTodayUsage` on values: today's record gets `minutes`, or one record
   * `{today, minutes}` is appended when there is none.
   */
  function Upserted(data: seq<DailyUsage>, today: string, minutes: int): (r: seq<DailyUsage>)
    ensures UsageOn(r, today) == Some(minutes)
    ensures forall d :: d != today ==> UsageOn(r, d) == UsageOn(data, d)
    ensures |r| == if UsageOn(data, today).Some? then |data| else |data| + 1
    ensures forall i :: 0 <= i < |data| ==> r[i].date == data[i].date
    ensures forall i :: 0 <= i < |data| && data[i].date != today ==> r[i] == data[i]
    ensures forall i :: 0 <= i < |data| && FindDate(data, today) != Some(i) ==> r[i] == data[i]
    ensures UsageOn(data, today).None? ==> r == data + [DailyUsage(today, minutes)]
    ensures UniqueDates(data) ==> UniqueDates(r)
  {
    match FindDate(data, today)
    case Some(i) =>
      var r := data[i := data[i].(usage := minutes)];
      FindDateAgrees(data, r, today);
      OtherDatesKept(data, r, today);
      r
    case None =>
      var r := data + [DailyUsage(today, minutes)];
      FindDateAppended(data, DailyUsage(today, minutes));
      OtherDatesKept(data, r, today);
      r
  }

  /**
   * `updateTodayUsage` on values: `extra` minutes are added to today's record, or one
   * record `{today, extra}` is appended when there is none.
   */
  function Incremented(data: seq<DailyUsage>, today: string, extra: int): (r: seq<DailyUsage>)
    ensures UsageOn(r, today) == Some(UsageOn(data, today).GetOr(0) + extra)
    ensures forall d :: d != today ==> UsageOn(r, d) == UsageOn(data, d)
    ensures |r| == if UsageOn(data, today).Some? then |data| else |data| + 1
    ensures forall i :: 0 <= i < |data| ==> r[i].date == data[i].date
    ensures forall i :: 0 <= i < |data| && data[i].date != today ==> r[i] == data[i]
    ensures forall i :: 0 <= i < |data| && FindDate(data, today) != Some(i) ==> r[i] == data[i]
    ensures UsageOn(data, today).None? ==> r == data + [DailyUsage(today, extra)]
    ensures UniqueDates(data) ==> UniqueDates(r)
  {
    match FindDate(data, today)
    case Some(i) =>
      var r := data[i := data[i].(usage := data[i].usage + extra)];
      FindDateAgrees(data, r, today);
      OtherDatesKept(data, r, today);
      r
    case None =>
      var r := data + [DailyUsage(today, extra)];
      FindDateAppended(data, DailyUsage(today, extra));
      OtherDatesKept(data, r, today);
      r
  }

  // ---------------------------------------------------------------------------
  // The weekly window and the values derived from it
  // ---------------------------------------------------------------------------

  /**
   * The fallback path of `getWeeklyData`: the usages of the last `min(7, |data|)` records,
   * in order, preceded by as many zeros as make seven entries.
   */
  function WeeklyWindow(data: seq<DailyUsage>): (w: seq<int>)
    ensures |w| == WindowLength
    ensures forall i :: 0 <= i < WindowLength - Min(WindowLength, |data|) ==> w[i] == 0
    ensures forall i :: WindowLength - Min(WindowLength, |data|) <= i < WindowLength ==>
      w[i] == data[|data| - WindowLength + i].usage
  {
    var k := Min(WindowLength, |data|);
    seq(WindowLength, i requires 0 <= i < WindowLength =>
      if i < WindowLength - k then 0 else data[|data| - WindowLength + i].usage)
  }

  /** The entries of `w` that count as real data (`usage > 0`), in order. */
  function Positives(w: seq<int>): (p: seq<int>)
    ensures |p| <= |w|
    ensures forall x :: x in p <==> x in w && x > 0
    ensures forall x :: multiset(p)[x] == if x > 0 then multiset(w)[x] else 0
  {
    if |w| == 0 then []
    else
      assert w == [w[0]] + w[1..];
      if w[0] > 0 then [w[0]] + Positives(w[1..])
      else Positives(w[1..])
  }

  function Sum(s: seq<int>): int {
    if |s| == 0 then 0 else s[0] + Sum(s[1..])
  }

  /** A sum of entries that are all at least `lo` is at least `|s| * lo`. */
  lemma {:induction false} SumAtLeast(s: seq<int>, lo: int)
    requires forall x :: x in s ==> lo <= x
    ensures |s| * lo <= Sum(s)
  {
    if |s| > 0 {
      assert s[0] in s && Sum(s) == s[0] + Sum(s[1..]);
      assert forall x :: x in s[1..] ==> x in s;
      SumAtLeast(s[1..], lo);
      assert |s| * lo == lo + (|s| - 1) * lo;
    }
  }

  /** A sum of entries that are all at most `hi` is at most `|s| * hi`. */
  lemma {:induction false} SumAtMost(s: seq<int>, hi: int)
    requires forall x :: x in s ==> x <= hi
    ensures Sum(s) <= |s| * hi
  {
    if |s| > 0 {
      assert s[0] in s && Sum(s) == s[0] + Sum(s[1..]);
      assert forall x :: x in s[1..] ==> x in s;
      SumAtMost(s[1..], hi);
      assert |s| * hi == hi + (|s| - 1) * hi;
    }
  }

  /** Euclidean division rounds down: `c * (s / c) <= s < c * (s / c + 1)`. */
  lemma FloorDivBounds(s: int, c: int)
    requires c > 0
    ensures c * (s / c) <= s < c * (s / c + 1)
  {
    var q, r := s / c, s % c;
    assert s == c * q + r && 0 <= r < c;
    assert c * (q + 1) == c * q + c;
  }

  /**
   * `getWeeklyAverage`: the floor of the mean of the positive entries, 0 when there are none.
   * The second ensures is what "floor of the mean" means: `count * avg <= sum < count * (avg + 1)`.
   */
  function WeeklyAverage(w: seq<int>): (avg: int)
    ensures (forall i :: 0 <= i < |w| ==> w[i] <= 0) ==> avg == 0
    ensures (exists i :: 0 <= i < |w| && w[i] > 0) ==>
      |Positives(w)| * avg <= Sum(Positives(w)) < |Positives(w)| * (avg + 1)
  {
    var p := Positives(w);
    assert forall i :: 0 <= i < |w| && w[i] > 0 ==> w[i] in p;
    if |p| == 0 then 0
    else
      assert p[0] in p && p[0] in w;
      FloorDivBounds(Sum(p), |p|);
      Sum(p) / |p|
  }

  /** Some positive entry of the window is at most the weekly average. */
  lemma SomePositiveAtMostAverage(w: seq<int>)
    requires exists i :: 0 <= i < |w| && w[i] > 0
    ensures exists i :: 0 <= i < |w| && 0 < w[i] <= WeeklyAverage(w)
  {
    var p, avg := Positives(w), WeeklyAverage(w);
    if forall i :: 0 <= i < |w| && w[i] > 0 ==> w[i] > avg {
      forall x | x in p ensures avg + 1 <= x {
        var i :| 0 <= i < |w| && w[i] == x;
      }
      SumAtLeast(p, avg + 1);
      assert false;
    }
  }

  /** Some positive entry of the window is at least the weekly average. */
  lemma SomePositiveAtLeastAverage(w: seq<int>)
    requires exists i :: 0 <= i < |w| && w[i] > 0
    ensures exists j :: 0 <= j < |w| && w[j] > 0 && WeeklyAverage(w) <= w[j]
  {
    var p, avg := Positives(w), WeeklyAverage(w);
    if forall j :: 0 <= j < |w| && w[j] > 0 ==> w[j] < avg {
      forall x | x in p ensures x <= avg - 1 {
        var j :| 0 <= j < |w| && w[j] == x;
      }
      SumAtMost(p, avg - 1);
      assert false;
    }
  }

  /**
   * The weekly average lies between the smallest and the largest positive entry of the
   * window, and it is zero exactly when no entry is positive.
   */
  lemma AverageWithinPositives(w: seq<int>)
    ensures WeeklyAverage(w) >= 0
    ensures WeeklyAverage(w) == 0 <==> forall i :: 0 <= i < |w| ==> w[i] <= 0
    ensures (exists i :: 0 <= i < |w| && w[i] > 0) ==>
      (exists i :: 0 <= i < |w| && 0 < w[i] <= WeeklyAverage(w)) &&
      (exists j :: 0 <= j < |w| && w[j] > 0 && WeeklyAverage(w) <= w[j])
  {
    if exists i :: 0 <= i < |w| && w[i] > 0 {
      SomePositiveAtMostAverage(w);
      SomePositiveAtLeastAverage(w);
    }
  }

  /** `getDailyGoal` from the average: `max(0, average - reduction)`. */
  function DailyGoal(average: int, reduction: int): (goal: int)
    ensures goal >= 0 && goal >= average - reduction
    ensures goal == 0 || goal == average - reduction
  {
    if average - reduction > 0 then average - reduction else 0
  }

  /**
   * The number of trailing records whose usage is within `goal`: every record of that
   * suffix meets the goal and the record just before it, if any, does not.
   */
  function TrailingRun(data: seq<DailyUsage>, goal: int): (k: nat)
    ensures k <= |data|
    ensures forall i :: |data| - k <= i < |data| ==> data[i].usage <= goal
    ensures k < |data| ==> data[|data| - 1 - k].usage > goal
  {
    if |data| == 0 || data[|data| - 1].usage > goal then 0
    else 1 + TrailingRun(data[..|data| - 1], goal)
  }

  /** The trailing run is the longest suffix of the history that meets the goal. */
  lemma TrailingRunIsLongest(data: seq<DailyUsage>, goal: int, k: nat)
    requires k <= |data|
    requires forall i :: |data| - k <= i < |data| ==> data[i].usage <= goal
    ensures k <= TrailingRun(data, goal)
  {
  }

  /**
   * `getCurrentStreak`'s value: no streak without a goal; otherwise the longest suffix of the
   * history within the goal, so the record just before it, if any, exceeds the goal.
   */
  function CurrentStreak(data: seq<DailyUsage>, goal: int): (streak: nat)
    ensures streak <= |data|
    ensures goal == 0 ==> streak == 0
    ensures goal != 0 ==> forall i :: |data| - streak <= i < |data| ==> data[i].usage <= goal
    ensures goal != 0 && streak < |data| ==> data[|data| - 1 - streak].usage > goal
  {
    if goal == 0 then 0 else TrailingRun(data, goal)
  }

  /** The positions of the window whose entry meets the goal: `0 < usage <= goal`. */
  function MetDays(w: seq<int>, goal: int): set<nat> {
    set i: nat | i < |w| && 0 < w[i] <= goal
  }

  /** Dropping the last entry drops at most the last position from the met days. */
  lemma MetDaysStep(w: seq<int>, goal: int)
    requires |w| > 0
    ensures MetDays(w, goal) ==
      MetDays(w[..|w| - 1], goal) + (if 0 < w[|w| - 1] <= goal then {|w| - 1} else {})
    ensures |w| - 1 !in MetDays(w[..|w| - 1], goal)
  {
    var init := w[..|w| - 1];
    assert forall i :: 0 <= i < |init| ==> init[i] == w[i];
  }

  /** The number of window entries that meet the goal: `0 < usage <= goal`. */
  function CountMet(w: seq<int>, goal: int): (n: nat)
    ensures n == |MetDays(w, goal)|
    ensures n <= |w|
    ensures n == |w| <==> forall i :: 0 <= i < |w| ==> 0 < w[i] <= goal
    ensures n == 0 <==> forall i :: 0 <= i < |w| ==> !(0 < w[i] <= goal)
  {
    if |w| == 0 then
      assert MetDays(w, goal) == {};
      0
    else
      var init := w[..|w| - 1];
      var rest := CountMet(init, goal);
      assert forall i :: 0 <= i < |init| ==> init[i] == w[i];
      MetDaysStep(w, goal);
      rest + (if 0 < w[|w| - 1] <= goal then 1 else 0)
  }

  /** `getGoalAchievements` from the window and the goal: the days that met a non-zero goal. */
  function GoalAchievements(w: seq<int>, goal: int): (n: nat)
    ensures n <= |w|
    ensures goal == 0 ==> n == 0
    ensures goal != 0 ==> n == |MetDays(w, goal)|
  {
    if goal == 0 then 0 else CountMet(w, goal)
  }

  /** Worked example: oldest-to-newest usages 50, 50, 200, 50, 50 against goal 60 give a streak of 2. */
  lemma StreakExample()
    ensures CurrentStreak([DailyUsage("d1", 50), DailyUsage("d2", 50), DailyUsage("d3", 200),
                           DailyUsage("d4", 50), DailyUsage("d5", 50)], 60) == 2
  {
    var data := [DailyUsage("d1", 50), DailyUsage("d2", 50), DailyUsage("d3", 200),
                 DailyUsage("d4", 50), DailyUsage("d5", 50)];
    assert data[2].usage == 200 && data[3].usage == 50 && data[4].usage == 50;
  }

  /** Worked example: a week of 70-minute days meets a goal of 80 on all seven days and a goal of 60 on none. */
  lemma GoalAchievementsExample()
    ensures GoalAchievements([70, 70, 70, 70, 70, 70, 70], 60) == 0
    ensures GoalAchievements([70, 70, 70, 70, 70, 70, 70], 80) == 7
  {
  }

  /** `n` zero-usage placeholders, as `getWeeklyData` prepends them. */
  function Padding(n: nat): (p: seq<DailyUsage>)
    ensures |p| == n && forall i :: 0 <= i < n ==> p[i] == DailyUsage("", 0)
  {
    seq(n, _ => DailyUsage("", 0))
  }

  lemma PaddingGrows(n: nat, tail: seq<DailyUsage>)
    ensures [DailyUsage("", 0)] + (Padding(n) + tail) == Padding(n + 1) + tail
  {
  }

  /** `slice(-7)`: the last seven records, or all of them when there are fewer. */
  function LastRecords(data: seq<DailyUsage>): (tail: seq<DailyUsage>)
    ensures |tail| == Min(WindowLength, |data|)
    ensures tail == data[|data| - |tail|..]
  {
    if |data| <= WindowLength then data else data[|data| - WindowLength..]
  }

  /** The last records, padded in front with placeholders to seven, yield the weekly window. */
  lemma PaddedWindow(data: seq<DailyUsage>, last7: seq<DailyUsage>)
    requires |last7| == WindowLength
    requires last7 == Padding(WindowLength - |LastRecords(data)|) + LastRecords(data)
    ensures seq(|last7|, i requires 0 <= i < |last7| => last7[i].usage) == WeeklyWindow(data)
  {
    var w, tail := WeeklyWindow(data), LastRecords(data);
    var k := WindowLength - |tail|;
    forall i | 0 <= i < WindowLength
      ensures last7[i].usage == w[i]
    {
      if i < k {
        assert last7[i] == Padding(k)[i];
      } else {
        assert last7[i] == tail[i - k] == data[|data| - WindowLength + i];
      }
    }
  }

  // ---------------------------------------------------------------------------
  // The store
  // ---------------------------------------------------------------------------

  /** The persisted usage list and settings of the screen-time service. */
  class ScreenTimeStore {
    var data: seq<DailyUsage>
    var settings: AppSettings

    /**
     * Dates in the usage list are unique. The usage updates keep it so, and so does the mock
     * seeding when the mock week's dates are distinct.
     */
    ghost predicate Valid()
      reads this
    {
      UniqueDates(data)
    }

    /** A store with nothing persisted yet. */
    constructor ()
      ensures Valid()
      ensures data == [] && settings == DefaultSettings
    {
      data := [];
      settings := DefaultSettings;
    }

    /** The goal the getters derive from the current store. */
    function Goal(): (goal: int)
      reads this
      ensures goal >= 0
      ensures goal == 0 || goal == WeeklyAverage(WeeklyWindow(data)) - settings.goalReduction
      ensures goal >= WeeklyAverage(WeeklyWindow(data)) - settings.goalReduction
    {
      DailyGoal(WeeklyAverage(WeeklyWindow(data)), settings.goalReduction)
    }

    /** `getStoredData`. */
    method GetStoredData() returns (records: seq<DailyUsage>)
      ensures records == data
    {
      records := data;
    }

    /**
     * `initializeMockData`, with the randomly generated week passed in as `mockWeek`: an
     * empty history is replaced by it, and a zero goal reduction becomes 10.
     */
    method InitializeMockData(mockWeek: seq<DailyUsage>)
      modifies this
      ensures data == if old(data) == [] then mockWeek else old(data)
      ensures settings == if old(settings.goalReduction) == 0
        then old(settings).(goalReduction := 10) else old(settings)
      ensures mockWeek != [] ==> data != []
      ensures old(Valid()) && UniqueDates(mockWeek) ==> Valid()
    {
      if data == [] {
        data := mockWeek;
      }
      if settings.goalReduction == 0 {
        SetGoalReduction(10);
      }
    }

    /** `setTodayUsage(minutes)` for the date key `today`. */
    method SetTodayUsage(today: string, minutes: int)
      modifies this
      ensures data == Upserted(old(data), today, minutes)
      ensures settings == old(settings)
      ensures old(Valid()) ==> Valid()
    {
      var todayIndex := FindDate(data, today);
      if todayIndex.Some? {
        data := data[todayIndex.value := data[todayIndex.value].(usage := minutes)];
      } else {
        data := data + [DailyUsage(today, minutes)];
      }
    }

    /** `updateTodayUsage(additionalMinutes)` for the date key `today`. */
    method UpdateTodayUsage(today: string, additionalMinutes: int)
      modifies this
      ensures data == Incremented(old(data), today, additionalMinutes)
      ensures settings == old(settings)
      ensures old(Valid()) ==> Valid()
    {
      var todayIndex := FindDate(data, today);
      if todayIndex.Some? {
        var i := todayIndex.value;
        data := data[i := data[i].(usage := data[i].usage + additionalMinutes)];
      } else {
        data := data + [DailyUsage(today, additionalMinutes)];
      }
    }

    /** `getWeeklyData` on stored data: the last seven records, left-padded with zero-usage placeholders. */
    method GetWeeklyData() returns (week: seq<int>)
      ensures week == WeeklyWindow(data)
    {
      var last7 := LastRecords(data);
      ghost var tail, pad := last7, 0;
      assert last7 == Padding(0) + tail;
      while |last7| < WindowLength
        invariant |last7| == pad + |tail| <= WindowLength
        invariant last7 == Padding(pad) + tail
        decreases WindowLength - |last7|
      {
        PaddingGrows(pad, tail);
        last7 := [DailyUsage("", 0)] + last7;
        pad := pad + 1;
      }
      week := seq(|last7|, i requires 0 <= i < |last7| => last7[i].usage);
      PaddedWindow(data, last7);
    }

    /** `getWeeklyAverage`. */
    method GetWeeklyAverage() returns (average: int)
      ensures average == WeeklyAverage(WeeklyWindow(data))
    {
      var week := GetWeeklyData();
      average := WeeklyAverage(week);
    }

    /** `getDailyGoal`. */
    method GetDailyGoal() returns (goal: int)
      ensures goal == Goal() && goal >= 0
    {
      var average := GetWeeklyAverage();
      goal := DailyGoal(average, settings.goalReduction);
    }

    /**
     * `getCurrentStreak`: counts the trailing records within the goal, walking backwards from
     * the newest, and raises `longestStreak` to it when it is larger.
     */
    method GetCurrentStreak() returns (streak: nat)
      modifies this
      ensures data == old(data)
      ensures streak == CurrentStreak(old(data), old(Goal()))
      ensures settings == old(settings).(longestStreak :=
        if streak > old(settings.longestStreak) then streak else old(settings.longestStreak))
      ensures settings.longestStreak >= old(settings.longestStreak)
    {
      var goal := GetDailyGoal();
      if goal == 0 {
        return 0;
      }
      streak := 0;
      var i := |data| - 1;
      while i >= 0
        invariant -1 <= i < |data|
        invariant streak == |data| - 1 - i
        invariant forall j :: i < j < |data| ==> data[j].usage <= goal
      {
        if data[i].usage <= goal {
          streak := streak + 1;
        } else {
          break;
        }
        i := i - 1;
      }
      TrailingRunIsLongest(data, goal, streak);
      if streak > settings.longestStreak {
        settings := settings.(longestStreak := streak);
      }
    }

    /** `getGoalAchievements`. */
    method GetGoalAchievements() returns (count: nat)
      ensures count == GoalAchievements(WeeklyWindow(data), Goal())
      ensures count <= WindowLength
    {
      var week := GetWeeklyData();
      var goal := GetDailyGoal();
      if goal == 0 {
        return 0;
      }
      count := CountMet(week, goal);
    }

    /** `getDaysCompleted`: the number of stored days, capped at seven. */
    method GetDaysCompleted() returns (days: nat)
      ensures days <= WindowLength && days <= |data|
      ensures days == WindowLength || days == |data|
    {
      days := Min(|data|, WindowLength);
    }

    /** `getGoalReduction`. */
    method GetGoalReduction() returns (minutes: int)
      ensures minutes == settings.goalReduction
    {
      minutes := settings.goalReduction;
    }

    /** `setGoalReduction`: only the reduction changes. */
    method SetGoalReduction(minutes: int)
      modifies this
      ensures settings == old(settings).(goalReduction := minutes)
      ensures data == old(data)
    {
      settings := settings.(goalReduction := minutes);
    }

    /** `getLongestStreak`. */
    method GetLongestStreak() returns (longest: nat)
      ensures longest == settings.longestStreak
    {
      longest := settings.longestStreak;
    }

    /** `resetAllData`: the usage list and the settings are removed, so readers see the defaults. */
    method ResetAllData()
      modifies this
      ensures data == [] && settings == DefaultSettings
      ensures Valid()
    {
      data := [];
      settings := DefaultSettings;
    }
  }
}
