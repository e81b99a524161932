/**
 * The achievement evaluator: a fixed catalogue of seven achievements, each unlocked at most
 * once by threshold rules on the streak, on today's usage against the weekly average, and on
 * the weekly goal count. Every check reports the entries it newly unlocked.
 */
module Achievements {
  import opened Wrappers

  datatype Category = Streak | Reduction | Milestone

  /** An achievement; `unlockedAt` is the unlock timestamp in milliseconds, `None` while locked. */
  datatype Achievement = Achievement(
    id: string,
    title: string,
    description: string,
    icon: string,
    unlockedAt: Option<int>,
    category: Category)

  /** `DEFAULT_ACHIEVEMENTS`. */
  function DefaultAchievements(): (catalogue: seq<Achievement>)
    ensures |catalogue| == 7
    ensures forall i :: 0 <= i < |catalogue| ==> catalogue[i].unlockedAt.None?
  {
    var c := [
      Achievement("first_day", "First Step", "Complete your first day under your goal", "star", None, Streak),
      Achievement("week_streak", "Week Warrior", "Maintain your streak for 7 days", "calendar", None, Streak),
      Achievement("month_streak", "Monthly Master", "Keep your streak alive for 30 days", "trophy", None, Streak),
      Achievement("hundred_days", "Century Club", "Reach a 100-day streak", "trophy", None, Streak),
      Achievement("hour_reduction", "Hour Saver", "Reduce daily usage by 1 hour from your average", "target", None, Reduction),
      Achievement("half_usage", "Halfway Hero", "Cut your usage in half from your starting average", "zap", None, Reduction),
      Achievement("consistency_king", "Consistency King", "Meet your goal 6 out of 7 days in a week", "target", None, Milestone)
    ];
    c
  }

  /** The catalogue's ids are distinct: they already differ in their first two letters. */
  lemma DefaultIdsDistinct()
    ensures DistinctIds(DefaultAchievements())
  {
    var c := DefaultAchievements();
    var ids := ["first_day", "week_streak", "month_streak", "hundred_days", "hour_reduction",
                "half_usage", "consistency_king"];
    assert forall i :: 0 <= i < 7 ==> c[i].id == ids[i];
    forall i, j | 0 <= i < j < 7
      ensures ids[i] != ids[j]
    {
      assert ids[i][0] != ids[j][0] || ids[i][1] != ids[j][1];
    }
  }

  /** No two entries share an id. */
  predicate DistinctIds(list: seq<Achievement>) {
    forall i, j :: 0 <= i < j < |list| ==> list[i].id != list[j].id
  }

  /** `find` on the id: the first entry with `id`, if there is one. */
  function FindAchievement(list: seq<Achievement>, id: string): (r: Option<nat>)
    ensures r.Some? ==> r.value < |list| && list[r.value].id == id
    ensures r.Some? ==> forall j :: 0 <= j < r.value ==> list[j].id != id
    ensures r.None? ==> forall j :: 0 <= j < |list| ==> list[j].id != id
  {
    if |list| == 0 then None
    else if list[0].id == id then Some(0)
    else match FindAchievement(list[1..], id)
      case None => None
      case Some(i) => Some(i + 1)
  }

  /** The entry for `id` is there and still locked. */
  predicate IsLocked(list: seq<Achievement>, id: string) {
    var i := FindAchievement(list, id);
    i.Some? && list[i.value].unlockedAt.None?
  }

  /** `b` is `a` with, at most, some locked entries given a timestamp. */
  predicate OnlyUnlocks(a: seq<Achievement>, b: seq<Achievement>) {
    && |a| == |b|
    && (forall i :: 0 <= i < |a| ==> b[i] == a[i] || (a[i].unlockedAt.None? && b[i] == a[i].(unlockedAt := b[i].unlockedAt)))
  }

  /** Lists with the same ids in the same places find the same entry for every id. */
  lemma FindAchievementAgrees(a: seq<Achievement>, b: seq<Achievement>, id: string)
    requires |a| == |b|
    requires forall i :: 0 <= i < |a| ==> a[i].id == b[i].id
    ensures FindAchievement(a, id) == FindAchievement(b, id)
    decreases |a|
  {
    if |a| > 0 && a[0].id != id {
      assert forall i :: 0 <= i < |a| - 1 ==> a[1..][i].id == b[1..][i].id;
      FindAchievementAgrees(a[1..], b[1..], id);
    }
  }

  /**
   * `unlockAchievement` on values: the entry for `id` gets timestamp `now` if it is still
   * locked; an unlocked entry keeps its timestamp, an unknown id changes nothing, and no
   * other entry changes.
   */
  function Unlocked(list: seq<Achievement>, id: string, now: int): (r: seq<Achievement>)
    ensures OnlyUnlocks(list, r)
    ensures forall i :: 0 <= i < |list| && list[i].id != id ==> r[i] == list[i]
    ensures forall i :: 0 <= i < |list| && list[i].unlockedAt.Some? ==> r[i] == list[i]
    ensures !IsLocked(list, id) ==> r == list
    ensures IsLocked(list, id) ==> var i := FindAchievement(list, id).value;
      r == list[i := list[i].(unlockedAt := Some(now))]
    ensures !IsLocked(r, id)
  {
    var i := FindAchievement(list, id);
    if i.Some? && list[i.value].unlockedAt.None? then
      var r := list[i.value := list[i.value].(unlockedAt := Some(now))];
      FindAchievementAgrees(list, r, id);
      r
    else list
  }

  /** Unlocking each of `ids` in turn. */
  function UnlockAll(list: seq<Achievement>, ids: seq<string>, now: int): (r: seq<Achievement>)
    ensures OnlyUnlocks(list, r)
  {
    if |ids| == 0 then list
    else
      var before := UnlockAll(list, ids[..|ids| - 1], now);
      var r := Unlocked(before, ids[|ids| - 1], now);
      OnlyUnlocksTransitive(list, before, r);
      r
  }

  /** A check leaves every entry whose id it did not check exactly as it was. */
  lemma {:induction false} UnlockAllFrame(list: seq<Achievement>, ids: seq<string>, now: int)
    ensures forall i :: 0 <= i < |list| && list[i].id !in ids ==> UnlockAll(list, ids, now)[i] == list[i]
  {
    if |ids| > 0 {
      var init := ids[..|ids| - 1];
      UnlockAllFrame(list, init, now);
      forall i | 0 <= i < |list| && list[i].id !in ids
        ensures UnlockAll(list, ids, now)[i] == list[i]
      {
        assert list[i].id !in init && list[i].id != ids[|ids| - 1];
      }
    }
  }

  /** A checked id whose entry was locked has that entry unlocked at `now`. */
  lemma {:induction false} UnlockAllStampsNow(list: seq<Achievement>, ids: seq<string>, now: int)
    ensures forall id :: id in ids && IsLocked(list, id) ==>
      UnlockAll(list, ids, now)[FindAchievement(list, id).value].unlockedAt == Some(now)
  {
    if |ids| > 0 {
      var init, last := ids[..|ids| - 1], ids[|ids| - 1];
      var before := UnlockAll(list, init, now);
      UnlockAllStampsNow(list, init, now);
      forall id | id in ids && IsLocked(list, id)
        ensures UnlockAll(list, ids, now)[FindAchievement(list, id).value].unlockedAt == Some(now)
      {
        var j := FindAchievement(list, id).value;
        if id !in init {
          assert id == last;
          UnlockAllFrame(list, init, now);
          assert before[j] == list[j];
          FindAchievementAgrees(list, before, id);
        }
      }
    }
  }

  lemma OnlyUnlocksTransitive(a: seq<Achievement>, b: seq<Achievement>, c: seq<Achievement>)
    requires OnlyUnlocks(a, b) && OnlyUnlocks(b, c)
    ensures OnlyUnlocks(a, c)
  {
  }

  /** An id that is not locked stays not locked once some entries are unlocked. */
  lemma NotLockedStays(a: seq<Achievement>, b: seq<Achievement>, id: string)
    requires OnlyUnlocks(a, b)
    requires !IsLocked(a, id)
    ensures !IsLocked(b, id)
  {
    FindAchievementAgrees(a, b, id);
  }

  /** The entries each check reports: for each id in turn, its entry when it was still locked. */
  function NewlyUnlocked(list: seq<Achievement>, ids: seq<string>): (r: seq<Achievement>)
    ensures |r| <= |ids|
    ensures forall e :: e in r ==> e in list && e.unlockedAt.None? && e.id in ids
  {
    if |ids| == 0 then []
    else
      var id := ids[|ids| - 1];
      var i := FindAchievement(list, id);
      NewlyUnlocked(list, ids[..|ids| - 1]) + (if IsLocked(list, id) then [list[i.value]] else [])
  }

  /** Checking one id reports its entry exactly when that entry is locked. */
  lemma NewlyUnlockedOne(list: seq<Achievement>, id: string)
    ensures NewlyUnlocked(list, [id]) ==
      if IsLocked(list, id) then [list[FindAchievement(list, id).value]] else []
  {
    assert [id][..0] == [];
  }

  /**
   * Reports follow the order of the checked ids: checking `a` then `b` reports what `a`
   * reports, then what `b` reports.
   */
  lemma {:induction false} NewlyUnlockedAppend(list: seq<Achievement>, a: seq<string>, b: seq<string>)
    ensures NewlyUnlocked(list, a + b) == NewlyUnlocked(list, a) + NewlyUnlocked(list, b)
    decreases |b|
  {
    if |b| == 0 {
      assert a + b == a;
    } else {
      var ab, init, id := a + b, b[..|b| - 1], b[|b| - 1];
      assert ab[..|ab| - 1] == a + init && ab[|ab| - 1] == id;
      NewlyUnlockedAppend(list, a, init);
      var step := if IsLocked(list, id) then [list[FindAchievement(list, id).value]] else [];
      assert NewlyUnlocked(list, ab) == NewlyUnlocked(list, a + init) + step;
      assert NewlyUnlocked(list, b) == NewlyUnlocked(list, init) + step;
    }
  }

  /** When the checked ids are distinct, no id is reported twice. */
  lemma {:induction false} NewlyUnlockedOnce(list: seq<Achievement>, ids: seq<string>)
    requires forall j, k :: 0 <= j < k < |ids| ==> ids[j] != ids[k]
    ensures DistinctIds(NewlyUnlocked(list, ids))
  {
    if |ids| > 0 {
      var init, id := ids[..|ids| - 1], ids[|ids| - 1];
      NewlyUnlockedOnce(list, init);
      var before := NewlyUnlocked(list, init);
      assert forall x :: 0 <= x < |init| ==> init[x] == ids[x];
      forall j | 0 <= j < |before|
        ensures before[j].id != id
      {
        assert before[j] in before;
      }
      if IsLocked(list, id) {
        var r := NewlyUnlocked(list, ids);
        assert r == before + [list[FindAchievement(list, id).value]];
        forall j, k | 0 <= j < k < |r|
          ensures r[j].id != r[k].id
        {
          assert r[j] == before[j];
          if k < |before| {
            assert r[k] == before[k];
          }
        }
      }
    }
  }

  /** Each id whose entry was locked is reported. */
  lemma {:induction false} NewlyUnlockedComplete(list: seq<Achievement>, ids: seq<string>, k: nat)
    requires k < |ids| && IsLocked(list, ids[k])
    ensures list[FindAchievement(list, ids[k]).value] in NewlyUnlocked(list, ids)
  {
    if k < |ids| - 1 {
      NewlyUnlockedComplete(list, ids[..|ids| - 1], k);
    }
  }

  /** After unlocking all of `ids`, none of them is locked any more. */
  lemma {:induction false} UnlockAllUnlocks(list: seq<Achievement>, ids: seq<string>, now: int)
    ensures forall id :: id in ids ==> !IsLocked(UnlockAll(list, ids, now), id)
  {
    if |ids| > 0 {
      var prefix := ids[..|ids| - 1];
      UnlockAllUnlocks(list, prefix, now);
      var before := UnlockAll(list, prefix, now);
      var r := Unlocked(before, ids[|ids| - 1], now);
      forall id | id in ids ensures !IsLocked(r, id) {
        if id != ids[|ids| - 1] {
          assert id in prefix;
          NotLockedStays(before, r, id);
        }
      }
    }
  }

  /** When none of `ids` is locked, there is nothing to report. */
  lemma {:induction false} NothingLockedNothingNew(list: seq<Achievement>, ids: seq<string>)
    requires forall id :: id in ids ==> !IsLocked(list, id)
    ensures NewlyUnlocked(list, ids) == []
  {
    if |ids| > 0 {
      assert ids[|ids| - 1] in ids;
      assert forall id :: id in ids[..|ids| - 1] ==> id in ids;
      NothingLockedNothingNew(list, ids[..|ids| - 1]);
    }
  }

  /**
   * Every check is idempotent: once `ids` have been unlocked, the same check reports nothing,
   * whatever timestamps the entries got.
   */
  lemma CheckIsIdempotent(list: seq<Achievement>, ids: seq<string>, now: int)
    ensures NewlyUnlocked(UnlockAll(list, ids, now), ids) == []
  {
    UnlockAllUnlocks(list, ids, now);
    NothingLockedNothingNew(UnlockAll(list, ids, now), ids);
  }

  /** An entry unlocked earlier keeps its timestamp however many further checks unlock. */
  lemma TimestampIsStable(list: seq<Achievement>, ids: seq<string>, now: int, i: nat)
    requires i < |list| && list[i].unlockedAt.Some?
    ensures UnlockAll(list, ids, now)[i] == list[i]
  {
  }

  /** A streak milestone: the number of days and the id of the achievement it unlocks. */
  datatype StreakMilestone = StreakMilestone(days: int, id: string)

  /** The streak milestones, in the order they are checked. */
  const StreakMilestones := [
    StreakMilestone(1, "first_day"), StreakMilestone(7, "week_streak"),
    StreakMilestone(30, "month_streak"), StreakMilestone(100, "hundred_days")]

  /** The ids of the milestones in `ms` that a streak of `streak` days has reached, in order. */
  function Reached(ms: seq<StreakMilestone>, streak: int): (ids: seq<string>)
    ensures |ids| <= |ms|
    ensures forall id :: id in ids <==>
      exists i :: 0 <= i < |ms| && ms[i].id == id && streak >= ms[i].days
  {
    if |ms| == 0 then []
    else
      var last := ms[|ms| - 1];
      Reached(ms[..|ms| - 1], streak) + (if streak >= last.days then [last.id] else [])
  }

  /** One more milestone checked is one more step of `Reached`. */
  lemma ReachedStep(ms: seq<StreakMilestone>, k: nat, streak: int)
    requires k < |ms|
    ensures Reached(ms[..k + 1], streak) ==
      Reached(ms[..k], streak) + (if streak >= ms[k].days then [ms[k].id] else [])
  {
    assert ms[..k + 1][..k] == ms[..k];
  }

  /** The achievements a streak qualifies for: those whose threshold (1, 7, 30, 100) it reaches. */
  lemma StreakQualifies(streak: int)
    ensures Reached(StreakMilestones, streak) ==
      (if streak >= 1 then ["first_day"] else []) +
      (if streak >= 7 then ["week_streak"] else []) +
      (if streak >= 30 then ["month_streak"] else []) +
      (if streak >= 100 then ["hundred_days"] else [])
  {
    var ms := StreakMilestones;
    var m1: seq<StreakMilestone>, m2: seq<StreakMilestone>, m3: seq<StreakMilestone> := ms[..1], ms[..2], ms[..3];
    assert m1[..0] == [] && m2[..1] == m1 && m3[..2] == m2 && ms[..3] == m3;
    assert Reached(m1, streak) == if streak >= 1 then ["first_day"] else [];
    assert Reached(m2, streak) == Reached(m1, streak) + if streak >= 7 then ["week_streak"] else [];
    assert Reached(m3, streak) == Reached(m2, streak) + if streak >= 30 then ["month_streak"] else [];
  }

  /** The ids `checkReductionAchievements` qualifies: an hour below the average, and at most half of it. */
  function ReductionIds(todayUsage: int, weeklyAverage: int): (ids: seq<string>)
    ensures "hour_reduction" in ids <==> weeklyAverage - todayUsage >= 60
    ensures "half_usage" in ids <==> 2 * todayUsage <= weeklyAverage
    ensures forall id :: id in ids ==> id == "hour_reduction" || id == "half_usage"
  {
    assert "hour_reduction" != "half_usage" by { assert "hour_reduction"[1] != "half_usage"[1]; }
    (if weeklyAverage - todayUsage >= 60 then ["hour_reduction"] else []) +
    (if 2 * todayUsage <= weeklyAverage then ["half_usage"] else [])
  }

  /** The ids `checkConsistencyAchievements` qualifies: goal met on at least six days. */
  function ConsistencyIds(goalAchievements: int): (ids: seq<string>)
    ensures "consistency_king" in ids <==> goalAchievements >= 6
    ensures forall id :: id in ids ==> id == "consistency_king"
  {
    if goalAchievements >= 6 then ["consistency_king"] else []
  }

  /** Appending one id to a fold is one more step of it. */
  lemma UnfoldLast(list: seq<Achievement>, ids: seq<string>, id: string, now: int)
    ensures UnlockAll(list, ids + [id], now) == Unlocked(UnlockAll(list, ids, now), id, now)
    ensures NewlyUnlocked(list, ids + [id]) ==
      NewlyUnlocked(list, ids) + (if IsLocked(list, id) then [list[FindAchievement(list, id).value]] else [])
  {
    assert (ids + [id])[..|ids|] == ids;
  }

  /** The persisted achievement list; `None` until it is first seeded. */
  class AchievementStore {
    var stored: Option<seq<Achievement>>

    /** A store with nothing persisted yet. */
    constructor ()
      ensures stored == None
    {
      stored := None;
    }

    /** What `getAchievements` returns: the stored list, else the catalogue. */
    function Loaded(): (achievements: seq<Achievement>)
      reads this
      ensures stored.Some? ==> achievements == stored.value
      ensures stored.None? ==> achievements == DefaultAchievements()
    {
      if stored.Some? then stored.value else DefaultAchievements()
    }

    /** `getAchievements`: seeds the catalogue when nothing is stored. */
    method GetAchievements() returns (achievements: seq<Achievement>)
      modifies this
      ensures achievements == old(Loaded())
      ensures stored == Some(achievements)
    {
      if stored.Some? {
        return stored.value;
      }
      stored := Some(DefaultAchievements());
      achievements := DefaultAchievements();
    }

    /** `unlockAchievement(id)` at clock reading `now`. */
    method UnlockAchievement(id: string, now: int)
      modifies this
      ensures stored == Some(Unlocked(old(Loaded()), id, now))
    {
      var achievements := GetAchievements();
      var i := FindAchievement(achievements, id);
      if i.Some? && achievements[i.value].unlockedAt.None? {
        achievements := achievements[i.value := achievements[i.value].(unlockedAt := Some(now))];
        stored := Some(achievements);
      }
    }

    /**
     * Unlocks `id` if its entry in `achievements` (the list loaded at the start of a check) is
     * locked, and reports it in `newly`.
     */
    method UnlockIfLocked(achievements: seq<Achievement>, id: string, now: int, ghost ids: seq<string>,
                          newly: seq<Achievement>) returns (newly': seq<Achievement>)
      requires stored == Some(UnlockAll(achievements, ids, now))
      requires newly == NewlyUnlocked(achievements, ids)
      modifies this
      ensures stored == Some(UnlockAll(achievements, ids + [id], now))
      ensures newly' == NewlyUnlocked(achievements, ids + [id])
    {
      UnfoldLast(achievements, ids, id, now);
      var i := FindAchievement(achievements, id);
      newly' := newly;
      if i.Some? && achievements[i.value].unlockedAt.None? {
        UnlockAchievement(id, now);
        newly' := newly + [achievements[i.value]];
      } else {
        NotLockedStays(achievements, UnlockAll(achievements, ids, now), id);
      }
    }

    /**
     * `checkStreakAchievements(currentStreak)`: the reached streak milestones whose entries were
     * locked, in milestone order; all reached milestones are unlocked afterwards.
     */
    method CheckStreakAchievements(currentStreak: int, now: int) returns (newlyUnlocked: seq<Achievement>)
      modifies this
      ensures newlyUnlocked == NewlyUnlocked(old(Loaded()), Reached(StreakMilestones, currentStreak))
      ensures stored == Some(UnlockAll(old(Loaded()), Reached(StreakMilestones, currentStreak), now))
    {
      var achievements := GetAchievements();
      newlyUnlocked := [];
      for k := 0 to |StreakMilestones|
        invariant stored == Some(UnlockAll(achievements, Reached(StreakMilestones[..k], currentStreak), now))
        invariant newlyUnlocked == NewlyUnlocked(achievements, Reached(StreakMilestones[..k], currentStreak))
      {
        var milestone := StreakMilestones[k];
        ReachedStep(StreakMilestones, k, currentStreak);
        ghost var ids := Reached(StreakMilestones[..k], currentStreak);
        if currentStreak >= milestone.days {
          newlyUnlocked := UnlockIfLocked(achievements, milestone.id, now, ids, newlyUnlocked);
          assert stored == Some(UnlockAll(achievements, ids + [milestone.id], now));
        } else {
          assert ids + [] == ids;
        }
      }
      assert StreakMilestones[..|StreakMilestones|] == StreakMilestones;
    }

    /** `checkReductionAchievements(todayUsage, weeklyAverage)`. */
    method CheckReductionAchievements(todayUsage: int, weeklyAverage: int, now: int)
      returns (newlyUnlocked: seq<Achievement>)
      modifies this
      ensures newlyUnlocked == NewlyUnlocked(old(Loaded()), ReductionIds(todayUsage, weeklyAverage))
      ensures stored == Some(UnlockAll(old(Loaded()), ReductionIds(todayUsage, weeklyAverage), now))
    {
      var achievements := GetAchievements();
      newlyUnlocked := [];
      ghost var ids: seq<string> := [];
      if weeklyAverage - todayUsage >= 60 {
        newlyUnlocked := UnlockIfLocked(achievements, "hour_reduction", now, ids, newlyUnlocked);
        ids := ids + ["hour_reduction"];
      }
      if 2 * todayUsage <= weeklyAverage {
        newlyUnlocked := UnlockIfLocked(achievements, "half_usage", now, ids, newlyUnlocked);
        ids := ids + ["half_usage"];
      }
      assert ids == ReductionIds(todayUsage, weeklyAverage);
    }

    /** `checkConsistencyAchievements(goalAchievements)`. */
    method CheckConsistencyAchievements(goalAchievements: int, now: int) returns (newlyUnlocked: seq<Achievement>)
      modifies this
      ensures newlyUnlocked == NewlyUnlocked(old(Loaded()), ConsistencyIds(goalAchievements))
      ensures stored == Some(UnlockAll(old(Loaded()), ConsistencyIds(goalAchievements), now))
    {
      var achievements := GetAchievements();
      newlyUnlocked := [];
      if goalAchievements >= 6 {
        newlyUnlocked := UnlockIfLocked(achievements, "consistency_king", now, [], newlyUnlocked);
      }
    }

    /** `resetAchievements`: the catalogue, all locked, is stored again. */
    method ResetAchievements()
      modifies this
      ensures stored == Some(DefaultAchievements())
    {
      stored := Some(DefaultAchievements());
    }
  }
}
