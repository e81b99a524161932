/**
 * The streak-freeze ledger: a per-month allowance of freeze passes and the dates they were
 * spent on. A month rollover starts a fresh ledger; freezing today is idempotent.
 */
module StreakFreeze {
  import opened Wrappers
  import Decimal

  /** Freeze passes a month allows. */
  const MonthlyAllowance := 2

  /** The persisted ledger: its `YYYY-MM` month, the passes spent and the `YYYY-MM-DD` dates frozen. */
  datatype FreezeState = FreezeState(monthKey: string, usedPasses: int, frozenDates: seq<string>)

  /**
   * `getMonthKey`: the full year, a dash, and the 1-based month padded to two digits;
   * `monthIndex` is `Date.getMonth()`, counted from 0.
   */
  function MonthKey(year: nat, monthIndex: nat): (key: string)
    requires monthIndex < 12
    ensures |key| == |Decimal.NatToString(year)| + 3
    ensures key[..|key| - 3] == Decimal.NatToString(year)
    ensures key[|key| - 3] == '-'
    ensures Decimal.AllDigits(key[|key| - 2..])
    ensures Decimal.DigitsValue(key[|key| - 2..]) == monthIndex + 1
  {
    var y, m := Decimal.NatToString(year), Decimal.PadTwo(monthIndex + 1);
    var key := y + "-" + m;
    assert key[..|key| - 3] == y && key[|key| - 2..] == m;
    key
  }

  /** Distinct months have distinct keys, so a key comparison is a month comparison. */
  lemma MonthKeyInjective(y1: nat, m1: nat, y2: nat, m2: nat)
    requires m1 < 12 && m2 < 12
    requires MonthKey(y1, m1) == MonthKey(y2, m2)
    ensures y1 == y2 && m1 == m2
  {
    var k := MonthKey(y1, m1);
    assert |Decimal.NatToString(y1)| == |Decimal.NatToString(y2)|;
    Decimal.NatToStringInjective(y1, y2);
  }

  /** The ledger a new month starts with. */
  function Fresh(month: string): FreezeState {
    FreezeState(month, 0, [])
  }

  /** No date appears twice. */
  predicate Distinct(dates: seq<string>) {
    forall i, j :: 0 <= i < j < |dates| ==> dates[i] != dates[j]
  }

  /** The ledger invariant: within the allowance, one spent pass per frozen date. */
  predicate WellFormed(s: FreezeState) {
    0 <= s.usedPasses <= MonthlyAllowance && s.usedPasses == |s.frozenDates| && Distinct(s.frozenDates)
  }

  /** Nothing stored, or a well-formed ledger stored. */
  predicate ValidStored(stored: Option<FreezeState>) {
    stored.Some? ==> WellFormed(stored.value)
  }

  /** `loadState`: the stored ledger, or a fresh one for the current month (which is not saved). */
  function LoadState(stored: Option<FreezeState>, month: string): (s: FreezeState)
    ensures stored.Some? ==> s == stored.value
    ensures stored.None? ==> s == FreezeState(month, 0, [])
    ensures ValidStored(stored) ==> WellFormed(s)
  {
    if stored.Some? then stored.value else Fresh(month)
  }

  /** The rollover check: a ledger of another month is replaced by a fresh one. */
  function RolledOver(s: FreezeState, month: string): (r: FreezeState)
    ensures r.monthKey == month
    ensures WellFormed(s) ==> WellFormed(r)
    ensures s.monthKey == month ==> r == s
    ensures s.monthKey != month ==> r == FreezeState(month, 0, [])
  {
    if s.monthKey != month then Fresh(month) else s
  }

  /** What `getRemainingPasses` leaves in storage: the fresh ledger is saved on rollover. */
  function Refreshed(stored: Option<FreezeState>, month: string): (next: Option<FreezeState>)
    ensures next.Some? ==> next.value == RolledOver(LoadState(stored, month), month)
    ensures LoadState(stored, month).monthKey == month ==> next == stored
    ensures LoadState(stored, month).monthKey != month ==> next == Some(FreezeState(month, 0, []))
    ensures ValidStored(stored) ==> ValidStored(next)
  {
    var s := LoadState(stored, month);
    if s.monthKey != month then Some(Fresh(month)) else stored
  }

  /** The value `getRemainingPasses` returns for a (rolled-over) ledger: `max(0, 2 - usedPasses)`. */
  function PassesLeft(s: FreezeState): (n: int)
    ensures n >= 0 && n >= MonthlyAllowance - s.usedPasses
    ensures n == 0 || n == MonthlyAllowance - s.usedPasses
    ensures WellFormed(s) ==> n <= MonthlyAllowance && n == MonthlyAllowance - |s.frozenDates|
  {
    if MonthlyAllowance - s.usedPasses > 0 then MonthlyAllowance - s.usedPasses else 0
  }

  /**
   * `useFreezeForToday` on values: the new stored ledger and the result. Today already frozen
   * succeeds and changes nothing; an exhausted allowance fails and changes nothing; otherwise
   * one pass is spent on today and the ledger is saved.
   */
  function UseFreeze(stored: Option<FreezeState>, today: string, month: string): (r: (Option<FreezeState>, bool))
    ensures var s := RolledOver(LoadState(stored, month), month);
      && (r.1 <==> today in s.frozenDates || s.usedPasses < MonthlyAllowance)
      && (today in s.frozenDates ==> r.0 == stored)
      && (today !in s.frozenDates && s.usedPasses < MonthlyAllowance ==>
            r.0 == Some(s.(usedPasses := s.usedPasses + 1, frozenDates := s.frozenDates + [today])))
    ensures !r.1 ==> r.0 == stored
    ensures r.1 ==> r.0.Some? && r.0.value.monthKey == month && today in r.0.value.frozenDates
    ensures ValidStored(stored) ==> ValidStored(r.0)
  {
    var s := RolledOver(LoadState(stored, month), month);
    if today in s.frozenDates then
      (stored, true)
    else if s.usedPasses >= MonthlyAllowance then
      assert LoadState(stored, month).monthKey == month;
      (stored, false)
    else
      var next := s.(usedPasses := s.usedPasses + 1, frozenDates := s.frozenDates + [today]);
      assert WellFormed(s) ==> Distinct(next.frozenDates);
      (Some(next), true)
  }

  /** A second freeze of the same day, once the first succeeded, succeeds and changes nothing. */
  lemma UseFreezeIdempotent(stored: Option<FreezeState>, today: string, month: string)
    requires UseFreeze(stored, today, month).1
    ensures var next := UseFreeze(stored, today, month).0;
      UseFreeze(next, today, month) == (next, true)
  {
    var next := UseFreeze(stored, today, month).0;
    assert RolledOver(LoadState(next, month), month) == next.value;
  }

  /** The stored ledger and the results after freezing on each of `days` in turn, within `month`. */
  function Run(stored: Option<FreezeState>, days: seq<string>, month: string): (r: (Option<FreezeState>, seq<bool>))
    ensures |r.1| == |days|
  {
    if |days| == 0 then (stored, [])
    else
      var before := Run(stored, days[..|days| - 1], month);
      var after := UseFreeze(before.0, days[|days| - 1], month);
      (after.0, before.1 + [after.1])
  }

  /**
   * Along a run within one month the ledger stays well formed, and every day whose call
   * succeeded is among the frozen dates at the end.
   */
  lemma {:induction false} RunKeepsSucceededDays(stored: Option<FreezeState>, days: seq<string>, month: string)
    requires ValidStored(stored)
    ensures var r := Run(stored, days, month);
      && ValidStored(r.0)
      && (|days| > 0 && r.0 != stored ==> r.0.Some? && r.0.value.monthKey == month)
      && forall i :: 0 <= i < |days| && r.1[i] ==> r.0.Some? && r.0.value.monthKey == month && days[i] in r.0.value.frozenDates
  {
    if |days| > 0 {
      var prefix := days[..|days| - 1];
      var today := days[|days| - 1];
      RunKeepsSucceededDays(stored, prefix, month);
      var before := Run(stored, prefix, month);
      var after := UseFreeze(before.0, today, month);
      var r := Run(stored, days, month);
      assert r == (after.0, before.1 + [after.1]);
      forall i | 0 <= i < |days| && r.1[i]
        ensures r.0.Some? && r.0.value.monthKey == month && days[i] in r.0.value.frozenDates
      {
        if i < |prefix| {
          assert before.1[i];
          assert days[i] == prefix[i];
          var s := before.0.value;
          assert RolledOver(LoadState(before.0, month), month) == s;
        }
      }
    }
  }

  /** A sequence has at most as many distinct elements as entries. */
  lemma {:induction false} ElementsAtMostLength(s: seq<string>)
    ensures |set x | x in s| <= |s|
  {
    if |s| > 0 {
      ElementsAtMostLength(s[1..]);
      assert (set x | x in s) == (set x | x in s[1..]) + {s[0]};
    }
  }

  /**
   * Starting from any stored ledger the service could have written, at most two distinct
   * days of one month get a successful freeze.
   */
  lemma AtMostAllowancePerMonth(stored: Option<FreezeState>, days: seq<string>, month: string)
    requires ValidStored(stored)
    ensures var r := Run(stored, days, month);
      |set i | 0 <= i < |days| && r.1[i] :: days[i]| <= MonthlyAllowance
  {
    var r := Run(stored, days, month);
    var succeeded := set i | 0 <= i < |days| && r.1[i] :: days[i];
    RunKeepsSucceededDays(stored, days, month);
    if succeeded != {} {
      var d :| d in succeeded;
      var frozen := r.0.value.frozenDates;
      assert succeeded <= set x | x in frozen;
      ElementsAtMostLength(frozen);
      SubsetCardinality(succeeded, set x | x in frozen);
    }
  }

  lemma SubsetCardinality(a: set<string>, b: set<string>)
    requires a <= b
    ensures |a| <= |b|
  {
    assert b == a + (b - a);
  }

  /** In a fresh month, freezing two different days in a row succeeds twice and spends both passes. */
  lemma TwoDistinctDaysFreeze(d1: string, d2: string, m: string)
    requires d1 != d2
    ensures Run(None, [d1, d2], m) == (Some(FreezeState(m, 2, [d1, d2])), [true, true])
  {
    var one := Some(FreezeState(m, 1, [d1]));
    var two := Some(FreezeState(m, 2, [d1, d2]));
    var s1: seq<string>, s2: seq<string> := [d1], [d1, d2];
    assert s1[..0] == [] && s2[..1] == s1;
    assert Run(None, s1[..0], m) == (None, []);
    assert LoadState(None, m) == Fresh(m);
    assert RolledOver(Fresh(m), m) == Fresh(m);
    assert Fresh(m).(usedPasses := 1, frozenDates := Fresh(m).frozenDates + [d1]) == one.value;
    assert UseFreeze(None, d1, m) == (one, true);
    assert Run(None, s1, m).0 == one;
    assert Run(None, s1, m).1 == [true];
    assert RolledOver(LoadState(one, m), m) == one.value;
    assert d2 !in one.value.frozenDates;
    assert one.value.(usedPasses := 2, frozenDates := one.value.frozenDates + [d2]) == two.value;
    assert UseFreeze(one, d2, m) == (two, true);
    assert Run(None, s2, m).0 == two;
    assert Run(None, s2, m).1 == [true, true];
  }

  /** With two passes a month, freezing three different days in a row fails on the third. */
  lemma ThirdDistinctDayFails(d1: string, d2: string, d3: string, m: string)
    requires d1 != d2 && d1 != d3 && d2 != d3
    ensures Run(None, [d1, d2, d3], m).1 == [true, true, false]
  {
    var two := Some(FreezeState(m, 2, [d1, d2]));
    var s3: seq<string> := [d1, d2, d3];
    TwoDistinctDaysFreeze(d1, d2, m);
    assert s3[..2] == [d1, d2];
    assert RolledOver(LoadState(two, m), m) == two.value;
    assert d3 !in two.value.frozenDates;
    assert UseFreeze(two, d3, m) == (two, false);
  }

  /** A fresh month and three different days: the first two freezes succeed, the third fails. */
  lemma ThirdFreezeFails()
    ensures Run(None, ["2025-08-01", "2025-08-02", "2025-08-03"], "2025-08").1 == [true, true, false]
  {
    var d1, d2, d3 := "2025-08-01", "2025-08-02", "2025-08-03";
    assert d2 != d1 by { assert d2[9] != d1[9]; }
    assert d3 != d1 && d3 != d2 by { assert d3[9] != d1[9] && d3[9] != d2[9]; }
    ThirdDistinctDayFails(d1, d2, d3, "2025-08");
  }

  /** A ledger of August with both passes spent starts September with both passes back. */
  lemma RolloverRestoresPasses()
    ensures var stored := Some(FreezeState("2025-08", 2, ["2025-08-03", "2025-08-10"]));
      && Refreshed(stored, "2025-09") == Some(Fresh("2025-09"))
      && PassesLeft(RolledOver(LoadState(stored, "2025-09"), "2025-09")) == 2
  {
  }

  /** The persisted streak-freeze ledger. */
  class FreezeLedger {
    var stored: Option<FreezeState>

    ghost predicate Valid()
      reads this
    {
      ValidStored(stored)
    }

    /** A ledger with nothing persisted yet. */
    constructor ()
      ensures Valid() && stored == None
    {
      stored := None;
    }

    /**
     * `getRemainingPasses`, at a clock reading in `year` and month `monthIndex`: a ledger of
     * another month is replaced by a fresh, saved one; the result is `max(0, 2 - usedPasses)`.
     */
    method GetRemainingPasses(year: nat, monthIndex: nat) returns (passes: int)
      requires monthIndex < 12
      modifies this
      ensures old(Valid()) ==> Valid()
      ensures stored == Refreshed(old(stored), MonthKey(year, monthIndex))
      ensures passes == PassesLeft(RolledOver(LoadState(old(stored), MonthKey(year, monthIndex)), MonthKey(year, monthIndex)))
      ensures passes >= 0 && (old(Valid()) ==> passes <= MonthlyAllowance)
    {
      var currentMonthKey := MonthKey(year, monthIndex);
      var state := LoadState(stored, currentMonthKey);
      if state.monthKey != currentMonthKey {
        state := Fresh(currentMonthKey);
        stored := Some(state);
      }
      passes := PassesLeft(state);
    }

    /** `isDateFrozen`: membership in the stored frozen dates, with no rollover check. */
    method IsDateFrozen(dateIso: string) returns (frozen: bool)
      ensures frozen <==> stored.Some? && dateIso in stored.value.frozenDates
    {
      var state := LoadState(stored, "");
      frozen := dateIso in state.frozenDates;
    }

    /** `useFreezeForToday`, for the date key `todayIso` at a clock reading in `year`/`monthIndex`. */
    method UseFreezeForToday(todayIso: string, year: nat, monthIndex: nat) returns (ok: bool)
      requires monthIndex < 12
      modifies this
      ensures old(Valid()) ==> Valid()
      ensures (stored, ok) == UseFreeze(old(stored), todayIso, MonthKey(year, monthIndex))
    {
      var currentMonthKey := MonthKey(year, monthIndex);
      ghost var r := UseFreeze(stored, todayIso, currentMonthKey);
      var state := LoadState(stored, currentMonthKey);
      if state.monthKey != currentMonthKey {
        state := Fresh(currentMonthKey);
      }
      assert state == RolledOver(LoadState(stored, currentMonthKey), currentMonthKey);
      if todayIso in state.frozenDates {
        assert r == (stored, true);
        return true;
      }
      if state.usedPasses >= MonthlyAllowance {
        assert r == (stored, false);
        return false;
      }
      state := state.(usedPasses := state.usedPasses + 1);
      state := state.(frozenDates := state.frozenDates + [todayIso]);
      assert r == (Some(state), true);
      stored := Some(state);
      ok := true;
    }
  }
}
