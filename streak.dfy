/** The logging streak of updateStreak (script.js:327-349): how many
    consecutive calendar days, ending today, have at least one entry. */
module MoodStreak {
  import opened MoodData
  import opened MoodAnalytics

  /** updateStreak looks back at most this many days. */
  const StreakWindow: nat := 365

  /** `k` is the streak of `h` on day `today`: every one of the `k` days
      ending today has an entry, and the day before them does not (unless
      the whole window is covered). */
  ghost predicate IsStreak(h: seq<Entry>, today: int, k: int) {
    && 0 <= k <= StreakWindow
    && (forall d :: today - k < d <= today ==> LoggedOn(h, d))
    && (k < StreakWindow ==> !LoggedOn(h, today - k))
  }

  /** The counting loop of updateStreak, with the `some` search inside it. */
  method ComputeStreak(h: seq<Entry>, today: int) returns (streak: nat)
    ensures IsStreak(h, today, streak)
  {
    streak := 0;
    var i := 0;
    while i < StreakWindow
      invariant 0 <= i <= StreakWindow && streak == i
      invariant forall d :: today - i < d <= today ==> LoggedOn(h, d)
    {
      var checkDay := today - i;
      var hasEntry := false;
      var j := 0;
      while j < |h| && !hasEntry
        invariant 0 <= j <= |h|
        invariant hasEntry <==> exists k :: 0 <= k < j && h[k].day == checkDay
      {
        hasEntry := h[j].day == checkDay;
        j := j + 1;
      }
      if hasEntry {
        streak := streak + 1;
      } else {
        break;
      }
      i := i + 1;
    }
  }

  /** The streak is well defined: one value fits. */
  lemma StreakUnique(h: seq<Entry>, today: int, k1: int, k2: int)
    requires IsStreak(h, today, k1) && IsStreak(h, today, k2)
    ensures k1 == k2
  {
    assert k1 < k2 ==> LoggedOn(h, today - k1);
    assert k2 < k1 ==> LoggedOn(h, today - k2);
  }

  /** Nothing logged today means no streak. */
  lemma NoStreakWithoutToday(h: seq<Entry>, today: int, k: int)
    requires IsStreak(h, today, k) && !LoggedOn(h, today)
    ensures k == 0
  {
    assert k > 0 ==> LoggedOn(h, today - 0);
  }

  /** The days on which something was logged. */
  function DaySet(h: seq<Entry>): (days: set<int>)
    ensures forall d :: d in days <==> LoggedOn(h, d)
    ensures |days| <= |h|
    decreases |h|
  {
    if h == [] then {}
    else
      var p := DaySet(h[..|h| - 1]);
      assert forall d :: LoggedOn(h, d) <==> LoggedOn(h[..|h| - 1], d) || h[|h| - 1].day == d by {
        forall d ensures LoggedOn(h, d) ==> LoggedOn(h[..|h| - 1], d) || h[|h| - 1].day == d {
          if LoggedOn(h, d) {
            var i :| 0 <= i < |h| && h[i].day == d;
            if i < |h| - 1 {
              assert h[..|h| - 1][i].day == d;
            }
          }
        }
      }
      p + {h[|h| - 1].day}
  }

  /** The days `lo + 1 .. hi`. */
  function DaysBetween(lo: int, hi: int): (days: set<int>)
    requires lo <= hi
    ensures forall d :: d in days <==> lo < d <= hi
    ensures |days| == hi - lo
    decreases hi - lo
  {
    if lo == hi then {} else DaysBetween(lo, hi - 1) + {hi}
  }

  /** Each day of a streak needs its own entry, so the streak never exceeds
      the number of entries; with the history capped at 200 entries the
      365-day window can never be filled. */
  lemma StreakAtMostHistory(h: seq<Entry>, today: int, k: int)
    requires IsStreak(h, today, k)
    ensures k <= |h|
  {
    var run := DaysBetween(today - k, today);
    assert run <= DaySet(h);
    SubsetCardinality(run, DaySet(h));
  }

  /** Entries today and yesterday but none the day before: a streak of two. */
  lemma TwoDayStreak(h: seq<Entry>, today: int, k: int)
    requires IsStreak(h, today, k)
    requires LoggedOn(h, today) && LoggedOn(h, today - 1) && !LoggedOn(h, today - 2)
    ensures k == 2
  {
    assert k > 2 ==> LoggedOn(h, today - 2);
    assert k != 0 && k != 1;
  }
}
