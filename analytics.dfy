/** The read-only views of the history that updateDashboard shows: the
    entries of one calendar day, their rounded means, the overall rounded
    mean mood, and calculateTrend (script.js:272-325). */
module MoodAnalytics {
  import opened MoodData

  /** Some entry was logged on calendar day `day`. */
  predicate LoggedOn(h: seq<Entry>, day: int) {
    exists i :: 0 <= i < |h| && h[i].day == day
  }

  /** `history.filter(entry => sameDate(entry, day))`, order kept. */
  function EntriesOn(h: seq<Entry>, day: int): (r: seq<Entry>)
    ensures |r| <= |h|
    ensures forall e :: e in r <==> e in h && e.day == day
    ensures r != [] <==> LoggedOn(h, day)
    ensures ValidHistory(h) ==> ValidHistory(r)
    decreases |h|
  {
    if h == [] then []
    else
      var p := EntriesOn(h[..|h| - 1], day);
      assert forall e :: e in h <==> e in h[..|h| - 1] || e == h[|h| - 1];
      if h[|h| - 1].day == day then p + [h[|h| - 1]] else p
  }

  /** The filter keeps order and repeats: filtering a concatenation is
      concatenating the filtered parts. */
  lemma {:induction false} EntriesOnAppend(a: seq<Entry>, b: seq<Entry>, day: int)
    ensures EntriesOn(a + b, day) == EntriesOn(a, day) + EntriesOn(b, day)
    decreases |b|
  {
    if b == [] {
      assert a + b == a;
    } else {
      var p := b[..|b| - 1];
      assert (a + b)[..|a + b| - 1] == a + p;
      EntriesOnAppend(a, p, day);
    }
  }

  /** The outcomes of calculateTrend; the source returns one display string
      for each (see TrendText). */
  datatype Trend = NotEnoughData | GettingStarted | TrendingUp | TrendingDown | Stable

  /** How many of the newest entries make up the recent group. */
  const RecentCount: nat := 3

  /** How far apart the two group means must be to call a trend. */
  const TrendMargin: int := 5

  /** The difference of two means `a/p - b/q`, compared with a margin,
      without dividing. */
  lemma MeanGapCompare(a: int, p: int, b: int, q: int, k: int)
    requires p > 0 && q > 0
    ensures a as real / p as real - b as real / q as real > k as real <==> a * q - b * p > k * p * q
    ensures a as real / p as real - b as real / q as real < -k as real <==> a * q - b * p < -k * p * q
  {
    var x := a as real / p as real;
    var y := b as real / q as real;
    assert x * p as real == a as real;
    assert y * q as real == b as real;
    var pq := (p * q) as real;
    assert pq > 0.0;
    assert (x - y) * pq == (a * q - b * p) as real;
    if x - y > k as real {
      assert (x - y - k as real) * pq > 0.0;
    } else {
      assert (k as real - (x - y)) * pq >= 0.0;
    }
    if x - y < -k as real {
      assert (-k as real - (x - y)) * pq > 0.0;
    } else {
      assert ((x - y) + k as real) * pq >= 0.0;
    }
  }

  /** calculateTrend(entries), entries newest first: the mean mood of the
      newest three against the mean mood of all older ones. */
  function CalculateTrend(es: seq<Entry>): (t: Trend)
    ensures t == NotEnoughData <==> |es| < 2
    ensures t == GettingStarted <==> 2 <= |es| <= RecentCount
    ensures |es| > RecentCount ==>
      var diff := Mean(es[..RecentCount], Mood) - Mean(es[RecentCount..], Mood);
      && (t == TrendingUp <==> diff > TrendMargin as real)
      && (t == TrendingDown <==> diff < -TrendMargin as real)
  {
    if |es| < 2 then NotEnoughData
    else
      var split := Min(RecentCount, |es|);
      var recent := es[..split];
      var older := es[split..];
      if older == [] then GettingStarted
      else
        var p, q := |recent|, |older|;
        var a, b := Total(recent, Mood), Total(older, Mood);
        MeanGapCompare(a, p, b, q, TrendMargin);
        if a * q - b * p > TrendMargin * p * q then TrendingUp
        else if a * q - b * p < -TrendMargin * p * q then TrendingDown
        else Stable
  }

  /** The result is one of the three directions exactly when there are
      older entries to compare with, and Stable means the means are within
      the margin of each other. */
  lemma TrendStable(es: seq<Entry>)
    requires |es| > RecentCount
    ensures CalculateTrend(es) == Stable <==>
      var diff := Mean(es[..RecentCount], Mood) - Mean(es[RecentCount..], Mood);
      -TrendMargin as real <= diff <= TrendMargin as real
  {
  }

  /** Math.round(total / length) of one field over non-empty entries. */
  function RoundedMean(es: seq<Entry>, f: Field): (r: int)
    requires |es| > 0
    ensures IsRoundOf(r, Mean(es, f))
    ensures ValidHistory(es) ==> InRange(r)
  {
    var r := RoundHalfUp(Total(es, f), |es|);
    if ValidHistory(es) then
      TotalBounds(es, f);
      QuotientInRange(Total(es, f), |es|);
      RoundInRange(r, Mean(es, f));
      r
    else r
  }

  /** What the "today" card of updateDashboard shows when there are entries
      today; the card shows placeholders otherwise. */
  datatype DaySummary = DaySummary(avgEnergy: int, avgMood: int, entries: nat, trend: Trend)

  function TodaySummary(h: seq<Entry>, today: int): (r: Option<DaySummary>)
    ensures r.None? <==> !LoggedOn(h, today)
    ensures r.Some? ==>
      var es := EntriesOn(h, today);
      && r.value.entries == |es| > 0
      && IsRoundOf(r.value.avgEnergy, Mean(es, Energy))
      && IsRoundOf(r.value.avgMood, Mean(es, Mood))
      && (ValidHistory(h) ==> InRange(r.value.avgEnergy) && InRange(r.value.avgMood))
      && r.value.trend == CalculateTrend(es)
  {
    var es := EntriesOn(h, today);
    if |es| > 0 then
      Some(DaySummary(RoundedMean(es, Energy), RoundedMean(es, Mood), |es|, CalculateTrend(es)))
    else None
  }

  /** The overall average mood of updateDashboard; None when the history is
      empty (the page then leaves the previous text in place). */
  function OverallMood(h: seq<Entry>): (r: Option<int>)
    ensures r.None? <==> h == []
    ensures r.Some? ==> IsRoundOf(r.value, Mean(h, Mood))
    ensures r.Some? && ValidHistory(h) ==> InRange(r.value)
  {
    if |h| > 0 then Some(RoundedMean(h, Mood)) else None
  }

  /** Three recent moods of 80 against three older ones of 50: trending up. */
  lemma TrendUpExample(es: seq<Entry>)
    requires |es| == 6
    requires forall i :: 0 <= i < 3 ==> es[i].mood == 80
    requires forall i :: 3 <= i < 6 ==> es[i].mood == 50
    ensures CalculateTrend(es) == TrendingUp
  {
    var recent, older := es[..3], es[3..];
    assert es[..1][..0] == [] && es[..2][..1] == es[..1] && recent[..2] == es[..2];
    assert Total(es[..1], Mood) == 80;
    assert Total(es[..2], Mood) == 160;
    assert Total(recent, Mood) == 240;
    assert older[..1] == es[3..4] && older[..2] == es[3..5] && es[3..5][..1] == es[3..4] && es[3..4][..0] == [];
    assert Total(es[3..4], Mood) == 50;
    assert Total(es[3..5], Mood) == 100;
    assert Total(older, Mood) == 150;
  }

  /** Moods 70 and 71 average to 70.5, which rounds up to 71. */
  lemma RoundsHalfUpExample(es: seq<Entry>)
    requires |es| == 2 && es[0].mood == 70 && es[1].mood == 71
    ensures RoundedMean(es, Mood) == 71
  {
    assert es[..1][..0] == [];
    assert Total(es[..1], Mood) == 70;
    assert Total(es, Mood) == 141;
  }
}
