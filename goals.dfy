/** getPositiveDays (script.js:390-411), the count behind the "Positive
    Week" goal: how many distinct calendar days since a cutoff have a mean
    mood of at least 60. */
module MoodGoals {
  import opened MoodData
  import opened MoodAnalytics

  /** A day is positive when its mean mood reaches this. */
  const PositiveMood: int := 60

  /** `history.filter(entry => new Date(entry.timestamp) >= cutoff)`,
      order kept. */
  function EntriesSince(h: seq<Entry>, cutoff: int): (r: seq<Entry>)
    ensures |r| <= |h|
    ensures forall e :: e in r <==> e in h && e.instant >= cutoff
    decreases |h|
  {
    if h == [] then []
    else
      var p := EntriesSince(h[..|h| - 1], cutoff);
      assert forall e :: e in h <==> e in h[..|h| - 1] || e == h[|h| - 1];
      if h[|h| - 1].instant >= cutoff then p + [h[|h| - 1]] else p
  }

  /** The filter keeps order and repeats: filtering a concatenation is
      concatenating the filtered parts. */
  lemma {:induction false} EntriesSinceAppend(a: seq<Entry>, b: seq<Entry>, cutoff: int)
    ensures EntriesSince(a + b, cutoff) == EntriesSince(a, cutoff) + EntriesSince(b, cutoff)
    decreases |b|
  {
    if b == [] {
      assert a + b == a;
    } else {
      var p := b[..|b| - 1];
      assert (a + b)[..|a + b| - 1] == a + p;
      EntriesSinceAppend(a, p, cutoff);
    }
  }

  /** The calendar day of each entry, in order. */
  function DaysOf(es: seq<Entry>): (r: seq<int>)
    ensures |r| == |es|
    ensures forall i :: 0 <= i < |es| ==> r[i] == es[i].day
    ensures forall d :: d in r <==> LoggedOn(es, d)
    decreases |es|
  {
    if es == [] then [] else DaysOf(es[..|es| - 1]) + [es[|es| - 1].day]
  }

  /** The mood total of the entries of day `d`, summed in order. */
  function DayMood(es: seq<Entry>, d: int): (total: int)
    ensures d !in DaysOf(es) ==> total == 0
    decreases |es|
  {
    if es == [] then 0
    else
      var last := es[|es| - 1];
      DayMood(es[..|es| - 1], d) + (if last.day == d then last.mood else 0)
  }

  /** The number of entries of day `d`. */
  function DayCount(es: seq<Entry>, d: int): (n: nat)
    ensures n > 0 <==> d in DaysOf(es)
    decreases |es|
  {
    if es == [] then 0
    else DayCount(es[..|es| - 1], d) + (if es[|es| - 1].day == d then 1 else 0)
  }

  /** Day `d` has entries in `es` and their mean mood is at least 60. */
  ghost predicate IsPositiveDay(es: seq<Entry>, d: int) {
    DayCount(es, d) > 0 && DayMood(es, d) as real / DayCount(es, d) as real >= PositiveMood as real
  }

  /** The distinct positive days among `es`. */
  ghost function PositiveDaySet(es: seq<Entry>): set<int> {
    set d | d in DaysOf(es) && IsPositiveDay(es, d)
  }

  /** The running totals of a day are those of the day's group of entries. */
  lemma {:induction false} DayTotalsAreGroupTotals(es: seq<Entry>, d: int)
    ensures DayMood(es, d) == Total(EntriesOn(es, d), Mood)
    ensures DayCount(es, d) == |EntriesOn(es, d)|
    decreases |es|
  {
    if es != [] {
      var p := es[..|es| - 1];
      DayTotalsAreGroupTotals(p, d);
      var g := EntriesOn(p, d);
      if es[|es| - 1].day == d {
        assert (g + [es[|es| - 1]])[..|g|] == g;
      }
    }
  }

  /** A positive day is one whose entries have a mean mood of at least 60. */
  lemma PositiveDayMeaning(es: seq<Entry>, d: int)
    ensures IsPositiveDay(es, d) <==> EntriesOn(es, d) != [] && Mean(EntriesOn(es, d), Mood) >= PositiveMood as real
  {
    DayTotalsAreGroupTotals(es, d);
  }

  /** One value of the `dailyAverages` dictionary: a running mood total and
      the number of entries added to it. */
  datatype DayTotal = DayTotal(mood: int, count: nat)

  /** `totals` holds, for every day it has, its mood total and entry count. */
  ghost predicate TotalsOf(es: seq<Entry>, totals: map<int, DayTotal>) {
    forall d :: d in totals ==> totals[d] == DayTotal(DayMood(es, d), DayCount(es, d))
  }

  /** One step of the `forEach`: entry `e` added to the value of its day. */
  function AddToDay(totals: map<int, DayTotal>, e: Entry): map<int, DayTotal> {
    var day := if e.day in totals then totals[e.day] else DayTotal(0, 0);
    totals[e.day := DayTotal(day.mood + e.mood, day.count + 1)]
  }

  /** The dictionary the `forEach` leaves after visiting `es` in order. */
  function DailyTotals(es: seq<Entry>): map<int, DayTotal>
    decreases |es|
  {
    if es == [] then map[] else AddToDay(DailyTotals(es[..|es| - 1]), es[|es| - 1])
  }

  /** The keys of `DailyTotals(es)` in the order the `forEach` inserts
      them: a day becomes the last key when it is not yet a key. */
  function DailyKeys(es: seq<Entry>): seq<int>
    decreases |es|
  {
    if es == [] then []
    else
      var p := es[..|es| - 1];
      var d := es[|es| - 1].day;
      if d in DailyTotals(p) then DailyKeys(p) else DailyKeys(p) + [d]
  }

  /** The keys come in order of each day's first entry, each once. */
  lemma {:induction false} DailyKeysInOrder(es: seq<Entry>)
    ensures DailyKeys(es) == Distinct(DaysOf(es))
    decreases |es|
  {
    if es != [] {
      var i := |es| - 1;
      var p := es[..i];
      DailyKeysInOrder(p);
      DailyTotalsMeaning(p);
      DistinctMembers(DaysOf(p));
      assert es[..i + 1] == es;
      DayGrows(es, i);
      DistinctSnoc(DaysOf(p), es[i].day);
    }
  }

  /** The dictionary has one key per calendar day of `es`, holding that
      day's mood total and entry count. */
  lemma {:induction false} DailyTotalsMeaning(es: seq<Entry>)
    ensures forall d :: d in DailyTotals(es) <==> d in DaysOf(es)
    ensures TotalsOf(es, DailyTotals(es))
    decreases |es|
  {
    if es != [] {
      var i := |es| - 1;
      DailyTotalsMeaning(es[..i]);
      assert es[..i + 1] == es;
      DayGrows(es, i);
    }
  }

  /** How many of the days `ks` are positive days of `es`. */
  ghost function CountPositive(es: seq<Entry>, ks: seq<int>): nat
    decreases |ks|
  {
    if ks == [] then 0
    else CountPositive(es, ks[..|ks| - 1]) + (if IsPositiveDay(es, ks[|ks| - 1]) then 1 else 0)
  }

  /** getPositiveDays with the cutoff instant (now minus `days` calendar
      days) given: filter, group by day, count the positive groups. */
  method PositiveDays(h: seq<Entry>, cutoff: int) returns (count: nat)
    ensures count == |PositiveDaySet(EntriesSince(h, cutoff))|
    ensures count <= |set d | d in DaysOf(EntriesSince(h, cutoff))|
    ensures count <= |EntriesSince(h, cutoff)|
  {
    var recent := EntriesSince(h, cutoff);
    var totals, order := GroupByDay(recent);
    DailyTotalsMeaning(recent);
    count := CountPositiveDays(recent, totals, order);
    CountOverKeys(recent, order);
  }

  /** Counting the positive days along the dictionary's keys counts the
      distinct positive days, which are no more than the distinct days or
      the entries. */
  lemma CountOverKeys(es: seq<Entry>, order: seq<int>)
    requires order == Distinct(DaysOf(es))
    ensures CountPositive(es, order) == |PositiveDaySet(es)|
    ensures |PositiveDaySet(es)| <= |set d | d in DaysOf(es)| <= |es|
  {
    DistinctMembers(DaysOf(es));
    DistinctNoDuplicates(DaysOf(es));
    CountPositiveIsCardinality(es, order);
    assert (set x | x in order && IsPositiveDay(es, x)) == PositiveDaySet(es);
    SubsetCardinality(PositiveDaySet(es), set d | d in DaysOf(es));
    DaysOfCardinality(es);
  }

  /** The `forEach` that fills `dailyAverages`; `order` lists its keys as
      they are first inserted, the order Object.values visits them in. */
  method GroupByDay(es: seq<Entry>) returns (totals: map<int, DayTotal>, order: seq<int>)
    ensures totals == DailyTotals(es)
    ensures order == Distinct(DaysOf(es))
    ensures forall d :: d in order <==> d in totals
    ensures NoDuplicates(order)
  {
    totals := map[];
    order := [];
    var i := 0;
    while i < |es|
      invariant 0 <= i <= |es|
      invariant totals == DailyTotals(es[..i])
      invariant order == DailyKeys(es[..i])
    {
      var e := es[i];
      assert es[..i + 1][..i] == es[..i];
      // `if (!dailyAverages[date]) dailyAverages[date] = { mood: 0, count: 0 }`
      var day := if e.day in totals then totals[e.day] else DayTotal(0, 0);
      if e.day !in totals {
        order := order + [e.day];
      }
      totals := totals[e.day := DayTotal(day.mood + e.mood, day.count + 1)];
      i := i + 1;
    }
    assert es[..|es|] == es;
    DailyKeysInOrder(es);
    DistinctMembers(DaysOf(es));
    DistinctNoDuplicates(DaysOf(es));
    DailyTotalsMeaning(es);
  }

  /** `Object.values(dailyAverages).filter(day => day.mood / day.count >= 60).length`,
      the values visited in key insertion order. */
  method CountPositiveDays(es: seq<Entry>, totals: map<int, DayTotal>, order: seq<int>) returns (count: nat)
    requires forall d :: d in order ==> d in totals && totals[d].count > 0
    requires TotalsOf(es, totals)
    ensures count == CountPositive(es, order)
    ensures count <= |order|
  {
    count := 0;
    var j := 0;
    while j < |order|
      invariant 0 <= j <= |order|
      invariant count <= j
      invariant count == CountPositive(es, order[..j])
    {
      var d := order[j];
      var day := totals[d];
      CountPositiveByTotal(es, order, j, day);
      if day.mood >= PositiveMood * day.count {
        count := count + 1;
      }
      j := j + 1;
    }
    assert order[..|order|] == order;
  }

  /** The test of the filter, on a day's total and count, is the mean test. */
  lemma PositiveByTotal(es: seq<Entry>, d: int, day: DayTotal)
    requires day == DayTotal(DayMood(es, d), DayCount(es, d)) && day.count > 0
    ensures IsPositiveDay(es, d) <==> day.mood >= PositiveMood * day.count
  {
    QuotientCompare(day.mood, day.count, PositiveMood);
  }

  /** One step of the filter's count, taken on the day's total and count. */
  lemma CountPositiveByTotal(es: seq<Entry>, ks: seq<int>, j: int, day: DayTotal)
    requires 0 <= j < |ks|
    requires day == DayTotal(DayMood(es, ks[j]), DayCount(es, ks[j])) && day.count > 0
    ensures CountPositive(es, ks[..j + 1]) == CountPositive(es, ks[..j]) + (if day.mood >= PositiveMood * day.count then 1 else 0)
  {
    PositiveByTotal(es, ks[j], day);
    CountPositiveStep(es, ks, j);
  }

  lemma {:induction false} CountPositiveStep(es: seq<Entry>, ks: seq<int>, j: int)
    requires 0 <= j < |ks|
    ensures CountPositive(es, ks[..j + 1]) == CountPositive(es, ks[..j]) + (if IsPositiveDay(es, ks[j]) then 1 else 0)
  {
    assert ks[..j + 1][..j] == ks[..j];
  }

  /** Counting positive days along a list without repeats counts the set
      of positive days in it. */
  lemma {:induction false} CountPositiveIsCardinality(es: seq<Entry>, ks: seq<int>)
    requires NoDuplicates(ks)
    ensures CountPositive(es, ks) == |set x | x in ks && IsPositiveDay(es, x)|
    decreases |ks|
  {
    if ks != [] {
      var p := ks[..|ks| - 1];
      var k := ks[|ks| - 1];
      CountPositiveIsCardinality(es, p);
      var before := set x | x in p && IsPositiveDay(es, x);
      var after := set x | x in ks && IsPositiveDay(es, x);
      assert k !in p;
      assert forall x :: x in ks <==> x in p || x == k;
      if IsPositiveDay(es, k) {
        assert after == before + {k};
      } else {
        assert after == before;
      }
    }
  }

  /** There are no more distinct days than entries. */
  lemma {:induction false} DaysOfCardinality(es: seq<Entry>)
    ensures |set d | d in DaysOf(es)| <= |es|
    decreases |es|
  {
    if es != [] {
      var p := es[..|es| - 1];
      DaysOfCardinality(p);
      DayGrows(es, |es| - 1);
      assert es[..|es| - 1 + 1] == es;
      assert (set d | d in DaysOf(es)) == (set d | d in DaysOf(p)) + {es[|es| - 1].day};
    }
  }

  /** What entry `i` adds to the day list and to the totals of each day. */
  lemma {:induction false} DayGrows(es: seq<Entry>, i: int)
    requires 0 <= i < |es|
    ensures DaysOf(es[..i + 1]) == DaysOf(es[..i]) + [es[i].day]
    ensures forall d :: DayMood(es[..i + 1], d) == DayMood(es[..i], d) + (if es[i].day == d then es[i].mood else 0)
    ensures forall d :: DayCount(es[..i + 1], d) == DayCount(es[..i], d) + (if es[i].day == d then 1 else 0)
  {
    assert es[..i + 1][..i] == es[..i];
  }
}
