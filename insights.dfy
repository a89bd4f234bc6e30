/** generateInsights (script.js:433-500): up to three rule-based remarks,
    in the fixed order energy, mood, trend, most common tag. */
module MoodInsights {
  import opened MoodData
  import opened MoodAnalytics

  datatype Insight =
    | LowEnergy | HighEnergy
    | LowMood | HighMood
    | MoodRising | MoodDeclining
    | FrequentTag(tag: string)

  /** Mean energy or mood below this earns the "low" insight. */
  const LowMean: int := 40
  /** Mean energy or mood above this earns the "high" insight. */
  const HighMean: int := 70
  /** `insights.slice(0, 3)`. */
  const MaxInsights: nat := 3
  /** The trend insight looks at the newest 7 entries ... */
  const PatternWindow: nat := 7
  /** ... when there are at least 3 of them. */
  const PatternMinimum: nat := 3

  /** The position of each kind of insight in the fixed order. */
  function Rank(i: Insight): nat {
    match i
    case LowEnergy => 0
    case HighEnergy => 0
    case LowMood => 1
    case HighMood => 1
    case MoodRising => 2
    case MoodDeclining => 2
    case FrequentTag(_) => 3
  }

  /** The string calculateTrend returns for each outcome. The chart emoji
      at the end are spelled as script.js spells them: their UTF-8 bytes
      read as Windows-1252 text, four characters each. */
  function TrendText(t: Trend): string {
    match t
    case NotEnoughData => "Not enough data"
    case GettingStarted => "Getting started"
    case TrendingUp => "Trending up! \U{F0}\U{178}\U{201C}\U{2C6}"
    case TrendingDown => "Trending down \U{F0}\U{178}\U{201C}\U{2030}"
    case Stable => "Stable trend \U{F0}\U{178}\U{201C}\U{160}"
  }

  /** `s.includes(w)`: `w` occurs in `s` at some position. */
  function Contains(s: string, w: string): bool
    decreases |s|
  {
    |w| <= |s| && (s[..|w|] == w || Contains(s[1..], w))
  }

  /** A word with a character that `s` lacks does not occur in `s`. */
  lemma {:induction false} AbsentCharacter(s: string, w: string, c: char)
    requires c in w && c !in s
    ensures !Contains(s, w)
    decreases |s|
  {
    if |w| <= |s| {
      assert c in s[..|w|] ==> c in s;
      AbsentCharacter(s[1..], w, c);
    }
  }

  /** A word that occurs at position `i` of `s` is contained in `s`. */
  lemma {:induction false} OccursAt(s: string, w: string, i: nat)
    requires i + |w| <= |s| && s[i..i + |w|] == w
    ensures Contains(s, w)
    decreases i
  {
    if i > 0 {
      assert s[1..][i - 1..i - 1 + |w|] == s[i..i + |w|];
      OccursAt(s[1..], w, i - 1);
    }
  }

  /** generateInsights recognises a rising trend by the word "up" in its
      text; only the text of TrendingUp contains it. */
  lemma TextMentionsUp(t: Trend)
    ensures Contains(TrendText(t), "up") <==> t == TrendingUp
  {
    if t == TrendingUp {
      var s := TrendText(t);
      assert s[9] == 'u' && s[10] == 'p';
      assert s[9..11] == "up";
      OccursAt(s, "up", 9);
    } else {
      AbsentCharacter(TrendText(t), "up", 'p');
    }
  }

  /** Likewise "down", contained only in the text of TrendingDown. */
  lemma TextMentionsDown(t: Trend)
    ensures Contains(TrendText(t), "down") <==> t == TrendingDown
  {
    if t == TrendingDown {
      var s := TrendText(t);
      assert s[9] == 'd' && s[10] == 'o' && s[11] == 'w' && s[12] == 'n';
      assert s[9..13] == "down";
      OccursAt(s, "down", 9);
    } else {
      AbsentCharacter(TrendText(t), "down", 'w');
    }
  }

  /** `moodHistory.flatMap(entry => entry.tags || [])`. */
  function AllTags(h: seq<Entry>): seq<string>
    decreases |h|
  {
    if h == [] then [] else AllTags(h[..|h| - 1]) + h[|h| - 1].tags
  }

  /** The flattened list holds the tags of every entry and nothing else. */
  lemma {:induction false} AllTagsMembers(h: seq<Entry>)
    ensures forall t :: t in AllTags(h) <==> exists i :: 0 <= i < |h| && t in h[i].tags
    decreases |h|
  {
    if h != [] {
      var p := h[..|h| - 1];
      AllTagsMembers(p);
      assert forall i :: 0 <= i < |p| ==> p[i] == h[i];
    }
  }

  /** One step of `reduce((a, b) => tagCounts[a] > tagCounts[b] ? a : b, null)`.
      None is the initial `null`: its count is undefined, the comparison is
      false, and `b` is kept. */
  function Keep(tags: seq<string>, a: Option<string>, b: string): Option<string> {
    if a.Some? && Count(tags, a.value) > Count(tags, b) then a else Some(b)
  }

  /** The reduce over the keys in order. */
  function ReduceKeys(tags: seq<string>, keys: seq<string>): (r: Option<string>)
    ensures r.None? <==> keys == []
    ensures r.Some? ==> r.value in keys
    decreases |keys|
  {
    if keys == [] then None
    else Keep(tags, ReduceKeys(tags, keys[..|keys| - 1]), keys[|keys| - 1])
  }

  /** The most common tag as generateInsights picks it: the reduce over the
      keys of `tagCounts`, which are the tags in order of first occurrence. */
  function MostCommon(tags: seq<string>): Option<string> {
    ReduceKeys(tags, Distinct(tags))
  }

  /** The reduce returns a key of maximal count, and no later key has the
      same count: ties go to the later key. */
  lemma ReduceKeysIsLastMaximum(tags: seq<string>, keys: seq<string>)
    requires NoDuplicates(keys)
    ensures ReduceKeys(tags, keys).None? <==> keys == []
    ensures ReduceKeys(tags, keys).Some? ==>
      var t := ReduceKeys(tags, keys).value;
      && t in keys
      && (forall k :: k in keys ==> Count(tags, k) <= Count(tags, t))
      && (forall a, b :: 0 <= a < b < |keys| && keys[a] == t ==> Count(tags, keys[b]) < Count(tags, t))
  {
    ReduceKeysIsMaximum(tags, keys);
    ReduceKeysTiesGoLater(tags, keys);
  }

  /** The reduce returns a key whose count no other key exceeds. */
  lemma {:induction false} ReduceKeysIsMaximum(tags: seq<string>, keys: seq<string>)
    ensures ReduceKeys(tags, keys).Some? ==>
      forall k :: k in keys ==> Count(tags, k) <= Count(tags, ReduceKeys(tags, keys).value)
    decreases |keys|
  {
    if keys != [] {
      var p := keys[..|keys| - 1];
      ReduceKeysIsMaximum(tags, p);
      assert forall x :: x in keys <==> x in p || x == keys[|keys| - 1];
    }
  }

  /** Every key after the one the reduce returns has a smaller count. */
  lemma {:induction false} ReduceKeysTiesGoLater(tags: seq<string>, keys: seq<string>)
    requires NoDuplicates(keys)
    ensures ReduceKeys(tags, keys).Some? ==>
      var t := ReduceKeys(tags, keys).value;
      forall a, b :: 0 <= a < b < |keys| && keys[a] == t ==> Count(tags, keys[b]) < Count(tags, t)
    decreases |keys|
  {
    if keys != [] {
      var p := keys[..|keys| - 1];
      ReduceKeysTiesGoLater(tags, p);
      assert forall i :: 0 <= i < |p| ==> keys[i] == p[i];
    }
  }

  /** MostCommon names a most frequent tag, exists exactly when some entry
      has a tag, and among equally frequent tags takes the one first seen
      last. */
  lemma MostCommonIsMaximal(tags: seq<string>)
    ensures MostCommon(tags).None? <==> tags == []
    ensures MostCommon(tags).Some? ==>
      var t := MostCommon(tags).value;
      && t in tags
      && (forall u :: u in tags ==> Count(tags, u) <= Count(tags, t))
      && (forall a, b :: 0 <= a < b < |Distinct(tags)| && Distinct(tags)[a] == t ==>
            Count(tags, Distinct(tags)[b]) < Count(tags, t))
  {
    DistinctMembers(tags);
    DistinctNoDuplicates(tags);
    ReduceKeysIsLastMaximum(tags, Distinct(tags));
    assert Distinct(tags) == [] <==> tags == [] by {
      if tags != [] {
        assert tags[0] in Distinct(tags);
      }
    }
  }

  /** The dictionary `tagCounts` after counting `tags` in order. */
  function TagCounts(tags: seq<string>): map<string, nat>
    decreases |tags|
  {
    if tags == [] then map[]
    else
      var counts := TagCounts(tags[..|tags| - 1]);
      var t := tags[|tags| - 1];
      counts[t := (if t in counts then counts[t] else 0) + 1]
  }

  /** `tagCounts` has one key per tag, holding its number of occurrences. */
  lemma {:induction false} TagCountsMeaning(tags: seq<string>)
    ensures forall t :: t in TagCounts(tags) <==> t in tags
    ensures forall t :: t in TagCounts(tags) ==> TagCounts(tags)[t] == Count(tags, t)
    decreases |tags|
  {
    if tags != [] {
      var p := tags[..|tags| - 1];
      TagCountsMeaning(p);
      assert forall t :: t in tags <==> t in p || t == tags[|tags| - 1];
    }
  }

  /** The tag part of generateInsights: flatten, count, reduce. */
  method MostCommonTag(h: seq<Entry>) returns (tag: Option<string>)
    ensures tag == MostCommon(AllTags(h))
  {
    var allTags: seq<string> := [];
    var i := 0;
    while i < |h|
      invariant 0 <= i <= |h|
      invariant allTags == AllTags(h[..i])
    {
      assert h[..i + 1][..i] == h[..i];
      allTags := allTags + h[i].tags;
      i := i + 1;
    }
    assert h[..|h|] == h;
    tag := MostCommonOf(allTags);
  }

  /** Counting the flattened tags into `tagCounts` and reducing over its
      keys. */
  method MostCommonOf(allTags: seq<string>) returns (tag: Option<string>)
    ensures tag == MostCommon(allTags)
  {
    var tagCounts, keys := CountTags(allTags);
    tag := ReduceOverKeys(allTags, tagCounts, keys);
  }

  /** The `forEach` that fills `tagCounts`; `keys` lists its keys in the
      order they are first inserted. */
  method CountTags(allTags: seq<string>) returns (tagCounts: map<string, nat>, keys: seq<string>)
    ensures tagCounts == TagCounts(allTags)
    ensures keys == Distinct(allTags)
  {
    tagCounts := map[];
    keys := [];
    var j := 0;
    while j < |allTags|
      invariant 0 <= j <= |allTags|
      invariant tagCounts == TagCounts(allTags[..j])
      invariant keys == Distinct(allTags[..j])
    {
      var t := allTags[j];
      CountStep(allTags, j);
      if t !in tagCounts {
        keys := keys + [t];
      }
      // `tagCounts[tag] = (tagCounts[tag] || 0) + 1`
      tagCounts := tagCounts[t := (if t in tagCounts then tagCounts[t] else 0) + 1];
      j := j + 1;
    }
    assert allTags[..|allTags|] == allTags;
  }

  /** `Object.keys(tagCounts).reduce(...)`, starting from `null`. */
  method ReduceOverKeys(allTags: seq<string>, tagCounts: map<string, nat>, keys: seq<string>)
    returns (tag: Option<string>)
    requires tagCounts == TagCounts(allTags) && keys == Distinct(allTags)
    ensures tag == ReduceKeys(allTags, keys)
  {
    tag := None;
    var k := 0;
    while k < |keys|
      invariant 0 <= k <= |keys|
      invariant tag == ReduceKeys(allTags, keys[..k])
    {
      ReduceStep(allTags, keys, tagCounts, k);
      var b := keys[k];
      ghost var acc := tag;
      if !(tag.Some? && tagCounts[tag.value] > tagCounts[b]) {
        tag := Some(b);
      }
      assert tag == Keep(allTags, acc, b);
      k := k + 1;
    }
    assert keys[..|keys|] == keys;
  }

  /** What counting tag `j` does to the dictionary and to its keys. */
  lemma CountStep(s: seq<string>, j: int)
    requires 0 <= j < |s|
    ensures var counts := TagCounts(s[..j]);
      && Distinct(s[..j + 1]) == (if s[j] in counts then Distinct(s[..j]) else Distinct(s[..j]) + [s[j]])
      && TagCounts(s[..j + 1]) == counts[s[j] := (if s[j] in counts then counts[s[j]] else 0) + 1]
  {
    assert s[..j + 1] == s[..j] + [s[j]];
    DistinctSnoc(s[..j], s[j]);
    DistinctMembers(s[..j]);
    TagCountsMeaning(s[..j]);
  }

  /** What reducing key `k` does, with the counts the dictionary holds. */
  lemma ReduceStep(tags: seq<string>, keys: seq<string>, counts: map<string, nat>, k: int)
    requires keys == Distinct(tags) && counts == TagCounts(tags)
    requires 0 <= k < |keys|
    ensures keys[k] in counts && counts[keys[k]] == Count(tags, keys[k])
    ensures ReduceKeys(tags, keys[..k]).Some? ==>
      var a := ReduceKeys(tags, keys[..k]).value;
      a in counts && counts[a] == Count(tags, a)
    ensures ReduceKeys(tags, keys[..k + 1]) == Keep(tags, ReduceKeys(tags, keys[..k]), keys[k])
  {
    DistinctMembers(tags);
    TagCountsMeaning(tags);
    assert keys[..k + 1][..k] == keys[..k];
  }

  /** The energy rule; with no entries the mean is NaN and no rule fires. */
  function EnergyInsights(h: seq<Entry>): seq<Insight> {
    if |h| > 0 && Mean(h, Energy) < LowMean as real then [LowEnergy]
    else if |h| > 0 && Mean(h, Energy) > HighMean as real then [HighEnergy]
    else []
  }

  function MoodInsights(h: seq<Entry>): seq<Insight> {
    if |h| > 0 && Mean(h, Mood) < LowMean as real then [LowMood]
    else if |h| > 0 && Mean(h, Mood) > HighMean as real then [HighMood]
    else []
  }

  /** The trend of the newest seven entries, when there are at least three;
      generateInsights reads it from the trend's text (see TextMentionsUp). */
  function PatternInsights(h: seq<Entry>): seq<Insight> {
    var recent := h[..Min(PatternWindow, |h|)];
    if |recent| >= PatternMinimum then
      match CalculateTrend(recent)
      case TrendingUp => [MoodRising]
      case TrendingDown => [MoodDeclining]
      case _ => []
    else []
  }

  /** The tag rule applied to the result of the reduce; `if (mostCommonTag)`
      also rejects the empty tag. */
  function TagInsights(mostCommon: Option<string>): seq<Insight> {
    match mostCommon
    case Some(t) => if t != "" then [FrequentTag(t)] else []
    case None => []
  }

  /** What generateInsights returns for the history `h`, given the most
      common tag of `h` (MostCommon(AllTags(h)), as MostCommonTag computes
      it). */
  function Insights(h: seq<Entry>, mostCommon: Option<string>): seq<Insight> {
    Assemble(EnergyInsights(h), MoodInsights(h), PatternInsights(h), TagInsights(mostCommon))
  }

  /** The four rules' insights in order, cut to three. */
  function Assemble(e: seq<Insight>, m: seq<Insight>, p: seq<Insight>, t: seq<Insight>): seq<Insight> {
    var all := e + m + p + t;
    all[..Min(MaxInsights, |all|)]
  }

  /** The mean tests of the energy and mood rules, on the total. */
  lemma RuleOnTotal(h: seq<Entry>, f: Field)
    ensures |h| > 0 ==> (Mean(h, f) < LowMean as real <==> Total(h, f) < LowMean * |h|)
    ensures |h| > 0 ==> (Mean(h, f) > HighMean as real <==> Total(h, f) > HighMean * |h|)
  {
    if |h| > 0 {
      QuotientCompare(Total(h, f), |h|, LowMean);
      QuotientCompare(Total(h, f), |h|, HighMean);
    }
  }

  /** generateInsights, step by step: each rule pushes at most one insight
      and the list is cut to three. */
  method GenerateInsights(h: seq<Entry>) returns (insights: seq<Insight>)
    ensures insights == Insights(h, MostCommon(AllTags(h)))
  {
    var mostCommonTag := MostCommonTag(h);
    insights := ApplyRules(h, mostCommonTag);
  }

  /** The rules of generateInsights in order, with the most common tag
      already found. */
  method ApplyRules(h: seq<Entry>, mostCommonTag: Option<string>) returns (insights: seq<Insight>)
    ensures insights == Insights(h, mostCommonTag)
  {
    insights := MeanRules(h);
    insights := TrendRule(h, insights);
    ghost var ruled := insights;
    if mostCommonTag.Some? && mostCommonTag.value != "" {
      insights := insights + [FrequentTag(mostCommonTag.value)];
    }
    assert insights == ruled + TagInsights(mostCommonTag);
    insights := insights[..Min(MaxInsights, |insights|)];
  }

  /** The energy rule, then the mood rule, each on the mean of the whole
      history. */
  method MeanRules(h: seq<Entry>) returns (insights: seq<Insight>)
    ensures insights == EnergyInsights(h) + MoodInsights(h)
  {
    insights := [];
    var n := |h|;
    // avgEnergy < 40 and avgEnergy > 70; both false for NaN when n == 0
    var energy := Total(h, Energy);
    RuleOnTotal(h, Energy);
    if n > 0 && energy < LowMean * n {
      insights := insights + [LowEnergy];
    } else if n > 0 && energy > HighMean * n {
      insights := insights + [HighEnergy];
    }
    assert insights == EnergyInsights(h);
    ghost var afterEnergy := insights;
    var mood := Total(h, Mood);
    RuleOnTotal(h, Mood);
    if n > 0 && mood < LowMean * n {
      insights := insights + [LowMood];
    } else if n > 0 && mood > HighMean * n {
      insights := insights + [HighMood];
    }
    assert insights == afterEnergy + MoodInsights(h);
  }

  /** The trend rule, pushing onto `before`: the text of the trend of the
      newest seven entries is searched for "up", then for "down". */
  method TrendRule(h: seq<Entry>, before: seq<Insight>) returns (insights: seq<Insight>)
    ensures insights == before + PatternInsights(h)
  {
    insights := before;
    var recent := h[..Min(PatternWindow, |h|)];
    PatternByText(h);
    if |recent| >= PatternMinimum {
      var trend := TrendText(CalculateTrend(recent));
      if Contains(trend, "up") {
        insights := insights + [MoodRising];
      } else if Contains(trend, "down") {
        insights := insights + [MoodDeclining];
      }
    }
  }

  /** The trend rule as generateInsights tests it, on the trend's text. */
  lemma PatternByText(h: seq<Entry>)
    ensures var recent := h[..Min(PatternWindow, |h|)];
      PatternInsights(h) ==
        if |recent| < PatternMinimum then []
        else if Contains(TrendText(CalculateTrend(recent)), "up") then [MoodRising]
        else if Contains(TrendText(CalculateTrend(recent)), "down") then [MoodDeclining]
        else []
  {
    var recent := h[..Min(PatternWindow, |h|)];
    if |recent| >= PatternMinimum {
      TextMentionsUp(CalculateTrend(recent));
      TextMentionsDown(CalculateTrend(recent));
    }
  }

  /** Each insight ranks strictly above the ones before it. */
  predicate StrictlyRanked(s: seq<Insight>) {
    forall i, j :: 0 <= i < j < |s| ==> Rank(s[i]) < Rank(s[j])
  }

  /** Appending at most one insight of a rank above all present ones keeps
      the list strictly ranked. */
  lemma AppendRanked(a: seq<Insight>, b: seq<Insight>, r: nat)
    requires StrictlyRanked(a) && forall x :: x in a ==> Rank(x) < r
    requires |b| <= 1 && forall x :: x in b ==> Rank(x) == r
    ensures StrictlyRanked(a + b)
    ensures forall x :: x in a + b ==> Rank(x) <= r
  {
    assert forall i :: 0 <= i < |a| ==> (a + b)[i] in a;
  }

  /** At most three insights, strictly in the order energy, mood, trend, tag. */
  lemma InsightsBoundedAndOrdered(h: seq<Entry>, mc: Option<string>)
    ensures |Insights(h, mc)| <= MaxInsights
    ensures StrictlyRanked(Insights(h, mc))
  {
    var e, m, p, t := EnergyInsights(h), MoodInsights(h), PatternInsights(h), TagInsights(mc);
    AppendRanked([], e, 0);
    AppendRanked(e, m, 1);
    AppendRanked(e + m, p, 2);
    AppendRanked(e + m + p, t, 3);
    RankedPrefix(e + m + p + t, Min(MaxInsights, |e + m + p + t|));
  }

  /** A prefix of a strictly ranked list is strictly ranked. */
  lemma RankedPrefix(s: seq<Insight>, n: nat)
    requires StrictlyRanked(s) && n <= |s|
    ensures StrictlyRanked(s[..n])
  {
    assert forall i :: 0 <= i < n ==> s[..n][i] == s[i];
  }

  /** The cut to three can only drop the tag insight: the other three rules
      add at most one insight each. */
  lemma AssembleKeeps(e: seq<Insight>, m: seq<Insight>, p: seq<Insight>, t: seq<Insight>)
    requires |e| <= 1 && |m| <= 1 && |p| <= 1 && |t| <= 1
    requires forall x :: x in e ==> Rank(x) == 0
    requires forall x :: x in m ==> Rank(x) == 1
    requires forall x :: x in p ==> Rank(x) == 2
    requires forall x :: x in t ==> Rank(x) == 3
    ensures forall x :: Rank(x) == 0 ==> (x in Assemble(e, m, p, t) <==> x in e)
    ensures forall x :: Rank(x) == 1 ==> (x in Assemble(e, m, p, t) <==> x in m)
    ensures forall x :: Rank(x) == 2 ==> (x in Assemble(e, m, p, t) <==> x in p)
    ensures forall x :: Rank(x) == 3 ==> (x in Assemble(e, m, p, t) <==> x in t && |e + m + p| < MaxInsights)
  {
    var first := e + m + p;
    assert e + m + p + t == first + t;
    assert forall x :: x in first <==> x in e || x in m || x in p;
    if |first| < MaxInsights {
      assert Assemble(e, m, p, t) == first + t;
    } else {
      assert Assemble(e, m, p, t) == first;
    }
  }

  /** Each rule's insight is kept, the tag insight only when fewer than
      three came before it. */
  lemma KeptInsights(h: seq<Entry>, mc: Option<string>)
    ensures forall x :: Rank(x) == 0 ==> (x in Insights(h, mc) <==> x in EnergyInsights(h))
    ensures forall x :: Rank(x) == 1 ==> (x in Insights(h, mc) <==> x in MoodInsights(h))
    ensures forall x :: Rank(x) == 2 ==> (x in Insights(h, mc) <==> x in PatternInsights(h))
    ensures forall x :: Rank(x) == 3 ==>
      (x in Insights(h, mc) <==>
       x in TagInsights(mc) && |EnergyInsights(h) + MoodInsights(h) + PatternInsights(h)| < MaxInsights)
  {
    AssembleKeeps(EnergyInsights(h), MoodInsights(h), PatternInsights(h), TagInsights(mc));
  }

  /** Low energy is reported exactly when the mean energy is below 40, high
      energy exactly when it is above 70; never both. */
  lemma EnergyRule(h: seq<Entry>, mc: Option<string>)
    ensures LowEnergy in Insights(h, mc) <==> |h| > 0 && Mean(h, Energy) < LowMean as real
    ensures HighEnergy in Insights(h, mc) <==> |h| > 0 && Mean(h, Energy) > HighMean as real
  {
    KeptInsights(h, mc);
  }

  /** The same two rules for the mean mood. */
  lemma MoodRule(h: seq<Entry>, mc: Option<string>)
    ensures LowMood in Insights(h, mc) <==> |h| > 0 && Mean(h, Mood) < LowMean as real
    ensures HighMood in Insights(h, mc) <==> |h| > 0 && Mean(h, Mood) > HighMean as real
  {
    KeptInsights(h, mc);
  }

  /** A rising or declining mood is reported exactly when the trend of the
      newest seven entries (at least three of them) says so; a trend needs
      more than three entries, so a history of three never gets one. */
  lemma PatternRule(h: seq<Entry>, mc: Option<string>)
    ensures MoodRising in Insights(h, mc) <==>
      |h| >= PatternMinimum && CalculateTrend(h[..Min(PatternWindow, |h|)]) == TrendingUp
    ensures MoodDeclining in Insights(h, mc) <==>
      |h| >= PatternMinimum && CalculateTrend(h[..Min(PatternWindow, |h|)]) == TrendingDown
    ensures MoodRising in Insights(h, mc) || MoodDeclining in Insights(h, mc) ==> |h| > RecentCount
  {
    KeptInsights(h, mc);
  }

  /** The tag insight names the most common non-empty tag, and appears only
      when fewer than three insights came before it. */
  lemma TagRule(h: seq<Entry>, mc: Option<string>, t: string)
    ensures FrequentTag(t) in Insights(h, mc) <==>
      && mc == Some(t) && t != ""
      && |EnergyInsights(h) + MoodInsights(h) + PatternInsights(h)| < MaxInsights
  {
    KeptInsights(h, mc);
    assert FrequentTag(t) in TagInsights(mc) <==> mc == Some(t) && t != "";
  }

  /** The most common tag of a history is one of its entries' tags, at
      least as frequent as any other; there is none exactly when no entry
      has a tag. */
  lemma MostCommonTagOfHistory(h: seq<Entry>)
    ensures MostCommon(AllTags(h)).None? <==> forall i :: 0 <= i < |h| ==> h[i].tags == []
    ensures MostCommon(AllTags(h)).Some? ==>
      var t := MostCommon(AllTags(h)).value;
      && (exists i :: 0 <= i < |h| && t in h[i].tags)
      && (forall u :: u in AllTags(h) ==> Count(AllTags(h), u) <= Count(AllTags(h), t))
  {
    var tags := AllTags(h);
    MostCommonIsMaximal(tags);
    AllTagsMembers(h);
    if tags != [] {
      assert tags[0] in tags;
    }
    forall i | 0 <= i < |h| && h[i].tags != [] ensures tags != [] {
      assert h[i].tags[0] in tags;
    }
  }

  /** A short history with low energy, low mood and a tag: the three
      insights in their fixed order. */
  lemma LowHistoryInsights(h: seq<Entry>, mc: Option<string>, t: string)
    requires 0 < |h| <= RecentCount
    requires Mean(h, Energy) < LowMean as real && Mean(h, Mood) < LowMean as real
    requires mc == Some(t) && t != ""
    ensures Insights(h, mc) == [LowEnergy, LowMood, FrequentTag(t)]
  {
    assert PatternInsights(h) == [];
  }
}
