/** The state of the VibeTracker class (script.js): the stored history,
    newest entry first, the grid cell currently selected, the tags picked in
    the logging dialog, and the streak shown in the navigation bar. */
module MoodTracker {
  import opened MoodData
  import opened MoodGrid
  import opened MoodAnalytics
  import opened MoodStreak

  /** `moodHistory.unshift(entry)`, then `slice(0, 200)` when longer. */
  function Prepend(h: seq<Entry>, e: Entry): (r: seq<Entry>)
    ensures |r| == Min(|h| + 1, MaxHistory)
    ensures r[0] == e
    ensures r[1..] == h[..|r| - 1]
  {
    var u := [e] + h;
    if |u| > MaxHistory then u[..MaxHistory] else u
  }

  /** The history after logging `es` in order, starting from `h`. */
  function LogAll(h: seq<Entry>, es: seq<Entry>): seq<Entry>
    decreases |es|
  {
    if es == [] then h else Prepend(LogAll(h, es[..|es| - 1]), es[|es| - 1])
  }

  function Reversed(s: seq<Entry>): (r: seq<Entry>)
    ensures |r| == |s|
    ensures forall i :: 0 <= i < |s| ==> r[i] == s[|s| - 1 - i]
    decreases |s|
  {
    if s == [] then [] else [s[|s| - 1]] + Reversed(s[..|s| - 1])
  }

  /** Logging onto a cut history is logging onto the whole one, cut. */
  lemma PrependTake(x: seq<Entry>, m: nat, e: Entry)
    requires m <= |x|
    ensures Prepend(x[..m], e) == ([e] + x)[..Min(m + 1, MaxHistory)]
  {
    assert [e] + x[..m] == ([e] + x)[..m + 1];
  }

  /** After any number of logs, the history is the newest entries first,
      then the older history, cut to 200: the store keeps exactly the 200
      most recent entries. */
  lemma {:induction false} LogAllKeepsNewest(h: seq<Entry>, es: seq<Entry>)
    requires es != []
    ensures LogAll(h, es) == (Reversed(es) + h)[..Min(|es| + |h|, MaxHistory)]
    decreases |es|
  {
    var p := es[..|es| - 1];
    var e := es[|es| - 1];
    assert Reversed(es) + h == [e] + (Reversed(p) + h);
    if p == [] {
      PrependTake(h, |h|, e);
    } else {
      LogAllKeepsNewest(h, p);
      PrependTake(Reversed(p) + h, Min(|p| + |h|, MaxHistory), e);
    }
  }

  /** The new entry's day is logged, and valid entries stay valid. */
  lemma PrependKeeps(h: seq<Entry>, e: Entry)
    ensures LoggedOn(Prepend(h, e), e.day)
    ensures ValidHistory(h) && ValidEntry(e) ==> ValidHistory(Prepend(h, e))
  {
    var r := Prepend(h, e);
    assert r[0].day == e.day;
    forall i | 1 <= i < |r|
      ensures r[i] == h[i - 1]
    {
      assert r[i] == r[1..][i - 1];
    }
  }

  /** A calendar day with an entry has a streak of at least one. */
  lemma StreakOfLoggedDay(h: seq<Entry>, today: int, k: int)
    requires IsStreak(h, today, k) && LoggedOn(h, today)
    ensures k >= 1
  {
  }

  /** `s` with `t` removed, order kept. */
  function Without(s: seq<string>, t: string): (r: seq<string>)
    ensures forall x :: x in r <==> x in s && x != t
    ensures NoDuplicates(s) ==> NoDuplicates(r)
    decreases |s|
  {
    if s == [] then []
    else
      var p := Without(s[..|s| - 1], t);
      var last := s[|s| - 1];
      assert forall x :: x in s <==> x in s[..|s| - 1] || x == last;
      assert NoDuplicates(s) ==> last !in s[..|s| - 1];
      if last == t then p else p + [last]
  }

  /** The `selectedTags` Set after toggleTag(t), in insertion order: a
      present tag is deleted, an absent one added at the end. */
  function Toggled(s: seq<string>, t: string): seq<string> {
    if t in s then Without(s, t) else s + [t]
  }

  /** Toggling flips the membership of `t` and of nothing else, and keeps
      the tags free of repeats. */
  lemma ToggledMembers(s: seq<string>, t: string)
    ensures forall x :: x in Toggled(s, t) <==> (if x == t then t !in s else x in s)
    ensures NoDuplicates(s) ==> NoDuplicates(Toggled(s, t))
  {
  }

  /** Toggling the same tag twice gives back the same set of tags. */
  lemma ToggleTwice(s: seq<string>, t: string)
    ensures forall x :: x in Toggled(Toggled(s, t), t) <==> x in s
  {
    ToggledMembers(s, t);
    ToggledMembers(Toggled(s, t), t);
  }

  class VibeTracker {
    /** Newest entry first. */
    var moodHistory: seq<Entry>
    /** The cell last hovered or clicked; `null` in the source. */
    var currentSelection: Option<Selection>
    /** The tags chosen in the logging dialog, in the order they were added. */
    var selectedTags: seq<string>
    var streakCount: nat

    /** Selections come from grid cells and tags form a set. */
    ghost predicate Valid()
      reads this
    {
      && NoDuplicates(selectedTags)
      && (currentSelection.Some? ==>
            InRange(currentSelection.value.energy) && InRange(currentSelection.value.mood))
    }

    /** The constructor: the stored history, or an empty one when nothing is
        stored under the key, no selection, no tags, and the streak of
        `today`. */
    constructor(stored: Option<seq<Entry>>, today: int)
      ensures Valid()
      ensures moodHistory == (if stored.Some? then stored.value else [])
      ensures currentSelection == None && selectedTags == []
      ensures IsStreak(moodHistory, today, streakCount)
    {
      moodHistory := if stored.Some? then stored.value else [];
      currentSelection := None;
      selectedTags := [];
      streakCount := 0;
      new;
      UpdateStreak(today);
    }

    /** handleCellHover and selectCell: the cell at (`row`, `col`) becomes
        the current selection. */
    method SelectCell(row: int, col: int)
      requires Valid()
      requires 0 <= row < GridSide && 0 <= col < GridSide
      modifies this
      ensures Valid()
      ensures currentSelection == Some(Selection(EnergyAt(col), MoodAt(row)))
      ensures moodHistory == old(moodHistory) && selectedTags == old(selectedTags)
      ensures streakCount == old(streakCount)
    {
      currentSelection := Some(Selection(EnergyAt(col), MoodAt(row)));
    }

    /** showModal: without a selection nothing happens; otherwise the
        dialog opens with no tag chosen. */
    method ShowModal()
      requires Valid()
      modifies this
      ensures Valid()
      ensures old(currentSelection).None? ==> unchanged(this)
      ensures old(currentSelection).Some? ==> selectedTags == []
      ensures moodHistory == old(moodHistory) && currentSelection == old(currentSelection)
      ensures streakCount == old(streakCount)
    {
      if currentSelection.None? {
        return;
      }
      selectedTags := [];
    }

    /** toggleTag: deletes `tag` from the chosen tags or adds it. */
    method ToggleTag(tag: string)
      requires Valid()
      modifies this
      ensures Valid()
      ensures selectedTags == Toggled(old(selectedTags), tag)
      ensures moodHistory == old(moodHistory) && currentSelection == old(currentSelection)
      ensures streakCount == old(streakCount)
    {
      ToggledMembers(selectedTags, tag);
      if tag in selectedTags {
        selectedTags := Without(selectedTags, tag);
      } else {
        selectedTags := selectedTags + [tag];
      }
    }

    /** logMood at instant `instant` of calendar day `day`, with the text
        of the notes field: without a selection nothing happens; otherwise
        the new entry goes in front, the history is cut to 200 entries, the
        selection is cleared and the streak recomputed. */
    method LogMood(instant: int, day: int, notes: string)
      requires Valid()
      modifies this
      ensures Valid()
      ensures ValidHistory(old(moodHistory)) ==> ValidHistory(moodHistory)
      ensures old(currentSelection).None? ==> unchanged(this)
      ensures old(currentSelection).Some? ==>
        var entry := Entry(instant, day, old(currentSelection).value.energy, old(currentSelection).value.mood,
                           Trim(notes), old(selectedTags));
        && moodHistory == Prepend(old(moodHistory), entry)
        && currentSelection == None
        && selectedTags == old(selectedTags)
        && IsStreak(moodHistory, day, streakCount)
        && streakCount >= 1
    {
      if currentSelection.None? {
        return;
      }
      var entry := Entry(instant, day, currentSelection.value.energy, currentSelection.value.mood,
                         Trim(notes), selectedTags);
      PrependKeeps(moodHistory, entry);
      Unshift(entry);
      UpdateStreak(day);
      StreakOfLoggedDay(moodHistory, day, streakCount);
      currentSelection := None;
    }

    /** The `unshift` and `slice(0, 200)` of logMood. */
    method Unshift(entry: Entry)
      modifies this
      ensures moodHistory == Prepend(old(moodHistory), entry)
      ensures currentSelection == old(currentSelection) && selectedTags == old(selectedTags)
      ensures streakCount == old(streakCount)
    {
      moodHistory := [entry] + moodHistory;
      if |moodHistory| > MaxHistory {
        moodHistory := moodHistory[..MaxHistory];
      }
    }

    /** updateStreak on calendar day `today`. */
    method UpdateStreak(today: int)
      modifies this
      ensures IsStreak(moodHistory, today, streakCount)
      ensures moodHistory == old(moodHistory) && currentSelection == old(currentSelection)
      ensures selectedTags == old(selectedTags)
    {
      streakCount := ComputeStreak(moodHistory, today);
    }
  }
}
