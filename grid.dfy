/** The 15 x 15 energy/mood grid: the values a cell stands for and the
    band labels shown for a pair of values (script.js, createMoodGrid and
    getMoodDescription). */
module MoodGrid {
  import opened MoodData

  /** Cells per side; columns and rows are numbered 0..14. */
  const GridSide: nat := 15

  /** `Math.round((col / 14) * 100)`: energy grows from left to right. */
  function EnergyAt(col: int): (e: int)
    requires 0 <= col < GridSide
    ensures InRange(e)
    ensures IsRoundOf(e, (col as real / 14.0) * 100.0)
  {
    CellValue(col)
  }

  /** `Math.round(((14 - row) / 14) * 100)`: the top row is the best mood. */
  function MoodAt(row: int): (m: int)
    requires 0 <= row < GridSide
    ensures InRange(m)
    ensures IsRoundOf(m, ((14 - row) as real / 14.0) * 100.0)
  {
    CellValue(14 - row)
  }

  /** Math.round of k/14 of the way from 0 to 100. */
  function CellValue(k: int): (v: int)
    requires 0 <= k <= 14
    ensures InRange(v)
    ensures IsRoundOf(v, (k as real / 14.0) * 100.0)
  {
    var v := RoundHalfUp(100 * k, 14);
    assert (k as real / 14.0) * 100.0 == (100 * k) as real / 14 as real;
    QuotientInRange(100 * k, 14);
    RoundInRange(v, (100 * k) as real / 14 as real);
    v
  }

  lemma GridCorners()
    ensures EnergyAt(0) == 0 && EnergyAt(14) == 100
    ensures MoodAt(0) == 100 && MoodAt(14) == 0
  {
  }

  lemma EnergyMonotone(c1: int, c2: int)
    requires 0 <= c1 <= c2 < GridSide
    ensures EnergyAt(c1) <= EnergyAt(c2)
  {
    RoundMonotone(EnergyAt(c1), (c1 as real / 14.0) * 100.0, EnergyAt(c2), (c2 as real / 14.0) * 100.0);
  }

  lemma MoodAntitone(r1: int, r2: int)
    requires 0 <= r1 <= r2 < GridSide
    ensures MoodAt(r2) <= MoodAt(r1)
  {
    RoundMonotone(MoodAt(r2), ((14 - r2) as real / 14.0) * 100.0, MoodAt(r1), ((14 - r1) as real / 14.0) * 100.0);
  }

  /** No cell value lies exactly half-way between two integers, so the
      value is strictly the nearest integer and the half-up convention of
      Math.round never decides it. */
  lemma CellValueIsStrictlyNearest(k: int)
    requires 0 <= k <= 14
    ensures -7 < 14 * CellValue(k) - 100 * k < 7
  {
    var v := CellValue(k);
    var rem := (200 * k + 14) % 28;
    assert v == (200 * k + 14) / 28;
    assert 200 * k + 14 == 28 * v + rem && 0 <= rem < 28;
    // 200k + 14 is 14 more than a multiple of 4, so it is not a multiple of 28.
    assert rem != 0;
  }

  /** The five bands of getMoodDescription, 0 (lowest) to 4 (highest),
      split at 20, 40, 60 and 80. */
  function Level(v: int): (k: nat)
    ensures k <= 4
    ensures k > 0 ==> v >= 20 * k
    ensures k < 4 ==> v < 20 * (k + 1)
  {
    if v >= 80 then 4
    else if v >= 60 then 3
    else if v >= 40 then 2
    else if v >= 20 then 1
    else 0
  }

  /** Every value lies in exactly one band. */
  lemma LevelUnique(v: int, k: nat)
    requires k <= 4
    requires k > 0 ==> v >= 20 * k
    requires k < 4 ==> v < 20 * (k + 1)
    ensures k == Level(v)
  {
  }

  lemma LevelMonotone(v1: int, v2: int)
    requires v1 <= v2
    ensures Level(v1) <= Level(v2)
  {
  }

  function EnergyLabel(k: nat): string {
    if k >= 4 then "Very High"
    else if k == 3 then "High"
    else if k == 2 then "Medium"
    else if k == 1 then "Low"
    else "Very Low"
  }

  function MoodLabel(k: nat): string {
    if k >= 4 then "Excellent"
    else if k == 3 then "Good"
    else if k == 2 then "Okay"
    else if k == 1 then "Low"
    else "Very Low"
  }

  /** getMoodDescription(energy, mood). */
  function MoodDescription(energy: int, mood: int): string {
    EnergyLabel(Level(energy)) + " Energy, " + MoodLabel(Level(mood)) + " Mood"
  }

  /** The energy band whose label, with " Energy, ", begins `s`. */
  function EnergyLevelOf(s: string): nat {
    if EnergyLabel(4) + " Energy, " <= s then 4
    else if EnergyLabel(3) + " Energy, " <= s then 3
    else if EnergyLabel(2) + " Energy, " <= s then 2
    else if EnergyLabel(1) + " Energy, " <= s then 1
    else 0
  }

  /** The mood band whose label, followed by " Mood", is all of `s`. */
  function MoodLevelOf(s: string): nat {
    if s == MoodLabel(4) + " Mood" then 4
    else if s == MoodLabel(3) + " Mood" then 3
    else if s == MoodLabel(2) + " Mood" then 2
    else if s == MoodLabel(1) + " Mood" then 1
    else 0
  }

  /** The description names both bands: the energy band is read from its
      front, and the mood band from what follows the energy part. */
  lemma DescriptionDeterminesBands(energy: int, mood: int)
    ensures var d := MoodDescription(energy, mood);
      && EnergyLevelOf(d) == Level(energy)
      && MoodLevelOf(d[|EnergyLabel(EnergyLevelOf(d)) + " Energy, "|..]) == Level(mood)
  {
    var tail := MoodLabel(Level(mood)) + " Mood";
    var w := EnergyLabel(Level(energy)) + " Energy, ";
    assert MoodDescription(energy, mood) == w + tail;
    EnergyLabelLeads(Level(energy), tail);
    assert (w + tail)[|w|..] == tail;
    MoodLabelDecodes(Level(mood));
  }

  /** The mood labels are distinct: each decodes to its own band. */
  lemma MoodLabelDecodes(k: nat)
    requires k <= 4
    ensures MoodLevelOf(MoodLabel(k) + " Mood") == k
  {
    var s := MoodLabel(k) + " Mood";
    assert s[0] == MoodLabel(k)[0] && |s| == |MoodLabel(k)| + 5;
  }

  /** A description that begins with the label of band `k` decodes to `k`. */
  lemma EnergyLabelLeads(k: nat, rest: string)
    requires k <= 4
    ensures EnergyLevelOf(EnergyLabel(k) + " Energy, " + rest) == k
  {
    var w := EnergyLabel(k) + " Energy, ";
    var s := w + rest;
    assert s[..|w|] == w;
    assert s[0] == w[0];
    if k == 0 {
      assert s[5] == 'L';
    }
  }

  lemma DescriptionInjective(e1: int, m1: int, e2: int, m2: int)
    requires MoodDescription(e1, m1) == MoodDescription(e2, m2)
    ensures Level(e1) == Level(e2) && Level(m1) == Level(m2)
  {
    DescriptionDeterminesBands(e1, m1);
    DescriptionDeterminesBands(e2, m2);
  }
}
