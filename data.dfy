/** The values the tracker stores and the arithmetic shared by its views:
    mood entries, the grid selection, sums and means over a field of the
    entries, JavaScript's Math.round on a quotient, first-occurrence
    de-duplication (the key order of a JavaScript object built by a scan),
    and String.prototype.trim. */
module MoodData {

  datatype Option<+T> = None | Some(value: T)

  /** Capacity of the history: script.js keeps only the newest 200 entries. */
  const MaxHistory: nat := 200

  /** One logged state. The ISO timestamp of the source is abstracted to an
      instant (for comparisons against a cutoff) and the index of its local
      calendar day (for `toDateString` equality). */
  datatype Entry = Entry(
    instant: int,
    day: int,
    energy: int,
    mood: int,
    notes: string,
    tags: seq<string>)

  /** The grid cell the user has chosen (the DOM cell itself is not modelled). */
  datatype Selection = Selection(energy: int, mood: int)

  /** The two numeric fields the analytics average. */
  datatype Field = Energy | Mood

  predicate InRange(v: int) { 0 <= v <= 100 }

  predicate ValidEntry(e: Entry) { InRange(e.energy) && InRange(e.mood) }

  predicate ValidHistory(h: seq<Entry>) { forall i :: 0 <= i < |h| ==> ValidEntry(h[i]) }

  function Min(a: int, b: int): int { if a <= b then a else b }

  function FieldOf(e: Entry, f: Field): int {
    match f
    case Energy => e.energy
    case Mood => e.mood
  }

  /** `entries.reduce((sum, entry) => sum + entry.<field>, 0)`: a left fold,
      so the last entry is added last. */
  function Total(es: seq<Entry>, f: Field): int
    decreases |es|
  {
    if es == [] then 0 else Total(es[..|es| - 1], f) + FieldOf(es[|es| - 1], f)
  }

  lemma {:induction false} TotalBounds(es: seq<Entry>, f: Field)
    requires ValidHistory(es)
    ensures 0 <= Total(es, f) <= 100 * |es|
    decreases |es|
  {
    if es != [] {
      TotalBounds(es[..|es| - 1], f);
    }
  }

  /** The unrounded mean `sum / length` of the source, as an exact real. */
  function Mean(es: seq<Entry>, f: Field): real
    requires |es| > 0
  {
    Total(es, f) as real / |es| as real
  }

  /** `r` is what Math.round returns for `x`: the integer nearest to `x`,
      with halves going towards +infinity. */
  ghost predicate IsRoundOf(r: int, x: real) {
    r as real - 0.5 <= x < r as real + 0.5
  }

  /** Math.round(s / n) on integers, computed without division of reals. */
  function RoundHalfUp(s: int, n: int): (r: int)
    requires n > 0
    ensures IsRoundOf(r, s as real / n as real)
  {
    RoundHalfUpIsRound(s, n);
    (2 * s + n) / (2 * n)
  }

  lemma RoundHalfUpIsRound(s: int, n: int)
    requires n > 0
    ensures IsRoundOf((2 * s + n) / (2 * n), s as real / n as real)
  {
    var q := (2 * s + n) / (2 * n);
    var rem := (2 * s + n) % (2 * n);
    assert 2 * s + n == 2 * n * q + rem && 0 <= rem < 2 * n;
    var x := s as real / n as real;
    assert x * n as real == s as real;
    assert (2 * q - 1) * n <= 2 * s < (2 * q + 1) * n;
    assert ((2 * q - 1) as real) * (n as real) <= 2.0 * x * (n as real);
    assert 2.0 * x * (n as real) < ((2 * q + 1) as real) * (n as real);
  }

  /** A quotient of a total bounded by 100 per entry lies in [0, 100]. */
  lemma QuotientInRange(s: int, n: int)
    requires n > 0 && 0 <= s <= 100 * n
    ensures 0.0 <= s as real / n as real <= 100.0
  {
    var x := s as real / n as real;
    assert x * n as real == s as real;
    if x > 100.0 {
      assert (x - 100.0) * (n as real) > 0.0;
    }
  }

  /** Math.round maps [0, 100] into the integers 0..100. */
  lemma RoundInRange(r: int, x: real)
    requires IsRoundOf(r, x) && 0.0 <= x <= 100.0
    ensures InRange(r)
  {
  }

  /** Comparing a quotient `s / n` with an integer threshold `k` is the
      same as comparing `s` with `k * n`. */
  lemma QuotientCompare(s: int, n: int, k: int)
    requires n > 0
    ensures s as real / n as real < k as real <==> s < k * n
    ensures s as real / n as real > k as real <==> s > k * n
    ensures s as real / n as real >= k as real <==> s >= k * n
  {
    var x := s as real / n as real;
    assert x * n as real == s as real;
    if x < k as real {
      assert (k as real - x) * (n as real) > 0.0;
    } else {
      assert (x - k as real) * (n as real) >= 0.0;
    }
    if x > k as real {
      assert (x - k as real) * (n as real) > 0.0;
    } else {
      assert (k as real - x) * (n as real) >= 0.0;
    }
  }

  /** Math.round is monotone. */
  lemma RoundMonotone(r1: int, x1: real, r2: int, x2: real)
    requires IsRoundOf(r1, x1) && IsRoundOf(r2, x2) && x1 <= x2
    ensures r1 <= r2
  {
  }

  /** No element occurs twice in `s`. */
  predicate NoDuplicates<T(==)>(s: seq<T>) {
    forall i, j :: 0 <= i < j < |s| ==> s[i] != s[j]
  }

  /** Elements in order of first occurrence: the key order of a JavaScript
      object whose keys are inserted by a left-to-right scan of `s`. */
  function Distinct<T(==)>(s: seq<T>): (r: seq<T>)
    ensures |r| <= |s|
    decreases |s|
  {
    if s == [] then []
    else
      var p := Distinct(s[..|s| - 1]);
      if s[|s| - 1] in p then p else p + [s[|s| - 1]]
  }

  /** De-duplication keeps every element and adds none. */
  lemma {:induction false} DistinctMembers<T>(s: seq<T>)
    ensures forall x :: x in Distinct(s) <==> x in s
    decreases |s|
  {
    if s != [] {
      DistinctMembers(s[..|s| - 1]);
      assert forall x :: x in s <==> x in s[..|s| - 1] || x == s[|s| - 1];
    }
  }

  /** De-duplication leaves no element twice. */
  lemma {:induction false} DistinctNoDuplicates<T>(s: seq<T>)
    ensures NoDuplicates(Distinct(s))
    decreases |s|
  {
    if s != [] {
      DistinctNoDuplicates(s[..|s| - 1]);
    }
  }

  lemma DistinctSnoc<T>(s: seq<T>, x: T)
    ensures Distinct(s + [x]) == if x in Distinct(s) then Distinct(s) else Distinct(s) + [x]
  {
    assert (s + [x])[..|s|] == s;
  }

  /** Number of occurrences of `x` in `s`. */
  function Count<T(==)>(s: seq<T>, x: T): (n: nat)
    ensures n <= |s|
    ensures n > 0 <==> x in s
    decreases |s|
  {
    if s == [] then 0
    else Count(s[..|s| - 1], x) + (if s[|s| - 1] == x then 1 else 0)
  }

  /** The characters String.prototype.trim removes: WhiteSpace (TAB, VT,
      FF, ZWNBSP and the Unicode Zs category) and LineTerminator (LF, CR,
      LS, PS), per section 12.2 and 12.3 of ECMA-262. */
  predicate IsWhitespace(c: char) {
    var u := c as int;
    u == 0x09 || u == 0x0B || u == 0x0C || u == 0xFEFF
    || u == 0x20 || u == 0xA0 || u == 0x1680
    || (0x2000 <= u <= 0x200A) || u == 0x202F || u == 0x205F || u == 0x3000
    || u == 0x0A || u == 0x0D || u == 0x2028 || u == 0x2029
  }

  function TrimStart(s: string): (r: string)
    ensures |r| <= |s| && r == s[|s| - |r|..]
    ensures forall i :: 0 <= i < |s| - |r| ==> IsWhitespace(s[i])
    ensures r != [] ==> !IsWhitespace(r[0])
    decreases |s|
  {
    if s != [] && IsWhitespace(s[0]) then TrimStart(s[1..]) else s
  }

  function TrimEnd(s: string): (r: string)
    ensures |r| <= |s| && r == s[..|r|]
    ensures forall i :: |r| <= i < |s| ==> IsWhitespace(s[i])
    ensures r != [] ==> !IsWhitespace(r[|r| - 1])
    decreases |s|
  {
    if s != [] && IsWhitespace(s[|s| - 1]) then TrimEnd(s[..|s| - 1]) else s
  }

  /** `r` is `s[i..i + |r|]` and everything around it is white space. */
  ghost predicate IsPaddedInfix(s: string, r: string, i: int) {
    0 <= i <= |s| - |r| && r == s[i..i + |r|]
    && (forall k :: 0 <= k < i ==> IsWhitespace(s[k]))
    && (forall k :: i + |r| <= k < |s| ==> IsWhitespace(s[k]))
  }

  /** String.prototype.trim: the infix of `s` left after removing leading
      and trailing white space. */
  function Trim(s: string): (r: string)
    ensures |r| <= |s|
    ensures r != [] ==> !IsWhitespace(r[0]) && !IsWhitespace(r[|r| - 1])
    ensures exists i :: IsPaddedInfix(s, r, i)
  {
    var t := TrimStart(s);
    var r := TrimEnd(t);
    var i := |s| - |t|;
    assert IsPaddedInfix(s, r, i);
    r
  }

  lemma {:induction false} TrimIdempotent(s: string)
    ensures Trim(Trim(s)) == Trim(s)
  {
    var r := Trim(s);
    if r != [] {
      assert TrimStart(r) == r;
      assert TrimEnd(r) == r;
    }
  }

  /** A subset has no more elements than its superset. */
  lemma SubsetCardinality(a: set<int>, b: set<int>)
    requires a <= b
    ensures |a| <= |b|
  {
    assert b == a + (b - a);
    assert a * (b - a) == {};
  }
}
