// The ladder of major support levels: the positive configured levels, highest
// first. Prices are integer ticks.

module LevelLadder {

  datatype Option<T> = None | Some(value: T)

  /** Every entry is at least as large as every later one (duplicates allowed). */
  predicate NonIncreasing(s: seq<int>) {
    forall i, j :: 0 <= i < j < |s| ==> s[i] >= s[j]
  }

  predicate AllPositive(s: seq<int>) {
    forall i :: 0 <= i < |s| ==> s[i] > 0
  }

  /** The entries of `s` that pass the `> 0` test, in their original order. */
  function Positives(s: seq<int>): (r: seq<int>)
    ensures AllPositive(r)
    ensures forall x :: x > 0 ==> multiset(r)[x] == multiset(s)[x]
    ensures forall x :: x <= 0 ==> multiset(r)[x] == 0
  {
    if |s| == 0 then []
    else
      assert s == [s[0]] + s[1..];
      if s[0] > 0 then [s[0]] + Positives(s[1..]) else Positives(s[1..])
  }

  /** Filtering distributes over a leading element. */
  lemma PositivesCons(x: int, s: seq<int>)
    ensures Positives([x] + s) == (if x > 0 then [x] else []) + Positives(s)
  {
    assert ([x] + s)[1..] == s;
  }

  /**
   * The list the three guarded `Add` calls build, in input order: exactly the
   * filter `Positives` applied to the three inputs.
   */
  function KeptOfThree(a: int, b: int, c: int): (r: seq<int>)
    ensures r == Positives([a, b, c])
  {
    PositivesCons(c, []);
    PositivesCons(b, [c]);
    PositivesCons(a, [b, c]);
    (if a > 0 then [a] else []) + (if b > 0 then [b] else []) + (if c > 0 then [c] else [])
  }

  /** Inserts `x` into a non-increasing sequence, keeping it non-increasing. */
  function Insert(x: int, s: seq<int>): (r: seq<int>)
    requires NonIncreasing(s)
    ensures NonIncreasing(r)
    ensures multiset(r) == multiset(s) + multiset{x}
    ensures |r| == |s| + 1
    ensures r[0] == x || (|s| > 0 && r[0] == s[0])
  {
    if |s| == 0 || x >= s[0] then [x] + s
    else
      assert s == [s[0]] + s[1..];
      [s[0]] + Insert(x, s[1..])
  }

  /**
   * The result of sorting with the comparison `(a, b) => b.CompareTo(a)`:
   * the same values, highest first.
   */
  function SortDescending(s: seq<int>): (r: seq<int>)
    ensures NonIncreasing(r)
    ensures multiset(r) == multiset(s)
  {
    if |s| == 0 then []
    else
      assert s == [s[0]] + s[1..];
      Insert(s[0], SortDescending(s[1..]))
  }

  /** The head of a non-increasing sequence bounds every value it holds. */
  lemma HeadBoundsAll(s: seq<int>, x: int)
    requires NonIncreasing(s) && x in multiset(s)
    ensures |s| > 0 && x <= s[0]
  {
    assert x in s;
  }

  lemma TailNonIncreasing(s: seq<int>)
    requires NonIncreasing(s) && |s| > 0
    ensures NonIncreasing(s[1..])
  {
    forall i, j | 0 <= i < j < |s| - 1 ensures s[1..][i] >= s[1..][j] {
      assert s[1..][i] == s[i + 1] && s[1..][j] == s[j + 1];
    }
  }

  lemma TailMultiset(a: seq<int>, b: seq<int>)
    requires multiset(a) == multiset(b) && |a| > 0 && |b| > 0 && a[0] == b[0]
    ensures multiset(a[1..]) == multiset(b[1..])
  {
    assert a == [a[0]] + a[1..];
    assert b == [b[0]] + b[1..];
    assert multiset(a[1..]) == multiset(a) - multiset{a[0]};
    assert multiset(b[1..]) == multiset(b) - multiset{b[0]};
  }

  /**
   * A non-increasing sequence is determined by its multiset, so any sorting
   * algorithm (stable or not) that orders highest first yields SortDescending.
   */
  lemma {:induction false} NonIncreasingPermutationUnique(a: seq<int>, b: seq<int>)
    requires NonIncreasing(a) && NonIncreasing(b)
    requires multiset(a) == multiset(b)
    ensures a == b
  {
    if |a| == 0 {
      assert |b| == |multiset(b)| == 0;
    } else {
      assert a[0] in multiset(a);
      HeadBoundsAll(b, a[0]);
      assert b[0] in multiset(b);
      HeadBoundsAll(a, b[0]);
      TailMultiset(a, b);
      TailNonIncreasing(a);
      TailNonIncreasing(b);
      NonIncreasingPermutationUnique(a[1..], b[1..]);
      assert a == [a[0]] + a[1..];
      assert b == [b[0]] + b[1..];
    }
  }

  /** The ladder built from the three configured major support levels. */
  function Ladder(m1: int, m2: int, m3: int): (r: seq<int>)
    ensures NonIncreasing(r) && AllPositive(r)
    ensures multiset(r) == multiset(Positives([m1, m2, m3]))
  {
    var kept := Positives([m1, m2, m3]);
    var r := SortDescending(kept);
    assert forall i :: 0 <= i < |r| ==> r[i] in multiset(kept);
    r
  }

  lemma LadderOfThree(a: int, b: int, c: int)
    ensures Ladder(a, b, c) == SortDescending(KeptOfThree(a, b, c))
  {
  }

  /** `List.IndexOf`: the first position holding `x`, or -1 when there is none. */
  function IndexOf(s: seq<int>, x: int): (i: int)
    ensures -1 <= i < |s|
    ensures i == -1 <==> x !in s
    ensures 0 <= i ==> s[i] == x && forall j :: 0 <= j < i ==> s[j] != x
  {
    if |s| == 0 then -1
    else if s[0] == x then 0
    else
      var k := IndexOf(s[1..], x);
      if k == -1 then -1 else k + 1
  }

  /**
   * The entry `majSupportLevels[IndexOf(level) + 1]` that the drop test reads,
   * when the index is below the last position. For a ladder member it is the
   * entry right after the member's first occurrence; for an absent level
   * IndexOf yields -1, so the entry read is the ladder's first one.
   */
  function NextLower(s: seq<int>, level: int): (r: Option<int>)
    ensures level in s && r.Some? ==>
      exists i :: 0 <= i < |s| - 1 && s[i] == level && level !in s[..i] && r.value == s[i + 1]
    ensures level in s && r.None? ==>
      |s| > 0 && s[|s| - 1] == level && level !in s[..|s| - 1]
    ensures level !in s ==> r == (if |s| > 0 then Some(s[0]) else None)
    ensures NonIncreasing(s) && level in s && r.Some? ==> r.value <= level
  {
    var i := IndexOf(s, level);
    assert 0 <= i ==> level !in s[..i];
    if i < |s| - 1 then Some(s[i + 1]) else None
  }
}
