/** Small helpers shared by the models: optional values, results, and facts about
    duplicate-free sequences. */
module Common {

  datatype Option<+T> = None | Some(value: T)

  datatype Result<+T, +E> = Ok(value: T) | Err(error: E)

  ghost predicate Distinct<T>(s: seq<T>) {
    forall i, j | 0 <= i < j < |s| :: s[i] != s[j]
  }

  function Elements<T(==,!new)>(s: seq<T>): (r: set<T>)
    ensures forall x :: x in r <==> x in s
  {
    set x | x in s
  }

  /** The sequence without later repetitions, as `[...new Set(s)]` builds it. */
  function Dedup<T(==,!new)>(s: seq<T>): (r: seq<T>)
    ensures Distinct(r)
    ensures forall x :: x in r <==> x in s
  {
    if s == [] then []
    else
      var front, last := s[..|s| - 1], s[|s| - 1];
      assert s == front + [last];
      if last in front then Dedup(front) else Dedup(front) + [last]
  }

  /** Everything before the first occurrence of the i-th element is among the elements before it. */
  lemma {:induction false} DedupOrder<T(!new)>(s: seq<T>, i: nat) returns (k: nat)
    requires i < |Dedup(s)|
    ensures k < |s| && s[k] == Dedup(s)[i] && forall j | 0 <= j < k :: s[j] in Dedup(s)[..i]
  {
    var front, last := s[..|s| - 1], s[|s| - 1];
    if i < |Dedup(front)| {
      k := DedupOrder(front, i);
      assert Dedup(s)[..i] == Dedup(front)[..i];
    } else {
      k := |front|;
      assert Dedup(s)[..i] == Dedup(front);
    }
  }

  lemma {:induction false} DistinctCardinality<T(!new)>(s: seq<T>)
    requires Distinct(s)
    ensures |Elements(s)| == |s|
  {
    if s == [] {
    } else {
      var front, last := s[..|s| - 1], s[|s| - 1];
      DistinctCardinality(front);
      assert Elements(s) == Elements(front) + {last};
    }
  }

  lemma SubsetCardinality<T>(a: set<T>, b: set<T>)
    requires a <= b
    ensures |a| <= |b|
  {
    assert b == a + (b - a);
  }

  /** A duplicate-free sequence over a finite set is no longer than the set is large. */
  lemma DistinctWithin<T(!new)>(s: seq<T>, universe: set<T>)
    requires Distinct(s) && forall x | x in s :: x in universe
    ensures |s| <= |universe|
  {
    DistinctCardinality(s);
    SubsetCardinality(Elements(s), universe);
  }
}
