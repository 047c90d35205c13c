/**
 * The in-place shuffle used to build study plans: forward Fisher-Yates,
 * where step i swaps position i with an index drawn from 0..=i. The random
 * source is replaced by an index oracle `pick`; step i uses `pick(i) % (i + 1)`.
 */
module Shuffle {
  /** No element occurs twice. */
  predicate Distinct<T(==)>(s: seq<T>) {
    forall i, j :: 0 <= i < j < |s| ==> s[i] != s[j]
  }

  /** `s` with the elements at positions i and j exchanged. */
  function Swap<T>(s: seq<T>, i: nat, j: nat): (r: seq<T>)
    requires i < |s| && j < |s|
    ensures |r| == |s|
    ensures r[i] == s[j] && r[j] == s[i]
    ensures forall k :: 0 <= k < |s| && k != i && k != j ==> r[k] == s[k]
  {
    s[i := s[j]][j := s[i]]
  }

  /** The index the shuffle swaps with at step i. */
  function Draw(pick: nat -> nat, i: nat): (j: nat)
    ensures j <= i
  {
    pick(i) % (i + 1)
  }

  /** The sequence after the first n steps of the shuffle. */
  function Steps<T>(s: seq<T>, pick: nat -> nat, n: nat): (r: seq<T>)
    requires n <= |s|
    ensures |r| == |s|
  {
    if n == 0 then s else Swap(Steps(s, pick, n - 1), n - 1, Draw(pick, n - 1))
  }

  /** The shuffled sequence: sequences of length at most one are left alone. */
  function Shuffled<T>(s: seq<T>, pick: nat -> nat): seq<T> {
    if |s| <= 1 then s else Steps(s, pick, |s|)
  }

  lemma SwapPermutes<T>(s: seq<T>, i: nat, j: nat)
    requires i < |s| && j < |s|
    ensures multiset(Swap(s, i, j)) == multiset(s)
  {
    var t := s[i := s[j]];
    assert multiset(t) == multiset(s) - multiset{s[i]} + multiset{s[j]};
  }

  lemma {:induction false} StepsPermute<T>(s: seq<T>, pick: nat -> nat, n: nat)
    requires n <= |s|
    ensures multiset(Steps(s, pick, n)) == multiset(s)
  {
    if n > 0 {
      StepsPermute(s, pick, n - 1);
      SwapPermutes(Steps(s, pick, n - 1), n - 1, Draw(pick, n - 1));
    }
  }

  /** The shuffle only reorders: the multiset of elements is unchanged. */
  lemma ShuffledPermutes<T>(s: seq<T>, pick: nat -> nat)
    ensures |Shuffled(s, pick)| == |s|
    ensures multiset(Shuffled(s, pick)) == multiset(s)
  {
    if |s| > 1 {
      StepsPermute(s, pick, |s|);
    }
  }

  /** A sequence has no duplicates exactly when every element occurs at most once in its multiset. */
  lemma {:induction false} DistinctIffSingleOccurrences<T>(s: seq<T>)
    ensures Distinct(s) <==> forall x :: multiset(s)[x] <= 1
  {
    if s != [] {
      var h, rest := s[0], s[1..];
      assert s == [h] + rest;
      DistinctIffSingleOccurrences(rest);
      if Distinct(s) {
        assert Distinct(rest) by {
          forall i, j | 0 <= i < j < |rest| ensures rest[i] != rest[j] {
            assert rest[i] == s[i + 1] && rest[j] == s[j + 1];
          }
        }
        forall j | 0 <= j < |rest| ensures rest[j] != h {
          assert rest[j] == s[j + 1];
        }
        forall x ensures multiset(s)[x] <= 1 {
          assert multiset(s)[x] == multiset([h])[x] + multiset(rest)[x];
        }
      } else {
        var i, j :| 0 <= i < j < |s| && s[i] == s[j];
        if i == 0 {
          assert s[j] in rest by { assert rest[j - 1] == s[j]; }
          assert multiset(s)[h] == 1 + multiset(rest)[h];
        } else {
          assert rest[i - 1] == rest[j - 1];
          assert !Distinct(rest);
          var x :| multiset(rest)[x] > 1;
          assert multiset(s)[x] == multiset([h])[x] + multiset(rest)[x];
        }
      }
    }
  }

  /** Reordering keeps a sequence free of duplicates. */
  lemma PermutationKeepsDistinct<T>(s: seq<T>, t: seq<T>)
    requires multiset(s) == multiset(t)
    requires Distinct(s)
    ensures Distinct(t)
  {
    DistinctIffSingleOccurrences(s);
    DistinctIffSingleOccurrences(t);
  }

  /** Exchanges a[i] and a[j]. */
  method SwapInPlace<T>(a: array<T>, i: nat, j: nat)
    requires i < a.Length && j < a.Length
    modifies a
    ensures a[..] == Swap(old(a[..]), i, j)
  {
    a[i], a[j] := a[j], a[i];
  }

  /**
   * Shuffles `a` in place. Step i, for i from 0 up to the last index, swaps
   * a[i] with a[Draw(pick, i)]; arrays of length at most one are left alone.
   */
  method ShuffleInPlace<T>(a: array<T>, pick: nat -> nat)
    modifies a
    ensures a[..] == Shuffled(old(a[..]), pick)
    ensures multiset(a[..]) == multiset(old(a[..]))
  {
    ghost var s := a[..];
    ShuffledPermutes(s, pick);
    if a.Length <= 1 {
      return;
    }
    var i := 0;
    while i < a.Length
      invariant 0 <= i <= a.Length
      invariant a[..] == Steps(s, pick, i)
    {
      SwapInPlace(a, i, pick(i) % (i + 1));
      i := i + 1;
    }
  }
}
