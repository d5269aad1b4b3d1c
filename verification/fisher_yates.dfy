/**
 * The in-place shuffle both spawners run (`ShuffleLetters` in
 * Assets/Scripts/PuzzleSpawner.cs, `Shuffle` in Assets/Scripts/TileSpawner.cs):
 * for each position `i` from the front, swap it with a position drawn from
 * `[i, Count)`. The draws come in as `picks`.
 */
module FisherYates {

  /** `picks[i]` is what `Random.Range(i, n)` returned at step `i`. */
  predicate ValidPicks(picks: seq<int>, n: nat)
  {
    |picks| >= n && forall i :: 0 <= i < n ==> i <= picks[i] < n
  }

  ghost predicate Distinct<T>(s: seq<T>)
  {
    forall i, j :: 0 <= i < |s| && 0 <= j < |s| && i != j ==> s[i] != s[j]
  }

  /** The swap through `temp` of one step; `i == j` leaves `s` as it is. */
  function Swap<T>(s: seq<T>, i: nat, j: nat): (r: seq<T>)
    requires i < |s| && j < |s|
    ensures |r| == |s| && multiset(r) == multiset(s)
    ensures r[i] == s[j] && r[j] == s[i]
    ensures forall k :: 0 <= k < |s| && k != i && k != j ==> r[k] == s[k]
  {
    s[i := s[j]][j := s[i]]
  }

  /** The list after the steps `i`, `i + 1`, ... of the pass have run on `s`. */
  function Shuffled<T>(s: seq<T>, picks: seq<int>, i: nat): (r: seq<T>)
    requires i <= |s| && ValidPicks(picks, |s|)
    ensures |r| == |s| && multiset(r) == multiset(s)
    decreases |s| - i
  {
    if i == |s| then s else Shuffled(Swap(s, i, picks[i]), picks, i + 1)
  }

  /** In a list of distinct elements, each value occurs at most once. */
  lemma {:induction false} DistinctOccursOnce<T>(s: seq<T>, x: T)
    requires Distinct(s)
    ensures multiset(s)[x] <= 1
  {
    if s != [] {
      assert s == [s[0]] + s[1..];
      assert Distinct(s[1..]) by {
        forall p, q | 0 <= p < |s[1..]| && 0 <= q < |s[1..]| && p != q ensures s[1..][p] != s[1..][q] {
          assert s[1..][p] == s[p + 1] && s[1..][q] == s[q + 1];
        }
      }
      DistinctOccursOnce(s[1..], x);
      if s[0] == x {
        assert x !in s[1..] by {
          forall k | 0 <= k < |s[1..]| ensures s[1..][k] != x {
            assert s[1..][k] == s[k + 1];
          }
        }
      }
    }
  }

  /** A list in which each value occurs at most once has distinct elements. */
  lemma OnceIsDistinct<T>(r: seq<T>)
    requires forall x :: multiset(r)[x] <= 1
    ensures Distinct(r)
  {
    forall p, q | 0 <= p < |r| && 0 <= q < |r| && p != q ensures r[p] != r[q] {
      var lo, hi := if p < q then p else q, if p < q then q else p;
      assert r == r[..lo] + [r[lo]] + r[lo + 1..hi] + [r[hi]] + r[hi + 1..];
      assert multiset(r) == multiset(r[..lo]) + multiset{r[lo]} + multiset(r[lo + 1..hi])
                            + multiset{r[hi]} + multiset(r[hi + 1..]);
      assert multiset(r)[r[lo]] <= 1;
    }
  }

  /** Shuffling distinct elements yields distinct elements: the pass is a permutation. */
  lemma ShuffledDistinct<T>(s: seq<T>, picks: seq<int>, i: nat)
    requires i <= |s| && ValidPicks(picks, |s|) && Distinct(s)
    ensures Distinct(Shuffled(s, picks, i))
  {
    var r := Shuffled(s, picks, i);
    forall x ensures multiset(r)[x] <= 1 {
      DistinctOccursOnce(s, x);
    }
    OnceIsDistinct(r);
  }

  /** Every element of the shuffled list comes from the input, and every input element survives. */
  lemma ShuffledMembers<T>(s: seq<T>, picks: seq<int>, x: T)
    requires ValidPicks(picks, |s|)
    ensures x in Shuffled(s, picks, 0) <==> x in s
  {
    var r := Shuffled(s, picks, 0);
    assert x in r <==> x in multiset(r);
    assert x in s <==> x in multiset(s);
  }

  /** The shuffle of a list in place; the result is a permutation of the input. */
  method ShuffleInPlace<T>(a: array<T>, picks: seq<int>)
    requires ValidPicks(picks, a.Length)
    modifies a
    ensures a[..] == Shuffled(old(a[..]), picks, 0)
    ensures multiset(a[..]) == multiset(old(a[..]))
  {
    var i := 0;
    while i < a.Length
      invariant 0 <= i <= a.Length
      invariant Shuffled(a[..], picks, i) == Shuffled(old(a[..]), picks, 0)
    {
      ghost var before := a[..];
      var temp := a[i];
      var randomIndex := picks[i];
      a[i] := a[randomIndex];
      a[randomIndex] := temp;
      assert a[..] == Swap(before, i, randomIndex);
      i := i + 1;
    }
  }
}
