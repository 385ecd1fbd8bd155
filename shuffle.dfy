/**
 * `shuffleArray` of src/App.jsx: a Fisher-Yates shuffle of a copy of the
 * question bank.  The random draw `Math.floor(Math.random() * (i + 1))` is
 * replaced by an oracle: `picks[i] % (i + 1)`, which ranges over the same
 * indices 0..i.
 */
module Shuffle {

  /** `s` with the elements at `i` and `j` exchanged. */
  function Swap<T>(s: seq<T>, i: nat, j: nat): (r: seq<T>)
    requires i < |s| && j < |s|
    ensures |r| == |s| && r[i] == s[j] && r[j] == s[i]
    ensures forall k :: 0 <= k < |s| && k != i && k != j ==> r[k] == s[k]
  {
    s[i := s[j]][j := s[i]]
  }

  lemma SwapPermutes<T>(s: seq<T>, i: nat, j: nat)
    requires i < |s| && j < |s|
    ensures multiset(Swap(s, i, j)) == multiset(s)
  {
  }

  /** The index the shuffle swaps with position `i`, drawn from 0..i. */
  function Pick(picks: seq<nat>, i: nat): (j: nat)
    requires i < |picks|
    ensures j <= i
  {
    picks[i] % (i + 1)
  }

  /**
   * The Fisher-Yates passes for positions `top` down to 1, applied to `s`:
   * the specification of the loop in `ShuffleArray`.
   */
  function FisherYates<T>(s: seq<T>, picks: seq<nat>, top: int): (r: seq<T>)
    requires |picks| == |s| && top < |s|
    ensures |r| == |s|
    decreases top
  {
    if top <= 0 then s else FisherYates(Swap(s, top, Pick(picks, top)), picks, top - 1)
  }

  function Shuffled<T>(s: seq<T>, picks: seq<nat>): (r: seq<T>)
    requires |picks| == |s|
  {
    FisherYates(s, picks, |s| - 1)
  }

  /** Every pass only exchanges two elements, so the result is a permutation. */
  lemma {:induction false} FisherYatesPermutes<T>(s: seq<T>, picks: seq<nat>, top: int)
    requires |picks| == |s| && top < |s|
    ensures multiset(FisherYates(s, picks, top)) == multiset(s)
    decreases top
  {
    if top > 0 {
      var t := Swap(s, top, Pick(picks, top));
      SwapPermutes(s, top, Pick(picks, top));
      FisherYatesPermutes(t, picks, top - 1);
      calc {
        multiset(FisherYates(s, picks, top));
        multiset(FisherYates(t, picks, top - 1));
        multiset(t);
        multiset(s);
      }
    }
  }

  lemma ShuffledPermutes<T>(s: seq<T>, picks: seq<nat>)
    requires |picks| == |s|
    ensures |Shuffled(s, picks)| == |s|
    ensures multiset(Shuffled(s, picks)) == multiset(s)
  {
    FisherYatesPermutes(s, picks, |s| - 1);
  }

  /**
   * `shuffleArray`: copies `s` into a fresh array and runs the down-counting
   * swap loop on it; the caller's sequence is a value and stays as it was.
   */
  method ShuffleArray<T>(s: seq<T>, picks: seq<nat>) returns (r: seq<T>)
    requires |picks| == |s|
    ensures r == Shuffled(s, picks)
    ensures multiset(r) == multiset(s)
  {
    var shuffled := new T[|s|](k requires 0 <= k < |s| => s[k]);
    var i := |s| - 1;
    assert shuffled[..] == s;
    while i > 0
      invariant -1 <= i < |s| == shuffled.Length
      invariant FisherYates(shuffled[..], picks, i) == Shuffled(s, picks)
    {
      var j := Pick(picks, i);
      ghost var before := shuffled[..];
      shuffled[i], shuffled[j] := shuffled[j], shuffled[i];
      assert shuffled[..] == Swap(before, i, j);
      i := i - 1;
    }
    r := shuffled[..];
    ShuffledPermutes(s, picks);
  }

  predicate Distinct<T(==)>(s: seq<T>)
  {
    forall i, j :: 0 <= i < j < |s| ==> s[i] != s[j]
  }

  /** A permutation of a sequence without repeats has no repeats either. */
  lemma PermutationKeepsDistinct<T>(s: seq<T>, r: seq<T>)
    requires multiset(r) == multiset(s) && Distinct(s)
    ensures Distinct(r)
  {
    forall x | x in multiset(s) ensures multiset(s)[x] == 1 {
      DistinctCountsOnce(s, x);
    }
    forall i, j | 0 <= i < j < |r| ensures r[i] != r[j] {
      assert r[i] in multiset(s);
      if r[i] == r[j] {
        TwoOccurrences(r, i, j);
        assert false;
      }
    }
  }

  lemma {:induction false} DistinctCountsOnce<T>(s: seq<T>, x: T)
    requires Distinct(s) && x in s
    ensures multiset(s)[x] == 1
    decreases |s|
  {
    assert s == [s[0]] + s[1..];
    if s[0] == x {
      assert x !in s[1..];
    } else {
      DistinctCountsOnce(s[1..], x);
    }
  }

  lemma {:induction false} TwoOccurrences<T>(r: seq<T>, i: nat, j: nat)
    requires i < j < |r| && r[i] == r[j]
    ensures multiset(r)[r[i]] >= 2
  {
    assert r == r[..i] + [r[i]] + r[i + 1..j] + [r[j]] + r[j + 1..];
  }

  /**
   * `shuffleArray(bank).slice(0, count)` for a bank without repeats: the
   * selected questions have no repeats and all come from the bank.
   */
  lemma SelectionFromBank<T>(bank: seq<T>, picks: seq<nat>, k: nat)
    requires |picks| == |bank| && Distinct(bank) && k <= |bank|
    ensures |Shuffled(bank, picks)[..k]| == k
    ensures Distinct(Shuffled(bank, picks)[..k])
    ensures forall x :: x in Shuffled(bank, picks)[..k] ==> x in bank
  {
    var r := Shuffled(bank, picks);
    ShuffledPermutes(bank, picks);
    PermutationKeepsDistinct(bank, r);
    forall x | x in r[..k] ensures x in bank {
      assert x in multiset(r);
    }
  }
}
