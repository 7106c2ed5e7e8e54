/** The order in which a cohort is compared: (0,1), (0,2), ..., (1,2), ... */
module Pairing {

  function MapAll<T, R>(items: seq<T>, f: T -> R): (r: seq<R>)
    ensures |r| == |items|
    ensures forall k :: 0 <= k < |items| ==> r[k] == f(items[k])
  {
    seq(|items|, k requires 0 <= k < |items| => f(items[k]))
  }

  /** The pairs (i, i + 1) ... (i, j - 1). */
  function RowPairs<T, R>(items: seq<T>, f: (T, T) -> R, i: nat, j: nat): seq<R>
    requires i < j <= |items|
  {
    if j == i + 1 then [] else RowPairs(items, f, i, j - 1) + [f(items[i], items[j - 1])]
  }

  /** All pairs whose first member is below n. */
  function AllPairs<T, R>(items: seq<T>, f: (T, T) -> R, n: nat): seq<R>
    requires n <= |items|
  {
    if n == 0 then [] else AllPairs(items, f, n - 1) + RowPairs(items, f, n - 1, |items|)
  }

  lemma {:induction false} RowPairsAre<T, R>(items: seq<T>, f: (T, T) -> R, i: nat, j: nat)
    requires i < j <= |items|
    ensures |RowPairs(items, f, i, j)| == j - i - 1
    ensures forall k :: i < k < j ==> RowPairs(items, f, i, j)[k - i - 1] == f(items[i], items[k])
  {
    if j > i + 1 {
      RowPairsAre(items, f, i, j - 1);
    }
  }

  /** Where row i starts: (n - 1) + (n - 2) + ... + (n - i). */
  function RowStart(n: nat, i: nat): nat
    requires i <= n
  {
    if i == 0 then 0 else RowStart(n, i - 1) + (n - i)
  }

  lemma {:induction false} RowStartGrows(n: nat, i: nat, j: nat)
    requires i < j <= n
    ensures RowStart(n, i) + (n - 1 - i) <= RowStart(n, j)
  {
    if i + 1 < j {
      RowStartGrows(n, i, j - 1);
    }
  }

  lemma {:induction false} RowStartClosed(n: nat, i: nat)
    requires i <= n
    ensures 2 * RowStart(n, i) == i * (2 * n - i - 1)
  {
    if i > 0 {
      RowStartClosed(n, i - 1);
      assert i * (2 * n - i - 1) == (i - 1) * (2 * n - (i - 1) - 1) + 2 * (n - i);
    }
  }

  lemma {:induction false} AllPairsLength<T, R>(items: seq<T>, f: (T, T) -> R, n: nat)
    requires n <= |items|
    ensures |AllPairs(items, f, n)| == RowStart(|items|, n)
  {
    if n > 0 {
      AllPairsLength(items, f, n - 1);
      RowPairsAre(items, f, n - 1, |items|);
    }
  }

  lemma IndexInAppended<R>(before: seq<R>, row: seq<R>, k: nat)
    requires k < |row|
    ensures |before| + k < |before + row| && (before + row)[|before| + k] == row[k]
  {
  }

  lemma {:induction false} PairHasItsPlace<T, R>(items: seq<T>, f: (T, T) -> R, n: nat, i: nat, j: nat)
    requires i < n <= |items| && i < j < |items|
    ensures RowStart(|items|, i) + (j - i - 1) < |AllPairs(items, f, n)|
    ensures AllPairs(items, f, n)[RowStart(|items|, i) + (j - i - 1)] == f(items[i], items[j])
  {
    if i < n - 1 {
      PairHasItsPlace(items, f, n - 1, i, j);
    } else {
      AllPairsLength(items, f, i);
      RowPairsAre(items, f, i, |items|);
      assert RowPairs(items, f, i, |items|)[j - i - 1] == f(items[i], items[j]);
      hide RowPairs;
      IndexInAppended(AllPairs(items, f, i), RowPairs(items, f, i, |items|), j - i - 1);
    }
  }

  /** Every unordered pair is compared, and compared once: there are n(n-1)/2 results and pair (i, j) has a place of its own. */
  lemma EveryPairOnce<T, R>(items: seq<T>, f: (T, T) -> R)
    ensures 2 * |AllPairs(items, f, |items|)| == |items| * (|items| - 1)
    ensures forall i, j :: 0 <= i < j < |items| ==>
              RowStart(|items|, i) + (j - i - 1) < |AllPairs(items, f, |items|)| &&
              AllPairs(items, f, |items|)[RowStart(|items|, i) + (j - i - 1)] == f(items[i], items[j])
  {
    AllPairsLength(items, f, |items|);
    RowStartClosed(|items|, |items|);
    forall i, j | 0 <= i < j < |items|
      ensures RowStart(|items|, i) + (j - i - 1) < |AllPairs(items, f, |items|)| &&
              AllPairs(items, f, |items|)[RowStart(|items|, i) + (j - i - 1)] == f(items[i], items[j])
    {
      PairHasItsPlace(items, f, |items|, i, j);
    }
  }

  /** Distinct pairs have distinct places. */
  lemma PlacesDiffer(n: nat, i: nat, j: nat, x: nat, y: nat)
    requires i < j < n && x < y < n && (i != x || j != y)
    ensures RowStart(n, i) + (j - i - 1) != RowStart(n, x) + (y - x - 1)
  {
    if i < x {
      RowStartGrows(n, i, x);
    } else if x < i {
      RowStartGrows(n, x, i);
    }
  }
}
