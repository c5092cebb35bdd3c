/** The Fisher-Yates shuffle that two of the games define word for word.
    The random draws are supplied by the caller: `draws[i]` is
    `Math.floor(Math.random() * (i + 1))`, a position in `0..i`. */
module Shuffle {
  import opened Common

  /** A list of the draws the shuffle consumes for a list of length `n`. */
  predicate ValidDraws(draws: seq<nat>, n: nat) {
    |draws| == n && forall i | 0 <= i < n :: draws[i] <= i
  }

  function Swapped<T>(x: seq<T>, i: nat, j: nat): seq<T>
    requires i < |x| && j < |x|
  {
    x[i := x[j]][j := x[i]]
  }

  /** Exchanging two cells keeps the multiset of elements and their
      distinctness. */
  lemma SwapPreserves<T>(x: seq<T>, i: nat, j: nat)
    requires i < |x| && j < |x|
    ensures multiset(Swapped(x, i, j)) == multiset(x)
    ensures NoDup(x) ==> NoDup(Swapped(x, i, j))
  {
    var y := Swapped(x, i, j);
    if NoDup(x) {
      forall p, q | 0 <= p < q < |y|
        ensures y[p] != y[q]
      {
        var p' := if p == i then j else if p == j then i else p;
        var q' := if q == i then j else if q == j then i else q;
        assert y[p] == x[p'] && y[q] == x[q'];
      }
    }
  }

  /** Copies the input into an array and, from the last cell down to the
      second, swaps cell `i` with cell `draws[i]`. The result is a
      permutation of the input, so distinct elements stay distinct. */
  method Shuffle<T>(s: seq<T>, draws: seq<nat>) returns (r: seq<T>)
    requires ValidDraws(draws, |s|)
    ensures |r| == |s| && multiset(r) == multiset(s)
    ensures NoDup(s) ==> NoDup(r)
  {
    if |s| == 0 {
      return s;
    }
    var a := new T[|s|](k requires 0 <= k < |s| => s[k]);
    assert a[..] == s;
    var i := |s| - 1;
    while i > 0
      invariant 0 <= i < |s| == a.Length
      invariant multiset(a[..]) == multiset(s)
      invariant NoDup(s) ==> NoDup(a[..])
    {
      var j := draws[i];
      ghost var before := a[..];
      a[i], a[j] := a[j], a[i];
      assert a[..] == Swapped(before, i, j);
      SwapPreserves(before, i, j);
      i := i - 1;
    }
    r := a[..];
  }
}
