/**
 * `Array.prototype.sort` with a comparator, as the dashboard uses it on copies
 * of its lists. The comparator is given as a "goes no later than" relation
 * `leq`; the sort works in place on a fresh array and hands back its contents.
 */
module Sorting {

  /** `leq` orders every pair and is transitive: what a consistent comparator induces. */
  ghost predicate TotalPreorder<T(!new)>(leq: (T, T) -> bool) {
    (forall x, y :: leq(x, y) || leq(y, x)) &&
    (forall x, y, z :: leq(x, y) && leq(y, z) ==> leq(x, z))
  }

  ghost predicate SortedBy<T>(s: seq<T>, leq: (T, T) -> bool) {
    forall i, j :: 0 <= i < j < |s| ==> leq(s[i], s[j])
  }

  /** Sorts a copy of `s`: the result is ordered by `leq` and holds the same elements. */
  method SortBy<T(!new)>(s: seq<T>, leq: (T, T) -> bool) returns (r: seq<T>)
    requires TotalPreorder(leq)
    ensures SortedBy(r, leq)
    ensures multiset(r) == multiset(s)
  {
    var a := new T[|s|](i requires 0 <= i < |s| => s[i]);
    assert a[..] == s;
    var i := 0;
    while i < a.Length
      invariant 0 <= i <= a.Length
      invariant SortedBy(a[..i], leq)
      invariant multiset(a[..]) == multiset(s)
    {
      InsertLast(a, i, leq);
      i := i + 1;
    }
    assert a[..a.Length] == a[..];
    r := a[..];
  }

  /**
   * While `a[i]` moves left: the prefix `s[..i + 1]` is ordered apart from
   * the moving element at `j`, which goes no later than anything after it.
   */
  ghost predicate InsertionState<T>(s: seq<T>, i: nat, j: nat, leq: (T, T) -> bool)
    requires j <= i < |s|
  {
    (forall k, l :: 0 <= k < l <= i && k != j && l != j ==> leq(s[k], s[l])) &&
    (forall l :: j < l <= i ==> leq(s[j], s[l]))
  }

  /** Swapping the moving element with its left neighbour when that neighbour must go later. */
  lemma SwapLeft<T(!new)>(s: seq<T>, i: nat, j: nat, leq: (T, T) -> bool)
    requires TotalPreorder(leq)
    requires 0 < j <= i < |s|
    requires InsertionState(s, i, j, leq) && !leq(s[j - 1], s[j])
    ensures InsertionState(s[j - 1 := s[j]][j := s[j - 1]], i, j - 1, leq)
  {
    var t := s[j - 1 := s[j]][j := s[j - 1]];
    forall k, l | 0 <= k < l <= i && k != j - 1 && l != j - 1 ensures leq(t[k], t[l]) {
      if l == j {
        assert leq(s[k], s[j - 1]);
      } else if k == j {
        assert leq(s[j - 1], s[l]);
      } else {
        assert t[k] == s[k] && t[l] == s[l];
      }
    }
    forall l | j - 1 < l <= i ensures leq(t[j - 1], t[l]) {
      if l > j {
        assert leq(s[j], s[l]);
      }
    }
  }

  /** Once the moving element is in place, the whole prefix is ordered. */
  lemma InsertionDone<T(!new)>(s: seq<T>, i: nat, j: nat, leq: (T, T) -> bool)
    requires TotalPreorder(leq)
    requires j <= i < |s|
    requires InsertionState(s, i, j, leq) && (j == 0 || leq(s[j - 1], s[j]))
    ensures SortedBy(s[..i + 1], leq)
  {
    forall k, l | 0 <= k < l <= i
      ensures leq(s[k], s[l])
    {
      if l == j && k < j - 1 {
        assert leq(s[k], s[j - 1]);
      }
    }
  }

  /** Moves `a[i]` leftwards into place inside the already ordered prefix `a[..i]`. */
  method InsertLast<T(!new)>(a: array<T>, i: nat, leq: (T, T) -> bool)
    requires TotalPreorder(leq)
    requires i < a.Length
    requires SortedBy(a[..i], leq)
    modifies a
    ensures SortedBy(a[..i + 1], leq)
    ensures multiset(a[..]) == multiset(old(a[..]))
    ensures a[i + 1..] == old(a[i + 1..])
  {
    var j := i;
    assert InsertionState(a[..], i, j, leq) by {
      assert forall k :: 0 <= k < i ==> a[..i][k] == a[k];
    }
    while j > 0 && !leq(a[j - 1], a[j])
      invariant 0 <= j <= i
      invariant InsertionState(a[..], i, j, leq)
      invariant multiset(a[..]) == multiset(old(a[..]))
      invariant a[i + 1..] == old(a[i + 1..])
    {
      ghost var s := a[..];
      SwapLeft(s, i, j, leq);
      a[j - 1], a[j] := a[j], a[j - 1];
      assert a[..] == s[j - 1 := s[j]][j := s[j - 1]];
      j := j - 1;
    }
    InsertionDone(a[..], i, j, leq);
  }
}
