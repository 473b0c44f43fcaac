/**
 * Shared vocabulary for the dashboard model: an optional value, the handful of
 * JavaScript string operations the dashboard relies on (ASCII case mapping,
 * `includes`, `trim`, decimal rendering), list comprehensions (`filter`,
 * de-duplication through a `Set`), sums as computed by `reduce`, and the
 * `Math.floor`/`Math.ceil`/`Math.round` rounding rules on reals.
 */
module Common {

  datatype Option<T> = None | Some(value: T) {
    function GetOr(default: T): T {
      match this
      case Some(v) => v
      case None => default
    }
  }

  // ---------------------------------------------------------------------------
  // Characters and strings
  // ---------------------------------------------------------------------------

  /** `toLowerCase` on one character; only the ASCII letters are mapped. */
  function LowerChar(c: char): char {
    if 'A' <= c <= 'Z' then (c as int + 32) as char else c
  }

  /** `toUpperCase` on one character; only the ASCII letters are mapped. */
  function UpperChar(c: char): char {
    if 'a' <= c <= 'z' then (c as int - 32) as char else c
  }

  function ToLower(s: string): string {
    seq(|s|, i requires 0 <= i < |s| => LowerChar(s[i]))
  }

  predicate StartsWith(s: string, t: string) {
    |t| <= |s| && s[..|t|] == t
  }

  /** `s.includes(t)`: some window of `s` equals `t`; computed by scanning from the left. */
  function Contains(s: string, t: string): bool
    decreases |s|
  {
    StartsWith(s, t) || (|s| > 0 && Contains(s[1..], t))
  }

  ghost predicate OccursAt(s: string, t: string, i: int) {
    0 <= i && i + |t| <= |s| && s[i..i + |t|] == t
  }

  lemma {:induction false} ContainsHasOccurrence(s: string, t: string)
    requires Contains(s, t)
    ensures exists i :: OccursAt(s, t, i)
    decreases |s|
  {
    if StartsWith(s, t) {
      assert OccursAt(s, t, 0);
    } else {
      ContainsHasOccurrence(s[1..], t);
      var i :| OccursAt(s[1..], t, i);
      assert s[1..][i..i + |t|] == s[i + 1..i + 1 + |t|];
      assert OccursAt(s, t, i + 1);
    }
  }

  lemma {:induction false} OccurrenceIsContained(s: string, t: string, i: int)
    requires OccursAt(s, t, i)
    ensures Contains(s, t)
    decreases i
  {
    if i > 0 {
      assert s[1..][i - 1..i - 1 + |t|] == s[i..i + |t|];
      OccurrenceIsContained(s[1..], t, i - 1);
    }
  }

  /** The scan agrees with the definition of a substring occurrence, in both directions. */
  lemma ContainsIff(s: string, t: string)
    ensures Contains(s, t) <==> exists i :: OccursAt(s, t, i)
  {
    if Contains(s, t) {
      ContainsHasOccurrence(s, t);
    }
    forall i | OccursAt(s, t, i) ensures Contains(s, t) {
      OccurrenceIsContained(s, t, i);
    }
  }

  /** Every string contains the empty string. */
  lemma ContainsEmpty(s: string)
    ensures Contains(s, "")
  {
    assert s[..0] == "";
  }

  /** The characters `String.prototype.trim` strips (ECMAScript WhiteSpace and LineTerminator). */
  predicate IsJsWhitespace(c: char) {
    var n := c as int;
    n == 0x09 || n == 0x0A || n == 0x0B || n == 0x0C || n == 0x0D || n == 0x20 ||
    n == 0xA0 || n == 0x1680 || (0x2000 <= n <= 0x200A) || n == 0x2028 || n == 0x2029 ||
    n == 0x202F || n == 0x205F || n == 0x3000 || n == 0xFEFF
  }

  function TrimStart(s: string): (r: string)
    ensures |r| <= |s| && r == s[|s| - |r|..]
    ensures |r| > 0 ==> !IsJsWhitespace(r[0])
    ensures forall i :: 0 <= i < |s| - |r| ==> IsJsWhitespace(s[i])
  {
    if |s| > 0 && IsJsWhitespace(s[0]) then TrimStart(s[1..]) else s
  }

  function TrimEnd(s: string): (r: string)
    ensures |r| <= |s| && r == s[..|r|]
    ensures |r| > 0 ==> !IsJsWhitespace(r[|r| - 1])
    ensures forall i :: |r| <= i < |s| ==> IsJsWhitespace(s[i])
  {
    if |s| > 0 && IsJsWhitespace(s[|s| - 1]) then TrimEnd(s[..|s| - 1]) else s
  }

  /** `s.trim()`. */
  function Trim(s: string): string {
    TrimEnd(TrimStart(s))
  }

  /** A trimmed string is empty exactly when the input holds only whitespace. */
  lemma TrimEmptyIff(s: string)
    ensures Trim(s) == "" <==> forall i :: 0 <= i < |s| ==> IsJsWhitespace(s[i])
  {
    var t := TrimStart(s);
    if Trim(s) == "" {
      assert |t| == 0;
    } else {
      var r := Trim(s);
      assert r[0] == t[0] == s[|s| - |t|];
    }
  }

  function DigitChar(d: nat): char
    requires d < 10
  {
    ('0' as int + d) as char
  }

  /** Decimal rendering of a natural number, as `String(n)` prints it. */
  function NatToString(n: nat): (r: string)
    ensures |r| > 0
    ensures forall i :: 0 <= i < |r| ==> '0' <= r[i] <= '9'
  {
    if n < 10 then [DigitChar(n)] else NatToString(n / 10) + [DigitChar(n % 10)]
  }

  function IntToString(i: int): string {
    if i < 0 then "-" + NatToString(-i) else NatToString(i)
  }

  // ---------------------------------------------------------------------------
  // Sequences: filter, subsequences, de-duplication, sums
  // ---------------------------------------------------------------------------

  /** Code-point lexicographic order: how the dashboard's `localeCompare` is modelled. */
  predicate StrLeq(a: string, b: string) {
    |a| == 0 || (|b| > 0 && (a[0] < b[0] || (a[0] == b[0] && StrLeq(a[1..], b[1..]))))
  }

  lemma {:induction false} StrLeqTotal(a: string, b: string)
    ensures StrLeq(a, b) || StrLeq(b, a)
  {
    if |a| > 0 && |b| > 0 && a[0] == b[0] {
      StrLeqTotal(a[1..], b[1..]);
    }
  }

  lemma {:induction false} StrLeqTransitive(a: string, b: string, c: string)
    requires StrLeq(a, b) && StrLeq(b, c)
    ensures StrLeq(a, c)
  {
    if |a| > 0 && a[0] == b[0] && b[0] == c[0] {
      StrLeqTransitive(a[1..], b[1..], c[1..]);
    }
  }

  /** `s.slice(0, n)` for `n >= 0`: the first `n` elements, or all of `s` when it is shorter. */
  function Take<T>(s: seq<T>, n: nat): (r: seq<T>)
    ensures |r| == Min(n, |s|) && r == s[..|r|]
  {
    if n <= |s| then s[..n] else s
  }

  /** `s.slice(-n)` for `n > 0`: the last `n` elements, or all of `s` when it is shorter. */
  function TakeLast<T>(s: seq<T>, n: nat): (r: seq<T>)
    ensures |r| == Min(n, |s|) && r == s[|s| - |r|..]
  {
    if n <= |s| then s[|s| - n..] else s
  }

  /** `Array.prototype.filter`. */
  function Filter<T>(s: seq<T>, p: T -> bool): (r: seq<T>)
    ensures |r| <= |s|
  {
    if |s| == 0 then []
    else Filter(s[..|s| - 1], p) + (if p(s[|s| - 1]) then [s[|s| - 1]] else [])
  }

  /** An element survives the filter exactly when it is in `s` and satisfies `p`. */
  lemma {:induction false} FilterMembers<T>(s: seq<T>, p: T -> bool, x: T)
    ensures x in Filter(s, p) <==> x in s && p(x)
  {
    if |s| > 0 {
      var pre := s[..|s| - 1];
      FilterMembers(pre, p, x);
      assert s == pre + [s[|s| - 1]];
    }
  }

  /** The filter keeps each element at most as often as `s` holds it. */
  lemma {:induction false} FilterMultiset<T>(s: seq<T>, p: T -> bool)
    ensures multiset(Filter(s, p)) <= multiset(s)
  {
    if |s| > 0 {
      var pre := s[..|s| - 1];
      FilterMultiset(pre, p);
      assert s == pre + [s[|s| - 1]];
    }
  }

  /** `r` is `s` with some elements left out, the rest in their original order. */
  ghost predicate IsSubsequence<T>(r: seq<T>, s: seq<T>) {
    exists idx: seq<nat> ::
      |idx| == |r| &&
      (forall k :: 0 <= k < |idx| ==> idx[k] < |s| && s[idx[k]] == r[k]) &&
      (forall k, l :: 0 <= k < l < |idx| ==> idx[k] < idx[l])
  }

  lemma SubsequenceSkipLast<T>(r: seq<T>, s: seq<T>, x: T)
    requires IsSubsequence(r, s)
    ensures IsSubsequence(r, s + [x])
  {
    var idx: seq<nat> :| |idx| == |r| &&
      (forall k :: 0 <= k < |idx| ==> idx[k] < |s| && s[idx[k]] == r[k]) &&
      (forall k, l :: 0 <= k < l < |idx| ==> idx[k] < idx[l]);
    assert forall k :: 0 <= k < |idx| ==> idx[k] < |s + [x]| && (s + [x])[idx[k]] == r[k];
  }

  lemma SubsequenceKeepLast<T>(r: seq<T>, s: seq<T>, x: T)
    requires IsSubsequence(r, s)
    ensures IsSubsequence(r + [x], s + [x])
  {
    var idx: seq<nat> :| |idx| == |r| &&
      (forall k :: 0 <= k < |idx| ==> idx[k] < |s| && s[idx[k]] == r[k]) &&
      (forall k, l :: 0 <= k < l < |idx| ==> idx[k] < idx[l]);
    var idx' := idx + [|s|];
    assert forall k :: 0 <= k < |idx'| ==> idx'[k] < |s + [x]| && (s + [x])[idx'[k]] == (r + [x])[k];
    assert forall k, l :: 0 <= k < l < |idx'| ==> idx'[k] < idx'[l];
  }

  /** `filter` keeps the surviving elements in their original order. */
  lemma {:induction false} FilterIsSubsequence<T>(s: seq<T>, p: T -> bool)
    ensures IsSubsequence(Filter(s, p), s)
  {
    if |s| == 0 {
      var idx: seq<nat> := [];
      assert |idx| == |Filter(s, p)|;
    } else {
      var pre, x := s[..|s| - 1], s[|s| - 1];
      assert s == pre + [x];
      FilterIsSubsequence(pre, p);
      if p(x) {
        SubsequenceKeepLast(Filter(pre, p), pre, x);
      } else {
        SubsequenceSkipLast(Filter(pre, p), pre, x);
      }
    }
  }

  /** A filter whose predicate holds of every element keeps the whole sequence. */
  lemma {:induction false} FilterAll<T>(s: seq<T>, p: T -> bool)
    requires forall x :: x in s ==> p(x)
    ensures Filter(s, p) == s
  {
    if |s| > 0 {
      FilterAll(s[..|s| - 1], p);
      assert s[..|s| - 1] + [s[|s| - 1]] == s;
    }
  }

  /** A filter whose predicate holds of no element keeps nothing. */
  lemma FilterNone<T>(s: seq<T>, p: T -> bool)
    requires forall x :: x in s ==> !p(x)
    ensures Filter(s, p) == []
  {
    var r := Filter(s, p);
    if |r| > 0 {
      FilterMembers(s, p, r[0]);
    }
  }

  lemma FilterAppend<T>(s: seq<T>, x: T, p: T -> bool)
    ensures Filter(s + [x], p) == Filter(s, p) + (if p(x) then [x] else [])
  {
    assert (s + [x])[..|s|] == s;
  }

  lemma {:induction false} FilterConcat<T>(a: seq<T>, b: seq<T>, p: T -> bool)
    ensures Filter(a + b, p) == Filter(a, p) + Filter(b, p)
    decreases |b|
  {
    if |b| == 0 {
      assert a + b == a;
    } else {
      var pre, x := b[..|b| - 1], b[|b| - 1];
      assert a + b == (a + pre) + [x];
      assert b == pre + [x];
      FilterConcat(a, pre, p);
      FilterAppend(a + pre, x, p);
      FilterAppend(pre, x, p);
    }
  }

  lemma FilterPrepend<T>(x: T, s: seq<T>, p: T -> bool)
    ensures Filter([x] + s, p) == (if p(x) then [x] else []) + Filter(s, p)
  {
    FilterConcat([x], s, p);
    FilterAppend([], x, p);
    assert [] + [x] == [x];
  }

  /** What the filter keeps of a single element. */
  function KeptIf<T>(x: T, p: T -> bool): seq<T> {
    if p(x) then [x] else []
  }

  lemma FilterSingleton<T>(x: T, p: T -> bool)
    ensures Filter([x], p) == KeptIf(x, p)
  {
    assert [x][..0] == [];
  }

  /** Filtering four listed elements, element by element. */
  lemma FilterOfFour<T>(a: T, b: T, c: T, d: T, p: T -> bool)
    ensures Filter([a, b, c, d], p) == KeptIf(a, p) + KeptIf(b, p) + KeptIf(c, p) + KeptIf(d, p)
  {
    FilterSingleton(a, p);
    FilterSingleton(b, p);
    FilterSingleton(c, p);
    FilterSingleton(d, p);
    FilterConcat([a, b, c], [d], p);
    assert [a, b, c] + [d] == [a, b, c, d];
    FilterConcat([a, b], [c], p);
    assert [a, b] + [c] == [a, b, c];
    FilterConcat([a], [b], p);
    assert [a] + [b] == [a, b];
  }

  predicate NoDuplicates<T(==)>(s: seq<T>) {
    forall i, j :: 0 <= i < j < |s| ==> s[i] != s[j]
  }

  /** Position of the first occurrence of `x` in `s`. */
  function IndexOf<T(==)>(s: seq<T>, x: T): (k: nat)
    requires x in s
    ensures k < |s| && s[k] == x
    ensures forall i :: 0 <= i < k ==> s[i] != x
  {
    if s[0] == x then 0 else 1 + IndexOf(s[1..], x)
  }

  lemma IndexOfPrefix<T>(s: seq<T>, n: nat, x: T)
    requires n <= |s| && x in s[..n]
    ensures IndexOf(s, x) == IndexOf(s[..n], x)
  {
    var k, j := IndexOf(s[..n], x), IndexOf(s, x);
    assert s[..n][k] == s[k];
    assert j <= k;
    assert s[..n][j] == s[j];
  }

  /**
   * `Array.from(new Set(s))`: each distinct element once, in order of first
   * appearance.
   */
  function Distinct<T(==)>(s: seq<T>): seq<T> {
    if |s| == 0 then []
    else
      var d := Distinct(s[..|s| - 1]);
      if s[|s| - 1] in d then d else d + [s[|s| - 1]]
  }

  /** The de-duplicated sequence holds exactly the elements of `s`. */
  lemma {:induction false} DistinctMembers<T>(s: seq<T>)
    ensures forall x :: x in Distinct(s) <==> x in s
  {
    if |s| > 0 {
      var pre := s[..|s| - 1];
      assert s == pre + [s[|s| - 1]];
      DistinctMembers(pre);
    }
  }

  /** The de-duplicated sequence holds each element once. */
  lemma {:induction false} DistinctNoDuplicates<T>(s: seq<T>)
    ensures NoDuplicates(Distinct(s))
  {
    if |s| > 0 {
      DistinctNoDuplicates(s[..|s| - 1]);
    }
  }

  /** The de-duplicated sequence lists the elements in order of first appearance in `s`. */
  lemma {:induction false} DistinctFirstAppearance<T>(s: seq<T>)
    ensures forall i, j :: 0 <= i < j < |Distinct(s)| ==>
              Distinct(s)[i] in s && Distinct(s)[j] in s && IndexOf(s, Distinct(s)[i]) < IndexOf(s, Distinct(s)[j])
  {
    if |s| > 0 {
      var pre := s[..|s| - 1];
      var x := s[|s| - 1];
      assert s == pre + [x];
      DistinctFirstAppearance(pre);
      DistinctMembers(pre);
      var d := Distinct(pre);
      forall y | y in d ensures y in pre && y in s && IndexOf(s, y) == IndexOf(pre, y) {
        DistinctPrefixIndex(s, y);
      }
      var r := Distinct(s);
      assert r == if x in d then d else d + [x];
      forall i, j | 0 <= i < j < |r|
        ensures r[i] in s && r[j] in s && IndexOf(s, r[i]) < IndexOf(s, r[j])
      {
        assert r[i] in d;
        if j < |d| {
          assert r[j] in d;
          assert IndexOf(pre, r[i]) < IndexOf(pre, r[j]);
        } else {
          assert x !in d && r[j] == x;
          assert x !in pre;
          assert IndexOf(s, x) == |s| - 1;
        }
      }
    } else {
      assert Distinct(s) == [];
    }
  }

  lemma DistinctPrefixIndex<T>(s: seq<T>, y: T)
    requires |s| > 0 && y in Distinct(s[..|s| - 1])
    ensures y in s[..|s| - 1] && y in s && IndexOf(s, y) == IndexOf(s[..|s| - 1], y)
  {
    DistinctMembers(s[..|s| - 1]);
    IndexOfPrefix(s, |s| - 1, y);
  }

  lemma DistinctAppend<T>(s: seq<T>, x: T)
    ensures Distinct(s + [x]) == if x in Distinct(s) then Distinct(s) else Distinct(s) + [x]
  {
    assert (s + [x])[..|s|] == s;
  }

  /** Two sequences holding the same multiset have the same members. */
  lemma SameMultisetSameMembers<T>(a: seq<T>, b: seq<T>)
    requires multiset(a) == multiset(b)
    ensures |a| == |b|
    ensures forall x :: x in a <==> x in b
  {
    assert |a| == |multiset(a)| == |multiset(b)| == |b|;
    forall x ensures x in a <==> x in b {
      assert x in a <==> x in multiset(a);
      assert x in b <==> x in multiset(b);
    }
  }

  /** `s.map(f)`. */
  function Map<T, U>(s: seq<T>, f: T -> U): (r: seq<U>)
    ensures |r| == |s| && forall i :: 0 <= i < |s| ==> r[i] == f(s[i])
  {
    seq(|s|, i requires 0 <= i < |s| => f(s[i]))
  }

  lemma MapAppend<T, U>(s: seq<T>, x: T, f: T -> U)
    ensures Map(s + [x], f) == Map(s, f) + [f(x)]
  {
  }

  /** Filtering a sequence whose keys are distinct leaves the keys distinct. */
  lemma {:induction false} FilterKeepsKeysDistinct<T, K>(s: seq<T>, p: T -> bool, key: T -> K)
    requires NoDuplicates(Map(s, key))
    ensures NoDuplicates(Map(Filter(s, p), key))
  {
    if |s| > 0 {
      var pre, x := s[..|s| - 1], s[|s| - 1];
      assert Map(pre, key) == Map(s, key)[..|s| - 1];
      FilterKeepsKeysDistinct(pre, p, key);
      var f := Filter(pre, p);
      if p(x) {
        forall y | y in f
          ensures key(y) != key(x)
        {
          FilterMembers(pre, p, y);
          var k :| 0 <= k < |pre| && pre[k] == y;
          assert Map(s, key)[k] == key(y);
        }
        var m := Map(f + [x], key);
        forall i, j | 0 <= i < j < |m|
          ensures m[i] != m[j]
        {
          if j == |m| - 1 {
            assert f[i] in f;
          } else {
            assert m[i] == Map(f, key)[i] && m[j] == Map(f, key)[j];
          }
        }
      }
    }
  }

  /** `s.reduce((sum, x) => sum + f(x), 0)`, summed left to right. */
  function SumBy<T>(s: seq<T>, f: T -> real): real {
    if |s| == 0 then 0.0 else SumBy(s[..|s| - 1], f) + f(s[|s| - 1])
  }

  lemma SumByAppend<T>(s: seq<T>, x: T, f: T -> real)
    ensures SumBy(s + [x], f) == SumBy(s, f) + f(x)
  {
    assert (s + [x])[..|s|] == s;
  }

  lemma {:induction false} SumByConcat<T>(a: seq<T>, b: seq<T>, f: T -> real)
    ensures SumBy(a + b, f) == SumBy(a, f) + SumBy(b, f)
    decreases |b|
  {
    if |b| > 0 {
      var b', y := b[..|b| - 1], b[|b| - 1];
      SumByConcat(a, b', f);
      assert a + b == (a + b') + [y];
      SumByAppend(a + b', y, f);
      assert b == b' + [y];
      SumByAppend(b', y, f);
    } else {
      assert a + b == a;
    }
  }

  lemma SumByThree<T>(a: T, b: T, c: T, f: T -> real)
    ensures SumBy([a, b, c], f) == f(a) + f(b) + f(c)
  {
    assert [a][..0] == [];
    assert SumBy([a], f) == f(a);
    assert [a, b][..1] == [a];
    assert SumBy([a, b], f) == f(a) + f(b);
    assert [a, b, c][..2] == [a, b];
  }

  /** Replacing one element changes the sum by the difference of the two values. */
  lemma {:induction false} SumByUpdate<T>(s: seq<T>, j: nat, y: T, f: T -> real)
    requires j < |s|
    ensures SumBy(s[j := y], f) == SumBy(s, f) - f(s[j]) + f(y)
  {
    var n := |s|;
    if j == n - 1 {
      assert s[j := y][..n - 1] == s[..n - 1];
    } else {
      SumByUpdate(s[..n - 1], j, y, f);
      assert s[j := y][..n - 1] == s[..n - 1][j := y];
    }
  }

  lemma {:induction false} SumByNonNegative<T>(s: seq<T>, f: T -> real)
    requires forall x :: x in s ==> f(x) >= 0.0
    ensures SumBy(s, f) >= 0.0
  {
    if |s| > 0 {
      SumByNonNegative(s[..|s| - 1], f);
    }
  }

  /** `s.find(x => key(x) === k)`: the first element whose key is `k`, if any. */
  function FindBy<T>(s: seq<T>, key: T -> string, k: string): (r: Option<T>)
    ensures r.None? <==> forall x :: x in s ==> key(x) != k
    ensures r.Some? ==> r.value in s && key(r.value) == k
  {
    if |s| == 0 then None
    else if key(s[0]) == k then Some(s[0])
    else
      assert forall x :: x in s ==> x == s[0] || x in s[1..];
      FindBy(s[1..], key, k)
  }

  /** The element found is the first one with the key: no earlier element has it. */
  lemma {:induction false} FindByFirst<T>(s: seq<T>, key: T -> string, k: string)
    requires FindBy(s, key, k).Some?
    ensures exists i :: 0 <= i < |s| && s[i] == FindBy(s, key, k).value &&
              forall j :: 0 <= j < i ==> key(s[j]) != k
  {
    if key(s[0]) != k {
      FindByFirst(s[1..], key, k);
      var i :| 0 <= i < |s[1..]| && s[1..][i] == FindBy(s[1..], key, k).value &&
               forall j :: 0 <= j < i ==> key(s[1..][j]) != k;
      assert s[i + 1] == FindBy(s, key, k).value;
    } else {
      assert s[0] == FindBy(s, key, k).value;
    }
  }

  /** A sum of terms that are never negative is never negative. */
  lemma SumByNonNegativeWhen<T>(s: seq<T>, f: T -> real)
    ensures (forall x :: x in s ==> f(x) >= 0.0) ==> SumBy(s, f) >= 0.0
  {
    if forall x :: x in s ==> f(x) >= 0.0 {
      SumByNonNegative(s, f);
    }
  }

  /** The constant 1, so that `SumBy(s, One)` counts the elements as JavaScript numbers. */
  function One<T>(x: T): real {
    1.0
  }

  lemma {:induction false} SumOfOnes<T>(s: seq<T>)
    ensures SumBy(s, One) == |s| as real
  {
    if |s| > 0 {
      SumOfOnes(s[..|s| - 1]);
    }
  }

  function Min(a: int, b: int): int {
    if a <= b then a else b
  }

  function MaxReal(a: real, b: real): real {
    if a >= b then a else b
  }

  function MinReal(a: real, b: real): real {
    if a <= b then a else b
  }

  // ---------------------------------------------------------------------------
  // Rounding
  // ---------------------------------------------------------------------------

  /** `Math.ceil`: the least integer not below `x`. */
  function Ceil(x: real): (r: int)
    ensures r as real - 1.0 < x <= r as real
  {
    -((-x).Floor)
  }

  /** `Math.round`: round half up. */
  function Round(x: real): (r: int)
    ensures x - 0.5 < r as real <= x + 0.5
  {
    (x + 0.5).Floor
  }

  lemma RoundMonotone(x: real, y: real)
    requires x <= y
    ensures Round(x) <= Round(y)
  {
  }

  /** `Math.round(x * 100) / 100`: to the nearest cent. */
  function RoundCents(x: real): (r: real)
    ensures x - 0.005 < r <= x + 0.005
  {
    Round(x * 100.0) as real / 100.0
  }

  lemma RoundCentsMonotone(x: real, y: real)
    requires x <= y
    ensures RoundCents(x) <= RoundCents(y)
  {
    RoundMonotone(x * 100.0, y * 100.0);
  }

  /** Whole-cent amounts are left alone by `RoundCents`. */
  lemma RoundCentsOfInteger(n: int)
    ensures RoundCents(n as real) == n as real
  {
    assert (n as real * 100.0 + 0.5).Floor == n * 100;
  }
}
