/**
 * A JavaScript object used as a dictionary (`acc[key] = ...` inside `reduce` or
 * `forEach`) and later read back with `Object.entries`: for the non-numeric
 * keys the dashboard uses, entries come back in order of first insertion. The
 * dictionary is modelled as a sequence of (key, value) entries with distinct keys.
 */
module Grouping {
  import opened Common

  function Keys<K, V>(entries: seq<(K, V)>): (r: seq<K>)
    ensures |r| == |entries| && forall i :: 0 <= i < |r| ==> r[i] == entries[i].0
  {
    seq(|entries|, i requires 0 <= i < |entries| => entries[i].0)
  }

  /** Where `k` sits among the entries, or `|entries|` when it is not a key yet. */
  function KeyIndex<K(==), V>(entries: seq<(K, V)>, k: K): (j: nat)
    ensures j <= |entries|
    ensures j < |entries| ==> entries[j].0 == k
    ensures forall i :: 0 <= i < j ==> entries[i].0 != k
  {
    if |entries| == 0 then 0
    else if entries[0].0 == k then 0
    else 1 + KeyIndex(entries[1..], k)
  }

  /** With distinct keys, an entry is what looking up its key finds. */
  lemma LookupOfMember<K, V>(entries: seq<(K, V)>, e: (K, V))
    requires NoDuplicates(Keys(entries)) && e in entries
    ensures Lookup(entries, e.0) == Some(e.1)
  {
    var p :| 0 <= p < |entries| && entries[p] == e;
    var j := KeyIndex(entries, e.0);
    assert Keys(entries)[j] == Keys(entries)[p];
  }

  /** Reordering entries whose keys are distinct keeps the keys distinct. */
  lemma PermutationKeepsKeysDistinct<K, V>(a: seq<(K, V)>, b: seq<(K, V)>)
    requires multiset(a) == multiset(b) && NoDuplicates(Keys(a))
    ensures NoDuplicates(Keys(b))
  {
    forall i, j | 0 <= i < j < |b| ensures b[i].0 != b[j].0 {
      if b[i].0 == b[j].0 {
        assert b[i] in multiset(a) && b[j] in multiset(a);
        var p :| 0 <= p < |a| && a[p] == b[i];
        var q :| 0 <= q < |a| && a[q] == b[j];
        assert Keys(a)[p] == Keys(a)[q];
        assert b[i] == b[j];
        TwiceInMultiset(b, i, j);
        NoDuplicatesOnce(a, b[i]);
        assert false;
      }
    }
  }

  lemma TwiceInMultiset<T>(s: seq<T>, i: nat, j: nat)
    requires i < j < |s| && s[i] == s[j]
    ensures multiset(s)[s[i]] >= 2
  {
    assert s == s[..j] + [s[j]] + s[j + 1..];
    assert s[i] in s[..j];
  }

  /** In a list of entries with distinct keys every entry occurs at most once. */
  lemma {:induction false} NoDuplicatesOnce<K, V>(a: seq<(K, V)>, x: (K, V))
    requires NoDuplicates(Keys(a))
    ensures multiset(a)[x] <= 1
  {
    if |a| > 0 {
      var pre, y := a[..|a| - 1], a[|a| - 1];
      assert a == pre + [y];
      assert Keys(pre) == Keys(a)[..|a| - 1];
      NoDuplicatesOnce(pre, x);
    }
  }

  /** `acc[k]`, with `undefined` as `None`. */
  function Lookup<K(==), V>(entries: seq<(K, V)>, k: K): (r: Option<V>)
    ensures r.Some? <==> k in Keys(entries)
    ensures r.Some? ==> (k, r.value) in entries
  {
    var j := KeyIndex(entries, k);
    if j < |entries| then Some(entries[j].1) else None
  }

  function KeyIs<T, K(==)>(key: T -> K, k: K): T -> bool {
    x => key(x) == k
  }

  /** Adds `v` to the entry of key `k`, or appends a new entry for `k`. */
  function AddTotal<K(==)>(e: seq<(K, real)>, k: K, v: real): seq<(K, real)> {
    var j := KeyIndex(e, k);
    if j < |e| then e[j := (e[j].0, e[j].1 + v)] else e + [(k, v)]
  }

  /** Adds `x` to the group of key `k`, or appends a new group for `k`. */
  function AddToGroup<T, K(==)>(g: seq<(K, seq<T>)>, k: K, x: T): seq<(K, seq<T>)> {
    var j := KeyIndex(g, k);
    if j < |g| then g[j := (g[j].0, g[j].1 + [x])] else g + [(k, [x])]
  }

  /**
   * Grouping `s` by `key` as `forEach(x => { (acc[key(x)] ||= []).push(x) })`
   * does: one entry per key in order of first appearance, each holding the
   * elements with that key in their original order.
   */
  function GroupBy<T, K(==)>(s: seq<T>, key: T -> K): seq<(K, seq<T>)> {
    if |s| == 0 then []
    else
      AddToGroup(GroupBy(s[..|s| - 1], key), key(s[|s| - 1]), s[|s| - 1])
  }

  lemma GroupByAppend<T, K>(s: seq<T>, x: T, key: T -> K)
    ensures GroupBy(s + [x], key) == AddToGroup(GroupBy(s, key), key(x), x)
  {
    assert (s + [x])[..|s|] == s;
  }

  /** The keys of the grouping are the distinct keys of `s`, in order of first appearance. */
  lemma {:induction false} GroupByKeys<T, K>(s: seq<T>, key: T -> K)
    ensures Keys(GroupBy(s, key)) == Distinct(Map(s, key))
  {
    if |s| > 0 {
      var pre, x := s[..|s| - 1], s[|s| - 1];
      assert s == pre + [x];
      GroupByKeys(pre, key);
      var g := GroupBy(pre, key);
      GroupByAppend(pre, x, key);
      MapAppend(pre, x, key);
      DistinctAppend(Map(pre, key), key(x));
      assert key(x) in Keys(g) <==> KeyIndex(g, key(x)) < |g|;
    }
  }

  /** Each group holds exactly the elements of `s` with its key, in their original order. */
  lemma {:induction false} GroupByGroups<T, K>(s: seq<T>, key: T -> K)
    ensures forall i :: 0 <= i < |GroupBy(s, key)| ==>
              GroupBy(s, key)[i].1 == Filter(s, KeyIs(key, GroupBy(s, key)[i].0))
  {
    if |s| > 0 {
      var pre, x := s[..|s| - 1], s[|s| - 1];
      assert s == pre + [x];
      GroupByGroups(pre, key);
      GroupByAppend(pre, x, key);
      forall i | 0 <= i < |GroupBy(s, key)|
        ensures GroupBy(s, key)[i].1 == Filter(s, KeyIs(key, GroupBy(s, key)[i].0))
      {
        GroupStep(pre, x, key, i);
      }
    }
  }

  lemma GroupStep<T, K>(pre: seq<T>, x: T, key: T -> K, i: nat)
    requires i < |GroupBy(pre, key)| ==> GroupBy(pre, key)[i].1 == Filter(pre, KeyIs(key, GroupBy(pre, key)[i].0))
    requires i < |GroupBy(pre + [x], key)|
    ensures GroupBy(pre + [x], key)[i].1 == Filter(pre + [x], KeyIs(key, GroupBy(pre + [x], key)[i].0))
  {
    var g := GroupBy(pre, key);
    var g' := GroupBy(pre + [x], key);
    GroupByAppend(pre, x, key);
    FilterAppend(pre, x, KeyIs(key, g'[i].0));
    if i < |g| {
      GroupByKeys(pre, key);
      DistinctNoDuplicates(Map(pre, key));
      assert NoDuplicates(Keys(g));
      assert g'[i].0 == g[i].0;
      assert g'[i].1 == g[i].1 + (if g[i].0 == key(x) then [x] else []);
    } else {
      assert g'[i] == (key(x), [x]);
      NewKeyHasNoElements(pre, key(x), key);
    }
  }

  lemma NewKeyHasNoElements<T, K>(pre: seq<T>, k: K, key: T -> K)
    requires KeyIndex(GroupBy(pre, key), k) == |GroupBy(pre, key)|
    ensures Filter(pre, KeyIs(key, k)) == []
  {
    var none := Filter(pre, KeyIs(key, k));
    if |none| > 0 {
      FilterMembers(pre, KeyIs(key, k), none[0]);
      assert none[0] in pre && key(none[0]) == k;
      GroupKeyPresent(pre, none[0], key);
      assert false;
    }
  }

  /** The key of every element of `s` is a key of its grouping. */
  lemma {:induction false} GroupKeyPresent<T, K>(s: seq<T>, y: T, key: T -> K)
    requires y in s
    ensures KeyIndex(GroupBy(s, key), key(y)) < |GroupBy(s, key)|
  {
    var pre, x := s[..|s| - 1], s[|s| - 1];
    assert s == pre + [x];
    var g := GroupBy(pre, key);
    var g' := GroupBy(s, key);
    var j := KeyIndex(g, key(x));
    if y in pre {
      GroupKeyPresent(pre, y, key);
      var m := KeyIndex(g, key(y));
      assert Keys(g') == Keys(g) || Keys(g') == Keys(g) + [key(x)];
      assert g'[m].0 == key(y);
    } else {
      assert y == x;
      if j < |g| {
        assert g'[j].0 == key(y);
      } else {
        assert g'[|g|].0 == key(y);
      }
    }
  }

  /** No group is empty, and the group sizes add up to the length of `s`. */
  lemma {:induction false} GroupSizes<T, K>(s: seq<T>, key: T -> K)
    ensures forall i :: 0 <= i < |GroupBy(s, key)| ==> |GroupBy(s, key)[i].1| > 0
    ensures SumBy(GroupBy(s, key), GroupSize) == |s| as real
  {
    if |s| > 0 {
      var pre, x := s[..|s| - 1], s[|s| - 1];
      GroupSizes(pre, key);
      var g := GroupBy(pre, key);
      var j := KeyIndex(g, key(x));
      if j < |g| {
        SumByUpdate(g, j, (g[j].0, g[j].1 + [x]), GroupSize);
      } else {
        SumByAppend(g, (key(x), [x]), GroupSize);
      }
    }
  }

  function GroupSize<K, T>(e: (K, seq<T>)): real {
    |e.1| as real
  }

  /**
   * `reduce((acc, x) => { acc[key(x)] = (acc[key(x)] || 0) + val(x); return acc }, {})`,
   * folded left to right.
   */
  function Totals<T, K(==)>(s: seq<T>, key: T -> K, val: T -> real): seq<(K, real)> {
    if |s| == 0 then []
    else
      AddTotal(Totals(s[..|s| - 1], key, val), key(s[|s| - 1]), val(s[|s| - 1]))
  }

  lemma TotalsAppend<T, K>(s: seq<T>, x: T, key: T -> K, val: T -> real)
    ensures Totals(s + [x], key, val) == AddTotal(Totals(s, key, val), key(x), val(x))
  {
    assert (s + [x])[..|s|] == s;
  }

  /** Appending an element whose key is already at position `j` adds its value there. */
  lemma TotalsAddToKey<T, K>(s: seq<T>, x: T, key: T -> K, val: T -> real, j: nat)
    requires j < |Totals(s, key, val)| && Totals(s, key, val)[j].0 == key(x)
    requires forall i :: 0 <= i < j ==> Totals(s, key, val)[i].0 != key(x)
    ensures var e := Totals(s, key, val);
            Totals(s + [x], key, val) == e[j := (e[j].0, e[j].1 + val(x))]
  {
    TotalsAppend(s, x, key, val);
    var e := Totals(s, key, val);
    var k := KeyIndex(e, key(x));
    assert k <= j;
    assert k >= j;
  }

  /** Appending an element with a new key adds an entry for it at the end. */
  lemma TotalsNewKey<T, K>(s: seq<T>, x: T, key: T -> K, val: T -> real)
    requires forall i :: 0 <= i < |Totals(s, key, val)| ==> Totals(s, key, val)[i].0 != key(x)
    ensures Totals(s + [x], key, val) == Totals(s, key, val) + [(key(x), val(x))]
  {
    TotalsAppend(s, x, key, val);
  }

  function Snd<K>(e: (K, real)): real {
    e.1
  }

  /** Entry by entry, `e` has the keys of `g` and the sum of `val` over each group. */
  predicate SumsOfGroups<T, K(==)>(e: seq<(K, real)>, g: seq<(K, seq<T>)>, val: T -> real) {
    |e| == |g| && forall i :: 0 <= i < |e| ==> e[i] == (g[i].0, SumBy(g[i].1, val))
  }

  /** Each accumulated entry is the sum of `val` over the group of its key. */
  lemma {:induction false} TotalsAreGroupSums<T, K>(s: seq<T>, key: T -> K, val: T -> real)
    ensures SumsOfGroups(Totals(s, key, val), GroupBy(s, key), val)
  {
    if |s| > 0 {
      var pre, x := s[..|s| - 1], s[|s| - 1];
      TotalsAreGroupSums(pre, key, val);
      GroupSumsStep(pre, x, key, val);
      assert s == pre + [x];
    }
  }

  /** Appending one element keeps each total the sum of its group. */
  lemma GroupSumsStep<T, K>(pre: seq<T>, x: T, key: T -> K, val: T -> real)
    requires SumsOfGroups(Totals(pre, key, val), GroupBy(pre, key), val)
    ensures SumsOfGroups(Totals(pre + [x], key, val), GroupBy(pre + [x], key), val)
  {
    TotalsAppend(pre, x, key, val);
    GroupByAppend(pre, x, key);
    AddKeepsSumsOfGroups(Totals(pre, key, val), GroupBy(pre, key), key(x), x, val);
  }

  /** Adding an element to its group and its value to the matching entry. */
  lemma AddKeepsSumsOfGroups<T, K>(e: seq<(K, real)>, g: seq<(K, seq<T>)>, k: K, x: T, val: T -> real)
    requires SumsOfGroups(e, g, val)
    ensures SumsOfGroups(AddTotal(e, k, val(x)), AddToGroup(g, k, x), val)
  {
    assert Keys(e) == Keys(g);
    KeyIndexByKeys(e, g, k);
    var j := KeyIndex(g, k);
    if j < |g| {
      assert AddTotal(e, k, val(x)) == e[j := (e[j].0, e[j].1 + val(x))];
      assert AddToGroup(g, k, x) == g[j := (g[j].0, g[j].1 + [x])];
      SumsOfGroupsAddTo(e, g, j, x, val);
    } else {
      assert AddTotal(e, k, val(x)) == e + [(k, val(x))];
      assert AddToGroup(g, k, x) == g + [(k, [x])];
      SumsOfGroupsAddNew(e, g, k, x, val);
    }
  }

  /** Adding an element to group `j` and its value to entry `j`. */
  lemma SumsOfGroupsAddTo<T, K>(e: seq<(K, real)>, g: seq<(K, seq<T>)>, j: nat, x: T, val: T -> real)
    requires SumsOfGroups(e, g, val) && j < |g|
    ensures SumsOfGroups(e[j := (e[j].0, e[j].1 + val(x))], g[j := (g[j].0, g[j].1 + [x])], val)
  {
    SumByAppend(g[j].1, x, val);
  }

  /** Adding a new group holding just one element, and an entry holding its value. */
  lemma SumsOfGroupsAddNew<T, K>(e: seq<(K, real)>, g: seq<(K, seq<T>)>, k: K, x: T, val: T -> real)
    requires SumsOfGroups(e, g, val)
    ensures SumsOfGroups(e + [(k, val(x))], g + [(k, [x])], val)
  {
    assert [x] == [] + [x];
    SumByAppend([], x, val);
  }

  lemma {:induction false} KeyIndexByKeys<K, U, V>(a: seq<(K, U)>, b: seq<(K, V)>, k: K)
    requires Keys(a) == Keys(b)
    ensures KeyIndex(a, k) == KeyIndex(b, k)
  {
    if |a| > 0 && a[0].0 != k {
      assert Keys(a[1..]) == Keys(a)[1..] && Keys(b[1..]) == Keys(b)[1..];
      KeyIndexByKeys(a[1..], b[1..], k);
    }
  }

  /** Adding `v` under key `k`, to its entry or as a new last entry, adds `v` to the sum of the values. */
  lemma SumAfterAdd<K>(e: seq<(K, real)>, k: K, v: real)
    ensures var j := KeyIndex(e, k);
            SumBy(if j < |e| then e[j := (e[j].0, e[j].1 + v)] else e + [(k, v)], Snd) == SumBy(e, Snd) + v
  {
    var j := KeyIndex(e, k);
    if j < |e| {
      var y := (e[j].0, e[j].1 + v);
      SumByUpdate(e, j, y, Snd);
      assert Snd(y) == Snd(e[j]) + v;
    } else {
      SumByAppend(e, (k, v), Snd);
    }
  }

  /** The per-key totals add up to the overall total. */
  lemma {:induction false} TotalsSum<T, K>(s: seq<T>, key: T -> K, val: T -> real)
    ensures SumBy(Totals(s, key, val), Snd) == SumBy(s, val)
  {
    if |s| > 0 {
      var pre, x := s[..|s| - 1], s[|s| - 1];
      TotalsSum(pre, key, val);
      assert s == pre + [x];
      TotalsAppend(pre, x, key, val);
      SumByAppend(pre, x, val);
      SumAfterAdd(Totals(pre, key, val), key(x), val(x));
    }
  }

  /** `acc[k] || 0`: the sum over the elements with key `k`, and 0 for a key that never occurs. */
  lemma TotalOf<T, K>(s: seq<T>, key: T -> K, val: T -> real, k: K)
    ensures Lookup(Totals(s, key, val), k).GetOr(0.0) == SumBy(Filter(s, KeyIs(key, k)), val)
  {
    var e := Totals(s, key, val);
    var g := GroupBy(s, key);
    TotalsAreGroupSums(s, key, val);
    assert Keys(e) == Keys(g);
    KeyIndexByKeys(e, g, k);
    var j := KeyIndex(g, k);
    if j < |g| {
      GroupByGroups(s, key);
    } else {
      NewKeyHasNoElements(s, k, key);
    }
  }

  /** The `reduce` loop that builds the totals, one element at a time. */
  method Accumulate<T, K(==)>(s: seq<T>, key: T -> K, val: T -> real) returns (acc: seq<(K, real)>)
    ensures acc == Totals(s, key, val)
  {
    acc := [];
    for i := 0 to |s|
      invariant acc == Totals(s[..i], key, val)
    {
      var k := key(s[i]);
      var j := KeyIndex(acc, k);
      assert s[..i + 1][..i] == s[..i];
      if j < |acc| {
        acc := acc[j := (k, acc[j].1 + val(s[i]))];
      } else {
        acc := acc + [(k, val(s[i]))];
      }
    }
    assert s[..|s|] == s;
  }
}