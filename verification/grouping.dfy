/**
 * Grouping over finite tables: the meaning of GROUP BY, ORDER BY, COUNT(DISTINCT),
 * SUM and key lookup (the probe side of a join), stated once for any row type.
 * A table is a sequence of rows; a key is a function of a row.
 */
module Grouping {

  import opened Options

  /** Strictly ascending: sorted, and no value repeated. */
  predicate Ascending(s: seq<int>) {
    forall i, j :: 0 <= i < j < |s| ==> s[i] < s[j]
  }

  /** Rows are strictly ascending by an integer key. */
  predicate AscendingBy<T>(xs: seq<T>, key: T -> int) {
    forall i, j :: 0 <= i < j < |xs| ==> key(xs[i]) < key(xs[j])
  }

  predicate NoDuplicates<T(==)>(s: seq<T>) {
    forall i, j :: 0 <= i < j < |s| ==> s[i] != s[j]
  }

  /** No two rows share a key. */
  predicate UniqueKeys<T, K(==)>(xs: seq<T>, key: T -> K) {
    forall i, j :: 0 <= i < j < |xs| ==> key(xs[i]) != key(xs[j])
  }

  /** Some row has key k. */
  ghost predicate HasKey<T, K>(xs: seq<T>, key: T -> K, k: K) {
    exists x :: x in xs && key(x) == k
  }

  lemma HasKeyCons<T, K>(xs: seq<T>, key: T -> K)
    requires xs != []
    ensures forall k :: HasKey(xs, key, k) <==> key(xs[0]) == k || HasKey(xs[1..], key, k)
  {
    assert xs == [xs[0]] + xs[1..];
  }

  /** Inserts k into a strictly ascending sequence, unless it is there already. */
  function Insert(s: seq<int>, k: int): (r: seq<int>)
    requires Ascending(s)
    ensures Ascending(r)
    ensures forall x :: x in r <==> x in s || x == k
  {
    if s == [] then [k]
    else if k < s[0] then [k] + s
    else if k == s[0] then s
    else
      var t := Insert(s[1..], k);
      AscendingTail(s);
      AscendingCons(s[0], t);
      [s[0]] + t
  }

  lemma AscendingTail(s: seq<int>)
    requires Ascending(s) && s != []
    ensures Ascending(s[1..])
    ensures forall x :: x in s <==> x == s[0] || x in s[1..]
    ensures forall x :: x in s[1..] ==> s[0] < x
  {
    assert s == [s[0]] + s[1..];
    forall x | x in s[1..] ensures s[0] < x {
      var i :| 0 <= i < |s| - 1 && s[1..][i] == x;
      assert s[i + 1] == x;
    }
  }

  lemma AscendingCons(a: int, t: seq<int>)
    requires Ascending(t)
    requires forall x :: x in t ==> a < x
    ensures Ascending([a] + t)
  {
    forall i, j | 0 <= i < j < |t| + 1 ensures ([a] + t)[i] < ([a] + t)[j] {
      if i == 0 {
        assert t[j - 1] in t;
      }
    }
  }

  /** The group keys of a GROUP BY ... ORDER BY: each key once, ascending. */
  function Keys<T>(xs: seq<T>, key: T -> int): (r: seq<int>)
    ensures Ascending(r)
    ensures forall k :: k in r <==> HasKey(xs, key, k)
  {
    if xs == [] then []
    else
      HasKeyCons(xs, key);
      Insert(Keys(xs[1..], key), key(xs[0]))
  }

  /** The rows of one group (WHERE key = k), in their original order. */
  function Filter<T, K(==)>(xs: seq<T>, key: T -> K, k: K): (r: seq<T>)
    ensures forall i :: 0 <= i < |r| ==> r[i] in xs && key(r[i]) == k
    ensures forall i :: 0 <= i < |xs| && key(xs[i]) == k ==> xs[i] in r
    ensures |r| <= |xs|
  {
    if xs == [] then []
    else (if key(xs[0]) == k then [xs[0]] else []) + Filter(xs[1..], key, k)
  }

  /** The rows outside one group. */
  function Reject<T, K(==)>(xs: seq<T>, key: T -> K, k: K): (r: seq<T>)
    ensures forall i :: 0 <= i < |r| ==> r[i] in xs && key(r[i]) != k
  {
    if xs == [] then []
    else (if key(xs[0]) != k then [xs[0]] else []) + Reject(xs[1..], key, k)
  }

  /** SUM(w) over the rows. */
  function Sum<T>(xs: seq<T>, w: T -> real): real {
    if xs == [] then 0.0 else w(xs[0]) + Sum(xs[1..], w)
  }

  /** The sum of the per-group sums, taking the groups in the order of ks. */
  function SumOver<T, K(==)>(ks: seq<K>, xs: seq<T>, key: T -> K, w: T -> real): real {
    if ks == [] then 0.0
    else SumOver(ks[..|ks| - 1], xs, key, w) + Sum(Filter(xs, key, ks[|ks| - 1]), w)
  }

  /** The sum of the group sizes, taking the groups in the order of ks. */
  function CountOver<T, K(==)>(ks: seq<K>, xs: seq<T>, key: T -> K): nat {
    if ks == [] then 0
    else CountOver(ks[..|ks| - 1], xs, key) + |Filter(xs, key, ks[|ks| - 1])|
  }

  /** The values, each once (COUNT(DISTINCT ...) is the length of this). */
  function Distinct<T(==)>(xs: seq<T>): (r: seq<T>)
    ensures NoDuplicates(r)
    ensures forall i :: 0 <= i < |r| ==> r[i] in xs
    ensures forall i :: 0 <= i < |xs| ==> xs[i] in r
    ensures |r| <= |xs|
  {
    if xs == [] then []
    else if xs[0] in xs[1..] then Distinct(xs[1..])
    else [xs[0]] + Distinct(xs[1..])
  }

  /** The first row with key k (the row a join on a unique key pairs with). */
  function Lookup<T, K(==)>(xs: seq<T>, key: T -> K, k: K): (r: Option<T>)
    ensures r.Some? ==> key(r.value) == k
  {
    if xs == [] then None
    else if key(xs[0]) == k then Some(xs[0])
    else Lookup(xs[1..], key, k)
  }

  // ---------------------------------------------------------------------------
  // Lemmas

  /** A group is empty exactly when no row has its key. */
  lemma {:induction false} FilterEmpty<T, K>(xs: seq<T>, key: T -> K, k: K)
    ensures Filter(xs, key, k) == [] <==> !HasKey(xs, key, k)
  {
    if xs != [] {
      HasKeyCons(xs, key);
      FilterEmpty(xs[1..], key, k);
      assert Filter(xs, key, k) == (if key(xs[0]) == k then [xs[0]] else []) + Filter(xs[1..], key, k);
    }
  }

  /** A group that holds every row is the whole table. */
  lemma {:induction false} FilterAll<T, K>(xs: seq<T>, key: T -> K, k: K)
    requires forall i :: 0 <= i < |xs| ==> key(xs[i]) == k
    ensures Filter(xs, key, k) == xs
  {
    if xs != [] {
      assert forall i :: 0 <= i < |xs| - 1 ==> xs[1..][i] == xs[i + 1];
      FilterAll(xs[1..], key, k);
    }
  }

  /** A group that no row belongs to is empty. */
  lemma {:induction false} FilterNone<T, K>(xs: seq<T>, key: T -> K, k: K)
    requires forall i :: 0 <= i < |xs| ==> key(xs[i]) != k
    ensures Filter(xs, key, k) == []
  {
    if xs != [] {
      assert forall i :: 0 <= i < |xs| - 1 ==> xs[1..][i] == xs[i + 1];
      FilterNone(xs[1..], key, k);
    }
  }

  /** Every row is in the group of its own key. */
  lemma KeysCover<T>(xs: seq<T>, key: T -> int)
    ensures forall i :: 0 <= i < |xs| ==> key(xs[i]) in Keys(xs, key)
  {
    forall i | 0 <= i < |xs| ensures key(xs[i]) in Keys(xs, key) {
      assert xs[i] in xs;
    }
  }

  /** Lookup finds a row exactly when some row has the key, and only a row of the table. */
  lemma {:induction false} LookupSound<T, K>(xs: seq<T>, key: T -> K, k: K)
    ensures Lookup(xs, key, k).None? <==> !HasKey(xs, key, k)
    ensures Lookup(xs, key, k).Some? ==> Lookup(xs, key, k).value in xs
  {
    if xs != [] {
      HasKeyCons(xs, key);
      assert xs == [xs[0]] + xs[1..];
      if key(xs[0]) != k {
        LookupSound(xs[1..], key, k);
        assert Lookup(xs, key, k) == Lookup(xs[1..], key, k);
      }
    }
  }

  lemma {:induction false} SumConcat<T>(a: seq<T>, b: seq<T>, w: T -> real)
    ensures Sum(a + b, w) == Sum(a, w) + Sum(b, w)
  {
    if a == [] {
      assert a + b == b;
    } else {
      assert (a + b)[1..] == a[1..] + b;
      SumConcat(a[1..], b, w);
    }
  }

  lemma {:induction false} SplitSum<T, K>(xs: seq<T>, key: T -> K, w: T -> real, k: K)
    ensures Sum(xs, w) == Sum(Filter(xs, key, k), w) + Sum(Reject(xs, key, k), w)
  {
    if xs != [] {
      SplitSum(xs[1..], key, w, k);
      var f := if key(xs[0]) == k then [xs[0]] else [];
      var g := if key(xs[0]) != k then [xs[0]] else [];
      SumConcat(f, Filter(xs[1..], key, k), w);
      SumConcat(g, Reject(xs[1..], key, k), w);
    }
  }

  lemma {:induction false} SplitCount<T, K>(xs: seq<T>, key: T -> K, k: K)
    ensures |xs| == |Filter(xs, key, k)| + |Reject(xs, key, k)|
  {
    if xs != [] {
      SplitCount(xs[1..], key, k);
    }
  }

  lemma {:induction false} FilterConcat<T, K>(a: seq<T>, b: seq<T>, key: T -> K, k: K)
    ensures Filter(a + b, key, k) == Filter(a, key, k) + Filter(b, key, k)
  {
    if a == [] {
      assert a + b == b;
    } else {
      assert (a + b)[1..] == a[1..] + b;
      FilterConcat(a[1..], b, key, k);
    }
  }

  /** Taking out one group does not change any other group. */
  lemma {:induction false} FilterReject<T, K>(xs: seq<T>, key: T -> K, k: K, k': K)
    requires k != k'
    ensures Filter(Reject(xs, key, k), key, k') == Filter(xs, key, k')
  {
    if xs != [] {
      FilterReject(xs[1..], key, k, k');
      var pre := if key(xs[0]) != k then [xs[0]] else [];
      FilterConcat(pre, Reject(xs[1..], key, k), key, k');
    }
  }

  lemma {:induction false} SumOverReject<T, K>(ks: seq<K>, xs: seq<T>, key: T -> K, w: T -> real, k: K)
    requires k !in ks
    ensures SumOver(ks, Reject(xs, key, k), key, w) == SumOver(ks, xs, key, w)
  {
    if ks != [] {
      FilterReject(xs, key, k, ks[|ks| - 1]);
      SumOverReject(ks[..|ks| - 1], xs, key, w, k);
    }
  }

  lemma {:induction false} CountOverReject<T, K>(ks: seq<K>, xs: seq<T>, key: T -> K, k: K)
    requires k !in ks
    ensures CountOver(ks, Reject(xs, key, k), key) == CountOver(ks, xs, key)
  {
    if ks != [] {
      FilterReject(xs, key, k, ks[|ks| - 1]);
      CountOverReject(ks[..|ks| - 1], xs, key, k);
    }
  }

  /**
   * Grouping loses and duplicates nothing: when the keys ks name every group
   * once, the group sums add up to the sum over the whole table.
   */
  lemma {:induction false} PartitionSum<T, K>(ks: seq<K>, xs: seq<T>, key: T -> K, w: T -> real)
    requires NoDuplicates(ks)
    requires forall i :: 0 <= i < |xs| ==> key(xs[i]) in ks
    ensures SumOver(ks, xs, key, w) == Sum(xs, w)
  {
    if ks != [] {
      var k := ks[|ks| - 1];
      var front := ks[..|ks| - 1];
      assert k !in front;
      var rest := Reject(xs, key, k);
      forall j | 0 <= j < |rest| ensures key(rest[j]) in front {
        var x := rest[j];
        var n :| 0 <= n < |xs| && xs[n] == x;
        assert key(x) in ks;
        var i :| 0 <= i < |ks| && ks[i] == key(x);
        assert i < |ks| - 1;
        assert ks[i] == front[i];
      }
      PartitionSum(front, rest, key, w);
      SumOverReject(front, xs, key, w, k);
      SplitSum(xs, key, w, k);
    }
  }

  /** The group sizes add up to the size of the table. */
  lemma {:induction false} PartitionCount<T, K>(ks: seq<K>, xs: seq<T>, key: T -> K)
    requires NoDuplicates(ks)
    requires forall i :: 0 <= i < |xs| ==> key(xs[i]) in ks
    ensures CountOver(ks, xs, key) == |xs|
  {
    if ks != [] {
      var k := ks[|ks| - 1];
      var front := ks[..|ks| - 1];
      assert k !in front;
      var rest := Reject(xs, key, k);
      forall j | 0 <= j < |rest| ensures key(rest[j]) in front {
        var x := rest[j];
        var n :| 0 <= n < |xs| && xs[n] == x;
        assert key(x) in ks;
        var i :| 0 <= i < |ks| && ks[i] == key(x);
        assert i < |ks| - 1;
        assert ks[i] == front[i];
      }
      PartitionCount(front, rest, key);
      CountOverReject(front, xs, key, k);
      SplitCount(xs, key, k);
    }
  }

  /** Dividing every row's weight by n divides the total by n. */
  lemma {:induction false} SumScaled<T>(xs: seq<T>, w: T -> real, v: T -> real, n: real)
    requires forall i :: 0 <= i < |xs| ==> w(xs[i]) * n == v(xs[i])
    ensures Sum(xs, w) * n == Sum(xs, v)
  {
    if xs != [] {
      assert w(xs[0]) * n == v(xs[0]);
      forall i | 0 <= i < |xs| - 1 ensures w(xs[1..][i]) * n == v(xs[1..][i]) {
        assert xs[1..][i] == xs[i + 1];
      }
      SumScaled(xs[1..], w, v, n);
      var a, b := w(xs[0]), Sum(xs[1..], w);
      assert (a + b) * n == a * n + b * n;
    }
  }

  /** A sum of non-negative weights is non-negative. */
  lemma {:induction false} SumNonNegative<T>(xs: seq<T>, w: T -> real)
    requires forall x :: x in xs ==> w(x) >= 0.0
    ensures Sum(xs, w) >= 0.0
  {
    if xs != [] {
      assert xs[0] in xs;
      SumNonNegative(xs[1..], w);
    }
  }

  /** Filtering by two keys is filtering by the pair of them. */
  lemma {:induction false} FilterTwice<T, A, B>(xs: seq<T>, ka: T -> A, kb: T -> B, kab: T -> (A, B), a: A, b: B)
    requires forall x :: kab(x) == (ka(x), kb(x))
    ensures Filter(Filter(xs, ka, a), kb, b) == Filter(xs, kab, (a, b))
  {
    if xs != [] {
      FilterTwice(xs[1..], ka, kb, kab, a, b);
      var pre := if ka(xs[0]) == a then [xs[0]] else [];
      FilterConcat(pre, Filter(xs[1..], ka, a), kb, b);
      assert kab(xs[0]) == (ka(xs[0]), kb(xs[0]));
    }
  }

  /** The value the keys of a unique-key table determine. */
  lemma {:induction false} LookupFinds<T, K>(xs: seq<T>, key: T -> K, i: nat)
    requires UniqueKeys(xs, key)
    requires i < |xs|
    ensures Lookup(xs, key, key(xs[i])) == Some(xs[i])
  {
    if i > 0 {
      assert key(xs[0]) != key(xs[i]);
      LookupFinds(xs[1..], key, i - 1);
    }
  }

  /** In a table with unique keys a group is empty or is the one row Lookup finds. */
  lemma {:induction false} FilterUnique<T, K>(xs: seq<T>, key: T -> K, k: K)
    requires UniqueKeys(xs, key)
    ensures Lookup(xs, key, k).None? ==> Filter(xs, key, k) == []
    ensures Lookup(xs, key, k).Some? ==> Filter(xs, key, k) == [Lookup(xs, key, k).value]
  {
    if xs != [] {
      assert forall i :: 0 <= i < |xs| - 1 ==> xs[1..][i] == xs[i + 1];
      FilterUnique(xs[1..], key, k);
      if key(xs[0]) == k {
        FilterNone(xs[1..], key, k);
      }
    }
  }

  /** Ascending keys are unique keys. */
  lemma AscendingUnique<T>(xs: seq<T>, key: T -> int)
    requires AscendingBy(xs, key)
    ensures UniqueKeys(xs, key)
  {
  }

  /** Two ascending sequences with the same members are the same sequence. */
  lemma {:induction false} AscendingDetermined(a: seq<int>, b: seq<int>)
    requires Ascending(a) && Ascending(b)
    requires forall x :: x in a <==> x in b
    ensures a == b
  {
    assert a != [] ==> a[0] in a && a[0] in b;
    assert b != [] ==> b[0] in b && b[0] in a;
    if a != [] {
      AscendingTail(a);
      AscendingTail(b);
      assert a[0] == b[0];
      AscendingDetermined(a[1..], b[1..]);
      assert a == [a[0]] + a[1..] && b == [b[0]] + b[1..];
    }
  }

  /** Removing duplicates from a sequence without any changes nothing. */
  lemma {:induction false} DistinctOfNoDuplicates<T>(xs: seq<T>)
    requires NoDuplicates(xs)
    ensures Distinct(xs) == xs
  {
    if xs != [] {
      forall i | 0 <= i < |xs| - 1 ensures xs[1..][i] != xs[0] {
        assert xs[1..][i] == xs[i + 1];
      }
      DistinctOfNoDuplicates(xs[1..]);
    }
  }
}
