/** Sequence operations that the repositories' derived queries are built from:
    lookup by key, filtering, counting and ordering by a key, newest first. */
module Collections {
  import opened Results

  /** The first position whose key is `k` (a `findById` / `findByUsername` lookup). */
  function Find<T, K(==)>(s: seq<T>, key: T -> K, k: K): (r: Option<nat>)
    ensures r.Some? ==> r.value < |s| && key(s[r.value]) == k
    ensures r.Some? ==> forall j :: 0 <= j < r.value ==> key(s[j]) != k
    ensures r.None? <==> forall j :: 0 <= j < |s| ==> key(s[j]) != k
  {
    FindFrom(s, key, k, 0)
  }

  /** The first position at or after `start` whose key is `k`: a scan from the front. */
  function FindFrom<T, K(==)>(s: seq<T>, key: T -> K, k: K, start: nat): (r: Option<nat>)
    requires start <= |s|
    ensures r.Some? ==> start <= r.value < |s| && key(s[r.value]) == k
    ensures r.Some? ==> forall j :: start <= j < r.value ==> key(s[j]) != k
    ensures r.None? <==> forall j :: start <= j < |s| ==> key(s[j]) != k
    decreases |s| - start
  {
    if start == |s| then None
    else if key(s[start]) == k then Some(start)
    else FindFrom(s, key, k, start + 1)
  }

  /** No two rows share a key (a primary key or a unique column). */
  predicate Distinct<T, K(==)>(s: seq<T>, key: T -> K) {
    forall i, j :: 0 <= i < j < |s| ==> key(s[i]) != key(s[j])
  }

  lemma DistinctUpdate<T, K>(s: seq<T>, key: T -> K, i: nat, x: T)
    requires Distinct(s, key) && i < |s| && key(x) == key(s[i])
    ensures Distinct(s[i := x], key)
  {
    var s' := s[i := x];
    forall a, b | 0 <= a < b < |s'| ensures key(s'[a]) != key(s'[b]) {
      assert key(s'[a]) == key(s[a]) && key(s'[b]) == key(s[b]);
    }
  }

  lemma DistinctAppend<T, K>(s: seq<T>, key: T -> K, x: T)
    requires Distinct(s, key) && forall j :: 0 <= j < |s| ==> key(s[j]) != key(x)
    ensures Distinct(s + [x], key)
  {
  }

  /** With distinct keys, looking up the key of row `i` finds row `i`. */
  lemma FindDistinct<T, K>(s: seq<T>, key: T -> K, i: nat)
    requires Distinct(s, key) && i < |s|
    ensures Find(s, key, key(s[i])) == Some(i)
  {
  }

  /** Lookup only depends on the keys of the rows. */
  lemma FindSameKeys<T, U, K>(s: seq<T>, key: T -> K, s': seq<U>, key': U -> K, k: K)
    requires |s| == |s'| && forall i :: 0 <= i < |s| ==> key(s[i]) == key'(s'[i])
    ensures Find(s, key, k) == Find(s', key', k)
  {
    FindFromSameKeys(s, key, s', key', k, 0);
  }

  lemma {:induction false} FindFromSameKeys<T, U, K>(s: seq<T>, key: T -> K, s': seq<U>, key': U -> K, k: K, start: nat)
    requires start <= |s| == |s'| && forall i :: 0 <= i < |s| ==> key(s[i]) == key'(s'[i])
    ensures FindFrom(s, key, k, start) == FindFrom(s', key', k, start)
    decreases |s| - start
  {
    if start < |s| && key(s[start]) != k {
      FindFromSameKeys(s, key, s', key', k, start + 1);
    }
  }

  /** The rows satisfying `keep`, in table order (a `WHERE` clause). */
  function Filter<T>(s: seq<T>, keep: T -> bool): (r: seq<T>)
    ensures |r| <= |s|
    ensures forall i :: 0 <= i < |r| ==> keep(r[i]) && r[i] in s
    ensures forall i :: 0 <= i < |s| && keep(s[i]) ==> s[i] in r
  {
    if s == [] then []
    else (if keep(s[0]) then [s[0]] else []) + Filter(s[1..], keep)
  }

  /** The number of rows satisfying `keep` (a `SELECT COUNT`). */
  function Count<T>(s: seq<T>, keep: T -> bool): nat {
    if s == [] then 0 else (if keep(s[0]) then 1 else 0) + Count(s[1..], keep)
  }

  lemma {:induction false} CountIsFilterLength<T>(s: seq<T>, keep: T -> bool)
    ensures Count(s, keep) == |Filter(s, keep)|
  {
    if s != [] {
      CountIsFilterLength(s[1..], keep);
    }
  }

  /** Every row comes no earlier in the key order than the rows after it: newest first. */
  predicate Descending<T>(s: seq<T>, key: T -> int) {
    forall i, j :: 0 <= i < j < |s| ==> key(s[i]) >= key(s[j])
  }

  /** The position of a row known to be in a sequence. */
  lemma PositionOf<T>(s: seq<T>, x: T) returns (m: nat)
    requires x in s
    ensures m < |s| && s[m] == x
  {
    m :| m < |s| && s[m] == x;
  }

  /** One pair of rows of a descending sequence. */
  lemma DescendingAt<T>(s: seq<T>, key: T -> int, i: nat, j: nat)
    requires Descending(s, key) && i < j < |s|
    ensures key(s[i]) >= key(s[j])
  {
  }

  /** Inserting `x` into a descending sequence before the first row with a key no greater
      than `x`'s: the result is descending and holds the same rows plus `x`. */
  function Insert<T>(x: T, s: seq<T>, key: T -> int): (r: seq<T>)
    requires Descending(s, key)
    ensures Descending(r, key)
    ensures multiset(r) == multiset(s) + multiset{x}
    ensures key(r[0]) == key(x) || (|s| > 0 && key(r[0]) == key(s[0]))
  {
    if s == [] || key(x) >= key(s[0]) then [x] + s
    else
      var rest := Insert(x, s[1..], key);
      assert s == [s[0]] + s[1..];
      [s[0]] + rest
  }

  /** `ORDER BY key DESC`: a reordering of the rows that is descending in `key`. */
  function SortDescending<T>(s: seq<T>, key: T -> int): (r: seq<T>)
    ensures Descending(r, key)
    ensures multiset(r) == multiset(s)
    ensures |r| == |s|
  {
    if s == [] then []
    else
      assert s == [s[0]] + s[1..];
      Insert(s[0], SortDescending(s[1..], key), key)
  }
}
