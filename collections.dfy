/**
 * Sequence, multiset and map facts shared by the model: the keys of a Python
 * dict filled in order (`Distinct`), a counting dict (`Histogram`) and the sum
 * of a dict's values (`MapSum`).
 */
module Collections {

  datatype Option<+T> = None | Some(value: T)

  function Min(a: int, b: int): int
  {
    if a <= b then a else b
  }

  predicate NoDuplicates<T(==)>(s: seq<T>)
  {
    forall i, j :: 0 <= i < j < |s| ==> s[i] != s[j]
  }

  /** The set of elements of s. */
  ghost function Elements<T>(s: seq<T>): set<T>
  {
    set x | x in s
  }

  /** Position of the first occurrence of x in s. */
  function IndexOf<T(==)>(s: seq<T>, x: T): (i: nat)
    requires x in s
    ensures i < |s| && s[i] == x && x !in s[..i]
  {
    if s[0] == x then 0
    else
      var j := IndexOf(s[1..], x);
      assert s[..j + 1] == [s[0]] + s[1..][..j];
      1 + j
  }

  /** The distinct elements of s in order of first occurrence: the keys of a
      dict into which the elements of s are inserted one after the other. */
  function Distinct<T(==,!new)>(s: seq<T>): (r: seq<T>)
    ensures NoDuplicates(r)
    ensures forall x :: x in r <==> x in s
  {
    if s == [] then []
    else
      var d := Distinct(s[..|s| - 1]);
      assert s == s[..|s| - 1] + [s[|s| - 1]];
      if s[|s| - 1] in d then d else d + [s[|s| - 1]]
  }

  /** A counting dict filled from s in order: `d[x] += 1` for a key already
      present, `d[x] = 1` for a new one. */
  function Histogram<T(==,!new)>(s: seq<T>): (h: map<T, nat>)
    ensures forall x :: x in h <==> x in s
    ensures forall x :: x in h ==> h[x] == multiset(s)[x]
  {
    if s == [] then map[]
    else
      var p, x := s[..|s| - 1], s[|s| - 1];
      assert s == p + [x];
      assert multiset(s) == multiset(p) + multiset{x};
      var h := Histogram(p);
      h[x := (if x in h then h[x] else 0) + 1]
  }

  /** Some key of a non-empty map. */
  ghost function Pick<K>(m: map<K, nat>): (k: K)
    requires |m| != 0
    ensures k in m
  {
    assert m.Keys != {};
    var k :| k in m; k
  }

  /** The sum of the values of m (Python's `sum(d.values())`). */
  ghost function MapSum<K>(m: map<K, nat>): nat
    decreases |m|
  {
    if |m| == 0 then 0
    else
      var k := Pick(m);
      assert |m - {k}| < |m| by { assert (m - {k}).Keys == m.Keys - {k}; }
      m[k] + MapSum(m - {k})
  }

  /** Extending a prefix of b by one element. */
  lemma AppendPrefix<T>(a: seq<T>, b: seq<T>, k: nat)
    requires k < |b|
    ensures a + b[..k + 1] == (a + b[..k]) + [b[k]]
  {
    assert b[..k + 1] == b[..k] + [b[k]];
  }

  lemma ConcatAssoc<T>(a: seq<T>, b: seq<T>, c: seq<T>)
    ensures a + (b + c) == (a + b) + c
  {
  }

  lemma IndexOfAt<T>(s: seq<T>, i: nat)
    requires NoDuplicates(s) && i < |s|
    ensures IndexOf(s, s[i]) == i
  {
    var j := IndexOf(s, s[i]);
    assert s[j] == s[i];
  }

  lemma IndexOfSnoc<T>(s: seq<T>, x: T, p: T)
    requires p in s + [x]
    ensures IndexOf(s + [x], p) == if p in s then IndexOf(s, p) else |s|
  {
    var i := IndexOf(s + [x], p);
    if p in s {
      var j := IndexOf(s, p);
      assert (s + [x])[..j] == s[..j];
      assert (s + [x])[j] == p;
    } else {
      assert (s + [x])[|s|] == p;
    }
  }

  /** Inserting one more element into a dict: an existing key keeps its place,
      a new key goes last. */
  lemma DistinctSnoc<T(!new)>(s: seq<T>, x: T)
    ensures Distinct(s + [x]) == if x in s then Distinct(s) else Distinct(s) + [x]
  {
    assert (s + [x])[..|s + [x]| - 1] == s;
  }

  lemma HistogramSnoc<T(!new)>(s: seq<T>, x: T)
    ensures Histogram(s + [x])
         == Histogram(s)[x := (if x in Histogram(s) then Histogram(s)[x] else 0) + 1]
  {
    assert (s + [x])[..|s + [x]| - 1] == s;
  }

  /** A sequence without duplicates has as many distinct elements as it has
      elements. */
  lemma {:induction false} NoDuplicatesCardinality<T>(s: seq<T>)
    requires NoDuplicates(s)
    ensures |Elements(s)| == |s|
  {
    if s != [] {
      var p := s[..|s| - 1];
      var x := s[|s| - 1];
      assert NoDuplicates(p);
      NoDuplicatesCardinality(p);
      assert s == p + [x];
      assert Elements(s) == Elements(p) + {x};
      assert x !in Elements(p);
    }
  }

  /** The dict of a sequence holds one key per distinct element. */
  lemma DistinctLength<T(!new)>(s: seq<T>)
    ensures |Distinct(s)| == |Elements(s)|
  {
    NoDuplicatesCardinality(Distinct(s));
    assert Elements(Distinct(s)) == Elements(s);
  }

  /** The dict's keys stand in the order in which each key was first met. */
  lemma {:induction false} DistinctFirstOccurrence<T(!new)>(s: seq<T>, p: T, q: T)
    requires p in s && q in s
    ensures IndexOf(Distinct(s), p) < IndexOf(Distinct(s), q) <==> IndexOf(s, p) < IndexOf(s, q)
  {
    var n := |s|;
    var s', x := s[..n - 1], s[n - 1];
    assert s == s' + [x];
    var d := Distinct(s');
    DistinctSnoc(s', x);
    IndexOfSnoc(s', x, p);
    IndexOfSnoc(s', x, q);
    if x !in s' {
      assert x !in d;
      if p in s' { IndexOfSnoc(d, x, p); }
      if q in s' { IndexOfSnoc(d, x, q); }
      if p !in s' { IndexOfSnoc(d, x, p); }
      if q !in s' { IndexOfSnoc(d, x, q); }
    }
    if p in s' && q in s' {
      DistinctFirstOccurrence(s', p, q);
    }
  }

  /** The sum does not depend on the key taken out first. */
  lemma MapSumRemove<K>(m: map<K, nat>, k: K)
    requires k in m
    ensures MapSum(m) == m[k] + MapSum(m - {k})
    decreases |m|
  {
    var k' := Pick(m);
    assert MapSum(m) == m[k'] + MapSum(m - {k'});
    if k' != k {
      var a := m - {k'};
      var b := m - {k};
      assert a.Keys == m.Keys - {k'};
      assert b.Keys == m.Keys - {k};
      MapSumRemove(a, k);
      MapSumRemove(b, k');
      assert a - {k} == b - {k'};
    }
  }

  lemma MapSumUpdate<K>(m: map<K, nat>, k: K, v: nat)
    ensures MapSum(m[k := v]) + (if k in m then m[k] else 0) == MapSum(m) + v
  {
    MapSumRemove(m[k := v], k);
    if k in m {
      MapSumRemove(m, k);
      assert m[k := v] - {k} == m - {k};
    } else {
      assert m[k := v] - {k} == m;
    }
  }

  /** The counts of a counting dict add up to the number of things counted. */
  lemma {:induction false} HistogramTotal<T(!new)>(s: seq<T>)
    ensures MapSum(Histogram(s)) == |s|
  {
    if s == [] {
      assert Histogram(s) == map[];
    } else {
      var p, x := s[..|s| - 1], s[|s| - 1];
      assert s == p + [x];
      HistogramTotal(p);
      HistogramSnoc(p, x);
      var h := Histogram(p);
      MapSumUpdate(h, x, (if x in h then h[x] else 0) + 1);
    }
  }

  /** The value of each key of ks in m, 0 for an absent key
      (`d.get(k, 0)` for each k). */
  function Lookups<K>(m: map<K, nat>, ks: seq<K>): (r: seq<nat>)
    ensures |r| == |ks|
    ensures forall i :: 0 <= i < |ks| ==> r[i] == if ks[i] in m then m[ks[i]] else 0
  {
    if ks == [] then []
    else
      var k := ks[|ks| - 1];
      Lookups(m, ks[..|ks| - 1]) + [if k in m then m[k] else 0]
  }

  function Sum(s: seq<nat>): nat
  {
    if s == [] then 0 else Sum(s[..|s| - 1]) + s[|s| - 1]
  }

  /** Removing a key that is not looked up changes no lookup. */
  lemma {:induction false} LookupsWithout<K>(m: map<K, nat>, ks: seq<K>, k: K)
    requires k !in ks
    ensures Lookups(m - {k}, ks) == Lookups(m, ks)
  {
  }

  /** Looking up distinct keys counts each value at most once: the lookups add
      up to at most the sum of the map. */
  lemma {:induction false} LookupsSumBound<K>(m: map<K, nat>, ks: seq<K>)
    requires NoDuplicates(ks)
    ensures Sum(Lookups(m, ks)) <= MapSum(m)
  {
    if ks != [] {
      var p, k := ks[..|ks| - 1], ks[|ks| - 1];
      assert Lookups(m, ks)[..|ks| - 1] == Lookups(m, p);
      if k in m {
        LookupsWithout(m, p, k);
        LookupsSumBound(m - {k}, p);
        MapSumRemove(m, k);
      } else {
        LookupsSumBound(m, p);
      }
    }
  }
}
