/**
 * `NucleiBudget.find_budget_paths` (bbot/modules/deadly/nuclei.py:222-234):
 * count how often each request path occurs in the corpus, rank the paths by
 * that count (most frequent first, ties in order of first occurrence) and keep
 * the first `budget` of them.
 */
module PathBudget {
  import opened Collections
  import opened Templates

  /** The innermost counting loop, over the paths of one non-raw request:
      `path_frequency[path] += 1`, or `= 1` for a path not yet seen. */
  method CountRequestPaths(keys: seq<string>, freq: map<string, nat>, paths: seq<string>, ghost seen: seq<string>)
    returns (keys': seq<string>, freq': map<string, nat>)
    requires keys == Distinct(seen) && freq == Histogram(seen)
    ensures keys' == Distinct(seen + paths)
    ensures freq' == Histogram(seen + paths)
  {
    keys', freq' := keys, freq;
    assert seen + paths[..0] == seen;
    for k := 0 to |paths|
      invariant keys' == Distinct(seen + paths[..k])
      invariant freq' == Histogram(seen + paths[..k])
    {
      var path := paths[k];
      ghost var counted := seen + paths[..k];
      DistinctSnoc(counted, path);
      HistogramSnoc(counted, path);
      assert path in freq' <==> path in counted;
      if path in freq' {
        freq' := freq'[path := freq'[path] + 1];
      } else {
        freq' := freq'[path := 1];
        keys' := keys' + [path];
      }
      AppendPrefix(seen, paths, k);
    }
    assert paths[..|paths|] == paths;
  }

  /** The counting loops: `path_frequency` is returned as its keys in insertion
      order together with the counts. */
  method CountPathFrequency(ts: seq<Template>) returns (keys: seq<string>, freq: map<string, nat>)
    ensures keys == Distinct(CorpusPaths(ts))
    ensures freq == Histogram(CorpusPaths(ts))
  {
    keys, freq := [], map[];
    for i := 0 to |ts|
      invariant keys == Distinct(CorpusPaths(ts[..i]))
      invariant freq == Histogram(CorpusPaths(ts[..i]))
    {
      var requests := ts[i].requests;
      ghost var before := CorpusPaths(ts[..i]);
      assert requests[..0] == [];
      assert before + RequestPaths(requests[..0]) == before;
      for j := 0 to |requests|
        invariant keys == Distinct(before + RequestPaths(requests[..j]))
        invariant freq == Histogram(before + RequestPaths(requests[..j]))
      {
        ghost var seen := before + RequestPaths(requests[..j]);
        ghost var added := if requests[j].raw then [] else requests[j].path;
        RequestPathsSnoc(requests, j);
        ConcatAssoc(before, RequestPaths(requests[..j]), added);
        if !requests[j].raw {
          keys, freq := CountRequestPaths(keys, freq, requests[j].path, seen);
        } else {
          assert seen + added == seen;
        }
      }
      assert requests[..|requests|] == requests;
      CorpusPathsSnoc(ts, i);
    }
    assert ts[..|ts|] == ts;
  }

  /** Puts x after every element of s whose count is at least x's: one step of
      a stable sort by descending count. */
  function InsertByCount(s: seq<string>, x: string, freq: map<string, nat>): (r: seq<string>)
    requires x in freq
    requires forall y :: y in s ==> y in freq
    ensures multiset(r) == multiset(s) + multiset{x}
  {
    if s == [] then [x]
    else if freq[s[0]] < freq[x] then [x] + s
    else
      assert s == [s[0]] + s[1..];
      [s[0]] + InsertByCount(s[1..], x, freq)
  }

  /** `sorted(path_frequency.items(), key=count, reverse=True)`, a stable sort. */
  function SortByCount(keys: seq<string>, freq: map<string, nat>): (r: seq<string>)
    requires forall k :: k in keys ==> k in freq
    ensures multiset(r) == multiset(keys)
  {
    if keys == [] then []
    else
      var prefix := keys[..|keys| - 1];
      assert keys == prefix + [keys[|keys| - 1]];
      var sorted := SortByCount(prefix, freq);
      assert forall y :: y in sorted ==> y in multiset(prefix);
      InsertByCount(sorted, keys[|keys| - 1], freq)
  }

  /** The slice `islice(sorted_dict.items(), budget)`. */
  function SelectBudgetPaths(keys: seq<string>, freq: map<string, nat>, budget: nat): seq<string>
    requires forall k :: k in keys ==> k in freq
  {
    var sorted := SortByCount(keys, freq);
    sorted[..Min(budget, |sorted|)]
  }

  /** The budget paths of a corpus. */
  function BudgetPaths(ts: seq<Template>, budget: nat): seq<string>
  {
    var occ := CorpusPaths(ts);
    SelectBudgetPaths(Distinct(occ), Histogram(occ), budget)
  }

  method FindBudgetPaths(ts: seq<Template>, budget: nat) returns (selected: seq<string>)
    ensures selected == BudgetPaths(ts, budget)
  {
    var keys, freq := CountPathFrequency(ts);
    selected := SelectBudgetPaths(keys, freq, budget);
  }

  /** p ranks ahead of q among the paths of occ: it occurs more often, or as
      often and was met first. */
  ghost predicate RanksAhead(occ: seq<string>, p: string, q: string)
  {
    && p in occ && q in occ
    && (|| multiset(occ)[p] > multiset(occ)[q]
        || (multiset(occ)[p] == multiset(occ)[q] && IndexOf(occ, p) < IndexOf(occ, q)))
  }

  /** The same order stated on the dict: by count, then by key position. */
  ghost predicate Ahead(keys: seq<string>, freq: map<string, nat>, p: string, q: string)
  {
    && p in keys && q in keys && p in freq && q in freq
    && (freq[p] > freq[q] || (freq[p] == freq[q] && IndexOf(keys, p) < IndexOf(keys, q)))
  }

  ghost predicate Ranked(s: seq<string>, keys: seq<string>, freq: map<string, nat>)
  {
    forall i, j :: 0 <= i < j < |s| ==> Ahead(keys, freq, s[i], s[j])
  }

  lemma {:induction false} InsertRanked(keys: seq<string>, freq: map<string, nat>, s: seq<string>, x: string)
    requires x in keys && x in freq
    requires forall y :: y in s ==> y in keys && y in freq && IndexOf(keys, y) < IndexOf(keys, x)
    requires Ranked(s, keys, freq)
    ensures Ranked(InsertByCount(s, x, freq), keys, freq)
  {
    if s == [] {
    } else if freq[s[0]] < freq[x] {
      var r := [x] + s;
      forall i, j | 0 <= i < j < |r|
        ensures Ahead(keys, freq, r[i], r[j])
      {
        if i == 0 {
          if j > 1 {
            assert Ahead(keys, freq, s[0], s[j - 1]);
          }
        } else {
          assert r[i] == s[i - 1] && r[j] == s[j - 1];
        }
      }
    } else {
      var tail := s[1..];
      assert Ranked(tail, keys, freq) by {
        forall i, j | 0 <= i < j < |tail|
          ensures Ahead(keys, freq, tail[i], tail[j])
        {
          assert tail[i] == s[i + 1] && tail[j] == s[j + 1];
        }
      }
      InsertRanked(keys, freq, tail, x);
      var t := InsertByCount(tail, x, freq);
      var r := [s[0]] + t;
      forall i, j | 0 <= i < j < |r|
        ensures Ahead(keys, freq, r[i], r[j])
      {
        if i == 0 {
          assert r[j] in multiset(t);
          if r[j] != x {
            assert r[j] in multiset(tail);
            var k :| 0 <= k < |tail| && tail[k] == r[j];
            assert Ahead(keys, freq, s[0], s[k + 1]);
          }
        } else {
          assert r[i] == t[i - 1] && r[j] == t[j - 1];
        }
      }
    }
  }

  lemma {:induction false} SortRanked(keys: seq<string>, freq: map<string, nat>, n: nat)
    requires NoDuplicates(keys) && n <= |keys|
    requires forall k :: k in keys ==> k in freq
    ensures Ranked(SortByCount(keys[..n], freq), keys, freq)
  {
    if n > 0 {
      var prefix := keys[..n - 1];
      var x := keys[n - 1];
      assert keys[..n][..n - 1] == prefix;
      SortRanked(keys, freq, n - 1);
      var s := SortByCount(prefix, freq);
      IndexOfAt(keys, n - 1);
      forall y | y in s
        ensures y in keys && y in freq && IndexOf(keys, y) < IndexOf(keys, x)
      {
        assert y in multiset(prefix);
        var m :| 0 <= m < |prefix| && prefix[m] == y;
        IndexOfAt(keys, m);
      }
      InsertRanked(keys, freq, s, x);
    }
  }

  /** A ranked sequence has no duplicates, since no path ranks ahead of itself. */
  lemma RankedNoDuplicates(s: seq<string>, keys: seq<string>, freq: map<string, nat>)
    requires Ranked(s, keys, freq)
    ensures NoDuplicates(s)
  {
    forall i, j | 0 <= i < j < |s|
      ensures s[i] != s[j]
    {
      assert Ahead(keys, freq, s[i], s[j]);
    }
  }

  /** On the dict built from a corpus, the dict order is the corpus order. */
  lemma AheadIsRanksAhead(occ: seq<string>, p: string, q: string)
    requires p in occ && q in occ
    ensures Ahead(Distinct(occ), Histogram(occ), p, q) <==> RanksAhead(occ, p, q)
  {
    DistinctFirstOccurrence(occ, p, q);
    var i :| 0 <= i < |occ| && occ[i] == p;
    var j :| 0 <= j < |occ| && occ[j] == q;
  }

  /** The selection holds no path twice, only paths of the corpus, and
      min(budget, number of distinct paths) of them. */
  lemma BudgetPathsSize(ts: seq<Template>, budget: nat)
    ensures var occ, sel := CorpusPaths(ts), BudgetPaths(ts, budget);
      && NoDuplicates(sel)
      && (forall p :: p in sel ==> p in occ)
      && |sel| == Min(budget, |Elements(occ)|)
  {
    var occ := CorpusPaths(ts);
    var keys, freq := Distinct(occ), Histogram(occ);
    var sorted := SortByCount(keys, freq);
    assert keys[..|keys|] == keys;
    SortRanked(keys, freq, |keys|);
    RankedNoDuplicates(sorted, keys, freq);
    DistinctLength(occ);
    assert |sorted| == |multiset(sorted)| == |keys|;
    var sel := BudgetPaths(ts, budget);
    forall p | p in sel
      ensures p in occ
    {
      assert p in multiset(keys);
    }
  }

  /** The dict of a corpus, sorted, is in rank order. */
  lemma CorpusSortRanked(occ: seq<string>)
    ensures Ranked(SortByCount(Distinct(occ), Histogram(occ)), Distinct(occ), Histogram(occ))
  {
    var keys := Distinct(occ);
    assert keys[..|keys|] == keys;
    SortRanked(keys, Histogram(occ), |keys|);
  }

  /** The selection is in rank order: each path occurs at least as often as
      the next, and among equal counts the one met first comes first. */
  lemma BudgetPathsOrdered(ts: seq<Template>, budget: nat)
    ensures var occ, sel := CorpusPaths(ts), BudgetPaths(ts, budget);
      forall i, j :: 0 <= i < j < |sel| ==> RanksAhead(occ, sel[i], sel[j])
  {
    var occ := CorpusPaths(ts);
    var keys, freq := Distinct(occ), Histogram(occ);
    var sorted := SortByCount(keys, freq);
    CorpusSortRanked(occ);
    var sel := BudgetPaths(ts, budget);
    forall i, j | 0 <= i < j < |sel|
      ensures RanksAhead(occ, sel[i], sel[j])
    {
      assert sel[i] == sorted[i] && sel[j] == sorted[j];
      assert Ahead(keys, freq, sorted[i], sorted[j]);
      AheadIsRanksAhead(occ, sel[i], sel[j]);
    }
  }

  /** Every selected path ranks ahead of every path of the corpus that was
      left out: it occurs more often, or as often and was met first. */
  lemma BudgetPathsBeatLeftOut(ts: seq<Template>, budget: nat, p: string, q: string)
    requires p in BudgetPaths(ts, budget)
    requires q in CorpusPaths(ts) && q !in BudgetPaths(ts, budget)
    ensures RanksAhead(CorpusPaths(ts), p, q)
  {
    var occ := CorpusPaths(ts);
    var keys, freq := Distinct(occ), Histogram(occ);
    var sorted := SortByCount(keys, freq);
    CorpusSortRanked(occ);
    var sel := BudgetPaths(ts, budget);
    var n := Min(budget, |sorted|);
    assert sel == sorted[..n];
    var i :| 0 <= i < |sel| && sel[i] == p;
    assert q in multiset(keys);
    var j :| 0 <= j < |sorted| && sorted[j] == q;
    assert Ahead(keys, freq, sorted[i], sorted[j]);
    AheadIsRanksAhead(occ, p, q);
  }
}
