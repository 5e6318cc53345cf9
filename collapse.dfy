/**
 * `NucleiBudget.find_collapsable_templates` (bbot/modules/deadly/nuclei.py:252-294)
 * and the `NucleiBudget` object that ties it to the path selection.
 *
 * The model follows the code's control flow: the subset test runs once per
 * non-raw request, the shape checks scan every non-raw request of the
 * template, and the `valid` flag is set once per template and only ever
 * cleared. A template is therefore appended once for every non-raw request
 * whose paths all lie within the budget, provided all its non-raw requests
 * pass the shape checks.
 */
module Collapse {
  import opened Collections
  import opened Templates
  import PathBudget

  /** A request whose behaviour does not depend on anything but its path: no
      headers, method exactly "GET", and no max-redirects, redirects or
      cookie-reuse. */
  predicate SimpleGet(r: Request)
  {
    && !r.headers
    && r.httpMethod == Some("GET")
    && !r.maxRedirects
    && !r.redirects
    && !r.cookieReuse
  }

  /** Every non-raw request of rs is a simple GET (raw requests are skipped). */
  predicate AllSimpleGet(rs: seq<Request>)
  {
    forall i :: 0 <= i < |rs| && !rs[i].raw ==> SimpleGet(rs[i])
  }

  /** `set(paths).issubset(budget_paths)` */
  predicate WithinBudget(paths: seq<string>, budgetPaths: seq<string>)
  {
    forall p :: p in paths ==> p in budgetPaths
  }

  /** The number of non-raw requests of rs whose paths all lie within the budget. */
  function QualifyingCount(rs: seq<Request>, budgetPaths: seq<string>): nat
  {
    if rs == [] then 0
    else
      var r := rs[|rs| - 1];
      QualifyingCount(rs[..|rs| - 1], budgetPaths)
        + (if !r.raw && WithinBudget(r.path, budgetPaths) then 1 else 0)
  }

  /** How many times the filter appends template t. */
  function Appends(t: Template, budgetPaths: seq<string>): nat
  {
    if AllSimpleGet(t.requests) then QualifyingCount(t.requests, budgetPaths) else 0
  }

  function Repeat<T>(x: T, n: nat): (r: seq<T>)
    ensures |r| == n && forall i :: 0 <= i < n ==> r[i] == x
  {
    seq(n, _ => x)
  }

  /** The `collapsable_templates` list: each template's file, as often as it
      is appended, in corpus order. */
  function CollapsedFiles(ts: seq<Template>, budgetPaths: seq<string>): seq<string>
  {
    if ts == [] then []
    else
      var t := ts[|ts| - 1];
      CollapsedFiles(ts[..|ts| - 1], budgetPaths) + Repeat(t.file, Appends(t, budgetPaths))
  }

  /** The severity looked up at each append, in the same order. */
  function CollapsedSeverities(ts: seq<Template>, budgetPaths: seq<string>): seq<Option<string>>
  {
    if ts == [] then []
    else
      var t := ts[|ts| - 1];
      CollapsedSeverities(ts[..|ts| - 1], budgetPaths) + Repeat(t.severity, Appends(t, budgetPaths))
  }

  /** The five shape scans at lines 261-284 over all non-raw requests of the
      template: any failing request clears `valid`, nothing sets it again. */
  method ScanRequestShapes(rs: seq<Request>, valid: bool) returns (stillValid: bool)
    ensures stillValid == (valid && AllSimpleGet(rs))
  {
    stillValid := valid;
    for k := 0 to |rs|
      invariant stillValid == (valid && AllSimpleGet(rs[..k]))
    {
      var r := rs[k];
      if !r.raw {
        if r.headers {
          stillValid := false;
        }
        if r.httpMethod != Some("GET") {
          stillValid := false;
        }
        if r.maxRedirects {
          stillValid := false;
        }
        if r.redirects {
          stillValid := false;
        }
        if r.cookieReuse {
          stillValid := false;
        }
      }
      assert forall i :: 0 <= i < k ==> rs[..k + 1][i] == rs[..k][i];
    }
    assert rs[..|rs|] == rs;
  }

  /** `severity_dict[severity] += 1`, or `= 1` for a severity not yet seen. */
  method Tally(severityStats: map<Option<string>, nat>, ghost severities: seq<Option<string>>,
               severity: Option<string>)
    returns (severityStats': map<Option<string>, nat>)
    requires severityStats == Histogram(severities)
    ensures severityStats' == Histogram(severities + [severity])
  {
    HistogramSnoc(severities, severity);
    if severity in severityStats {
      severityStats' := severityStats[severity := severityStats[severity] + 1];
    } else {
      severityStats' := severityStats[severity := 1];
    }
  }

  lemma QualifyingCountSnoc(rs: seq<Request>, j: nat, budgetPaths: seq<string>)
    requires j < |rs|
    ensures QualifyingCount(rs[..j + 1], budgetPaths)
         == QualifyingCount(rs[..j], budgetPaths)
            + (if !rs[j].raw && WithinBudget(rs[j].path, budgetPaths) then 1 else 0)
  {
    assert rs[..j + 1][..j] == rs[..j];
  }

  lemma RepeatSnoc<T>(x: T, n: nat)
    ensures Repeat(x, n + 1) == Repeat(x, n) + [x]
  {
  }

  /** One pass of the outer loop (lines 256-292) for template t: the list and
      the tally grow by one entry for each qualifying request, provided every
      non-raw request of t passes the shape checks. */
  method CollapseTemplate(t: Template, budgetPaths: seq<string>, collapsable: seq<string>,
                          severityStats: map<Option<string>, nat>, ghost severities: seq<Option<string>>)
    returns (collapsable': seq<string>, severityStats': map<Option<string>, nat>,
             ghost severities': seq<Option<string>>)
    requires severityStats == Histogram(severities)
    ensures collapsable' == collapsable + Repeat(t.file, Appends(t, budgetPaths))
    ensures severities' == severities + Repeat(t.severity, Appends(t, budgetPaths))
    ensures severityStats' == Histogram(severities')
  {
    collapsable', severityStats', severities' := collapsable, severityStats, severities;
    var valid := true;
    for j := 0 to |t.requests|
      invariant valid == (QualifyingCount(t.requests[..j], budgetPaths) == 0 || AllSimpleGet(t.requests))
      invariant var n := if AllSimpleGet(t.requests) then QualifyingCount(t.requests[..j], budgetPaths) else 0;
        && collapsable' == collapsable + Repeat(t.file, n)
        && severities' == severities + Repeat(t.severity, n)
      invariant severityStats' == Histogram(severities')
    {
      var r := t.requests[j];
      QualifyingCountSnoc(t.requests, j, budgetPaths);
      if !r.raw && WithinBudget(r.path, budgetPaths) {
        valid := ScanRequestShapes(t.requests, valid);
        if valid {
          ghost var n := QualifyingCount(t.requests[..j], budgetPaths);
          RepeatSnoc(t.file, n);
          RepeatSnoc(t.severity, n);
          ConcatAssoc(collapsable, Repeat(t.file, n), [t.file]);
          ConcatAssoc(severities, Repeat(t.severity, n), [t.severity]);
          collapsable' := collapsable' + [t.file];
          severityStats' := Tally(severityStats', severities', t.severity);
          severities' := severities' + [t.severity];
        }
      }
    }
    assert t.requests[..|t.requests|] == t.requests;
  }

  /** The filter: `severity_dict` comes back as a map, whose keys Python keeps
      in insertion order; that order is not observed here. */
  method FindCollapsableTemplates(ts: seq<Template>, budgetPaths: seq<string>)
    returns (collapsable: seq<string>, severityStats: map<Option<string>, nat>)
    ensures collapsable == CollapsedFiles(ts, budgetPaths)
    ensures severityStats == Histogram(CollapsedSeverities(ts, budgetPaths))
  {
    collapsable, severityStats := [], map[];
    ghost var severities: seq<Option<string>> := [];
    for i := 0 to |ts|
      invariant collapsable == CollapsedFiles(ts[..i], budgetPaths)
      invariant severities == CollapsedSeverities(ts[..i], budgetPaths)
      invariant severityStats == Histogram(severities)
    {
      assert ts[..i + 1][..i] == ts[..i];
      collapsable, severityStats, severities :=
        CollapseTemplate(ts[i], budgetPaths, collapsable, severityStats, severities);
    }
    assert ts[..|ts|] == ts;
  }

  /** A qualifying request exists exactly when the count is positive. */
  lemma {:induction false} QualifyingCountPositive(rs: seq<Request>, budgetPaths: seq<string>)
    ensures QualifyingCount(rs, budgetPaths) > 0
        <==> exists r :: r in rs && !r.raw && WithinBudget(r.path, budgetPaths)
  {
    if rs != [] {
      var rs', last := rs[..|rs| - 1], rs[|rs| - 1];
      assert rs == rs' + [last];
      QualifyingCountPositive(rs', budgetPaths);
      if QualifyingCount(rs', budgetPaths) > 0 {
        var r :| r in rs' && !r.raw && WithinBudget(r.path, budgetPaths);
        assert r in rs;
      }
    }
  }

  /** Soundness: every collapsed file belongs to a template of the corpus whose
      non-raw requests are all simple GETs and of which some non-raw request
      has all its paths within the budget. A template without non-raw requests
      is never collapsed. */
  lemma {:induction false} CollapsedSound(ts: seq<Template>, budgetPaths: seq<string>, f: string)
    requires f in CollapsedFiles(ts, budgetPaths)
    ensures exists t :: && t in ts && t.file == f
                        && AllSimpleGet(t.requests)
                        && exists r :: r in t.requests && !r.raw && WithinBudget(r.path, budgetPaths)
  {
    var ts', t := ts[..|ts| - 1], ts[|ts| - 1];
    assert ts == ts' + [t];
    if f in CollapsedFiles(ts', budgetPaths) {
      CollapsedSound(ts', budgetPaths, f);
      var u :| && u in ts' && u.file == f && AllSimpleGet(u.requests)
               && exists r :: r in u.requests && !r.raw && WithinBudget(r.path, budgetPaths);
      assert u in ts;
    } else {
      assert Appends(t, budgetPaths) > 0;
      QualifyingCountPositive(t.requests, budgetPaths);
    }
  }

  /** Completeness: a template of the corpus whose non-raw requests are all
      simple GETs and which has a non-raw request within the budget is
      collapsed. */
  lemma {:induction false} CollapsedComplete(ts: seq<Template>, budgetPaths: seq<string>, t: Template)
    requires t in ts && AllSimpleGet(t.requests)
    requires exists r :: r in t.requests && !r.raw && WithinBudget(r.path, budgetPaths)
    ensures t.file in CollapsedFiles(ts, budgetPaths)
  {
    var ts', last := ts[..|ts| - 1], ts[|ts| - 1];
    assert ts == ts' + [last];
    if t == last {
      QualifyingCountPositive(t.requests, budgetPaths);
      assert Repeat(t.file, Appends(t, budgetPaths))[0] == t.file;
    } else {
      CollapsedComplete(ts', budgetPaths, t);
    }
  }

  /** When file names are distinct (each file is found once), a template's
      file occurs in the list once per qualifying request if all its non-raw
      requests are simple GETs, and not at all otherwise. */
  lemma {:induction false} CollapsedMultiplicity(ts: seq<Template>, budgetPaths: seq<string>, k: nat)
    requires forall i, j :: 0 <= i < j < |ts| ==> ts[i].file != ts[j].file
    requires k < |ts|
    ensures multiset(CollapsedFiles(ts, budgetPaths))[ts[k].file]
         == if AllSimpleGet(ts[k].requests) then QualifyingCount(ts[k].requests, budgetPaths) else 0
  {
    var n := |ts|;
    var ts', last := ts[..n - 1], ts[n - 1];
    assert ts == ts' + [last];
    var f := ts[k].file;
    var rest := Repeat(last.file, Appends(last, budgetPaths));
    assert multiset(CollapsedFiles(ts, budgetPaths))
        == multiset(CollapsedFiles(ts', budgetPaths)) + multiset(rest);
    if k == n - 1 {
      CollapsedAbsent(ts', budgetPaths, f);
      assert multiset(rest)[f] == |rest| by {
        assert rest == Repeat(f, |rest|);
        RepeatCount(f, |rest|);
      }
    } else {
      CollapsedMultiplicity(ts', budgetPaths, k);
      assert ts'[k] == ts[k];
      assert last.file != f;
      assert f !in rest;
    }
  }

  /** A file that no template of ts carries is never collapsed. */
  lemma {:induction false} CollapsedAbsent(ts: seq<Template>, budgetPaths: seq<string>, f: string)
    requires forall i :: 0 <= i < |ts| ==> ts[i].file != f
    ensures f !in CollapsedFiles(ts, budgetPaths)
  {
    if ts != [] {
      CollapsedAbsent(ts[..|ts| - 1], budgetPaths, f);
    }
  }

  lemma {:induction false} RepeatCount<T>(x: T, n: nat)
    ensures multiset(Repeat(x, n))[x] == n
  {
    if n > 0 {
      assert Repeat(x, n) == Repeat(x, n - 1) + [x];
      RepeatCount(x, n - 1);
    }
  }

  lemma {:induction false} CollapsedLengths(ts: seq<Template>, budgetPaths: seq<string>)
    ensures |CollapsedSeverities(ts, budgetPaths)| == |CollapsedFiles(ts, budgetPaths)|
  {
    if ts != [] {
      CollapsedLengths(ts[..|ts| - 1], budgetPaths);
    }
  }

  /** Each entry of the severity tally comes from the template whose file
      was appended at the same position. */
  lemma {:induction false} CollapsedSeverityMatches(ts: seq<Template>, budgetPaths: seq<string>, k: nat)
    requires k < |CollapsedFiles(ts, budgetPaths)|
    ensures k < |CollapsedSeverities(ts, budgetPaths)|
    ensures exists t :: && t in ts
                        && t.file == CollapsedFiles(ts, budgetPaths)[k]
                        && t.severity == CollapsedSeverities(ts, budgetPaths)[k]
  {
    CollapsedLengths(ts, budgetPaths);
    var ts', t := ts[..|ts| - 1], ts[|ts| - 1];
    assert ts == ts' + [t];
    CollapsedLengths(ts', budgetPaths);
    if k < |CollapsedFiles(ts', budgetPaths)| {
      CollapsedSeverityMatches(ts', budgetPaths, k);
      var u :| && u in ts'
               && u.file == CollapsedFiles(ts', budgetPaths)[k]
               && u.severity == CollapsedSeverities(ts', budgetPaths)[k];
      assert u in ts;
    } else {
      assert t in ts;
    }
  }

  /** Every append is paired with one increment: the tally's counts add up to
      the length of the list (the "Loaded [N] templates" figure). */
  lemma SeverityTotal(ts: seq<Template>, budgetPaths: seq<string>)
    ensures MapSum(Histogram(CollapsedSeverities(ts, budgetPaths))) == |CollapsedFiles(ts, budgetPaths)|
  {
    HistogramTotal(CollapsedSeverities(ts, budgetPaths));
    CollapsedLengths(ts, budgetPaths);
  }

  /** The budget calculation over an already parsed corpus (the directory walk
      and YAML parsing are not modelled). */
  class NucleiBudget {
    const templates: seq<Template>
    const budgetPaths: seq<string>
    const collapsableTemplates: seq<string>
    const severityStats: map<Option<string>, nat>

    ghost predicate Valid()
    {
      && collapsableTemplates == CollapsedFiles(templates, budgetPaths)
      && severityStats == Histogram(CollapsedSeverities(templates, budgetPaths))
    }

    constructor (budget: nat, templates: seq<Template>)
      ensures Valid()
      ensures this.templates == templates
      ensures budgetPaths == PathBudget.BudgetPaths(templates, budget)
    {
      this.templates := templates;
      var paths := PathBudget.FindBudgetPaths(templates, budget);
      var files, stats := FindCollapsableTemplates(templates, paths);
      budgetPaths := paths;
      collapsableTemplates := files;
      severityStats := stats;
    }
  }

  /** The figure reported after the calculation, the sum of the severity
      counts, is the number of entries in the template list. */
  lemma LoadedCount(b: NucleiBudget)
    requires b.Valid()
    ensures MapSum(b.severityStats) == |b.collapsableTemplates|
  {
    SeverityTotal(b.templates, b.budgetPaths);
  }
}
