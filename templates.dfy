/**
 * Nuclei templates as the budget calculation sees them once their YAML has
 * been parsed, and the stream of request paths that the frequency count runs
 * over.
 */
module Templates {
  import opened Collections

  /** One entry of a template's `requests` list. Each boolean is the Python
      truthiness of its key (absent, null, empty and zero are all false);
      `httpMethod` is None when the `method` key is absent. */
  datatype Request = Request(
    raw: bool,
    path: seq<string>,
    headers: bool,
    httpMethod: Option<string>,
    maxRedirects: bool,
    redirects: bool,
    cookieReuse: bool)

  /** One template file: its path, its `info.severity` (None when that key is
      absent) and its requests in file order. */
  datatype Template = Template(file: string, severity: Option<string>, requests: seq<Request>)

  /** The paths of the non-raw requests of rs, in order and with repetitions:
      what `get_yaml_request_attr(yf, "path")` yields, flattened. */
  function RequestPaths(rs: seq<Request>): seq<string>
  {
    if rs == [] then []
    else
      var last := rs[|rs| - 1];
      RequestPaths(rs[..|rs| - 1]) + (if last.raw then [] else last.path)
  }

  /** Every path occurrence the frequency count visits, in visiting order. */
  function CorpusPaths(ts: seq<Template>): seq<string>
  {
    if ts == [] then []
    else CorpusPaths(ts[..|ts| - 1]) + RequestPaths(ts[|ts| - 1].requests)
  }

  lemma RequestPathsSnoc(rs: seq<Request>, j: nat)
    requires j < |rs|
    ensures RequestPaths(rs[..j + 1])
         == RequestPaths(rs[..j]) + (if rs[j].raw then [] else rs[j].path)
  {
    assert rs[..j + 1][..j] == rs[..j];
  }

  lemma CorpusPathsSnoc(ts: seq<Template>, i: nat)
    requires i < |ts|
    ensures CorpusPaths(ts[..i + 1]) == CorpusPaths(ts[..i]) + RequestPaths(ts[i].requests)
  {
    assert ts[..i + 1][..i] == ts[..i];
  }

  lemma {:induction false} RequestPathsConcat(a: seq<Request>, b: seq<Request>)
    ensures RequestPaths(a + b) == RequestPaths(a) + RequestPaths(b)
    decreases |b|
  {
    if b == [] {
      assert a + b == a;
    } else {
      var b' := b[..|b| - 1];
      assert (a + b)[..|a + b| - 1] == a + b';
      RequestPathsConcat(a, b');
    }
  }

  /** A raw request contributes no path: dropping it from the list leaves the
      visited paths unchanged. */
  lemma RawRequestIgnored(rs: seq<Request>, i: nat)
    requires i < |rs| && rs[i].raw
    ensures RequestPaths(rs) == RequestPaths(rs[..i] + rs[i + 1..])
  {
    var a, b := rs[..i], rs[i + 1..];
    var ar := a + [rs[i]];
    assert rs == ar + b;
    assert ar[..|ar| - 1] == a;
    assert RequestPaths(ar) == RequestPaths(a);
    RequestPathsConcat(ar, b);
    RequestPathsConcat(a, b);
  }

  lemma {:induction false} RequestPathsMembership(rs: seq<Request>, p: string)
    ensures p in RequestPaths(rs) <==> exists r :: r in rs && !r.raw && p in r.path
  {
    if rs != [] {
      var rs', last := rs[..|rs| - 1], rs[|rs| - 1];
      assert rs == rs' + [last];
      RequestPathsMembership(rs', p);
      if p in RequestPaths(rs') {
        var r :| r in rs' && !r.raw && p in r.path;
        assert r in rs;
      }
    }
  }

  /** A path is visited exactly when some non-raw request of some template
      lists it. */
  lemma {:induction false} CorpusPathsMembership(ts: seq<Template>, p: string)
    ensures p in CorpusPaths(ts)
        <==> exists t, r :: t in ts && r in t.requests && !r.raw && p in r.path
  {
    if ts != [] {
      var ts', last := ts[..|ts| - 1], ts[|ts| - 1];
      assert ts == ts' + [last];
      CorpusPathsMembership(ts', p);
      RequestPathsMembership(last.requests, p);
      if p in CorpusPaths(ts') {
        var t, r :| t in ts' && r in t.requests && !r.raw && p in r.path;
        assert t in ts;
      }
      if p in RequestPaths(last.requests) {
        var r :| r in last.requests && !r.raw && p in r.path;
        assert last in ts;
      }
    }
  }
}
