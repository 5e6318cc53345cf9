/**
 * What the module does with nuclei's JSON output and with the events of a
 * batch: turning each decoded result line into a (severity, template, host,
 * name) finding (bbot/modules/deadly/nuclei.py:181-204), finding the event a
 * result belongs to (134-138) and the VULNERABILITY events emitted for a
 * batch (116-132).
 */
module Results {
  import opened Collections

  /** The `info` object of a result line. An absent or empty `name` or
      `severity` is the empty string: both are falsy and take the same branch
      below. A null `info` or a null `severity` is not represented: the source
      raises on either. */
  datatype Info = Info(name: string, severity: string)

  /** One decoded result line; `info` is None when the key is absent. */
  datatype Record = Record(templateId: string, matcherName: string, info: Option<Info>, host: string)

  /** The tuple yielded for a usable result. */
  datatype Finding = Finding(severity: string, template: string, host: string, name: string)

  predicate IsLower(c: char)
  {
    'a' <= c <= 'z'
  }

  function UpperChar(c: char): (u: char)
    ensures !IsLower(u)
    ensures !IsLower(c) ==> u == c
    ensures IsLower(c) ==> 'A' <= u <= 'Z' && u as int + 32 == c as int
  {
    if IsLower(c) then (c as int - 32) as char else c
  }

  /** `str.upper()` restricted to ASCII letters. */
  function Upper(s: string): (r: string)
    ensures |r| == |s|
    ensures forall i :: 0 <= i < |r| ==> !IsLower(r[i]) && (!IsLower(s[i]) ==> r[i] == s[i])
    ensures forall i :: 0 <= i < |s| && IsLower(s[i]) ==> r[i] as int == s[i] as int - 32
  {
    seq(|s|, i requires 0 <= i < |s| => UpperChar(s[i]))
  }

  function InfoName(rec: Record): string
  {
    match rec.info
    case None => ""
    case Some(info) => info.name
  }

  function InfoSeverity(rec: Record): string
  {
    match rec.info
    case None => ""
    case Some(info) => info.severity
  }

  /** The name reported for a result: the matcher name, falling back to the
      template's own name when the matcher name is empty. */
  function ResultName(rec: Record): (name: string)
    ensures rec.matcherName != "" ==> name == rec.matcherName
    ensures rec.matcherName == "" ==> name == InfoName(rec)
    ensures name == "" <==> rec.matcherName == "" && InfoName(rec) == ""
  {
    if rec.matcherName != "" then rec.matcherName else InfoName(rec)
  }

  /** One decoded line: a finding exactly when template id, name, severity and
      host are all non-empty; the severity is upper-cased. */
  function ExtractFinding(rec: Record): (r: Option<Finding>)
    ensures r.Some? <==> && rec.templateId != "" && rec.host != "" && InfoSeverity(rec) != ""
                         && (rec.matcherName != "" || InfoName(rec) != "")
    ensures r.Some? ==> && r.value.template == rec.templateId
                        && r.value.host == rec.host
                        && r.value.name == ResultName(rec)
                        && r.value.severity == Upper(InfoSeverity(rec))
  {
    var name := ResultName(rec);
    var severity := Upper(InfoSeverity(rec));
    if rec.templateId != "" && name != "" && severity != "" && rec.host != "" then
      Some(Finding(severity, rec.templateId, rec.host, name))
    else
      None
  }

  /** The findings yielded for nuclei's output, one entry per line: None for a
      line that does not decode as JSON. */
  function ExtractResults(lines: seq<Option<Record>>): seq<Finding>
  {
    if lines == [] then []
    else
      var line := lines[|lines| - 1];
      ExtractResults(lines[..|lines| - 1])
        + match line
          case None => []
          case Some(rec) => (match ExtractFinding(rec) case None => [] case Some(f) => [f])
  }

  lemma {:induction false} ExtractResultsConcat(a: seq<Option<Record>>, b: seq<Option<Record>>)
    ensures ExtractResults(a + b) == ExtractResults(a) + ExtractResults(b)
    decreases |b|
  {
    if b == [] {
      assert a + b == a;
    } else {
      var b' := b[..|b| - 1];
      assert (a + b)[..|a + b| - 1] == a + b';
      ExtractResultsConcat(a, b');
    }
  }

  /** A line that does not decode is skipped without effect on the rest. */
  lemma SkipsUndecodable(a: seq<Option<Record>>, b: seq<Option<Record>>)
    ensures ExtractResults(a + [None] + b) == ExtractResults(a + b)
  {
    ExtractResultsConcat(a + [None], b);
    ExtractResultsConcat(a, b);
    assert (a + [None])[..|a|] == a;
  }

  /** Every finding comes from some decoded line of the output. */
  lemma {:induction false} ExtractSound(lines: seq<Option<Record>>, f: Finding)
    requires f in ExtractResults(lines)
    ensures exists rec :: Some(rec) in lines && ExtractFinding(rec) == Some(f)
  {
    var p, line := lines[..|lines| - 1], lines[|lines| - 1];
    assert lines == p + [line];
    if f in ExtractResults(p) {
      ExtractSound(p, f);
      var rec :| Some(rec) in p && ExtractFinding(rec) == Some(f);
      assert Some(rec) in lines;
    }
  }

  /** Every usable decoded line yields its finding. */
  lemma {:induction false} ExtractComplete(lines: seq<Option<Record>>, rec: Record)
    requires Some(rec) in lines && ExtractFinding(rec).Some?
    ensures ExtractFinding(rec).value in ExtractResults(lines)
  {
    var p, line := lines[..|lines| - 1], lines[|lines| - 1];
    assert lines == p + [line];
    if line != Some(rec) {
      ExtractComplete(p, rec);
    }
  }

  /** At most one finding per output line. */
  lemma {:induction false} ExtractResultsLength(lines: seq<Option<Record>>)
    ensures |ExtractResults(lines)| <= |lines|
  {
    if lines != [] {
      ExtractResultsLength(lines[..|lines| - 1]);
    }
  }

  /** A scan target: its data (what is fed to nuclei) and its host. */
  datatype Event = Event(data: string, host: string)

  datatype Vulnerability = Vulnerability(
    severity: string,
    host: string,
    url: string,
    description: string,
    source: Event)

  function Description(template: string, name: string): string
  {
    "template: " + template + ", name: " + name
  }

  /** The first event of the batch that contains the host, if any; `contains`
      stands for the event's `in` test. */
  function FirstContaining(events: seq<Event>, host: string, contains: (string, Event) -> bool)
    : (r: Option<Event>)
    ensures r.None? <==> forall i :: 0 <= i < |events| ==> !contains(host, events[i])
    ensures r.Some? ==> exists i :: && 0 <= i < |events| && events[i] == r.value
                                    && contains(host, events[i])
                                    && forall j :: 0 <= j < i ==> !contains(host, events[j])
  {
    if events == [] then None
    else if contains(host, events[0]) then Some(events[0])
    else
      var r := FirstContaining(events[1..], host, contains);
      assert forall i :: 1 <= i < |events| ==> events[i] == events[1..][i - 1];
      r
  }

  /** The event emitted for one finding, or None when no event of the batch
      contains its host. */
  function Emission(events: seq<Event>, f: Finding, contains: (string, Event) -> bool)
    : Option<Vulnerability>
  {
    match FirstContaining(events, f.host, contains)
    case None => None
    case Some(e) => Some(Vulnerability(f.severity, e.host, f.host, Description(f.template, f.name), e))
  }

  /** The VULNERABILITY events emitted for a batch, in result order. */
  function Emissions(events: seq<Event>, results: seq<Finding>, contains: (string, Event) -> bool)
    : seq<Vulnerability>
  {
    if results == [] then []
    else
      Emissions(events, results[..|results| - 1], contains)
        + match Emission(events, results[|results| - 1], contains)
          case None => []
          case Some(v) => [v]
  }

  /** Every emitted event belongs to a finding and to the first event of the
      batch containing its host; it carries the finding's severity, the
      finding's host as url, the source event's host and the description
      naming template and matcher. */
  lemma {:induction false} EmissionsSound(events: seq<Event>, results: seq<Finding>,
                                          contains: (string, Event) -> bool, v: Vulnerability)
    requires v in Emissions(events, results, contains)
    ensures exists f :: && f in results
                        && FirstContaining(events, f.host, contains) == Some(v.source)
                        && contains(f.host, v.source) && v.source in events
                        && v.severity == f.severity && v.url == f.host && v.host == v.source.host
                        && v.description == Description(f.template, f.name)
  {
    var p, f := results[..|results| - 1], results[|results| - 1];
    assert results == p + [f];
    if v in Emissions(events, p, contains) {
      EmissionsSound(events, p, contains, v);
      var g :| && g in p
               && FirstContaining(events, g.host, contains) == Some(v.source)
               && contains(g.host, v.source) && v.source in events
               && v.severity == g.severity && v.url == g.host && v.host == v.source.host
               && v.description == Description(g.template, g.name);
      assert g in results;
    }
  }

  /** A finding whose host some event contains is reported, with that finding's
      host as url. */
  lemma {:induction false} EmissionsComplete(events: seq<Event>, results: seq<Finding>,
                                             contains: (string, Event) -> bool, f: Finding, e: Event)
    requires f in results && e in events && contains(f.host, e)
    ensures exists v :: v in Emissions(events, results, contains) && v.url == f.host
                        && v.description == Description(f.template, f.name) && v.severity == f.severity
  {
    var p, last := results[..|results| - 1], results[|results| - 1];
    assert results == p + [last];
    if last == f {
      var i :| 0 <= i < |events| && events[i] == e;
      assert FirstContaining(events, f.host, contains).Some?;
      var v := Emission(events, f, contains).value;
      assert v in Emissions(events, results, contains);
    } else {
      EmissionsComplete(events, p, contains, f, e);
      var v :| v in Emissions(events, p, contains) && v.url == f.host
               && v.description == Description(f.template, f.name) && v.severity == f.severity;
      assert v in Emissions(events, results, contains);
    }
  }

  /** The events emitted for two runs of findings are those of each, in
      order. */
  lemma {:induction false} EmissionsConcat(events: seq<Event>, a: seq<Finding>, b: seq<Finding>,
                                           contains: (string, Event) -> bool)
    ensures Emissions(events, a + b, contains) == Emissions(events, a, contains) + Emissions(events, b, contains)
    decreases |b|
  {
    if b == [] {
      assert a + b == a;
    } else {
      var b' := b[..|b| - 1];
      assert (a + b)[..|a + b| - 1] == a + b';
      assert (a + b)[|a + b| - 1] == b[|b| - 1];
      EmissionsConcat(events, a, b', contains);
    }
  }

  /** One finding emits nothing when no event of the batch contains its host,
      and otherwise exactly its own event. */
  lemma EmissionsSingle(events: seq<Event>, f: Finding, contains: (string, Event) -> bool)
    ensures (forall i :: 0 <= i < |events| ==> !contains(f.host, events[i])) ==>
      Emissions(events, [f], contains) == []
    ensures (exists i :: 0 <= i < |events| && contains(f.host, events[i])) ==>
      Emissions(events, [f], contains) == [Emission(events, f, contains).value]
  {
    assert [f][..0] == [];
  }

  /** An uncorrelated finding inside a batch adds nothing, whatever surrounds
      it (the `continue` of line 122). */
  lemma EmissionsSkipUncorrelated(events: seq<Event>, a: seq<Finding>, f: Finding, b: seq<Finding>,
                                  contains: (string, Event) -> bool)
    requires forall i :: 0 <= i < |events| ==> !contains(f.host, events[i])
    ensures Emissions(events, a + [f] + b, contains) == Emissions(events, a + b, contains)
  {
    EmissionsConcat(events, a + [f], b, contains);
    EmissionsConcat(events, a, [f], contains);
    EmissionsConcat(events, a, b, contains);
    EmissionsSingle(events, f, contains);
  }

  /** A correlated finding inside a batch adds exactly its own event, at its
      place in finding order. */
  lemma EmissionsAddCorrelated(events: seq<Event>, a: seq<Finding>, f: Finding, b: seq<Finding>,
                               contains: (string, Event) -> bool)
    requires exists i :: 0 <= i < |events| && contains(f.host, events[i])
    ensures Emission(events, f, contains).Some?
    ensures Emissions(events, a + [f] + b, contains)
      == Emissions(events, a, contains) + [Emission(events, f, contains).value] + Emissions(events, b, contains)
  {
    EmissionsConcat(events, a + [f], b, contains);
    EmissionsConcat(events, a, [f], contains);
    EmissionsSingle(events, f, contains);
  }

  /** Results that no event of the batch contains emit nothing. */
  lemma {:induction false} EmissionsUncorrelated(events: seq<Event>, results: seq<Finding>,
                                                 contains: (string, Event) -> bool)
    requires forall k, i :: 0 <= k < |results| && 0 <= i < |events| ==> !contains(results[k].host, events[i])
    ensures Emissions(events, results, contains) == []
  {
    if results != [] {
      EmissionsUncorrelated(events, results[..|results| - 1], contains);
    }
  }

  /** When every result is correlated, each emits exactly its own event, in
      order. */
  lemma {:induction false} EmissionsAllCorrelated(events: seq<Event>, results: seq<Finding>,
                                                  contains: (string, Event) -> bool)
    requires forall k :: 0 <= k < |results| ==> exists i :: 0 <= i < |events| && contains(results[k].host, events[i])
    ensures |Emissions(events, results, contains)| == |results|
    ensures forall k :: 0 <= k < |results| ==>
      && Emission(events, results[k], contains).Some?
      && Emissions(events, results, contains)[k] == Emission(events, results[k], contains).value
  {
    if results != [] {
      var p, f := results[..|results| - 1], results[|results| - 1];
      assert forall k :: 0 <= k < |p| ==> p[k] == results[k];
      EmissionsAllCorrelated(events, p, contains);
      assert FirstContaining(events, f.host, contains).Some?;
      var before := Emissions(events, p, contains);
      var v := Emission(events, f, contains).value;
      assert Emissions(events, results, contains) == before + [v];
      forall k | 0 <= k < |results|
        ensures Emission(events, results[k], contains).Some?
        ensures (before + [v])[k] == Emission(events, results[k], contains).value
      {
        if k < |p| {
          assert (before + [v])[k] == before[k];
        }
      }
    }
  }
}
