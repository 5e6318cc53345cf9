/**
 * The `nuclei` module object (bbot/modules/deadly/nuclei.py:9-208): mode
 * resolution in `setup`, the nuclei command line and result reading in
 * `execute_nuclei`, and `correlate_event` / `handle_batch`.
 *
 * The process itself is not modelled: the lines nuclei prints for a batch are
 * a parameter, each already decoded (None for a line that is not JSON).
 */
module Scanner {
  import opened Collections
  import opened Templates
  import PathBudget
  import Collapse
  import opened Results
  import opened Decimal

  /** The module's own options. `budget` is a `nat`: a negative budget makes
      `islice` raise, which is not modelled. */
  datatype ModuleConfig = ModuleConfig(
    templates: string,
    tags: string,
    severity: string,
    ratelimit: int,
    concurrency: int,
    mode: string,
    etags: string,
    budget: nat)

  /** The scan-wide interactsh settings; an absent server or token is "". */
  datatype ScanConfig = ScanConfig(interactshServer: string, interactshToken: string, interactshDisable: bool)

  const Modes: set<string> := {"technology", "severe", "manual", "budget"}

  /** The command-line switches the module passes to nuclei. */
  datatype Flag =
    | Silent | Json | UpdateDirectory | RateLimit | Concurrency | DisableUpdateCheck
    | Severity | Templates | IServer | IToken | ETags | Tags
    | NoInteractsh | AutomaticScan | TemplateList

  function FlagName(f: Flag): string
  {
    match f
    case Silent => "-silent"
    case Json => "-json"
    case UpdateDirectory => "-update-directory"
    case RateLimit => "-rate-limit"
    case Concurrency => "-concurrency"
    case DisableUpdateCheck => "-duc"
    case Severity => "-severity"
    case Templates => "-templates"
    case IServer => "-iserver"
    case IToken => "-itoken"
    case ETags => "-etags"
    case Tags => "-tags"
    case NoInteractsh => "-no-interactsh"
    case AutomaticScan => "-as"
    case TemplateList => "-t"
  }

  /** One element of the command list: a switch, a string, or the integer
      rate limit (passed without conversion). */
  datatype Arg = Switch(flag: Flag) | Str(s: string) | Int(n: int)

  /** The options copied from attributes of the same name (line 157). */
  const CliOptions: seq<Flag> := [Severity, Templates, IServer, IToken, ETags]

  const BaseFlags: set<Flag> := {Silent, Json, UpdateDirectory, RateLimit, Concurrency, DisableUpdateCheck}
  const OptionFlags: set<Flag> := {Severity, Templates, IServer, IToken, ETags}
  const ModeFlags: set<Flag> := {Tags, NoInteractsh, AutomaticScan, TemplateList}

  /** Every switch of the command is one of fs. */
  ghost predicate SwitchesWithin(command: seq<Arg>, fs: set<Flag>)
  {
    forall f :: Switch(f) in command ==> f in fs
  }

  /** Every string or integer after the program name directly follows a
      switch: the command holds no stray value. */
  ghost predicate ValuesFollowSwitches(command: seq<Arg>)
  {
    forall i :: 0 < i < |command| && !command[i].Switch? ==> command[i - 1].Switch?
  }

  /** A part that can be appended without leaving a value stray. */
  ghost predicate SwitchFirst(command: seq<Arg>)
  {
    command == [] || command[0].Switch?
  }

  /** The switch f appears in the command immediately followed by v. */
  ghost predicate Passes(command: seq<Arg>, f: Flag, v: Arg)
  {
    exists i :: 0 <= i < |command| - 1 && command[i] == Switch(f) && command[i + 1] == v
  }

  /** An option with a string value is passed, with that value, exactly when
      the value is non-empty. */
  ghost predicate PassedWhenSet(command: seq<Arg>, f: Flag, value: string)
  {
    && (Switch(f) in command <==> value != "")
    && (value != "" ==> Passes(command, f, Str(value)))
  }

  /** The severities named in the budget summary line (lines 110-112), as
      keys of the severity tally. */
  const SummaryKeys: seq<Option<string>> :=
    [Some("critical"), Some("high"), Some("medium"), Some("low"), Some("info"), Some("unknown")]

  /** The summary as written: each count is read with `severity_stats[key]`,
      which raises KeyError (None here) for a severity that no collapsed
      template has. */
  function SeveritySummaryAsWritten(stats: map<Option<string>, nat>): (r: Option<seq<nat>>)
    ensures r.Some? <==> forall k :: 0 <= k < |SummaryKeys| ==> SummaryKeys[k] in stats
    ensures r.Some? ==> r.value == SeveritySummary(stats)
  {
    if forall k :: 0 <= k < |SummaryKeys| ==> SummaryKeys[k] in stats then
      Some(seq(|SummaryKeys|, k requires 0 <= k < |SummaryKeys| => stats[SummaryKeys[k]]))
    else
      None
  }

  /** The summary as intended: an absent severity counts 0. */
  function SeveritySummary(stats: map<Option<string>, nat>): seq<nat>
  {
    Lookups(stats, SummaryKeys)
  }

  /** A severity that no collapsed template has makes the summary as written
      raise. */
  lemma SeveritySummaryRaises(ts: seq<Template>, budgetPaths: seq<string>, k: nat)
    requires k < |SummaryKeys|
    requires SummaryKeys[k] !in Collapse.CollapsedSeverities(ts, budgetPaths)
    ensures SeveritySummaryAsWritten(Histogram(Collapse.CollapsedSeverities(ts, budgetPaths))).None?
  {
  }

  /** A corpus of one collapsable "high" template: its summary as written
      raises, since "critical" was never counted. */
  lemma SeveritySummaryRaisesExample(budgetPaths: seq<string>)
    ensures var ts := [Template("http/cves/example.yaml", Some("high"),
                                [Request(false, ["{{BaseURL}}"], false, Some("GET"), false, false, false)])];
            SeveritySummaryAsWritten(Histogram(Collapse.CollapsedSeverities(ts, budgetPaths))).None?
  {
    var ts := [Template("http/cves/example.yaml", Some("high"),
                        [Request(false, ["{{BaseURL}}"], false, Some("GET"), false, false, false)])];
    SeveritySummaryRaises(ts, budgetPaths, 0);
  }

  /** The intended summary never fails. It reports, for each named severity,
      how many entries of the collapsed list have it, and its counts add up to
      at most the number of templates loaded. */
  lemma SeveritySummaryCounts(ts: seq<Template>, budgetPaths: seq<string>)
    ensures var sevs := Collapse.CollapsedSeverities(ts, budgetPaths);
            var summary := SeveritySummary(Histogram(sevs));
            && |summary| == |SummaryKeys|
            && (forall k :: 0 <= k < |SummaryKeys| ==> summary[k] == multiset(sevs)[SummaryKeys[k]])
            && Sum(summary) <= |Collapse.CollapsedFiles(ts, budgetPaths)|
  {
    var sevs := Collapse.CollapsedSeverities(ts, budgetPaths);
    var h := Histogram(sevs);
    SummaryKeysDistinct();
    LookupsSumBound(h, SummaryKeys);
    HistogramTotal(sevs);
    Collapse.CollapsedLengths(ts, budgetPaths);
    forall k | 0 <= k < |SummaryKeys|
      ensures SeveritySummary(h)[k] == multiset(sevs)[SummaryKeys[k]]
    {
    }
  }

  lemma SummaryKeysDistinct()
    ensures NoDuplicates(SummaryKeys)
  {
  }

  class Nuclei {
    const config: ModuleConfig
    const scanConfig: ScanConfig
    const toolsDir: string

    var templates: string
    var tags: string
    var etags: string
    var severity: string
    var iserver: string
    var itoken: string
    var nucleiBudget: Collapse.NucleiBudget?
    var budgetTemplatesFile: string
    var severityCounts: seq<nat>

    constructor (config: ModuleConfig, scanConfig: ScanConfig, toolsDir: string)
      ensures this.config == config && this.scanConfig == scanConfig && this.toolsDir == toolsDir
      ensures nucleiBudget == null
    {
      this.config := config;
      this.scanConfig := scanConfig;
      this.toolsDir := toolsDir;
      templates, tags, etags, severity, iserver, itoken := "", "", "", "", "", "";
      nucleiBudget := null;
      budgetTemplatesFile := "";
      severityCounts := [];
    }

    /** `getattr(self, name)` for the options copied by name. */
    function OptionValue(f: Flag): string
      reads this
    {
      match f
      case Severity => severity
      case Templates => templates
      case IServer => iserver
      case IToken => itoken
      case ETags => etags
      case Tags => tags
      case _ => ""
    }

    /** Mode resolution (lines 68-114); `corpus` is the parsed template tree
        and `tempFile` the path of the file written with the collapsed
        template list. The template update run before it is not modelled. */
    method Setup(corpus: seq<Template>, tempFile: string) returns (ok: bool)
      modifies this
      ensures ok <==> config.mode in Modes
      ensures templates == config.templates && etags == config.etags
      ensures iserver == scanConfig.interactshServer && itoken == scanConfig.interactshToken
      ensures tags == if ok && config.mode in {"technology", "severe"} then "" else config.tags
      ensures severity == if ok && config.mode == "severe" then "critical,high" else config.severity
      ensures ok && config.mode == "budget" ==>
        && nucleiBudget != null && fresh(nucleiBudget) && nucleiBudget.Valid()
        && nucleiBudget.templates == corpus
        && nucleiBudget.budgetPaths == PathBudget.BudgetPaths(corpus, config.budget)
        && budgetTemplatesFile == tempFile
        && severityCounts == SeveritySummary(nucleiBudget.severityStats)
      ensures ok && config.mode == "budget" && SeveritySummaryAsWritten(nucleiBudget.severityStats).Some? ==>
        severityCounts == SeveritySummaryAsWritten(nucleiBudget.severityStats).value
      ensures !(ok && config.mode == "budget") ==>
        && nucleiBudget == old(nucleiBudget)
        && budgetTemplatesFile == old(budgetTemplatesFile)
        && severityCounts == old(severityCounts)
    {
      templates := config.templates;
      tags := config.tags;
      etags := config.etags;
      severity := config.severity;
      iserver := scanConfig.interactshServer;
      itoken := scanConfig.interactshToken;

      if config.mode !in Modes {
        return false;
      }
      if config.mode == "technology" {
        tags := "";
      }
      if config.mode == "severe" {
        severity := "critical,high";
        tags := "";
      }
      if config.mode == "budget" {
        var budget := new Collapse.NucleiBudget(config.budget, corpus);
        nucleiBudget := budget;
        budgetTemplatesFile := tempFile;
        severityCounts := SeveritySummary(budget.severityStats);
      }
      return true;
    }

    /** `execute_nuclei`: the command line it runs and the findings it yields
        for the lines nuclei prints. */
    method ExecuteNuclei(lines: seq<Option<Record>>) returns (command: seq<Arg>, results: seq<Finding>)
      ensures CommandLine(command)
      ensures results == ExtractResults(lines)
    {
      command := BuildCommand();
      results := ReadResults(lines);
    }

    /** What the command line passes to nuclei, given the current settings. */
    ghost predicate CommandLine(command: seq<Arg>)
      reads this
    {
      && |command| > 0 && command[0] == Str("nuclei") && ValuesFollowSwitches(command)
      && BasePassed(command) && OptionsPassed(command) && ModePassed(command)
    }

    /** The fixed options: output format, template directory, rate limit and
        concurrency. */
    ghost predicate BasePassed(command: seq<Arg>)
      reads this
    {
      && Switch(Silent) in command && Switch(Json) in command && Switch(DisableUpdateCheck) in command
      && Passes(command, UpdateDirectory, Str(toolsDir + "/nuclei-templates"))
      && Passes(command, RateLimit, Int(config.ratelimit))
      && Passes(command, Concurrency, Str(IntString(config.concurrency)))
    }

    /** The options copied by name, each passed exactly when set. */
    ghost predicate OptionsPassed(command: seq<Arg>)
      reads this
    {
      && PassedWhenSet(command, Severity, severity)
      && PassedWhenSet(command, Templates, templates)
      && PassedWhenSet(command, IServer, iserver)
      && PassedWhenSet(command, IToken, itoken)
      && PassedWhenSet(command, ETags, etags)
    }

    /** Tags, interactsh, and the switches that depend on the mode. */
    ghost predicate ModePassed(command: seq<Arg>)
      reads this
    {
      && PassedWhenSet(command, Tags, tags)
      && (Switch(NoInteractsh) in command <==> scanConfig.interactshDisable)
      && (Switch(AutomaticScan) in command <==> config.mode == "technology")
      && (Switch(TemplateList) in command <==> config.mode == "budget")
      && (config.mode == "budget" ==> Passes(command, TemplateList, Str(budgetTemplatesFile)))
    }

    /** The fixed start of the command (lines 142-155). */
    method BaseCommand() returns (command: seq<Arg>)
      ensures |command| > 0 && command[0] == Str("nuclei") && ValuesFollowSwitches(command)
      ensures BasePassed(command)
      ensures SwitchesWithin(command, BaseFlags)
    {
      command := [
        Str("nuclei"),
        Switch(Silent),
        Switch(Json),
        Switch(UpdateDirectory),
        Str(toolsDir + "/nuclei-templates"),
        Switch(RateLimit),
        Int(config.ratelimit),
        Switch(Concurrency),
        Str(IntString(config.concurrency)),
        Switch(DisableUpdateCheck)
      ];
      assert command[3] == Switch(UpdateDirectory) && command[4] == Str(toolsDir + "/nuclei-templates");
      assert command[5] == Switch(RateLimit) && command[6] == Int(config.ratelimit);
      assert command[7] == Switch(Concurrency) && command[8] == Str(IntString(config.concurrency));
    }

    /** The whole command of lines 142-178. */
    method BuildCommand() returns (command: seq<Arg>)
      ensures CommandLine(command)
    {
      var base := BaseCommand();
      var options := CliOptionArgs();
      var rest := ModeArgs();
      command := base + options + rest;
      BaseKept(base, options, rest);
      OptionsKept(base, options, rest);
      ModeKept(base, options, rest);
      ValuesFollowConcat(base, options);
      ValuesFollowConcat(base + options, rest);
    }

    lemma BaseKept(base: seq<Arg>, options: seq<Arg>, rest: seq<Arg>)
      requires BasePassed(base)
      ensures BasePassed(base + options + rest)
    {
      PassesConcat3(base, options, rest, UpdateDirectory, Str(toolsDir + "/nuclei-templates"));
      PassesConcat3(base, options, rest, RateLimit, Int(config.ratelimit));
      PassesConcat3(base, options, rest, Concurrency, Str(IntString(config.concurrency)));
    }

    lemma OptionsKept(base: seq<Arg>, options: seq<Arg>, rest: seq<Arg>)
      requires OptionsPassed(options)
      requires SwitchesWithin(base, BaseFlags) && SwitchesWithin(rest, ModeFlags)
      ensures OptionsPassed(base + options + rest)
    {
      PassedWhenSetConcat(base, options, rest, Severity, severity);
      PassedWhenSetConcat(base, options, rest, Templates, templates);
      PassedWhenSetConcat(base, options, rest, IServer, iserver);
      PassedWhenSetConcat(base, options, rest, IToken, itoken);
      PassedWhenSetConcat(base, options, rest, ETags, etags);
    }

    lemma ModeKept(base: seq<Arg>, options: seq<Arg>, rest: seq<Arg>)
      requires ModePassed(rest)
      requires SwitchesWithin(base, BaseFlags) && SwitchesWithin(options, OptionFlags)
      ensures ModePassed(base + options + rest)
    {
      PassedWhenSetConcat(base + options, rest, [], Tags, tags);
      assert base + options + rest + [] == base + options + rest;
      PassesConcat3(base, options, rest, TemplateList, Str(budgetTemplatesFile));
    }

    /** The loop of lines 157-162: each option copied by name, when set. */
    method CliOptionArgs() returns (options: seq<Arg>)
      ensures OptionsPassed(options)
      ensures SwitchesWithin(options, OptionFlags)
      ensures ValuesFollowSwitches(options) && SwitchFirst(options)
    {
      options := [];
      for k := 0 to |CliOptions|
        invariant forall j :: 0 <= j < k ==> PassedWhenSet(options, CliOptions[j], OptionValue(CliOptions[j]))
        invariant forall f :: Switch(f) in options ==> f in CliOptions[..k]
        invariant ValuesFollowSwitches(options) && SwitchFirst(options)
      {
        var option := OptionValue(CliOptions[k]);
        if option != "" {
          options := AppendOption(options, CliOptions[k], Str(option));
        }
      }
      assert CliOptions[0] == Severity && CliOptions[1] == Templates && CliOptions[2] == IServer;
      assert CliOptions[3] == IToken && CliOptions[4] == ETags;
    }

    /** Lines 164-178: tags, interactsh and the switches that depend on the
        mode. */
    method ModeArgs() returns (rest: seq<Arg>)
      ensures ModePassed(rest)
      ensures SwitchesWithin(rest, ModeFlags)
      ensures ValuesFollowSwitches(rest) && SwitchFirst(rest)
    {
      rest := [];
      var setupTags := tags;
      if setupTags != "" {
        rest := AppendOption(rest, Tags, Str(setupTags));
      }
      if scanConfig.interactshDisable {
        rest := AppendSwitch(rest, NoInteractsh);
      }
      if config.mode == "technology" {
        rest := AppendSwitch(rest, AutomaticScan);
      }
      if config.mode == "budget" {
        rest := AppendOption(rest, TemplateList, Str(budgetTemplatesFile));
      }
    }

    /** `correlate_event`: the first event of the batch containing the host. */
    method CorrelateEvent(events: seq<Event>, host: string, contains: (string, Event) -> bool)
      returns (r: Option<Event>)
      ensures r == FirstContaining(events, host, contains)
    {
      for i := 0 to |events|
        invariant forall j :: 0 <= j < i ==> !contains(host, events[j])
      {
        if contains(host, events[i]) {
          return Some(events[i]);
        }
      }
      return None;
    }

    /** `handle_batch`: the input fed to nuclei is the events' data, and one
        VULNERABILITY is emitted per correlated finding. */
    method HandleBatch(events: seq<Event>, lines: seq<Option<Record>>, contains: (string, Event) -> bool)
      returns (nucleiInput: seq<string>, emitted: seq<Vulnerability>)
      ensures |nucleiInput| == |events| && forall i :: 0 <= i < |events| ==> nucleiInput[i] == events[i].data
      ensures emitted == Emissions(events, ExtractResults(lines), contains)
    {
      nucleiInput := seq(|events|, i requires 0 <= i < |events| => events[i].data);
      var command, results := ExecuteNuclei(lines);
      emitted := [];
      for k := 0 to |results|
        invariant emitted == Emissions(events, results[..k], contains)
      {
        assert results[..k + 1][..k] == results[..k];
        var f := results[k];
        var source := CorrelateEvent(events, f.host, contains);
        if source.Some? {
          var e := source.value;
          emitted := emitted + [Vulnerability(f.severity, e.host, f.host, Description(f.template, f.name), e)];
        }
      }
      assert results[..|results|] == results;
    }
  }

  /** The result-reading loop of lines 180-204 over the decoded lines. */
  method ReadResults(lines: seq<Option<Record>>) returns (results: seq<Finding>)
    ensures results == ExtractResults(lines)
  {
    results := [];
    for i := 0 to |lines|
      invariant results == ExtractResults(lines[..i])
    {
      assert lines[..i + 1][..i] == lines[..i];
      match lines[i]
      case None =>
      case Some(j) =>
        var template := j.templateId;
        var name := j.matcherName;
        if name == "" {
          name := InfoName(j);
        }
        var severity := Upper(InfoSeverity(j));
        var host := j.host;
        if template != "" && name != "" && severity != "" && host != "" {
          results := results + [Finding(severity, template, host, name)];
        }
    }
    assert lines[..|lines|] == lines;
  }

  /** `command.append(flag)`. */
  method AppendSwitch(command: seq<Arg>, f: Flag) returns (command': seq<Arg>)
    ensures command' == command + [Switch(f)]
    ensures ValuesFollowSwitches(command) ==> ValuesFollowSwitches(command')
    ensures SwitchFirst(command) ==> SwitchFirst(command')
    ensures forall g :: Switch(g) in command' <==> Switch(g) in command || g == f
    ensures forall g, w :: Passes(command, g, w) ==> Passes(command', g, w)
  {
    command' := command + [Switch(f)];
    forall g, w | Passes(command, g, w)
      ensures Passes(command', g, w)
    {
      var i :| 0 <= i < |command| - 1 && command[i] == Switch(g) && command[i + 1] == w;
      assert command'[i] == Switch(g) && command'[i + 1] == w;
    }
  }

  /** `command.append(flag); command.append(value)`. */
  method AppendOption(command: seq<Arg>, f: Flag, v: Arg) returns (command': seq<Arg>)
    ensures command' == command + [Switch(f), v]
    ensures Passes(command', f, v)
    ensures ValuesFollowSwitches(command) ==> ValuesFollowSwitches(command')
    ensures SwitchFirst(command) ==> SwitchFirst(command')
    ensures forall g :: Switch(g) in command' <==> Switch(g) in command || g == f || v == Switch(g)
    ensures forall g, w :: Passes(command, g, w) ==> Passes(command', g, w)
  {
    command' := command + [Switch(f), v];
    assert command'[|command|] == Switch(f) && command'[|command| + 1] == v;
    forall g, w | Passes(command, g, w)
      ensures Passes(command', g, w)
    {
      var i :| 0 <= i < |command| - 1 && command[i] == Switch(g) && command[i + 1] == w;
      assert command'[i] == Switch(g) && command'[i + 1] == w;
    }
  }

  /** Appending a part that starts with a switch leaves no value stray. */
  lemma ValuesFollowConcat(a: seq<Arg>, b: seq<Arg>)
    requires ValuesFollowSwitches(a) && ValuesFollowSwitches(b) && SwitchFirst(b)
    ensures ValuesFollowSwitches(a + b)
  {
    forall i | 0 < i < |a + b| && !(a + b)[i].Switch?
      ensures (a + b)[i - 1].Switch?
    {
      if i > |a| {
        assert (a + b)[i] == b[i - |a|] && (a + b)[i - 1] == b[i - 1 - |a|];
      }
    }
  }

  lemma PassesConcat(a: seq<Arg>, b: seq<Arg>, f: Flag, v: Arg)
    ensures Passes(a, f, v) || Passes(b, f, v) ==> Passes(a + b, f, v)
  {
    if Passes(a, f, v) {
      var i :| 0 <= i < |a| - 1 && a[i] == Switch(f) && a[i + 1] == v;
      assert (a + b)[i] == a[i] && (a + b)[i + 1] == a[i + 1];
    } else if Passes(b, f, v) {
      var i :| 0 <= i < |b| - 1 && b[i] == Switch(f) && b[i + 1] == v;
      assert (a + b)[|a| + i] == b[i] && (a + b)[|a| + i + 1] == b[i + 1];
    }
  }

  lemma PassesConcat3(a: seq<Arg>, b: seq<Arg>, c: seq<Arg>, f: Flag, v: Arg)
    ensures Passes(a, f, v) || Passes(b, f, v) || Passes(c, f, v) ==> Passes(a + b + c, f, v)
  {
    PassesConcat(a, b, f, v);
    PassesConcat(a + b, c, f, v);
  }

  /** An option passed by the middle part alone is passed by the whole. */
  lemma PassedWhenSetConcat(a: seq<Arg>, b: seq<Arg>, c: seq<Arg>, f: Flag, value: string)
    requires PassedWhenSet(b, f, value) && Switch(f) !in a && Switch(f) !in c
    ensures PassedWhenSet(a + b + c, f, value)
  {
    PassesConcat3(a, b, c, f, Str(value));
  }
}
