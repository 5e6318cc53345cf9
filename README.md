# nuclei module of bbot, modelled in Dafny

This project models the `nuclei` scan module of bbot
(`bbot/modules/deadly/nuclei.py`) and proves properties of the model. The
module runs the nuclei vulnerability scanner on batches of URL and
TECHNOLOGY events and reports what nuclei finds as VULNERABILITY events.

- **Budget mode** (`NucleiBudget`). Every non-raw request path of the template
  corpus is counted, and the `budget` most frequent paths are kept. A stable
  descending sort ranks them, so ties keep the order of first occurrence.
  `find_collapsable_templates` then lists the templates that can run within
  those paths and tallies their severities.
- **Mode resolution** (`setup`). It copies the options and rejects an unknown
  mode. It then adjusts tags and severity for the technology and severe
  modes, and runs the budget calculation in budget mode.
- **Command line and results** (`execute_nuclei`). It builds the nuclei
  command line from the resolved settings. Each JSON line nuclei prints
  becomes a `(severity, template, host, name)` finding. A line is dropped
  when it does not decode or when one of the four fields is empty.
- **Correlation** (`correlate_event`, `handle_batch`). Each finding is matched
  with the first event of the batch that contains its host. One
  VULNERABILITY is emitted per matched finding.

Files:

- `collections.dfy`: dict and sequence facts. `Distinct` gives the keys of a
  dict in insertion order. `Histogram` gives a counting dict. `MapSum` is the
  sum of a dict's values.
- `templates.dfy`: parsed templates and their requests, and the stream of
  path occurrences the counting loop visits.
- `path_budget.dfy`: `find_budget_paths`.
- `collapse.dfy`: `find_collapsable_templates` and the `NucleiBudget` object.
- `results.dfy`: result extraction, correlation and the emitted events, as
  specification functions.
- `decimal.dfy`: `str()` of an integer, for the `-concurrency` argument.
- `scanner.dfy`: the module object: `setup`, `execute_nuclei`,
  `correlate_event` and `handle_batch`, plus the budget severity summary.

Notes on the code's behaviour, which the model follows:

- `find_collapsable_templates` appends a template once for every non-raw
  request whose paths all lie within the budget. One fitting request is
  enough, and the list can hold a template more than once. The severity
  tally counts each append.
- A raw request does not exclude its template. Raw requests are skipped,
  both when paths are counted and when the shape checks run.
- A template without non-raw requests is never appended, because the loop
  that would append it never runs.
- Budget mode keeps the tag, severity and exclude-tag settings. They are
  passed to nuclei as in manual mode, together with `-t` and the template
  list file.
- Counting is per occurrence. A path listed twice in one request counts twice.

## Model

| member | source | states |
|---|---|---|
| Templates.RequestPathsMembership | bbot/modules/deadly/nuclei.py:236-243 | a path is among the paths yielded for a template exactly when some non-raw request lists it |
| Templates.RawRequestIgnored | bbot/modules/deadly/nuclei.py:239-243 | a raw request contributes no path: removing it leaves the yielded paths unchanged |
| Templates.CorpusPathsMembership | bbot/modules/deadly/nuclei.py:224-227 | a path is visited by the counting loop exactly when some non-raw request of some template lists it |
| PathBudget.CountRequestPaths | bbot/modules/deadly/nuclei.py:227-231 | after the inner loop, the dict's keys are the distinct paths seen so far in first-occurrence order, and each count is that path's number of occurrences |
| PathBudget.CountPathFrequency | bbot/modules/deadly/nuclei.py:223-231 | `path_frequency` holds every path of a non-raw request, keyed in first-occurrence order, with its number of occurrences |
| PathBudget.InsertByCount | bbot/modules/deadly/nuclei.py:233 | inserting one key keeps every element and adds that key once |
| PathBudget.SortByCount | bbot/modules/deadly/nuclei.py:233 | the sort returns a permutation of the dict's keys |
| PathBudget.InsertRanked | bbot/modules/deadly/nuclei.py:233 | one insertion step keeps the order: higher count first, equal counts in key order |
| PathBudget.SortRanked | bbot/modules/deadly/nuclei.py:233 | the sorted keys are in descending count order, with equal counts in first-occurrence order (the sort is stable) |
| PathBudget.RankedNoDuplicates | bbot/modules/deadly/nuclei.py:233 | a sequence in that strict order has no repeated path |
| PathBudget.AheadIsRanksAhead | bbot/modules/deadly/nuclei.py:223-233 | the order on the dict (count, then key position) is the order on the occurrences (count, then first occurrence) |
| PathBudget.CorpusSortRanked | bbot/modules/deadly/nuclei.py:223-233 | the sorted paths of the corpus are in descending count order, with ties in first-occurrence order |
| PathBudget.FindBudgetPaths | bbot/modules/deadly/nuclei.py:222-234 | returns the budget selection of the corpus, whose properties are stated by the next three rows |
| PathBudget.BudgetPathsSize | bbot/modules/deadly/nuclei.py:233-234 | the selection has no duplicates, holds only corpus paths, and has exactly min(budget, number of distinct paths) entries |
| PathBudget.BudgetPathsOrdered | bbot/modules/deadly/nuclei.py:233-234 | the selected paths are in order: more frequent first, and equal counts in first-occurrence order |
| PathBudget.BudgetPathsBeatLeftOut | bbot/modules/deadly/nuclei.py:233-234 | every selected path ranks ahead of every path left out: its count is larger, or equal and it was met first |
| Collapse.ScanRequestShapes | bbot/modules/deadly/nuclei.py:261-284 | `valid` survives the five scans exactly when it was set and every non-raw request has no headers, method "GET", and no max-redirects, redirects or cookie-reuse |
| Collapse.Tally | bbot/modules/deadly/nuclei.py:290-293 | the severity dict after one increment is the counting dict of the severities seen, plus this one |
| Collapse.QualifyingCountSnoc | bbot/modules/deadly/nuclei.py:258-259 | each further non-raw request whose paths are a subset of the budget adds one qualifying request, and any other request adds none |
| Collapse.CollapseTemplate | bbot/modules/deadly/nuclei.py:255-293 | one template is appended, with its severity tallied, once per qualifying request when all its non-raw requests pass the shape checks, and otherwise never |
| Collapse.FindCollapsableTemplates | bbot/modules/deadly/nuclei.py:252-294 | the list is the corpus-order concatenation of each template's appends, and the severity dict counts the severity looked up at each append |
| Collapse.QualifyingCountPositive | bbot/modules/deadly/nuclei.py:258-259 | the number of qualifying requests is positive exactly when some non-raw request has all its paths within the budget |
| Collapse.CollapsedSound | bbot/modules/deadly/nuclei.py:255-287 | a listed file belongs to a template whose non-raw requests are all simple GETs and which has a non-raw request within the budget, so a template without non-raw requests is never listed |
| Collapse.CollapsedComplete | bbot/modules/deadly/nuclei.py:255-287 | every template whose non-raw requests are all simple GETs and which has a non-raw request within the budget is listed |
| Collapse.CollapsedAbsent | bbot/modules/deadly/nuclei.py:287 | only files of the corpus are listed |
| Collapse.CollapsedMultiplicity | bbot/modules/deadly/nuclei.py:258-287 | when file names are distinct, a template is listed once per qualifying request if all its non-raw requests are simple GETs, and not at all otherwise |
| Collapse.CollapsedLengths | bbot/modules/deadly/nuclei.py:286-289 | one severity is looked up for every append |
| Collapse.CollapsedSeverityMatches | bbot/modules/deadly/nuclei.py:286-289 | the k-th tallied severity is that of the template whose file is the k-th list entry |
| Collapse.SeverityTotal | bbot/modules/deadly/nuclei.py:286-293 | the severity counts add up to the length of the list |
| Collapse.NucleiBudget.constructor | bbot/modules/deadly/nuclei.py:212-216 | the object holds the budget selection of its corpus, with the list and tally of the filter over that selection |
| Collapse.LoadedCount | bbot/modules/deadly/nuclei.py:107-108 | the "Loaded [N] templates" figure, the sum of the tally, is the number of list entries |
| Results.UpperChar | bbot/modules/deadly/nuclei.py:198 | an ASCII lower-case letter becomes its upper-case letter; every other character is unchanged |
| Results.Upper | bbot/modules/deadly/nuclei.py:198 | the upper-cased severity has the same length, each lower-case letter becomes its own upper-case letter, no lower-case letter remains, and every other character is kept |
| Results.ResultName | bbot/modules/deadly/nuclei.py:189-196 | the name is the matcher name when that is non-empty and otherwise `info.name`, and it is empty only when both are |
| Results.ExtractFinding | bbot/modules/deadly/nuclei.py:186-204 | a decoded line yields a finding exactly when template id, name, severity and host are all non-empty; the finding carries the template id, the host, the chosen name and the upper-cased severity |
| Results.ExtractResultsConcat | bbot/modules/deadly/nuclei.py:180-204 | the findings of two runs of output lines are the findings of each, in order |
| Results.SkipsUndecodable | bbot/modules/deadly/nuclei.py:181-185 | a line that is not JSON is skipped and changes nothing else |
| Results.ExtractSound | bbot/modules/deadly/nuclei.py:180-202 | every finding comes from a decoded line of the output |
| Results.ExtractComplete | bbot/modules/deadly/nuclei.py:180-202 | every decoded line with all four fields yields its finding |
| Results.ExtractResultsLength | bbot/modules/deadly/nuclei.py:180-202 | there is at most one finding per output line |
| Results.FirstContaining | bbot/modules/deadly/nuclei.py:134-138 | the result is None exactly when no event contains the host; otherwise it is the first such event in batch order |
| Results.EmissionsSound | bbot/modules/deadly/nuclei.py:116-132 | every emitted event comes from a finding and carries that finding's severity and host (as url) and the description "template: T, name: N"; its host is that of its source, which is the first event containing the finding's host |
| Results.EmissionsComplete | bbot/modules/deadly/nuclei.py:116-132 | a finding whose host some event of the batch contains is emitted with its host as url, its severity and its description |
| Results.EmissionsConcat | bbot/modules/deadly/nuclei.py:118-132 | the events emitted for two runs of findings are those of each run, in order |
| Results.EmissionsSingle | bbot/modules/deadly/nuclei.py:119-132 | one finding emits nothing when no event of the batch contains its host, and otherwise exactly its own event |
| Results.EmissionsSkipUncorrelated | bbot/modules/deadly/nuclei.py:119-122 | an uncorrelated finding anywhere in a batch adds nothing: removing it leaves the emitted events unchanged |
| Results.EmissionsAddCorrelated | bbot/modules/deadly/nuclei.py:119-132 | a correlated finding anywhere in a batch adds exactly its own event, between the events of the findings before and after it |
| Results.EmissionsUncorrelated | bbot/modules/deadly/nuclei.py:119-122 | a batch of findings that no event contains emits nothing |
| Results.EmissionsAllCorrelated | bbot/modules/deadly/nuclei.py:119-132 | when every finding is correlated, the k-th emitted event is exactly the k-th finding's own event, and there is one per finding |
| Decimal.NatString | bbot/modules/deadly/nuclei.py:151 | `str()` of a natural number is non-empty digits without a leading zero |
| Decimal.IntString | bbot/modules/deadly/nuclei.py:151 | `str()` of an integer starts with a minus sign exactly when the number is negative |
| Decimal.IntStringRoundTrip | bbot/modules/deadly/nuclei.py:151 | reading back `str(n)` gives n |
| Scanner.SeveritySummaryAsWritten | bbot/modules/deadly/nuclei.py:110-112 | the summary as written is defined only when all six severities are tally keys, and then agrees with the intended summary |
| Scanner.SeveritySummaryRaises | bbot/modules/deadly/nuclei.py:110-112 | when some named severity has no collapsed template, the summary as written raises |
| Scanner.SeveritySummaryRaisesExample | bbot/modules/deadly/nuclei.py:110-112 | for a corpus of one simple GET template of severity "high", the summary as written raises whatever the budget paths are |
| Scanner.SeveritySummaryCounts | bbot/modules/deadly/nuclei.py:107-112 | the intended summary is always defined; it reports, for each of the six named severities, how many list entries have it (0 when none), and its counts add up to at most the "Loaded [N]" figure |
| Scanner.Nuclei.Setup | bbot/modules/deadly/nuclei.py:68-114 | the options are copied, and setup returns false exactly on an unknown mode. Technology and severe modes clear the tags, and severe mode sets the severity to "critical,high". Budget mode builds the budget object for the corpus and the configured budget, keeps the template-list file, and records the corrected severity summary, which equals the summary as written whenever that one is defined |
| Scanner.Nuclei.ExecuteNuclei | bbot/modules/deadly/nuclei.py:140-204 | the command starts with `nuclei`, holds no value that does not follow a switch, and meets all the command-line facts of the next rows; the findings are those extracted from the output lines |
| Scanner.Nuclei.BaseCommand | bbot/modules/deadly/nuclei.py:142-155 | the command runs `nuclei` with -silent, -json and -duc, passes the template directory, the rate limit (unconverted) and `str(concurrency)`, and holds no other switch |
| Scanner.Nuclei.CliOptionArgs | bbot/modules/deadly/nuclei.py:157-162 | -severity, -templates, -iserver, -itoken and -etags are each passed, followed by the value, exactly when the value is non-empty |
| Scanner.Nuclei.ModeArgs | bbot/modules/deadly/nuclei.py:164-178 | -tags is passed with its value exactly when tags are set. -no-interactsh is passed exactly when interactsh is disabled, and -as exactly in technology mode. -t is passed exactly in budget mode, followed by the template-list file |
| Scanner.Nuclei.BuildCommand | bbot/modules/deadly/nuclei.py:142-178 | the assembled command meets every fact of the three rows above, and every value in it directly follows a switch |
| Scanner.ValuesFollowConcat | bbot/modules/deadly/nuclei.py:142-178 | appending a part that starts with a switch to a command without stray values leaves none |
| Scanner.Nuclei.BaseKept | bbot/modules/deadly/nuclei.py:157-178 | appending options keeps what the base command passes |
| Scanner.Nuclei.OptionsKept | bbot/modules/deadly/nuclei.py:142-178 | the copied options are passed exactly when set within the whole command |
| Scanner.Nuclei.ModeKept | bbot/modules/deadly/nuclei.py:142-178 | the mode switches are present exactly when their condition holds within the whole command |
| Scanner.ReadResults | bbot/modules/deadly/nuclei.py:180-204 | the loop over the output lines yields exactly the extracted findings, in order |
| Scanner.AppendOption | bbot/modules/deadly/nuclei.py:161-162 | appending a switch and its value passes that value and keeps everything passed before |
| Scanner.AppendSwitch | bbot/modules/deadly/nuclei.py:171 | appending a switch adds only that switch and keeps everything passed before |
| Scanner.PassedWhenSetConcat | bbot/modules/deadly/nuclei.py:157-167 | an option passed exactly when set in one part is passed exactly when set in the whole, if the other parts lack its switch |
| Scanner.Nuclei.CorrelateEvent | bbot/modules/deadly/nuclei.py:134-138 | returns the first event of the batch that contains the host, or None when there is none |
| Scanner.Nuclei.HandleBatch | bbot/modules/deadly/nuclei.py:116-132 | nuclei's input is the events' data, one line per event, and the emitted events are those the emission rows above describe |

## Findings

| source | as written | input that shows it | evidently intended | confidence | as-written member | corrected member |
|---|---|---|---|---|---|---|
| bbot/modules/deadly/nuclei.py:110-112 | The budget summary line reads `severity_stats['critical']`, `['high']`, `['medium']`, `['low']`, `['info']` and `['unknown']` by indexing. A severity that no collapsed template has raises KeyError and aborts `setup`. | A corpus whose only collapsable template is a GET request of severity "high": the tally is `{"high": 1}`, and the lookup of "critical" raises. The same happens when nothing collapses (an empty tally). | Report 0 for a severity that no collapsed template has | not executed | Scanner.SeveritySummaryRaisesExample | Scanner.SeveritySummaryCounts |

## Left out

- Scanner.Nuclei.Setup: in budget mode it records the corrected summary (`SeveritySummary`) and returns true. It does not model the `KeyError` that line 111 raises when one of the six named severities is not a tally key; that behaviour is modelled separately, by `SeveritySummaryAsWritten` and the Findings row above.

- The template update run at the start of `setup` (lines 55-66) and its stderr checks are not modelled. Neither is the logging throughout.
- The directory walk (`rglob`) and YAML parsing are not modelled. The corpus is given already parsed, in walk order. The `if yf:` guard is always true for a path object and is not modelled.
- `parse_yaml` returning None for an unreadable file makes the source raise; the model assumes every file parses.
- A non-raw request without a `path` key makes `set(None)` raise. A template without an `info` section makes the severity lookup raise. Neither is modelled: every request has a path list, and `Template.severity` is None only when the `severity` key is absent.
- The temporary file holding the template list is a parameter of `Setup` (its path). Writing it is not modelled.
- The nuclei process is not modelled. Running it, feeding it the input and reading its output lines are replaced by a parameter: the output lines, each already decoded (None for a line that is not JSON).
- `json.loads` is not modelled, and neither are records whose fields have unexpected types.
- A result line with `"info": null`, or whose `info.severity` is null, makes lines 196-198 raise (`None.get`, `None.upper()`). That ends the result loop, and with it `handle_batch`, for the rest of the batch. The model does not represent such lines; `Info` holds strings only, and an absent `info` is `None` in `Record`.
- `cleanup` (removing `resume.cfg`) is file-system I/O and is not modelled.
- `host in event` is bbot's event containment test, whose code is outside this file. It is a parameter `contains` of the correlation members.
- Results.Upper: only ASCII letters are upper-cased, where Python's `str.upper` also maps other Unicode letters.
- Option values from the configuration are strings. An absent interactsh server or token (None) is the empty string; both are falsy and take the same branches. Values of other types are not modelled.
- A negative `budget` makes `islice` raise. The model's budget is a natural number.
- The order of keys in `severity_dict` is not observed: the tally is a map.
- The option defaults (lines 17-27) are not modelled; the configuration is a parameter of the module object. Options without effect on the core (`version`) are not modelled.
