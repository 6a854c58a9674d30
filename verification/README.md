# jiraq timeline rendering, modelled in Dafny

`jiraq` searches an issue tracker and prints, for each issue found, a header line
`key,summary` followed by one line `,<time>,<new status>` for every change of the
`status` field in the issue's changelog. The time is the history entry's creation
instant converted to a zone chosen on the command line. This project models the
part of `run` that does this (main.go, lines 52-73): the zone-load guard, the walk
over the search results, the walk over each changelog, the `status` filter, the
line format and the abort on a creation time that does not parse. The zone is
loaded only after the search has returned (main.go:44, then main.go:52), so an
unknown zone ends the run before any line is printed but after the search.

## Layout

- `wrappers.dfy` — `Option` and `Result`.
- `jira.dfy` — the search result as the renderer sees it: `Issue` (key, summary,
  optional changelog), `History` (parsed or malformed creation time, items),
  `Item` (field, new value as text), and status counts used as references.
- `render.dfy` — the functional model. `Output` is what has been printed so far
  plus an optional error: the program prints as it goes, so on a bad timestamp the
  header and the earlier entries' lines have already been printed (main.go:57 and
  main.go:67 run before main.go:62 returns). Each element of `Output.lines` is
  the text of one `Printf` call; key, summary and status are printed unescaped, so
  one element can span several text lines, and the line counts below count
  printed records. `Stream` is the shared shape of the two loops that can
  fail. `Run` is the whole guarded loop; `Stdout` adds the newlines.
- `properties.dfy` — how the output composes: appending inputs appends outputs,
  non-status items vanish, the first bad timestamp cuts the output exactly there,
  and line counts.
- `staged.dfy` — an independent two-stage reading (extract status events, then
  render a block per issue), proved to print the same lines and fail the same way.
- `loop.dfy` — the three nested loops written imperatively, proved equal to `Run`.
- `scenarios.dfy` — concrete runs stated on the printed records;
  `EmptyChangelogScenario` also on the text with its newline. Where the formatter
  is not fixed, the timestamp stays `fmt(t, loc)`.

External behaviour enters as parameters: `time.LoadLocation` is a `Loader`
(`string -> Result<Location, string>`), `created.In(loc).String()` is a
`Formatter` (`(Instant, Location) -> string`), and `history.CreatedTime()` is
represented by the `Created` value of a history (`Parsed(instant)` or
`Malformed(cause)`).

## Model

| member | source | states |
|---|---|---|
| Render.Message | main.go:52-63 | the zone error reads `could not load the location: ` then the cause; the timestamp error reads `invalid created time of issue `, then the issue key, then `: ` and the cause |
| Render.MessageKindsDiffer | main.go:52-63 | a zone error and a timestamp error never produce the same text |
| Render.MessageDeterminesCause | main.go:60-63 | for one issue key, the timestamp message determines the cause it reports |
| Render.HeaderLine | main.go:57 | the header is the key, a comma, then the summary unchanged |
| Render.EventLine | main.go:67 | an event line is an empty field, the zone-local time and the new status, comma-joined: it starts with `,<time>,` and the rest is the status text unchanged |
| Render.ItemLines | main.go:65-69 | one line per item whose field is `status`, none for other items; every line carries the entry's time |
| Render.HistoryLines | main.go:60-68 | an entry fails exactly when its creation time did not parse, then with an error naming the issue key and the parser's cause and printing nothing; otherwise it prints one line per status item |
| Render.StreamOutcome | main.go:59-63 | a walk fails exactly when one of its steps fails, and then with the error of a step it ran |
| Render.HistoriesLines | main.go:59-70 | a changelog walk succeeds exactly when every creation time parses; its error always names the issue key |
| Render.IssueLines | main.go:57-71 | the header `key,summary` is the first line; an absent changelog prints only the header and is no error; the issue fails exactly when one of its creation times does not parse, naming its key |
| Render.RenderIssues | main.go:56-73 | rendering all issues succeeds exactly when every issue's timestamps parse; any error is a malformed timestamp |
| Render.Stdout | main.go:57-67 | a single record is written as its text followed by one newline; the text ends in a newline whenever anything was printed |
| Properties.StdoutRecordAt | main.go:57-67 | every record is written verbatim with its newline, between the texts of the records before and after it |
| Properties.StdoutAppend | main.go:56-72 | printing two runs of records one after the other writes the two texts concatenated |
| Properties.StdoutNewlines | main.go:57-67 | when no printed record contains a newline, the text has exactly one newline per printed record |
| Render.Run | main.go:52-73 | an unloadable zone fails before any line is printed; the run succeeds exactly when the zone loads and every timestamp parses |
| Properties.ItemLinesAppend | main.go:65-69 | items are handled one by one in order: the lines of `a + b` are those of `a` followed by those of `b` |
| Properties.NonStatusItemIgnored | main.go:66 | an item of any other field, anywhere in an entry, changes nothing in the output |
| Properties.StatusItemPlaced | main.go:65-68 | a status item prints exactly one line with its value, placed after the lines of the items before it; no deduplication |
| Properties.StreamAppend | main.go:56-72 | a walk over `a + b` whose `a` part succeeds prints `a`'s lines then `b`'s, and ends as `b` does |
| Properties.StreamStopsAtFirstFailure | main.go:60-63 | the first failing step ends a walk: earlier output stays, the failing step's own output and error follow, later steps never run |
| Properties.HistoriesAppend | main.go:59-70 | histories are printed in changelog order, each entry's lines as a contiguous run |
| Properties.HistoriesStopAtFirstBad | main.go:59-63 | at the first unparsable entry the walk stops with the lines of the earlier entries and an error naming the key and the cause |
| Properties.HistoriesLineCount | main.go:59-69 | a fully parsed changelog prints one line per status item across all its entries |
| Properties.IssueLineCount | main.go:57-69 | a clean issue prints its header plus one line per status change |
| Properties.RenderIssuesAppend | main.go:56-72 | issues are printed in search order, each block complete before the next header |
| Properties.RenderIssuesStopAtFirstBad | main.go:56-63 | at the first failing issue, earlier blocks stay complete, that issue's block is cut where it failed, and nothing of later issues is printed |
| Properties.RenderIssuesLineCount | main.go:56-72 | a clean rendering prints one header per issue plus one line per status change |
| Properties.RunLineCount | main.go:52-73 | when the zone loads and every timestamp parses there is no error and the line count is issues plus status changes |
| Properties.RunStopsAtFirstBad | main.go:56-63 | a bad timestamp in history `m` of issue `j` leaves the earlier issues' blocks, issue `j`'s header and its earlier entries' lines, and an error naming issue `j`'s key |
| Staged.EntryEvents | main.go:64-68 | one status event per status item, all at the entry's converted time |
| Staged.Extract | main.go:59-70 | extraction succeeds exactly when every creation time parses, then with one event per status item; failure names the key |
| Staged.ItemLinesAreEvents | main.go:65-68 | an entry's printed lines are exactly the lines of its extracted events, in order |
| Staged.HistoriesLinesAreEvents | main.go:59-70 | a changelog prints exactly the lines of its extracted events, and fails with extraction's error when extraction fails |
| Staged.IssueLinesAreBlock | main.go:57-71 | an issue prints exactly its header followed by its events' lines, or fails with extraction's error |
| Staged.RenderIssuesAreBlocks | main.go:56-72 | rendering all issues prints exactly the concatenated blocks, and fails exactly when and as the staged reading fails |
| Staged.RunIsStaged | main.go:52-73 | the whole run agrees with the staged run, including the zone failure |
| Loop.RunLoop | main.go:52-73 | the imperative loops print exactly the lines of `Run` and end with the same error |
| Loop.IssueLoop | main.go:57-71 | the per-issue loop body prints exactly the issue's block and ends as it does |
| Loop.ItemsLoop | main.go:65-69 | the innermost loop prints exactly the status lines of one entry |
| Scenarios.EmptyChangelogScenario | main.go:57-58 | an issue with an empty changelog writes exactly `ABC-1,Fix bug\n` |
| Scenarios.StatusBesideAssigneeScenario | main.go:64-67 | a status change beside an assignee change writes the header and one event line, nothing for the assignee |
| Scenarios.ChangelogOrderScenario | main.go:59-67 | two entries print in changelog order even when the first is the later instant |
| Scenarios.MalformedEntryScenario | main.go:60-63 | a malformed second entry keeps the header and the first entry's line, and the error message names the key |

## Left out

- Flag parsing and `cmdOptions` (main.go:15-33): plumbing. The zone name is a
  parameter of `Run`. The flag set parses `os.Args` rather than its `osArgs`
  parameter; that has no bearing on the rendering loop.
- The tracker client, basic-auth transport and the search call with its cap of
  100 results (main.go:35-51): network I/O and a foreign library. The search
  result is the `issues` parameter.
- The internals of `time.LoadLocation`, `Time.In`, `Time.String` and
  `history.CreatedTime`: standard library and tracker library code. They are the
  `Loader` and `Formatter` parameters and the `Created` value of each history.
- Issues are taken to carry their fields. The tracker library's `Issue.Fields`
  is a pointer, and a nil one makes main.go:57 panic while the header's
  arguments are evaluated: that issue's header is not printed, the earlier
  blocks stay on standard output and the process dies with a runtime panic
  rather than an error return. The model's `summary` is always present.
- Logging (main.go:43) and the fatal exit in `main` (main.go:76-80).
- Write errors of `fmt.Printf`: the source ignores them, and the model treats
  printing as appending a line.
- Render.Message: the model fixes the error text built by `xerrors.Errorf`
  around the wrapped error, but not the wrapped library error's own text, which
  is an opaque `cause` string.
