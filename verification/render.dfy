/**
 * The issue-rendering loop of `run`: after the target zone is loaded, each issue
 * prints a header line `key,summary`, then one line `,<time>,<new status>` for every
 * status change of every history entry, in the order the tracker supplied them.
 * Output is streamed, so an error leaves the lines printed before it in place; the
 * model returns those lines together with the optional error.
 */
module Render {
  import opened Wrappers
  import opened Jira

  /** `created.In(loc).String()`: the zone-local text of an instant. Supplied by the caller. */
  type Formatter = (Instant, Location) -> string

  /** `time.LoadLocation`: a zone name resolved to a location, or the loader's complaint. */
  type Loader = string -> Result<Location, string>

  /** The two ways the rendering part of `run` fails. */
  datatype Error =
    | UnknownTimezone(cause: string)
    | MalformedTimestamp(key: string, cause: string)

  /**
   * What has been printed and how the run ended. Each element of `lines` is the
   * text of one `Printf` call, without its trailing newline. Keys, summaries and
   * statuses are printed unescaped, so an element may itself contain newlines:
   * counts of `lines` count printed records, not text lines.
   */
  datatype Output = Output(lines: seq<string>, err: Option<Error>)

  const LocationPrefix: string := "could not load the location: "
  const CreatedPrefix: string := "invalid created time of issue "

  /** The human-readable text `run` returns for an error. */
  function Message(e: Error): (m: string)
    ensures e.UnknownTimezone? ==> LocationPrefix <= m && m[|LocationPrefix|..] == e.cause
    ensures e.MalformedTimestamp? ==>
      CreatedPrefix + e.key <= m
    ensures e.MalformedTimestamp? ==> m[|CreatedPrefix| + |e.key|..] == ": " + e.cause
  {
    match e
    case UnknownTimezone(cause) => LocationPrefix + cause
    case MalformedTimestamp(key, cause) => CreatedPrefix + key + ": " + cause
  }

  /** The two kinds of error are told apart by their first character. */
  lemma MessageKindsDiffer(e1: Error, e2: Error)
    requires e1.UnknownTimezone? && e2.MalformedTimestamp?
    ensures Message(e1) != Message(e2)
  {
    assert Message(e1)[0] == LocationPrefix[0];
    assert Message(e2)[0] == CreatedPrefix[0];
  }

  /** For a fixed issue key, the timestamp message names one cause only. */
  lemma MessageDeterminesCause(key: string, c1: string, c2: string)
    requires Message(MalformedTimestamp(key, c1)) == Message(MalformedTimestamp(key, c2))
    ensures c1 == c2
  {
    var m := Message(MalformedTimestamp(key, c1));
    var n := |CreatedPrefix| + |key| + 2;
    assert m[n..] == c1;
    assert m[n..] == c2;
  }

  /** The first line of an issue's block. */
  function HeaderLine(issue: Issue): (line: string)
    ensures issue.key + "," <= line && line[|issue.key| + 1..] == issue.summary
  {
    issue.key + "," + issue.summary
  }

  /** What every event line of a history rendered at `stamp` starts with. */
  function EventPrefix(stamp: string): string {
    "," + stamp + ","
  }

  /** One status-change line: an empty first field, the zone-local time, the new status. */
  function EventLine(stamp: string, status: string): (line: string)
    ensures EventPrefix(stamp) <= line && line[|EventPrefix(stamp)|..] == status
  {
    "," + stamp + "," + status
  }

  /** The lines printed for one history entry's items, all stamped with the entry's time. */
  function ItemLines(stamp: string, items: seq<Item>): (r: seq<string>)
    ensures |r| == CountStatus(items)
    ensures forall k :: 0 <= k < |r| ==> EventPrefix(stamp) <= r[k]
  {
    if |items| == 0 then []
    else
      var head := if IsStatus(items[0]) then [EventLine(stamp, items[0].toString)] else [];
      head + ItemLines(stamp, items[1..])
  }

  /**
   * Runs `step` over `xs` in order and joins what each step printed; the first
   * step that fails ends the walk, keeping what it printed before failing. This is
   * the shape of both loops of `run` that can fail: the walk over a changelog and
   * the walk over the search results.
   */
  function Stream<T>(xs: seq<T>, step: T -> Output): Output {
    if |xs| == 0 then Output([], None)
    else
      var first := step(xs[0]);
      if first.err.Some? then first
      else
        var rest := Stream(xs[1..], step);
        Output(first.lines + rest.lines, rest.err)
  }

  /**
   * A stream fails exactly when one of its steps fails, and then with the error of
   * a step it ran.
   */
  lemma {:induction false} StreamOutcome<T>(xs: seq<T>, step: T -> Output)
    ensures Stream(xs, step).err.None? <==> forall i :: 0 <= i < |xs| ==> step(xs[i]).err.None?
    ensures Stream(xs, step).err.Some? ==>
      exists i :: 0 <= i < |xs| && Stream(xs, step).err == step(xs[i]).err
  {
    if |xs| > 0 {
      StreamOutcome(xs[1..], step);
      assert forall i :: 1 <= i < |xs| ==> xs[i] == xs[1..][i - 1];
      if step(xs[0]).err.None? && Stream(xs[1..], step).err.Some? {
        var i :| 0 <= i < |xs[1..]| && Stream(xs[1..], step).err == step(xs[1..][i]).err;
        assert xs[1..][i] == xs[i + 1];
      }
    }
  }

  /**
   * One history entry: the lines of its status items at its zone-local time, or,
   * when its creation time did not parse, nothing and an error naming `key`.
   */
  function HistoryLines(key: string, history: History, loc: Location, fmt: Formatter): (r: Output)
    ensures r.err.None? <==> history.created.Parsed?
    ensures r.err.Some? ==> r.err == Some(MalformedTimestamp(key, history.created.cause)) && r.lines == []
    ensures r.err.None? ==> |r.lines| == CountStatus(history.items)
  {
    match history.created
    case Malformed(cause) => Output([], Some(MalformedTimestamp(key, cause)))
    case Parsed(instant) => Output(ItemLines(fmt(instant, loc), history.items), None)
  }

  /** The changelog walk's step, as a value `Stream` can run. */
  function HistoryStep(key: string, loc: Location, fmt: Formatter): History -> Output {
    history => HistoryLines(key, history, loc, fmt)
  }

  /**
   * The lines printed for an issue's histories, in changelog order; the first entry
   * whose creation time did not parse ends the walk with an error naming `key`.
   */
  function HistoriesLines(key: string, histories: seq<History>, loc: Location, fmt: Formatter): (r: Output)
    ensures r.err.None? <==> HistoriesParse(histories)
    ensures r.err.Some? ==> r.err.value.MalformedTimestamp? && r.err.value.key == key
  {
    StreamOutcome(histories, HistoryStep(key, loc, fmt));
    Stream(histories, HistoryStep(key, loc, fmt))
  }

  /** The block printed for one issue: its header, then its changelog's event lines. */
  function IssueLines(issue: Issue, loc: Location, fmt: Formatter): (r: Output)
    ensures |r.lines| >= 1 && r.lines[0] == HeaderLine(issue)
    ensures issue.changelog.None? ==> r == Output([HeaderLine(issue)], None)
    ensures r.err.None? <==> IssueParses(issue)
    ensures r.err.Some? ==> r.err.value.MalformedTimestamp? && r.err.value.key == issue.key
  {
    match issue.changelog
    case None => Output([HeaderLine(issue)], None)
    case Some(histories) =>
      var body := HistoriesLines(issue.key, histories, loc, fmt);
      Output([HeaderLine(issue)] + body.lines, body.err)
  }

  /** The search-result walk's step, as a value `Stream` can run. */
  function IssueStep(loc: Location, fmt: Formatter): Issue -> Output {
    issue => IssueLines(issue, loc, fmt)
  }

  /**
   * The blocks of `issues` in search order; the first issue that fails stops the
   * rendering, and nothing of the issues after it is printed.
   */
  function RenderIssues(issues: seq<Issue>, loc: Location, fmt: Formatter): (r: Output)
    ensures r.err.None? <==> IssuesParse(issues)
    ensures r.err.Some? ==> r.err.value.MalformedTimestamp?
  {
    StreamOutcome(issues, IssueStep(loc, fmt));
    Stream(issues, IssueStep(loc, fmt))
  }

  /**
   * Lines 52-72 of `run`: load the zone named `tz` (failing before anything is
   * printed), then render every issue the search returned.
   */
  function Run(tz: string, load: Loader, issues: seq<Issue>, fmt: Formatter): (r: Output)
    ensures load(tz).Failure? ==> r == Output([], Some(UnknownTimezone(load(tz).error)))
    ensures r.err.None? <==> load(tz).Success? && IssuesParse(issues)
  {
    match load(tz)
    case Failure(cause) => Output([], Some(UnknownTimezone(cause)))
    case Success(loc) => RenderIssues(issues, loc, fmt)
  }

  /** What reaches standard output: every line followed by a newline. */
  function Stdout(lines: seq<string>): (text: string)
    ensures |text| >= |lines|
    ensures |lines| > 0 ==> text[|text| - 1] == '\n'
    ensures |lines| == 1 ==> text == lines[0] + "\n"
  {
    if |lines| == 0 then "" else lines[0] + "\n" + Stdout(lines[1..])
  }
}
