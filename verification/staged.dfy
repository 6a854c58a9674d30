/**
 * An independent, two-stage reading of the same behaviour: first extract each
 * issue's status events (time and new status) from its changelog, then render an
 * issue block as its header followed by one line per event. The streaming loop
 * fuses both stages; the lemmas here show the fused loop prints exactly what the
 * stages describe, and fails exactly when extraction fails.
 */
module Staged {
  import opened Wrappers
  import opened Jira
  import opened Render
  import Properties

  /** One status transition: the zone-local time of its entry and the new status. */
  datatype StatusEvent = StatusEvent(stamp: string, status: string)

  /** The status changes among one entry's items, in item order, all at the entry's time. */
  function EntryEvents(stamp: string, items: seq<Item>): (r: seq<StatusEvent>)
    ensures |r| == CountStatus(items)
    ensures forall k :: 0 <= k < |r| ==> r[k].stamp == stamp
  {
    if |items| == 0 then []
    else
      var head := if IsStatus(items[0]) then [StatusEvent(stamp, items[0].toString)] else [];
      head + EntryEvents(stamp, items[1..])
  }

  /**
   * The status events of a changelog, entry by entry in changelog order; an entry
   * whose creation time did not parse makes the whole extraction fail.
   */
  function Extract(key: string, histories: seq<History>, loc: Location, fmt: Formatter): (r: Result<seq<StatusEvent>, Error>)
    ensures r.Success? <==> HistoriesParse(histories)
    ensures r.Success? ==> |r.value| == HistoriesStatus(histories)
    ensures r.Failure? ==> r.error.MalformedTimestamp? && r.error.key == key
  {
    if |histories| == 0 then Success([])
    else
      match histories[0].created
      case Malformed(cause) => Failure(MalformedTimestamp(key, cause))
      case Parsed(instant) =>
        assert HistoriesParse(histories) <==> HistoriesParse(histories[1..]) by {
          if HistoriesParse(histories[1..]) {
            forall k | 0 <= k < |histories| ensures histories[k].created.Parsed? {
              if k > 0 { assert histories[k] == histories[1..][k - 1]; }
            }
          }
        }
        match Extract(key, histories[1..], loc, fmt)
        case Failure(e) => Failure(e)
        case Success(rest) => Success(EntryEvents(fmt(instant, loc), histories[0].items) + rest)
  }

  /** An issue's events; an absent changelog has none. */
  function Timeline(issue: Issue, loc: Location, fmt: Formatter): Result<seq<StatusEvent>, Error> {
    match issue.changelog
    case None => Success([])
    case Some(histories) => Extract(issue.key, histories, loc, fmt)
  }

  /** One line per event, in event order. */
  function EventLines(events: seq<StatusEvent>): seq<string> {
    seq(|events|, k requires 0 <= k < |events| => EventLine(events[k].stamp, events[k].status))
  }

  /** An issue's block: its header, then one line per event. */
  function RenderBlock(issue: Issue, events: seq<StatusEvent>): seq<string> {
    [HeaderLine(issue)] + EventLines(events)
  }

  /** The blocks of all issues in search order, or the first extraction failure. */
  function StagedIssues(issues: seq<Issue>, loc: Location, fmt: Formatter): Result<seq<string>, Error> {
    if |issues| == 0 then Success([])
    else
      match Timeline(issues[0], loc, fmt)
      case Failure(e) => Failure(e)
      case Success(events) =>
        match StagedIssues(issues[1..], loc, fmt)
        case Failure(e) => Failure(e)
        case Success(rest) => Success(RenderBlock(issues[0], events) + rest)
  }

  /** The two-stage run: resolve the zone, then render every issue's block. */
  function StagedRun(tz: string, load: Loader, issues: seq<Issue>, fmt: Formatter): Result<seq<string>, Error> {
    match load(tz)
    case Failure(cause) => Failure(UnknownTimezone(cause))
    case Success(loc) => StagedIssues(issues, loc, fmt)
  }

  /** The lines of two event lists, one after the other, are the two line lists joined. */
  lemma EventLinesAppend(a: seq<StatusEvent>, b: seq<StatusEvent>)
    ensures EventLines(a + b) == EventLines(a) + EventLines(b)
  {
  }

  /** The lines the loop prints for one entry's items are the lines of the entry's events. */
  lemma {:induction false} ItemLinesAreEvents(stamp: string, items: seq<Item>)
    ensures ItemLines(stamp, items) == EventLines(EntryEvents(stamp, items))
  {
    if |items| > 0 {
      ItemLinesAreEvents(stamp, items[1..]);
      var head := if IsStatus(items[0]) then [StatusEvent(stamp, items[0].toString)] else [];
      EventLinesAppend(head, EntryEvents(stamp, items[1..]));
    }
  }

  /**
   * Walking a changelog prints the lines of its extracted events, and fails, with the
   * same error, exactly when extraction fails.
   */
  lemma {:induction false} HistoriesLinesAreEvents(key: string, histories: seq<History>, loc: Location, fmt: Formatter)
    ensures Extract(key, histories, loc, fmt).Success? ==>
      HistoriesLines(key, histories, loc, fmt).lines == EventLines(Extract(key, histories, loc, fmt).value)
    ensures Extract(key, histories, loc, fmt).Failure? ==>
      HistoriesLines(key, histories, loc, fmt).err == Some(Extract(key, histories, loc, fmt).error)
  {
    if |histories| > 0 && histories[0].created.Parsed? {
      var stamp := fmt(histories[0].created.instant, loc);
      HistoriesLinesAreEvents(key, histories[1..], loc, fmt);
      Properties.StreamUnfold(histories, HistoryStep(key, loc, fmt));
      ItemLinesAreEvents(stamp, histories[0].items);
      var rest := Extract(key, histories[1..], loc, fmt);
      if rest.Success? {
        EventLinesAppend(EntryEvents(stamp, histories[0].items), rest.value);
      }
    }
  }

  /**
   * An issue's streamed block is its header followed by its events' lines when
   * extraction succeeds, and carries extraction's error when it fails.
   */
  lemma IssueLinesAreBlock(issue: Issue, loc: Location, fmt: Formatter)
    ensures Timeline(issue, loc, fmt).Success? ==>
      IssueLines(issue, loc, fmt) == Output(RenderBlock(issue, Timeline(issue, loc, fmt).value), None)
    ensures Timeline(issue, loc, fmt).Failure? ==>
      IssueLines(issue, loc, fmt).err == Some(Timeline(issue, loc, fmt).error)
  {
    if issue.changelog.Some? {
      HistoriesLinesAreEvents(issue.key, issue.changelog.value, loc, fmt);
    }
  }

  /**
   * Rendering all issues agrees with the staged reading: the same lines when no
   * timestamp is malformed, the same error otherwise.
   */
  lemma {:induction false} RenderIssuesAreBlocks(issues: seq<Issue>, loc: Location, fmt: Formatter)
    ensures RenderIssues(issues, loc, fmt).err.None? <==> StagedIssues(issues, loc, fmt).Success?
    ensures StagedIssues(issues, loc, fmt).Success? ==>
      RenderIssues(issues, loc, fmt).lines == StagedIssues(issues, loc, fmt).value
    ensures StagedIssues(issues, loc, fmt).Failure? ==>
      RenderIssues(issues, loc, fmt).err == Some(StagedIssues(issues, loc, fmt).error)
  {
    if |issues| > 0 {
      IssueLinesAreBlock(issues[0], loc, fmt);
      RenderIssuesAreBlocks(issues[1..], loc, fmt);
      if IssueParses(issues[0]) {
        Properties.StreamUnfold(issues, IssueStep(loc, fmt));
      }
    }
  }

  /** The whole run agrees with the staged run, including the zone failure. */
  lemma RunIsStaged(tz: string, load: Loader, issues: seq<Issue>, fmt: Formatter)
    ensures Run(tz, load, issues, fmt).err.None? <==> StagedRun(tz, load, issues, fmt).Success?
    ensures StagedRun(tz, load, issues, fmt).Success? ==>
      Run(tz, load, issues, fmt).lines == StagedRun(tz, load, issues, fmt).value
    ensures StagedRun(tz, load, issues, fmt).Failure? ==>
      Run(tz, load, issues, fmt).err == Some(StagedRun(tz, load, issues, fmt).error)
  {
    if load(tz).Success? {
      RenderIssuesAreBlocks(issues, load(tz).value, fmt);
    }
  }
}
