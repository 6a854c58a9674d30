/**
 * The rendering loop written the way `run` writes it: three nested loops that
 * append to the printed output as they go and return at the first malformed
 * creation time. It prints exactly the lines of `Render.Run` and ends the same way.
 */
module Loop {
  import opened Wrappers
  import opened Jira
  import opened Render
  import Properties

  /** Lines 52-73 of `run` as written: the zone guard, then the loop over the issues. */
  method RunLoop(tz: string, load: Loader, issues: seq<Issue>, fmt: Formatter)
    returns (lines: seq<string>, err: Option<Error>)
    ensures lines == Run(tz, load, issues, fmt).lines
    ensures err == Run(tz, load, issues, fmt).err
  {
    var loaded := load(tz);
    if loaded.Failure? {
      return [], Some(UnknownTimezone(loaded.error));
    }
    var loc := loaded.value;
    lines := [];
    var i := 0;
    while i < |issues|
      invariant 0 <= i <= |issues|
      invariant IssuesParse(issues[..i])
      invariant lines == RenderIssues(issues[..i], loc, fmt).lines
    {
      var block, failure := IssueLoop(issues[i], loc, fmt);
      if failure.Some? {
        Properties.RenderIssuesStopAtFirstBad(issues, i, loc, fmt);
        return lines + block, failure;
      }
      IssueAdvance(issues, i, loc, fmt);
      lines := lines + block;
      i := i + 1;
    }
    assert issues[..i] == issues;
    return lines, None;
  }

  /** The body of the outer loop: print one issue's header, then walk its changelog. */
  method IssueLoop(issue: Issue, loc: Location, fmt: Formatter) returns (lines: seq<string>, err: Option<Error>)
    ensures lines == IssueLines(issue, loc, fmt).lines
    ensures err == IssueLines(issue, loc, fmt).err
  {
    lines := [HeaderLine(issue)];
    if issue.changelog.None? {
      return lines, None;
    }
    var histories := issue.changelog.value;
    var j := 0;
    while j < |histories|
      invariant 0 <= j <= |histories|
      invariant HistoriesParse(histories[..j])
      invariant lines == [HeaderLine(issue)] + HistoriesLines(issue.key, histories[..j], loc, fmt).lines
    {
      var history := histories[j];
      match history.created
      case Malformed(cause) =>
        Properties.HistoriesStopAtFirstBad(issue.key, histories, j, loc, fmt);
        return lines, Some(MalformedTimestamp(issue.key, cause));
      case Parsed(instant) =>
        var printed := ItemsLoop(fmt(instant, loc), history.items);
        HistoryAdvance(issue.key, histories, j, loc, fmt);
        lines := lines + printed;
        j := j + 1;
    }
    assert histories[..j] == histories;
    return lines, None;
  }

  /** The innermost loop: one line per status item of a history, stamped with its time. */
  method ItemsLoop(stamp: string, items: seq<Item>) returns (lines: seq<string>)
    ensures lines == ItemLines(stamp, items)
  {
    lines := [];
    var k := 0;
    while k < |items|
      invariant 0 <= k <= |items|
      invariant lines == ItemLines(stamp, items[..k])
    {
      var item := items[k];
      Properties.ItemLinesAppend(stamp, items[..k], [item]);
      assert items[..k + 1] == items[..k] + [item];
      if item.field == "status" {
        lines := lines + [EventLine(stamp, item.toString)];
      }
      k := k + 1;
    }
    assert items[..k] == items;
  }

  /** Walking one more parsed history appends that history's item lines. */
  lemma HistoryAdvance(key: string, histories: seq<History>, j: nat, loc: Location, fmt: Formatter)
    requires j < |histories| && HistoriesParse(histories[..j]) && histories[j].created.Parsed?
    ensures HistoriesParse(histories[..j + 1])
    ensures HistoriesLines(key, histories[..j + 1], loc, fmt).lines ==
      HistoriesLines(key, histories[..j], loc, fmt).lines
        + ItemLines(fmt(histories[j].created.instant, loc), histories[j].items)
  {
    assert histories[..j + 1] == histories[..j] + [histories[j]];
    Properties.HistoriesAppend(key, histories[..j], [histories[j]], loc, fmt);
    Properties.StreamUnfold([histories[j]], HistoryStep(key, loc, fmt));
    assert [histories[j]][1..] == [];
  }

  /** Rendering one more clean issue appends that issue's block. */
  lemma IssueAdvance(issues: seq<Issue>, i: nat, loc: Location, fmt: Formatter)
    requires i < |issues| && IssuesParse(issues[..i]) && IssueParses(issues[i])
    ensures IssuesParse(issues[..i + 1])
    ensures RenderIssues(issues[..i + 1], loc, fmt).lines ==
      RenderIssues(issues[..i], loc, fmt).lines + IssueLines(issues[i], loc, fmt).lines
  {
    assert issues[..i + 1] == issues[..i] + [issues[i]];
    Properties.RenderIssuesAppend(issues[..i], [issues[i]], loc, fmt);
    Properties.StreamUnfold([issues[i]], IssueStep(loc, fmt));
    assert [issues[i]][1..] == [];
  }
}
