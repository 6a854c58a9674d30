/**
 * Concrete runs of the renderer, stated on the printed records; the empty-changelog
 * run is also stated on the text written to standard output, newline included.
 * The zone loader and the time formatter stay parameters: where a scenario does
 * not fix what the formatter returns, the timestamp stays `fmt(t, loc)`.
 */
module Scenarios {
  import opened Wrappers
  import opened Jira
  import opened Render
  import Properties

  /** An issue with an empty changelog prints only its header. */
  lemma EmptyChangelogScenario(tz: string, load: Loader, fmt: Formatter)
    requires load(tz).Success?
    ensures Stdout(Run(tz, load, [Issue("ABC-1", "Fix bug", Some([]))], fmt).lines) == "ABC-1,Fix bug\n"
    ensures Run(tz, load, [Issue("ABC-1", "Fix bug", Some([]))], fmt).err == None
  {
    var issue := Issue("ABC-1", "Fix bug", Some([]));
    var loc := load(tz).value;
    assert HistoriesLines("ABC-1", [], loc, fmt) == Output([], None);
    assert HeaderLine(issue) == "ABC-1,Fix bug";
    assert IssueLines(issue, loc, fmt) == Output(["ABC-1,Fix bug"], None);
    Properties.StreamSingleton(issue, IssueStep(loc, fmt));
    assert Stdout(["ABC-1,Fix bug"]) == "ABC-1,Fix bug\n";
  }

  /** A status change is printed with the formatted time; the assignee change beside it is not. */
  lemma StatusBesideAssigneeScenario(tz: string, load: Loader, fmt: Formatter)
    requires load(tz).Success?
    requires fmt(Instant(1672531200000000000), load(tz).value) == "2023-01-01 00:00:00 +0000 UTC"
    ensures
      var history := History(Parsed(Instant(1672531200000000000)),
                             [Item("status", "In Progress"), Item("assignee", "alice")]);
      var issue := Issue("ABC-2", "Add feature", Some([history]));
      Run(tz, load, [issue], fmt) == Output(["ABC-2,Add feature", ",2023-01-01 00:00:00 +0000 UTC,In Progress"], None)
  {
    var history := History(Parsed(Instant(1672531200000000000)),
                           [Item("status", "In Progress"), Item("assignee", "alice")]);
    var issue := Issue("ABC-2", "Add feature", Some([history]));
    SingleHistoryBlock(issue, load(tz).value, fmt);
    EventText();
  }

  /** The one-issue, one-entry rendering behind `StatusBesideAssigneeScenario`. */
  lemma SingleHistoryBlock(issue: Issue, loc: Location, fmt: Formatter)
    requires issue == Issue("ABC-2", "Add feature", Some([History(Parsed(Instant(1672531200000000000)),
                             [Item("status", "In Progress"), Item("assignee", "alice")])]))
    requires fmt(Instant(1672531200000000000), loc) == "2023-01-01 00:00:00 +0000 UTC"
    ensures RenderIssues([issue], loc, fmt)
      == Output(["ABC-2,Add feature", EventLine("2023-01-01 00:00:00 +0000 UTC", "In Progress")], None)
  {
    var history := issue.changelog.value[0];
    var stamp := "2023-01-01 00:00:00 +0000 UTC";
    var event := EventLine(stamp, "In Progress");
    StatusThenAssignee(stamp);
    Properties.StreamSingleton(history, HistoryStep("ABC-2", loc, fmt));
    assert HistoriesLines("ABC-2", [history], loc, fmt) == Output([event], None);
    assert HeaderLine(issue) == "ABC-2,Add feature";
    assert IssueLines(issue, loc, fmt) == Output(["ABC-2,Add feature", event], None);
    Properties.StreamSingleton(issue, IssueStep(loc, fmt));
  }

  /** The event line of that scenario, spelled out as a literal. */
  lemma EventText()
    ensures EventLine("2023-01-01 00:00:00 +0000 UTC", "In Progress") == ",2023-01-01 00:00:00 +0000 UTC,In Progress"
  {
  }

  /** A status item followed by an assignee item prints the status line only. */
  lemma StatusThenAssignee(stamp: string)
    ensures ItemLines(stamp, [Item("status", "In Progress"), Item("assignee", "alice")])
      == [EventLine(stamp, "In Progress")]
  {
    var items := [Item("status", "In Progress"), Item("assignee", "alice")];
    assert items[1..][1..] == [];
    assert !IsStatus(items[1..][0]);
    assert ItemLines(stamp, items[1..]) == [];
  }

  /** Two entries print in changelog order even when the first is the later instant. */
  lemma ChangelogOrderScenario(tz: string, load: Loader, fmt: Formatter, t1: Instant, t2: Instant)
    requires load(tz).Success?
    requires t1.unixNanos > t2.unixNanos
    ensures
      var issue := Issue("ABC-3", "Reorder", Some([History(Parsed(t1), [Item("status", "wait")]),
                                                   History(Parsed(t2), [Item("status", "Done")])]));
      Run(tz, load, [issue], fmt).lines ==
        ["ABC-3,Reorder",
         EventLine(fmt(t1, load(tz).value), "wait"),
         EventLine(fmt(t2, load(tz).value), "Done")]
  {
    var loc := load(tz).value;
    var h1 := History(Parsed(t1), [Item("status", "wait")]);
    var h2 := History(Parsed(t2), [Item("status", "Done")]);
    var issue := Issue("ABC-3", "Reorder", Some([h1, h2]));
    var e1 := EventLine(fmt(t1, loc), "wait");
    var e2 := EventLine(fmt(t2, loc), "Done");
    assert h1.items[1..] == [] && h2.items[1..] == [];
    assert ItemLines(fmt(t1, loc), h1.items) == [e1];
    assert ItemLines(fmt(t2, loc), h2.items) == [e2];
    assert [h1, h2][1..] == [h2];
    Properties.StreamSingleton(h2, HistoryStep("ABC-3", loc, fmt));
    Properties.StreamUnfold([h1, h2], HistoryStep("ABC-3", loc, fmt));
    assert HistoriesLines("ABC-3", [h1, h2], loc, fmt) == Output([e1, e2], None);
    assert HeaderLine(issue) == "ABC-3,Reorder";
    assert IssueLines(issue, loc, fmt) == Output(["ABC-3,Reorder", e1, e2], None);
    Properties.StreamSingleton(issue, IssueStep(loc, fmt));
  }

  /** A malformed creation time on the second entry keeps the header and the first entry's line. */
  lemma MalformedEntryScenario(tz: string, load: Loader, fmt: Formatter, t1: Instant)
    requires load(tz).Success?
    ensures
      var issue := Issue("ABC-4", "Broken", Some([History(Parsed(t1), [Item("status", "Open")]),
                                                  History(Malformed("bad"), [Item("status", "Done")])]));
      && Run(tz, load, [issue], fmt).lines == ["ABC-4,Broken", EventLine(fmt(t1, load(tz).value), "Open")]
      && Run(tz, load, [issue], fmt).err == Some(MalformedTimestamp("ABC-4", "bad"))
      && Message(Run(tz, load, [issue], fmt).err.value) == "invalid created time of issue ABC-4: bad"
  {
    var h1 := History(Parsed(t1), [Item("status", "Open")]);
    var h2 := History(Malformed("bad"), [Item("status", "Done")]);
    var issue := Issue("ABC-4", "Broken", Some([h1, h2]));
    var loc := load(tz).value;
    var e1 := EventLine(fmt(t1, loc), "Open");
    assert h1.items[1..] == [];
    assert ItemLines(fmt(t1, loc), h1.items) == [e1];
    assert [h1, h2][1..] == [h2];
    Properties.StreamSingleton(h2, HistoryStep("ABC-4", loc, fmt));
    Properties.StreamUnfold([h1, h2], HistoryStep("ABC-4", loc, fmt));
    assert HistoriesLines("ABC-4", [h1, h2], loc, fmt) == Output([e1], Some(MalformedTimestamp("ABC-4", "bad")));
    assert HeaderLine(issue) == "ABC-4,Broken";
    assert IssueLines(issue, loc, fmt) == Output(["ABC-4,Broken", e1], Some(MalformedTimestamp("ABC-4", "bad")));
    Properties.StreamSingleton(issue, IssueStep(loc, fmt));
  }
}
