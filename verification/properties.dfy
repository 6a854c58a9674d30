/**
 * How the streamed output of the rendering loop composes: line lists split along
 * item, history and issue boundaries, non-status items vanish, and a failing
 * timestamp cuts the output exactly where it occurs.
 */
module Properties {
  import opened Wrappers
  import opened Jira
  import opened Render

  /** The lines of two runs of items, one after the other, are the two line lists joined. */
  lemma {:induction false} ItemLinesAppend(stamp: string, a: seq<Item>, b: seq<Item>)
    ensures ItemLines(stamp, a + b) == ItemLines(stamp, a) + ItemLines(stamp, b)
  {
    if |a| == 0 {
      assert a + b == b;
    } else {
      assert (a + b)[1..] == a[1..] + b;
      ItemLinesAppend(stamp, a[1..], b);
    }
  }

  /** An item of any field other than `status` prints nothing, wherever it stands. */
  lemma NonStatusItemIgnored(stamp: string, a: seq<Item>, x: Item, b: seq<Item>)
    requires !IsStatus(x)
    ensures ItemLines(stamp, a + [x] + b) == ItemLines(stamp, a + b)
  {
    ItemLinesAppend(stamp, a + [x], b);
    ItemLinesAppend(stamp, a, [x]);
    ItemLinesAppend(stamp, a, b);
    assert [x][1..] == [];
  }

  /**
   * A status item prints exactly one line, stamped with its entry's time and carrying
   * its new value, after the lines of the items before it and before those after it.
   */
  lemma StatusItemPlaced(stamp: string, a: seq<Item>, x: Item, b: seq<Item>)
    requires IsStatus(x)
    ensures ItemLines(stamp, a + [x] + b)
      == ItemLines(stamp, a) + [EventLine(stamp, x.toString)] + ItemLines(stamp, b)
    ensures ItemLines(stamp, a + [x] + b)[CountStatus(a)] == EventLine(stamp, x.toString)
  {
    StatusItemSplit(stamp, a, x, b);
    AfterPrefix(ItemLines(stamp, a), EventLine(stamp, x.toString), ItemLines(stamp, b));
  }

  /** The decomposition half of `StatusItemPlaced`, kept apart so that each proof stays small. */
  lemma StatusItemSplit(stamp: string, a: seq<Item>, x: Item, b: seq<Item>)
    requires IsStatus(x)
    ensures ItemLines(stamp, a + [x] + b)
      == ItemLines(stamp, a) + [EventLine(stamp, x.toString)] + ItemLines(stamp, b)
  {
    ItemLinesAppend(stamp, a + [x], b);
    ItemLinesAppend(stamp, a, [x]);
    StatusItemAlone(stamp, x);
  }

  /** A lone status item prints its one event line. */
  lemma StatusItemAlone(stamp: string, x: Item)
    requires IsStatus(x)
    ensures ItemLines(stamp, [x]) == [EventLine(stamp, x.toString)]
  {
    assert [x][1..] == [];
    assert ItemLines(stamp, [x][1..]) == [];
  }

  /** The element placed right after a prefix sits at the prefix's length. */
  lemma AfterPrefix<T>(p: seq<T>, x: T, q: seq<T>)
    ensures (p + [x] + q)[|p|] == x
  {
  }

  /** One step of a stream whose first step succeeds: that step's lines, then the rest's. */
  lemma StreamUnfold<T>(xs: seq<T>, step: T -> Output)
    requires |xs| > 0 && step(xs[0]).err.None?
    ensures Stream(xs, step).lines == step(xs[0]).lines + Stream(xs[1..], step).lines
    ensures Stream(xs, step).err == Stream(xs[1..], step).err
  {
  }

  /** A stream of one step prints and ends exactly as that step does. */
  lemma StreamSingleton<T>(x: T, step: T -> Output)
    ensures Stream([x], step) == step(x)
  {
    assert [x][1..] == [];
    if step(x).err.None? {
      assert step(x).lines + [] == step(x).lines;
    }
  }

  /** The head and tail of a concatenation whose left part is not empty. */
  lemma ConsAppend<T>(a: seq<T>, b: seq<T>)
    requires |a| > 0
    ensures (a + b)[0] == a[0] && (a + b)[1..] == a[1..] + b
  {
  }

  /** A stream over `a + b` whose `a` part succeeds prints `a`'s lines, then `b`'s, and ends as `b` does. */
  lemma {:induction false} StreamAppend<T>(a: seq<T>, b: seq<T>, step: T -> Output)
    requires forall i :: 0 <= i < |a| ==> step(a[i]).err.None?
    ensures Stream(a + b, step).lines == Stream(a, step).lines + Stream(b, step).lines
    ensures Stream(a + b, step).err == Stream(b, step).err
  {
    if |a| == 0 {
      assert a + b == b;
    } else {
      var tail := a[1..];
      forall i | 0 <= i < |tail| ensures step(tail[i]).err.None? {
        assert tail[i] == a[i + 1];
      }
      StreamAppend(tail, b, step);
      ConsAppend(a, b);
      StreamUnfold(a + b, step);
      StreamUnfold(a, step);
      var first := step(a[0]).lines;
      calc {
        Stream(a + b, step).lines;
        first + Stream(tail + b, step).lines;
        first + (Stream(tail, step).lines + Stream(b, step).lines);
        (first + Stream(tail, step).lines) + Stream(b, step).lines;
        Stream(a, step).lines + Stream(b, step).lines;
      }
    }
  }

  /**
   * The first failing step ends a stream: what the steps before it printed, what it
   * printed itself, and its error; the steps after it are never run.
   */
  lemma StreamStopsAtFirstFailure<T>(xs: seq<T>, step: T -> Output, j: nat)
    requires j < |xs|
    requires forall i :: 0 <= i < j ==> step(xs[i]).err.None?
    requires step(xs[j]).err.Some?
    ensures Stream(xs, step).lines == Stream(xs[..j], step).lines + step(xs[j]).lines
    ensures Stream(xs, step).err == step(xs[j]).err
  {
    assert xs == xs[..j] + xs[j..];
    assert forall i :: 0 <= i < j ==> xs[..j][i] == xs[i];
    StreamAppend(xs[..j], xs[j..], step);
    assert xs[j..][0] == xs[j];
  }

  /** Histories are rendered one after the other: a fully parsed prefix contributes its own lines. */
  lemma HistoriesAppend(key: string, a: seq<History>, b: seq<History>, loc: Location, fmt: Formatter)
    requires HistoriesParse(a)
    ensures HistoriesLines(key, a + b, loc, fmt).lines ==
      HistoriesLines(key, a, loc, fmt).lines + HistoriesLines(key, b, loc, fmt).lines
    ensures HistoriesLines(key, a + b, loc, fmt).err == HistoriesLines(key, b, loc, fmt).err
  {
    var step := HistoryStep(key, loc, fmt);
    assert forall i :: 0 <= i < |a| ==> step(a[i]).err.None?;
    StreamAppend(a, b, step);
  }

  /**
   * The first history whose creation time does not parse ends the issue's walk: the
   * lines of the entries before it stay, nothing after it is printed, and the error
   * names the issue's key and the parser's complaint.
   */
  lemma HistoriesStopAtFirstBad(key: string, histories: seq<History>, m: nat, loc: Location, fmt: Formatter)
    requires m < |histories|
    requires HistoriesParse(histories[..m])
    requires histories[m].created.Malformed?
    ensures HistoriesLines(key, histories, loc, fmt).lines == HistoriesLines(key, histories[..m], loc, fmt).lines
    ensures HistoriesLines(key, histories, loc, fmt).err == Some(MalformedTimestamp(key, histories[m].created.cause))
  {
    var step := HistoryStep(key, loc, fmt);
    assert forall i :: 0 <= i < m ==> histories[..m][i] == histories[i];
    assert forall i :: 0 <= i < m ==> step(histories[i]).err.None?;
    StreamStopsAtFirstFailure(histories, step, m);
  }

  /** Every parsed history prints exactly one line per status item. */
  lemma {:induction false} HistoriesLineCount(key: string, histories: seq<History>, loc: Location, fmt: Formatter)
    requires HistoriesParse(histories)
    ensures |HistoriesLines(key, histories, loc, fmt).lines| == HistoriesStatus(histories)
  {
    if |histories| > 0 {
      var step := HistoryStep(key, loc, fmt);
      assert forall i :: 0 <= i < |histories[1..]| ==> histories[1..][i] == histories[i + 1];
      HistoriesLineCount(key, histories[1..], loc, fmt);
      StreamUnfold(histories, step);
    }
  }

  /** An issue that renders cleanly prints its header and one line per status change. */
  lemma IssueLineCount(issue: Issue, loc: Location, fmt: Formatter)
    requires IssueParses(issue)
    ensures |IssueLines(issue, loc, fmt).lines| == 1 + IssueStatus(issue)
  {
    if issue.changelog.Some? {
      HistoriesLineCount(issue.key, issue.changelog.value, loc, fmt);
    }
  }

  /** Issues are rendered one after the other: a prefix that renders cleanly contributes its own lines. */
  lemma RenderIssuesAppend(a: seq<Issue>, b: seq<Issue>, loc: Location, fmt: Formatter)
    requires IssuesParse(a)
    ensures RenderIssues(a + b, loc, fmt).lines ==
      RenderIssues(a, loc, fmt).lines + RenderIssues(b, loc, fmt).lines
    ensures RenderIssues(a + b, loc, fmt).err == RenderIssues(b, loc, fmt).err
  {
    var step := IssueStep(loc, fmt);
    assert forall i :: 0 <= i < |a| ==> step(a[i]).err.None?;
    StreamAppend(a, b, step);
  }

  /**
   * The first issue that fails stops the run: the blocks of the issues before it
   * are complete, its own block is cut where its walk failed, and no later issue
   * prints anything.
   */
  lemma RenderIssuesStopAtFirstBad(issues: seq<Issue>, j: nat, loc: Location, fmt: Formatter)
    requires j < |issues|
    requires IssuesParse(issues[..j])
    requires !IssueParses(issues[j])
    ensures RenderIssues(issues, loc, fmt).lines ==
      RenderIssues(issues[..j], loc, fmt).lines + IssueLines(issues[j], loc, fmt).lines
    ensures RenderIssues(issues, loc, fmt).err == IssueLines(issues[j], loc, fmt).err
  {
    var step := IssueStep(loc, fmt);
    assert forall i :: 0 <= i < j ==> issues[..j][i] == issues[i];
    assert forall i :: 0 <= i < j ==> step(issues[i]).err.None?;
    StreamStopsAtFirstFailure(issues, step, j);
  }

  /**
   * A clean run prints one header per issue plus one line per status change, and
   * nothing else.
   */
  lemma {:induction false} RenderIssuesLineCount(issues: seq<Issue>, loc: Location, fmt: Formatter)
    requires IssuesParse(issues)
    ensures |RenderIssues(issues, loc, fmt).lines| == |issues| + TotalStatus(issues)
  {
    if |issues| > 0 {
      var step := IssueStep(loc, fmt);
      assert forall i :: 0 <= i < |issues[1..]| ==> issues[1..][i] == issues[i + 1];
      RenderIssuesLineCount(issues[1..], loc, fmt);
      IssueLineCount(issues[0], loc, fmt);
      StreamUnfold(issues, step);
    }
  }

  /** The whole run, when the zone loads and every timestamp parses, prints exactly that many lines. */
  lemma RunLineCount(tz: string, load: Loader, issues: seq<Issue>, fmt: Formatter)
    requires load(tz).Success? && IssuesParse(issues)
    ensures Run(tz, load, issues, fmt).err == None
    ensures |Run(tz, load, issues, fmt).lines| == |issues| + TotalStatus(issues)
  {
    RenderIssuesLineCount(issues, load(tz).value, fmt);
  }

  /**
   * The whole run against a bad timestamp in history `m` of issue `j`: everything the
   * earlier issues printed, then issue `j`'s header and the events of its earlier
   * histories, and an error naming issue `j`'s key.
   */
  lemma RunStopsAtFirstBad(tz: string, load: Loader, issues: seq<Issue>, fmt: Formatter, j: nat, m: nat)
    requires load(tz).Success?
    requires j < |issues| && IssuesParse(issues[..j])
    requires issues[j].changelog.Some?
    requires m < |issues[j].changelog.value|
    requires HistoriesParse(issues[j].changelog.value[..m])
    requires issues[j].changelog.value[m].created.Malformed?
    ensures Run(tz, load, issues, fmt).lines ==
      RenderIssues(issues[..j], load(tz).value, fmt).lines + [HeaderLine(issues[j])] +
      HistoriesLines(issues[j].key, issues[j].changelog.value[..m], load(tz).value, fmt).lines
    ensures Run(tz, load, issues, fmt).err ==
      Some(MalformedTimestamp(issues[j].key, issues[j].changelog.value[m].created.cause))
  {
    var loc := load(tz).value;
    var histories := issues[j].changelog.value;
    HistoriesStopAtFirstBad(issues[j].key, histories, m, loc, fmt);
    assert !HistoriesParse(histories);
    RenderIssuesStopAtFirstBad(issues, j, loc, fmt);
  }

  /** The number of newline characters in a text. */
  function Newlines(s: string): nat {
    if |s| == 0 then 0 else (if s[0] == '\n' then 1 else 0) + Newlines(s[1..])
  }

  /** Newlines of a concatenation add up. */
  lemma {:induction false} NewlinesAppend(a: string, b: string)
    ensures Newlines(a + b) == Newlines(a) + Newlines(b)
  {
    if |a| == 0 {
      assert a + b == b;
    } else {
      assert (a + b)[1..] == a[1..] + b;
      NewlinesAppend(a[1..], b);
    }
  }

  /** A text without a newline character counts none. */
  lemma {:induction false} NoNewlines(s: string)
    requires '\n' !in s
    ensures Newlines(s) == 0
  {
    if |s| > 0 {
      assert s[0] in s;
      assert forall c :: c in s[1..] ==> c in s;
      NoNewlines(s[1..]);
    }
  }

  /** Printing two runs of records one after the other writes the two texts concatenated. */
  lemma {:induction false} StdoutAppend(a: seq<string>, b: seq<string>)
    ensures Stdout(a + b) == Stdout(a) + Stdout(b)
  {
    if |a| == 0 {
      assert a + b == b;
    } else {
      ConsAppend(a, b);
      StdoutAppend(a[1..], b);
      var head := a[0] + "\n";
      var x, y := Stdout(a[1..]), Stdout(b);
      assert Stdout(a) == head + x;
      assert Stdout(a + b) == head + (x + y);
      assert head + (x + y) == (head + x) + y;
    }
  }

  /** When no record contains a newline, the text holds exactly one newline per record. */
  lemma {:induction false} StdoutNewlines(lines: seq<string>)
    requires forall k :: 0 <= k < |lines| ==> '\n' !in lines[k]
    ensures Newlines(Stdout(lines)) == |lines|
  {
    if |lines| > 0 {
      StdoutNewlines(lines[1..]);
      NoNewlines(lines[0]);
      NewlinesAppend(lines[0], "\n");
      NewlinesAppend(lines[0] + "\n", Stdout(lines[1..]));
      assert Newlines("\n") == 1 by {
        assert "\n"[1..] == "";
      }
    }
  }

  /** A sequence is its part before `k`, its element `k`, and its part after `k`. */
  lemma SplitAt<T>(s: seq<T>, k: nat)
    requires k < |s|
    ensures s == s[..k] + ([s[k]] + s[k + 1..])
  {
  }

  /**
   * Record `k` is written verbatim, followed by its newline, between the text of
   * the records before it and the text of those after it.
   */
  lemma StdoutRecordAt(lines: seq<string>, k: nat)
    requires k < |lines|
    ensures Stdout(lines) == Stdout(lines[..k]) + (lines[k] + "\n") + Stdout(lines[k + 1..])
  {
    var pre, line, post := lines[..k], lines[k], lines[k + 1..];
    SplitAt(lines, k);
    StdoutAppend(pre, [line] + post);
    StdoutAppend([line], post);
    var a, b, c := Stdout(pre), Stdout([line]), Stdout(post);
    assert b == line + "\n";
    assert a + (b + c) == (a + b) + c;
  }
}
