/**
 * The slice of the issue tracker's search result that the timeline renderer reads:
 * an issue's key and summary, and its optional changelog of history entries, each
 * holding a creation time and the field changes made at that time.
 */
module Jira {
  import opened Wrappers

  /** An absolute point in time (nanoseconds since the Unix epoch). */
  datatype Instant = Instant(unixNanos: int)

  /** A resolved time zone; only the renderer's formatter looks inside it. */
  datatype Location = Location(name: string)

  /**
   * The outcome of parsing a history entry's raw `created` text: the instant it
   * denotes, or the parser's complaint.
   */
  datatype Created = Parsed(instant: Instant) | Malformed(cause: string)

  /** One field change inside a history entry: which field, and its new value as text. */
  datatype Item = Item(field: string, toString: string)

  /** A history entry: the changes made together at one creation time, in the tracker's order. */
  datatype History = History(created: Created, items: seq<Item>)

  /**
   * An issue as returned by the search. `changelog` is `None` when the tracker sent
   * no changelog at all, which is distinct from an empty list of histories.
   */
  datatype Issue = Issue(key: string, summary: string, changelog: Option<seq<History>>)

  /** The one field whose changes make up the timeline. */
  const StatusField: string := "status"

  /** Whether an item records a change of the `status` field; the field name is matched exactly. */
  predicate IsStatus(item: Item) {
    item.field == StatusField
  }

  /** Every history entry's creation time parsed. */
  predicate HistoriesParse(histories: seq<History>) {
    forall k :: 0 <= k < |histories| ==> histories[k].created.Parsed?
  }

  /** Rendering `issue` cannot fail on a timestamp: no changelog, or every entry parsed. */
  predicate IssueParses(issue: Issue) {
    issue.changelog.None? || HistoriesParse(issue.changelog.value)
  }

  /** Every issue of a search result has parsable creation times. */
  predicate IssuesParse(issues: seq<Issue>) {
    forall i :: 0 <= i < |issues| ==> IssueParses(issues[i])
  }

  /** Number of status changes among `items`. */
  function CountStatus(items: seq<Item>): nat {
    if |items| == 0 then 0
    else (if IsStatus(items[0]) then 1 else 0) + CountStatus(items[1..])
  }

  /** Number of status changes across all `histories`. */
  function HistoriesStatus(histories: seq<History>): nat {
    if |histories| == 0 then 0
    else CountStatus(histories[0].items) + HistoriesStatus(histories[1..])
  }

  /** Number of status changes in an issue's changelog; an absent changelog has none. */
  function IssueStatus(issue: Issue): nat {
    match issue.changelog
    case None => 0
    case Some(histories) => HistoriesStatus(histories)
  }

  /** Number of status changes across all `issues`. */
  function TotalStatus(issues: seq<Issue>): nat {
    if |issues| == 0 then 0
    else IssueStatus(issues[0]) + TotalStatus(issues[1..])
  }
}
