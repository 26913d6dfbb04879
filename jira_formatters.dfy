/** The Slack renderings of Jira issues (src/modules/jira/utils/jiraFormatters.ts).
    A single issue is two fixed lines followed by the priority, assignee and
    labels lines that apply; a list is one bullet line per issue. */
module JiraFormatters {
  import opened Outcomes
  import opened Strings
  import opened JiraModel

  function HeaderLine(issue: Issue): string
  {
    "*" + Show(issue.key) + "* — " + Show(issue.summary)
  }

  function StatusLine(issue: Issue): string
  {
    "Status: " + Show(issue.status) + " | Type: " + Show(issue.issueType)
  }

  /** `issue.labels && issue.labels.length > 0`. */
  predicate HasLabels(issue: Issue)
  {
    issue.labels.Some? && |issue.labels.value| > 0
  }

  function LabelsLine(issue: Issue): string
    requires HasLabels(issue)
  {
    "Labels: " + Join(issue.labels.value, ", ")
  }

  /** The lines of `formatIssueForSlack`: header and status always, then the
      priority, assignee and labels lines exactly when their field is
      non-empty, in that order. */
  function IssueLines(issue: Issue): seq<string>
  {
    var fixed := [HeaderLine(issue), StatusLine(issue)];
    var withPriority := if Truthy(issue.priority) then fixed + ["Priority: " + issue.priority.value] else fixed;
    var withAssignee :=
      if Truthy(issue.assignee) then withPriority + ["Assignee: " + issue.assignee.value] else withPriority;
    if HasLabels(issue) then withAssignee + [LabelsLine(issue)] else withAssignee
  }

  /** The shape of a rendered issue: 2 to 5 lines, the two fixed ones first;
      a line labelled `Priority: `, `Assignee: ` or `Labels: ` exists exactly
      when its field is non-empty, and the optional lines keep their order. */
  lemma IssueLinesShape(issue: Issue)
    ensures var lines := IssueLines(issue);
      && 2 <= |lines| <= 5
      && lines[0] == HeaderLine(issue) && lines[1] == StatusLine(issue)
      && |lines| == 2 + (if Truthy(issue.priority) then 1 else 0)
                      + (if Truthy(issue.assignee) then 1 else 0)
                      + (if HasLabels(issue) then 1 else 0)
      && (Truthy(issue.priority) <==> exists i :: 0 <= i < |lines| && StartsWith(lines[i], "Priority: "))
      && (Truthy(issue.assignee) <==> exists i :: 0 <= i < |lines| && StartsWith(lines[i], "Assignee: "))
      && (HasLabels(issue) <==> exists i :: 0 <= i < |lines| && StartsWith(lines[i], "Labels: "))
      && (Truthy(issue.priority) ==> lines[2] == "Priority: " + issue.priority.value)
      && (Truthy(issue.assignee) ==>
            lines[if Truthy(issue.priority) then 3 else 2] == "Assignee: " + issue.assignee.value)
      && (HasLabels(issue) ==> lines[|lines| - 1] == LabelsLine(issue))
  {
    var lines := IssueLines(issue);
    IssueLinesLayout(issue);
    IssueLinesTagged(issue);
    if Truthy(issue.priority) {
      assert StartsWith(lines[2], "Priority: ");
    }
    if Truthy(issue.assignee) {
      assert StartsWith(lines[if Truthy(issue.priority) then 3 else 2], "Assignee: ");
    }
    if HasLabels(issue) {
      assert StartsWith(lines[|lines| - 1], "Labels: ");
    }
    forall i | 0 <= i < |lines|
      ensures StartsWith(lines[i], "Priority: ") ==> Truthy(issue.priority)
      ensures StartsWith(lines[i], "Assignee: ") ==> Truthy(issue.assignee)
      ensures StartsWith(lines[i], "Labels: ") ==> HasLabels(issue)
    {
      assert "Priority: "[0] == 'P' && "Assignee: "[0] == 'A' && "Labels: "[0] == 'L';
    }
  }

  /** Where each line of a rendered issue sits. */
  lemma IssueLinesLayout(issue: Issue)
    ensures var lines := IssueLines(issue);
      && |lines| == 2 + (if Truthy(issue.priority) then 1 else 0)
                      + (if Truthy(issue.assignee) then 1 else 0)
                      + (if HasLabels(issue) then 1 else 0)
      && lines[0] == HeaderLine(issue) && lines[1] == StatusLine(issue)
      && (Truthy(issue.priority) ==> lines[2] == "Priority: " + issue.priority.value)
      && (Truthy(issue.assignee) ==>
            lines[if Truthy(issue.priority) then 3 else 2] == "Assignee: " + issue.assignee.value)
      && (HasLabels(issue) ==> lines[|lines| - 1] == LabelsLine(issue))
  {
  }

  /** Each line of a rendered issue starts with a character naming the field
      it renders. */
  lemma IssueLinesTagged(issue: Issue)
    ensures Tagged(issue, IssueLines(issue))
  {
    var fixed := [HeaderLine(issue), StatusLine(issue)];
    assert Tagged(issue, fixed) by {
      assert HeaderLine(issue)[0] == '*' && StatusLine(issue)[0] == 'S';
    }
    var withPriority := fixed;
    if Truthy(issue.priority) {
      var line := "Priority: " + issue.priority.value;
      assert line[0] == 'P' && Tagged(issue, [line]);
      TaggedAppend(issue, fixed, [line]);
      withPriority := fixed + [line];
    }
    var withAssignee := withPriority;
    if Truthy(issue.assignee) {
      var line := "Assignee: " + issue.assignee.value;
      assert line[0] == 'A' && Tagged(issue, [line]);
      TaggedAppend(issue, withPriority, [line]);
      withAssignee := withPriority + [line];
    }
    if HasLabels(issue) {
      assert LabelsLine(issue)[0] == 'L' && Tagged(issue, [LabelsLine(issue)]);
      TaggedAppend(issue, withAssignee, [LabelsLine(issue)]);
    }
  }

  /** Lines whose first character tells which optional field, if any, each
      one renders. */
  predicate Tagged(issue: Issue, lines: seq<string>)
  {
    forall i :: 0 <= i < |lines| ==>
      && |lines[i]| > 0
      && (lines[i][0] == 'P' ==> Truthy(issue.priority))
      && (lines[i][0] == 'A' ==> Truthy(issue.assignee))
      && (lines[i][0] == 'L' ==> HasLabels(issue))
  }

  lemma TaggedAppend(issue: Issue, a: seq<string>, b: seq<string>)
    requires Tagged(issue, a) && Tagged(issue, b)
    ensures Tagged(issue, a + b)
  {
    forall i | 0 <= i < |a + b|
      ensures |(a + b)[i]| > 0
    {
      if i < |a| { assert (a + b)[i] == a[i]; } else { assert (a + b)[i] == b[i - |a|]; }
    }
  }

  /** `formatIssueForSlack`: collects the lines in a local list, pushing the
      optional ones, and joins them with newlines. */
  method FormatIssueForSlack(issue: Issue) returns (text: string)
    ensures text == Join(IssueLines(issue), "\n")
  {
    var lines := [HeaderLine(issue), StatusLine(issue)];
    if Truthy(issue.priority) {
      lines := lines + ["Priority: " + issue.priority.value];
    }
    if Truthy(issue.assignee) {
      lines := lines + ["Assignee: " + issue.assignee.value];
    }
    if HasLabels(issue) {
      lines := lines + [LabelsLine(issue)];
    }
    text := Join(lines, "\n");
  }

  /** No newline inside any text the formatters print. */
  predicate SingleLineFields(issue: Issue)
  {
    '\n' !in Show(issue.key) && '\n' !in Show(issue.summary)
    && '\n' !in Show(issue.status) && '\n' !in Show(issue.issueType)
    && '\n' !in Show(issue.priority) && '\n' !in Show(issue.assignee)
    && (issue.labels.Some? ==> forall i :: 0 <= i < |issue.labels.value| ==> '\n' !in issue.labels.value[i])
  }

  /** With single-line fields, the rendering of an issue has 2 to 5 lines, one
      per element of `IssueLines`. */
  lemma IssueTextLineCount(issue: Issue)
    requires SingleLineFields(issue)
    ensures var n := CountChar(Join(IssueLines(issue), "\n"), '\n');
            n == |IssueLines(issue)| - 1 && 1 <= n <= 4
  {
    IssueLinesLayout(issue);
    IssueLinesAreSingle(issue);
    JoinCountChar(IssueLines(issue), "\n", '\n');
  }

  lemma IssueLinesAreSingle(issue: Issue)
    requires SingleLineFields(issue)
    ensures forall i :: 0 <= i < |IssueLines(issue)| ==> '\n' !in IssueLines(issue)[i]
  {
    var fixed := [HeaderLine(issue), StatusLine(issue)];
    var withPriority := if Truthy(issue.priority) then fixed + ["Priority: " + issue.priority.value] else fixed;
    var withAssignee :=
      if Truthy(issue.assignee) then withPriority + ["Assignee: " + issue.assignee.value] else withPriority;
    assert forall i :: 0 <= i < |withAssignee| ==> '\n' !in withAssignee[i];
    if HasLabels(issue) {
      JoinAvoids(issue.labels.value, ", ", '\n');
      assert '\n' !in LabelsLine(issue);
      assert IssueLines(issue) == withAssignee + [LabelsLine(issue)];
    }
  }

  /** The bullet line of one issue in a list. */
  function ListLine(issue: Issue): string
  {
    "• *" + Show(issue.key) + "* — " + Show(issue.summary) + " [" + Show(issue.status) + "]"
  }

  function ListLines(issues: seq<Issue>): (lines: seq<string>)
    ensures |lines| == |issues|
    ensures forall i :: 0 <= i < |issues| ==> lines[i] == ListLine(issues[i])
  {
    seq(|issues|, i requires 0 <= i < |issues| => ListLine(issues[i]))
  }

  /** `formatIssueListForSlack`: a fixed text for no issues, otherwise the
      bullet lines joined by newlines: a single issue gives its own line,
      and every list begins with the first issue's line (with
      `FormatIssueListAppend`, this fixes the text of every list). */
  function FormatIssueListForSlack(issues: seq<Issue>): (text: string)
    ensures issues == [] <==> text == "No issues found."
    ensures |issues| == 1 ==> text == ListLine(issues[0])
    ensures issues != [] ==> StartsWith(text, ListLine(issues[0]))
  {
    if |issues| == 0 then "No issues found."
    else
      var text := Join(ListLines(issues), "\n");
      JoinStartsWithFirst(ListLines(issues), "\n");
      assert text[0] == '•';
      text
  }

  /** Appending an issue to a non-empty list appends one newline and its
      bullet line, so lines follow the input order. */
  lemma FormatIssueListAppend(issues: seq<Issue>, issue: Issue)
    requires issues != []
    ensures FormatIssueListForSlack(issues + [issue])
            == FormatIssueListForSlack(issues) + "\n" + ListLine(issue)
  {
    assert ListLines(issues + [issue]) == ListLines(issues) + [ListLine(issue)];
    JoinAppend(ListLines(issues), ListLine(issue), "\n");
  }

  /** With single-line fields, a list of n issues renders as n lines. */
  lemma IssueListLineCount(issues: seq<Issue>)
    requires issues != []
    requires forall i :: 0 <= i < |issues| ==>
               '\n' !in Show(issues[i].key) && '\n' !in Show(issues[i].summary) && '\n' !in Show(issues[i].status)
    ensures CountChar(FormatIssueListForSlack(issues), '\n') == |issues| - 1
  {
    var lines := ListLines(issues);
    assert forall i :: 0 <= i < |lines| ==> '\n' !in lines[i];
    JoinCountChar(lines, "\n", '\n');
  }
}
