/** The Slack rendering of a pull request
    (src/modules/bitbucket/utils/bitbucketFormatters.ts): a title line and a
    status line. */
module BitbucketFormatters {
  import opened Outcomes
  import opened Strings
  import opened BitbucketModel

  function TitleLine(pr: PullRequest): string
  {
    "*PR #" + IntToDecimal(pr.id) + ":* " + Show(pr.title)
  }

  /** The second line: status, branches and author. */
  function StatusLine(pr: PullRequest): string
  {
    StatusPart(pr) + Branches(pr) + " | Author: " + pr.author
  }

  function StatusPart(pr: PullRequest): string
  {
    "Status: " + Show(pr.status) + " | "
  }

  function Branches(pr: PullRequest): string
  {
    pr.sourceBranch + " → " + pr.targetBranch
  }

  /** `formatPRForSlack`. */
  function FormatPRForSlack(pr: PullRequest): (text: string)
    ensures StartsWith(text, "*PR #" + IntToDecimal(pr.id) + ":* " + Show(pr.title))
    ensures EndsWith(text, " | Author: " + pr.author)
    ensures |text| == |TitleLine(pr)| + 1 + |StatusLine(pr)|
    ensures text[|TitleLine(pr)|] == '\n'
    ensures text[|TitleLine(pr)| + 1..] == StatusLine(pr)
  {
    var text := TitleLine(pr) + "\n" + StatusLine(pr);
    JoinedByChar(TitleLine(pr), '\n', StatusLine(pr));
    assert EndsWith(StatusLine(pr), " | Author: " + pr.author) by {
      var tail := " | Author: " + pr.author;
      assert StatusLine(pr) == (StatusPart(pr) + Branches(pr)) + tail;
      assert EndsWith(tail, tail);
      EndsWithConcat(StatusPart(pr) + Branches(pr), tail, tail);
    }
    EndsWithConcat(TitleLine(pr) + "\n", StatusLine(pr), " | Author: " + pr.author);
    text
  }

  /** The formatter inserts one newline of its own: with a single-line title,
      status, branches and author the text is exactly two lines, split at the
      end of the title line, and the second begins with `Status: `. */
  lemma PRTextIsTwoLines(pr: PullRequest)
    requires '\n' !in Show(pr.title) && '\n' !in Show(pr.status)
    requires '\n' !in pr.sourceBranch && '\n' !in pr.targetBranch && '\n' !in pr.author
    ensures CountChar(FormatPRForSlack(pr), '\n') == 1
    ensures StartsWith(FormatPRForSlack(pr)[|TitleLine(pr)| + 1..], "Status: ")
  {
    PRLinesAreSingle(pr);
    CountCharOnceBetween(TitleLine(pr), StatusLine(pr), '\n');
    assert FormatPRForSlack(pr) == TitleLine(pr) + "\n" + StatusLine(pr);
    assert StatusLine(pr)[..8] == "Status: ";
  }

  lemma PRLinesAreSingle(pr: PullRequest)
    requires '\n' !in Show(pr.title) && '\n' !in Show(pr.status)
    requires '\n' !in pr.sourceBranch && '\n' !in pr.targetBranch && '\n' !in pr.author
    ensures '\n' !in TitleLine(pr) && '\n' !in StatusLine(pr)
  {
    IntToDecimalAvoids(pr.id, '\n');
  }

  /** The second line shows the branches as `source → target` right after
      the status. */
  lemma PRTextShowsBranches(pr: PullRequest)
    ensures StatusLine(pr)[|StatusPart(pr)|..|StatusPart(pr)| + |Branches(pr)|] == pr.sourceBranch + " → " + pr.targetBranch
  {
    MiddleOfConcat(StatusPart(pr), Branches(pr), " | Author: " + pr.author);
  }
}
