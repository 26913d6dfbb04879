/** The Slack commands of the Bitbucket module
    (src/modules/bitbucket/controller/bitbucket.controller.ts): `.bb test`,
    `.bb repos`, `.bb prs <slug>`, `.bb branches <slug>` and
    `.bb commits <slug> [branch]`. Each command reads its argument from the
    message text, awaits at most one service call inside a `try`, and says
    one reply. The service's answer is a parameter: `Rejected` when the call
    threw, otherwise the `{data} | {error}` envelope it resolved to. An error
    is recognised by the truthiness of `response.error`, so an empty error
    reads as no data. */
module BitbucketController {
  import opened Outcomes
  import opened Strings
  import opened BitbucketModel
  import opened BitbucketServices

  /** A command that takes an argument: the request it makes of the service,
      none when it answers with its usage text, and the reply it says. */
  datatype Handled<Q> = Handled(request: Option<Q>, reply: string)

  /** The fields each listing reads from the items the service hands over. */
  datatype ListedRepository = ListedRepository(name: Option<string>, slug: Option<string>, language: Option<string>)

  datatype ListedPullRequest = ListedPullRequest(
    id: int,
    title: Option<string>,
    sourceBranch: Option<string>,
    destinationBranch: Option<string>)

  datatype ListedBranch = ListedBranch(name: Option<string>, isDefault: bool, latestCommit: Option<string>)

  datatype ListedCommit = ListedCommit(hash: Option<string>, message: Option<string>, author: Option<string>)

  // ---------------------------------------------------------------------
  // The argument of a command

  /** The command stems: `.bb prs?`, `.bb branches?` and `.bb commits?`. */
  const PullRequestsStem := "pr"
  const BranchesStem := "branche"
  const CommitsStem := "commit"

  /** ASCII lower case, the only folding a case-insensitive match applies to
      these letters. */
  function Lower(c: char): char
  {
    if 'A' <= c <= 'Z' then (c as int + 32) as char else c
  }

  /** `s` begins with the lower-case `word`, compared without case. */
  predicate StartsWithIgnoringCase(s: string, word: string)
  {
    |word| <= |s| && forall i :: 0 <= i < |word| ==> Lower(s[i]) == word[i]
  }

  /** The text starts with `.bb`, in any case. */
  predicate StartsWithBb(text: string)
  {
    |text| >= 3 && text[0] == '.' && Lower(text[1]) == 'b' && Lower(text[2]) == 'b'
  }

  /** The number of whitespace characters at the start of `s`. */
  function LeadingSpaces(s: string): (n: nat)
    ensures n <= |s|
  {
    |s| - |TrimStart(s)|
  }

  /** Where the text after `^\.bb\s+<stem>s?` begins, when the text starts
      with it: `.bb` in any case, at least one whitespace character, the stem
      in any case, and an optional `s`. */
  function CommandPrefixEnd(text: string, stem: string): (end: Option<nat>)
    ensures end.Some? ==> end.value <= |text|
  {
    if !StartsWithBb(text) then None
    else
      var start := 3 + LeadingSpaces(text[3..]);
      if start == 3 || !StartsWithIgnoringCase(text[start..], stem) then None
      else
        var e := start + |stem|;
        Some(if e < |text| && Lower(text[e]) == 's' then e + 1 else e)
  }

  /** The text with the case-insensitive pattern `^\.bb\s+<stem>s?\s*`
      replaced by nothing, then trimmed: the text after the command prefix,
      or all of the text when it lacks the prefix. The whitespace the pattern
      removes after the prefix is whitespace `trim` removes as well. */
  function CommandArgument(text: string, stem: string): (arg: string)
    ensures IsTrimmed(arg)
  {
    var end := CommandPrefixEnd(text, stem);
    var rest := if end.Some? then text[end.value..] else text;
    TrimIsTrimmed(rest);
    Trim(rest)
  }

  /** A stem spelled in any case: the stem's letters, then possibly `s`. */
  predicate SpellsCommand(command: string, stem: string)
  {
    && |stem| <= |command| <= |stem| + 1
    && (forall i :: 0 <= i < |stem| ==> Lower(command[i]) == stem[i])
    && (|command| > |stem| ==> Lower(command[|stem|]) == 's')
  }

  /** A lower-case letter is the lower case of no whitespace character. */
  lemma LetterIsNotSpace(c: char, letter: char)
    requires 'a' <= letter <= 'z' && Lower(c) == letter
    ensures !IsSpace(c)
  {
  }

  /** After `.bb `, a spelling of the command ends the prefix when followed
      by whitespace or nothing. */
  lemma PrefixEndOfCommand(stem: string, command: string, rest: string)
    requires stem != [] && 'a' <= stem[0] <= 'z' && SpellsCommand(command, stem)
    requires rest == [] || rest[0] == ' '
    ensures CommandPrefixEnd(".bb " + command + rest, stem) == Some(4 + |command|)
  {
    PrefixShapeOfCommand(stem, command, rest);
    PrefixEndAfterOneSpace(".bb " + command + rest, stem, 4 + |command|);
  }

  /** The text after `.bb` has one whitespace character, the stem, and at
      `end` the end of the `s?` that may follow it. */
  predicate PrefixShape(text: string, stem: string, end: nat)
  {
    && StartsWithBb(text) && LeadingSpaces(text[3..]) == 1 && StartsWithIgnoringCase(text[4..], stem)
    && (end == 4 + |stem| || end == 5 + |stem|)
    && end <= |text|
    && (end == 5 + |stem| ==> Lower(text[4 + |stem|]) == 's')
    && (end == 4 + |stem| && end < |text| ==> Lower(text[end]) != 's')
  }

  lemma PrefixShapeOfCommand(stem: string, command: string, rest: string)
    requires stem != [] && 'a' <= stem[0] <= 'z' && SpellsCommand(command, stem)
    requires rest == [] || rest[0] == ' '
    ensures PrefixShape(".bb " + command + rest, stem, 4 + |command|)
  {
    CommandStart(stem, command, rest);
    CommandFollower(stem, command, rest);
  }

  /** What follows the stem in `.bb <command><rest>`: the command's `s`, or
      the start of the rest. */
  lemma CommandFollower(stem: string, command: string, rest: string)
    requires SpellsCommand(command, stem)
    ensures var text := ".bb " + command + rest;
            && (|command| > |stem| ==> text[4 + |stem|] == command[|stem|])
            && (|command| == |stem| && 4 + |stem| < |text| ==> text[4 + |stem|] == rest[0])
  {
  }

  /** Where the prefix ends when one whitespace character follows `.bb` and
      the stem follows that. */
  lemma PrefixEndAfterOneSpace(text: string, stem: string, end: nat)
    requires PrefixShape(text, stem, end)
    ensures CommandPrefixEnd(text, stem) == Some(end)
  {
  }

  /** `.bb `, then a spelling of the command: one whitespace character
      after `.bb`, then the stem. */
  lemma CommandStart(stem: string, command: string, rest: string)
    requires stem != [] && 'a' <= stem[0] <= 'z' && SpellsCommand(command, stem)
    ensures var text := ".bb " + command + rest;
            StartsWithBb(text) && LeadingSpaces(text[3..]) == 1 && StartsWithIgnoringCase(text[4..], stem)
  {
    var text := ".bb " + command + rest;
    var tail := command + rest;
    assert StartsWithBb(text);
    var after := text[3..];
    assert after == " " + tail;
    LetterIsNotSpace(command[0], stem[0]);
    assert tail[0] == command[0];
    TrimStartOneSpace(tail);
    assert |after| == |tail| + 1;
    assert text[4..] == tail;
    forall i | 0 <= i < |stem| ensures Lower(tail[i]) == stem[i] {
      assert tail[i] == command[i];
    }
  }

  /** `.bb <command> <argument>`, with the command in any case and with or
      without its final `s`, yields the argument exactly; with nothing after
      the command, the argument is empty. */
  lemma ArgumentAfterCommand(stem: string, command: string, argument: string)
    requires stem in [PullRequestsStem, BranchesStem, CommitsStem] && SpellsCommand(command, stem)
    requires IsTrimmed(argument)
    ensures CommandArgument(".bb " + command + " " + argument, stem) == argument
    ensures CommandArgument(".bb " + command, stem) == ""
  {
    assert stem != [] && 'a' <= stem[0] <= 'z';
    CommandThenArgument(stem, command, argument);
    CommandAlone(stem, command);
  }

  lemma CommandThenArgument(stem: string, command: string, argument: string)
    requires stem != [] && 'a' <= stem[0] <= 'z' && SpellsCommand(command, stem)
    requires IsTrimmed(argument)
    ensures CommandArgument(".bb " + command + " " + argument, stem) == argument
  {
    var text := ".bb " + command + " " + argument;
    assert text == ".bb " + command + (" " + argument);
    PrefixEndOfCommand(stem, command, " " + argument);
    assert text[4 + |command|..] == " " + argument;
    TrimAfterSpace(argument);
  }

  lemma CommandAlone(stem: string, command: string)
    requires stem != [] && 'a' <= stem[0] <= 'z' && SpellsCommand(command, stem)
    ensures CommandArgument(".bb " + command, stem) == ""
  {
    var bare := ".bb " + command;
    assert bare + "" == bare;
    PrefixEndOfCommand(stem, command, "");
    assert bare[4 + |command|..] == "";
  }

  /** Text that does not start with the command is the argument, trimmed. */
  lemma ArgumentWithoutCommand(text: string, stem: string)
    requires text == [] || text[0] != '.'
    ensures CommandArgument(text, stem) == Trim(text)
  {
  }

  // ---------------------------------------------------------------------
  // Replies

  /** `response.data ?? []`. */
  function ItemsOf<T>(response: Response<seq<T>>): (items: seq<T>)
    ensures response.Data? ==> items == response.data
    ensures response.Error? ==> items == []
  {
    if response.Data? then response.data else []
  }

  /** One rendered line per item, in order. */
  function Lines<T>(items: seq<T>, line: T -> string): (lines: seq<string>)
    ensures |lines| == |items|
    ensures forall i :: 0 <= i < |items| ==> lines[i] == line(items[i])
  {
    seq(|items|, i requires 0 <= i < |items| => line(items[i]))
  }

  /** `.bb test`: the workspace shown falls back from the report's to the
      configured one to `unknown`. */
  function TestConnectionReply(response: Settled<Response<ConnectionTest>>, configured: Option<string>)
    : (reply: string)
    ensures response.Rejected? ==> reply == "Ups! Error testing Bitbucket connection."
    ensures response.Resolved? && response.value.Error? && response.value.error != "" ==>
              reply == "Error connecting to Bitbucket: " + response.value.error
    ensures response.Resolved? && response.value.Data? && response.value.data.success ==>
              reply == "✅ Bitbucket connected — workspace: " +
                       (if response.value.data.workspace.Some? then response.value.data.workspace.value
                        else if configured.Some? then configured.value else "unknown")
    ensures response.Resolved? && response.value.Data? && !response.value.data.success ==>
              reply == "⚠️ Bitbucket connection failed: " + response.value.data.message.GetOr("unknown error")
    ensures response.Resolved? && response.value == Error("") ==>
              reply == "⚠️ Bitbucket connection failed: unknown error"
  {
    match response
    case Rejected => "Ups! Error testing Bitbucket connection."
    case Resolved(Error(e)) =>
      if e != "" then "Error connecting to Bitbucket: " + e
      else "⚠️ Bitbucket connection failed: unknown error"
    case Resolved(Data(info)) =>
      if info.success then
        "✅ Bitbucket connected — workspace: " + info.workspace.GetOr(configured.GetOr("unknown"))
      else "⚠️ Bitbucket connection failed: " + info.message.GetOr("unknown error")
  }

  function RepositoryHead(r: ListedRepository): string
  {
    "• *" + Show(r.name) + "* (`" + Show(r.slug) + "`)"
  }

  /** A repository line: name and slug, then the language when it is
      non-empty. */
  function RepositoryLine(r: ListedRepository): (line: string)
    ensures StartsWith(line, RepositoryHead(r))
    ensures line == RepositoryHead(r) <==> !Truthy(r.language)
    ensures Truthy(r.language) ==> line[|RepositoryHead(r)|..] == " — " + r.language.value
  {
    var line := RepositoryHead(r) + (if Truthy(r.language) then " — " + r.language.value else "");
    assert line[..|RepositoryHead(r)|] == RepositoryHead(r);
    line
  }

  /** `.bb repos`. */
  function RepositoriesReply(response: Settled<Response<seq<ListedRepository>>>): (reply: string)
    ensures response.Rejected? ==> reply == "Ups! Error listing repositories."
    ensures response.Resolved? && response.value.Error? && response.value.error != "" ==>
              reply == "Error fetching repositories: " + response.value.error
    ensures response.Resolved? && ItemsOf(response.value) == [] && !(response.value.Error? && response.value.error != "") ==>
              reply == "No repositories found in workspace."
    ensures response.Resolved? && ItemsOf(response.value) != [] ==>
              reply == "*Repositories (" + IntToDecimal(|ItemsOf(response.value)|) + "):*\n"
                       + Join(Lines(ItemsOf(response.value), RepositoryLine), "\n")
  {
    match response
    case Rejected => "Ups! Error listing repositories."
    case Resolved(answer) =>
      if answer.Error? && answer.error != "" then "Error fetching repositories: " + answer.error
      else
        var repos := ItemsOf(answer);
        if |repos| == 0 then "No repositories found in workspace."
        else "*Repositories (" + IntToDecimal(|repos|) + "):*\n" + Join(Lines(repos, RepositoryLine), "\n")
  }

  function PullRequestLine(pr: ListedPullRequest): string
  {
    "• *#" + IntToDecimal(pr.id) + "* — " + Show(pr.title)
    + " (" + Show(pr.sourceBranch) + " → " + Show(pr.destinationBranch) + ")"
  }

  function PullRequestsHeader(slug: string, count: nat): string
  {
    "*Open PRs for `" + slug + "` (" + IntToDecimal(count) + "):*\n"
  }

  /** The reply to `.bb prs <slug>` once the service has answered. */
  function PullRequestsReply(slug: string, response: Settled<Response<seq<ListedPullRequest>>>): (reply: string)
    ensures response.Rejected? ==> reply == "Ups! Error listing pull requests."
    ensures response.Resolved? && response.value.Error? && response.value.error != "" ==>
              reply == "Error fetching PRs: " + response.value.error
    ensures response.Resolved? && ItemsOf(response.value) == [] && !(response.value.Error? && response.value.error != "") ==>
              reply == "No open PRs found for `" + slug + "`."
    ensures response.Resolved? && ItemsOf(response.value) != [] ==>
              reply == PullRequestsHeader(slug, |ItemsOf(response.value)|)
                       + Join(Lines(ItemsOf(response.value), PullRequestLine), "\n")
  {
    match response
    case Rejected => "Ups! Error listing pull requests."
    case Resolved(answer) =>
      if answer.Error? && answer.error != "" then "Error fetching PRs: " + answer.error
      else
        var prs := ItemsOf(answer);
        if |prs| == 0 then "No open PRs found for `" + slug + "`."
        else PullRequestsHeader(slug, |prs|) + Join(Lines(prs, PullRequestLine), "\n")
  }

  /** `.bb prs <slug>`: asks for the open pull requests of the argument, or
      answers with the usage text, without a request, when there is none. */
  function PullRequestsCommand(text: string, answer: Settled<Response<seq<ListedPullRequest>>>)
    : (h: Handled<(string, string)>)
    ensures h.request.None? <==> CommandArgument(text, PullRequestsStem) == ""
    ensures h.request.None? ==> h.reply == "Usage: `.bb prs <repo-slug>`"
    ensures h.request.Some? ==>
              && h.request.value == (CommandArgument(text, PullRequestsStem), "OPEN")
              && h.reply == PullRequestsReply(CommandArgument(text, PullRequestsStem), answer)
  {
    var slug := CommandArgument(text, PullRequestsStem);
    if slug == "" then Handled(None, "Usage: `.bb prs <repo-slug>`")
    else Handled(Some((slug, OpenState)), PullRequestsReply(slug, answer))
  }

  function BranchHead(b: ListedBranch): string
  {
    "• `" + Show(b.name) + "`"
  }

  /** A branch line: the name, the default marker for the default branch,
      then the latest commit when it is non-empty. */
  function BranchLine(b: ListedBranch): (line: string)
    ensures StartsWith(line, BranchHead(b))
    ensures |line| == |BranchHead(b)| + (if b.isDefault then |" _(default)_"| else 0)
                      + (if Truthy(b.latestCommit) then |" — "| + |b.latestCommit.value| else 0)
    ensures b.isDefault ==> line[|BranchHead(b)|..|BranchHead(b)| + |" _(default)_"|] == " _(default)_"
    ensures Truthy(b.latestCommit) ==> EndsWith(line, " — " + b.latestCommit.value)
  {
    var marker := if b.isDefault then " _(default)_" else "";
    var commit := if Truthy(b.latestCommit) then " — " + b.latestCommit.value else "";
    var line := BranchHead(b) + marker + commit;
    assert line[..|BranchHead(b)|] == BranchHead(b);
    assert line[|BranchHead(b)|..|BranchHead(b)| + |marker|] == marker;
    assert line[|line| - |commit|..] == commit;
    line
  }

  function BranchesHeader(slug: string, count: nat): string
  {
    "*Branches for `" + slug + "` (" + IntToDecimal(count) + "):*\n"
  }

  /** The reply to `.bb branches <slug>` once the service has answered. */
  function BranchesReply(slug: string, response: Settled<Response<seq<ListedBranch>>>): (reply: string)
    ensures response.Rejected? ==> reply == "Ups! Error listing branches."
    ensures response.Resolved? && response.value.Error? && response.value.error != "" ==>
              reply == "Error fetching branches: " + response.value.error
    ensures response.Resolved? && ItemsOf(response.value) == [] && !(response.value.Error? && response.value.error != "") ==>
              reply == "No branches found for `" + slug + "`."
    ensures response.Resolved? && ItemsOf(response.value) != [] ==>
              reply == BranchesHeader(slug, |ItemsOf(response.value)|)
                       + Join(Lines(ItemsOf(response.value), BranchLine), "\n")
  {
    match response
    case Rejected => "Ups! Error listing branches."
    case Resolved(answer) =>
      if answer.Error? && answer.error != "" then "Error fetching branches: " + answer.error
      else
        var branches := ItemsOf(answer);
        if |branches| == 0 then "No branches found for `" + slug + "`."
        else BranchesHeader(slug, |branches|) + Join(Lines(branches, BranchLine), "\n")
  }

  /** `.bb branches <slug>`. */
  function BranchesCommand(text: string, answer: Settled<Response<seq<ListedBranch>>>): (h: Handled<string>)
    ensures h.request.None? <==> CommandArgument(text, BranchesStem) == ""
    ensures h.request.None? ==> h.reply == "Usage: `.bb branches <repo-slug>`"
    ensures h.request.Some? ==>
              && h.request.value == CommandArgument(text, BranchesStem)
              && h.reply == BranchesReply(CommandArgument(text, BranchesStem), answer)
  {
    var slug := CommandArgument(text, BranchesStem);
    if slug == "" then Handled(None, "Usage: `.bb branches <repo-slug>`")
    else Handled(Some(slug), BranchesReply(slug, answer))
  }

  function CommitLine(c: ListedCommit): string
  {
    "• `" + Show(c.hash) + "` " + Show(c.message) + " — _" + Show(c.author) + "_"
  }

  /** The number of commits listed. */
  const CommitsShown: nat := 10

  function CommitsHeader(slug: string, branch: Option<string>): string
  {
    "*Recent commits for `" + slug + "`" + (if Truthy(branch) then " (" + branch.value + ")" else "") + " :*\n"
  }

  /** The first ten commits, or all when there are fewer. */
  function FirstCommits(commits: seq<ListedCommit>): (shown: seq<ListedCommit>)
    ensures |shown| == if |commits| < CommitsShown then |commits| else CommitsShown
    ensures shown == commits[..|shown|]
  {
    if |commits| < CommitsShown then commits else commits[..CommitsShown]
  }

  /** The reply to `.bb commits <slug> [branch]` once the service has
      answered: the header names the branch only when one was given, and at
      most ten commits are listed. */
  function CommitsReply(slug: string, branch: Option<string>, response: Settled<Response<seq<ListedCommit>>>)
    : (reply: string)
    ensures response.Rejected? ==> reply == "Ups! Error listing commits."
    ensures response.Resolved? && response.value.Error? && response.value.error != "" ==>
              reply == "Error fetching commits: " + response.value.error
    ensures response.Resolved? && ItemsOf(response.value) == [] && !(response.value.Error? && response.value.error != "") ==>
              reply == "No commits found for `" + slug + "`."
    ensures response.Resolved? && ItemsOf(response.value) != [] ==>
              reply == CommitsHeader(slug, branch) + Join(Lines(FirstCommits(ItemsOf(response.value)), CommitLine), "\n")
  {
    match response
    case Rejected => "Ups! Error listing commits."
    case Resolved(answer) =>
      if answer.Error? && answer.error != "" then "Error fetching commits: " + answer.error
      else
        var commits := ItemsOf(answer);
        if |commits| == 0 then "No commits found for `" + slug + "`."
        else CommitsHeader(slug, branch) + Join(Lines(FirstCommits(commits), CommitLine), "\n")
  }

  /** `.bb commits <slug> [branch]`: the first word of the argument is the
      slug and the second, when there is one, the branch; further words are
      ignored. */
  function CommitsCommand(text: string, answer: Settled<Response<seq<ListedCommit>>>)
    : (h: Handled<(string, Option<string>)>)
    ensures var arg := CommandArgument(text, CommitsStem);
            && (h.request.None? <==> arg == "")
            && (h.request.None? ==> h.reply == "Usage: `.bb commits <repo-slug> [branch]`")
            && (h.request.Some? ==>
                  var (slug, branch) := h.request.value;
                  && slug != "" && NoSpace(slug) && slug == arg[..WordEnd(arg)]
                  && (branch.Some? <==> WordEnd(arg) < |arg|)
                  && (branch.Some? ==> branch.value != "" && NoSpace(branch.value))
                  && (branch.Some? ==>
                        var rest := TrimStart(arg[WordEnd(arg)..]);
                        branch.value == rest[..WordEnd(rest)])
                  && h.reply == CommitsReply(slug, branch, answer))
  {
    var arg := CommandArgument(text, CommitsStem);
    var parts := SplitOnSpaces(arg);
    SplitTrimmedFirst(arg);
    var slug := parts[0];
    var branch := if |parts| > 1 then Some(parts[1]) else None;
    if slug == "" then Handled(None, "Usage: `.bb commits <repo-slug> [branch]`")
    else if |parts| > 1 then
      SplitTrimmedSecond(arg);
      Handled(Some((slug, branch)), CommitsReply(slug, branch, answer))
    else Handled(Some((slug, branch)), CommitsReply(slug, branch, answer))
  }

  // ---------------------------------------------------------------------
  // Properties of the replies

  /** A header ending in a newline over single-line items: one line per item
      after the header. */
  lemma ListingLineCount(header: string, lines: seq<string>)
    requires CountChar(header, '\n') == 1
    requires forall i :: 0 <= i < |lines| ==> '\n' !in lines[i]
    requires lines != []
    ensures CountChar(header + Join(lines, "\n"), '\n') == |lines|
  {
    JoinCountChar(lines, "\n", '\n');
    CountCharConcat(header, Join(lines, "\n"), '\n');
  }

  /** The header of a listing holds exactly its final newline. */
  lemma HeaderNewline(head: string)
    requires '\n' !in head
    ensures CountChar(head + "\n", '\n') == 1
  {
    CountCharAbsent(head, '\n');
    CountCharConcat(head, "\n", '\n');
  }

  /** Pull requests with single-line fields give one reply line per pull
      request below the header, which names their number. */
  lemma PullRequestsReplyLines(slug: string, prs: seq<ListedPullRequest>)
    requires prs != [] && '\n' !in slug
    requires forall i :: 0 <= i < |prs| ==>
               '\n' !in Show(prs[i].title) && '\n' !in Show(prs[i].sourceBranch) && '\n' !in Show(prs[i].destinationBranch)
    ensures StartsWith(PullRequestsReply(slug, Resolved(Data(prs))), "*Open PRs for `" + slug + "` (" + IntToDecimal(|prs|) + "):*")
    ensures CountChar(PullRequestsReply(slug, Resolved(Data(prs))), '\n') == |prs|
  {
    var header := PullRequestsHeader(slug, |prs|);
    var lines := Lines(prs, PullRequestLine);
    assert PullRequestsReply(slug, Resolved(Data(prs))) == header + Join(lines, "\n");
    PullRequestLinesAreSingle(prs);
    PullRequestsHeaderShape(slug, |prs|);
    ListingLineCount(header, lines);
    var head := "*Open PRs for `" + slug + "` (" + IntToDecimal(|prs|) + "):*";
    assert (header + Join(lines, "\n"))[..|head|] == header[..|head|];
  }

  lemma PullRequestLinesAreSingle(prs: seq<ListedPullRequest>)
    requires forall i :: 0 <= i < |prs| ==>
               '\n' !in Show(prs[i].title) && '\n' !in Show(prs[i].sourceBranch) && '\n' !in Show(prs[i].destinationBranch)
    ensures forall i :: 0 <= i < |prs| ==> '\n' !in Lines(prs, PullRequestLine)[i]
  {
    var lines := Lines(prs, PullRequestLine);
    forall i | 0 <= i < |prs| ensures '\n' !in lines[i] {
      PullRequestLineIsSingle(prs[i]);
    }
  }

  lemma PullRequestLineIsSingle(pr: ListedPullRequest)
    requires '\n' !in Show(pr.title) && '\n' !in Show(pr.sourceBranch) && '\n' !in Show(pr.destinationBranch)
    ensures '\n' !in PullRequestLine(pr)
  {
    IntToDecimalAvoids(pr.id, '\n');
  }

  /** The pull-request header: its first line, then one newline. */
  lemma PullRequestsHeaderShape(slug: string, count: nat)
    requires '\n' !in slug
    ensures var head := "*Open PRs for `" + slug + "` (" + IntToDecimal(count) + "):*";
            CountChar(PullRequestsHeader(slug, count), '\n') == 1
            && |head| <= |PullRequestsHeader(slug, count)|
            && PullRequestsHeader(slug, count)[..|head|] == head
  {
    IntToDecimalAvoids(count, '\n');
    var head := "*Open PRs for `" + slug + "` (" + IntToDecimal(count) + "):*";
    assert PullRequestsHeader(slug, count) == head + "\n";
    HeaderNewline(head);
  }

  /** However many commits the service returns, the reply lists at most ten,
      one line each below the header. */
  lemma CommitsReplyLines(slug: string, branch: Option<string>, commits: seq<ListedCommit>)
    requires commits != [] && '\n' !in slug && '\n' !in Show(branch)
    requires forall i :: 0 <= i < |commits| ==>
               '\n' !in Show(commits[i].hash) && '\n' !in Show(commits[i].message) && '\n' !in Show(commits[i].author)
    ensures CountChar(CommitsReply(slug, branch, Resolved(Data(commits))), '\n')
            == if |commits| < 10 then |commits| else 10
  {
    var shown := FirstCommits(commits);
    var lines := Lines(shown, CommitLine);
    assert CommitsReply(slug, branch, Resolved(Data(commits))) == CommitsHeader(slug, branch) + Join(lines, "\n");
    forall i | 0 <= i < |shown| ensures '\n' !in lines[i] {
      assert shown[i] == commits[i];
      CommitLineIsSingle(shown[i]);
    }
    CommitsHeaderNewline(slug, branch);
    ListingLineCount(CommitsHeader(slug, branch), lines);
  }

  lemma CommitLineIsSingle(c: ListedCommit)
    requires '\n' !in Show(c.hash) && '\n' !in Show(c.message) && '\n' !in Show(c.author)
    ensures '\n' !in CommitLine(c)
  {
  }

  lemma CommitsHeaderNewline(slug: string, branch: Option<string>)
    requires '\n' !in slug && '\n' !in Show(branch)
    ensures CountChar(CommitsHeader(slug, branch), '\n') == 1
  {
    var head := "*Recent commits for `" + slug + "`" + (if Truthy(branch) then " (" + branch.value + ")" else "") + " :*";
    assert CommitsHeader(slug, branch) == head + "\n";
    HeaderNewline(head);
  }

  /** The commits header names the branch exactly when one is given. */
  lemma CommitsHeaderNamesBranch(slug: string, branch: string)
    ensures branch != "" ==> CommitsHeader(slug, Some(branch)) == "*Recent commits for `" + slug + "` (" + branch + ") :*\n"
    ensures CommitsHeader(slug, None) == CommitsHeader(slug, Some(""))
    ensures CommitsHeader(slug, None) == "*Recent commits for `" + slug + "` :*\n"
  {
  }

  /** `.bb commits <slug> <branch>` asks for that slug and that branch. */
  lemma CommitsCommandWords(slug: string, branch: string, answer: Settled<Response<seq<ListedCommit>>>)
    requires slug != "" && NoSpace(slug) && branch != "" && NoSpace(branch)
    ensures CommitsCommand(".bb commits " + slug + " " + branch, answer).request == Some((slug, Some(branch)))
  {
    var arg := slug + " " + branch;
    assert IsTrimmed(arg) by {
      assert arg[0] == slug[0];
      assert arg[|arg| - 1] == branch[|branch| - 1];
    }
    assert ".bb commits " + slug + " " + branch == ".bb " + "commits" + " " + arg;
    assert SpellsCommand("commits", CommitsStem);
    ArgumentAfterCommand(CommitsStem, "commits", arg);
    SplitTwoWords(slug, branch);
  }

  // ---------------------------------------------------------------------
  // The replies over the service

  /** The fields a listing reads, taken from the repository record the
      service declares: that record has no `name`, so the name is absent. */
  function ListedOfRepository(r: Repository): (listed: ListedRepository)
    ensures listed.slug == r.slug && listed.language == r.language && listed.name.None?
  {
    ListedRepository(None, r.slug, r.language)
  }

  /** The fields a listing reads, taken from the pull-request record the
      service declares: that record names the target `targetBranch`, so
      `destinationBranch` is absent. */
  function ListedOfPullRequest(pr: PullRequest): (listed: ListedPullRequest)
    ensures listed.id == pr.id && listed.title == pr.title
    ensures listed.sourceBranch == Some(pr.sourceBranch) && listed.destinationBranch.None?
  {
    ListedPullRequest(pr.id, pr.title, Some(pr.sourceBranch), None)
  }

  /** The service's answer with each listed record read as the listing reads
      it; an error passes through. */
  function MapData<T, U>(response: Response<seq<T>>, read: T -> U): (r: Response<seq<U>>)
    ensures response.Error? ==> r == Error(response.error)
    ensures response.Data? ==> r.Data? && |r.data| == |response.data|
    ensures response.Data? ==> forall i :: 0 <= i < |response.data| ==> r.data[i] == read(response.data[i])
  {
    match response
    case Error(e) => Error(e)
    case Data(items) => Data(seq(|items|, i requires 0 <= i < |items| => read(items[i])))
  }

  /** A declared repository record is listed under the name `undefined`. */
  lemma DeclaredRepositoryHasUndefinedName(r: Repository)
    ensures StartsWith(RepositoryLine(ListedOfRepository(r)), "• *undefined* (`")
  {
    var listed := ListedOfRepository(r);
    var prefix := "• *undefined* (`";
    assert RepositoryHead(listed) == prefix + (Show(r.slug) + "`)");
    StartsWithConcat(prefix, Show(r.slug) + "`)");
    StartsWithTrans(RepositoryLine(listed), RepositoryHead(listed), prefix);
  }

  /** A declared pull-request record is listed with the target `undefined`. */
  lemma DeclaredPullRequestHasUndefinedTarget(pr: PullRequest)
    ensures EndsWith(PullRequestLine(ListedOfPullRequest(pr)), " → undefined)")
  {
  }

  /** `.bb prs` over the service: the request reaches the repository as the
      argument and `OPEN`, and a repository failure is reported with its
      message, or the service's fallback text when the message is empty. */
  lemma PullRequestsCommandReportsFailure(repo: BitbucketRepository, text: string)
    requires CommandArgument(text, PullRequestsStem) != ""
    requires repo.listPullRequests(CommandArgument(text, PullRequestsStem), "OPEN").Fail?
    ensures var slug := CommandArgument(text, PullRequestsStem);
            var m := repo.listPullRequests(slug, "OPEN").message;
            var answer := ListPullRequests(repo, slug, Some(OpenState));
            PullRequestsCommand(text, Resolved(MapData(answer, ListedOfPullRequest))).reply
            == "Error fetching PRs: " + (if m != "" then m else "Failed to list pull requests")
  {
  }

  /** `.bb test` over the service: a successful report without a workspace
      shows the configured workspace, or `unknown`. */
  lemma TestCommandShowsConfiguredWorkspace(repo: BitbucketRepository)
    requires repo.testConnection.Ok? && repo.testConnection.value.success
    requires repo.testConnection.value.workspace.None?
    ensures TestConnectionReply(Resolved(TestConnection(repo)), GetWorkspace(repo))
            == "✅ Bitbucket connected — workspace: " + (if repo.workspace.Some? then repo.workspace.value else "unknown")
  {
  }

  /** What the service passes on when the repository resolves a boolean, as
      the API wrapper's `testConnection` does: a boolean has no `success`,
      `workspace` or `message`, so each reads as absent. */
  function BooleanAsReport(connected: bool): (report: ConnectionTest)
    ensures !report.success && report.workspace.None? && report.message.None?
  {
    ConnectionTest(false, None, None)
  }

  /** With the API wrapper behind the service, `.bb test` reports a failure
      with no message even when the wrapper is connected. */
  lemma ConnectedRepositoryReportsFailure(repo: BitbucketRepository, connected: bool)
    requires repo.testConnection == Ok(BooleanAsReport(connected))
    ensures TestConnectionReply(Resolved(TestConnection(repo)), GetWorkspace(repo))
            == "⚠️ Bitbucket connection failed: unknown error"
  {
  }
}
