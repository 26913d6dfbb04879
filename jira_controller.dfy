/** The Slack commands of the Jira module
    (src/modules/jira/controller/jira.controller.ts): `.jira test` and
    `.jira project`. Each awaits one service call inside a `try` and says one
    reply; the reply is the value modelled here. An error is recognised by
    the truthiness of `response.error`, so an empty error reads as data. */
module JiraController {
  import opened Outcomes
  import opened Strings
  import opened JiraModel
  import opened JiraServices

  /** The text said for `.jira test`, given how the service call settled. */
  function TestConnectionReply(response: Settled<Response<ConnectionTest>>): (reply: string)
    ensures response.Rejected? ==> reply == "Ups! Error testing Jira connection."
    ensures response.Resolved? && response.value.Error? && response.value.error != "" ==>
              reply == "Error connecting to Jira: " + response.value.error
    ensures response.Resolved? && response.value.Data? && response.value.data.success ==>
              reply == "✅ Jira connected — version " +
                       (if response.value.data.serverInfo.Some?
                        then response.value.data.serverInfo.value.version.GetOr("unknown") else "unknown")
    ensures response.Resolved? && response.value.Data? && !response.value.data.success ==>
              reply == "⚠️ Jira connection failed: " + response.value.data.message.GetOr("unknown error")
    ensures response.Resolved? && response.value == Error("") ==>
              reply == "⚠️ Jira connection failed: unknown error"
  {
    match response
    case Rejected => "Ups! Error testing Jira connection."
    case Resolved(Error(e)) =>
      if e != "" then "Error connecting to Jira: " + e
      else "⚠️ Jira connection failed: unknown error"
    case Resolved(Data(info)) =>
      if info.success then
        var version := if info.serverInfo.Some? then info.serverInfo.value.version else None;
        "✅ Jira connected — version " + version.GetOr("unknown")
      else "⚠️ Jira connection failed: " + info.message.GetOr("unknown error")
  }

  /** The lines of the project reply: name and key always, then the
      description and the lead when they are non-empty. An absent project
      renders its name and key as `undefined`. */
  function ProjectLines(project: Option<JiraProject>): (lines: seq<string>)
    ensures 1 <= |lines| <= 3
    ensures project.Some? ==> lines[0] == "*Project: " + Show(project.value.name) + "* (" + Show(project.value.key) + ")"
    ensures project.None? ==> lines == ["*Project: undefined* (undefined)"]
    ensures project.Some? ==>
              |lines| == 1 + (if Truthy(project.value.description) then 1 else 0)
                           + (if Truthy(project.value.lead) then 1 else 0)
    ensures project.Some? && Truthy(project.value.description) ==>
              lines[1] == "Description: " + project.value.description.value
    ensures project.Some? && Truthy(project.value.lead) ==>
              lines[|lines| - 1] == "Lead: " + project.value.lead.value
  {
    match project
    case None => ["*Project: undefined* (undefined)"]
    case Some(p) =>
      ["*Project: " + Show(p.name) + "* (" + Show(p.key) + ")"]
      + (if Truthy(p.description) then ["Description: " + p.description.value] else [])
      + (if Truthy(p.lead) then ["Lead: " + p.lead.value] else [])
  }

  /** The text said for `.jira project`. */
  function ProjectReply(response: Settled<Response<JiraProject>>): (reply: string)
    ensures response.Rejected? ==> reply == "Ups! Error fetching Jira project."
    ensures response.Resolved? && response.value.Error? && response.value.error != "" ==>
              reply == "Error fetching Jira project: " + response.value.error
    ensures response.Resolved? && response.value.Data? ==>
              StartsWith(reply, "*Project: ") && reply == Join(ProjectLines(Some(response.value.data)), "\n")
  {
    match response
    case Rejected => "Ups! Error fetching Jira project."
    case Resolved(Error(e)) =>
      if e != "" then "Error fetching Jira project: " + e
      else Join(ProjectLines(None), "\n")
    case Resolved(Data(p)) =>
      var lines := ProjectLines(Some(p));
      JoinStartsWithFirst(lines, "\n");
      assert StartsWith(lines[0], "*Project: ");
      Join(lines, "\n")
  }

  /** `.jira project` end to end: the command asks the service for no
      particular key, and a repository failure is reported with its message,
      or the service's fallback text when the message is empty. */
  lemma ProjectCommandFailure(repo: JiraRepository)
    requires repo.getProject(None).Fail?
    ensures var m := repo.getProject(None).message;
            ProjectReply(Resolved(GetProject(repo, None)))
            == "Error fetching Jira project: " + (if m != "" then m else "Failed to get project information")
  {
  }

  /** With single-line fields, the project reply has one line per element of
      `ProjectLines`. */
  lemma ProjectReplyLineCount(p: JiraProject)
    requires '\n' !in Show(p.name) && '\n' !in Show(p.key)
    requires '\n' !in Show(p.description) && '\n' !in Show(p.lead)
    ensures CountChar(ProjectReply(Resolved(Data(p))), '\n') == |ProjectLines(Some(p))| - 1
  {
    var lines := ProjectLines(Some(p));
    assert forall i :: 0 <= i < |lines| ==> '\n' !in lines[i];
    JoinCountChar(lines, "\n", '\n');
  }

  /** What the service passes on when the repository resolves a boolean, as
      the API wrapper's `testConnection` does: a boolean has no `success`,
      `message` or `serverInfo`, so each reads as absent. */
  function BooleanAsReport(connected: bool): (report: ConnectionTest)
    ensures !report.success && report.message.None? && report.serverInfo.None?
  {
    ConnectionTest(false, None, None)
  }

  /** With the API wrapper behind the service, `.jira test` reports a
      failure with no message even when the wrapper is connected. */
  lemma ConnectedRepositoryReportsFailure(repo: JiraRepository, connected: bool)
    requires repo.testConnection == Ok(BooleanAsReport(connected))
    ensures TestConnectionReply(Resolved(TestConnection(repo))) == "⚠️ Jira connection failed: unknown error"
  {
  }
}
