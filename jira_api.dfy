/** The wrapper around the Jira REST client
    (src/modules/jira/repositories/jiraApi.repository.ts). The client exists
    only when all three credentials are configured; without it, and whenever
    the upstream call fails, every operation answers `false`, `[]` or `null`
    instead of failing. Each upstream answer is a parameter of the operation. */
module JiraApi {
  import opened Outcomes
  import opened Strings
  import opened JiraModel

  /** The upstream issue, as far as `mapIssue` reads it. */
  datatype RawNamed = RawNamed(name: Option<string>)
  datatype RawUser = RawUser(emailAddress: Option<string>)
  datatype RawProjectRef = RawProjectRef(key: Option<string>)
  datatype RawFields = RawFields(
    summary: Option<string>,
    description: Option<string>,
    status: Option<RawNamed>,
    issuetype: Option<RawNamed>,
    priority: Option<RawNamed>,
    assignee: Option<RawUser>,
    reporter: Option<RawUser>,
    project: Option<RawProjectRef>,
    labels: Option<seq<string>>,
    created: Option<string>,
    updated: Option<string>)
  datatype RawIssue = RawIssue(id: Option<string>, key: Option<string>, fields: Option<RawFields>)

  /** An upstream project; only these three fields are read. */
  datatype RawProject = RawProject(id: Option<string>, key: Option<string>, name: Option<string>)

  /** The configuration the client is built from. */
  datatype Credentials = Credentials(host: string, email: string, apiToken: string)

  function NameOf(o: Option<RawNamed>): Option<string>
  {
    if o.Some? then o.value.name else None
  }

  function EmailOf(o: Option<RawUser>): Option<string>
  {
    if o.Some? then o.value.emailAddress else None
  }

  function KeyOf(o: Option<RawProjectRef>): Option<string>
  {
    if o.Some? then o.value.key else None
  }

  /** `mapIssue`: flattens the nested upstream issue. A missing `fields` or
      nested object gives an absent field, never a failure; labels default to
      the empty list. */
  function MapIssue(raw: RawIssue): (issue: Issue)
    ensures issue.id == raw.id && issue.key == raw.key
    ensures issue.labels.Some?
    ensures raw.fields.Some? && raw.fields.value.labels.Some? ==> issue.labels == raw.fields.value.labels
    ensures raw.fields.None? || raw.fields.value.labels.None? ==> issue.labels == Some([])
    ensures raw.fields.None? ==>
              issue == Issue(raw.id, raw.key, None, None, None, None, None, None, None, None, Some([]), None, None)
    ensures issue.status.Some? <==>
              raw.fields.Some? && raw.fields.value.status.Some? && raw.fields.value.status.value.name.Some?
    ensures issue.assignee.Some? <==>
              raw.fields.Some? && raw.fields.value.assignee.Some? && raw.fields.value.assignee.value.emailAddress.Some?
  {
    match raw.fields
    case None =>
      Issue(raw.id, raw.key, None, None, None, None, None, None, None, None, Some([]), None, None)
    case Some(f) =>
      Issue(raw.id, raw.key, f.summary, f.description, NameOf(f.status), NameOf(f.issuetype),
            NameOf(f.priority), EmailOf(f.assignee), EmailOf(f.reporter), KeyOf(f.project),
            Some(f.labels.GetOr([])), f.created, f.updated)
  }

  /** An upstream issue that carries exactly the fields of `issue`, nesting
      omitted where the field is absent. */
  function ToRawIssue(issue: Issue): RawIssue
  {
    RawIssue(issue.id, issue.key, Some(RawFields(
      issue.summary, issue.description,
      if issue.status.Some? then Some(RawNamed(issue.status)) else None,
      if issue.issueType.Some? then Some(RawNamed(issue.issueType)) else None,
      if issue.priority.Some? then Some(RawNamed(issue.priority)) else None,
      if issue.assignee.Some? then Some(RawUser(issue.assignee)) else None,
      if issue.reporter.Some? then Some(RawUser(issue.reporter)) else None,
      if issue.projectKey.Some? then Some(RawProjectRef(issue.projectKey)) else None,
      issue.labels, issue.created, issue.updated)))
  }

  /** Flattening loses nothing: every issue with labels is the flattening of
      its upstream form. */
  lemma MapIssueRoundTrip(issue: Issue)
    requires issue.labels.Some?
    ensures MapIssue(ToRawIssue(issue)) == issue
  {
  }

  /** An issue whose `fields` carry no labels maps to the same issue as one
      carrying an empty list. */
  lemma MapIssueLabelsDefault(raw: RawIssue)
    requires raw.fields.Some? && raw.fields.value.labels.None?
    ensures MapIssue(raw) == MapIssue(raw.(fields := Some(raw.fields.value.(labels := Some([])))))
  {
  }

  /** The `{id, key, name}` summary `getProjects` keeps of a project. */
  function MapProject(raw: RawProject): (project: JiraProject)
    ensures project.id == raw.id && project.key == raw.key && project.name == raw.name
    ensures project.description.None? && project.lead.None?
  {
    JiraProject(raw.id, raw.key, raw.name, None, None)
  }

  /** The client `initClient` builds: none unless host, e-mail and token are
      all present and non-empty. */
  function ClientFor(host: Option<string>, email: Option<string>, apiToken: Option<string>)
    : (client: Option<Credentials>)
    ensures client.Some? <==> Truthy(host) && Truthy(email) && Truthy(apiToken)
    ensures client.Some? ==> client.value == Credentials(host.value, email.value, apiToken.value)
  {
    if Truthy(host) && Truthy(email) && Truthy(apiToken)
    then Some(Credentials(host.value, email.value, apiToken.value))
    else None
  }

  class JiraApiRepository {
    var client: Option<Credentials>

    /** The repository starts without a client and builds one from the
        configured credentials. */
    constructor (host: Option<string>, email: Option<string>, apiToken: Option<string>)
      ensures client == ClientFor(host, email, apiToken)
    {
      client := None;
      new;
      InitClient(host, email, apiToken);
    }

    /** `initClient`: sets the client only when every credential is given. */
    method InitClient(host: Option<string>, email: Option<string>, apiToken: Option<string>)
      modifies this
      ensures client == if Truthy(host) && Truthy(email) && Truthy(apiToken)
                        then Some(Credentials(host.value, email.value, apiToken.value))
                        else old(client)
    {
      if !Truthy(host) || !Truthy(email) || !Truthy(apiToken) {
        return;
      }
      client := Some(Credentials(host.value, email.value, apiToken.value));
    }

    /** `testConnection`: true exactly when there is a client and the server
        answers. */
    method TestConnection(serverInfo: Outcome<ServerInfo>) returns (connected: bool)
      ensures connected <==> client.Some? && serverInfo.Ok?
    {
      if client.None? {
        return false;
      }
      match serverInfo
      case Ok(_) => connected := true;
      case Fail(_) => connected := false;
    }

    /** `getProjects`: the summaries of the listed projects, in order and one
        per project; the empty list without a client or when listing fails. */
    method GetProjects(listed: Outcome<seq<RawProject>>) returns (projects: seq<JiraProject>)
      ensures client.None? || listed.Fail? ==> projects == []
      ensures client.Some? && listed.Ok? ==>
                |projects| == |listed.value| &&
                forall i :: 0 <= i < |projects| ==> projects[i] == MapProject(listed.value[i])
    {
      if client.None? {
        return [];
      }
      match listed
      case Ok(raws) =>
        projects := seq(|raws|, i requires 0 <= i < |raws| => MapProject(raws[i]));
      case Fail(_) =>
        projects := [];
    }

    /** `getIssue`: looks up the given key and flattens the answer; null
        without a client or when the lookup fails. */
    method GetIssue(issueKey: string, findIssue: string -> Outcome<RawIssue>) returns (issue: Option<Issue>)
      ensures issue.Some? <==> client.Some? && findIssue(issueKey).Ok?
      ensures issue.Some? ==> issue.value == MapIssue(findIssue(issueKey).value)
    {
      if client.None? {
        return None;
      }
      match findIssue(issueKey)
      case Ok(raw) => issue := Some(MapIssue(raw));
      case Fail(_) => issue := None;
    }
  }
}
