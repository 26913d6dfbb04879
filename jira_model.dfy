/** The Jira records and constants the core passes around
    (src/modules/jira/shared/interfaces/jira.interfaces.ts and
    src/modules/jira/shared/constants/jira.constants.ts). Fields that the code
    may leave `undefined` are `Option`s. */
module JiraModel {
  import opened Outcomes

  /** `IJiraIssue`, flattened from the upstream issue. */
  datatype Issue = Issue(
    id: Option<string>,
    key: Option<string>,
    summary: Option<string>,
    description: Option<string>,
    status: Option<string>,
    issueType: Option<string>,
    priority: Option<string>,
    assignee: Option<string>,
    reporter: Option<string>,
    projectKey: Option<string>,
    labels: Option<seq<string>>,
    created: Option<string>,
    updated: Option<string>)

  /** `IJiraProject` with the optional `description` and `lead` that the Slack
      reply reads. */
  datatype JiraProject = JiraProject(
    id: Option<string>,
    key: Option<string>,
    name: Option<string>,
    description: Option<string>,
    lead: Option<string>)

  datatype ServerInfo = ServerInfo(version: Option<string>, baseUrl: Option<string>)

  /** The connection report the service hands to the Slack controller. */
  datatype ConnectionTest = ConnectionTest(
    success: bool,
    message: Option<string>,
    serverInfo: Option<ServerInfo>)

  /** A page of search results, cached as an opaque snapshot. */
  datatype SearchResult = SearchResult(issues: seq<Issue>, total: nat, maxResults: nat, startAt: nat)

  /** Prefix of every Jira key in the fast cache. */
  const CachePrefix := "jira"

  /** Fast-cache time-to-live of each kind, in seconds. */
  const IssueTtl: nat := 300
  const SprintTtl: nat := 600
  const ProjectTtl: nat := 900
  const UserIssuesTtl: nat := 120

  /** The values of `JiraIssueType`, and the default a new issue gets. */
  const IssueTypes := ["Bug", "Task", "Story", "Epic", "Subtask"]
  const DefaultIssueType := "Task"

  /** The values of `JiraPriority`. */
  const Priorities := ["Lowest", "Low", "Medium", "High", "Highest"]
}
