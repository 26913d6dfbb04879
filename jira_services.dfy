/** The Jira service layer (src/modules/jira/services/jira.services.ts): each
    operation awaits one repository call and wraps it in the `{data} | {error}`
    envelope. The repository is abstract: the operations it is asked for are
    not among those the API wrapper defines, so each one is given by the
    answer it produces. */
module JiraServices {
  import opened Outcomes
  import opened JiraModel

  /** The repository operations the service awaits. */
  datatype JiraRepository = JiraRepository(
    testConnection: Outcome<ConnectionTest>,
    getProject: Option<string> -> Outcome<JiraProject>,
    configuredProjectKey: Option<string>)

  const TestConnectionFallback := "Failed to test Jira connection"
  const GetProjectFallback := "Failed to get project information"

  /** `testConnection`: any report the repository resolves, successful or
      not, is data; a rejection is its message, or the fallback text when the
      message is empty. */
  function TestConnection(repo: JiraRepository): (r: Response<ConnectionTest>)
    ensures repo.testConnection.Ok? ==> r == Data(repo.testConnection.value)
    ensures repo.testConnection.Fail? ==>
              r == Error(if repo.testConnection.message != "" then repo.testConnection.message
                         else "Failed to test Jira connection")
  {
    Envelope(repo.testConnection, TestConnectionFallback)
  }

  /** `getProject`: asks the repository for the given project key unchanged
      and wraps its answer. */
  function GetProject(repo: JiraRepository, projectKey: Option<string>): (r: Response<JiraProject>)
    ensures repo.getProject(projectKey).Ok? ==> r == Data(repo.getProject(projectKey).value)
    ensures repo.getProject(projectKey).Fail? ==>
              r == Error(if repo.getProject(projectKey).message != "" then repo.getProject(projectKey).message
                         else "Failed to get project information")
  {
    Envelope(repo.getProject(projectKey), GetProjectFallback)
  }

  /** `getConfiguredProjectKey`: the repository's value, absent included. */
  function GetConfiguredProjectKey(repo: JiraRepository): (key: Option<string>)
    ensures key == repo.configuredProjectKey
  {
    repo.configuredProjectKey
  }

  /** No operation ever answers with an empty error, so a caller that tests
      `response.error` for truthiness never mistakes an error for data. */
  lemma ServiceErrorsAreNonEmpty(repo: JiraRepository, projectKey: Option<string>)
    ensures TestConnection(repo).Error? ==> TestConnection(repo).error != ""
    ensures GetProject(repo, projectKey).Error? ==> GetProject(repo, projectKey).error != ""
  {
  }
}
