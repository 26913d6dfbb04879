/** The Bitbucket service layer
    (src/modules/bitbucket/services/bitbucket.services.ts): each operation
    awaits one repository call and wraps it in the `{data} | {error}`
    envelope. The repository is abstract: the listing and creating operations
    it is asked for are not among those the API wrapper defines, so each one
    is given by the answer it produces for its arguments. */
module BitbucketServices {
  import opened Outcomes
  import opened BitbucketModel

  /** The repository operations the service awaits. */
  datatype BitbucketRepository = BitbucketRepository(
    testConnection: Outcome<ConnectionTest>,
    listRepositories: Outcome<seq<Repository>>,
    listPullRequests: (string, string) -> Outcome<seq<PullRequest>>,
    createPullRequest: PullRequestDraft -> Outcome<PullRequest>,
    workspace: Option<string>)

  const TestConnectionFallback := "Failed to test Bitbucket connection"
  const ListRepositoriesFallback := "Failed to list repositories"
  const ListPullRequestsFallback := "Failed to list pull requests"
  const CreatePullRequestFallback := "Failed to create pull request"

  /** `testConnection`: any report the repository resolves, whatever its
      success flag, is data; a rejection is its message or the fallback. */
  function TestConnection(repo: BitbucketRepository): (r: Response<ConnectionTest>)
    ensures repo.testConnection.Ok? ==> r == Data(repo.testConnection.value)
    ensures repo.testConnection.Fail? ==>
              r == Error(if repo.testConnection.message != "" then repo.testConnection.message
                         else "Failed to test Bitbucket connection")
  {
    Envelope(repo.testConnection, TestConnectionFallback)
  }

  /** `listRepositories`: the repository's list unchanged, or its error. */
  function ListRepositories(repo: BitbucketRepository): (r: Response<seq<Repository>>)
    ensures repo.listRepositories.Ok? ==> r == Data(repo.listRepositories.value)
    ensures repo.listRepositories.Fail? ==>
              r == Error(if repo.listRepositories.message != "" then repo.listRepositories.message
                         else "Failed to list repositories")
  {
    Envelope(repo.listRepositories, ListRepositoriesFallback)
  }

  /** `listPullRequests`: asks for the slug and the state, `OPEN` when no
      state is given, and wraps the answer. */
  function ListPullRequests(repo: BitbucketRepository, repoSlug: string, state: Option<string>)
    : (r: Response<seq<PullRequest>>)
    ensures var asked := repo.listPullRequests(repoSlug, state.GetOr("OPEN"));
            && (asked.Ok? ==> r == Data(asked.value))
            && (asked.Fail? ==> r == Error(if asked.message != "" then asked.message else "Failed to list pull requests"))
  {
    Envelope(repo.listPullRequests(repoSlug, state.GetOr(OpenState)), ListPullRequestsFallback)
  }

  /** Leaving the state out is the same as asking for `OPEN`. */
  lemma ListPullRequestsDefaultsToOpen(repo: BitbucketRepository, repoSlug: string)
    ensures ListPullRequests(repo, repoSlug, None) == ListPullRequests(repo, repoSlug, Some("OPEN"))
  {
  }

  /** `createPullRequest`: forwards the payload unchanged and returns the
      created pull request, or the error. */
  function CreatePullRequest(repo: BitbucketRepository, draft: PullRequestDraft)
    : (r: Response<PullRequest>)
    ensures repo.createPullRequest(draft).Ok? ==> r == Data(repo.createPullRequest(draft).value)
    ensures repo.createPullRequest(draft).Fail? ==>
              r == Error(if repo.createPullRequest(draft).message != "" then repo.createPullRequest(draft).message
                         else "Failed to create pull request")
  {
    Envelope(repo.createPullRequest(draft), CreatePullRequestFallback)
  }

  /** `getWorkspace`: the repository's value, absent included. */
  function GetWorkspace(repo: BitbucketRepository): (workspace: Option<string>)
    ensures workspace == repo.workspace
  {
    repo.workspace
  }

  /** No operation ever answers with an empty error. */
  lemma ServiceErrorsAreNonEmpty(repo: BitbucketRepository, repoSlug: string, state: Option<string>,
                                 draft: PullRequestDraft)
    ensures TestConnection(repo).Error? ==> TestConnection(repo).error != ""
    ensures ListRepositories(repo).Error? ==> ListRepositories(repo).error != ""
    ensures ListPullRequests(repo, repoSlug, state).Error? ==> ListPullRequests(repo, repoSlug, state).error != ""
    ensures CreatePullRequest(repo, draft).Error? ==> CreatePullRequest(repo, draft).error != ""
  {
  }
}
