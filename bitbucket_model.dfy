/** The Bitbucket records and constants the core passes around
    (src/modules/bitbucket/shared/interfaces/bitbucket.interfaces.ts and
    src/modules/bitbucket/shared/constants/bitbucket.constants.ts). Fields
    that the code may leave `undefined` are `Option`s. */
module BitbucketModel {
  import opened Outcomes
  import opened JsonValues

  /** `IBitbucketPR`, flattened from the upstream pull request. Reviewers
      without a display name or nickname are `undefined` entries. */
  datatype PullRequest = PullRequest(
    id: int,
    title: Option<string>,
    description: Option<string>,
    status: Option<string>,
    author: string,
    sourceBranch: string,
    targetBranch: string,
    repoSlug: string,
    created: Option<string>,
    updated: Option<string>,
    reviewers: seq<Option<string>>)

  /** `IBitbucketRepository`. */
  datatype Repository = Repository(
    slug: Option<string>,
    fullName: Option<string>,
    description: Option<string>,
    language: Option<string>)

  /** `IBitbucketBranch`, as the fast cache stores it. */
  datatype Branch = Branch(name: string, target: string)

  /** The connection report the service hands to the Slack controller. */
  datatype ConnectionTest = ConnectionTest(success: bool, workspace: Option<string>, message: Option<string>)

  /** The payload of a pull request to create: the repository it targets and
      the rest of the body, forwarded untouched. */
  datatype PullRequestDraft = PullRequestDraft(repoSlug: string, details: Json)

  /** Prefix of every Bitbucket key in the fast cache. */
  const CachePrefix := "bb"

  /** Fast-cache time-to-live of each kind, in seconds. */
  const PullRequestTtl: nat := 180
  const BranchesTtl: nat := 900
  const RepositoriesTtl: nat := 600
  const CommitsTtl: nat := 300

  /** The values of `PRState`; `OPEN` is the default state everywhere. */
  const PullRequestStates := ["OPEN", "MERGED", "DECLINED", "SUPERSEDED"]
  const OpenState := "OPEN"
}
