/** The wrapper around the Bitbucket Cloud REST API
    (src/modules/bitbucket/repositories/bitbucketApi.repository.ts). The HTTP
    client and the workspace are set only when workspace, user name and app
    password are all configured; without the client, and whenever a request
    fails, every operation answers `false` or `[]`. A request is a GET of a
    path; its answer is a parameter of the operation. */
module BitbucketApi {
  import opened Outcomes
  import opened Strings
  import opened BitbucketModel

  datatype RawAccount = RawAccount(display_name: Option<string>, nickname: Option<string>)
  datatype RawBranchRef = RawBranchRef(name: Option<string>)
  datatype RawEndpoint = RawEndpoint(branch: Option<RawBranchRef>)

  /** The upstream pull request, as far as `mapPR` reads it. */
  datatype RawPullRequest = RawPullRequest(
    id: int,
    title: Option<string>,
    description: Option<string>,
    state: Option<string>,
    author: Option<RawAccount>,
    source: Option<RawEndpoint>,
    destination: Option<RawEndpoint>,
    created_on: Option<string>,
    updated_on: Option<string>,
    reviewers: Option<seq<RawAccount>>)

  datatype RawRepository = RawRepository(
    slug: Option<string>,
    full_name: Option<string>,
    description: Option<string>,
    language: Option<string>)

  /** A paginated answer; only `values` is read. */
  datatype RawPage<T> = RawPage(values: Option<seq<T>>)

  /** The basic-auth configuration of the client. */
  datatype Credentials = Credentials(username: string, appPassword: string)

  function BranchName(e: Option<RawEndpoint>): string
  {
    if e.Some? && e.value.branch.Some? then e.value.branch.value.name.GetOr("") else ""
  }

  /** A reviewer's name: the display name, else the nickname. */
  function ReviewerName(r: RawAccount): Option<string>
  {
    if r.display_name.Some? then r.display_name else r.nickname
  }

  /** `mapPR`: flattens an upstream pull request of the given repository. */
  function MapPullRequest(raw: RawPullRequest, repoSlug: string): (pr: PullRequest)
    ensures pr.id == raw.id && pr.title == raw.title && pr.status == raw.state
    ensures pr.repoSlug == repoSlug
    ensures pr.author == if raw.author.None? then ""
                         else if raw.author.value.display_name.Some? then raw.author.value.display_name.value
                         else raw.author.value.nickname.GetOr("")
    ensures raw.source.None? ==> pr.sourceBranch == ""
    ensures raw.destination.None? ==> pr.targetBranch == ""
    ensures raw.reviewers.None? ==> pr.reviewers == []
    ensures raw.reviewers.Some? ==>
              |pr.reviewers| == |raw.reviewers.value| &&
              forall i :: 0 <= i < |pr.reviewers| ==>
                pr.reviewers[i] == (if raw.reviewers.value[i].display_name.Some?
                                    then raw.reviewers.value[i].display_name
                                    else raw.reviewers.value[i].nickname)
  {
    var reviewers := raw.reviewers.GetOr([]);
    PullRequest(
      raw.id, raw.title, raw.description, raw.state,
      if raw.author.Some? then (if raw.author.value.display_name.Some? then raw.author.value.display_name.value
                                else raw.author.value.nickname.GetOr(""))
      else "",
      BranchName(raw.source), BranchName(raw.destination), repoSlug,
      raw.created_on, raw.updated_on,
      seq(|reviewers|, i requires 0 <= i < |reviewers| => ReviewerName(reviewers[i])))
  }

  /** An upstream pull request carrying exactly the fields of `pr`: the author
      and branches by name, every reviewer by display name. */
  function ToRawPullRequest(pr: PullRequest): RawPullRequest
  {
    RawPullRequest(
      pr.id, pr.title, pr.description, pr.status,
      Some(RawAccount(Some(pr.author), None)),
      Some(RawEndpoint(Some(RawBranchRef(Some(pr.sourceBranch))))),
      Some(RawEndpoint(Some(RawBranchRef(Some(pr.targetBranch))))),
      pr.created, pr.updated,
      Some(seq(|pr.reviewers|, i requires 0 <= i < |pr.reviewers| => RawAccount(pr.reviewers[i], None))))
  }

  /** Flattening loses nothing: every pull request is the flattening of its
      upstream form in its own repository. */
  lemma MapPullRequestRoundTrip(pr: PullRequest)
    ensures MapPullRequest(ToRawPullRequest(pr), pr.repoSlug) == pr
  {
    var mapped := MapPullRequest(ToRawPullRequest(pr), pr.repoSlug);
    assert mapped.reviewers == pr.reviewers;
  }

  /** The repository record `getRepositories` keeps: `full_name` is renamed
      to `fullName`, the other fields are kept. */
  function MapRepository(raw: RawRepository): (r: Repository)
    ensures r.slug == raw.slug && r.fullName == raw.full_name
    ensures r.description == raw.description && r.language == raw.language
  {
    Repository(raw.slug, raw.full_name, raw.description, raw.language)
  }

  /** The client `initClient` builds: none unless workspace, user name and
      app password are all present and non-empty. */
  function ClientFor(workspace: Option<string>, username: Option<string>, appPassword: Option<string>)
    : (client: Option<Credentials>)
    ensures client.Some? <==> Truthy(workspace) && Truthy(username) && Truthy(appPassword)
    ensures client.Some? ==> client.value == Credentials(username.value, appPassword.value)
  {
    if Truthy(workspace) && Truthy(username) && Truthy(appPassword)
    then Some(Credentials(username.value, appPassword.value))
    else None
  }

  class BitbucketApiRepository {
    var client: Option<Credentials>
    var workspace: string

    /** The repository starts without a client and an empty workspace, then
        configures both from the environment values. */
    constructor (workspace: Option<string>, username: Option<string>, appPassword: Option<string>)
      ensures client == ClientFor(workspace, username, appPassword)
      ensures this.workspace == if client.Some? then workspace.value else ""
    {
      client := None;
      this.workspace := "";
      new;
      InitClient(workspace, username, appPassword);
    }

    /** `initClient`: sets the workspace and the client only when every
        credential is given. */
    method InitClient(workspace: Option<string>, username: Option<string>, appPassword: Option<string>)
      modifies this
      ensures if Truthy(workspace) && Truthy(username) && Truthy(appPassword)
              then client == Some(Credentials(username.value, appPassword.value)) && this.workspace == workspace.value
              else client == old(client) && this.workspace == old(this.workspace)
    {
      if !Truthy(workspace) || !Truthy(username) || !Truthy(appPassword) {
        return;
      }
      this.workspace := workspace.value;
      client := Some(Credentials(username.value, appPassword.value));
    }

    /** `testConnection`: GETs the workspace; true exactly when there is a
        client and the request succeeds. */
    method TestConnection(get: string -> Outcome<()>) returns (connected: bool)
      ensures connected <==> client.Some? && get("/workspaces/" + workspace).Ok?
    {
      if client.None? {
        return false;
      }
      match get("/workspaces/" + workspace)
      case Ok(_) => connected := true;
      case Fail(_) => connected := false;
    }

    /** `getRepositories`: the repositories of the workspace, in order; the
        empty list without a client, on failure or without `values`. */
    method GetRepositories(get: string -> Outcome<RawPage<RawRepository>>) returns (repos: seq<Repository>)
      ensures client.None? || get("/repositories/" + workspace).Fail? ==> repos == []
      ensures client.Some? && get("/repositories/" + workspace).Ok? ==>
                var values := get("/repositories/" + workspace).value.values.GetOr([]);
                |repos| == |values| && forall i :: 0 <= i < |repos| ==> repos[i] == MapRepository(values[i])
    {
      if client.None? {
        return [];
      }
      match get("/repositories/" + workspace)
      case Ok(page) =>
        var values := page.values.GetOr([]);
        repos := seq(|values|, i requires 0 <= i < |values| => MapRepository(values[i]));
      case Fail(_) =>
        repos := [];
    }

    /** `getPullRequests`: the pull requests of one repository of the
        workspace, in upstream order, each tagged with that repository; the
        empty list without a client, on failure or without `values`. */
    method GetPullRequests(repoSlug: string, get: string -> Outcome<RawPage<RawPullRequest>>)
      returns (prs: seq<PullRequest>)
      ensures client.None? || get("/repositories/" + workspace + "/" + repoSlug + "/pullrequests").Fail? ==> prs == []
      ensures client.Some? && get("/repositories/" + workspace + "/" + repoSlug + "/pullrequests").Ok? ==>
                var values := get("/repositories/" + workspace + "/" + repoSlug + "/pullrequests").value.values.GetOr([]);
                |prs| == |values| &&
                forall i :: 0 <= i < |prs| ==> prs[i] == MapPullRequest(values[i], repoSlug)
      ensures forall i :: 0 <= i < |prs| ==> prs[i].repoSlug == repoSlug
    {
      if client.None? {
        return [];
      }
      match get("/repositories/" + workspace + "/" + repoSlug + "/pullrequests")
      case Ok(page) =>
        var values := page.values.GetOr([]);
        prs := seq(|values|, i requires 0 <= i < |values| => MapPullRequest(values[i], repoSlug));
      case Fail(_) =>
        prs := [];
    }
  }
}
