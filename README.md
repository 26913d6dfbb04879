# Atlassian layer of the Slack bot, in Dafny

This project models the Atlassian read side of a Slack bot written in
TypeScript. The bot answers `.jira …` and `.bb …` chat commands and serves a
few HTTP routes. The modelled parts are these:

- **The JQL builder.** A class whose `conditions` list every predicate appends
  to. `Build` joins the conditions with `" AND "`, with no escaping.
- **The Jira and Bitbucket API wrappers.** A client exists only when every
  credential is configured. Without it, or when an upstream call fails, the
  answer is `false`, `[]` or `null`. The normalisers flatten the nested
  upstream JSON into flat records.
- **The Slack formatters** for issues, issue lists and pull requests.
- **The two fast caches.** A key-value store with a time-to-live per key kind,
  under the `jira:` and `bb:` namespaces. Store failures are absorbed.
- **The two durable cache tables.** Each is keyed by a single primary column
  and each row is stamped with the time of its upsert.
- **The two service layers.** Each maps one repository outcome to the
  `{data} | {error}` envelope.
- **The request validators** (zod schemas).
- **The Slack command controllers** of both modules: argument extraction and
  reply selection.
- **The users HTTP controller**: payload construction and validation.

Calls into code outside the model are parameters:

- An awaited call is an `Outcome` (`Ok(value)` or `Fail(message)`). When the
  argument it receives matters, it is a function from that argument.
- A `try` around a service call is a `Settled` value (`Resolved` or
  `Rejected`).
- The clock is a `now` parameter in seconds.
- A failing store or database is a `fault` flag.

The modules and the source files they model:

- `Outcomes`, `JsonValues`: shared shapes (outcomes.dfy).
- `Strings`: join, decimal text, trim and split, newline counting (strings.dfy).
- `UriEncoding`: `encodeURIComponent`.
- `ExpiringStore`: `SET … EX` and `GET`.
- `Jql`: jql.builder.ts.
- `JiraModel`, `BitbucketModel`: the interfaces and constants.
- `JiraApi`, `BitbucketApi`: the API wrappers.
- `JiraFormatters`, `BitbucketFormatters`: the Slack formatters.
- `JiraCacheRedis`, `BitbucketCacheRedis`: the fast caches.
- `JiraCacheTable`, `BitbucketCacheTable`: the durable tables.
- `JiraServices`, `BitbucketServices`: the services.
- `Validation`, `JiraSchemas`, `BitbucketSchemas`: the validators.
- `JiraController`, `BitbucketController`, `UsersController`: the controllers.

Where the code is inconsistent, the model follows the code as written.

- **Missing repository methods.** The services call repository methods that
  the API wrappers do not define (`getProject`, `getConfiguredProjectKey`,
  `listRepositories`, `listPullRequests`, `createPullRequest`, `getWorkspace`).
  The services are therefore modelled against an abstract repository: a
  record of answers.
- **`testConnection` and `.success`.** The wrappers' `testConnection` resolves
  a boolean, while the services and controllers read `.success`, `.message`
  and `.workspace` from it. Those read as absent on a boolean. With the real
  wrapper behind it, `.jira test` or `.bb test` therefore reports
  `⚠️ … connection failed: unknown error` even when connected. The lemmas
  `JiraController.ConnectedRepositoryReportsFailure` and
  `BitbucketController.ConnectedRepositoryReportsFailure` state this.
- **Fields the Bitbucket controller reads.** The controller reads
  `repo.name`, `pr.destinationBranch`, `branch.isDefault` and
  `branch.latestCommit`, which the declared records do not have. The
  listings are modelled over records holding the fields the controller reads.
  Adapters from the declared records show what the listing prints for those
  records: `undefined`.
- **Undefined service methods for branches and commits.** `getBranches` and
  `getCommits` call service methods that the service does not define. The
  service's answer to them is a parameter.
- **Declared enums that do not exist.** The Jira schema's priority enum
  `JiraIssuePriority` is not exported by the constants file. The model uses
  the values of `JiraPriority`.

## Model

| member | source | states |
|---|---|---|
| Outcomes.Envelope | src/modules/jira/services/jira.services.ts:40-48 | a resolved value becomes `{data}` and only then; a rejection becomes `{error}` with its message, or the fallback when the message is empty; an error is never empty |
| ExpiringStore.Put | src/modules/jira/repositories/redis/jiraCache.redis.ts:41-43 | `SET key value EX ttl` at `now`: the key holds the value until `now + ttl`, and every other key keeps its entry |
| ExpiringStore.Fetch | src/modules/jira/repositories/redis/jiraCache.redis.ts:31-32 | `GET` returns the value exactly when the key is present and not expired, and nil otherwise |
| ExpiringStore.FetchAfterPut | src/modules/jira/repositories/redis/jiraCache.redis.ts:29-47 | a read of the key just written returns the value before `now + ttl`, and nothing from then on |
| ExpiringStore.FetchOtherKey | src/modules/jira/repositories/redis/jiraCache.redis.ts:41 | a write to one key changes what no other key reads |
| UriEncoding.UriRoundTrip | src/modules/jira/repositories/redis/jiraCache.redis.ts:11 | decoding inverts `encodeURIComponent` |
| UriEncoding.EncodeInjective | src/modules/jira/repositories/redis/jiraCache.redis.ts:11 | different e-mail addresses encode differently |
| Jql.Query | src/modules/jira/utils/jql.builder.ts:29 | no conditions join to the empty string; one condition joins to itself |
| Jql.QueryAppend | src/modules/jira/utils/jql.builder.ts:28-30 | appending a condition extends the query by `" AND "` and the condition; earlier text and order are kept |
| Jql.UnescapedValueForgesCondition | src/modules/jira/utils/jql.builder.ts:23-26 | a value holding `" AND status = "` yields exactly the query of two separate conditions, because values are not escaped |
| Jql.JqlBuilder.constructor | src/modules/jira/utils/jql.builder.ts:6 | a fresh builder has no conditions and builds the empty string |
| Jql.JqlBuilder.Build | src/modules/jira/utils/jql.builder.ts:28-30 | the query of the conditions in call order; it reads the builder and changes nothing |
| Jql.JqlBuilder.AssignedTo | src/modules/jira/utils/jql.builder.ts:8-11 | appends exactly `assignee = "v"` at the end, keeps earlier conditions, and returns the same builder |
| Jql.JqlBuilder.InStatus | src/modules/jira/utils/jql.builder.ts:13-16 | appends exactly `status = "v"` at the end and returns the same builder |
| Jql.JqlBuilder.InSprint | src/modules/jira/utils/jql.builder.ts:18-21 | appends exactly `sprint = "v"` at the end and returns the same builder |
| Jql.JqlBuilder.InProject | src/modules/jira/utils/jql.builder.ts:23-26 | appends exactly `project = "v"` at the end and returns the same builder |
| Jql.ChainedBuild | src/modules/jira/utils/jql.builder.ts:8-30 | chaining `inProject(p).assignedTo(u).build()` on the returned builder gives both conditions in call order |
| JiraApi.MapIssue | src/modules/jira/repositories/jiraApi.repository.ts:109-125 | id and key are copied; status and assignee are present exactly when their nested field is; labels default to `[]` and are otherwise unchanged; a missing `fields` yields absent fields, never a failure |
| JiraApi.MapIssueRoundTrip | src/modules/jira/repositories/jiraApi.repository.ts:109-125 | every issue with labels is the flattening of its upstream form, so flattening loses nothing |
| JiraApi.MapIssueLabelsDefault | src/modules/jira/repositories/jiraApi.repository.ts:121 | missing labels map the same as an empty label list |
| JiraApi.MapProject | src/modules/jira/repositories/jiraApi.repository.ts:81-85 | a project keeps exactly `{id, key, name}` |
| JiraApi.ClientFor | src/modules/jira/repositories/jiraApi.repository.ts:30-49 | a client exists exactly when host, e-mail and token are all present and non-empty |
| JiraApi.JiraApiRepository.constructor | src/modules/jira/repositories/jiraApi.repository.ts:15 | the client starts null and is then set by the credential gate |
| JiraApi.JiraApiRepository.InitClient | src/modules/jira/repositories/jiraApi.repository.ts:30-52 | sets the client only when every credential is given, and otherwise leaves it as it was |
| JiraApi.JiraApiRepository.TestConnection | src/modules/jira/repositories/jiraApi.repository.ts:57-69 | true exactly when there is a client and the server answers; failures give false |
| JiraApi.JiraApiRepository.GetProjects | src/modules/jira/repositories/jiraApi.repository.ts:74-90 | `[]` without a client or on failure; otherwise one `MapProject` per listed project, in order |
| JiraApi.JiraApiRepository.GetIssue | src/modules/jira/repositories/jiraApi.repository.ts:95-107 | null without a client or on failure; otherwise the flattening of the issue found for that key |
| JiraFormatters.IssueLinesShape | src/modules/jira/utils/jiraFormatters.ts:6-25 | 2 to 5 lines, header and status first; a Priority, Assignee or Labels line exists exactly when its field is non-empty, in that order |
| JiraFormatters.FormatIssueForSlack | src/modules/jira/utils/jiraFormatters.ts:6-25 | the pushed lines, joined by newlines |
| JiraFormatters.IssueTextLineCount | src/modules/jira/utils/jiraFormatters.ts:24 | with single-line fields the text has one line per element of the list: 1 to 4 newlines |
| JiraFormatters.FormatIssueListForSlack | src/modules/jira/utils/jiraFormatters.ts:30-40 | `No issues found.` exactly for the empty list; one issue gives exactly its bullet line, and every list starts with the first issue's line |
| JiraFormatters.FormatIssueListAppend | src/modules/jira/utils/jiraFormatters.ts:35-39 | appending an issue appends a newline and its bullet line, so lines follow input order |
| JiraFormatters.IssueListLineCount | src/modules/jira/utils/jiraFormatters.ts:35-39 | n issues with single-line fields render as n lines |
| BitbucketFormatters.FormatPRForSlack | src/modules/bitbucket/utils/bitbucketFormatters.ts:6-8 | starts with `*PR #<id>:* <title>`, has a newline right after that line, then the status line, and ends with `Author: ` and the author |
| BitbucketFormatters.PRTextIsTwoLines | src/modules/bitbucket/utils/bitbucketFormatters.ts:7 | with single-line fields the text holds exactly one newline, and the second line begins with `Status: ` |
| BitbucketFormatters.PRTextShowsBranches | src/modules/bitbucket/utils/bitbucketFormatters.ts:7 | the second line shows `source → target` right after the status |
| JiraCacheRedis.IssueKey | src/modules/jira/repositories/redis/jiraCache.redis.ts:9 | `jira:issue:` followed by the issue key verbatim |
| JiraCacheRedis.ActiveSprintKey | src/modules/jira/repositories/redis/jiraCache.redis.ts:10 | `jira:sprint:active:` followed by the project key |
| JiraCacheRedis.UserIssuesKey | src/modules/jira/repositories/redis/jiraCache.redis.ts:11 | the URI-encoded e-mail between `jira:user:` and `:issues` |
| JiraCacheRedis.IssueKeyInjective | src/modules/jira/repositories/redis/jiraCache.redis.ts:9 | equal issue cache keys come from equal issue keys |
| JiraCacheRedis.ActiveSprintKeyInjective | src/modules/jira/repositories/redis/jiraCache.redis.ts:10 | equal sprint cache keys come from equal project keys |
| JiraCacheRedis.UserIssuesKeyInjective | src/modules/jira/repositories/redis/jiraCache.redis.ts:11 | equal user-issue cache keys come from equal e-mail addresses |
| JiraCacheRedis.KeyKindsDisjoint | src/modules/jira/repositories/redis/jiraCache.redis.ts:8-12 | keys of different kinds never collide |
| JiraCacheRedis.JiraCacheRedis.constructor | src/modules/jira/repositories/redis/jiraCache.redis.ts:8-12 | the store starts empty |
| JiraCacheRedis.JiraCacheRedis.GetIssue | src/modules/jira/repositories/redis/jiraCache.redis.ts:29-37 | the unexpired issue under its key; null on a miss, on expiry and when the store fails |
| JiraCacheRedis.JiraCacheRedis.SetIssue | src/modules/jira/repositories/redis/jiraCache.redis.ts:39-47 | stores the issue with TTL 300; a failing store changes nothing |
| JiraCacheRedis.JiraCacheRedis.GetActiveSprint | src/modules/jira/repositories/redis/jiraCache.redis.ts:49-57 | the unexpired search under the sprint key; null on a miss, on expiry and on failure |
| JiraCacheRedis.JiraCacheRedis.SetActiveSprint | src/modules/jira/repositories/redis/jiraCache.redis.ts:59-67 | stores the search with TTL 600; a failing store changes nothing |
| JiraCacheRedis.JiraCacheRedis.GetUserIssues | src/modules/jira/repositories/redis/jiraCache.redis.ts:69-77 | the unexpired search under the user key; null on a miss, on expiry and on failure |
| JiraCacheRedis.JiraCacheRedis.SetUserIssues | src/modules/jira/repositories/redis/jiraCache.redis.ts:79-87 | stores the search with TTL 120; a failing store changes nothing |
| JiraCacheRedis.IssueReadAfterWrite | src/modules/jira/repositories/redis/jiraCache.redis.ts:29-87 | after `setIssue`, and writes of the other two kinds, `getIssue` returns the issue within 300 s and null afterwards |
| BitbucketCacheRedis.BranchesKey | src/modules/bitbucket/repositories/redis/bitbucketCache.redis.ts:12 | the slug between `bb:repo:` and `:branches` |
| BitbucketCacheRedis.PullRequestKey | src/modules/bitbucket/repositories/redis/bitbucketCache.redis.ts:13 | `bb:pr:` followed by the slug, `:` and the decimal id |
| BitbucketCacheRedis.BranchesKeyInjective | src/modules/bitbucket/repositories/redis/bitbucketCache.redis.ts:12 | equal branch keys come from equal slugs |
| BitbucketCacheRedis.PullRequestKeyInjective | src/modules/bitbucket/repositories/redis/bitbucketCache.redis.ts:13 | distinct (slug, id) pairs give distinct keys, even for slugs holding a colon |
| BitbucketCacheRedis.KeyKindsDisjoint | src/modules/bitbucket/repositories/redis/bitbucketCache.redis.ts:11-14 | a branch key is never a pull-request key, and neither is ever a Jira key |
| BitbucketCacheRedis.BitbucketCacheRedis.constructor | src/modules/bitbucket/repositories/redis/bitbucketCache.redis.ts:11-14 | the store starts empty |
| BitbucketCacheRedis.BitbucketCacheRedis.GetBranches | src/modules/bitbucket/repositories/redis/bitbucketCache.redis.ts:31-39 | the unexpired branches of the repository; null on a miss, on expiry and on failure |
| BitbucketCacheRedis.BitbucketCacheRedis.SetBranches | src/modules/bitbucket/repositories/redis/bitbucketCache.redis.ts:41-49 | stores the branches with TTL 900; a failing store changes nothing |
| BitbucketCacheRedis.BitbucketCacheRedis.GetPullRequest | src/modules/bitbucket/repositories/redis/bitbucketCache.redis.ts:51-59 | the unexpired pull request under slug and id; null on a miss, on expiry and on failure |
| BitbucketCacheRedis.BitbucketCacheRedis.SetPullRequest | src/modules/bitbucket/repositories/redis/bitbucketCache.redis.ts:61-69 | stores the pull request with TTL 180; a failing store changes nothing |
| BitbucketCacheRedis.PullRequestReadAfterWrite | src/modules/bitbucket/repositories/redis/bitbucketCache.redis.ts:51-69 | after `setPR`, and a write of the same id in another repository, `getPR` returns the pull request within 180 s and null afterwards |
| JiraCacheTable.Upsert | src/modules/jira/repositories/database/jiraCache.dataSource.ts:24-35 | inserts the row, or replaces the row with the same issue key; other rows are unchanged |
| JiraCacheTable.Lookup | src/modules/jira/repositories/database/jiraCache.dataSource.ts:37-44 | the row of the key, or null when there is none |
| JiraCacheTable.UpsertKeepsKeyed | src/modules/jira/repositories/database/jiraCache.dataSource.ts:26 | an upsert keeps every row under its own primary key |
| JiraCacheTable.LookupAfterUpsert | src/modules/jira/repositories/database/jiraCache.dataSource.ts:24-39 | a lookup after an upsert finds that project key and data, stamped with the time of the upsert |
| JiraCacheTable.UpsertReplaces | src/modules/jira/repositories/database/jiraCache.dataSource.ts:26 | a second upsert of a key leaves the table as if only it had happened |
| JiraCacheTable.JiraCacheDataSource.constructor | src/entities/JiraIssueCache.ts:9-10 | the table starts empty, with one row per key |
| JiraCacheTable.JiraCacheDataSource.UpsertIssue | src/modules/jira/repositories/database/jiraCache.dataSource.ts:24-35 | saves the row stamped with `now` and keeps one row per key; a failing save changes nothing and returns normally |
| JiraCacheTable.JiraCacheDataSource.GetIssue | src/modules/jira/repositories/database/jiraCache.dataSource.ts:37-44 | the row of the key; null when absent or on failure |
| BitbucketCacheTable.Upsert | src/modules/bitbucket/repositories/database/bitbucketCache.dataSource.ts:24-41 | inserts the row, or replaces the row with the same id; other rows are unchanged |
| BitbucketCacheTable.Lookup | src/modules/bitbucket/repositories/database/bitbucketCache.dataSource.ts:43-50 | the row of the id, or null when there is none |
| BitbucketCacheTable.UpsertKeepsKeyed | src/entities/BitbucketPRCache.ts:11-12 | an upsert keeps every row under its own id |
| BitbucketCacheTable.LookupAfterUpsert | src/modules/bitbucket/repositories/database/bitbucketCache.dataSource.ts:24-45 | a lookup after an upsert finds that slug, status and data, stamped with the time of the upsert |
| BitbucketCacheTable.SameIdOtherRepositoryOverwrites | src/entities/BitbucketPRCache.ts:11-12 | the same id in another repository overwrites the earlier row, because rows are keyed by id alone |
| BitbucketCacheTable.BitbucketCacheDataSource.constructor | src/entities/BitbucketPRCache.ts:11-12 | the table starts empty, with one row per id |
| BitbucketCacheTable.BitbucketCacheDataSource.UpsertPullRequest | src/modules/bitbucket/repositories/database/bitbucketCache.dataSource.ts:24-41 | saves the row stamped with `now` and keeps one row per id; a failing save changes nothing |
| BitbucketCacheTable.BitbucketCacheDataSource.GetPullRequest | src/modules/bitbucket/repositories/database/bitbucketCache.dataSource.ts:43-50 | the row of the id; null when absent or on failure |
| JiraServices.TestConnection | src/modules/jira/services/jira.services.ts:30-49 | any resolved report is data, successful or not; a rejection is its message or `Failed to test Jira connection` |
| JiraServices.GetProject | src/modules/jira/services/jira.services.ts:54-69 | asks for the project key unchanged; the project as data, or the message or `Failed to get project information` |
| JiraServices.GetConfiguredProjectKey | src/modules/jira/services/jira.services.ts:74-76 | the repository's value unchanged, absent included |
| JiraServices.ServiceErrorsAreNonEmpty | src/modules/jira/services/jira.services.ts:43-47 | no operation answers an empty error |
| BitbucketServices.TestConnection | src/modules/bitbucket/services/bitbucket.services.ts:36-51 | any resolved report is data, whatever its success flag; a rejection is its message or the fallback |
| BitbucketServices.ListRepositories | src/modules/bitbucket/services/bitbucket.services.ts:56-67 | the repository list unchanged as data, or the message or `Failed to list repositories` |
| BitbucketServices.ListPullRequests | src/modules/bitbucket/services/bitbucket.services.ts:72-86 | asks for the slug and the state, `OPEN` when none is given; data, or the message or `Failed to list pull requests` |
| BitbucketServices.ListPullRequestsDefaultsToOpen | src/modules/bitbucket/services/bitbucket.services.ts:74 | leaving the state out is the same as asking for `OPEN` |
| BitbucketServices.CreatePullRequest | src/modules/bitbucket/services/bitbucket.services.ts:91-102 | forwards the payload unchanged; the created pull request as data, or the message or `Failed to create pull request` |
| BitbucketServices.GetWorkspace | src/modules/bitbucket/services/bitbucket.services.ts:107-109 | the repository's value unchanged, absent included |
| BitbucketServices.ServiceErrorsAreNonEmpty | src/modules/bitbucket/services/bitbucket.services.ts:47-50 | no operation answers an empty error |
| BitbucketApi.MapPullRequest | src/modules/bitbucket/repositories/bitbucketApi.repository.ts:117-131 | id, title and state are copied and the slug is the argument; author is display name, else nickname, else `''`; missing branches are `''`; reviewers are `[]` when absent, else one name per reviewer in order |
| BitbucketApi.MapPullRequestRoundTrip | src/modules/bitbucket/repositories/bitbucketApi.repository.ts:117-131 | every pull request is the flattening of its upstream form, so flattening loses nothing |
| BitbucketApi.MapRepository | src/modules/bitbucket/repositories/bitbucketApi.repository.ts:86-91 | `full_name` becomes `fullName`; slug, description and language are kept |
| BitbucketApi.ClientFor | src/modules/bitbucket/repositories/bitbucketApi.repository.ts:36-54 | a client exists exactly when workspace, user name and app password are all present and non-empty |
| BitbucketApi.BitbucketApiRepository.constructor | src/modules/bitbucket/repositories/bitbucketApi.repository.ts:20-25 | client null and workspace `''` unless every credential is configured |
| BitbucketApi.BitbucketApiRepository.InitClient | src/modules/bitbucket/repositories/bitbucketApi.repository.ts:36-57 | sets workspace and client only when every credential is given; otherwise changes nothing |
| BitbucketApi.BitbucketApiRepository.TestConnection | src/modules/bitbucket/repositories/bitbucketApi.repository.ts:62-74 | true exactly when there is a client and the GET of the workspace succeeds |
| BitbucketApi.BitbucketApiRepository.GetRepositories | src/modules/bitbucket/repositories/bitbucketApi.repository.ts:79-96 | `[]` without a client or on failure; otherwise one mapped repository per value, in order, and `[]` without `values` |
| BitbucketApi.BitbucketApiRepository.GetPullRequests | src/modules/bitbucket/repositories/bitbucketApi.repository.ts:101-115 | `[]` without a client or on failure; otherwise the mapped pull requests in upstream order, each carrying the slug |
| Validation.Failures | src/modules/jira/shared/schemas/jira.schemas.ts:9-17 | a parse fails exactly when some check fails, naming only declared fields |
| Validation.ParseDecimalOfInt | src/modules/jira/shared/schemas/jira.schemas.ts:21 | the decimal text of an integer reads back as that integer, exactly |
| Validation.CoerceDecimalText | src/modules/bitbucket/shared/schemas/bitbucket.schemas.ts:8 | coercing the decimal text of an integer within ±(2^53−1) gives that integer |
| Validation.CoerceSingletonArray | src/modules/bitbucket/shared/schemas/bitbucket.schemas.ts:8 | a one-element array coerces as its element's text: a string or number as itself, `null` as 0, a boolean or object to `NaN` |
| Validation.CoerceLongArray | src/modules/bitbucket/shared/schemas/bitbucket.schemas.ts:8 | an empty array coerces to 0, and an array of several elements to `NaN` |
| JiraSchemas.ParseIssueKeyParams | src/modules/jira/shared/schemas/jira.schemas.ts:5-7 | valid exactly when `issueKey` is a non-empty string, which it returns |
| JiraSchemas.ParseCreateIssue | src/modules/jira/shared/schemas/jira.schemas.ts:9-17 | valid exactly when the project key is non-empty, the summary has 5 to 255 characters, issue type and priority are enum values, and the optional fields have their types; every field returned is the input's value, elementwise for the labels, and issue type defaults to `Task` |
| JiraSchemas.ParseSearch | src/modules/jira/shared/schemas/jira.schemas.ts:19-22 | valid exactly when `jql` is non-empty and `maxResults`, coerced, is an integer in 1..50; it defaults to 10 |
| JiraSchemas.SearchMaxResultsText | src/modules/jira/shared/schemas/jira.schemas.ts:21 | a decimal `maxResults` in the query is accepted exactly when it lies in 1..50, and comes back as that number |
| JiraSchemas.SearchMaxResultsArray | src/modules/jira/shared/schemas/jira.schemas.ts:21 | a `maxResults` sent as a one-element array of a string or number parses as that element |
| BitbucketSchemas.ParseRepoParams | src/modules/bitbucket/shared/schemas/bitbucket.schemas.ts:3-5 | valid exactly when `slug` is a non-empty string, which it returns |
| BitbucketSchemas.ParsePullRequestParams | src/modules/bitbucket/shared/schemas/bitbucket.schemas.ts:7-9 | valid exactly when the coerced id is a positive integer, which it returns |
| BitbucketSchemas.PullRequestIdText | src/modules/bitbucket/shared/schemas/bitbucket.schemas.ts:8 | a decimal id within ±(2^53−1) in the path is accepted exactly when positive, and comes back as that number |
| BitbucketSchemas.FractionalIdRefused | src/modules/bitbucket/shared/schemas/bitbucket.schemas.ts:8 | a non-integer id is refused |
| BitbucketSchemas.NonNumericIdRefused | src/modules/bitbucket/shared/schemas/bitbucket.schemas.ts:8 | objects, arrays of several elements, `[]`, `[null]`, `[true]`, `null`, `false`, blank text and a missing id are refused |
| BitbucketSchemas.SingletonArrayId | src/modules/bitbucket/shared/schemas/bitbucket.schemas.ts:8 | an id sent as a one-element array of a string or number parses as that element |
| BitbucketSchemas.TrueIdIsOne | src/modules/bitbucket/shared/schemas/bitbucket.schemas.ts:8 | `true` coerces to the valid id 1 |
| JiraController.TestConnectionReply | src/modules/jira/controller/jira.controller.ts:31-52 | `Ups!` on a throw; `Error connecting to Jira: <error>`; on success the version or `unknown`; otherwise the message or `unknown error` |
| JiraController.ProjectLines | src/modules/jira/controller/jira.controller.ts:69-76 | the name and key line, then description and lead lines only when non-empty |
| JiraController.ProjectReply | src/modules/jira/controller/jira.controller.ts:58-81 | `Ups!` on a throw; `Error fetching Jira project: <error>`; otherwise the project lines joined by newlines |
| JiraController.ProjectCommandFailure | src/modules/jira/controller/jira.controller.ts:64-67 | a repository failure reaches the chat as its message or the service fallback |
| JiraController.ProjectReplyLineCount | src/modules/jira/controller/jira.controller.ts:69-76 | with single-line fields, one reply line per project line |
| JiraController.BooleanAsReport | src/modules/jira/services/jira.services.ts:34 | a boolean read as a report has no success, message or server information |
| JiraController.ConnectedRepositoryReportsFailure | src/modules/jira/services/jira.services.ts:32-42 | over the real wrapper, `.jira test` reports a failure without a message, even when connected |
| BitbucketController.LeadingSpaces | src/modules/bitbucket/controller/bitbucket.controller.ts:96 | the whitespace run the pattern matches is within the text |
| BitbucketController.CommandPrefixEnd | src/modules/bitbucket/controller/bitbucket.controller.ts:96 | the end of `^\.bb\s+<stem>s?`, matched without case, lies within the text |
| BitbucketController.CommandArgument | src/modules/bitbucket/controller/bitbucket.controller.ts:96 | the argument is trimmed |
| BitbucketController.PrefixEndOfCommand | src/modules/bitbucket/controller/bitbucket.controller.ts:96 | after `.bb `, any spelling of the command with or without `s` ends the prefix |
| BitbucketController.ArgumentAfterCommand | src/modules/bitbucket/controller/bitbucket.controller.ts:96 | `.bb <command> <argument>` in any case yields the argument exactly; a bare command yields the empty argument |
| BitbucketController.ArgumentWithoutCommand | src/modules/bitbucket/controller/bitbucket.controller.ts:96 | text without the prefix is its own argument, trimmed |
| BitbucketController.ItemsOf | src/modules/bitbucket/controller/bitbucket.controller.ts:110 | `response.data ?? []` |
| BitbucketController.Lines | src/modules/bitbucket/controller/bitbucket.controller.ts:117-120 | one line per item, in order |
| BitbucketController.TestConnectionReply | src/modules/bitbucket/controller/bitbucket.controller.ts:35-56 | `Ups!` on a throw; the error; on success the workspace falls back from the report's to the configured one to `unknown`; otherwise the message or `unknown error` |
| BitbucketController.RepositoryLine | src/modules/bitbucket/controller/bitbucket.controller.ts:80 | name and slug, with the language suffix exactly when the language is non-empty |
| BitbucketController.RepositoriesReply | src/modules/bitbucket/controller/bitbucket.controller.ts:62-86 | `Ups!`, the error, `No repositories found…`, or the header with the count and one line per repository |
| BitbucketController.PullRequestsReply | src/modules/bitbucket/controller/bitbucket.controller.ts:103-124 | `Ups!`, `Error fetching PRs: <error>`, the no-open-PRs text naming the slug, or the header with the count and one line per pull request |
| BitbucketController.PullRequestsCommand | src/modules/bitbucket/controller/bitbucket.controller.ts:92-125 | an empty argument gives the usage text with no service call; otherwise it asks for the argument and `OPEN` |
| BitbucketController.BranchLine | src/modules/bitbucket/controller/bitbucket.controller.ts:156-159 | the default marker exactly for the default branch, and the latest commit exactly when it is non-empty |
| BitbucketController.BranchesReply | src/modules/bitbucket/controller/bitbucket.controller.ts:142-163 | `Ups!`, the error, `No branches found…`, or the header with the count and one line per branch |
| BitbucketController.BranchesCommand | src/modules/bitbucket/controller/bitbucket.controller.ts:131-164 | an empty argument gives the usage text with no service call; otherwise it asks for the argument |
| BitbucketController.FirstCommits | src/modules/bitbucket/controller/bitbucket.controller.ts:196 | the first ten commits, or all of them when there are fewer |
| BitbucketController.CommitsReply | src/modules/bitbucket/controller/bitbucket.controller.ts:182-203 | `Ups!`, the error, `No commits found…`, or the header and the first ten commits |
| BitbucketController.CommitsCommand | src/modules/bitbucket/controller/bitbucket.controller.ts:170-204 | an empty argument gives the usage text; otherwise the slug is the first word and the branch, present exactly when text follows the slug, is the first word after the whitespace run that follows it |
| BitbucketController.ListingLineCount | src/modules/bitbucket/controller/bitbucket.controller.ts:117-120 | a one-line header over n single-line items gives n newlines |
| BitbucketController.HeaderNewline | src/modules/bitbucket/controller/bitbucket.controller.ts:117 | a header holds exactly its final newline |
| BitbucketController.PullRequestsReplyLines | src/modules/bitbucket/controller/bitbucket.controller.ts:117-120 | the header count equals the number of pull requests, with one line each |
| BitbucketController.CommitsReplyLines | src/modules/bitbucket/controller/bitbucket.controller.ts:196-199 | at most ten commit lines, whatever the service returns |
| BitbucketController.CommitsHeaderNamesBranch | src/modules/bitbucket/controller/bitbucket.controller.ts:197 | the header names the branch exactly when one is given |
| BitbucketController.CommitsCommandWords | src/modules/bitbucket/controller/bitbucket.controller.ts:174-182 | `.bb commits <slug> <branch>` asks for that slug and that branch |
| BitbucketController.ListedOfRepository | src/modules/bitbucket/shared/interfaces/bitbucket.interfaces.ts:27-32 | a declared repository record has no name to list |
| BitbucketController.ListedOfPullRequest | src/modules/bitbucket/shared/interfaces/bitbucket.interfaces.ts:1-13 | a declared pull-request record has no `destinationBranch` to list |
| BitbucketController.MapData | src/modules/bitbucket/controller/bitbucket.controller.ts:110 | the listed records read field by field; an error passes through |
| BitbucketController.DeclaredRepositoryHasUndefinedName | src/modules/bitbucket/controller/bitbucket.controller.ts:80 | a declared repository is listed under the name `undefined` |
| BitbucketController.DeclaredPullRequestHasUndefinedTarget | src/modules/bitbucket/controller/bitbucket.controller.ts:117-120 | a declared pull request is listed with the target `undefined` |
| BitbucketController.PullRequestsCommandReportsFailure | src/modules/bitbucket/controller/bitbucket.controller.ts:103-108 | over the service, a repository failure reaches the chat as `Error fetching PRs:` and its message or the fallback |
| BitbucketController.TestCommandShowsConfiguredWorkspace | src/modules/bitbucket/controller/bitbucket.controller.ts:48 | a successful report without a workspace shows the configured one, or `unknown` |
| BitbucketController.BooleanAsReport | src/modules/bitbucket/services/bitbucket.services.ts:40 | a boolean read as a report has no success, workspace or message |
| BitbucketController.ConnectedRepositoryReportsFailure | src/modules/bitbucket/services/bitbucket.services.ts:38-46 | over the real wrapper, `.bb test` reports a failure without a message, even when connected |
| Outcomes.Find | src/modules/users/controller/users.controller.ts:59-66 | a body field is present exactly when the body holds it, and is then the body's value |
| UsersController.ReplyOf | src/modules/users/controller/users.controller.ts:74-78 | a bad request with the message exactly on a non-empty service error; otherwise the data is sent |
| UsersController.NewUser | src/modules/users/controller/users.controller.ts:59-66 | the five identity fields from the body, and `enabled` false |
| UsersController.CreateUser | src/modules/users/controller/users.controller.ts:58-79 | the service is called exactly when name, email and phone are truthy; otherwise `Ingrese los datos correctos` |
| UsersController.CreateUserIgnoresEnabled | src/modules/users/controller/users.controller.ts:65 | the body's `enabled` never matters; a new user is created disabled |
| UsersController.CreateUserNeedsPhone | src/modules/users/controller/users.controller.ts:68-70 | a missing or empty phone refuses the creation without a service call |
| UsersController.UpdatedUser | src/modules/users/controller/users.controller.ts:130-139 | all eight fields forwarded as the body has them, absent ones included |
| UsersController.ParseParam | src/modules/users/controller/users.controller.ts:114 | an absent id parses to `NaN` |
| UsersController.UpdateUser | src/modules/users/controller/users.controller.ts:125-152 | the service is called exactly when name and email are truthy, with the parsed id; otherwise `Datos incorrectos` |
| UsersController.UpdateUserNeedsNoPhone | src/modules/users/controller/users.controller.ts:141-143 | an update goes through without a phone, where a creation would not |
| UsersController.UpdateUserParsesId | src/modules/users/controller/users.controller.ts:145 | a decimal id within ±(2^53−1) reaches the service as that number |
| UsersController.GetUsers | src/modules/users/controller/users.controller.ts:83-98 | page and page size default to 1 and 6, and are otherwise parsed base 10 |
| UsersController.GetUsersDecimalQuery | src/modules/users/controller/users.controller.ts:88-91 | decimal page numbers within ±(2^53−1) reach the service as those numbers |
| UsersController.GetUserById | src/modules/users/controller/users.controller.ts:109-121 | the id from the path, parsed base 10 |
| UsersController.SubscribeNotifications | src/modules/users/controller/users.controller.ts:155-167 | the whole body is the subscription, for the authenticated user |
| UsersController.SubscriptionIsForAuthenticatedUser | src/modules/users/controller/users.controller.ts:158-160 | an id in the body does not change whose subscription it is |
| UsersController.ServiceErrorIsBadRequest | src/modules/users/controller/users.controller.ts:74-76 | a service error becomes a bad request carrying its message, and nothing is sent |
| Strings.ParseIntRoundTrip | src/modules/users/controller/users.controller.ts:88-89 | `parseInt` of the decimal text of an integer within ±(2^53−1) gives that integer |

## Left out

- Logging, the lazy `getInstance` singletons, the `@HttpAuth`/`@Permission` decorators, and the Slack `say` and Express `res` callbacks are left out. The model keeps only the text said or the value sent.
- The real Redis, TypeORM, jira-client and axios clients are left out. The model uses maps, `Outcome` answers and `fault` flags in their place. HTTP details, timeouts and JSON encoding are not modelled: cached and stored values are opaque.
- Each fast-cache class has a store field of its own, whereas the bot shares one Redis. `BitbucketCacheRedis.KeyKindsDisjoint` shows that the namespaces never overlap.
- `Date` stamps are an integer clock reading.
- `UriEncoding.EncodeUriComponent`: characters beyond ASCII are kept as they are, while the real function percent-encodes their UTF-8 bytes. The model relies only on injectivity.
- `Validation.CoerceNumber` covers decimal numerals with a sign and a fraction, blank text, booleans, `null`, objects and arrays (read through their comma-joined text). It does not cover hexadecimal, exponent or `Infinity` forms. A number inside a one-element array is read as itself, which relies on JavaScript printing a number as text that reads back the same.
- Validation.CoerceNumber: numbers are exact rationals, not doubles. JavaScript's `Number` rounds to the nearest double, so the source accepts `1.00000000000000000001` as the integer 1 where the model refuses it, and reads integers beyond ±(2^53−1) as a nearby double.
- Strings.ParseInt: the result is an exact integer; `parseInt` rounds integers beyond ±(2^53−1) to a nearby double.
- ParseDecimalOfInt: states the model's exact reading for every integer; the source agrees only within ±(2^53−1), which is the range `CoerceDecimalText`, `PullRequestIdText`, `ParseIntRoundTrip`, `UpdateUserParsesId` and `GetUsersDecimalQuery` are stated for.
- ParsePullRequestParams: inherits the exact arithmetic of `CoerceNumber`; an id that the source rounds to an integer (many fractional digits, or beyond ±(2^53−1)) is refused or kept exact here.
- ParseSearch: inherits the exact arithmetic of `CoerceNumber` for `maxResults` in the same way.
- `JiraSchemas.ParseCreateIssue` does not check the format of `assignee`: it accepts any string where the library's `.email()` accepts only e-mail addresses.
- The validators do not model zod's error messages; a failed parse only names the fields that failed.
- `null` and `undefined` are the same `None`. In the users handlers, a query value given several times (an array) is not modelled.
- `getUserMe` sends the authenticated user unchanged and has no logic to model.
- The web controllers (jiraWeb.controller.ts and bitbucketWeb.controller.ts) are not part of this model. The Bitbucket one imports `listPRsSchema` and `createPRSchema`, which the schema file does not export.
- The service's answers to `getBranches` and `getCommits` are parameters of the model, because the Bitbucket service does not define those methods. Run as written, each call throws and the command replies with its `Ups!` text; the `Rejected` case covers that.
- `BitbucketPRStatus`, imported by src/entities/BitbucketPRCache.ts, does not exist. The status column is a plain string.
- `IJiraSearchResult` is not defined anywhere; the cached search is an opaque record.
- The app wiring (src/app.ts), the Slack configuration and the project-board script are I/O and event wiring, and are not part of this model.
