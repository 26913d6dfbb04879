/** The fast cache of Jira data (src/modules/jira/repositories/redis/jiraCache.redis.ts):
    issues, active-sprint searches and per-user searches under keys of the
    `jira:` namespace, each kind with its own time-to-live. The key-value
    store is the `store` field; a `fault` argument stands for a store
    operation that fails, which the cache absorbs. */
module JiraCacheRedis {
  import opened Outcomes
  import opened Strings
  import opened UriEncoding
  import opened ExpiringStore
  import opened JiraModel

  /** What a key of the Jira cache holds. */
  datatype Cached = CachedIssue(issue: Issue) | CachedSearch(result: SearchResult)

  const IssuePrefix := CachePrefix + ":issue:"
  const SprintPrefix := CachePrefix + ":sprint:active:"
  const UserPrefix := CachePrefix + ":user:"
  const UserSuffix := ":issues"

  /** `cacheKey.issue`: the issue key follows `jira:issue:` verbatim. */
  function IssueKey(issueKey: string): (k: string)
    ensures StartsWith(k, "jira:issue:") && k[|"jira:issue:"|..] == issueKey
  {
    IssuePrefix + issueKey
  }

  /** `cacheKey.activeSprint`: the project key follows `jira:sprint:active:`. */
  function ActiveSprintKey(projectKey: string): (k: string)
    ensures StartsWith(k, "jira:sprint:active:") && k[|"jira:sprint:active:"|..] == projectKey
  {
    SprintPrefix + projectKey
  }

  /** `cacheKey.userIssues`: the URI-encoded e-mail between `jira:user:` and
      `:issues`. */
  function UserIssuesKey(email: string): (k: string)
    ensures StartsWith(k, "jira:user:") && EndsWith(k, ":issues")
    ensures |k| == |"jira:user:"| + |EncodeUriComponent(email)| + |":issues"|
    ensures k[|"jira:user:"|..|k| - |":issues"|] == EncodeUriComponent(email)
  {
    UserPrefix + EncodeUriComponent(email) + UserSuffix
  }

  lemma IssueKeyInjective(a: string, b: string)
    requires IssueKey(a) == IssueKey(b)
    ensures a == b
  {
    PrefixCancel(IssuePrefix, a, b);
  }

  lemma ActiveSprintKeyInjective(a: string, b: string)
    requires ActiveSprintKey(a) == ActiveSprintKey(b)
    ensures a == b
  {
    PrefixCancel(SprintPrefix, a, b);
  }

  lemma UserIssuesKeyInjective(a: string, b: string)
    requires UserIssuesKey(a) == UserIssuesKey(b)
    ensures a == b
  {
    SuffixCancel(UserPrefix + EncodeUriComponent(a), UserPrefix + EncodeUriComponent(b), UserSuffix);
    PrefixCancel(UserPrefix, EncodeUriComponent(a), EncodeUriComponent(b));
    EncodeInjective(a, b);
  }

  /** Keys of different kinds never collide: they differ right after `jira:`. */
  lemma KeyKindsDisjoint(a: string, b: string)
    ensures IssueKey(a) != ActiveSprintKey(b)
    ensures IssueKey(a) != UserIssuesKey(b)
    ensures ActiveSprintKey(a) != UserIssuesKey(b)
  {
    assert IssueKey(a)[5] == 'i';
    assert ActiveSprintKey(b)[5] == 's';
    assert ActiveSprintKey(a)[5] == 's';
    assert UserIssuesKey(b)[5] == 'u';
  }

  function AsIssue(c: Option<Cached>): Option<Issue>
  {
    if c.Some? && c.value.CachedIssue? then Some(c.value.issue) else None
  }

  function AsSearch(c: Option<Cached>): Option<SearchResult>
  {
    if c.Some? && c.value.CachedSearch? then Some(c.value.result) else None
  }

  class JiraCacheRedis {
    var store: map<string, Entry<Cached>>

    constructor ()
      ensures store == map[]
    {
      store := map[];
    }

    /** `getIssue`: the issue stored under its key and not yet expired; null
        on a miss, on expiry and when the store fails. */
    method GetIssue(issueKey: string, now: int, fault: bool) returns (issue: Option<Issue>)
      ensures fault ==> issue.None?
      ensures !fault ==> issue == AsIssue(Fetch(store, IssueKey(issueKey), now))
    {
      if fault {
        return None;
      }
      issue := AsIssue(Fetch(store, IssueKey(issueKey), now));
    }

    /** `setIssue`: stores the issue for 300 seconds; a failing store leaves
        everything as it was. */
    method SetIssue(issueKey: string, issue: Issue, now: int, fault: bool)
      modifies this
      ensures store == if fault then old(store)
                       else Put(old(store), IssueKey(issueKey), CachedIssue(issue), IssueTtl, now)
    {
      if !fault {
        store := Put(store, IssueKey(issueKey), CachedIssue(issue), IssueTtl, now);
      }
    }

    method GetActiveSprint(projectKey: string, now: int, fault: bool) returns (result: Option<SearchResult>)
      ensures fault ==> result.None?
      ensures !fault ==> result == AsSearch(Fetch(store, ActiveSprintKey(projectKey), now))
    {
      if fault {
        return None;
      }
      result := AsSearch(Fetch(store, ActiveSprintKey(projectKey), now));
    }

    /** `setActiveSprint`: stores the search for 600 seconds. */
    method SetActiveSprint(projectKey: string, result: SearchResult, now: int, fault: bool)
      modifies this
      ensures store == if fault then old(store)
                       else Put(old(store), ActiveSprintKey(projectKey), CachedSearch(result), SprintTtl, now)
    {
      if !fault {
        store := Put(store, ActiveSprintKey(projectKey), CachedSearch(result), SprintTtl, now);
      }
    }

    method GetUserIssues(email: string, now: int, fault: bool) returns (result: Option<SearchResult>)
      ensures fault ==> result.None?
      ensures !fault ==> result == AsSearch(Fetch(store, UserIssuesKey(email), now))
    {
      if fault {
        return None;
      }
      result := AsSearch(Fetch(store, UserIssuesKey(email), now));
    }

    /** `setUserIssues`: stores the search for 120 seconds. */
    method SetUserIssues(email: string, result: SearchResult, now: int, fault: bool)
      modifies this
      ensures store == if fault then old(store)
                       else Put(old(store), UserIssuesKey(email), CachedSearch(result), UserIssuesTtl, now)
    {
      if !fault {
        store := Put(store, UserIssuesKey(email), CachedSearch(result), UserIssuesTtl, now);
      }
    }
  }

  /** Reading an issue back: within 300 seconds of a successful write the
      cache returns that issue, from then on nothing; writes to the sprint and
      user-issue keys never disturb it. */
  method IssueReadAfterWrite(cache: JiraCacheRedis, issueKey: string, issue: Issue, now: int, later: int,
                             projectKey: string, email: string, result: SearchResult)
    returns (read: Option<Issue>)
    requires now <= later
    modifies cache
    ensures read == if later < now + 300 then Some(issue) else None
  {
    cache.SetIssue(issueKey, issue, now, false);
    KeyKindsDisjoint(issueKey, projectKey);
    KeyKindsDisjoint(issueKey, email);
    FetchOtherKey(cache.store, ActiveSprintKey(projectKey), CachedSearch(result), SprintTtl, now,
                  IssueKey(issueKey), later);
    cache.SetActiveSprint(projectKey, result, now, false);
    FetchOtherKey(cache.store, UserIssuesKey(email), CachedSearch(result), UserIssuesTtl, now,
                  IssueKey(issueKey), later);
    cache.SetUserIssues(email, result, now, false);
    FetchAfterPut(old(cache.store), IssueKey(issueKey), CachedIssue(issue), IssueTtl, now, later);
    read := cache.GetIssue(issueKey, later, false);
  }
}
