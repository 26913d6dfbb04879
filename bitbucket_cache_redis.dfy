/** The fast cache of Bitbucket data
    (src/modules/bitbucket/repositories/redis/bitbucketCache.redis.ts): the
    branches of a repository and single pull requests under keys of the `bb:`
    namespace. The key-value store is the `store` field; a `fault` argument
    stands for a store operation that fails, which the cache absorbs. */
module BitbucketCacheRedis {
  import opened Outcomes
  import opened Strings
  import opened ExpiringStore
  import opened BitbucketModel
  import JiraCacheRedis

  /** What a key of the Bitbucket cache holds. */
  datatype Cached = CachedBranches(branches: seq<Branch>) | CachedPullRequest(pr: PullRequest)

  const RepoPrefix := CachePrefix + ":repo:"
  const BranchesSuffix := ":branches"
  const PullRequestPrefix := CachePrefix + ":pr:"

  /** `cacheKey.branches`: the slug between `bb:repo:` and `:branches`. */
  function BranchesKey(repoSlug: string): (k: string)
    ensures StartsWith(k, "bb:repo:") && EndsWith(k, ":branches")
    ensures |k| == |"bb:repo:"| + |repoSlug| + |":branches"|
    ensures k[|"bb:repo:"|..|k| - |":branches"|] == repoSlug
  {
    RepoPrefix + repoSlug + BranchesSuffix
  }

  /** `cacheKey.pr`: slug and decimal id after `bb:pr:`, separated by `:`. */
  function PullRequestKey(repoSlug: string, prId: int): (k: string)
    ensures StartsWith(k, "bb:pr:")
    ensures k[|"bb:pr:"|..] == repoSlug + ":" + IntToDecimal(prId)
  {
    var tail := repoSlug + ":" + IntToDecimal(prId);
    assert PullRequestPrefix == "bb:pr:";
    assert PullRequestPrefix + repoSlug + ":" + IntToDecimal(prId) == PullRequestPrefix + tail;
    PullRequestPrefix + tail
  }

  lemma BranchesKeyInjective(a: string, b: string)
    requires BranchesKey(a) == BranchesKey(b)
    ensures a == b
  {
    SuffixCancel(RepoPrefix + a, RepoPrefix + b, BranchesSuffix);
    PrefixCancel(RepoPrefix, a, b);
  }

  /** Distinct (slug, id) pairs give distinct keys, even when a slug holds a
      colon: the id never does, so the last colon separates the two. */
  lemma PullRequestKeyInjective(slugA: string, idA: int, slugB: string, idB: int)
    requires PullRequestKey(slugA, idA) == PullRequestKey(slugB, idB)
    ensures slugA == slugB && idA == idB
  {
    assert PullRequestKey(slugA, idA) == PullRequestPrefix + (slugA + ":" + IntToDecimal(idA));
    assert PullRequestKey(slugB, idB) == PullRequestPrefix + (slugB + ":" + IntToDecimal(idB));
    PrefixCancel(PullRequestPrefix, slugA + ":" + IntToDecimal(idA), slugB + ":" + IntToDecimal(idB));
    IntToDecimalHasNoColon(idA);
    IntToDecimalHasNoColon(idB);
    SplitAtLastColon(slugA, IntToDecimal(idA));
    SplitAtLastColon(slugB, IntToDecimal(idB));
    IntToDecimalInjective(idA, idB);
  }

  /** A branches key never equals a pull-request key, nor any key of the Jira
      cache that shares the store. */
  lemma KeyKindsDisjoint(slug: string, repoSlug: string, prId: int, jiraArgument: string)
    ensures BranchesKey(slug) != PullRequestKey(repoSlug, prId)
    ensures BranchesKey(slug) != JiraCacheRedis.IssueKey(jiraArgument)
    ensures BranchesKey(slug) != JiraCacheRedis.ActiveSprintKey(jiraArgument)
    ensures BranchesKey(slug) != JiraCacheRedis.UserIssuesKey(jiraArgument)
    ensures PullRequestKey(repoSlug, prId) != JiraCacheRedis.IssueKey(jiraArgument)
    ensures PullRequestKey(repoSlug, prId) != JiraCacheRedis.ActiveSprintKey(jiraArgument)
    ensures PullRequestKey(repoSlug, prId) != JiraCacheRedis.UserIssuesKey(jiraArgument)
  {
    assert BranchesKey(slug)[0] == 'b' && BranchesKey(slug)[3] == 'r';
    assert PullRequestKey(repoSlug, prId)[0] == 'b' && PullRequestKey(repoSlug, prId)[3] == 'p';
    assert JiraCacheRedis.IssueKey(jiraArgument)[0] == 'j';
    assert JiraCacheRedis.ActiveSprintKey(jiraArgument)[0] == 'j';
    assert JiraCacheRedis.UserIssuesKey(jiraArgument)[0] == 'j';
  }

  function AsBranches(c: Option<Cached>): Option<seq<Branch>>
  {
    if c.Some? && c.value.CachedBranches? then Some(c.value.branches) else None
  }

  function AsPullRequest(c: Option<Cached>): Option<PullRequest>
  {
    if c.Some? && c.value.CachedPullRequest? then Some(c.value.pr) else None
  }

  class BitbucketCacheRedis {
    var store: map<string, Entry<Cached>>

    constructor ()
      ensures store == map[]
    {
      store := map[];
    }

    /** `getBranches`: the branches stored for the repository and not yet
        expired; null on a miss, on expiry and when the store fails. */
    method GetBranches(repoSlug: string, now: int, fault: bool) returns (branches: Option<seq<Branch>>)
      ensures fault ==> branches.None?
      ensures !fault ==> branches == AsBranches(Fetch(store, BranchesKey(repoSlug), now))
    {
      if fault {
        return None;
      }
      branches := AsBranches(Fetch(store, BranchesKey(repoSlug), now));
    }

    /** `setBranches`: stores the list for 900 seconds; a failing store leaves
        everything as it was. */
    method SetBranches(repoSlug: string, branches: seq<Branch>, now: int, fault: bool)
      modifies this
      ensures store == if fault then old(store)
                       else Put(old(store), BranchesKey(repoSlug), CachedBranches(branches), BranchesTtl, now)
    {
      if !fault {
        store := Put(store, BranchesKey(repoSlug), CachedBranches(branches), BranchesTtl, now);
      }
    }

    /** `getPR`: the pull request stored under slug and id, if not expired. */
    method GetPullRequest(repoSlug: string, prId: int, now: int, fault: bool) returns (pr: Option<PullRequest>)
      ensures fault ==> pr.None?
      ensures !fault ==> pr == AsPullRequest(Fetch(store, PullRequestKey(repoSlug, prId), now))
    {
      if fault {
        return None;
      }
      pr := AsPullRequest(Fetch(store, PullRequestKey(repoSlug, prId), now));
    }

    /** `setPR`: stores the pull request for 180 seconds. */
    method SetPullRequest(repoSlug: string, prId: int, pr: PullRequest, now: int, fault: bool)
      modifies this
      ensures store == if fault then old(store)
                       else Put(old(store), PullRequestKey(repoSlug, prId), CachedPullRequest(pr), PullRequestTtl, now)
    {
      if !fault {
        store := Put(store, PullRequestKey(repoSlug, prId), CachedPullRequest(pr), PullRequestTtl, now);
      }
    }
  }

  /** Reading a pull request back: within 180 seconds of a successful write
      the cache returns it, from then on nothing; a write of the same id in
      another repository does not disturb it. */
  method PullRequestReadAfterWrite(cache: BitbucketCacheRedis, repoSlug: string, prId: int, pr: PullRequest,
                                   otherSlug: string, other: PullRequest, now: int, later: int)
    returns (read: Option<PullRequest>)
    requires now <= later && otherSlug != repoSlug
    modifies cache
    ensures read == if later < now + 180 then Some(pr) else None
  {
    cache.SetPullRequest(repoSlug, prId, pr, now, false);
    if PullRequestKey(otherSlug, prId) == PullRequestKey(repoSlug, prId) {
      PullRequestKeyInjective(otherSlug, prId, repoSlug, prId);
    }
    FetchOtherKey(cache.store, PullRequestKey(otherSlug, prId), CachedPullRequest(other), PullRequestTtl, now,
                  PullRequestKey(repoSlug, prId), later);
    cache.SetPullRequest(otherSlug, prId, other, now, false);
    FetchAfterPut(old(cache.store), PullRequestKey(repoSlug, prId), CachedPullRequest(pr), PullRequestTtl, now, later);
    read := cache.GetPullRequest(repoSlug, prId, later, false);
  }
}
