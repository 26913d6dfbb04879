/** The durable cache of Bitbucket pull requests
    (src/modules/bitbucket/repositories/database/bitbucketCache.dataSource.ts
    over the `BitbucketPRCache` table of src/entities/BitbucketPRCache.ts).
    The table's only primary column is `prId`: ids are not qualified by
    repository, so a pull request of one repository overwrites the row of the
    same id from another. The clock reading and a failing database are
    parameters. */
module BitbucketCacheTable {
  import opened Outcomes
  import opened JsonValues

  /** A row of `BitbucketPRCache`; `prData` is stored as opaque JSON. */
  datatype PullRequestRow = PullRequestRow(prId: int, repoSlug: string, status: string, prData: Json, lastUpdated: int)

  /** Every row is filed under its own primary key. */
  predicate Keyed(rows: map<int, PullRequestRow>)
  {
    forall id :: id in rows ==> rows[id].prId == id
  }

  /** `save` of a row: inserts it, or replaces the row with the same id. */
  function Upsert(rows: map<int, PullRequestRow>, row: PullRequestRow): (rows': map<int, PullRequestRow>)
    ensures rows'.Keys == rows.Keys + {row.prId}
    ensures rows'[row.prId] == row
    ensures forall id :: id in rows && id != row.prId ==> rows'[id] == rows[id]
  {
    rows[row.prId := row]
  }

  /** `findOne({where: {prId}})`. */
  function Lookup(rows: map<int, PullRequestRow>, prId: int): (row: Option<PullRequestRow>)
    ensures row.Some? <==> prId in rows
    ensures row.Some? ==> row.value == rows[prId]
  {
    Find(rows, prId)
  }

  lemma UpsertKeepsKeyed(rows: map<int, PullRequestRow>, row: PullRequestRow)
    requires Keyed(rows)
    ensures Keyed(Upsert(rows, row))
  {
  }

  /** A lookup after an upsert of the same id finds the row just saved,
      stamped with the time of the upsert. */
  lemma LookupAfterUpsert(rows: map<int, PullRequestRow>, prId: int, repoSlug: string, status: string,
                          data: Json, now: int)
    ensures Lookup(Upsert(rows, PullRequestRow(prId, repoSlug, status, data, now)), prId)
            == Some(PullRequestRow(prId, repoSlug, status, data, now))
  {
  }

  /** Pull requests of two repositories that share an id share one row: the
      later upsert wins, and the earlier repository's row is gone. */
  lemma SameIdOtherRepositoryOverwrites(rows: map<int, PullRequestRow>, prId: int,
                                        first: PullRequestRow, second: PullRequestRow)
    requires first.prId == prId && second.prId == prId && first.repoSlug != second.repoSlug
    ensures Lookup(Upsert(Upsert(rows, first), second), prId) == Some(second)
    ensures Upsert(Upsert(rows, first), second) == Upsert(rows, second)
  {
  }

  class BitbucketCacheDataSource {
    var rows: map<int, PullRequestRow>

    /** At most one row per pull-request id, filed under that id. */
    predicate Valid()
      reads this
    {
      Keyed(rows)
    }

    constructor ()
      ensures rows == map[] && Valid()
    {
      rows := map[];
    }

    /** `upsertPR`: saves the row stamped with `now`; a failing save leaves
        the table as it was and returns normally. */
    method UpsertPullRequest(prId: int, repoSlug: string, status: string, prData: Json, now: int, fault: bool)
      requires Valid()
      modifies this
      ensures Valid()
      ensures rows == if fault then old(rows)
                      else Upsert(old(rows), PullRequestRow(prId, repoSlug, status, prData, now))
    {
      if !fault {
        UpsertKeepsKeyed(rows, PullRequestRow(prId, repoSlug, status, prData, now));
        rows := Upsert(rows, PullRequestRow(prId, repoSlug, status, prData, now));
      }
    }

    /** `getPR`: the row of the id, or null when there is none or the lookup
        fails. */
    method GetPullRequest(prId: int, fault: bool) returns (row: Option<PullRequestRow>)
      requires Valid()
      ensures fault ==> row.None?
      ensures !fault ==> row == Lookup(rows, prId)
      ensures row.Some? ==> row.value.prId == prId
    {
      if fault {
        return None;
      }
      row := Lookup(rows, prId);
    }
  }
}
