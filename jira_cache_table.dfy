/** The durable cache of Jira issues
    (src/modules/jira/repositories/database/jiraCache.dataSource.ts over the
    `JiraIssueCache` table of src/entities/JiraIssueCache.ts). The table has
    `issueKey` as its only primary column, so saving a row replaces the row of
    the same key. The clock reading and a failing database are parameters. */
module JiraCacheTable {
  import opened Outcomes
  import opened JsonValues

  /** A row of `JiraIssueCache`; `issueData` is stored as opaque JSON. */
  datatype IssueRow = IssueRow(issueKey: string, projectKey: string, issueData: Json, lastUpdated: int)

  /** Every row is filed under its own primary key. */
  predicate Keyed(rows: map<string, IssueRow>)
  {
    forall k :: k in rows ==> rows[k].issueKey == k
  }

  /** `save` of a row: inserts it, or replaces the row with the same key. */
  function Upsert(rows: map<string, IssueRow>, row: IssueRow): (rows': map<string, IssueRow>)
    ensures rows'.Keys == rows.Keys + {row.issueKey}
    ensures rows'[row.issueKey] == row
    ensures forall k :: k in rows && k != row.issueKey ==> rows'[k] == rows[k]
  {
    rows[row.issueKey := row]
  }

  /** `findOne({where: {issueKey}})`. */
  function Lookup(rows: map<string, IssueRow>, issueKey: string): (row: Option<IssueRow>)
    ensures row.Some? <==> issueKey in rows
    ensures row.Some? ==> row.value == rows[issueKey]
  {
    Find(rows, issueKey)
  }

  /** An upsert keeps every row under its own key. */
  lemma UpsertKeepsKeyed(rows: map<string, IssueRow>, row: IssueRow)
    requires Keyed(rows)
    ensures Keyed(Upsert(rows, row))
  {
  }

  /** A lookup after an upsert of the same key finds the row just saved,
      stamped with the time of the upsert. */
  lemma LookupAfterUpsert(rows: map<string, IssueRow>, issueKey: string, projectKey: string, data: Json, now: int)
    ensures Lookup(Upsert(rows, IssueRow(issueKey, projectKey, data, now)), issueKey)
            == Some(IssueRow(issueKey, projectKey, data, now))
  {
  }

  /** A second upsert of a key leaves the table as if only it had happened. */
  lemma UpsertReplaces(rows: map<string, IssueRow>, first: IssueRow, second: IssueRow)
    requires first.issueKey == second.issueKey
    ensures Upsert(Upsert(rows, first), second) == Upsert(rows, second)
  {
  }

  class JiraCacheDataSource {
    var rows: map<string, IssueRow>

    /** At most one row per issue key, filed under that key. */
    predicate Valid()
      reads this
    {
      Keyed(rows)
    }

    constructor ()
      ensures rows == map[] && Valid()
    {
      rows := map[];
    }

    /** `upsertIssue`: saves the row stamped with `now`; a failing save leaves
        the table as it was and returns normally. */
    method UpsertIssue(issueKey: string, projectKey: string, issueData: Json, now: int, fault: bool)
      requires Valid()
      modifies this
      ensures Valid()
      ensures rows == if fault then old(rows)
                      else Upsert(old(rows), IssueRow(issueKey, projectKey, issueData, now))
    {
      if !fault {
        UpsertKeepsKeyed(rows, IssueRow(issueKey, projectKey, issueData, now));
        rows := Upsert(rows, IssueRow(issueKey, projectKey, issueData, now));
      }
    }

    /** `getIssue`: the row of the key, or null when there is none or the
        lookup fails. */
    method GetIssue(issueKey: string, fault: bool) returns (row: Option<IssueRow>)
      requires Valid()
      ensures fault ==> row.None?
      ensures !fault ==> row == Lookup(rows, issueKey)
      ensures row.Some? ==> row.value.issueKey == issueKey
    {
      if fault {
        return None;
      }
      row := Lookup(rows, issueKey);
    }
  }
}
