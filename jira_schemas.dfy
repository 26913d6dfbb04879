/** The request validators of the Jira HTTP routes
    (src/modules/jira/shared/schemas/jira.schemas.ts). Each parse takes the
    request object, checks the declared fields and returns only those fields,
    with their defaults filled in. */
module JiraSchemas {
  import opened Outcomes
  import opened Strings
  import opened JsonValues
  import opened Validation
  import opened JiraModel

  datatype IssueKeyParams = IssueKeyParams(issueKey: string)

  datatype CreateIssue = CreateIssue(
    projectKey: string,
    summary: string,
    description: Option<string>,
    issueType: string,
    priority: Option<string>,
    assignee: Option<string>,
    labels: Option<seq<string>>)

  datatype Search = Search(jql: string, maxResults: int)

  /** `jiraIssueKeyParamSchema`: a non-empty string `issueKey`. */
  function ParseIssueKeyParams(input: map<string, Json>): (r: Parsed<IssueKeyParams>)
    ensures r.Valid? <==> "issueKey" in input && input["issueKey"].JString? && input["issueKey"].s != ""
    ensures r.Valid? ==> r.value.issueKey == input["issueKey"].s
    ensures r.Invalid? ==> r.fields == ["issueKey"]
  {
    if StringAtLeast(input, "issueKey", 1) then Valid(IssueKeyParams(input["issueKey"].s))
    else Invalid(["issueKey"])
  }

  /** An enumeration field with a default: absent, or one of the values. */
  predicate IssueTypeOk(input: map<string, Json>)
  {
    "issueType" in input ==> input["issueType"].JString? && input["issueType"].s in IssueTypes
  }

  predicate PriorityOk(input: map<string, Json>)
  {
    "priority" in input ==> input["priority"].JString? && input["priority"].s in Priorities
  }

  /** An optional list of strings. */
  predicate LabelsOk(input: map<string, Json>)
  {
    "labels" in input ==>
      input["labels"].JArray? &&
      forall i :: 0 <= i < |input["labels"].items| ==> input["labels"].items[i].JString?
  }

  predicate SummaryOk(input: map<string, Json>)
  {
    StringAtLeast(input, "summary", 5) && Utf16Length(input["summary"].s) <= 255
  }

  function CreateIssueChecks(input: map<string, Json>): seq<bool>
  {
    [StringAtLeast(input, "projectKey", 1), SummaryOk(input), OptionalString(input, "description"),
     IssueTypeOk(input), PriorityOk(input), OptionalString(input, "assignee"), LabelsOk(input)]
  }

  /** The labels' strings, in the order given, when there are labels. */
  function LabelsOf(input: map<string, Json>): (labels: Option<seq<string>>)
    requires LabelsOk(input)
    ensures labels.Some? <==> "labels" in input
    ensures labels.Some? ==>
              && |labels.value| == |input["labels"].items|
              && forall i :: 0 <= i < |labels.value| ==> labels.value[i] == input["labels"].items[i].s
  {
    if "labels" in input then
      var items := input["labels"].items;
      Some(seq(|items|, i requires 0 <= i < |items| => items[i].s))
    else None
  }

  /** `createIssueSchema`: project key and a summary of 5 to 255 characters
      are required; issue type defaults to `Task`; the rest are optional. */
  function ParseCreateIssue(input: map<string, Json>): (r: Parsed<CreateIssue>)
    ensures r.Valid? <==>
              StringAtLeast(input, "projectKey", 1) && SummaryOk(input)
              && OptionalString(input, "description") && IssueTypeOk(input) && PriorityOk(input)
              && OptionalString(input, "assignee") && LabelsOk(input)
    ensures r.Invalid? ==> r.fields != [] && forall f :: f in r.fields ==>
              f in ["projectKey", "summary", "description", "issueType", "priority", "assignee", "labels"]
    ensures r.Valid? ==>
              && r.value.projectKey == input["projectKey"].s
              && r.value.summary == input["summary"].s
              && 5 <= Utf16Length(r.value.summary) <= 255
              && r.value.issueType in IssueTypes
              && ("issueType" !in input ==> r.value.issueType == DefaultIssueType)
              && (r.value.priority.Some? ==> r.value.priority.value in Priorities)
              && ("issueType" in input ==> r.value.issueType == input["issueType"].s)
              && r.value.description == StringOf(input, "description")
              && r.value.priority == StringOf(input, "priority")
              && r.value.assignee == StringOf(input, "assignee")
              && (r.value.labels.Some? <==> "labels" in input)
              && (r.value.labels.Some? ==>
                    && |r.value.labels.value| == |input["labels"].items|
                    && forall i :: 0 <= i < |r.value.labels.value| ==>
                         r.value.labels.value[i] == input["labels"].items[i].s)
  {
    var names := ["projectKey", "summary", "description", "issueType", "priority", "assignee", "labels"];
    var failed := Failures(names, CreateIssueChecks(input));
    if failed != [] then Invalid(failed)
    else
      var checks := CreateIssueChecks(input);
      assert checks[0] && checks[1] && checks[2] && checks[3] && checks[4] && checks[5] && checks[6];
      Valid(CreateIssue(
        input["projectKey"].s,
        input["summary"].s,
        StringOf(input, "description"),
        if "issueType" in input then input["issueType"].s else DefaultIssueType,
        StringOf(input, "priority"),
        StringOf(input, "assignee"),
        LabelsOf(input)))
  }

  /** A present `maxResults` coerced to a number: an integer in 1..50. */
  predicate MaxResultsOk(input: map<string, Json>)
  {
    "maxResults" in input ==>
      var n := CoerceNumber(input["maxResults"]);
      n.Some? && IsInteger(n.value) && 0.0 < n.value <= 50.0
  }

  /** `jiraSearchSchema`: a non-empty `jql`, and `maxResults` 10 when absent. */
  function ParseSearch(input: map<string, Json>): (r: Parsed<Search>)
    ensures r.Valid? <==> StringAtLeast(input, "jql", 1) && MaxResultsOk(input)
    ensures r.Valid? ==> r.value.jql == input["jql"].s && 1 <= r.value.maxResults <= 50
    ensures r.Valid? && "maxResults" !in input ==> r.value.maxResults == 10
    ensures r.Valid? && "maxResults" in input ==> r.value.maxResults as real == CoerceNumber(input["maxResults"]).value
  {
    var failed := Failures(["jql", "maxResults"], [StringAtLeast(input, "jql", 1), MaxResultsOk(input)]);
    if failed != [] then Invalid(failed)
    else
      assert [StringAtLeast(input, "jql", 1), MaxResultsOk(input)][1];
      Valid(Search(input["jql"].s,
                   if "maxResults" in input then CoerceNumber(input["maxResults"]).value.Floor else 10))
  }

  /** A page size written as decimal text in the query string is accepted
      exactly when it is between 1 and 50. (Outside the range a JavaScript
      number holds exactly, the source rounds the value but still refuses
      it.) */
  lemma SearchMaxResultsText(jql: string, n: int)
    requires jql != ""
    ensures var r := ParseSearch(map["jql" := JString(jql), "maxResults" := JString(IntToDecimal(n))]);
            (r.Valid? <==> 1 <= n <= 50) && (r.Valid? ==> r.value == Search(jql, n))
  {
    var input := map["jql" := JString(jql), "maxResults" := JString(IntToDecimal(n))];
    assert input["jql"] == JString(jql) && input["maxResults"] == JString(IntToDecimal(n));
    assert CoerceNumber(input["maxResults"]) == Some(n as real) by {
      DecimalTextIsTrimmed(n);
      ParseDecimalOfInt(n);
    }
    assert StringAtLeast(input, "jql", 1) by { assert Utf16Length(jql) >= 1; }
    assert MaxResultsOk(input) <==> 1 <= n <= 50;
  }

  /** A page size sent as a one-element array is read as that element: the
      array's text is the element's own. */
  lemma SearchMaxResultsArray(jql: string, e: Json)
    requires e.JString? || e.JNumber?
    ensures ParseSearch(map["jql" := JString(jql), "maxResults" := JArray([e])])
            == ParseSearch(map["jql" := JString(jql), "maxResults" := e])
  {
    CoerceSingletonArray(e);
    var a := map["jql" := JString(jql), "maxResults" := JArray([e])];
    var b := map["jql" := JString(jql), "maxResults" := e];
    assert a["jql"] == b["jql"] && CoerceNumber(a["maxResults"]) == CoerceNumber(b["maxResults"]);
    assert MaxResultsOk(a) == MaxResultsOk(b);
  }
}
