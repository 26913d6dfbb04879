/** The request validators of the Bitbucket HTTP routes
    (src/modules/bitbucket/shared/schemas/bitbucket.schemas.ts): a repository
    slug, and a pull-request id coerced from the path text to a number. */
module BitbucketSchemas {
  import opened Strings
  import opened JsonValues
  import opened Validation

  datatype RepoParams = RepoParams(slug: string)

  datatype PullRequestParams = PullRequestParams(id: int)

  /** `bitbucketRepoParamSchema`: a non-empty string `slug`. */
  function ParseRepoParams(input: map<string, Json>): (r: Parsed<RepoParams>)
    ensures r.Valid? <==> "slug" in input && input["slug"].JString? && input["slug"].s != ""
    ensures r.Valid? ==> r.value.slug == input["slug"].s
    ensures r.Invalid? ==> r.fields == ["slug"]
  {
    if StringAtLeast(input, "slug", 1) then Valid(RepoParams(input["slug"].s))
    else Invalid(["slug"])
  }

  /** The id, coerced to a number, is a positive integer. A missing id
      coerces to `NaN`. */
  predicate IdOk(input: map<string, Json>)
  {
    "id" in input &&
    var n := CoerceNumber(input["id"]);
    n.Some? && IsInteger(n.value) && n.value > 0.0
  }

  /** `bitbucketPRParamSchema`: `id` coerced to a positive integer. */
  function ParsePullRequestParams(input: map<string, Json>): (r: Parsed<PullRequestParams>)
    ensures r.Valid? <==> IdOk(input)
    ensures r.Valid? ==> r.value.id > 0 && r.value.id as real == CoerceNumber(input["id"]).value
    ensures r.Invalid? ==> r.fields == ["id"]
  {
    if IdOk(input) then Valid(PullRequestParams(CoerceNumber(input["id"]).value.Floor))
    else Invalid(["id"])
  }

  /** An id written as decimal text in the path is accepted exactly when it
      is positive, and comes back as that number, for every integer a
      JavaScript number holds exactly. */
  lemma PullRequestIdText(n: int)
    requires SafeInteger(n)
    ensures var r := ParsePullRequestParams(map["id" := JString(IntToDecimal(n))]);
            (r.Valid? <==> n > 0) && (r.Valid? ==> r.value.id == n)
  {
    CoerceDecimalText(n);
  }

  /** A fractional id is refused, whatever its sign. */
  lemma FractionalIdRefused(x: real)
    requires x != x.Floor as real
    ensures ParsePullRequestParams(map["id" := JNumber(x)]).Invalid?
  {
  }

  /** Coercion does not rescue non-numeric values: an object id and an
      array of several elements are refused, and so are `null`, `false`,
      blank text and the empty array, which coerce to 0. */
  lemma NonNumericIdRefused(items: seq<Json>, fields: map<string, Json>, blank: string)
    requires AllSpace(blank)
    ensures |items| > 1 ==> ParsePullRequestParams(map["id" := JArray(items)]).Invalid?
    ensures ParsePullRequestParams(map["id" := JArray([])]).Invalid?
    ensures ParsePullRequestParams(map["id" := JArray([JNull])]).Invalid?
    ensures ParsePullRequestParams(map["id" := JArray([JBool(true)])]).Invalid?
    ensures ParsePullRequestParams(map["id" := JObject(fields)]).Invalid?
    ensures ParsePullRequestParams(map["id" := JNull]).Invalid?
    ensures ParsePullRequestParams(map["id" := JBool(false)]).Invalid?
    ensures ParsePullRequestParams(map["id" := JString(blank)]).Invalid?
    ensures ParsePullRequestParams(map[]).Invalid?
  {
    AllSpaceTrims(blank);
  }

  /** An id sent as a one-element array of a string or a number is read as
      that element. */
  lemma SingletonArrayId(e: Json)
    requires e.JString? || e.JNumber?
    ensures ParsePullRequestParams(map["id" := JArray([e])]) == ParsePullRequestParams(map["id" := e])
  {
    CoerceSingletonArray(e);
  }

  /** `true` coerces to 1, a valid id. */
  lemma TrueIdIsOne()
    ensures ParsePullRequestParams(map["id" := JBool(true)]) == Valid(PullRequestParams(1))
  {
  }
}
