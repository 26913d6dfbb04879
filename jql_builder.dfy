/** The chainable builder of Jira Query Language strings
    (src/modules/jira/utils/jql.builder.ts). Each predicate appends one
    `field = "value"` condition, the value inserted verbatim; `Build` joins
    the conditions with `" AND "`. There is no escaping, no ORDER BY, no text
    search and no list form. */
module Jql {
  import opened Strings

  const Separator := " AND "

  /** The text of one condition: `field = "value"`, the value unescaped. */
  function Condition(field: string, value: string): string
  {
    field + " = \"" + value + "\""
  }

  /** The join of the conditions, as `Build` returns it: empty for no
      condition, and one `" AND "` more for every further condition. */
  function Query(conditions: seq<string>): (q: string)
    ensures conditions == [] ==> q == ""
    ensures |conditions| == 1 ==> q == conditions[0]
  {
    Join(conditions, Separator)
  }

  /** Adding a condition to a non-empty query extends the query text at its
      end: earlier conditions keep their text and their order. */
  lemma QueryAppend(conditions: seq<string>, c: string)
    ensures Query(conditions + [c]) == if conditions == [] then c else Query(conditions) + Separator + c
  {
    if conditions == [] {
      assert conditions + [c] == [c];
    } else {
      JoinAppend(conditions, c, Separator);
    }
  }

  /** Because values are not escaped, a value holding `" AND status = "`
      produces exactly the query of two separate conditions. */
  lemma UnescapedValueForgesCondition(project: string, status: string)
    ensures Query([Condition("project", project + "\" AND status = \"" + status)])
            == Query([Condition("project", project), Condition("status", status)])
  {
    var two := [Condition("project", project), Condition("status", status)];
    assert two[1..] == [Condition("status", status)];
    assert Join(two[1..], Separator) == Condition("status", status);
    assert Query(two) == Condition("project", project) + Separator + Condition("status", status);
  }

  class JqlBuilder {
    var conditions: seq<string>

    /** A fresh builder holds no condition and builds the empty string. */
    constructor ()
      ensures conditions == [] && Build() == ""
    {
      conditions := [];
    }

    /** The query of the conditions added so far; reading it changes nothing. */
    function Build(): (q: string)
      reads this
      ensures q == Query(conditions)
    {
      Join(conditions, Separator)
    }

    method AssignedTo(user: string) returns (self: JqlBuilder)
      modifies this
      ensures self == this
      ensures conditions == old(conditions) + [Condition("assignee", user)]
      ensures Build() == if old(conditions) == [] then Condition("assignee", user)
                         else old(Build()) + Separator + Condition("assignee", user)
    {
      QueryAppend(conditions, Condition("assignee", user));
      conditions := conditions + [Condition("assignee", user)];
      self := this;
    }

    method InStatus(status: string) returns (self: JqlBuilder)
      modifies this
      ensures self == this
      ensures conditions == old(conditions) + [Condition("status", status)]
      ensures Build() == if old(conditions) == [] then Condition("status", status)
                         else old(Build()) + Separator + Condition("status", status)
    {
      QueryAppend(conditions, Condition("status", status));
      conditions := conditions + [Condition("status", status)];
      self := this;
    }

    method InSprint(sprint: string) returns (self: JqlBuilder)
      modifies this
      ensures self == this
      ensures conditions == old(conditions) + [Condition("sprint", sprint)]
      ensures Build() == if old(conditions) == [] then Condition("sprint", sprint)
                         else old(Build()) + Separator + Condition("sprint", sprint)
    {
      QueryAppend(conditions, Condition("sprint", sprint));
      conditions := conditions + [Condition("sprint", sprint)];
      self := this;
    }

    method InProject(projectKey: string) returns (self: JqlBuilder)
      modifies this
      ensures self == this
      ensures conditions == old(conditions) + [Condition("project", projectKey)]
      ensures Build() == if old(conditions) == [] then Condition("project", projectKey)
                         else old(Build()) + Separator + Condition("project", projectKey)
    {
      QueryAppend(conditions, Condition("project", projectKey));
      conditions := conditions + [Condition("project", projectKey)];
      self := this;
    }
  }

  /** Every predicate returns the builder itself, so chaining
      `new JQLBuilder().inProject(p).assignedTo(u).build()` gives the two
      conditions in call order. */
  method ChainedBuild(projectKey: string, user: string) returns (q: string)
    ensures q == "project = \"" + projectKey + "\" AND assignee = \"" + user + "\""
  {
    var builder := new JqlBuilder();
    var chained := builder.InProject(projectKey);
    chained := chained.AssignedTo(user);
    q := chained.Build();
  }
}
