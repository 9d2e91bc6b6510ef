/**
 * deleteQueryBuilder (DELETE /v1/:name): `DELETE FROM name WHERE …;` with
 * the same filter grammar and literals as a select.
 */
module Delete {
  import opened Wrappers
  import opened Text
  import opened Filters
  import opened Outcomes
  import opened QueryParams
  import opened Select

  function DeleteStatement(name: string, clauses: seq<Clause>): string
  {
    "DELETE FROM " + name + Where(clauses) + ";"
  }

  /** Without a query string the route refuses the request; otherwise every segment is a filter clause. */
  function DeleteQuery(name: string, queryParams: Option<string>): (r: Result<string>)
    ensures r == Invalid(MissingFilter) <==> !Present(queryParams)
    ensures r.Invalid? ==> r == Invalid(MissingFilter) || r == Invalid(BadFilter)
  {
    if !Present(queryParams) then Invalid(MissingFilter)
    else
      match ParseClauses(Segments(queryParams), true)
      case None => Invalid(BadFilter)
      case Some(clauses) => Ok(DeleteStatement(name, clauses))
  }

  lemma StatementHasWhere(name: string, clauses: seq<Clause>)
    requires |clauses| >= 1
    ensures DeleteStatement(name, clauses) == "DELETE FROM " + name + " WHERE " + Join(Conditions(clauses), " AND ") + ";"
  {
  }

  /** An accepted delete is always restricted: there is at least one condition. */
  lemma DeleteAlwaysFiltered(name: string, queryParams: Option<string>)
    requires DeleteQuery(name, queryParams).Ok?
    ensures exists clauses: seq<Clause> :: |clauses| >= 1
              && DeleteQuery(name, queryParams).value == "DELETE FROM " + name + " WHERE " + Join(Conditions(clauses), " AND ") + ";"
  {
    var clauses := ParseClauses(Segments(queryParams), true).value;
    StatementHasWhere(name, clauses);
  }

  /** Filter segments become the WHERE conditions in order, joined by ` AND `. */
  lemma DeleteFilters(name: string, parts: seq<string>, segs: seq<string>, conditions: seq<string>)
    requires |segs| >= 1 && |parts| == |segs| && |conditions| == |segs|
    requires forall i :: 0 <= i < |segs| ==> RawSegment(parts[i], segs[i])
    requires forall i :: 0 <= i < |segs| ==> InlineCondition(segs[i]) == Some(conditions[i])
    ensures DeleteQuery(name, Some(Join(parts, "&")))
         == Ok("DELETE FROM " + name + " WHERE " + Join(conditions, " AND ") + ";")
  {
    SegmentsOfParts(parts, segs);
    var clauses := ParseClauses(segs, true).value;
    assert Conditions(clauses) == conditions;
    StatementHasWhere(name, clauses);
  }

  lemma StatementsShareTail(name: string, clauses: seq<Clause>)
    ensures var d := DeleteStatement(name, clauses);
            |d| >= 6 && "SELECT *" + d[6..] == SelectStatement("*", name, clauses)
  {
    var tail := " FROM " + name + Where(clauses) + ";";
    assert DeleteStatement(name, clauses) == "DELETE" + tail;
    assert SelectStatement("*", name, clauses) == "SELECT *" + tail;
    assert ("DELETE" + tail)[6..] == tail;
  }

  /**
   * For a query string without `select=` segments, a delete uses the same
   * WHERE as `SELECT *`: both are accepted or refused together, and their
   * texts differ only in the leading verb.
   */
  lemma DeleteMatchesSelect(name: string, queryParams: Option<string>)
    requires Present(queryParams)
    requires forall i :: 0 <= i < |Segments(queryParams)| ==> !IsSelect(Segments(queryParams)[i])
    ensures DeleteQuery(name, queryParams).Ok? <==> SelectQuery(name, queryParams, None).Ok?
    ensures DeleteQuery(name, queryParams).Ok? ==>
              var d := DeleteQuery(name, queryParams).value;
              |d| >= 6 && "SELECT *" + d[6..] == SelectQuery(name, queryParams, None).value
  {
    NoSelect(Segments(queryParams));
    var parsed := ParseClauses(Segments(queryParams), true);
    if parsed.Some? {
      SelectQueryOf(name, queryParams, None, "*", parsed.value);
      StatementsShareTail(name, parsed.value);
    }
  }

  /** The route answers 400 exactly when the builder's result is invalid. */
  lemma DeleteRejectedIffInvalid(name: string, queryParams: Option<string>)
    ensures SourceText(DeleteQuery(name, queryParams)) == "" <==> DeleteQuery(name, queryParams).Invalid?
  {
  }
}
