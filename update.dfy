/**
 * updateQueryBuilder (PATCH /v1/:name/:id?): `UPDATE name SET k=v,…` with
 * the body's fields inline, restricted by the id when there is one and by
 * the filter clauses of the query string otherwise.
 */
module Update {
  import opened Wrappers
  import opened Text
  import opened Json
  import opened Filters
  import opened Outcomes
  import opened SqlValues
  import opened QueryParams

  function SetItem(f: Field): string
  {
    f.key + "=" + BodyLiteral(f.value)
  }

  function SetItems(body: Row): (items: seq<string>)
    ensures |items| == |body|
  {
    seq(|body|, i requires 0 <= i < |body| => SetItem(body[i]))
  }

  /** The SET list: the body's fields in key order, joined by `,` without spaces. */
  function SetList(body: Row): string
  {
    Join(SetItems(body), ",")
  }

  /** The WHERE part: the id alone when there is one, else the filter clauses (none at all without a query string). */
  function UpdateWhere(id: Option<string>, queryParams: Option<string>): Result<string>
  {
    if Present(id) then Ok(" WHERE id = '" + id.value + "'")
    else
      match ParseClauses(Segments(queryParams), true)
      case None => Invalid(BadFilter)
      case Some(clauses) => Ok(Where(clauses))
  }

  /** The route's guard: an empty body is refused unless both an id and a query string are given. */
  predicate Refused(body: Row, id: Option<string>, queryParams: Option<string>)
  {
    |body| == 0 && (!Present(id) || !Present(queryParams))
  }

  function UpdateStatement(name: string, body: Row, where: string, prefer: Option<string>): string
  {
    "UPDATE " + name + " SET " + SetList(body) + where + Returning(prefer) + ";"
  }

  function UpdateQuery(name: string, body: Row, id: Option<string>, queryParams: Option<string>, prefer: Option<string>): (r: Result<string>)
    ensures r == Invalid(EmptyBody) <==> Refused(body, id, queryParams)
    ensures r == Invalid(BadFilter) ==> !Present(id) && Present(queryParams)
  {
    if Refused(body, id, queryParams) then Invalid(EmptyBody)
    else
      match UpdateWhere(id, queryParams)
      case Invalid(e) => Invalid(e)
      case Ok(where) => Ok(UpdateStatement(name, body, where, prefer))
  }

  // ---------------------------------------------------------------- properties

  /** With an id, the query string plays no part: the row is chosen by `id = '<id>'` alone. */
  lemma IdWins(name: string, body: Row, id: Option<string>, q1: Option<string>, q2: Option<string>, prefer: Option<string>)
    requires Present(id) && |body| > 0
    ensures UpdateQuery(name, body, id, q1, prefer) == UpdateQuery(name, body, id, q2, prefer)
    ensures UpdateQuery(name, body, id, q1, prefer)
         == Ok("UPDATE " + name + " SET " + SetList(body) + " WHERE id = '" + id.value + "'" + Returning(prefer) + ";")
  {
    ByIdStatement(name, body, id.value, prefer);
  }

  lemma ByIdStatement(name: string, body: Row, id: string, prefer: Option<string>)
    ensures UpdateStatement(name, body, " WHERE id = '" + id + "'", prefer)
         == "UPDATE " + name + " SET " + SetList(body) + " WHERE id = '" + id + "'" + Returning(prefer) + ";"
  {
  }

  /** An empty body with both an id and a query string gets through the guard, with an empty SET list. */
  lemma EmptyBodyWithBoth(name: string, id: Option<string>, queryParams: Option<string>, prefer: Option<string>)
    requires Present(id) && Present(queryParams)
    ensures UpdateQuery(name, [], id, queryParams, prefer).Ok?
  {
  }

  /** SET items follow the body's key order. */
  lemma SetListAppend(a: Row, b: Row)
    requires |a| >= 1 && |b| >= 1
    ensures SetList(a + b) == SetList(a) + "," + SetList(b)
  {
    assert SetItems(a + b) == SetItems(a) + SetItems(b);
    JoinAppend(SetItems(a), SetItems(b), ",");
  }

  /** A null field is written `name=NULL`; any other scalar is quoted, so a number 34 is `'34'`. */
  lemma SetItemValues(key: string, v: Json)
    ensures SetItem(Field(key, JNull)) == key + "=NULL"
    ensures !v.JNull? && !v.JArray? ==> SetItem(Field(key, v)) == key + "='" + ScalarText(v) + "'"
    ensures v.JArray? ==> SetItem(Field(key, v)) == key + "=" + Stringify(v)
  {
  }

  lemma StatementReturning(name: string, body: Row, where: string, prefer: Option<string>)
    requires prefer != Some(Representation)
    ensures var plain := UpdateStatement(name, body, where, prefer);
            && |plain| >= 1
            && UpdateStatement(name, body, where, Some(Representation)) == plain[..|plain| - 1] + " RETURNING *;"
  {
    var stem := "UPDATE " + name + " SET " + SetList(body) + where;
    assert UpdateStatement(name, body, where, prefer) == stem + ";";
    assert UpdateStatement(name, body, where, Some(Representation)) == stem + " RETURNING *;";
    assert (stem + ";")[..|stem|] == stem;
  }

  /** "return=representation" puts ` RETURNING *` just before the closing `;` and changes nothing else. */
  lemma ReturningBeforeSemicolon(name: string, body: Row, id: Option<string>, queryParams: Option<string>, prefer: Option<string>)
    requires prefer != Some(Representation)
    ensures var plain := UpdateQuery(name, body, id, queryParams, prefer);
            var returning := UpdateQuery(name, body, id, queryParams, Some(Representation));
            && (plain.Invalid? ==> returning == plain)
            && (plain.Ok? ==>
                  returning.Ok? && |plain.value| >= 1
                  && returning.value == plain.value[..|plain.value| - 1] + " RETURNING *;")
  {
    if !Refused(body, id, queryParams) && UpdateWhere(id, queryParams).Ok? {
      StatementReturning(name, body, UpdateWhere(id, queryParams).value, prefer);
    }
  }

  lemma StatementWhere(name: string, body: Row, clauses: seq<Clause>, prefer: Option<string>)
    requires |clauses| >= 1
    ensures UpdateStatement(name, body, Where(clauses), prefer)
         == "UPDATE " + name + " SET " + SetList(body) + " WHERE " + Join(Conditions(clauses), " AND ") + Returning(prefer) + ";"
  {
  }

  /** Without an id, the filter segments become the WHERE conditions in order, joined by ` AND `, trailing `,` dropped. */
  lemma UpdateFilters(name: string, body: Row, parts: seq<string>, segs: seq<string>, conditions: seq<string>, prefer: Option<string>)
    requires |body| >= 1 && |segs| >= 1 && |parts| == |segs| && |conditions| == |segs|
    requires forall i :: 0 <= i < |segs| ==> RawSegment(parts[i], segs[i])
    requires forall i :: 0 <= i < |segs| ==> InlineCondition(segs[i]) == Some(conditions[i])
    ensures UpdateQuery(name, body, None, Some(Join(parts, "&")), prefer)
         == Ok("UPDATE " + name + " SET " + SetList(body) + " WHERE " + Join(conditions, " AND ") + Returning(prefer) + ";")
  {
    SegmentsOfParts(parts, segs);
    var clauses := ParseClauses(segs, true).value;
    assert Conditions(clauses) == conditions;
    StatementWhere(name, body, clauses, prefer);
  }

  /** The route answers 400 exactly when the builder's result is invalid (the empty string). */
  lemma UpdateRejectedIffInvalid(name: string, body: Row, id: Option<string>, queryParams: Option<string>, prefer: Option<string>)
    ensures var r := UpdateQuery(name, body, id, queryParams, prefer);
            SourceText(r) == "" <==> r.Invalid?
  {
  }
}
