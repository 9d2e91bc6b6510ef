/**
 * selectQueryBuilderV2 (GET /v2/:name): the parsed query object
 * `{select, filter, sort, limit}` becomes a parameterised `SELECT` with
 * placeholders `$1, $2, …` and the parallel list of their values. There is
 * no trailing `;`.
 */
module SelectV2 {
  import opened Wrappers
  import opened Text
  import opened Filters
  import opened Outcomes
  import opened QueryParams

  /** A parsed query parameter: given once (a string) or repeated (a list of strings). */
  datatype Param = One(text: string) | Many(texts: seq<string>)

  datatype V2Params = V2Params(select: Option<Param>, filter: Option<Param>, sort: Option<string>, limit: Option<Param>)

  /** Whether the parameter was given more than once. */
  predicate Repeated(p: Option<Param>)
  {
    p.Some? && p.value.Many?
  }

  /** The column list verbatim, `*` when absent or empty. */
  function ColumnsV2(select: Option<Param>): string
    requires !Repeated(select)
  {
    if select.Some? && select.value.text != "" then select.value.text else "*"
  }

  /** The filter entries: one string, or the list as given. */
  function FilterEntries(filter: Option<Param>): seq<string>
  {
    match filter
    case None => []
    case Some(One(s)) => [s]
    case Some(Many(ss)) => ss
  }

  // ---------------------------------------------------------------- placeholders

  /** The values a clause binds, in order: none for `IS NULL`, one per element of an `in` list, one otherwise. */
  function ClauseValues(c: Clause): seq<string>
  {
    match c.value
    case Null => []
    case Number(d) => [d]
    case Str(t) => [t]
    case List(items) => items
  }

  /** `$next, $next + 1, …`: `count` placeholders. */
  function Slots(next: nat, count: nat): (ss: seq<string>)
    ensures |ss| == count
  {
    seq(count, i requires 0 <= i < count => "$" + NatToString(next + i))
  }

  /** A clause rendered with its placeholders starting at `$next`. */
  function ParamCondition(c: Clause, next: nat): string
  {
    if c.op == Eq && c.value.Null? then c.column + " IS NULL"
    else if c.value.List? then c.column + " " + Symbol(c.op) + " (" + Join(Slots(next, |c.value.items|), ", ") + ")"
    else c.column + " " + Symbol(c.op) + " " + Slots(next, 1)[0]
  }

  /** The values of all the clauses, clause after clause. */
  function FilterValues(cs: seq<Clause>): seq<string>
  {
    if |cs| == 0 then [] else FilterValues(cs[..|cs| - 1]) + ClauseValues(cs[|cs| - 1])
  }

  /** The conditions, numbering placeholders from `$1` in clause order. */
  function ParamConditions(cs: seq<Clause>): (r: seq<string>)
    ensures |r| == |cs|
  {
    if |cs| == 0 then []
    else
      var prefix := cs[..|cs| - 1];
      ParamConditions(prefix) + [ParamCondition(cs[|cs| - 1], 1 + |FilterValues(prefix)|)]
  }

  function WhereV2(cs: seq<Clause>): string
  {
    if |cs| == 0 then "" else " WHERE " + Join(ParamConditions(cs), " AND ")
  }

  // ---------------------------------------------------------------- sort and limit

  /** `col.dir` as `col DIR`; the direction is upper-cased and defaults to `ASC`. */
  function SortItem(entry: string): string
  {
    match SplitFirst(entry, '.')
    case None => entry + " ASC"
    case Some((column, dir)) => column + " " + (if dir == "" then "ASC" else ToUpper(dir))
  }

  function SortItems(entries: seq<string>): (r: seq<string>)
    ensures |r| == |entries|
  {
    seq(|entries|, i requires 0 <= i < |entries| => SortItem(entries[i]))
  }

  function OrderBy(sort: Option<string>): string
  {
    if Present(sort) then " ORDER BY " + Join(SortItems(Split(sort.value, ',')), ", ") else ""
  }

  function LimitV2(limit: Option<Param>): string
    requires !Repeated(limit)
  {
    if limit.Some? && limit.value.text != "" then " LIMIT " + limit.value.text else ""
  }

  function SelectV2Statement(name: string, columns: string, clauses: seq<Clause>, sort: Option<string>, limit: Option<Param>): string
    requires !Repeated(limit)
  {
    "SELECT " + columns + " FROM " + name + WhereV2(clauses) + OrderBy(sort) + LimitV2(limit)
  }

  /**
   * The query object for `name`: invalid when `select` or `limit` is
   * repeated or a filter entry does not parse. Filter entries arrive
   * decoded already and are not percent-decoded again.
   */
  function SelectQueryV2(name: string, params: V2Params): (r: Result<Prepared<string>>)
    ensures r == Invalid(ListParameter) <==> Repeated(params.select) || Repeated(params.limit)
  {
    if Repeated(params.select) || Repeated(params.limit) then Invalid(ListParameter)
    else
      match ParseClauses(FilterEntries(params.filter), false)
      case None => Invalid(BadFilter)
      case Some(clauses) =>
        Ok(Prepared(SelectV2Statement(name, ColumnsV2(params.select), clauses, params.sort, params.limit), FilterValues(clauses)))
  }

  // ---------------------------------------------------------------- properties

  /**
   * With `select` and `limit` given at most once and every filter entry
   * parsed, the statement is the columns, the table, the numbered
   * conditions, the sort and the limit in that order, and the values are
   * those of the clauses in filter order.
   */
  lemma V2Query(name: string, params: V2Params, clauses: seq<Clause>)
    requires !Repeated(params.select) && !Repeated(params.limit)
    requires ParseClauses(FilterEntries(params.filter), false) == Some(clauses)
    ensures |clauses| == |FilterEntries(params.filter)|
    ensures SelectQueryV2(name, params)
         == Ok(Prepared("SELECT " + ColumnsV2(params.select) + " FROM " + name + WhereV2(clauses)
                          + OrderBy(params.sort) + LimitV2(params.limit),
                        FilterValues(clauses)))
  {
  }

  /** A repeated `select` or `limit` yields `{queryString: '', values: []}`, whatever the other parameters. */
  lemma RepeatedIsEmptyObject(name: string, params: V2Params)
    requires Repeated(params.select) || Repeated(params.limit)
    ensures SourceObject(SelectQueryV2(name, params)) == Prepared("", [])
  {
  }

  /** The values of the first `i` clauses come first, then those of clause `i`. */
  lemma {:induction false} FilterValuesAt(cs: seq<Clause>, i: nat)
    requires i < |cs|
    ensures |FilterValues(cs[..i])| + |ClauseValues(cs[i])| <= |FilterValues(cs)|
    ensures forall k :: 0 <= k < |ClauseValues(cs[i])| ==>
              FilterValues(cs)[|FilterValues(cs[..i])| + k] == ClauseValues(cs[i])[k]
  {
    var prefix := cs[..|cs| - 1];
    if i < |cs| - 1 {
      FilterValuesAt(prefix, i);
      assert prefix[..i] == cs[..i];
    } else {
      assert prefix == cs[..i];
    }
  }

  /** Clause `i` is rendered with its placeholders starting after those of the clauses before it. */
  lemma {:induction false} ParamConditionsAt(cs: seq<Clause>, i: nat)
    requires i < |cs|
    ensures ParamConditions(cs)[i] == ParamCondition(cs[i], 1 + |FilterValues(cs[..i])|)
  {
    var prefix := cs[..|cs| - 1];
    if i < |cs| - 1 {
      ParamConditionsAt(prefix, i);
      assert prefix[..i] == cs[..i];
    } else {
      assert prefix == cs[..i];
    }
  }

  /**
   * Placeholder alignment: with `start` the number of values of the clauses
   * before clause `i`, that clause numbers its placeholders from
   * `$(start + 1)`, and its `k`-th value is `values[start + k]`, the value
   * bound to `$(start + 1 + k)`.
   */
  lemma Alignment(cs: seq<Clause>, i: nat)
    requires i < |cs|
    ensures ParamConditions(cs)[i] == ParamCondition(cs[i], |FilterValues(cs[..i])| + 1)
    ensures |FilterValues(cs[..i])| + |ClauseValues(cs[i])| <= |FilterValues(cs)|
    ensures forall k :: 0 <= k < |ClauseValues(cs[i])| ==>
              FilterValues(cs)[|FilterValues(cs[..i])| + k] == ClauseValues(cs[i])[k]
  {
    ParamConditionsAt(cs, i);
    FilterValuesAt(cs, i);
  }

  /** A clause with one value renders as `column op $next`. */
  lemma ScalarCondition(c: Clause, next: nat)
    requires c.value.Number? || c.value.Str?
    ensures ParamCondition(c, next) == c.column + " " + Symbol(c.op) + " $" + NatToString(next)
    ensures ClauseValues(c) == [if c.value.Number? then c.value.digits else c.value.text]
  {
    assert Slots(next, 1)[0] == "$" + NatToString(next);
  }

  /** With one value per clause, clause `i` is `column op $(i+1)` and `values[i]` is its value. */
  lemma {:induction false} ScalarFilters(cs: seq<Clause>)
    requires forall i :: 0 <= i < |cs| ==> cs[i].value.Number? || cs[i].value.Str?
    ensures |FilterValues(cs)| == |cs|
    ensures forall i :: 0 <= i < |cs| ==>
              ParamConditions(cs)[i] == cs[i].column + " " + Symbol(cs[i].op) + " $" + NatToString(i + 1)
              && FilterValues(cs)[i] == (if cs[i].value.Number? then cs[i].value.digits else cs[i].value.text)
  {
    if |cs| > 0 {
      var prefix := cs[..|cs| - 1];
      ScalarFilters(prefix);
      var last := cs[|cs| - 1];
      ScalarCondition(last, |cs|);
      forall i | 0 <= i < |cs|
        ensures ParamConditions(cs)[i] == cs[i].column + " " + Symbol(cs[i].op) + " $" + NatToString(i + 1)
        ensures FilterValues(cs)[i] == (if cs[i].value.Number? then cs[i].value.digits else cs[i].value.text)
      {
        if i < |cs| - 1 {
          assert cs[i] == prefix[i];
        }
      }
    }
  }

  /** Sort entries keep their order, separated by `, `. */
  lemma SortOrder(entries: seq<string>)
    requires |entries| >= 1 && forall i :: 0 <= i < |entries| ==> entries[i] != "" && ',' !in entries[i]
    ensures OrderBy(Some(Join(entries, ","))) == " ORDER BY " + Join(SortItems(entries), ", ")
  {
    SplitJoin(entries, ',');
  }

  /** `col.dir` becomes `col DIR`. */
  lemma SortItemOf(column: string, dir: string)
    requires '.' !in column && dir != ""
    ensures SortItem(column + "." + dir) == column + " " + ToUpper(dir)
  {
    assert column + "." + dir == column + ['.'] + dir;
    SplitFirstAt(column, '.', dir);
  }

  lemma StatementEndsWithLimit(name: string, columns: string, clauses: seq<Clause>, sort: Option<string>, n: string)
    requires n != ""
    ensures var s := SelectV2Statement(name, columns, clauses, sort, Some(One(n)));
            |s| >= |" LIMIT " + n| && s[|s| - |" LIMIT " + n|..] == " LIMIT " + n
  {
    var stem := "SELECT " + columns + " FROM " + name + WhereV2(clauses) + OrderBy(sort);
    assert SelectV2Statement(name, columns, clauses, sort, Some(One(n))) == stem + (" LIMIT " + n);
    assert (stem + (" LIMIT " + n))[|stem|..] == " LIMIT " + n;
  }

  /** The limit comes last: an accepted query with `limit=n` ends with ` LIMIT n`. */
  lemma LimitLast(name: string, params: V2Params, n: string)
    requires params.limit == Some(One(n)) && n != ""
    requires SelectQueryV2(name, params).Ok?
    ensures var s := SelectQueryV2(name, params).value.queryString;
            |s| >= |" LIMIT " + n| && s[|s| - |" LIMIT " + n|..] == " LIMIT " + n
  {
    var clauses := ParseClauses(FilterEntries(params.filter), false).value;
    StatementEndsWithLimit(name, ColumnsV2(params.select), clauses, params.sort, n);
  }

  lemma StatementStartsWith(name: string, columns: string, clauses: seq<Clause>, sort: Option<string>, limit: Option<Param>)
    requires !Repeated(limit)
    ensures var s := SelectV2Statement(name, columns, clauses, sort, limit);
            var head := "SELECT " + columns + " FROM ";
            |s| >= |head| && s[..|head|] == head
  {
    var head := "SELECT " + columns + " FROM ";
    var where, order, lim := WhereV2(clauses), OrderBy(sort), LimitV2(limit);
    var rest := name + where + order + lim;
    assert SelectV2Statement(name, columns, clauses, sort, limit) == head + rest by {
      assert "SELECT " + columns + " FROM " + name + where + order + lim == head + rest;
    }
    HeadOf(head, rest);
  }

  lemma HeadOf(head: string, rest: string)
    ensures |head + rest| >= |head| && (head + rest)[..|head|] == head
  {
    assert (head + rest)[..|head|] == head;
  }

  /** The column list is used as given, commas and all. */
  lemma SelectVerbatim(name: string, params: V2Params, columns: string)
    requires params.select == Some(One(columns)) && columns != ""
    requires SelectQueryV2(name, params).Ok?
    ensures var s := SelectQueryV2(name, params).value.queryString;
            var head := "SELECT " + columns + " FROM ";
            |s| >= |head| && s[..|head|] == head
  {
    var clauses := ParseClauses(FilterEntries(params.filter), false).value;
    StatementStartsWith(name, columns, clauses, params.sort, params.limit);
  }

  /** Entries without `%` parse the same way in both versions: only decoding sets them apart. */
  lemma SameGrammar(segment: string)
    requires '%' !in segment
    ensures ParseClause(segment, false) == ParseClause(segment, true)
  {
    match ClauseParts(segment)
    case None =>
    case Some((column, opName, raw)) =>
      assert '%' !in raw;
      DecodePlain(raw);
  }
}
