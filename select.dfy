/**
 * selectQueryBuilder: `SELECT` statements with inline literals, for a table
 * or view (GET /v1/:name) or for a function view called with named
 * arguments from the request body (POST /v1/rpc/:name).
 */
module Select {
  import opened Wrappers
  import opened Text
  import opened Json
  import opened Filters
  import opened Outcomes
  import opened SqlValues
  import opened QueryParams

  /** A `select=` column list, comma-split and re-joined with `, `. */
  function Columns(list: string): string
  {
    Join(Split(list, ','), ", ")
  }

  /** One named argument of a function-view call. */
  function Argument(f: Field): string
  {
    f.key + "=>" + BodyLiteral(f.value)
  }

  function Arguments(body: Row): (r: seq<string>)
    ensures |r| == |body|
  {
    seq(|body|, i requires 0 <= i < |body| => Argument(body[i]))
  }

  /** The body's keys as `key=>literal`, in insertion order, joined by `,` without spaces. */
  function RpcArguments(body: Row): string
  {
    Join(Arguments(body), ",")
  }

  /**
   * The column list and the filter clauses of a query string: `*` without a
   * `select=` segment; invalid for an empty or repeated `select=` or a
   * clause that does not parse.
   */
  function ParseSelectParams(queryParams: Option<string>): Result<(string, seq<Clause>)>
  {
    var segs := Segments(queryParams);
    var lists := ColumnLists(segs);
    if |lists| > 1 then Invalid(DuplicateSelect)
    else if |lists| == 1 && lists[0] == "" then Invalid(EmptySelect)
    else
      match ParseClauses(FilterSegments(segs), true)
      case None => Invalid(BadFilter)
      case Some(clauses) => Ok((if |lists| == 0 then "*" else Columns(lists[0]), clauses))
  }

  /** The table or view itself, or the call `name(arguments)` of a function view. */
  function Target(name: string, body: Option<Row>): string
  {
    match body
    case None => name
    case Some(args) => name + "(" + RpcArguments(args) + ")"
  }

  function SelectStatement(columns: string, target: string, clauses: seq<Clause>): string
  {
    "SELECT " + columns + " FROM " + target + Where(clauses) + ";"
  }

  /**
   * selectQueryBuilder: the statement for table or view `name`; with a body,
   * the WHERE follows the closing parenthesis of the call.
   */
  function SelectQuery(name: string, queryParams: Option<string>, body: Option<Row>): Result<string>
  {
    match ParseSelectParams(queryParams)
    case Invalid(e) => Invalid(e)
    case Ok((columns, clauses)) => Ok(SelectStatement(columns, Target(name, body), clauses))
  }

  lemma SelectQueryOf(name: string, queryParams: Option<string>, body: Option<Row>, columns: string, clauses: seq<Clause>)
    requires ParseSelectParams(queryParams) == Ok((columns, clauses))
    ensures SelectQuery(name, queryParams, body) == Ok(SelectStatement(columns, Target(name, body), clauses))
  {
  }

  lemma ParseNoParams(queryParams: Option<string>)
    requires !Present(queryParams)
    ensures ParseSelectParams(queryParams) == Ok(("*", []))
  {
    assert Segments(queryParams) == [];
    assert ParseClauses([], true) == Some([]);
  }

  lemma StatementWithoutWhere(columns: string, target: string)
    ensures SelectStatement(columns, target, []) == "SELECT " + columns + " FROM " + target + ";"
  {
    assert Where([]) == "";
  }

  lemma StatementAll(target: string)
    ensures SelectStatement("*", target, []) == "SELECT * FROM " + target + ";"
  {
    assert Where([]) == "";
  }

  /** Without query parameters every column of the table is selected. */
  lemma SelectAll(name: string, queryParams: Option<string>)
    requires !Present(queryParams)
    ensures SelectQuery(name, queryParams, None) == Ok("SELECT * FROM " + name + ";")
  {
    ParseNoParams(queryParams);
    SelectQueryOf(name, queryParams, None, "*", []);
    StatementAll(name);
  }

  /** `select=` with nothing after it is invalid, with or without a body. */
  lemma EmptySelectInvalid(name: string, body: Option<Row>)
    ensures SelectQuery(name, Some("select="), body) == Invalid(EmptySelect)
  {
    SegmentsOfJoin(["select="]);
    ParseEmptySelect();
  }

  lemma ParseEmptySelect()
    requires Segments(Some("select=")) == ["select="]
    ensures ParseSelectParams(Some("select=")) == Invalid(EmptySelect)
  {
    assert ColumnLists(["select="]) == [""];
  }

  lemma ColumnsOfJoin(cols: seq<string>)
    requires |cols| >= 1 && forall i :: 0 <= i < |cols| ==> ',' !in cols[i]
    ensures Columns(Join(cols, ",")) == Join(cols, ", ")
  {
    SplitJoin(cols, ',');
  }

  lemma NoSeparatorInJoin(parts: seq<string>, sep: char, c: char)
    requires sep != c && forall i :: 0 <= i < |parts| ==> c !in parts[i]
    ensures c !in Join(parts, [sep])
  {
    if |parts| > 1 {
      NoSeparatorInJoin(parts[1..], sep, c);
    }
  }

  /** A join ends with its last part. */
  lemma JoinEndsWithLast(parts: seq<string>, sep: string)
    requires |parts| >= 1
    ensures |Join(parts, sep)| >= |parts[|parts| - 1]|
    ensures Join(parts, sep)[|Join(parts, sep)| - |parts[|parts| - 1]|..] == parts[|parts| - 1]
  {
    var n := |parts|;
    if n > 1 {
      assert parts == parts[..n - 1] + [parts[n - 1]];
      JoinSnoc(parts[..n - 1], parts[n - 1], sep);
    }
  }

  lemma ColumnListSegment(cols: seq<string>)
    requires |cols| >= 1
    requires forall i :: 0 <= i < |cols| ==> cols[i] != "" && ',' !in cols[i] && '&' !in cols[i]
    ensures PlainSegment("select=" + Join(cols, ","))
  {
    var list := Join(cols, ",");
    var seg := "select=" + list;
    NoSeparatorInJoin(cols, ',', '&');
    JoinEndsWithLast(cols, ",");
    var last := cols[|cols| - 1];
    assert list[|list| - 1] == last[|last| - 1];
    assert seg[|seg| - 1] == list[|list| - 1];
    assert '&' !in seg;
  }

  lemma ParseColumnList(cols: seq<string>)
    requires |cols| >= 1
    requires forall i :: 0 <= i < |cols| ==> cols[i] != "" && ',' !in cols[i] && '&' !in cols[i]
    ensures ParseSelectParams(Some("select=" + Join(cols, ","))) == Ok((Join(cols, ", "), []))
  {
    var list := Join(cols, ",");
    var seg := "select=" + list;
    OnlySegment(cols);
    assert list != "" by {
      assert cols[0] != "";
    }
    OnlyColumns(Some(seg), list);
    ColumnsOfJoin(cols);
  }

  /** A query string that is one `select=` segment selects its columns and filters nothing. */
  lemma OnlyColumns(q: Option<string>, list: string)
    requires Segments(q) == ["select=" + list] && list != ""
    ensures ParseSelectParams(q) == Ok((Columns(list), []))
  {
    SelectSegment(list);
  }

  lemma OnlySegment(cols: seq<string>)
    requires |cols| >= 1
    requires forall i :: 0 <= i < |cols| ==> cols[i] != "" && ',' !in cols[i] && '&' !in cols[i]
    ensures Segments(Some("select=" + Join(cols, ","))) == ["select=" + Join(cols, ",")]
  {
    ColumnListSegment(cols);
    SegmentsOfJoin(["select=" + Join(cols, ",")]);
  }

  lemma SelectSegment(list: string)
    ensures ColumnLists(["select=" + list]) == [list] && FilterSegments(["select=" + list]) == []
  {
    var seg := "select=" + list;
    assert seg[..7] == "select=" && seg[7..] == list;
    var segs: seq<string> := [seg];
    assert segs[1..] == [];
  }

  /** `select=a,b,c` selects `a, b, c`, in that order. */
  lemma SelectColumns(name: string, cols: seq<string>)
    requires |cols| >= 1
    requires forall i :: 0 <= i < |cols| ==> cols[i] != "" && ',' !in cols[i] && '&' !in cols[i]
    ensures SelectQuery(name, Some("select=" + Join(cols, ",")), None)
         == Ok("SELECT " + Join(cols, ", ") + " FROM " + name + ";")
  {
    ParseColumnList(cols);
    SelectQueryOf(name, Some("select=" + Join(cols, ",")), None, Join(cols, ", "), []);
    StatementWithoutWhere(Join(cols, ", "), name);
  }

  lemma ParseFilterSegments(parts: seq<string>, segs: seq<string>, conditions: seq<string>) returns (clauses: seq<Clause>)
    requires |segs| >= 1 && |parts| == |segs| && |conditions| == |segs|
    requires forall i :: 0 <= i < |segs| ==> RawSegment(parts[i], segs[i]) && !IsSelect(segs[i])
    requires forall i :: 0 <= i < |segs| ==> InlineCondition(segs[i]) == Some(conditions[i])
    ensures ParseSelectParams(Some(Join(parts, "&"))) == Ok(("*", clauses))
    ensures Conditions(clauses) == conditions && |clauses| >= 1
  {
    SegmentsOfParts(parts, segs);
    NoSelect(segs);
    clauses := ParseClauses(segs, true).value;
  }

  /**
   * Filter segments become the WHERE conditions in the order they are
   * written, joined by ` AND `, each segment's trailing `,` dropped.
   */
  lemma SelectFilters(name: string, parts: seq<string>, segs: seq<string>, conditions: seq<string>)
    requires |segs| >= 1 && |parts| == |segs| && |conditions| == |segs|
    requires forall i :: 0 <= i < |segs| ==> RawSegment(parts[i], segs[i]) && !IsSelect(segs[i])
    requires forall i :: 0 <= i < |segs| ==> InlineCondition(segs[i]) == Some(conditions[i])
    ensures SelectQuery(name, Some(Join(parts, "&")), None)
         == Ok("SELECT * FROM " + name + " WHERE " + Join(conditions, " AND ") + ";")
  {
    var clauses := ParseFilterSegments(parts, segs, conditions);
    SelectQueryOf(name, Some(Join(parts, "&")), None, "*", clauses);
    StatementAllWhere(name, clauses);
  }

  lemma SelectSegments(sel: string, segs: seq<string>)
    requires IsSelect(sel) && forall i :: 0 <= i < |segs| ==> !IsSelect(segs[i])
    ensures ColumnLists([sel] + segs) == [sel[7..]] && FilterSegments([sel] + segs) == segs
  {
    NoSelect(segs);
    assert ([sel] + segs)[1..] == segs;
  }

  lemma ParseColumnsFilters(cols: seq<string>, parts: seq<string>, segs: seq<string>, conditions: seq<string>)
    returns (clauses: seq<Clause>)
    requires |cols| >= 1
    requires forall i :: 0 <= i < |cols| ==> cols[i] != "" && ',' !in cols[i] && '&' !in cols[i]
    requires |segs| >= 1 && |parts| == |segs| && |conditions| == |segs|
    requires forall i :: 0 <= i < |segs| ==> RawSegment(parts[i], segs[i]) && !IsSelect(segs[i])
    requires forall i :: 0 <= i < |segs| ==> InlineCondition(segs[i]) == Some(conditions[i])
    ensures ParseSelectParams(Some("select=" + Join(cols, ",") + "&" + Join(parts, "&"))) == Ok((Join(cols, ", "), clauses))
    ensures Conditions(clauses) == conditions && |clauses| >= 1
  {
    var list := Join(cols, ",");
    var sel := "select=" + list;
    ColumnsAndFilters(cols, parts, segs);
    assert sel[..7] == "select=" && sel[7..] == list;
    SelectSegments(sel, segs);
    assert list != "";
    ColumnsOfJoin(cols);
    clauses := ParseClauses(segs, true).value;
  }

  lemma ColumnsAndFilters(cols: seq<string>, parts: seq<string>, segs: seq<string>)
    requires |cols| >= 1
    requires forall i :: 0 <= i < |cols| ==> cols[i] != "" && ',' !in cols[i] && '&' !in cols[i]
    requires |segs| >= 1 && |parts| == |segs|
    requires forall i :: 0 <= i < |segs| ==> RawSegment(parts[i], segs[i])
    ensures Segments(Some("select=" + Join(cols, ",") + "&" + Join(parts, "&"))) == ["select=" + Join(cols, ",")] + segs
  {
    var sel := "select=" + Join(cols, ",");
    ColumnListSegment(cols);
    JoinOne(sel, "&");
    JoinAppend([sel], parts, "&");
    SegmentsOfParts([sel] + parts, [sel] + segs);
  }

  /** A column list and filters together: the columns before `FROM`, the conditions after the target. */
  lemma SelectColumnsFilters(name: string, cols: seq<string>, parts: seq<string>, segs: seq<string>, conditions: seq<string>, body: Option<Row>)
    requires |cols| >= 1
    requires forall i :: 0 <= i < |cols| ==> cols[i] != "" && ',' !in cols[i] && '&' !in cols[i]
    requires |segs| >= 1 && |parts| == |segs| && |conditions| == |segs|
    requires forall i :: 0 <= i < |segs| ==> RawSegment(parts[i], segs[i]) && !IsSelect(segs[i])
    requires forall i :: 0 <= i < |segs| ==> InlineCondition(segs[i]) == Some(conditions[i])
    ensures SelectQuery(name, Some("select=" + Join(cols, ",") + "&" + Join(parts, "&")), body)
         == Ok("SELECT " + Join(cols, ", ") + " FROM " + Target(name, body) + " WHERE " + Join(conditions, " AND ") + ";")
  {
    var clauses := ParseColumnsFilters(cols, parts, segs, conditions);
    SelectQueryOf(name, Some("select=" + Join(cols, ",") + "&" + Join(parts, "&")), body, Join(cols, ", "), clauses);
    StatementWhere(Join(cols, ", "), Target(name, body), clauses);
  }

  lemma StatementWhere(columns: string, target: string, clauses: seq<Clause>)
    requires |clauses| >= 1
    ensures SelectStatement(columns, target, clauses)
         == "SELECT " + columns + " FROM " + target + " WHERE " + Join(Conditions(clauses), " AND ") + ";"
  {
  }

  lemma StatementAllWhere(target: string, clauses: seq<Clause>)
    requires |clauses| >= 1
    ensures SelectStatement("*", target, clauses)
         == "SELECT * FROM " + target + " WHERE " + Join(Conditions(clauses), " AND ") + ";"
  {
  }

  /** A function-view call is a plain select whose target is `name(arguments)`. */
  lemma RpcIsSelectFromCall(name: string, queryParams: Option<string>, body: Row)
    ensures SelectQuery(name, queryParams, Some(body))
         == SelectQuery(name + "(" + RpcArguments(body) + ")", queryParams, None)
  {
  }

  /** Arguments keep the body's key order. */
  lemma RpcArgumentsAppend(a: Row, b: Row)
    requires |a| >= 1 && |b| >= 1
    ensures RpcArguments(a + b) == RpcArguments(a) + "," + RpcArguments(b)
  {
    assert Arguments(a + b) == Arguments(a) + Arguments(b);
    JoinAppend(Arguments(a), Arguments(b), ",");
  }

  /** The route's `!queryString` test rejects exactly the invalid requests. */
  lemma SelectRejectedIffInvalid(name: string, queryParams: Option<string>, body: Option<Row>)
    ensures SourceText(SelectQuery(name, queryParams, body)) == "" <==> SelectQuery(name, queryParams, body).Invalid?
  {
  }
}
