/**
 * The documented cases of selectQueryBuilderV2, each derived from the
 * general properties. Expected statements are written in the pieces the
 * builder assembles them from.
 */
module SelectV2Examples {
  import opened Wrappers
  import opened Text
  import opened Filters
  import opened Outcomes
  import opened SelectV2

  // ---------------------------------------------------------------- helpers

  /** An already-decoded `col=eq.text` entry with a non-numeric text parses to a string clause. */
  lemma EqEntry(column: string, text: string)
    requires '=' !in column && '%' !in column && '%' !in text
    requires !IsDigits(text) && text != "null"
    ensures ParseClause(column + "=" + "eq" + "." + text, false) == Some(Clause(column, Eq, Str(text)))
  {
    var seg := column + "=" + "eq" + "." + text;
    assert ParseClause(seg, true) == Some(Clause(column, Eq, Str(text))) by {
      DecodePlain(text);
      ParseText(column, Eq, text, text);
    }
    assert '%' !in seg;
    SameGrammar(seg);
  }

  lemma ParseOne(seg: string, c: Clause)
    requires ParseClause(seg, false) == Some(c)
    ensures ParseClauses([seg], false) == Some([c])
  {
    assert [seg][0] == seg && [seg][1..] == [];
    assert ParseClauses([], false) == Some([]);
    assert [c] + [] == [c];
  }

  lemma SlotText(prefix: string, n: string)
    requires n == "1" || n == "2"
    ensures prefix + " $" + n == prefix + (" $" + n)
    ensures n == "1" ==> prefix + " $" + n == prefix + " $1"
    ensures n == "2" ==> prefix + " $" + n == prefix + " $2"
  {
  }

  lemma FirstSlot(c: Clause)
    requires c.value.Str?
    ensures ParamConditions([c]) == [c.column + " " + Symbol(c.op) + " $1"]
    ensures FilterValues([c]) == [c.value.text]
  {
    ScalarCondition(c, 1);
    assert [c][..0] == [];
    assert NatToString(1) == "1";
    SlotText(c.column + " " + Symbol(c.op), "1");
  }

  lemma SecondSlot(c1: Clause, c2: Clause)
    requires c1.value.Str? && c2.value.Str?
    ensures ParamConditions([c1, c2]) == [c1.column + " " + Symbol(c1.op) + " $1", c2.column + " " + Symbol(c2.op) + " $2"]
    ensures FilterValues([c1, c2]) == [c1.value.text, c2.value.text]
  {
    FirstSlot(c1);
    ScalarCondition(c2, 2);
    assert [c1, c2][..1] == [c1];
    assert FilterValues([c1, c2]) == FilterValues([c1]) + ClauseValues(c2);
    assert ParamConditions([c1, c2]) == ParamConditions([c1]) + [ParamCondition(c2, 1 + |FilterValues([c1])|)];
    assert NatToString(2) == "2";
    SlotText(c2.column + " " + Symbol(c2.op), "2");
  }

  lemma WhereOne(c: Clause)
    requires c.value.Str?
    ensures WhereV2([c]) == " WHERE " + (c.column + " " + Symbol(c.op) + " $1")
  {
    FirstSlot(c);
    JoinOne(c.column + " " + Symbol(c.op) + " $1", " AND ");
  }

  lemma WhereTwo(c1: Clause, c2: Clause)
    requires c1.value.Str? && c2.value.Str?
    ensures WhereV2([c1, c2]) == " WHERE " + (c1.column + " " + Symbol(c1.op) + " $1") + " AND " + (c2.column + " " + Symbol(c2.op) + " $2")
  {
    SecondSlot(c1, c2);
    JoinTwo(c1.column + " " + Symbol(c1.op) + " $1", c2.column + " " + Symbol(c2.op) + " $2", " AND ");
  }

  /** The V2 result assembled from its three parts: head, WHERE and the sort-and-limit tail. */
  lemma V2Shape(name: string, params: V2Params, clauses: seq<Clause>, head: string, where: string, tail: string)
    requires !Repeated(params.select) && !Repeated(params.limit)
    requires ParseClauses(FilterEntries(params.filter), false) == Some(clauses)
    requires "SELECT " + ColumnsV2(params.select) + " FROM " + name == head
    requires WhereV2(clauses) == where
    requires OrderBy(params.sort) + LimitV2(params.limit) == tail
    ensures SelectQueryV2(name, params) == Ok(Prepared(head + where + tail, FilterValues(clauses)))
  {
    V2Query(name, params, clauses);
    assert head + where + OrderBy(params.sort) + LimitV2(params.limit) == head + where + tail;
  }

  /** One filter entry `seg` parsing to a string clause, rendered between a given head and tail. */
  lemma V2OneFilter(name: string, params: V2Params, seg: string, c: Clause, head: string, where: string, tail: string)
    requires !Repeated(params.select) && !Repeated(params.limit)
    requires FilterEntries(params.filter) == [seg]
    requires ParseClause(seg, false) == Some(c) && c.value.Str?
    requires "SELECT " + ColumnsV2(params.select) + " FROM " + name == head
    requires " WHERE " + (c.column + " " + Symbol(c.op) + " $1") == where
    requires OrderBy(params.sort) + LimitV2(params.limit) == tail
    ensures SelectQueryV2(name, params) == Ok(Prepared(head + where + tail, [c.value.text]))
  {
    ParseOne(seg, c);
    WhereOne(c);
    FirstSlot(c);
    V2Shape(name, params, [c], head, where, tail);
  }

  lemma ParseTwo(s1: string, c1: Clause, s2: string, c2: Clause)
    requires ParseClause(s1, false) == Some(c1) && ParseClause(s2, false) == Some(c2)
    ensures ParseClauses([s1, s2], false) == Some([c1, c2])
  {
    ParseOne(s2, c2);
    assert [s1, s2][0] == s1 && [s1, s2][1..] == [s2];
    assert [c1] + [c2] == [c1, c2];
  }

  /** Two filter entries parsing to string clauses: `$1` and `$2`, bound to their strings in order. */
  lemma V2TwoFilters(name: string, params: V2Params, s1: string, c1: Clause, s2: string, c2: Clause, head: string, where: string, tail: string)
    requires !Repeated(params.select) && !Repeated(params.limit)
    requires FilterEntries(params.filter) == [s1, s2]
    requires ParseClause(s1, false) == Some(c1) && c1.value.Str?
    requires ParseClause(s2, false) == Some(c2) && c2.value.Str?
    requires "SELECT " + ColumnsV2(params.select) + " FROM " + name == head
    requires " WHERE " + (c1.column + " " + Symbol(c1.op) + " $1") + " AND " + (c2.column + " " + Symbol(c2.op) + " $2") == where
    requires OrderBy(params.sort) + LimitV2(params.limit) == tail
    ensures SelectQueryV2(name, params) == Ok(Prepared(head + where + tail, [c1.value.text, c2.value.text]))
  {
    ParseTwo(s1, c1, s2, c2);
    WhereTwo(c1, c2);
    SecondSlot(c1, c2);
    V2Shape(name, params, [c1, c2], head, where, tail);
  }

  /** No filter entries: no WHERE and no values. */
  lemma V2NoFilter(name: string, params: V2Params, head: string, tail: string)
    requires !Repeated(params.select) && !Repeated(params.limit)
    requires FilterEntries(params.filter) == []
    requires "SELECT " + ColumnsV2(params.select) + " FROM " + name == head
    requires OrderBy(params.sort) + LimitV2(params.limit) == tail
    ensures SelectQueryV2(name, params) == Ok(Prepared(head + tail, []))
  {
    V2Shape(name, params, [], head, "", tail);
    assert head + "" == head;
  }

  // ---------------------------------------------------------------- cases

  lemma LimitOnly()
    ensures SelectQueryV2("roles", V2Params(None, None, None, Some(One("1"))))
         == Ok(Prepared("SELECT * FROM roles LIMIT 1", []))
  {
    V2Query("roles", V2Params(None, None, None, Some(One("1"))), []);
    var head := "SELECT " + "*" + " FROM " + "roles";
    assert WhereV2([]) == "" && OrderBy(None) == "";
    assert head + "" + "" == head;
    assert head + (" LIMIT " + "1") == "SELECT * FROM roles LIMIT 1";
  }

  lemma RepeatedLists()
    ensures SourceObject(SelectQueryV2("roles", V2Params(Some(Many(["name,age", "location"])), None, None, Some(Many(["3", "77"])))))
         == Prepared("", [])
  {
    RepeatedIsEmptyObject("roles", V2Params(Some(Many(["name,age", "location"])), None, None, Some(Many(["3", "77"]))));
  }

  lemma PedroText()
    ensures "firstname" + "=" + "eq" + "." + "Pedro" == "firstname=eq.Pedro"
    ensures '=' !in "firstname" && '%' !in "firstname" && '%' !in "Pedro"
    ensures !IsDigits("Pedro")
  {
    assert !IsDigit("Pedro"[0]);
  }

  lemma ByFirstnameText()
    ensures "SELECT " + "*" + " FROM " + "roles" == "SELECT * FROM roles"
    ensures " WHERE " + ("firstname" + " " + "=" + " $1") == " WHERE firstname = $1"
    ensures "" + (" LIMIT " + "1") == " LIMIT 1"
  {
  }

  lemma ByFirstname()
    ensures SelectQueryV2("roles", V2Params(None, Some(Many(["firstname=eq.Pedro"])), None, Some(One("1"))))
         == Ok(Prepared("SELECT * FROM roles" + " WHERE firstname = $1" + " LIMIT 1", ["Pedro"]))
  {
    PedroText();
    ByFirstnameText();
    V2OneEq("roles", V2Params(None, Some(Many(["firstname=eq.Pedro"])), None, Some(One("1"))),
            "firstname", "Pedro", "SELECT * FROM roles", " WHERE firstname = $1", " LIMIT 1");
  }

  lemma TilburyOneText()
    ensures "name" + "=" + "eq" + "." + "Tilbury 1" == "name=eq.Tilbury 1"
    ensures "city" + "=" + "eq" + "." + "London" == "city=eq.London"
    ensures '=' !in "name" && '%' !in "name" && '%' !in "Tilbury 1"
    ensures '=' !in "city" && '%' !in "city" && '%' !in "London"
    ensures !IsDigits("Tilbury 1") && !IsDigits("London")
  {
    assert !IsDigit("Tilbury 1"[0]) && !IsDigit("London"[0]);
  }

  lemma NameCityText()
    ensures "SELECT " + "name,city" + " FROM " + "roles" == "SELECT name,city FROM roles"
    ensures " WHERE " + ("name" + " " + "=" + " $1") + " AND " + ("city" + " " + "=" + " $2") == " WHERE name = $1 AND city = $2"
    ensures "" + (" LIMIT " + "5") == " LIMIT 5"
  {
    assert " WHERE " + ("name" + " " + "=" + " $1") == " WHERE name = $1";
    assert "city" + " " + "=" + " $2" == "city = $2";
  }

  /** One already-decoded `col=eq.text` entry with a non-numeric text: `col = $1`. */
  lemma V2OneEq(name: string, params: V2Params, col: string, t: string, head: string, where: string, tail: string)
    requires !Repeated(params.select) && !Repeated(params.limit)
    requires FilterEntries(params.filter) == [col + "=" + "eq" + "." + t]
    requires '=' !in col && '%' !in col && '%' !in t && !IsDigits(t) && t != "null"
    requires "SELECT " + ColumnsV2(params.select) + " FROM " + name == head
    requires " WHERE " + (col + " " + "=" + " $1") == where
    requires OrderBy(params.sort) + LimitV2(params.limit) == tail
    ensures SelectQueryV2(name, params) == Ok(Prepared(head + where + tail, [t]))
  {
    EqEntry(col, t);
    V2OneFilter(name, params, col + "=" + "eq" + "." + t, Clause(col, Eq, Str(t)), head, where, tail);
  }

  /** Two already-decoded `col=eq.text` entries with non-numeric texts: `col1 = $1 AND col2 = $2`. */
  lemma V2TwoEq(name: string, params: V2Params, col1: string, t1: string, col2: string, t2: string, head: string, where: string, tail: string)
    requires !Repeated(params.select) && !Repeated(params.limit)
    requires FilterEntries(params.filter) == [col1 + "=" + "eq" + "." + t1, col2 + "=" + "eq" + "." + t2]
    requires '=' !in col1 && '%' !in col1 && '%' !in t1 && !IsDigits(t1) && t1 != "null"
    requires '=' !in col2 && '%' !in col2 && '%' !in t2 && !IsDigits(t2) && t2 != "null"
    requires "SELECT " + ColumnsV2(params.select) + " FROM " + name == head
    requires " WHERE " + (col1 + " " + "=" + " $1") + " AND " + (col2 + " " + "=" + " $2") == where
    requires OrderBy(params.sort) + LimitV2(params.limit) == tail
    ensures SelectQueryV2(name, params) == Ok(Prepared(head + where + tail, [t1, t2]))
  {
    EqEntry(col1, t1);
    EqEntry(col2, t2);
    V2TwoFilters(name, params, col1 + "=" + "eq" + "." + t1, Clause(col1, Eq, Str(t1)), col2 + "=" + "eq" + "." + t2, Clause(col2, Eq, Str(t2)),
                 head, where, tail);
  }

  lemma NameAndCity()
    ensures SelectQueryV2("roles", V2Params(Some(One("name,city")), Some(Many(["name=eq.Tilbury 1", "city=eq.London"])), None, Some(One("5"))))
         == Ok(Prepared("SELECT name,city FROM roles" + " WHERE name = $1 AND city = $2" + " LIMIT 5", ["Tilbury 1", "London"]))
  {
    TilburyOneText();
    NameCityText();
    V2TwoEq("roles", V2Params(Some(One("name,city")), Some(Many(["name=eq.Tilbury 1", "city=eq.London"])), None, Some(One("5"))),
            "name", "Tilbury 1", "city", "London", "SELECT name,city FROM roles", " WHERE name = $1 AND city = $2", " LIMIT 5");
  }

  lemma Directions()
    ensures ToUpper("asc") == "ASC" && ToUpper("desc") == "DESC"
  {
  }

  /** One sort entry `col.dir`. */
  lemma SortOne(column: string, dir: string)
    requires '.' !in column && ',' !in column && ',' !in dir && dir != ""
    ensures OrderBy(Some(column + "." + dir)) == " ORDER BY " + (column + " " + ToUpper(dir))
  {
    var e := column + "." + dir;
    SplitWithout(e, ',');
    SortItemOf(column, dir);
    assert SortItems([e]) == [column + " " + ToUpper(dir)];
    JoinOne(column + " " + ToUpper(dir), ", ");
  }

  /** Two sort entries `col1.dir1,col2.dir2`, kept in order. */
  lemma SortTwo(col1: string, dir1: string, col2: string, dir2: string)
    requires '.' !in col1 && ',' !in col1 && ',' !in dir1 && dir1 != ""
    requires '.' !in col2 && ',' !in col2 && ',' !in dir2 && dir2 != ""
    ensures OrderBy(Some((col1 + "." + dir1) + "," + (col2 + "." + dir2)))
         == " ORDER BY " + ((col1 + " " + ToUpper(dir1)) + ", " + (col2 + " " + ToUpper(dir2)))
  {
    var e1, e2 := col1 + "." + dir1, col2 + "." + dir2;
    JoinTwo(e1, e2, ",");
    SortOrder([e1, e2]);
    SortItemOf(col1, dir1);
    SortItemOf(col2, dir2);
    assert SortItems([e1, e2]) == [col1 + " " + ToUpper(dir1), col2 + " " + ToUpper(dir2)];
    JoinTwo(col1 + " " + ToUpper(dir1), col2 + " " + ToUpper(dir2), ", ");
  }

  lemma SortedText()
    ensures "name" + "." + "asc" == "name.asc"
    ensures "SELECT " + "name" + " FROM " + "team" == "SELECT name FROM team"
    ensures " ORDER BY " + ("name" + " " + "ASC") + (" LIMIT " + "3") == " ORDER BY name ASC LIMIT 3"
  {
  }

  lemma SortedByName()
    ensures SelectQueryV2("team", V2Params(Some(One("name")), None, Some("name.asc"), Some(One("3"))))
         == Ok(Prepared("SELECT name FROM team" + " ORDER BY name ASC LIMIT 3", []))
  {
    var params := V2Params(Some(One("name")), None, Some("name.asc"), Some(One("3")));
    assert OrderBy(params.sort) + LimitV2(params.limit) == " ORDER BY name ASC LIMIT 3" by {
      SortedText();
      Directions();
      SortOne("name", "asc");
    }
    assert "SELECT " + ColumnsV2(params.select) + " FROM " + "team" == "SELECT name FROM team" by {
      SortedText();
    }
    V2NoFilter("team", params, "SELECT name FROM team", " ORDER BY name ASC LIMIT 3");
  }

  lemma BlueTeamText()
    ensures "name" + "=" + "eq" + "." + "Blue Team" == "name=eq.Blue Team"
    ensures '=' !in "name" && '%' !in "name" && '%' !in "Blue Team"
    ensures !IsDigits("Blue Team")
    ensures "SELECT " + "*" + " FROM " + "team" == "SELECT * FROM team"
    ensures " WHERE " + ("name" + " " + "=" + " $1") == " WHERE name = $1"
    ensures " LIMIT " + "3" == " LIMIT 3"
  {
    assert !IsDigit("Blue Team"[0]);
  }

  lemma BlueTeamSort()
    ensures ("name" + "." + "asc") + "," + ("size" + "." + "desc") == "name.asc,size.desc"
    ensures " ORDER BY " + (("name" + " " + "ASC") + ", " + ("size" + " " + "DESC")) == " ORDER BY name ASC, size DESC"
  {
    assert "name" + "." + "asc" == "name.asc" && "size" + "." + "desc" == "size.desc";
    assert ("name" + " " + "ASC") + ", " + ("size" + " " + "DESC") == "name ASC, size DESC";
  }

  lemma BlueTeam()
    ensures SelectQueryV2("team", V2Params(None, Some(Many(["name=eq.Blue Team"])), Some("name.asc,size.desc"), Some(One("3"))))
         == Ok(Prepared("SELECT * FROM team" + " WHERE name = $1" + (" ORDER BY name ASC, size DESC" + " LIMIT 3"), ["Blue Team"]))
  {
    BlueTeamText();
    assert OrderBy(Some("name.asc,size.desc")) == " ORDER BY name ASC, size DESC" by {
      BlueTeamSort();
      Directions();
      SortTwo("name", "asc", "size", "desc");
    }
    V2OneEq("team", V2Params(None, Some(Many(["name=eq.Blue Team"])), Some("name.asc,size.desc"), Some(One("3"))),
            "name", "Blue Team", "SELECT * FROM team", " WHERE name = $1", " ORDER BY name ASC, size DESC" + " LIMIT 3");
  }
}
