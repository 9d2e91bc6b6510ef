/**
 * The remaining documented cases of selectQueryBuilder: a column list with
 * filters, an `in` list, a date range, and function-view calls with
 * arguments from the body.
 */
module SelectMoreExamples {
  import opened Wrappers
  import opened Text
  import opened Json
  import opened Filters
  import opened Outcomes
  import opened QueryParams
  import opened SqlValues
  import opened Select
  import opened SelectExamples

  // ---------------------------------------------------------------- helpers

  lemma OneSegment(seg: string, condition: string)
    requires PlainSegment(seg) && !IsSelect(seg) && InlineCondition(seg) == Some(condition)
    ensures forall i :: 0 <= i < 1 ==> RawSegment([seg][i], [seg][i]) && !IsSelect([seg][i])
    ensures forall i :: 0 <= i < 1 ==> InlineCondition([seg][i]) == Some([condition][i])
  {
    forall i | 0 <= i < 1
      ensures RawSegment([seg][i], [seg][i]) && !IsSelect([seg][i])
      ensures InlineCondition([seg][i]) == Some([condition][i])
    {
      assert [seg][i] == seg && [condition][i] == condition;
    }
  }

  /** A list of plain column names, joined for the query string and for SQL. */
  predicate ColumnList(cols: seq<string>, list: string, columns: string)
  {
    && |cols| >= 1
    && (forall i :: 0 <= i < |cols| ==> cols[i] != "" && ',' !in cols[i] && '&' !in cols[i])
    && Join(cols, ",") == list && Join(cols, ", ") == columns
  }

  lemma OneColumn(c: string)
    requires c != "" && ',' !in c && '&' !in c
    ensures ColumnList([c], c, c)
  {
    JoinOne(c, ",");
    JoinOne(c, ", ");
  }

  lemma TwoColumns(c1: string, c2: string)
    requires c1 != "" && ',' !in c1 && '&' !in c1
    requires c2 != "" && ',' !in c2 && '&' !in c2
    ensures ColumnList([c1, c2], c1 + "," + c2, c1 + ", " + c2)
  {
    JoinTwo(c1, c2, ",");
    JoinTwo(c1, c2, ", ");
  }

  lemma ThreeColumns(c1: string, c2: string, c3: string)
    requires c1 != "" && ',' !in c1 && '&' !in c1
    requires c2 != "" && ',' !in c2 && '&' !in c2
    requires c3 != "" && ',' !in c3 && '&' !in c3
    ensures ColumnList([c1, c2, c3], c1 + "," + c2 + "," + c3, c1 + ", " + c2 + ", " + c3)
  {
    forall i | 0 <= i < 3
      ensures [c1, c2, c3][i] != "" && ',' !in [c1, c2, c3][i] && '&' !in [c1, c2, c3][i]
    {
      if i == 0 {
        assert [c1, c2, c3][i] == c1;
      } else if i == 1 {
        assert [c1, c2, c3][i] == c2;
      } else {
        assert [c1, c2, c3][i] == c3;
      }
    }
    JoinThree(c1, c2, c3, ",");
    JoinThree(c1, c2, c3, ", ");
  }

  /** A column list and one filter. */
  lemma ColumnsOneFilter(name: string, cols: seq<string>, list: string, columns: string, seg: string, condition: string, body: Option<Row>)
    requires ColumnList(cols, list, columns)
    requires PlainSegment(seg) && !IsSelect(seg) && InlineCondition(seg) == Some(condition)
    ensures SelectQuery(name, Some("select=" + list + "&" + seg), body)
         == Ok("SELECT " + columns + " FROM " + Target(name, body) + " WHERE " + condition + ";")
  {
    OneSegment(seg, condition);
    JoinOne(seg, "&");
    JoinOne(condition, " AND ");
    SelectColumnsFilters(name, cols, [seg], [seg], [condition], body);
  }

  /** A column list and two filters. */
  lemma ColumnsTwoFilters(name: string, cols: seq<string>, list: string, columns: string, p1: string, s1: string, c1: string, p2: string, s2: string, c2: string)
    requires ColumnList(cols, list, columns)
    requires RawSegment(p1, s1) && !IsSelect(s1) && InlineCondition(s1) == Some(c1)
    requires RawSegment(p2, s2) && !IsSelect(s2) && InlineCondition(s2) == Some(c2)
    ensures SelectQuery(name, Some("select=" + list + "&" + (p1 + "&" + p2)), None)
         == Ok("SELECT " + columns + " FROM " + name + " WHERE " + (c1 + " AND " + c2) + ";")
  {
    TwoSegments(p1, s1, c1, p2, s2, c2);
    JoinTwo(p1, p2, "&");
    JoinTwo(c1, c2, " AND ");
    SelectColumnsFilters(name, cols, [p1, p2], [s1, s2], [c1, c2], None);
  }

  lemma ThreeRawSegments(p1: string, s1: string, p2: string, s2: string, p3: string, s3: string)
    requires RawSegment(p1, s1) && !IsSelect(s1)
    requires RawSegment(p2, s2) && !IsSelect(s2)
    requires RawSegment(p3, s3) && !IsSelect(s3)
    ensures forall i :: 0 <= i < 3 ==> RawSegment([p1, p2, p3][i], [s1, s2, s3][i]) && !IsSelect([s1, s2, s3][i])
  {
    forall i | 0 <= i < 3
      ensures RawSegment([p1, p2, p3][i], [s1, s2, s3][i]) && !IsSelect([s1, s2, s3][i])
    {
      if i == 0 {
        assert [p1, p2, p3][i] == p1 && [s1, s2, s3][i] == s1;
      } else if i == 1 {
        assert [p1, p2, p3][i] == p2 && [s1, s2, s3][i] == s2;
      } else {
        assert [p1, p2, p3][i] == p3 && [s1, s2, s3][i] == s3;
      }
    }
  }

  lemma ThreeConditions(s1: string, c1: string, s2: string, c2: string, s3: string, c3: string)
    requires InlineCondition(s1) == Some(c1) && InlineCondition(s2) == Some(c2) && InlineCondition(s3) == Some(c3)
    ensures forall i :: 0 <= i < 3 ==> InlineCondition([s1, s2, s3][i]) == Some([c1, c2, c3][i])
  {
    forall i | 0 <= i < 3
      ensures InlineCondition([s1, s2, s3][i]) == Some([c1, c2, c3][i])
    {
      if i == 0 {
        assert [s1, s2, s3][i] == s1 && [c1, c2, c3][i] == c1;
      } else if i == 1 {
        assert [s1, s2, s3][i] == s2 && [c1, c2, c3][i] == c2;
      } else {
        assert [s1, s2, s3][i] == s3 && [c1, c2, c3][i] == c3;
      }
    }
  }

  /** A column list and three filters. */
  lemma ColumnsThreeFilters(name: string, cols: seq<string>, list: string, columns: string, p1: string, s1: string, c1: string, p2: string, s2: string, c2: string,
                            p3: string, s3: string, c3: string)
    requires ColumnList(cols, list, columns)
    requires RawSegment(p1, s1) && !IsSelect(s1) && InlineCondition(s1) == Some(c1)
    requires RawSegment(p2, s2) && !IsSelect(s2) && InlineCondition(s2) == Some(c2)
    requires RawSegment(p3, s3) && !IsSelect(s3) && InlineCondition(s3) == Some(c3)
    ensures SelectQuery(name, Some("select=" + list + "&" + (p1 + "&" + p2 + "&" + p3)), None)
         == Ok("SELECT " + columns + " FROM " + name + " WHERE " + (c1 + " AND " + c2 + " AND " + c3) + ";")
  {
    ThreeRawSegments(p1, s1, p2, s2, p3, s3);
    ThreeConditions(s1, c1, s2, c2, s3, c3);
    JoinThree(p1, p2, p3, "&");
    JoinThree(c1, c2, c3, " AND ");
    SelectColumnsFilters(name, cols, [p1, p2, p3], [s1, s2, s3], [c1, c2, c3], None);
  }

  /** A comparison with a text that needs no decoding and is not digits. */
  lemma TextCondition(column: string, op: Operator, text: string)
    requires '=' !in column && op != In && op != Eq
    requires '%' !in text && !IsDigits(text)
    ensures InlineCondition(column + "=" + OperatorName(op) + "." + text) == Some(column + " " + Symbol(op) + " '" + text + "'")
  {
    DecodePlain(text);
    TextQuoted(column, op, text, text);
  }

  lemma DecodeClose()
    ensures PercentDecode("%29") == Some(")")
  {
    assert PercentDecode("") == Some("");
    DecodeEscape('2', '9', "");
    var c := (HexValue('2') * 16 + HexValue('9')) as char;
    assert c == ')';
    assert ['%', '2', '9'] + "" == "%29";
    assert [c] + "" == ")";
  }

  /** `%28 ... %29` decodes to the text in parentheses. */
  lemma DecodeParens(inner: string)
    requires '%' !in inner
    ensures PercentDecode("%28" + inner + "%29") == Some("(" + inner + ")")
  {
    DecodeClose();
    DecodePrefix(inner, "%29");
    DecodeEscape('2', '8', inner + "%29");
    var c := (HexValue('2') * 16 + HexValue('8')) as char;
    assert c == '(';
    assert ['%', '2', '8'] + (inner + "%29") == "%28" + inner + "%29";
    assert [c] + (inner + ")") == "(" + inner + ")";
  }

  /** `col=in.%28a,b%29`: the list is decoded and both elements quoted. */
  lemma InTwo(column: string, a: string, b: string)
    requires '=' !in column
    requires '%' !in a && '%' !in b && ',' !in a && ',' !in b
    ensures InlineCondition(column + "=in." + ("%28" + (a + "," + b) + "%29")) == Some(column + " IN (" + (Quoted(a) + ", " + Quoted(b)) + ")")
  {
    var inner := a + "," + b;
    var raw := "%28" + inner + "%29";
    assert PercentDecode(raw) == Some("(" + Join([a, b], ",") + ")") by {
      assert '%' !in inner;
      DecodeParens(inner);
      JoinTwo(a, b, ",");
    }
    assert forall i :: 0 <= i < |[a, b]| ==> ',' !in [a, b][i] by {
      forall i | 0 <= i < 2
        ensures ',' !in [a, b][i]
      {
        if i == 0 {
          assert [a, b][i] == a;
        } else {
          assert [a, b][i] == b;
        }
      }
    }
    InListQuoted(column, raw, [a, b]);
    assert Join(QuoteAll([a, b]), ", ") == Quoted(a) + ", " + Quoted(b) by {
      assert QuoteAll([a, b]) == [Quoted(a), Quoted(b)];
      JoinTwo(Quoted(a), Quoted(b), ", ");
    }
  }

  /**
   * A clause `column=op.text` whose column is not `select` is a filter
   * segment, with or without a trailing comma.
   */
  lemma ClauseSegment(column: string, opName: string, text: string)
    requires '=' !in column && column != "select" && '&' !in column && '&' !in opName && '&' !in text
    requires |text| > 0 && text[|text| - 1] != ','
    ensures PlainSegment(column + "=" + opName + "." + text) && !IsSelect(column + "=" + opName + "." + text)
    ensures RawSegment(column + "=" + opName + "." + text + ",", column + "=" + opName + "." + text)
  {
    var seg := column + "=" + opName + "." + text;
    assert seg[|seg| - 1] == text[|text| - 1];
    if |seg| >= 7 {
      if |column| >= 7 {
        assert seg[..7][6] == column[6];
        assert seg[..7][6] != "select="[6];
      } else if |column| == 6 {
        assert seg[..7][..6] == column;
        assert seg[..7][..6] != "select="[..6];
      } else {
        assert seg[..7][|column|] == '=';
        assert "select="[|column|] != '=';
      }
    }
    assert (seg + ",")[..|seg|] == seg;
  }

  lemma OneArgument(f: Field)
    ensures RpcArguments([f]) == Argument(f)
  {
    assert Arguments([f]) == [Argument(f)];
  }

  lemma TwoArguments(f1: Field, f2: Field)
    ensures RpcArguments([f1, f2]) == Argument(f1) + "," + Argument(f2)
  {
    assert Arguments([f1, f2]) == [Argument(f1), Argument(f2)];
    JoinTwo(Argument(f1), Argument(f2), ",");
  }

  lemma ThreeArguments(f1: Field, f2: Field, f3: Field)
    ensures RpcArguments([f1, f2, f3]) == Argument(f1) + "," + Argument(f2) + "," + Argument(f3)
  {
    assert Arguments([f1, f2, f3]) == [Argument(f1), Argument(f2), Argument(f3)];
    JoinThree(Argument(f1), Argument(f2), Argument(f3), ",");
  }

  /** A text argument is quoted; a null one is `NULL`. */
  lemma TextArgument(key: string, s: string)
    ensures Argument(Field(key, JStr(s))) == key + "=>" + ("'" + s + "'")
  {
  }

  lemma NullArgument(key: string)
    ensures Argument(Field(key, JNull)) == key + "=>" + "NULL"
  {
  }

  /** A function-view call without a query string selects every column of the call. */
  lemma CallAll(name: string, body: Row, args: string)
    requires RpcArguments(body) == args
    ensures SelectQuery(name, None, Some(body)) == Ok("SELECT * FROM " + (name + "(" + args + ")") + ";")
  {
    RpcIsSelectFromCall(name, None, body);
    SelectAll(name + "(" + args + ")", None);
  }

  /** A function-view call with a column list. */
  lemma CallColumns(name: string, body: Row, cols: seq<string>, list: string, columns: string, args: string)
    requires ColumnList(cols, list, columns)
    requires RpcArguments(body) == args
    ensures SelectQuery(name, Some("select=" + list), Some(body))
         == Ok("SELECT " + columns + " FROM " + (name + "(" + args + ")") + ";")
  {
    RpcIsSelectFromCall(name, Some("select=" + list), body);
    SelectColumns(name + "(" + args + ")", cols);
  }

  /**
   * A clause `column=op.text` comparing with a text that needs no decoding:
   * a filter segment, with or without its trailing comma, whose condition
   * quotes the text.
   */
  lemma TextClause(column: string, opName: string, op: Operator, text: string)
    requires '=' !in column && column != "select" && '&' !in column && '&' !in text
    requires op != In && op != Eq && OperatorName(op) == opName
    requires '%' !in text && !IsDigits(text) && |text| > 0 && text[|text| - 1] != ','
    ensures var seg := column + "=" + opName + "." + text;
      RawSegment(seg + ",", seg) && RawSegment(seg, seg) && !IsSelect(seg)
      && InlineCondition(seg) == Some(column + " " + Symbol(op) + " '" + text + "'")
  {
    assert '&' !in OperatorName(op);
    ClauseSegment(column, opName, text);
    TextCondition(column, op, text);
  }

  // ---------------------------------------------------------------- `in` lists

  lemma StaffIdsSegmentText()
    ensures "staffid" + "=in." + ("%28" + ("123" + "," + "222") + "%29") == "staffid=in.%28123,222%29"
  {
  }

  lemma StaffIdsConditionText()
    ensures "staffid" + " IN (" + (Quoted("123") + ", " + Quoted("222")) + ")" == "staffid IN ('123', '222')"
  {
  }

  lemma StaffIdsSegment()
    ensures PlainSegment("staffid=in.%28123,222%29") && !IsSelect("staffid=in.%28123,222%29")
  {
    var raw := "%28" + ("123" + "," + "222") + "%29";
    ClauseSegment("staffid", "in", raw);
    assert "staffid" + "=" + "in" + "." + raw == "staffid" + "=in." + raw;
    StaffIdsSegmentText();
  }

  /** Every element of the list is quoted, digits or not. */
  lemma StaffIdsCondition()
    ensures InlineCondition("staffid=in.%28123,222%29") == Some("staffid IN ('123', '222')")
  {
    InTwo("staffid", "123", "222");
    StaffIdsSegmentText();
    StaffIdsConditionText();
  }

  lemma EmailByStaffIds()
    ensures SelectQuery("users", Some("select=" + "email" + "&" + "staffid=in.%28123,222%29"), None)
         == Ok("SELECT " + "email" + " FROM " + "users" + " WHERE " + "staffid IN ('123', '222')" + ";")
  {
    StaffIdsSegment();
    StaffIdsCondition();
    Email();
    ColumnsOneFilter("users", ["email"], "email", "email", "staffid=in.%28123,222%29", "staffid IN ('123', '222')", None);
  }

  lemma Email()
    ensures ColumnList(["email"], "email", "email")
  {
    OneColumn("email");
  }

  lemma Firstname()
    ensures ColumnList(["firstname"], "firstname", "firstname")
  {
    OneColumn("firstname");
  }

  lemma EmailAndName()
    ensures ColumnList(["email", "name"], "email,name", "email, name")
  {
    TwoColumns("email", "name");
  }

  lemma EmailNameByStaffIds()
    ensures SelectQuery("users", Some("select=" + "email,name" + "&" + "staffid=in.%28123,222%29"), None)
         == Ok("SELECT " + "email, name" + " FROM " + "users" + " WHERE " + "staffid IN ('123', '222')" + ";")
  {
    StaffIdsSegment();
    StaffIdsCondition();
    EmailAndName();
    ColumnsOneFilter("users", ["email", "name"], "email,name", "email, name", "staffid=in.%28123,222%29", "staffid IN ('123', '222')", None);
  }

  // ---------------------------------------------------------------- columns and filters

  lemma CountryListText()
    ensures "name" + "," + "id" + "," + "continent" == "name,id,continent"
  {
  }

  lemma CountryColumnsText()
    ensures "name" + ", " + "id" + ", " + "continent" == "name, id, continent"
  {
  }

  lemma CountryColumns()
    ensures ColumnList(["name", "id", "continent"], "name,id,continent", "name, id, continent")
  {
    ThreeColumns("name", "id", "continent");
    CountryListText();
    CountryColumnsText();
  }

  lemma CountryColumnsByIdAndContinent()
    ensures SelectQuery("countries", Some("select=" + "name,id,continent" + "&" + ("id=eq.3," + "&" + "continent=eq.Asia")), None)
         == Ok("SELECT " + "name, id, continent" + " FROM " + "countries" + " WHERE " + ("id = 3" + " AND " + "continent = 'Asia'") + ";")
  {
    IdText();
    AsiaText();
    IdCondition();
    AsiaCondition();
    CountryColumns();
    ColumnsTwoFilters("countries", ["name", "id", "continent"], "name,id,continent", "name, id, continent", "id=eq.3,", "id=eq.3", "id = 3",
                      "continent=eq.Asia", "continent=eq.Asia", "continent = 'Asia'");
  }

  // ---------------------------------------------------------------- date ranges

  lemma DatesText()
    ensures '%' !in "2019-06-20T12:00:00" && !IsDigits("2019-06-20T12:00:00")
    ensures '%' !in "2019-06-22T12:00:00" && !IsDigits("2019-06-22T12:00:00")
  {
    assert !IsDigit("2019-06-20T12:00:00"[4]) && !IsDigit("2019-06-22T12:00:00"[4]);
  }

  lemma SinceSegmentText()
    ensures "shiftstartdatetime" + "=" + "gte" + "." + "2019-06-20T12:00:00" == "shiftstartdatetime=gte.2019-06-20T12:00:00"
  {
  }

  lemma SinceConditionText()
    ensures "shiftstartdatetime" + " " + ">=" + " '" + "2019-06-20T12:00:00" + "'" == "shiftstartdatetime >= '2019-06-20T12:00:00'"
  {
  }

  lemma SinceCommaText()
    ensures "shiftstartdatetime=gte.2019-06-20T12:00:00" + "," == "shiftstartdatetime=gte.2019-06-20T12:00:00,"
  {
  }

  lemma Since()
    ensures RawSegment("shiftstartdatetime=gte.2019-06-20T12:00:00,", "shiftstartdatetime=gte.2019-06-20T12:00:00")
    ensures !IsSelect("shiftstartdatetime=gte.2019-06-20T12:00:00")
    ensures InlineCondition("shiftstartdatetime=gte.2019-06-20T12:00:00") == Some("shiftstartdatetime >= '2019-06-20T12:00:00'")
  {
    DatesText();
    TextClause("shiftstartdatetime", "gte", Gte, "2019-06-20T12:00:00");
    SinceSegmentText();
    SinceConditionText();
    SinceCommaText();
  }

  lemma BeforeSegmentText()
    ensures "shiftstartdatetime" + "=" + "lt" + "." + "2019-06-22T12:00:00" == "shiftstartdatetime=lt.2019-06-22T12:00:00"
  {
  }

  lemma BeforeConditionText()
    ensures "shiftstartdatetime" + " " + "<" + " '" + "2019-06-22T12:00:00" + "'" == "shiftstartdatetime < '2019-06-22T12:00:00'"
  {
  }

  lemma Before()
    ensures RawSegment("shiftstartdatetime=lt.2019-06-22T12:00:00", "shiftstartdatetime=lt.2019-06-22T12:00:00")
    ensures !IsSelect("shiftstartdatetime=lt.2019-06-22T12:00:00")
    ensures InlineCondition("shiftstartdatetime=lt.2019-06-22T12:00:00") == Some("shiftstartdatetime < '2019-06-22T12:00:00'")
  {
    DatesText();
    TextClause("shiftstartdatetime", "lt", Lt, "2019-06-22T12:00:00");
    BeforeSegmentText();
    BeforeConditionText();
  }

  /** `gte` and `lt` bound a range; the dates are quoted. */
  lemma DateRange()
    ensures SelectQuery("getoarrecords", Some("shiftstartdatetime=gte.2019-06-20T12:00:00," + "&" + "shiftstartdatetime=lt.2019-06-22T12:00:00"), None)
         == Ok("SELECT * FROM " + "getoarrecords" + " WHERE "
               + ("shiftstartdatetime >= '2019-06-20T12:00:00'" + " AND " + "shiftstartdatetime < '2019-06-22T12:00:00'") + ";")
  {
    Since();
    Before();
    TwoFilters("getoarrecords", "shiftstartdatetime=gte.2019-06-20T12:00:00,", "shiftstartdatetime=gte.2019-06-20T12:00:00",
               "shiftstartdatetime >= '2019-06-20T12:00:00'", "shiftstartdatetime=lt.2019-06-22T12:00:00",
               "shiftstartdatetime=lt.2019-06-22T12:00:00", "shiftstartdatetime < '2019-06-22T12:00:00'");
  }

  lemma JuliusText()
    ensures "firstname" + "=" + "eq" + "." + "Julius" == "firstname=eq.Julius"
    ensures "firstname" + " " + "=" + " '" + "Julius" + "'" == "firstname = 'Julius'"
    ensures '%' !in "Julius" && !IsDigits("Julius") && "Julius" != "null"
  {
    assert !IsDigit("Julius"[0]);
  }

  lemma Julius()
    ensures RawSegment("firstname=eq.Julius,", "firstname=eq.Julius") && !IsSelect("firstname=eq.Julius")
    ensures InlineCondition("firstname=eq.Julius") == Some("firstname = 'Julius'")
  {
    JuliusText();
    ClauseSegment("firstname", "eq", "Julius");
    assert "firstname=eq.Julius" + "," == "firstname=eq.Julius,";
    DecodePlain("Julius");
    TextQuoted("firstname", Eq, "Julius", "Julius");
  }

  lemma AfterSegmentText()
    ensures "shiftstartdatetime" + "=" + "gt" + "." + "2019-06-20T12:00:00" == "shiftstartdatetime=gt.2019-06-20T12:00:00"
  {
  }

  lemma AfterConditionText()
    ensures "shiftstartdatetime" + " " + ">" + " '" + "2019-06-20T12:00:00" + "'" == "shiftstartdatetime > '2019-06-20T12:00:00'"
  {
  }

  lemma AfterCommaText()
    ensures "shiftstartdatetime=gt.2019-06-20T12:00:00" + "," == "shiftstartdatetime=gt.2019-06-20T12:00:00,"
  {
  }

  lemma After()
    ensures RawSegment("shiftstartdatetime=gt.2019-06-20T12:00:00,", "shiftstartdatetime=gt.2019-06-20T12:00:00")
    ensures !IsSelect("shiftstartdatetime=gt.2019-06-20T12:00:00")
    ensures InlineCondition("shiftstartdatetime=gt.2019-06-20T12:00:00") == Some("shiftstartdatetime > '2019-06-20T12:00:00'")
  {
    DatesText();
    TextClause("shiftstartdatetime", "gt", Gt, "2019-06-20T12:00:00");
    AfterSegmentText();
    AfterConditionText();
    AfterCommaText();
  }

  lemma UpToSegmentText()
    ensures "shiftstartdatetime" + "=" + "lte" + "." + "2019-06-22T12:00:00" == "shiftstartdatetime=lte.2019-06-22T12:00:00"
  {
  }

  lemma UpToConditionText()
    ensures "shiftstartdatetime" + " " + "<=" + " '" + "2019-06-22T12:00:00" + "'" == "shiftstartdatetime <= '2019-06-22T12:00:00'"
  {
  }

  lemma UpTo()
    ensures RawSegment("shiftstartdatetime=lte.2019-06-22T12:00:00", "shiftstartdatetime=lte.2019-06-22T12:00:00")
    ensures !IsSelect("shiftstartdatetime=lte.2019-06-22T12:00:00")
    ensures InlineCondition("shiftstartdatetime=lte.2019-06-22T12:00:00") == Some("shiftstartdatetime <= '2019-06-22T12:00:00'")
  {
    DatesText();
    TextClause("shiftstartdatetime", "lte", Lte, "2019-06-22T12:00:00");
    UpToSegmentText();
    UpToConditionText();
  }

  /** A column list before three conditions, in the order written. */
  lemma JuliusInRange()
    ensures SelectQuery("getoarrecords",
                        Some("select=" + "firstname" + "&" + ("firstname=eq.Julius," + "&" + "shiftstartdatetime=gt.2019-06-20T12:00:00,"
                             + "&" + "shiftstartdatetime=lte.2019-06-22T12:00:00")), None)
         == Ok("SELECT " + "firstname" + " FROM " + "getoarrecords" + " WHERE "
               + ("firstname = 'Julius'" + " AND " + "shiftstartdatetime > '2019-06-20T12:00:00'" + " AND " + "shiftstartdatetime <= '2019-06-22T12:00:00'") + ";")
  {
    Julius();
    After();
    UpTo();
    Firstname();
    ColumnsThreeFilters("getoarrecords", ["firstname"], "firstname", "firstname", "firstname=eq.Julius,", "firstname=eq.Julius", "firstname = 'Julius'",
                        "shiftstartdatetime=gt.2019-06-20T12:00:00,", "shiftstartdatetime=gt.2019-06-20T12:00:00",
                        "shiftstartdatetime > '2019-06-20T12:00:00'",
                        "shiftstartdatetime=lte.2019-06-22T12:00:00", "shiftstartdatetime=lte.2019-06-22T12:00:00",
                        "shiftstartdatetime <= '2019-06-22T12:00:00'");
  }

  // ---------------------------------------------------------------- function views

  lemma DaisyText()
    ensures "argstaffemail" + "=>" + ("'" + "daisy@mail.com" + "'") == "argstaffemail=>'daisy@mail.com'"
  {
  }

  lemma CallWithOneArgument()
    ensures SelectQuery("staffdetails", None, Some([Field("argstaffemail", JStr("daisy@mail.com"))]))
         == Ok("SELECT * FROM " + ("staffdetails" + "(" + "argstaffemail=>'daisy@mail.com'" + ")") + ";")
  {
    TextArgument("argstaffemail", "daisy@mail.com");
    DaisyText();
    OneArgument(Field("argstaffemail", JStr("daisy@mail.com")));
    CallAll("staffdetails", [Field("argstaffemail", JStr("daisy@mail.com"))], "argstaffemail=>'daisy@mail.com'");
  }

  const StaffId := "af4601db-1640-4ff2-a4cc-da44bce99226"

  lemma StaffIdText()
    ensures "argstaffid" + "=>" + ("'" + StaffId + "'") == "argstaffid=>'" + StaffId + "'"
  {
  }

  lemma AndyText()
    ensures "argfirstname" + "=>" + ("'" + "Andy" + "'") == "argfirstname=>'Andy'"
  {
  }

  /** Several arguments, in the body's key order, separated by `,` alone. */
  lemma CallWithTwoArguments()
    ensures SelectQuery("staffdetails", None,
                        Some([Field("argfirstname", JStr("Andy")), Field("argstaffid", JStr(StaffId))]))
         == Ok("SELECT * FROM " + ("staffdetails" + "("
               + ("argfirstname=>'Andy'" + "," + ("argstaffid=>'" + StaffId + "'")) + ")") + ";")
  {
    var body := [Field("argfirstname", JStr("Andy")), Field("argstaffid", JStr(StaffId))];
    TextArgument("argfirstname", "Andy");
    TextArgument("argstaffid", StaffId);
    StaffIdText();
    AndyText();
    TwoArguments(body[0], body[1]);
    CallAll("staffdetails", body, "argfirstname=>'Andy'" + "," + ("argstaffid=>'" + StaffId + "'"));
  }

  lemma LaurenText()
    ensures "argfirstname" + "=>" + ("'" + "Lauren" + "'") == "argfirstname=>'Lauren'"
  {
  }

  /** The column list goes before FROM, the call after it. */
  lemma CallWithColumns()
    ensures SelectQuery("staffdetails", Some("select=" + "email"),
                        Some([Field("argfirstname", JStr("Lauren")), Field("argstaffid", JStr(StaffId))]))
         == Ok("SELECT " + "email" + " FROM " + ("staffdetails" + "("
               + ("argfirstname=>'Lauren'" + "," + ("argstaffid=>'" + StaffId + "'")) + ")") + ";")
  {
    var body := [Field("argfirstname", JStr("Lauren")), Field("argstaffid", JStr(StaffId))];
    TextArgument("argfirstname", "Lauren");
    TextArgument("argstaffid", StaffId);
    StaffIdText();
    LaurenText();
    TwoArguments(body[0], body[1]);
    Email();
    CallColumns("staffdetails", body, ["email"], "email", "email", "argfirstname=>'Lauren'" + "," + ("argstaffid=>'" + StaffId + "'"));
  }

  lemma SmithText()
    ensures "lastname" + "=" + "eq" + "." + "Smith" == "lastname=eq.Smith"
    ensures "lastname" + " " + "=" + " '" + "Smith" + "'" == "lastname = 'Smith'"
    ensures '%' !in "Smith" && !IsDigits("Smith") && "Smith" != "null"
  {
    assert !IsDigit("Smith"[0]);
  }

  lemma Smith()
    ensures PlainSegment("lastname=eq.Smith") && !IsSelect("lastname=eq.Smith")
    ensures InlineCondition("lastname=eq.Smith") == Some("lastname = 'Smith'")
  {
    SmithText();
    ClauseSegment("lastname", "eq", "Smith");
    DecodePlain("Smith");
    TextQuoted("lastname", Eq, "Smith", "Smith");
  }

  lemma JohnText()
    ensures "argfirstname" + "=>" + ("'" + "John" + "'") == "argfirstname=>'John'"
    ensures "arglastname" + "=>" + "NULL" == "arglastname=>NULL"
  {
  }

  /** A null argument is `NULL`; the WHERE follows the closing parenthesis. */
  lemma CallWithColumnsAndFilter()
    ensures SelectQuery("staffdetails", Some("select=" + "email" + "&" + "lastname=eq.Smith"),
                        Some([Field("argfirstname", JStr("John")), Field("arglastname", JNull),
                              Field("argstaffid", JStr(StaffId))]))
         == Ok("SELECT " + "email" + " FROM "
               + ("staffdetails" + "(" + ("argfirstname=>'John'" + "," + "arglastname=>NULL" + ","
                  + ("argstaffid=>'" + StaffId + "'")) + ")")
               + " WHERE " + "lastname = 'Smith'" + ";")
  {
    var body := [Field("argfirstname", JStr("John")), Field("arglastname", JNull), Field("argstaffid", JStr(StaffId))];
    TextArgument("argfirstname", "John");
    NullArgument("arglastname");
    TextArgument("argstaffid", StaffId);
    StaffIdText();
    JohnText();
    ThreeArguments(body[0], body[1], body[2]);
    Smith();
    Email();
    ColumnsOneFilter("staffdetails", ["email"], "email", "email", "lastname=eq.Smith", "lastname = 'Smith'", Some(body));
  }
}
