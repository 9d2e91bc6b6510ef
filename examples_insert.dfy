/**
 * The documented cases of insertQueryBuilder, each derived from the general
 * properties. Expected statements are written in the pieces the builder
 * assembles them from.
 */
module InsertExamples {
  import opened Wrappers
  import opened Text
  import opened Json
  import opened Outcomes
  import opened SqlValues
  import opened Insert
  import opened WriteExamples

  // ---------------------------------------------------------------- helpers

  /** The three-field row `{k1: v[0], k2: v[1], k3: v[2]}`. */
  predicate RowOfThree(row: Row, k1: string, k2: string, k3: string, vs: seq<Json>)
  {
    |vs| == 3 && row == [Field(k1, vs[0]), Field(k2, vs[1]), Field(k3, vs[2])]
  }

  /** The rows carry the keys `k1, k2, k3`, distinct and in that order, with the values `rvs`. */
  lemma ThreeKeys(rows: seq<Row>, k1: string, k2: string, k3: string, rvs: seq<seq<Json>>)
    requires k1 != k2 && k1 != k3 && k2 != k3
    requires |rvs| == |rows| > 0
    requires forall i :: 0 <= i < |rvs| ==> RowOfThree(rows[i], k1, k2, k3, rvs[i])
    ensures |rows[0]| > 0 && Keys(rows[0]) == [k1, k2, k3]
    ensures forall i, j :: 0 <= i < j < |rows[0]| ==> rows[0][i].key != rows[0][j].key
    ensures forall i :: 0 <= i < |rows| ==> Keys(rows[i]) == Keys(rows[0])
    ensures forall i :: 0 <= i < |rvs| ==> |rvs[i]| == |rows[i]|
    ensures forall i, j :: 0 <= i < |rvs| && 0 <= j < |rvs[i]| ==> rvs[i][j] == rows[i][j].value
  {
    forall i | 0 <= i < |rows|
      ensures Keys(rows[i]) == [k1, k2, k3]
    {
      assert RowOfThree(rows[i], k1, k2, k3, rvs[i]);
    }
  }

  /** A batch whose rows all carry the same three distinct keys, in the same order. */
  lemma ThreeColumnRows(name: string, body: Body, k1: string, k2: string, k3: string, rvs: seq<seq<Json>>, prefer: Option<string>)
    requires k1 != k2 && k1 != k3 && k2 != k3
    requires |rvs| == |Rows(body)| > 0
    requires forall i :: 0 <= i < |rvs| ==> RowOfThree(Rows(body)[i], k1, k2, k3, rvs[i])
    ensures InsertQuery(name, body, prefer)
         == Ok(Prepared(InsertStatement(name, [k1, k2, k3], Tuples(rvs), prefer), ParamValues(Flatten(rvs))))
  {
    ThreeKeys(Rows(body), k1, k2, k3, rvs);
    UniformRows(name, body, rvs, prefer);
  }

  lemma CellsOfOne(a: Json, next: nat)
    requires !a.JNull?
    ensures Cells([a], next) == [Param(next)] && NonNullCount([a]) == 1 && ParamValues([a]) == [ParamValue(a)]
  {
    assert [a][..0] == [];
  }

  lemma CellsOfTwo(a: Json, b: Json, next: nat)
    requires !a.JNull? && !b.JNull?
    ensures Cells([a, b], next) == [Param(next), Param(next + 1)] && NonNullCount([a, b]) == 2
    ensures ParamValues([a, b]) == [ParamValue(a), ParamValue(b)]
  {
    CellsOfOne(a, next);
    assert [a, b][..1] == [a];
  }

  /** Three fields of which the first two are not null. */
  lemma CellsOfThree(a: Json, b: Json, c: Json, next: nat)
    requires !a.JNull? && !b.JNull?
    ensures Cells([a, b, c], next) == [Param(next), Param(next + 1), if c.JNull? then NullCell else Param(next + 2)]
    ensures NonNullCount([a, b, c]) == if c.JNull? then 2 else 3
    ensures ParamValues([a, b, c]) == [ParamValue(a), ParamValue(b)] + (if c.JNull? then [] else [ParamValue(c)])
  {
    CellsOfTwo(a, b, next);
    assert [a, b, c][..2] == [a, b];
  }

  lemma CellsOfFour(a: Json, b: Json, c: Json, d: Json)
    requires !a.JNull? && !b.JNull? && !c.JNull? && !d.JNull?
    ensures Cells([a, b, c, d], 1) == [Param(1), Param(2), Param(3), Param(4)]
    ensures ParamValues([a, b, c, d]) == [ParamValue(a), ParamValue(b), ParamValue(c), ParamValue(d)]
  {
    CellsOfThree(a, b, c, 1);
    assert [a, b, c, d][..3] == [a, b, c];
  }

  lemma TuplesOfOne(r: seq<Json>)
    ensures Tuples([r]) == [TupleText(Cells(r, 1))]
    ensures Flatten([r]) == r
  {
    assert [r][..0] == [];
  }

  lemma TuplesOfTwo(r1: seq<Json>, r2: seq<Json>)
    ensures Tuples([r1, r2]) == [TupleText(Cells(r1, 1)), TupleText(Cells(r2, 1 + NonNullCount(r1)))]
    ensures Flatten([r1, r2]) == r1 + r2
  {
    assert Tuples([r1, r2]) == Tuples([r1]) + [TupleText(Cells(r2, 1 + NonNullCount(Flatten([r1]))))]
        && Flatten([r1, r2]) == Flatten([r1]) + r2 by {
      assert [r1, r2] == [r1] + [r2];
      TuplesSnoc([r1], r2);
    }
    TuplesOfOne(r1);
  }

  lemma TuplesOfThree(r1: seq<Json>, r2: seq<Json>, r3: seq<Json>)
    ensures Tuples([r1, r2, r3])
         == [TupleText(Cells(r1, 1)), TupleText(Cells(r2, 1 + NonNullCount(r1))), TupleText(Cells(r3, 1 + NonNullCount(r1) + NonNullCount(r2)))]
    ensures Flatten([r1, r2, r3]) == r1 + r2 + r3
  {
    assert Tuples([r1, r2, r3]) == Tuples([r1, r2]) + [TupleText(Cells(r3, 1 + NonNullCount(Flatten([r1, r2]))))]
        && Flatten([r1, r2, r3]) == Flatten([r1, r2]) + r3 by {
      assert [r1, r2, r3] == [r1, r2] + [r3];
      TuplesSnoc([r1, r2], r3);
    }
    TuplesOfTwo(r1, r2);
    ParamValuesAppend(r1, r2);
  }

  lemma ValuesOfThree(r1: seq<Json>, r2: seq<Json>, r3: seq<Json>)
    ensures ParamValues(Flatten([r1, r2, r3])) == ParamValues(r1) + ParamValues(r2) + ParamValues(r3)
  {
    TuplesOfThree(r1, r2, r3);
    ParamValuesAppend(r1, r2);
    ParamValuesAppend(r1 + r2, r3);
  }

  lemma TupleOfThree(x: Cell, y: Cell, z: Cell)
    ensures TupleText([x, y, z]) == "(" + (CellText(x) + ", " + CellText(y) + ", " + CellText(z)) + ")"
  {
    assert CellTexts([x, y, z]) == [CellText(x), CellText(y), CellText(z)];
    JoinThree(CellText(x), CellText(y), CellText(z), ", ");
  }

  lemma JoinFour(a: string, b: string, c: string, d: string, sep: string)
    ensures Join([a, b, c, d], sep) == a + sep + (b + sep + c + sep + d)
  {
    assert [a, b, c, d][1..] == [b, c, d];
    JoinThree(b, c, d, sep);
  }

  lemma TupleOfFour(x: Cell, y: Cell, z: Cell, w: Cell)
    ensures TupleText([x, y, z, w]) == "(" + (CellText(x) + ", " + (CellText(y) + ", " + CellText(z) + ", " + CellText(w))) + ")"
  {
    assert CellTexts([x, y, z, w]) == [CellText(x), CellText(y), CellText(z), CellText(w)];
    JoinFour(CellText(x), CellText(y), CellText(z), CellText(w), ", ");
  }

  // ---------------------------------------------------------------- shapes of the documented bodies

  /** One object with three non-null fields. */
  lemma OneRowShape(name: string, k1: string, k2: string, k3: string, a: Json, b: Json, c: Json, prefer: Option<string>,
                    columns: string, tuple: string)
    requires k1 != k2 && k1 != k3 && k2 != k3
    requires !a.JNull? && !b.JNull? && !c.JNull?
    requires Join([k1, k2, k3], ", ") == columns
    requires TupleText([Param(1), Param(2), Param(3)]) == tuple
    ensures InsertQuery(name, Single([Field(k1, a), Field(k2, b), Field(k3, c)]), prefer)
         == Ok(Prepared("INSERT INTO " + name + " (" + columns + ") VALUES " + tuple + Returning(prefer),
                        [ParamValue(a), ParamValue(b), ParamValue(c)]))
  {
    var x := [a, b, c];
    var body := Single([Field(k1, a), Field(k2, b), Field(k3, c)]);
    assert RowOfThree(Rows(body)[0], k1, k2, k3, x);
    ThreeColumnRows(name, body, k1, k2, k3, [x], prefer);
    assert Tuples([x]) == [tuple] by {
      TuplesOfOne(x);
      CellsOfThree(a, b, c, 1);
    }
    assert ParamValues(Flatten([x])) == [ParamValue(a), ParamValue(b), ParamValue(c)] by {
      TuplesOfOne(x);
      CellsOfThree(a, b, c, 1);
    }
    JoinOne(tuple, ",");
  }

  /** One object with four non-null fields, given as a one-element array. */
  lemma FourColumnShape(name: string, k1: string, k2: string, k3: string, k4: string, a: Json, b: Json, c: Json, d: Json,
                        prefer: Option<string>, columns: string, tuple: string)
    requires k1 != k2 && k1 != k3 && k1 != k4 && k2 != k3 && k2 != k4 && k3 != k4
    requires !a.JNull? && !b.JNull? && !c.JNull? && !d.JNull?
    requires Join([k1, k2, k3, k4], ", ") == columns
    requires TupleText([Param(1), Param(2), Param(3), Param(4)]) == tuple
    ensures InsertQuery(name, Batch([[Field(k1, a), Field(k2, b), Field(k3, c), Field(k4, d)]]), prefer)
         == Ok(Prepared("INSERT INTO " + name + " (" + columns + ") VALUES " + tuple + Returning(prefer),
                        [ParamValue(a), ParamValue(b), ParamValue(c), ParamValue(d)]))
  {
    var row := [Field(k1, a), Field(k2, b), Field(k3, c), Field(k4, d)];
    var x := [a, b, c, d];
    assert Keys(row) == [k1, k2, k3, k4];
    UniformRows(name, Batch([row]), [x], prefer);
    TuplesOfOne(x);
    CellsOfFour(a, b, c, d);
    JoinOne(tuple, ",");
  }

  /** The tuples of two full three-field rows: `$1..$3`, then `$4..$6`. */
  lemma TwoRowsTuples(a1: Json, b1: Json, c1: Json, a2: Json, b2: Json, c2: Json)
    requires !a1.JNull? && !b1.JNull? && !c1.JNull? && !a2.JNull? && !b2.JNull? && !c2.JNull?
    ensures Tuples([[a1, b1, c1], [a2, b2, c2]]) == [TupleText([Param(1), Param(2), Param(3)]), TupleText([Param(4), Param(5), Param(6)])]
  {
    CellsOfThree(a1, b1, c1, 1);
    CellsOfThree(a2, b2, c2, 4);
    TuplesOfTwo([a1, b1, c1], [a2, b2, c2]);
  }

  lemma TwoRowsValues(a1: Json, b1: Json, c1: Json, a2: Json, b2: Json, c2: Json)
    requires !a1.JNull? && !b1.JNull? && !c1.JNull? && !a2.JNull? && !b2.JNull? && !c2.JNull?
    ensures ParamValues(Flatten([[a1, b1, c1], [a2, b2, c2]]))
         == [ParamValue(a1), ParamValue(b1), ParamValue(c1), ParamValue(a2), ParamValue(b2), ParamValue(c2)]
  {
    CellsOfThree(a1, b1, c1, 1);
    CellsOfThree(a2, b2, c2, 4);
    TuplesOfTwo([a1, b1, c1], [a2, b2, c2]);
    ParamValuesAppend([a1, b1, c1], [a2, b2, c2]);
  }

  /** The tuples of two full rows and a third whose last field is null: `$7, $8, NULL`. */
  lemma ThreeRowsTuples(a1: Json, b1: Json, c1: Json, a2: Json, b2: Json, c2: Json, a3: Json, b3: Json)
    requires !a1.JNull? && !b1.JNull? && !c1.JNull? && !a2.JNull? && !b2.JNull? && !c2.JNull? && !a3.JNull? && !b3.JNull?
    ensures Tuples([[a1, b1, c1], [a2, b2, c2], [a3, b3, JNull]])
         == [TupleText([Param(1), Param(2), Param(3)]), TupleText([Param(4), Param(5), Param(6)]), TupleText([Param(7), Param(8), NullCell])]
  {
    CellsOfThree(a1, b1, c1, 1);
    CellsOfThree(a2, b2, c2, 4);
    CellsOfThree(a3, b3, JNull, 7);
    TuplesOfThree([a1, b1, c1], [a2, b2, c2], [a3, b3, JNull]);
  }

  lemma RowValues(a: Json, b: Json, c: Json)
    requires !a.JNull? && !b.JNull?
    ensures ParamValues([a, b, c]) == [ParamValue(a), ParamValue(b)] + (if c.JNull? then [] else [ParamValue(c)])
  {
    CellsOfThree(a, b, c, 1);
  }

  lemma EightValues(v1: seq<Json>, v2: seq<Json>, v3: seq<Json>)
    requires |v1| == 3 && |v2| == 3 && |v3| == 2
    ensures v1 + v2 + v3 == [v1[0], v1[1], v1[2], v2[0], v2[1], v2[2], v3[0], v3[1]]
  {
  }

  /** The null field of the third row contributes no value. */
  lemma ThreeRowsValues(a1: Json, b1: Json, c1: Json, a2: Json, b2: Json, c2: Json, a3: Json, b3: Json)
    requires !a1.JNull? && !b1.JNull? && !c1.JNull? && !a2.JNull? && !b2.JNull? && !c2.JNull? && !a3.JNull? && !b3.JNull?
    ensures ParamValues(Flatten([[a1, b1, c1], [a2, b2, c2], [a3, b3, JNull]]))
         == [ParamValue(a1), ParamValue(b1), ParamValue(c1), ParamValue(a2), ParamValue(b2), ParamValue(c2), ParamValue(a3), ParamValue(b3)]
  {
    RowValues(a1, b1, c1);
    RowValues(a2, b2, c2);
    RowValues(a3, b3, JNull);
    ValuesOfThree([a1, b1, c1], [a2, b2, c2], [a3, b3, JNull]);
    EightValues(ParamValues([a1, b1, c1]), ParamValues([a2, b2, c2]), ParamValues([a3, b3, JNull]));
  }

  lemma TwoRowsOfThree(r1: Row, r2: Row, k1: string, k2: string, k3: string, x: seq<Json>, y: seq<Json>)
    requires RowOfThree(r1, k1, k2, k3, x) && RowOfThree(r2, k1, k2, k3, y)
    ensures forall i :: 0 <= i < 2 ==> RowOfThree([r1, r2][i], k1, k2, k3, [x, y][i])
  {
    forall i | 0 <= i < 2
      ensures RowOfThree([r1, r2][i], k1, k2, k3, [x, y][i])
    {
      if i == 0 { assert [r1, r2][i] == r1 && [x, y][i] == x; } else { assert [r1, r2][i] == r2 && [x, y][i] == y; }
    }
  }

  lemma ThreeRowsOfThree(r1: Row, r2: Row, r3: Row, k1: string, k2: string, k3: string, x: seq<Json>, y: seq<Json>, z: seq<Json>)
    requires RowOfThree(r1, k1, k2, k3, x) && RowOfThree(r2, k1, k2, k3, y) && RowOfThree(r3, k1, k2, k3, z)
    ensures forall i :: 0 <= i < 3 ==> RowOfThree([r1, r2, r3][i], k1, k2, k3, [x, y, z][i])
  {
    forall i | 0 <= i < 3
      ensures RowOfThree([r1, r2, r3][i], k1, k2, k3, [x, y, z][i])
    {
      if i == 0 { assert [r1, r2, r3][i] == r1 && [x, y, z][i] == x; }
      else if i == 1 { assert [r1, r2, r3][i] == r2 && [x, y, z][i] == y; }
      else { assert [r1, r2, r3][i] == r3 && [x, y, z][i] == z; }
    }
  }

  /** Two objects with three non-null fields each. */
  lemma TwoRowShape(name: string, k1: string, k2: string, k3: string, a1: Json, b1: Json, c1: Json, a2: Json, b2: Json, c2: Json,
                    prefer: Option<string>, columns: string, t1: string, t2: string, tuples: string)
    requires k1 != k2 && k1 != k3 && k2 != k3
    requires !a1.JNull? && !b1.JNull? && !c1.JNull? && !a2.JNull? && !b2.JNull? && !c2.JNull?
    requires Join([k1, k2, k3], ", ") == columns
    requires TupleText([Param(1), Param(2), Param(3)]) == t1 && TupleText([Param(4), Param(5), Param(6)]) == t2
    requires Join([t1, t2], ",") == tuples
    ensures InsertQuery(name, Batch([[Field(k1, a1), Field(k2, b1), Field(k3, c1)], [Field(k1, a2), Field(k2, b2), Field(k3, c2)]]), prefer)
         == Ok(Prepared("INSERT INTO " + name + " (" + columns + ") VALUES " + tuples + Returning(prefer),
                        [ParamValue(a1), ParamValue(b1), ParamValue(c1), ParamValue(a2), ParamValue(b2), ParamValue(c2)]))
  {
    var r1, r2 := [Field(k1, a1), Field(k2, b1), Field(k3, c1)], [Field(k1, a2), Field(k2, b2), Field(k3, c2)];
    TwoRowsOfThree(r1, r2, k1, k2, k3, [a1, b1, c1], [a2, b2, c2]);
    ThreeColumnRows(name, Batch([r1, r2]), k1, k2, k3, [[a1, b1, c1], [a2, b2, c2]], prefer);
    TwoRowsTuples(a1, b1, c1, a2, b2, c2);
    TwoRowsValues(a1, b1, c1, a2, b2, c2);
  }

  /** Three objects with three fields each, the last field of the last object null. */
  lemma ThreeRowShape(name: string, k1: string, k2: string, k3: string, a1: Json, b1: Json, c1: Json, a2: Json, b2: Json, c2: Json,
                      a3: Json, b3: Json, prefer: Option<string>, columns: string, t1: string, t2: string, t3: string, tuples: string)
    requires k1 != k2 && k1 != k3 && k2 != k3
    requires !a1.JNull? && !b1.JNull? && !c1.JNull? && !a2.JNull? && !b2.JNull? && !c2.JNull? && !a3.JNull? && !b3.JNull?
    requires Join([k1, k2, k3], ", ") == columns
    requires TupleText([Param(1), Param(2), Param(3)]) == t1 && TupleText([Param(4), Param(5), Param(6)]) == t2
    requires TupleText([Param(7), Param(8), NullCell]) == t3
    requires Join([t1, t2, t3], ",") == tuples
    ensures InsertQuery(name, Batch([[Field(k1, a1), Field(k2, b1), Field(k3, c1)], [Field(k1, a2), Field(k2, b2), Field(k3, c2)],
                                     [Field(k1, a3), Field(k2, b3), Field(k3, JNull)]]), prefer)
         == Ok(Prepared("INSERT INTO " + name + " (" + columns + ") VALUES " + tuples + Returning(prefer),
                        [ParamValue(a1), ParamValue(b1), ParamValue(c1), ParamValue(a2), ParamValue(b2), ParamValue(c2),
                         ParamValue(a3), ParamValue(b3)]))
  {
    var r1, r2, r3 := [Field(k1, a1), Field(k2, b1), Field(k3, c1)], [Field(k1, a2), Field(k2, b2), Field(k3, c2)],
                      [Field(k1, a3), Field(k2, b3), Field(k3, JNull)];
    ThreeRowsOfThree(r1, r2, r3, k1, k2, k3, [a1, b1, c1], [a2, b2, c2], [a3, b3, JNull]);
    ThreeColumnRows(name, Batch([r1, r2, r3]), k1, k2, k3, [[a1, b1, c1], [a2, b2, c2], [a3, b3, JNull]], prefer);
    ThreeRowsTuples(a1, b1, c1, a2, b2, c2, a3, b3);
    ThreeRowsValues(a1, b1, c1, a2, b2, c2, a3, b3);
  }

  // ---------------------------------------------------------------- literal pieces

  lemma PlaceholderTexts()
    ensures CellText(Param(1)) == "$1" && CellText(Param(2)) == "$2" && CellText(Param(3)) == "$3"
    ensures CellText(Param(4)) == "$4" && CellText(Param(5)) == "$5" && CellText(Param(6)) == "$6"
    ensures CellText(Param(7)) == "$7" && CellText(Param(8)) == "$8"
  {
  }

  lemma FirstTuple()
    ensures TupleText([Param(1), Param(2), Param(3)]) == "($1, $2, $3)"
  {
    TupleOfThree(Param(1), Param(2), Param(3));
    PlaceholderTexts();
  }

  lemma SecondTuple()
    ensures TupleText([Param(4), Param(5), Param(6)]) == "($4, $5, $6)"
  {
    TupleOfThree(Param(4), Param(5), Param(6));
    PlaceholderTexts();
  }

  lemma ThirdTuple()
    ensures TupleText([Param(7), Param(8), NullCell]) == "($7, $8, NULL)"
  {
    TupleOfThree(Param(7), Param(8), NullCell);
    PlaceholderTexts();
  }

  lemma FourTuple()
    ensures TupleText([Param(1), Param(2), Param(3), Param(4)]) == "($1, $2, $3, $4)"
  {
    TupleOfFour(Param(1), Param(2), Param(3), Param(4));
    PlaceholderTexts();
  }

  lemma StaffColumns()
    ensures Join(["name", "age", "email"], ", ") == "name, age, email"
    ensures Join(["name", "age", "email", "roles"], ", ") == "name, age, email, roles"
  {
    JoinThree("name", "age", "email", ", ");
    JoinFour("name", "age", "email", "roles", ", ");
  }

  lemma TupleLists()
    ensures Join(["($1, $2, $3)"], ",") == "($1, $2, $3)"
    ensures Join(["($1, $2, $3)", "($4, $5, $6)"], ",") == "($1, $2, $3),($4, $5, $6)"
    ensures Join(["($1, $2, $3)", "($4, $5, $6)", "($7, $8, NULL)"], ",") == "($1, $2, $3),($4, $5, $6),($7, $8, NULL)"
  {
    JoinTwo("($1, $2, $3)", "($4, $5, $6)", ",");
    JoinThree("($1, $2, $3)", "($4, $5, $6)", "($7, $8, NULL)", ",");
  }

  // ---------------------------------------------------------------- cases

  /** One row with every field, an array stringified into the values. */
  lemma OneRowWithArray()
    ensures InsertQuery("staff", Batch([[Field("name", JStr("John")), Field("age", JInt(34)), Field("email", JStr("john@mail.com")), Field("roles", Roles)]]), None)
         == Ok(Prepared("INSERT INTO " + "staff" + " (" + "name, age, email, roles" + ") VALUES " + "($1, $2, $3, $4)",
                        [JStr("John"), JInt(34), JStr("john@mail.com"), JStr(Stringify(Roles))]))
  {
    StaffColumns();
    FourTuple();
    FourColumnShape("staff", "name", "age", "email", "roles", JStr("John"), JInt(34), JStr("john@mail.com"), Roles, None,
                    "name, age, email, roles", "($1, $2, $3, $4)");
    assert "INSERT INTO " + "staff" + " (" + "name, age, email, roles" + ") VALUES " + "($1, $2, $3, $4)" + ""
        == "INSERT INTO " + "staff" + " (" + "name, age, email, roles" + ") VALUES " + "($1, $2, $3, $4)";
  }

  /** A single object body, with the inserted rows asked back. */
  lemma SingleReturning()
    ensures InsertQuery("staff", Single([Field("name", JStr("John")), Field("age", JInt(34)), Field("email", JStr("john@mail.com"))]), Some(Representation))
         == Ok(Prepared("INSERT INTO " + "staff" + " (" + "name, age, email" + ") VALUES " + "($1, $2, $3)" + " RETURNING *",
                        [JStr("John"), JInt(34), JStr("john@mail.com")]))
  {
    StaffColumns();
    FirstTuple();
    OneRowShape("staff", "name", "age", "email", JStr("John"), JInt(34), JStr("john@mail.com"), Some(Representation),
                "name, age, email", "($1, $2, $3)");
  }

  /** Two rows: the counter runs on from `$3` to `$4`. */
  lemma TwoRows()
    ensures InsertQuery("staff", Batch([[Field("name", JStr("John")), Field("age", JInt(34)), Field("email", JStr("john@mail.com"))],
                                        [Field("name", JStr("Rachel")), Field("age", JInt(32)), Field("email", JStr("rachel@mail.com"))]]), None)
         == Ok(Prepared("INSERT INTO " + "staff" + " (" + "name, age, email" + ") VALUES " + "($1, $2, $3),($4, $5, $6)",
                        [JStr("John"), JInt(34), JStr("john@mail.com"), JStr("Rachel"), JInt(32), JStr("rachel@mail.com")]))
  {
    StaffColumns();
    FirstTuple();
    SecondTuple();
    TupleLists();
    TwoRowShape("staff", "name", "age", "email", JStr("John"), JInt(34), JStr("john@mail.com"), JStr("Rachel"), JInt(32), JStr("rachel@mail.com"),
                None, "name, age, email", "($1, $2, $3)", "($4, $5, $6)", "($1, $2, $3),($4, $5, $6)");
    assert "INSERT INTO " + "staff" + " (" + "name, age, email" + ") VALUES " + "($1, $2, $3),($4, $5, $6)" + ""
        == "INSERT INTO " + "staff" + " (" + "name, age, email" + ") VALUES " + "($1, $2, $3),($4, $5, $6)";
  }

  /** Three rows, the last with a null email: `NULL` takes no number and no value. */
  lemma ThreeRowsWithNull()
    ensures InsertQuery("staff", Batch([[Field("name", JStr("John")), Field("age", JInt(34)), Field("email", JStr("john@mail.com"))],
                                        [Field("name", JStr("Rachel")), Field("age", JInt(32)), Field("email", JStr("rachel@mail.com"))],
                                        [Field("name", JStr("Wendy")), Field("age", JInt(29)), Field("email", JNull)]]), Some(Representation))
         == Ok(Prepared("INSERT INTO " + "staff" + " (" + "name, age, email" + ") VALUES " + "($1, $2, $3),($4, $5, $6),($7, $8, NULL)" + " RETURNING *",
                        [JStr("John"), JInt(34), JStr("john@mail.com"), JStr("Rachel"), JInt(32), JStr("rachel@mail.com"), JStr("Wendy"), JInt(29)]))
  {
    StaffColumns();
    FirstTuple();
    SecondTuple();
    ThirdTuple();
    TupleLists();
    ThreeRowShape("staff", "name", "age", "email", JStr("John"), JInt(34), JStr("john@mail.com"), JStr("Rachel"), JInt(32), JStr("rachel@mail.com"),
                  JStr("Wendy"), JInt(29), Some(Representation), "name, age, email", "($1, $2, $3)", "($4, $5, $6)", "($7, $8, NULL)",
                  "($1, $2, $3),($4, $5, $6),($7, $8, NULL)");
  }
}
