/**
 * insertQueryBuilder: a batched `INSERT` with positional placeholders. The
 * columns are the first row's keys; one counter numbers the placeholders
 * across the whole batch, and a null field is written `NULL` without using
 * a number or a value.
 */
module Insert {
  import opened Wrappers
  import opened Text
  import opened Json
  import opened Outcomes
  import opened SqlValues

  /** The request body: one object, or an array of objects. */
  datatype Body = Single(row: Row) | Batch(rows: seq<Row>)

  function Rows(body: Body): seq<Row>
  {
    match body
    case Single(row) => [row]
    case Batch(rows) => rows
  }

  /** `row[key]`: the value of the first field with that key, null when there is none. */
  function Lookup(row: Row, key: string): Json
  {
    if |row| == 0 then JNull
    else if row[0].key == key then row[0].value
    else Lookup(row[1..], key)
  }

  /** The row has exactly the given columns (in any order). */
  predicate HasColumns(row: Row, columns: seq<string>)
  {
    multiset(Keys(row)) == multiset(columns)
  }

  /** The row's values in column order. */
  function RowValues(row: Row, columns: seq<string>): (vs: seq<Json>)
    ensures |vs| == |columns|
  {
    seq(|columns|, j requires 0 <= j < |columns| => Lookup(row, columns[j]))
  }

  function BatchValues(rows: seq<Row>, columns: seq<string>): (rvs: seq<seq<Json>>)
    ensures |rvs| == |rows|
  {
    seq(|rows|, i requires 0 <= i < |rows| => RowValues(rows[i], columns))
  }

  // ---------------------------------------------------------------- placeholder allocation

  /** A position of a VALUES tuple: `NULL`, or the placeholder `$n`. */
  datatype Cell = NullCell | Param(number: nat)

  function CellText(c: Cell): string
  {
    match c
    case NullCell => "NULL"
    case Param(n) => "$" + NatToString(n)
  }

  function CellTexts(cells: seq<Cell>): (ts: seq<string>)
    ensures |ts| == |cells|
  {
    seq(|cells|, i requires 0 <= i < |cells| => CellText(cells[i]))
  }

  function NonNullCount(vs: seq<Json>): nat
  {
    if |vs| == 0 then 0
    else NonNullCount(vs[..|vs| - 1]) + (if vs[|vs| - 1].JNull? then 0 else 1)
  }

  /** The cells of the fields `vs` when the counter stands at `next` before the first of them. */
  function Cells(vs: seq<Json>, next: nat): (cells: seq<Cell>)
    ensures |cells| == |vs|
  {
    if |vs| == 0 then []
    else
      var prefix := vs[..|vs| - 1];
      Cells(prefix, next) + [if vs[|vs| - 1].JNull? then NullCell else Param(next + NonNullCount(prefix))]
  }

  /** The values the placeholders of `vs` are bound to, in order. */
  function ParamValues(vs: seq<Json>): seq<Json>
  {
    if |vs| == 0 then []
    else ParamValues(vs[..|vs| - 1]) + (if vs[|vs| - 1].JNull? then [] else [ParamValue(vs[|vs| - 1])])
  }

  /** The fields of a batch, row after row. */
  function Flatten(rvs: seq<seq<Json>>): seq<Json>
  {
    if |rvs| == 0 then [] else Flatten(rvs[..|rvs| - 1]) + rvs[|rvs| - 1]
  }

  function Concat(css: seq<seq<Cell>>): seq<Cell>
  {
    if |css| == 0 then [] else Concat(css[..|css| - 1]) + css[|css| - 1]
  }

  /** The cells of each row of a batch; the counter starts at 1 and runs on from row to row. */
  function BatchCells(rvs: seq<seq<Json>>): (css: seq<seq<Cell>>)
    ensures |css| == |rvs|
  {
    if |rvs| == 0 then []
    else
      var prefix := rvs[..|rvs| - 1];
      BatchCells(prefix) + [Cells(rvs[|rvs| - 1], 1 + NonNullCount(Flatten(prefix)))]
  }

  function TupleText(cells: seq<Cell>): string
  {
    "(" + Join(CellTexts(cells), ", ") + ")"
  }

  function TupleTexts(css: seq<seq<Cell>>): (ts: seq<string>)
    ensures |ts| == |css|
  {
    seq(|css|, i requires 0 <= i < |css| => TupleText(css[i]))
  }

  function Tuples(rvs: seq<seq<Json>>): (ts: seq<string>)
    ensures |ts| == |rvs|
  {
    TupleTexts(BatchCells(rvs))
  }

  function InsertStatement(name: string, columns: seq<string>, tuples: seq<string>, prefer: Option<string>): string
  {
    "INSERT INTO " + name + " (" + Join(columns, ", ") + ") VALUES " + Join(tuples, ",") + Returning(prefer)
  }

  /** The route's guard: the body has no entries (`{}` or `[]`). */
  predicate Refused(body: Body)
  {
    match body
    case Single(row) => |row| == 0
    case Batch(rows) => |rows| == 0
  }

  /**
   * The insert for `body` into `name`. A body the route's guard refuses is
   * invalid; so is a batch whose first row has no keys, and a batch with a
   * row whose columns are not exactly the first row's.
   */
  function InsertQuery(name: string, body: Body, prefer: Option<string>): (r: Result<Prepared<Json>>)
    ensures r == Invalid(EmptyBody) <==> Refused(body)
    ensures r == Invalid(NoColumns) <==> !Refused(body) && |Rows(body)[0]| == 0
    ensures r.Ok? ==> |Rows(body)| > 0 && |Rows(body)[0]| > 0
    ensures r.Ok? ==> forall i :: 0 <= i < |Rows(body)| ==> HasColumns(Rows(body)[i], Keys(Rows(body)[0]))
  {
    var rows := Rows(body);
    if Refused(body) then Invalid(EmptyBody)
    else if |rows[0]| == 0 then Invalid(NoColumns)
    else
      var columns := Keys(rows[0]);
      if exists i :: 0 <= i < |rows| && !HasColumns(rows[i], columns) then Invalid(RaggedBatch)
      else
        var rvs := BatchValues(rows, columns);
        Ok(Prepared(InsertStatement(name, columns, Tuples(rvs), prefer), ParamValues(Flatten(rvs))))
  }

  // ---------------------------------------------------------------- the builder

  lemma CellsSnoc(vs: seq<Json>, j: nat, next: nat)
    requires j < |vs|
    ensures Cells(vs[..j + 1], next)
         == Cells(vs[..j], next) + [if vs[j].JNull? then NullCell else Param(next + NonNullCount(vs[..j]))]
    ensures NonNullCount(vs[..j + 1]) == NonNullCount(vs[..j]) + (if vs[j].JNull? then 0 else 1)
    ensures ParamValues(vs[..j + 1]) == ParamValues(vs[..j]) + (if vs[j].JNull? then [] else [ParamValue(vs[j])])
  {
    assert vs[..j + 1][..j] == vs[..j];
  }

  lemma {:induction false} ParamValuesCount(vs: seq<Json>)
    ensures |ParamValues(vs)| == NonNullCount(vs)
  {
    if |vs| > 0 {
      ParamValuesCount(vs[..|vs| - 1]);
    }
  }

  lemma BatchSnoc(rows: seq<Row>, columns: seq<string>, i: nat)
    requires i < |rows|
    ensures BatchValues(rows[..i + 1], columns) == BatchValues(rows[..i], columns) + [RowValues(rows[i], columns)]
  {
  }

  lemma BatchCellsSnoc(rvs: seq<seq<Json>>, rv: seq<Json>)
    ensures BatchCells(rvs + [rv]) == BatchCells(rvs) + [Cells(rv, 1 + NonNullCount(Flatten(rvs)))]
  {
    var all := rvs + [rv];
    assert all[..|all| - 1] == rvs;
    assert all[|all| - 1] == rv;
  }

  lemma FlattenSnoc(rvs: seq<seq<Json>>, rv: seq<Json>)
    ensures Flatten(rvs + [rv]) == Flatten(rvs) + rv
  {
    var all := rvs + [rv];
    assert all[..|all| - 1] == rvs;
  }

  lemma TupleTextsSnoc(css: seq<seq<Cell>>, cs: seq<Cell>)
    ensures TupleTexts(css + [cs]) == TupleTexts(css) + [TupleText(cs)]
  {
  }

  lemma TuplesSnoc(rvs: seq<seq<Json>>, rv: seq<Json>)
    ensures Tuples(rvs + [rv]) == Tuples(rvs) + [TupleText(Cells(rv, 1 + NonNullCount(Flatten(rvs))))]
    ensures Flatten(rvs + [rv]) == Flatten(rvs) + rv
  {
    BatchCellsSnoc(rvs, rv);
    FlattenSnoc(rvs, rv);
    TupleTextsSnoc(BatchCells(rvs), Cells(rv, 1 + NonNullCount(Flatten(rvs))));
  }

  lemma {:induction false} ParamValuesAppend(a: seq<Json>, b: seq<Json>)
    ensures ParamValues(a + b) == ParamValues(a) + ParamValues(b)
    ensures NonNullCount(a + b) == NonNullCount(a) + NonNullCount(b)
    decreases |b|
  {
    if |b| == 0 {
      assert a + b == a;
    } else {
      var b' := b[..|b| - 1];
      assert (a + b)[..|a + b| - 1] == a + b';
      ParamValuesAppend(a, b');
    }
  }

  /**
   * One tuple of the builder: for each column, a null field emits `NULL`,
   * any other field emits `$next`, appends its value and advances the counter.
   */
  method BuildTuple(row: Row, columns: seq<string>, start: nat) returns (tuple: string, values: seq<Json>, next: nat)
    ensures tuple == TupleText(Cells(RowValues(row, columns), start))
    ensures values == ParamValues(RowValues(row, columns))
    ensures next == start + NonNullCount(RowValues(row, columns))
  {
    ghost var rv := RowValues(row, columns);
    var cells: seq<string> := [];
    values := [];
    next := start;
    var j := 0;
    while j < |columns|
      invariant 0 <= j <= |columns|
      invariant cells == CellTexts(Cells(rv[..j], start))
      invariant next == start + NonNullCount(rv[..j])
      invariant values == ParamValues(rv[..j])
    {
      var v := Lookup(row, columns[j]);
      CellsSnoc(rv, j, start);
      if v.JNull? {
        cells := cells + ["NULL"];
      } else {
        cells := cells + ["$" + NatToString(next)];
        values := values + [ParamValue(v)];
        next := next + 1;
      }
      j := j + 1;
    }
    assert rv[..j] == rv;
    tuple := "(" + Join(cells, ", ") + ")";
  }

  /** What one more row adds to the tuples, the values and the counter. */
  lemma BatchStep(rows: seq<Row>, columns: seq<string>, i: nat)
    requires i < |rows|
    ensures var done := Flatten(BatchValues(rows[..i], columns));
            var rv := RowValues(rows[i], columns);
            var all := Flatten(BatchValues(rows[..i + 1], columns));
            && Tuples(BatchValues(rows[..i + 1], columns))
               == Tuples(BatchValues(rows[..i], columns)) + [TupleText(Cells(rv, 1 + NonNullCount(done)))]
            && ParamValues(all) == ParamValues(done) + ParamValues(rv)
            && NonNullCount(all) == NonNullCount(done) + NonNullCount(rv)
  {
    var done := BatchValues(rows[..i], columns);
    var rv := RowValues(rows[i], columns);
    BatchSnoc(rows, columns, i);
    TuplesSnoc(done, rv);
    ParamValuesAppend(Flatten(done), rv);
  }

  /** Whether every row has exactly the given columns. */
  method CheckColumns(rows: seq<Row>, columns: seq<string>) returns (ok: bool)
    ensures ok <==> forall i :: 0 <= i < |rows| ==> HasColumns(rows[i], columns)
  {
    var k := 0;
    while k < |rows|
      invariant 0 <= k <= |rows|
      invariant forall i :: 0 <= i < k ==> HasColumns(rows[i], columns)
    {
      if !HasColumns(rows[k], columns) {
        return false;
      }
      k := k + 1;
    }
    return true;
  }

  /** The VALUES tuples of the batch and their bound values, with one counter starting at 1. */
  method BuildTuples(rows: seq<Row>, columns: seq<string>) returns (tuples: seq<string>, values: seq<Json>)
    ensures tuples == Tuples(BatchValues(rows, columns))
    ensures values == ParamValues(Flatten(BatchValues(rows, columns)))
  {
    tuples := [];
    values := [];
    var next: nat := 1;
    var i := 0;
    while i < |rows|
      invariant 0 <= i <= |rows|
      invariant tuples == Tuples(BatchValues(rows[..i], columns))
      invariant values == ParamValues(Flatten(BatchValues(rows[..i], columns)))
      invariant next == 1 + NonNullCount(Flatten(BatchValues(rows[..i], columns)))
    {
      BatchStep(rows, columns, i);
      var tuple, vals;
      tuple, vals, next := BuildTuple(rows[i], columns, next);
      tuples := tuples + [tuple];
      values := values + vals;
      i := i + 1;
    }
    assert rows[..i] == rows;
  }

  /**
   * The builder as the source runs it: the columns come from the first row,
   * then one tuple per row with the placeholder counter shared by the batch.
   */
  method BuildInsert(name: string, body: Body, prefer: Option<string>) returns (r: Result<Prepared<Json>>)
    ensures r == InsertQuery(name, body, prefer)
  {
    var rows := Rows(body);
    if Refused(body) {
      return Invalid(EmptyBody);
    }
    if |rows[0]| == 0 {
      return Invalid(NoColumns);
    }
    var columns := Keys(rows[0]);
    var ok := CheckColumns(rows, columns);
    if !ok {
      return Invalid(RaggedBatch);
    }
    var tuples, values := BuildTuples(rows, columns);
    r := Ok(Prepared(InsertStatement(name, columns, tuples, prefer), values));
  }

  // ---------------------------------------------------------------- properties

  /** The placeholder numbers of a run of cells, in order. */
  function Numbers(cells: seq<Cell>): seq<nat>
  {
    if |cells| == 0 then []
    else Numbers(cells[..|cells| - 1]) + (if cells[|cells| - 1].Param? then [cells[|cells| - 1].number] else [])
  }

  /** `n, n + 1, …, n + count - 1`. */
  function Range(n: nat, count: nat): (ns: seq<nat>)
    ensures |ns| == count
  {
    seq(count, i requires 0 <= i < count => n + i)
  }

  /** Field `j` gets `NULL` exactly when it is null, and otherwise the counter value after the non-null fields before it. */
  lemma {:induction false} CellsAt(vs: seq<Json>, next: nat, j: nat)
    requires j < |vs|
    ensures Cells(vs, next)[j] == if vs[j].JNull? then NullCell else Param(next + NonNullCount(vs[..j]))
  {
    var prefix := vs[..|vs| - 1];
    if j < |vs| - 1 {
      CellsAt(prefix, next, j);
      assert prefix[..j] == vs[..j];
    } else {
      assert prefix == vs[..j];
    }
  }

  /** A non-null field's value sits in the value list at the count of non-null fields before it. */
  lemma {:induction false} ParamValuesAt(vs: seq<Json>, j: nat)
    requires j < |vs| && !vs[j].JNull?
    ensures NonNullCount(vs[..j]) < |ParamValues(vs)|
    ensures ParamValues(vs)[NonNullCount(vs[..j])] == ParamValue(vs[j])
  {
    var prefix := vs[..|vs| - 1];
    ParamValuesCount(prefix);
    if j < |vs| - 1 {
      ParamValuesAt(prefix, j);
      assert prefix[..j] == vs[..j];
    } else {
      assert prefix == vs[..j];
    }
  }

  /** Numbering is contiguous: the placeholders are `next`, `next + 1`, … with no gap or repeat. */
  lemma {:induction false} NumbersOfCells(vs: seq<Json>, next: nat)
    ensures Numbers(Cells(vs, next)) == Range(next, NonNullCount(vs))
  {
    if |vs| > 0 {
      var prefix := vs[..|vs| - 1];
      var cells := Cells(vs, next);
      NumbersOfCells(prefix, next);
      assert cells[..|cells| - 1] == Cells(prefix, next);
    }
  }

  lemma {:induction false} CellsAppend(a: seq<Json>, b: seq<Json>, next: nat)
    ensures Cells(a + b, next) == Cells(a, next) + Cells(b, next + NonNullCount(a))
    decreases |b|
  {
    if |b| == 0 {
      assert a + b == a;
    } else {
      var b' := b[..|b| - 1];
      assert (a + b)[..|a + b| - 1] == a + b';
      CellsAppend(a, b', next);
      ParamValuesAppend(a, b');
    }
  }

  /** Numbering the rows one after another is numbering the flattened batch from 1. */
  lemma {:induction false} BatchCellsFlatten(rvs: seq<seq<Json>>)
    ensures Concat(BatchCells(rvs)) == Cells(Flatten(rvs), 1)
  {
    if |rvs| > 0 {
      var prefix := rvs[..|rvs| - 1];
      var css := BatchCells(rvs);
      BatchCellsFlatten(prefix);
      assert css[..|css| - 1] == BatchCells(prefix);
      CellsAppend(Flatten(prefix), rvs[|rvs| - 1], 1);
    }
  }

  /**
   * The cells numbered from 1 match the fields and their values: `$1 … $m`
   * with no gap, `NULL` exactly for a null field, and `$k` bound to the
   * `k`-th value, the value of the field it stands for.
   */
  predicate Aligned(cells: seq<Cell>, fields: seq<Json>, values: seq<Json>)
  {
    && |cells| == |fields|
    && Numbers(cells) == Range(1, |values|)
    && (forall p :: 0 <= p < |cells| ==> (cells[p].NullCell? <==> fields[p].JNull?))
    && (forall p :: 0 <= p < |cells| && cells[p].Param? ==>
          1 <= cells[p].number <= |values| && values[cells[p].number - 1] == ParamValue(fields[p]))
  }

  lemma CellsAligned(fields: seq<Json>)
    ensures Aligned(Cells(fields, 1), fields, ParamValues(fields))
  {
    var cells := Cells(fields, 1);
    NumbersOfCells(fields, 1);
    ParamValuesCount(fields);
    forall p | 0 <= p < |cells|
      ensures cells[p].NullCell? <==> fields[p].JNull?
      ensures cells[p].Param? ==>
                1 <= cells[p].number <= |ParamValues(fields)| && ParamValues(fields)[cells[p].number - 1] == ParamValue(fields[p])
    {
      CellsAt(fields, 1, p);
      if !fields[p].JNull? {
        ParamValuesAt(fields, p);
      }
    }
  }

  /** The fields of a non-empty body in row-major order, the columns being the first row's keys. */
  function BodyFields(body: Body): seq<Json>
    requires |Rows(body)| > 0
  {
    Flatten(BatchValues(Rows(body), Keys(Rows(body)[0])))
  }

  /** The cells of all the VALUES tuples, tuple after tuple. */
  function BodyCells(body: Body): seq<Cell>
    requires |Rows(body)| > 0
  {
    Concat(BatchCells(BatchValues(Rows(body), Keys(Rows(body)[0]))))
  }

  /**
   * An accepted insert numbers its placeholders `$1 … $m` over the whole
   * batch, writes `NULL` for a null field, and binds `$k` to the value of
   * the field it stands for.
   */
  lemma InsertPlaceholders(name: string, body: Body, prefer: Option<string>)
    requires InsertQuery(name, body, prefer).Ok?
    ensures Aligned(BodyCells(body), BodyFields(body), InsertQuery(name, body, prefer).value.values)
  {
    BatchCellsFlatten(BatchValues(Rows(body), Keys(Rows(body)[0])));
    CellsAligned(BodyFields(body));
  }

  /** A one-object body with at least one field is always accepted. */
  lemma SingleAccepted(name: string, row: Row, prefer: Option<string>)
    requires |row| > 0
    ensures InsertQuery(name, Single(row), prefer).Ok?
  {
    assert HasColumns(Rows(Single(row))[0], Keys(row));
  }

  /** With distinct keys, the row's values in its own column order are its fields' values. */
  lemma {:induction false} OwnColumns(row: Row)
    requires forall i, j :: 0 <= i < j < |row| ==> row[i].key != row[j].key
    ensures forall j :: 0 <= j < |row| ==> RowValues(row, Keys(row))[j] == row[j].value
  {
    forall j | 0 <= j < |row|
      ensures Lookup(row, row[j].key) == row[j].value
    {
      LookupAt(row, j);
    }
  }

  lemma {:induction false} LookupAt(row: Row, j: nat)
    requires j < |row|
    requires forall i :: 0 <= i < j ==> row[i].key != row[j].key
    ensures Lookup(row, row[j].key) == row[j].value
  {
    if j > 0 {
      LookupAt(row[1..], j - 1);
    }
  }

  /**
   * When every row lists the first row's (distinct) keys in the same order,
   * the tuples and values are those of the rows' own field values, row by
   * row and field by field.
   */
  lemma UniformRows(name: string, body: Body, rvs: seq<seq<Json>>, prefer: Option<string>)
    requires |Rows(body)| > 0 && |Rows(body)[0]| > 0
    requires forall i, j :: 0 <= i < j < |Rows(body)[0]| ==> Rows(body)[0][i].key != Rows(body)[0][j].key
    requires forall i :: 0 <= i < |Rows(body)| ==> Keys(Rows(body)[i]) == Keys(Rows(body)[0])
    requires |rvs| == |Rows(body)|
    requires forall i :: 0 <= i < |rvs| ==> |rvs[i]| == |Rows(body)[i]|
    requires forall i, j :: 0 <= i < |rvs| && 0 <= j < |rvs[i]| ==> rvs[i][j] == Rows(body)[i][j].value
    ensures InsertQuery(name, body, prefer)
         == Ok(Prepared(InsertStatement(name, Keys(Rows(body)[0]), Tuples(rvs), prefer), ParamValues(Flatten(rvs))))
  {
    var rows := Rows(body);
    var columns := Keys(rows[0]);
    forall i | 0 <= i < |rows|
      ensures HasColumns(rows[i], columns) && RowValues(rows[i], columns) == rvs[i]
    {
      var row := rows[i];
      assert Keys(row) == columns;
      forall a, b | 0 <= a < b < |row|
        ensures row[a].key != row[b].key
      {
        assert row[a].key == columns[a] && row[b].key == columns[b];
      }
      OwnColumns(row);
    }
    assert BatchValues(rows, columns) == rvs;
  }

  /** "return=representation" appends ` RETURNING *` and changes nothing else. */
  lemma ReturningSuffix(name: string, body: Body, prefer: Option<string>)
    requires prefer != Some(Representation)
    ensures var plain := InsertQuery(name, body, prefer);
            var returning := InsertQuery(name, body, Some(Representation));
            && plain.Ok? == returning.Ok?
            && (plain.Invalid? ==> returning == plain)
            && (plain.Ok? ==> returning.value == Prepared(plain.value.queryString + " RETURNING *", plain.value.values))
  {
  }
}
