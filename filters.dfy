/**
 * The filter grammar shared by every builder: a clause `col=op.value`, its
 * parse into a structured clause, and its inline rendering as a SQL
 * condition (LiteralRenderer).
 */
module Filters {
  import opened Wrappers
  import opened Text

  datatype Operator = Eq | Gt | Gte | Lt | Lte | In

  /** A parsed filter value: `null` (with `eq`), a digit string, other text, or an `in` list. */
  datatype Value = Null | Number(digits: string) | Str(text: string) | List(items: seq<string>)

  datatype Clause = Clause(column: string, op: Operator, value: Value)

  function OperatorName(op: Operator): string
  {
    match op
    case Eq => "eq"
    case Gt => "gt"
    case Gte => "gte"
    case Lt => "lt"
    case Lte => "lte"
    case In => "in"
  }

  /** The SQL comparison an operator renders as. */
  function Symbol(op: Operator): string
  {
    match op
    case Eq => "="
    case Gt => ">"
    case Gte => ">="
    case Lt => "<"
    case Lte => "<="
    case In => "IN"
  }

  /** Recognises exactly the six operator names; anything else is an unknown operator. */
  function ParseOperator(s: string): (r: Option<Operator>)
    ensures r.Some? ==> OperatorName(r.value) == s
  {
    if s == "eq" then Some(Eq)
    else if s == "gt" then Some(Gt)
    else if s == "gte" then Some(Gte)
    else if s == "lt" then Some(Lt)
    else if s == "lte" then Some(Lte)
    else if s == "in" then Some(In)
    else None
  }

  /** Every operator name is recognised, as that operator. */
  lemma ParseOperatorName(op: Operator)
    ensures ParseOperator(OperatorName(op)) == Some(op)
  {
    match op
    case Eq =>
    case Gt =>
    case Gte =>
    case Lt =>
    case Lte =>
    case In =>
  }

  /** The clauses the parser can produce: lists exactly with `in`, `null` only with `eq`. */
  predicate WellFormed(c: Clause)
  {
    (c.op == In <==> c.value.List?) && (c.value.Null? ==> c.op == Eq)
    && (c.value.Number? ==> IsDigits(c.value.digits))
    && (c.value.Str? ==> !IsDigits(c.value.text) && (c.op == Eq ==> c.value.text != "null"))
    && (c.value.List? ==> forall i :: 0 <= i < |c.value.items| ==> ',' !in c.value.items[i])
  }

  /** Classifies the (decoded) text after `op.`. */
  function ParseValue(op: Operator, text: string): (r: Option<Value>)
    ensures r.Some? ==> WellFormed(Clause("", op, r.value))
  {
    if op == In then
      if |text| >= 2 && text[0] == '(' && text[|text| - 1] == ')' then Some(List(Split(text[1..|text| - 1], ',')))
      else None
    else if op == Eq && text == "null" then Some(Null)
    else if IsDigits(text) then Some(Number(text))
    else Some(Str(text))
  }

  /** Cuts `col=op.value` at the first `=` and then at the first `.`. */
  function ClauseParts(segment: string): (r: Option<(string, string, string)>)
    ensures r.Some? ==> segment == r.value.0 + "=" + r.value.1 + "." + r.value.2
    ensures r.Some? ==> '=' !in r.value.0 && '.' !in r.value.1
  {
    match SplitFirst(segment, '=')
    case None => None
    case Some((column, rest)) =>
      match SplitFirst(rest, '.')
      case None => None
      case Some((opName, raw)) => Some((column, opName, raw))
  }

  /** The parts are found wherever the column has no `=` and the operator name no `.`. */
  lemma ClausePartsOf(column: string, opName: string, raw: string)
    requires '=' !in column && '.' !in opName
    ensures ClauseParts(column + "=" + opName + "." + raw) == Some((column, opName, raw))
  {
    assert column + "=" + opName + "." + raw == column + ['='] + (opName + "." + raw);
    SplitFirstAt(column, '=', opName + "." + raw);
    assert opName + "." + raw == opName + ['.'] + raw;
    SplitFirstAt(opName, '.', raw);
  }

  /** The clause with the given parts, the value percent-decoded when `decode` is set. */
  function BuildClause(column: string, opName: string, raw: string, decode: bool): (r: Option<Clause>)
    ensures r.Some? ==> WellFormed(r.value) && r.value.column == column
  {
    match ParseOperator(opName)
    case None => None
    case Some(op) =>
      var text := if decode then PercentDecode(raw) else Some(raw);
      match text
      case None => None
      case Some(t) =>
        match ParseValue(op, t)
        case None => None
        case Some(v) => Some(Clause(column, op, v))
  }

  /**
   * Parses one clause: the column is the text before the first `=`, the
   * operator the text up to the next `.`, the value the rest.
   */
  function ParseClause(segment: string, decode: bool): (r: Option<Clause>)
    ensures r.Some? ==> WellFormed(r.value) && '=' !in r.value.column
  {
    match ClauseParts(segment)
    case None => None
    case Some((column, opName, raw)) => BuildClause(column, opName, raw, decode)
  }

  /** A segment with that shape parses as the clause built from its parts. */
  lemma ParseClauseOf(column: string, opName: string, raw: string, decode: bool)
    requires '=' !in column && '.' !in opName
    ensures ParseClause(column + "=" + opName + "." + raw, decode) == BuildClause(column, opName, raw, decode)
  {
    ClausePartsOf(column, opName, raw);
  }

  /** Parses every segment, in order; one segment that does not parse rejects them all. */
  function ParseClauses(segments: seq<string>, decode: bool): (r: Option<seq<Clause>>)
    ensures r.Some? ==> |r.value| == |segments|
    ensures r.Some? ==> forall i :: 0 <= i < |segments| ==> ParseClause(segments[i], decode) == Some(r.value[i])
    ensures r.None? ==> exists i :: 0 <= i < |segments| && ParseClause(segments[i], decode).None?
    decreases |segments|
  {
    if |segments| == 0 then Some([])
    else
      match ParseClause(segments[0], decode)
      case None => None
      case Some(c) =>
        match ParseClauses(segments[1..], decode)
        case None => None
        case Some(cs) => Some([c] + cs)
  }

  // ---------------------------------------------------------------- clause text

  /** The value's text as a client writes it after `op.` (before percent-encoding). */
  function ValueSource(v: Value): string
  {
    match v
    case Null => "null"
    case Number(d) => d
    case Str(t) => t
    case List(items) => "(" + Join(items, ",") + ")"
  }

  /** The text `col=op.value` a client writes for a clause. */
  function ClauseSource(c: Clause): string
  {
    c.column + "=" + OperatorName(c.op) + "." + ValueSource(c.value)
  }

  lemma ParseValueSource(c: Clause)
    requires WellFormed(c)
    requires c.value.List? ==> |c.value.items| >= 1
    ensures ParseValue(c.op, ValueSource(c.value)) == Some(c.value)
  {
    if c.value.List? {
      var items := c.value.items;
      var t := ValueSource(c.value);
      assert |t| >= 2 && t[0] == '(' && t[|t| - 1] == ')' && t[1..|t| - 1] == Join(items, ",");
      assert Split(Join(items, ","), ',') == items by {
        SplitJoin(items, ',');
      }
    } else if c.value.Number? {
      assert c.value.digits != "null" by {
        assert IsDigit(c.value.digits[0]);
      }
    }
  }

  /** Parsing the written form of a well-formed clause gives the clause back. */
  lemma ParseClauseSource(c: Clause)
    requires WellFormed(c) && '=' !in c.column
    requires c.value.List? ==> |c.value.items| >= 1
    ensures ParseClause(ClauseSource(c), false) == Some(c)
  {
    var name := OperatorName(c.op);
    assert '.' !in name;
    ClausePartsOf(c.column, name, ValueSource(c.value));
    ParseOperatorName(c.op);
    ParseValueSource(c);
  }

  lemma ValueSourceOfParsed(op: Operator, text: string, v: Value)
    requires ParseValue(op, text) == Some(v)
    ensures ValueSource(v) == text
  {
    if op == In {
      var inner := text[1..|text| - 1];
      assert v == List(Split(inner, ','));
      JoinSplit(inner, ',');
      assert text == "(" + inner + ")";
    }
  }

  /** Conversely, a segment that parses (without decoding) is the written form of its clause. */
  lemma SourceOfParsed(segment: string, c: Clause)
    requires ParseClause(segment, false) == Some(c)
    ensures ClauseSource(c) == segment
  {
    var (column, opName, raw) := ClauseParts(segment).value;
    assert segment == column + "=" + opName + "." + raw;
    assert BuildClause(column, opName, raw, false) == Some(c);
    assert ParseOperator(opName) == Some(c.op);
    assert ParseValue(c.op, raw) == Some(c.value);
    ValueSourceOfParsed(c.op, raw, c.value);
  }

  // ---------------------------------------------------------------- inline rendering

  function Quoted(s: string): string
  {
    "'" + s + "'"
  }

  function QuoteAll(items: seq<string>): (r: seq<string>)
    ensures |r| == |items|
  {
    seq(|items|, i requires 0 <= i < |items| => Quoted(items[i]))
  }

  /** A value as an inline SQL literal: digit strings bare, text quoted, every list element quoted. */
  function Literal(v: Value): string
  {
    match v
    case Null => "NULL"
    case Number(d) => d
    case Str(t) => Quoted(t)
    case List(items) => "(" + Join(QuoteAll(items), ", ") + ")"
  }

  /** A clause as an inline SQL condition. */
  function Condition(c: Clause): string
  {
    if c.op == Eq && c.value.Null? then c.column + " IS NULL"
    else c.column + " " + Symbol(c.op) + " " + Literal(c.value)
  }

  function Conditions(cs: seq<Clause>): (r: seq<string>)
    ensures |r| == |cs|
  {
    seq(|cs|, i requires 0 <= i < |cs| => Condition(cs[i]))
  }

  /** ` WHERE c1 AND c2 ...`, or nothing at all when there are no clauses. */
  function Where(cs: seq<Clause>): string
  {
    if |cs| == 0 then "" else " WHERE " + Join(Conditions(cs), " AND ")
  }

  /** One segment as the inline condition it renders to, if it parses. */
  function InlineCondition(segment: string): Option<string>
  {
    match ParseClause(segment, true)
    case None => None
    case Some(c) => Some(Condition(c))
  }

  /** A segment that parses renders as its clause's condition. */
  lemma InlineConditionOfParsed(segment: string, c: Clause)
    requires ParseClause(segment, true) == Some(c)
    ensures InlineCondition(segment) == Some(Condition(c))
  {
  }

  lemma ParseEqNull(column: string)
    requires '=' !in column
    ensures ParseClause(column + "=eq.null", true) == Some(Clause(column, Eq, Null))
  {
    ParseEqNullParts(column);
    BuildNull(column);
  }

  lemma BuildNull(column: string)
    ensures BuildClause(column, "eq", "null", true) == Some(Clause(column, Eq, Null))
  {
    DecodePlain("null");
  }

  lemma ParseEqNullParts(column: string)
    requires '=' !in column
    ensures ParseClause(column + "=eq.null", true) == BuildClause(column, "eq", "null", true)
  {
    assert column + "=eq.null" == column + "=" + "eq" + "." + "null";
    ParseClauseOf(column, "eq", "null", true);
  }

  /** `col=eq.null` renders as `col IS NULL`. */
  lemma EqNullIsNull(column: string)
    requires '=' !in column
    ensures InlineCondition(column + "=eq.null") == Some(column + " IS NULL")
  {
    ParseEqNull(column);
    InlineConditionOfParsed(column + "=eq.null", Clause(column, Eq, Null));
  }

  lemma ParseDigits(column: string, op: Operator, digits: string)
    requires '=' !in column && op != In && IsDigits(digits)
    ensures ParseClause(column + "=" + OperatorName(op) + "." + digits, true) == Some(Clause(column, op, Number(digits)))
  {
    assert '.' !in OperatorName(op);
    ParseClauseOf(column, OperatorName(op), digits, true);
    ParseOperatorName(op);
    assert '%' !in digits by {
      assert forall i :: 0 <= i < |digits| ==> IsDigit(digits[i]);
    }
    DecodePlain(digits);
  }

  /** A digit-only value is rendered bare, after the operator's symbol. */
  lemma DigitsUnquoted(column: string, op: Operator, digits: string)
    requires '=' !in column && op != In && IsDigits(digits)
    ensures InlineCondition(column + "=" + OperatorName(op) + "." + digits)
         == Some(column + " " + Symbol(op) + " " + digits)
  {
    ParseDigits(column, op, digits);
    InlineConditionOfParsed(column + "=" + OperatorName(op) + "." + digits, Clause(column, op, Number(digits)));
  }

  lemma ParseText(column: string, op: Operator, raw: string, text: string)
    requires '=' !in column && op != In
    requires PercentDecode(raw) == Some(text)
    requires !IsDigits(text) && (op == Eq ==> text != "null")
    ensures ParseClause(column + "=" + OperatorName(op) + "." + raw, true) == Some(Clause(column, op, Str(text)))
  {
    assert '.' !in OperatorName(op);
    ParseClauseOf(column, OperatorName(op), raw, true);
    ParseOperatorName(op);
  }

  /** Any other value is percent-decoded and single-quoted. */
  lemma TextQuoted(column: string, op: Operator, raw: string, text: string)
    requires '=' !in column && op != In
    requires PercentDecode(raw) == Some(text)
    requires !IsDigits(text) && (op == Eq ==> text != "null")
    ensures InlineCondition(column + "=" + OperatorName(op) + "." + raw)
         == Some(column + " " + Symbol(op) + " '" + text + "'")
  {
    ParseText(column, op, raw, text);
    InlineConditionOfParsed(column + "=" + OperatorName(op) + "." + raw, Clause(column, op, Str(text)));
    QuotedAfter(column + " " + Symbol(op), text);
  }

  lemma QuotedAfter(prefix: string, text: string)
    ensures prefix + " " + Quoted(text) == prefix + " '" + text + "'"
  {
  }

  lemma ParseList(column: string, raw: string, items: seq<string>)
    requires '=' !in column
    requires |items| >= 1 && forall i :: 0 <= i < |items| ==> ',' !in items[i]
    requires PercentDecode(raw) == Some("(" + Join(items, ",") + ")")
    ensures ParseClause(column + "=in." + raw, true) == Some(Clause(column, In, List(items)))
  {
    ParseListParts(column, raw);
    var t := "(" + Join(items, ",") + ")";
    assert t[1..|t| - 1] == Join(items, ",");
    SplitJoin(items, ',');
    assert ParseValue(In, t) == Some(List(items));
  }

  lemma ParseListParts(column: string, raw: string)
    requires '=' !in column
    ensures ParseClause(column + "=in." + raw, true) == BuildClause(column, "in", raw, true)
  {
    assert column + "=in." + raw == column + "=" + "in" + "." + raw;
    ParseClauseOf(column, "in", raw, true);
  }

  /** An `in` list is decoded and every element quoted on its own, digits or not. */
  lemma InListQuoted(column: string, raw: string, items: seq<string>)
    requires '=' !in column
    requires |items| >= 1 && forall i :: 0 <= i < |items| ==> ',' !in items[i]
    requires PercentDecode(raw) == Some("(" + Join(items, ",") + ")")
    ensures InlineCondition(column + "=in." + raw)
         == Some(column + " IN (" + Join(QuoteAll(items), ", ") + ")")
  {
    ParseList(column, raw, items);
    InlineConditionOfParsed(column + "=in." + raw, Clause(column, In, List(items)));
    InAfter(column, Join(QuoteAll(items), ", "));
  }

  lemma InAfter(column: string, list: string)
    ensures column + " " + Symbol(In) + " " + ("(" + list + ")") == column + " IN (" + list + ")"
  {
  }

  lemma ConditionsAppend(a: seq<Clause>, b: seq<Clause>)
    ensures Conditions(a + b) == Conditions(a) + Conditions(b)
  {
  }

  /** Clauses keep their order: the WHERE of `a + b` is the WHERE of `a` followed by ` AND ` and the conditions of `b`. */
  lemma WhereAppend(a: seq<Clause>, b: seq<Clause>)
    requires |a| >= 1 && |b| >= 1
    ensures Where(a + b) == Where(a) + " AND " + Join(Conditions(b), " AND ")
  {
    ConditionsAppend(a, b);
    JoinAppend(Conditions(a), Conditions(b), " AND ");
  }
}
