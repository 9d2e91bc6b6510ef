/**
 * What a builder returns. The source signals invalid input with a falsy
 * value (`''`, or `{queryString: '', values: []}`); the model names the
 * reason instead and maps it back to that sentinel.
 */
module Outcomes {
  datatype Reason =
    | EmptySelect       // `select=` with no columns
    | DuplicateSelect   // `select=` given twice
    | BadFilter         // a clause that does not parse
    | EmptyBody         // nothing to insert, or nothing to set
    | NoColumns         // an insert batch whose first row has no keys
    | MissingFilter     // a delete without a query string
    | ListParameter     // `select` or `limit` given more than once
    | RaggedBatch       // an insert row without exactly the first row's columns

  datatype Result<T> = Ok(value: T) | Invalid(reason: Reason)

  /** A statement with positional placeholders and the values that fill them, in order. */
  datatype Prepared<V> = Prepared(queryString: string, values: seq<V>)

  /** The string the source returns: the statement, or `''` when the input is invalid. */
  function SourceText(r: Result<string>): string
  {
    match r
    case Ok(t) => t
    case Invalid(_) => ""
  }

  /** The object the source returns: the statement and values, or `{queryString: '', values: []}`. */
  function SourceObject<V>(r: Result<Prepared<V>>): Prepared<V>
  {
    match r
    case Ok(p) => p
    case Invalid(_) => Prepared("", [])
  }
}
