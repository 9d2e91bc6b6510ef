/** How body values are written into SQL: inline (update SET, RPC arguments) or as placeholder values (insert). */
module SqlValues {
  import opened Wrappers
  import opened Json
  import opened Text

  /**
   * A body value written inline: null as `NULL`, an array as its JSON text
   * without quotes, any other value quoted (a number too: `'34'`).
   */
  function BodyLiteral(j: Json): (r: string)
    ensures r == "NULL" <==> j.JNull?
  {
    match j
    case JNull => "NULL"
    case JArray(_) =>
      var t := Stringify(j);
      assert t[0] == '[';
      t
    case _ =>
      var t := "'" + ScalarText(j) + "'";
      assert t[0] == '\'';
      t
  }

  /** The value sent to the database for a placeholder: arrays as their JSON text, anything else as it is. */
  function ParamValue(j: Json): (r: Json)
    ensures !r.JArray?
    ensures r.JNull? <==> j.JNull?
  {
    if j.JArray? then JStr(Stringify(j)) else j
  }

  /** The `prefer` header value that asks for the changed rows back. */
  const Representation := "return=representation"

  function Returning(prefer: Option<string>): (r: string)
    ensures r == " RETURNING *" <==> prefer == Some(Representation)
    ensures r == "" <==> prefer != Some(Representation)
  {
    if prefer == Some(Representation) then " RETURNING *" else ""
  }
}
