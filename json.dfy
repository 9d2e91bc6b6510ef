/**
 * The JSON values a request body carries, and `JSON.stringify` on them.
 * Array fields of a body are stringified before they reach the database.
 */
module Json {
  import opened Wrappers
  import opened Text

  datatype Json = JNull | JBool(b: bool) | JInt(i: int) | JStr(s: string) | JArray(items: seq<Json>)

  /** One named field of a body object; a row is its fields in insertion order. */
  datatype Field = Field(key: string, value: Json)
  type Row = seq<Field>

  function Keys(row: Row): (ks: seq<string>)
    ensures |ks| == |row|
    ensures forall i :: 0 <= i < |row| ==> ks[i] == row[i].key
  {
    seq(|row|, i requires 0 <= i < |row| => row[i].key)
  }

  // ---------------------------------------------------------------- strings

  /** The lower-case hex digit JSON.stringify uses in `\u00XY`. */
  function LowerHexChar(d: nat): (c: char)
    requires d < 16
    ensures IsHexDigit(c) && HexValue(c) == d
  {
    if d < 10 then ('0' as int + d) as char else ('a' as int + d - 10) as char
  }

  /** How JSON.stringify writes one character of a string body. */
  function EscapeChar(c: char): string
  {
    if c == '"' then "\\\""
    else if c == '\\' then "\\\\"
    else if c as int == 8 then "\\b"
    else if c as int == 12 then "\\f"
    else if c == '\n' then "\\n"
    else if c == '\r' then "\\r"
    else if c == '\t' then "\\t"
    else if c as int < 0x20 then "\\u00" + [LowerHexChar(c as int / 16), LowerHexChar(c as int % 16)]
    else [c]
  }

  function Escape(s: string): string
    decreases |s|
  {
    if |s| == 0 then "" else EscapeChar(s[0]) + Escape(s[1..])
  }

  /** Reads back the escapes Escape writes; None on anything else after a backslash. */
  function Unescape(t: string): Option<string>
    decreases |t|
  {
    if |t| == 0 then Some("")
    else if t[0] != '\\' then
      match Unescape(t[1..])
      case None => None
      case Some(u) => Some([t[0]] + u)
    else if |t| >= 2 && t[1] in "\"\\bfnrt" then
      var c := match t[1]
        case 'b' => 8 as char
        case 'f' => 12 as char
        case 'n' => '\n'
        case 'r' => '\r'
        case 't' => '\t'
        case other => other;
      match Unescape(t[2..])
      case None => None
      case Some(u) => Some([c] + u)
    else if |t| >= 6 && t[1] == 'u' && t[2] == '0' && t[3] == '0' && IsHexDigit(t[4]) && IsHexDigit(t[5]) then
      match Unescape(t[6..])
      case None => None
      case Some(u) => Some([(HexValue(t[4]) * 16 + HexValue(t[5])) as char] + u)
    else None
  }

  /** One escaped character followed by more escaped text reads back as that character. */
  lemma UnescapeEscapeChar(c: char, rest: string)
    ensures Unescape(EscapeChar(c) + rest) == match Unescape(rest)
      case None => None
      case Some(u) => Some([c] + u)
  {
    var e := EscapeChar(c);
    var t := e + rest;
    if c == '"' || c == '\\' || c as int == 8 || c as int == 12 || c == '\n' || c == '\r' || c == '\t' {
      assert |e| == 2 && t[0] == '\\' && t[2..] == rest;
    } else if c as int < 0x20 {
      assert |e| == 6 && t[0] == '\\' && t[6..] == rest;
      assert HexValue(t[4]) * 16 + HexValue(t[5]) == c as int;
    } else {
      assert e == [c] && t[1..] == rest;
    }
  }

  /** Escape loses nothing: Unescape recovers the original string. */
  lemma {:induction false} UnescapeEscape(s: string)
    ensures Unescape(Escape(s)) == Some(s)
    decreases |s|
  {
    if |s| > 0 {
      UnescapeEscape(s[1..]);
      UnescapeEscapeChar(s[0], Escape(s[1..]));
      assert s == [s[0]] + s[1..];
    }
  }

  /** Characters JSON.stringify writes as they are. */
  predicate PlainChar(c: char)
  {
    c as int >= 0x20 && c != '"' && c != '\\'
  }

  /** A string of plain characters is its own escape. */
  lemma {:induction false} EscapePlain(s: string)
    requires forall i :: 0 <= i < |s| ==> PlainChar(s[i])
    ensures Escape(s) == s
    decreases |s|
  {
    if |s| > 0 {
      EscapePlain(s[1..]);
      assert s == [s[0]] + s[1..];
    }
  }

  /** A JSON string literal. */
  function Quote(s: string): string
  {
    "\"" + Escape(s) + "\""
  }

  // ---------------------------------------------------------------- values

  /** `JSON.stringify(j)`, without spaces. */
  function Stringify(j: Json): string
    decreases j
  {
    match j
    case JNull => "null"
    case JBool(b) => if b then "true" else "false"
    case JInt(i) => IntToString(i)
    case JStr(s) => Quote(s)
    case JArray(items) =>
      "[" + Join(seq(|items|, k requires 0 <= k < |items| => Stringify(items[k])), ",") + "]"
  }

  /** The text a template literal `${v}` gives a scalar value. */
  function ScalarText(j: Json): string
  {
    match j
    case JNull => "null"
    case JBool(b) => if b then "true" else "false"
    case JInt(i) => IntToString(i)
    case JStr(s) => s
    case JArray(_) => Stringify(j)
  }
}
