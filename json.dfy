/**
 * JSON values as JSON.parse produces them, and JSON.stringify written out as
 * ECMA-262 defines it (section 25.5.2, SerializeJSONProperty and
 * QuoteJSONString) with no indentation.  Only the conversion of a number to
 * its text (Number::toString) is left to the runtime.
 */
module Json {
  import opened Wrappers

  /** A JSON value.  Numbers are held as reals; a non-finite number (what
      `JSON.parse("1e400")` gives, written by JSON.stringify as `null`) has no
      `real` of its own, which is sound here only because the text of every
      number is left to the runtime's unconstrained formatting function.
      An object's members are listed in the order in which the object
      enumerates its own properties, which is the order JSON.stringify uses. */
  datatype Json =
    | JNull
    | JBool(b: bool)
    | JNum(n: real)
    | JStr(s: string)
    | JArr(items: seq<Json>)
    | JObj(members: seq<(string, Json)>)

  type NonEmptyString = s: string | |s| > 0 witness "0"

  /** JavaScript's ToBoolean on a JSON value (ECMA-262 section 7.1.2):
      exactly null, false, 0 and the empty string are falsy. */
  function Truthy(v: Json): (b: bool)
    ensures !b <==> v == JNull || v == JBool(false) || v == JNum(0.0) || v == JStr("")
  {
    match v
    case JNull => false
    case JBool(b) => b
    case JNum(n) => n != 0.0
    case JStr(s) => s != ""
    case JArr(_) => true
    case JObj(_) => true
  }

  /** The keys of an object's members, in order. */
  function Keys(members: seq<(string, Json)>): (ks: seq<string>)
    ensures |ks| == |members|
    ensures forall i :: 0 <= i < |members| ==> ks[i] == members[i].0
  {
    if members == [] then [] else [members[0].0] + Keys(members[1..])
  }

  /** The value of the first member called `key`, if there is one. */
  function Get(members: seq<(string, Json)>, key: string): (r: Option<Json>)
    ensures r.Some? <==> key in Keys(members)
    ensures r.Some? ==> exists i :: 0 <= i < |members| && members[i] == (key, r.value) &&
                                    forall j :: 0 <= j < i ==> members[j].0 != key
  {
    if members == [] then None
    else if members[0].0 == key then Some(members[0].1)
    else
      var r := Get(members[1..], key);
      if r.None? then r
      else
        var i :| 0 <= i < |members[1..]| && members[1..][i] == (key, r.value) &&
                 forall j :: 0 <= j < i ==> members[1..][j].0 != key;
        assert members[i + 1] == (key, r.value);
        assert forall j :: 0 <= j < i + 1 ==> members[j].0 != key by {
          forall j | 0 <= j < i + 1 ensures members[j].0 != key {
            if j > 0 { assert members[j] == members[1..][j - 1]; }
          }
        }
        r
  }

  /** The elements joined by commas. */
  function Join(parts: seq<string>): string
  {
    if |parts| == 0 then ""
    else if |parts| == 1 then parts[0]
    else parts[0] + "," + Join(parts[1..])
  }

  /** Lower-case hexadecimal digit of a value below 16. */
  function HexDigit(d: nat): char
    requires d < 16
  {
    if d < 10 then ('0' as int + d) as char else ('a' as int + d - 10) as char
  }

  /** A character that QuoteJSONString copies unchanged. */
  predicate Plain(c: char)
  {
    c as int >= 0x20 && c != '"' && c != '\\'
  }

  /** How QuoteJSONString writes one code point: the short escapes, `\u00xx`
      for the other control characters, and every other character as itself. */
  function EscapeChar(c: char): (e: string)
    ensures Plain(c) <==> e == [c]
  {
    if c == '"' then "\\\""
    else if c == '\\' then "\\\\"
    else if c as int == 0x08 then "\\b"
    else if c as int == 0x0C then "\\f"
    else if c == '\n' then "\\n"
    else if c == '\r' then "\\r"
    else if c == '\t' then "\\t"
    else if c as int < 0x20 then "\\u00" + [HexDigit(c as int / 16), HexDigit(c as int % 16)]
    else [c]
  }

  function EscapeChars(s: string): string
  {
    if s == [] then [] else EscapeChar(s[0]) + EscapeChars(s[1..])
  }

  /** QuoteJSONString: the string literal that JSON.stringify writes for s. */
  function Quote(s: string): (q: string)
    ensures |q| >= 2 && q[0] == '"' && q[|q| - 1] == '"'
  {
    "\"" + EscapeChars(s) + "\""
  }

  /** JSON.stringify(v), given the runtime's Number::toString. */
  function Serialize(formatNumber: real -> NonEmptyString, v: Json): (text: string)
    ensures |text| > 0
    decreases v
  {
    match v
    case JNull => "null"
    case JBool(b) => if b then "true" else "false"
    case JNum(n) => formatNumber(n)
    case JStr(s) => Quote(s)
    case JArr(items) =>
      "[" + Join(seq(|items|, i requires 0 <= i < |items| => Serialize(formatNumber, items[i]))) + "]"
    case JObj(members) =>
      "{" + Join(seq(|members|, i requires 0 <= i < |members| => Member(formatNumber, members, i))) + "}"
  }

  /** One `"key":value` member of an object's serialization. */
  function Member(formatNumber: real -> NonEmptyString, members: seq<(string, Json)>, i: nat): string
    requires i < |members|
    decreases members, 0
  {
    var m := members[i];
    assert m in members && m.1 < m;
    Quote(m.0) + ":" + Serialize(formatNumber, m.1)
  }
}
