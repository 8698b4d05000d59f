/**
 * JSON values as the modelled code builds them, and `JSON.stringify` on
 * them. Numbers are integers only: the latencies and counts the core itself
 * computes are integers, but a body forwarded from a hypervisor API could
 * hold a fraction, which this type cannot express. Objects keep their keys
 * in insertion order.
 */
module Json {
  import opened Text
  import JsObject

  datatype Json =
    | JNull
    | JBool(b: bool)
    | JNumber(n: int)
    | JString(s: string)
    | JArray(items: seq<Json>)
    | JObject(fields: JsObject.Object<Json>)

  /** JavaScript truthiness of a JSON value (`0`, `""`, `false`, `null` are falsy). */
  predicate Truthy(j: Json) {
    match j
    case JNull => false
    case JBool(b) => b
    case JNumber(n) => n != 0
    case JString(s) => s != ""
    case _ => true
  }

  /** No character below U+0020: in particular no CR and no LF. */
  predicate NoControl(s: string) {
    forall k :: 0 <= k < |s| ==> s[k] as int >= 0x20
  }

  lemma NoControlConcat(a: string, b: string)
    requires NoControl(a) && NoControl(b)
    ensures NoControl(a + b)
  {
    forall k | 0 <= k < |a + b| ensures (a + b)[k] as int >= 0x20 {
      if k >= |a| { assert (a + b)[k] == b[k - |a|]; }
    }
  }

  function HexDigit(d: nat): char
    requires d < 16
  {
    if d < 10 then DigitChar(d) else ('a' as int + d - 10) as char
  }

  /**
   * How `JSON.stringify` writes one character of a string: the two-character
   * escapes for `"`, `\`, backspace, form feed, LF, CR and tab, `\u00xx`
   * (lower-case hex) for the other control characters, the character itself
   * otherwise.
   */
  function EscapeChar(c: char): (r: string)
    ensures NoControl(r) && |r| >= 1
  {
    if c == '"' then "\\\""
    else if c == '\\' then "\\\\"
    else if c as int == 8 then "\\b"
    else if c as int == 12 then "\\f"
    else if c == '\n' then "\\n"
    else if c == '\r' then "\\r"
    else if c == '\t' then "\\t"
    else if c as int < 0x20 then "\\u00" + [HexDigit(c as int / 16), HexDigit(c as int % 16)]
    else [c]
  }

  function EscapeChars(s: string): (r: string)
    ensures NoControl(r)
    decreases |s|
  {
    if |s| == 0 then ""
    else
      var r := EscapeChar(s[0]) + EscapeChars(s[1..]);
      NoControlConcat(EscapeChar(s[0]), EscapeChars(s[1..]));
      r
  }

  /** A JSON string literal. */
  function Quote(s: string): (r: string)
    ensures NoControl(r)
  {
    NoControlConcat("\"", EscapeChars(s));
    NoControlConcat("\"" + EscapeChars(s), "\"");
    "\"" + EscapeChars(s) + "\""
  }

  /** Comma-separated, as `JSON.stringify` lays out array items and object members. */
  function CommaJoin(parts: seq<string>): (r: string)
    requires forall k :: 0 <= k < |parts| ==> NoControl(parts[k])
    ensures NoControl(r)
    decreases |parts|
  {
    if |parts| == 0 then ""
    else if |parts| == 1 then parts[0]
    else
      var rest := CommaJoin(parts[1..]);
      NoControlConcat(parts[0], ",");
      NoControlConcat(parts[0] + ",", rest);
      parts[0] + "," + rest
  }

  /**
   * `JSON.stringify(j)` without indentation. Whatever the value, the text has
   * no control character, because every one inside a string is escaped; so
   * it always fits on one line of an event stream.
   */
  function Stringify(j: Json): (r: string)
    ensures NoControl(r)
    decreases j
  {
    match j
    case JNull => "null"
    case JBool(b) => if b then "true" else "false"
    case JNumber(n) =>
      var digits := NatToDecimal(if n < 0 then -n else n);
      DecimalRoundTrip(if n < 0 then -n else n);
      DigitsNoControl(digits);
      NoControlConcat("-", digits);
      IntToDecimal(n)
    case JString(s) => Quote(s)
    case JArray(items) =>
      var parts := seq(|items|, i requires 0 <= i < |items| => Stringify(items[i]));
      var body := CommaJoin(parts);
      NoControlConcat("[", body);
      NoControlConcat("[" + body, "]");
      "[" + body + "]"
    case JObject(fields) =>
      var parts := seq(|fields|, i requires 0 <= i < |fields| =>
                         Member(fields[i].0, Stringify(fields[i].1)));
      var body := CommaJoin(parts);
      NoControlConcat("{", body);
      NoControlConcat("{" + body, "}");
      "{" + body + "}"
  }

  /** One object member, `"key":value`. */
  function Member(key: string, value: string): (r: string)
    requires NoControl(value)
    ensures NoControl(r)
  {
    NoControlConcat(Quote(key), ":");
    NoControlConcat(Quote(key) + ":", value);
    Quote(key) + ":" + value
  }

  lemma DigitsNoControl(s: string)
    requires AllDigits(s)
    ensures NoControl(s)
  {
  }
}
