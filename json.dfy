/**
 * The part of JSON the functions rely on: the shape of an untyped input value
 * (`Array.isArray`, `typeof x === 'string'`) and `JSON.stringify` applied to a
 * string, which is how the continuation token is embedded in the pipeline.
 */
module Json {
  import opened Wrappers

  /** A JSON value as a handler receives it before any validation. */
  datatype Value =
    | JNull
    | JBool(b: bool)
    | JNumber(n: int)
    | JString(str: string)
    | JArray(items: seq<Value>)
    | JObject(fields: seq<(string, Value)>)

  const HexDigits: string := "0123456789abcdef"

  /** How `JSON.stringify` writes one character of a string. */
  function EscapeChar(c: char): (r: string) {
    if c == '"' then "\\\""
    else if c == '\\' then "\\\\"
    else if c as int == 0x08 then "\\b"
    else if c == '\t' then "\\t"
    else if c == '\n' then "\\n"
    else if c as int == 0x0C then "\\f"
    else if c == '\r' then "\\r"
    else if c as int < 0x20 then "\\u00" + [HexDigits[c as int / 16], HexDigits[c as int % 16]]
    else [c]
  }

  /** A character `JSON.stringify` writes unchanged. */
  predicate Plain(c: char) {
    c as int >= 0x20 && c != '"' && c != '\\'
  }

  function Escape(s: string): (r: string) {
    if s == [] then [] else EscapeChar(s[0]) + Escape(s[1..])
  }

  /** `JSON.stringify(s)` for a string `s`: a quoted, escaped JSON string literal. */
  function Stringify(s: string): (r: string) {
    "\"" + Escape(s) + "\""
  }

  /** `JSON.stringify(v)` for `v: string | undefined`: `undefined` stays `undefined`. */
  function StringifyOption(v: Option<string>): (r: Option<string>)
    ensures r.Some? <==> v.Some?
    ensures v.Some? ==> r.value == Stringify(v.value)
  {
    match v
    case Some(s) => Some(Stringify(s))
    case None => None
  }

  /** Escaping never shortens a string. */
  lemma {:induction false} EscapeLength(s: string)
    ensures |Escape(s)| >= |s|
  {
    if s != [] {
      EscapeLength(s[1..]);
    }
  }

  /** Escaping leaves a string of plain characters as it is. */
  lemma {:induction false} EscapePlain(s: string)
    requires forall i :: 0 <= i < |s| ==> Plain(s[i])
    ensures Escape(s) == s
  {
    if s != [] {
      EscapePlain(s[1..]);
    }
  }

  /**
   * The encoding is never the identity: the stringified token is always two
   * characters or more longer than the token, so it never equals it.
   */
  lemma StringifyIsNotIdentity(s: string)
    ensures |Stringify(s)| >= |s| + 2
    ensures Stringify(s) != s
  {
    EscapeLength(s);
  }

  /** For a token of plain characters the encoding is the token between double quotes. */
  lemma StringifyPlain(s: string)
    requires forall i :: 0 <= i < |s| ==> Plain(s[i])
    ensures Stringify(s) == "\"" + s + "\""
  {
    EscapePlain(s);
  }
}
