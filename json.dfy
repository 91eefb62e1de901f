/**
 * JSON values as the pages and the API client see them, `JSON.stringify` on them
 * (section 25.5.2 of ECMA-262), property reads, truthiness and `String(v)`, and a
 * decoder for JSON string literals that reads back exactly what `JSON.stringify` writes.
 */
module Json {
  import opened Wrappers
  import Js

  /** A parsed JSON value. Numbers are integral; object members keep their textual order. */
  datatype Json =
    | JNull
    | JBool(b: bool)
    | JNum(n: int)
    | JStr(s: string)
    | JArr(items: seq<Json>)
    | JObj(fields: seq<(string, Json)>)

  // ---------------------------------------------------------------------------
  // Reading a parsed value
  // ---------------------------------------------------------------------------

  /** The value bound to `key` among `fields`; a later duplicate wins, as with JSON.parse. */
  function FieldOf(fields: seq<(string, Json)>, key: string): Option<Json>
    decreases |fields|
  {
    if |fields| == 0 then None
    else if fields[|fields| - 1].0 == key then Some(fields[|fields| - 1].1)
    else FieldOf(fields[..|fields| - 1], key)
  }

  /**
   * `v.key` on a value that is not null: the member of an object, and undefined (None)
   * on every other kind of value. Reading a property of null throws in the source;
   * callers test for JNull before calling this.
   */
  function Get(v: Json, key: string): (r: Option<Json>)
    ensures r.Some? ==> v.JObj?
  {
    if v.JObj? then FieldOf(v.fields, key) else None
  }

  /** JavaScript truthiness of a parsed value. */
  predicate Truthy(v: Json) {
    match v
    case JNull => false
    case JBool(b) => b
    case JNum(n) => n != 0
    case JStr(s) => s != ""
    case JArr(_) => true
    case JObj(_) => true
  }

  /** `String(v)`: an array joins its elements with ",", null elements giving "". */
  function ToJsString(v: Json): string
    decreases v
  {
    match v
    case JNull => "null"
    case JBool(b) => if b then "true" else "false"
    case JNum(n) => Js.IntToString(n)
    case JStr(s) => s
    case JArr(items) =>
      Js.Join(seq(|items|, i requires 0 <= i < |items| =>
                    if items[i].JNull? then "" else ToJsString(items[i])), ",")
    case JObj(_) => "[object Object]"
  }

  // ---------------------------------------------------------------------------
  // JSON.stringify
  // ---------------------------------------------------------------------------

  function HexChar(d: nat): char
    requires d < 16
  {
    if d < 10 then ('0' as int + d) as char else ('a' as int + d - 10) as char
  }

  predicate IsHex(c: char) {
    ('0' <= c <= '9') || ('a' <= c <= 'f')
  }

  function HexValue(c: char): nat
    requires IsHex(c)
  {
    if c <= '9' then c as int - '0' as int else c as int - 'a' as int + 10
  }

  /** How JSON.stringify writes one character inside a string literal. */
  function EscapeChar(c: char): string {
    if c == '"' then "\\\""
    else if c == '\\' then "\\\\"
    else if c == '\U{0008}' then "\\b"
    else if c == '\t' then "\\t"
    else if c == '\n' then "\\n"
    else if c == '\U{000C}' then "\\f"
    else if c == '\r' then "\\r"
    else if c < ' ' then "\\u00" + [HexChar(c as int / 16), HexChar(c as int % 16)]
    else [c]
  }

  function Escape(s: string): string
    decreases |s|
  {
    if |s| == 0 then "" else EscapeChar(s[0]) + Escape(s[1..])
  }

  /** Characters JSON.stringify writes unchanged. */
  predicate Plain(c: char) {
    c != '"' && c != '\\' && c >= ' '
  }

  lemma {:induction false} EscapePlain(s: string)
    requires forall i :: 0 <= i < |s| ==> Plain(s[i])
    ensures Escape(s) == s
    decreases |s|
  {
    if |s| > 0 {
      EscapePlain(s[1..]);
      assert [s[0]] + s[1..] == s;
    }
  }

  /** A string as a JSON string literal. */
  function Quote(s: string): string {
    "\"" + Escape(s) + "\""
  }

  /** `JSON.stringify(v)` with no indentation. */
  function Stringify(v: Json): string
    decreases v
  {
    match v
    case JNull => "null"
    case JBool(b) => if b then "true" else "false"
    case JNum(n) => Js.IntToString(n)
    case JStr(s) => Quote(s)
    case JArr(items) =>
      "[" + Js.Join(seq(|items|, i requires 0 <= i < |items| => Stringify(items[i])), ",") + "]"
    case JObj(fields) =>
      "{" + Js.Join(seq(|fields|, i requires 0 <= i < |fields| =>
                          Quote(fields[i].0) + ":" + Stringify(fields[i].1)), ",") + "}"
  }

  /** A two-member object with string members, the shape the store and the login call write. */
  function Pair(k1: string, v1: string, k2: string, v2: string): Json {
    JObj([(k1, JStr(v1)), (k2, JStr(v2))])
  }

  lemma StringifyPair(k1: string, v1: string, k2: string, v2: string)
    ensures Stringify(Pair(k1, v1, k2, v2))
         == "{" + Quote(k1) + ":" + Quote(v1) + "," + Quote(k2) + ":" + Quote(v2) + "}"
  {
    StringifyTwoMembers(k1, JStr(v1), k2, JStr(v2));
    assert Stringify(JStr(v1)) == Quote(v1) && Stringify(JStr(v2)) == Quote(v2);
  }

  /** An object of two members is written as the two members, in order, between braces. */
  lemma StringifyTwoMembers(k1: string, j1: Json, k2: string, j2: Json)
    ensures Stringify(JObj([(k1, j1), (k2, j2)]))
         == "{" + Quote(k1) + ":" + Stringify(j1) + "," + Quote(k2) + ":" + Stringify(j2) + "}"
  {
    var parts := StringifyObject([(k1, j1), (k2, j2)]);
    JoinTwo(parts, ",");
    assert parts[0] == Quote(k1) + ":" + Stringify(j1) && parts[1] == Quote(k2) + ":" + Stringify(j2);
    Regroup(Quote(k1), Stringify(j1), Quote(k2), Stringify(j2));
  }

  lemma Regroup(q1: string, s1: string, q2: string, s2: string)
    ensures "{" + ((q1 + ":" + s1) + "," + (q2 + ":" + s2)) + "}"
         == "{" + q1 + ":" + s1 + "," + q2 + ":" + s2 + "}"
  {
  }

  /** An object is written as its members, each key quoted before a colon and the value, joined with commas in braces. */
  lemma StringifyObject(fields: seq<(string, Json)>) returns (parts: seq<string>)
    ensures |parts| == |fields|
    ensures forall i :: 0 <= i < |fields| ==> parts[i] == Quote(fields[i].0) + ":" + Stringify(fields[i].1)
    ensures Stringify(JObj(fields)) == "{" + Js.Join(parts, ",") + "}"
  {
    parts := seq(|fields|, i requires 0 <= i < |fields| => Quote(fields[i].0) + ":" + Stringify(fields[i].1));
  }

  lemma JoinTwo(parts: seq<string>, sep: string)
    requires |parts| == 2
    ensures Js.Join(parts, sep) == parts[0] + sep + parts[1]
  {
    assert |parts[1..]| == 1 && parts[1..][0] == parts[1];
  }

  // ---------------------------------------------------------------------------
  // Reading a string literal back
  // ---------------------------------------------------------------------------

  /**
   * The character an escape sequence at the start of `s` stands for, and the length of
   * the sequence. Only the escapes JSON.stringify itself writes are accepted.
   */
  function Unescape(s: string): (r: Option<(char, nat)>)
    requires |s| >= 1 && s[0] == '\\'
    ensures r.Some? ==> 2 <= r.value.1 <= |s|
  {
    if |s| < 2 then None
    else if s[1] == '"' then Some(('"', 2))
    else if s[1] == '\\' then Some(('\\', 2))
    else if s[1] == 'b' then Some(('\U{0008}', 2))
    else if s[1] == 't' then Some(('\t', 2))
    else if s[1] == 'n' then Some(('\n', 2))
    else if s[1] == 'f' then Some(('\U{000C}', 2))
    else if s[1] == 'r' then Some(('\r', 2))
    else if s[1] == 'u' && |s| >= 6 && s[2] == '0' && s[3] == '0' && (s[4] == '0' || s[4] == '1') && IsHex(s[5]) then
      var v := HexValue(s[4]) * 16 + HexValue(s[5]);
      if v == 8 || v == 9 || v == 10 || v == 12 || v == 13 then None
      else Some((v as char, 6))
    else None
  }

  /**
   * Reads the body of a string literal whose opening quote has already been consumed:
   * the decoded text and what follows the closing quote.
   */
  function Unquote(s: string): Option<(string, string)>
    decreases |s|
  {
    if |s| == 0 then None
    else if s[0] == '"' then Some(("", s[1..]))
    else if s[0] == '\\' then
      match Unescape(s)
      case None => None
      case Some((c, k)) =>
        match Unquote(s[k..])
        case None => None
        case Some((d, r)) => Some(([c] + d, r))
    else if s[0] < ' ' then None
    else
      match Unquote(s[1..])
      case None => None
      case Some((d, r)) => Some(([s[0]] + d, r))
  }

  lemma UnescapeChar(c: char, t: string)
    requires c == '"' || c == '\\' || c < ' '
    ensures var e := EscapeChar(c) + t;
            Unescape(e) == Some((c, |EscapeChar(c)|)) && e[|EscapeChar(c)|..] == t
  {
    var e := EscapeChar(c) + t;
    if c < ' ' && c != '\U{0008}' && c != '\t' && c != '\n' && c != '\U{000C}' && c != '\r' {
      var hi, lo := c as int / 16, c as int % 16;
      assert e[4] == HexChar(hi) && e[5] == HexChar(lo);
      assert HexValue(e[4]) == hi && HexValue(e[5]) == lo;
      assert (hi * 16 + lo) as char == c;
    }
  }

  /** A literal written by JSON.stringify reads back as the original text, leaving what follows it. */
  lemma {:induction false} UnquoteEscape(x: string, rest: string)
    ensures Unquote(Escape(x) + "\"" + rest) == Some((x, rest))
    decreases |x|
  {
    var s := Escape(x) + "\"" + rest;
    if |x| == 0 {
      assert s == "\"" + rest;
      assert s[1..] == rest;
    } else {
      var t := Escape(x[1..]) + "\"" + rest;
      assert s == EscapeChar(x[0]) + t;
      UnquoteEscape(x[1..], rest);
      if x[0] == '"' || x[0] == '\\' || x[0] < ' ' {
        UnescapeChar(x[0], t);
      } else {
        assert s[0] == x[0] && s[1..] == t;
      }
      assert [x[0]] + x[1..] == x;
    }
  }
}
