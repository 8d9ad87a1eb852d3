/** JSON values as the Python code handles them: dictionaries keep their
    insertion order (so an object is a list of key/value pairs), integers are
    unbounded, and `json.dumps` with its default settings renders them. */
module JsonValues {
  import opened Basics

  datatype Json =
    | JNull
    | JBool(b: bool)
    | JInt(i: int)
    | JStr(s: string)
    | JArr(items: seq<Json>)
    | JObj(fields: seq<(string, Json)>)

  /** A Python `Dict[str, Any]`: keys in insertion order. */
  type Fields = seq<(string, Json)>

  /** `d.get(key)`: the value stored under `key`, if any. */
  function Get(d: Fields, key: string): Option<Json> {
    if d == [] then None
    else if d[0].0 == key then Some(d[0].1)
    else Get(d[1..], key)
  }

  /** `d.get(key)` finds a value exactly when some entry has that key, and
      the value it finds is stored under that key. */
  lemma {:induction false} GetSpec(d: Fields, key: string)
    ensures Get(d, key).Some? <==> exists k :: 0 <= k < |d| && d[k].0 == key
    ensures Get(d, key).Some? ==> exists k :: 0 <= k < |d| && d[k] == (key, Get(d, key).value)
  {
    if d != [] && d[0].0 != key {
      GetSpec(d[1..], key);
      assert forall k :: 1 <= k < |d| ==> d[k] == d[1..][k - 1];
    }
  }

  /** `d.get(key)` finds the first entry stored under `key`. */
  lemma {:induction false} GetFirst(d: Fields, key: string, k: nat)
    requires k < |d| && d[k].0 == key
    requires forall j :: 0 <= j < k ==> d[j].0 != key
    ensures Get(d, key) == Some(d[k].1)
  {
    if k > 0 {
      GetFirst(d[1..], key, k - 1);
    }
  }

  /** Looking a key up in two dicts written one after the other finds it in
      the first if it is there. */
  lemma {:induction false} GetConcat(a: Fields, b: Fields, key: string)
    ensures Get(a + b, key) == if Get(a, key).Some? then Get(a, key) else Get(b, key)
  {
    if a == [] {
      assert a + b == b;
    } else {
      assert (a + b)[1..] == a[1..] + b;
      GetConcat(a[1..], b, key);
    }
  }

  function Keys(d: Fields): seq<string> {
    seq(|d|, k requires 0 <= k < |d| => d[k].0)
  }

  /** Python truthiness of a JSON value (`if value:`). */
  predicate Truthy(j: Json) {
    match j
    case JNull => false
    case JBool(b) => b
    case JInt(i) => i != 0
    case JStr(s) => s != ""
    case JArr(items) => items != []
    case JObj(fields) => fields != []
  }

  /** What `for x in value` yields: the items of a list, the one-character
      strings of a string, the keys of a dict; None where Python raises
      `TypeError` because the value is not iterable. */
  function Iterated(j: Json): (r: Option<seq<Json>>)
    ensures r.Some? <==> (j.JArr? || j.JStr? || j.JObj?)
  {
    match j
    case JArr(items) => Some(items)
    case JStr(s) => Some(seq(|s|, k requires 0 <= k < |s| => JStr([s[k]])))
    case JObj(fields) => Some(seq(|fields|, k requires 0 <= k < |fields| => JStr(fields[k].0)))
    case _ => None
  }

  /** `str(value)` for the scalar values the source formats into text
      (`None`, `True`, integers, strings). Lists and dicts are rendered in
      JSON syntax, where Python would use its own repr. */
  function PyStr(j: Json): string {
    match j
    case JNull => "None"
    case JBool(b) => if b then "True" else "False"
    case JInt(i) => IntToString(i)
    case JStr(s) => s
    case _ => Dumps(j)
  }

  predicate Printable(c: char) {
    ' ' <= c <= '~'
  }

  function HexDigit(n: nat): (c: char)
    requires n < 16
    ensures Printable(c)
  {
    if n < 10 then ('0' as int + n) as char else ('a' as int + n - 10) as char
  }

  /** Four lower-case hex digits of a code unit. */
  function Hex4(n: nat): (r: string)
    requires n < 0x10000
    ensures |r| == 4 && forall k :: 0 <= k < 4 ==> Printable(r[k])
  {
    [HexDigit(n / 0x1000), HexDigit(n / 0x100 % 16), HexDigit(n / 0x10 % 16), HexDigit(n % 16)]
  }

  /** How `json.dumps` (with `ensure_ascii=True`) writes one character of a
      string: the two-character escapes, `\uXXXX` for other control and
      non-ASCII characters (a surrogate pair above U+FFFF), the character
      itself otherwise. */
  function EscapeChar(c: char): (r: string)
    ensures |r| >= 1 && forall k :: 0 <= k < |r| ==> Printable(r[k])
    ensures r == [c] <==> Printable(c) && c != '"' && c != '\\'
  {
    if c == '"' then "\\\""
    else if c == '\\' then "\\\\"
    else if c == '\n' then "\\n"
    else if c == '\r' then "\\r"
    else if c == '\t' then "\\t"
    else if c == '\U{0008}' then "\\b"
    else if c == '\U{000C}' then "\\f"
    else if ' ' <= c <= '~' then [c]
    else if (c as int) < 0x10000 then "\\u" + Hex4(c as int)
    else
      var v := c as int - 0x10000;
      "\\u" + Hex4(0xD800 + v / 0x400) + "\\u" + Hex4(0xDC00 + v % 0x400)
  }

  function EscapeString(s: string): (r: string)
    ensures '\n' !in r && '\r' !in r
  {
    if s == [] then "" else EscapeChar(s[0]) + EscapeString(s[1..])
  }

  /** A JSON string literal. */
  function Quote(s: string): (r: string)
    ensures '\n' !in r && '\r' !in r
  {
    "\"" + EscapeString(s) + "\""
  }

  /** `json.dumps(j)` with the default separators `", "` and `": "`.
      Its text never holds a line break: every newline or carriage return
      inside a string is escaped. */
  function Dumps(j: Json): (r: string)
    ensures '\n' !in r && '\r' !in r
    decreases j
  {
    match j
    case JNull => "null"
    case JBool(b) => if b then "true" else "false"
    case JInt(i) => IntToString(i)
    case JStr(s) => Quote(s)
    case JArr(items) =>
      var parts := seq(|items|, k requires 0 <= k < |items| => Dumps(items[k]));
      JoinAvoids(", ", parts, '\n');
      JoinAvoids(", ", parts, '\r');
      "[" + Join(", ", parts) + "]"
    case JObj(fields) =>
      var parts := seq(|fields|, k requires 0 <= k < |fields| =>
        assert fields[k] in fields;
        Quote(fields[k].0) + ": " + Dumps(fields[k].1));
      JoinAvoids(", ", parts, '\n');
      JoinAvoids(", ", parts, '\r');
      "{" + Join(", ", parts) + "}"
  }
}
