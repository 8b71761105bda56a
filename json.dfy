/**
 * Decoded JSON values as the bot receives them from `response.json()`,
 * together with the parts of Python's value semantics the bot relies on:
 * truthiness, `key in d` and `d.get(key)` on dicts, `type(x).__name__`,
 * and `str(x)` as used inside an f-string.
 */
module Json {
  import opened Wrappers

  /**
   * A decoded value. An object keeps its members in document order; Python's
   * decoder turns it into a dict in which the last occurrence of a key wins.
   * Floating-point numbers are not part of this model.
   */
  datatype Json =
    | JNull
    | JBool(b: bool)
    | JInt(i: int)
    | JString(s: string)
    | JArray(items: seq<Json>)
    | JObject(members: seq<(string, Json)>)

  /** The value the decoded dict holds under `key`, if any (the last occurrence wins). */
  function Lookup(members: seq<(string, Json)>, key: string): (r: Option<Json>)
    ensures r.None? <==> forall i :: 0 <= i < |members| ==> members[i].0 != key
    ensures r.Some? ==>
      exists i :: 0 <= i < |members| && members[i] == (key, r.value) &&
        forall j :: i < j < |members| ==> members[j].0 != key
  {
    if members == [] then None
    else if members[|members| - 1].0 == key then Some(members[|members| - 1].1)
    else Lookup(members[..|members| - 1], key)
  }

  /** Members appended after the ones that hold `key` do not change its lookup. */
  lemma {:induction false} LookupPastAbsent(front: seq<(string, Json)>, back: seq<(string, Json)>, key: string)
    requires forall i :: 0 <= i < |back| ==> back[i].0 != key
    ensures Lookup(front + back, key) == Lookup(front, key)
  {
    if back != [] {
      var shorter := back[..|back| - 1];
      var all := front + back;
      assert all[|all| - 1] == back[|back| - 1];
      assert all[..|all| - 1] == front + shorter;
      LookupPastAbsent(front, shorter, key);
    } else {
      assert front + back == front;
    }
  }

  /** Python's `key in d` for a dict `d` with these members. */
  predicate Has(members: seq<(string, Json)>, key: string) {
    Lookup(members, key).Some?
  }

  /** Python's `d.get(key)`: None (here JNull) when the key is absent. */
  function Get(members: seq<(string, Json)>, key: string): Json {
    match Lookup(members, key)
    case None => JNull
    case Some(v) => v
  }

  /** Python's `bool(x)`. */
  predicate Truthy(j: Json) {
    match j
    case JNull => false
    case JBool(b) => b
    case JInt(i) => i != 0
    case JString(s) => s != ""
    case JArray(items) => items != []
    case JObject(members) => members != []
  }

  /** Whether the value can be a dict key (`x in d` raises TypeError otherwise). */
  predicate Hashable(j: Json) {
    !j.JArray? && !j.JObject?
  }

  /** Python's `type(x).__name__`. */
  function TypeName(j: Json): string {
    match j
    case JNull => "NoneType"
    case JBool(_) => "bool"
    case JInt(_) => "int"
    case JString(_) => "str"
    case JArray(_) => "list"
    case JObject(_) => "dict"
  }

  function Digit(d: nat): char
    requires d < 10
  {
    "0123456789"[d]
  }

  function NatToString(n: nat): string
    decreases n
  {
    if n < 10 then [Digit(n)] else NatToString(n / 10) + [Digit(n % 10)]
  }

  /** Python's `str(n)` for an integer. */
  function IntToString(n: int): string {
    if n < 0 then "-" + NatToString(-n) else NatToString(n)
  }

  function HexDigit(d: nat): char
    requires d < 16
  {
    "0123456789abcdef"[d]
  }

  /** One character of a string's repr, written between the chosen quotes. */
  function EscapeChar(c: char, quote: char): string {
    if c == quote || c == '\\' then ['\\', c]
    else if c == '\t' then "\\t"
    else if c == '\n' then "\\n"
    else if c == '\r' then "\\r"
    else if c as int < 0x20 || c as int == 0x7f then
      "\\x" + [HexDigit(c as int / 16), HexDigit(c as int % 16)]
    else [c]
  }

  function Escape(s: string, quote: char): string
    decreases |s|
  {
    if s == [] then [] else EscapeChar(s[0], quote) + Escape(s[1..], quote)
  }

  /** Python's `repr(s)` for a string: single quotes unless only the double quote is free. */
  function QuoteString(s: string): string {
    var quote := if '\'' in s && '"' !in s then '"' else '\'';
    [quote] + Escape(s, quote) + [quote]
  }

  /** `", ".join(parts)` */
  function Join(parts: seq<string>): string
    decreases |parts|
  {
    if parts == [] then ""
    else if |parts| == 1 then parts[0]
    else parts[0] + ", " + Join(parts[1..])
  }

  /** Python's `repr(x)` for a decoded value. */
  function Repr(j: Json): string
    decreases j
  {
    match j
    case JNull => "None"
    case JBool(b) => if b then "True" else "False"
    case JInt(i) => IntToString(i)
    case JString(s) => QuoteString(s)
    case JArray(items) =>
      "[" + Join(seq(|items|, i requires 0 <= i < |items| => Repr(items[i]))) + "]"
    case JObject(members) =>
      "{" + Join(seq(|members|, i requires 0 <= i < |members| =>
                    QuoteString(members[i].0) + ": " + Repr(members[i].1))) + "}"
  }

  /** Python's `str(x)`, which is what an f-string inserts. */
  function Str(j: Json): (r: string)
    ensures j.JString? ==> r == j.s
  {
    if j.JString? then j.s else Repr(j)
  }
}
