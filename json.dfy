/**
 * Decoded JSON values as the Python code sees them after `json.loads`, with the
 * dictionary operations it uses (`d.get(k)`, `d.get(k, default)`, `x or y`, `str(x)`,
 * `repr(x)`, `type(x).__name__`).
 */
module Json {
  import opened Wrappers
  import Text

  /**
   * A decoded value. Numbers keep their source text (so `1.0` and `10000` stay distinct);
   * an object keeps its members in insertion order, as a Python `dict` does, and stands
   * for a dictionary with distinct keys.
   */
  datatype Json =
    | JNull
    | JBool(b: bool)
    | JNumber(text: string)
    | JStr(s: string)
    | JArr(items: seq<Json>)
    | JObj(members: seq<(string, Json)>)

  /** A number is zero when every digit of its mantissa is `0`. */
  predicate IsZeroNumber(text: string)
    decreases |text|
  {
    text == [] || text[0] == 'e' || text[0] == 'E'
    || ((text[0] == '0' || text[0] == '-' || text[0] == '+' || text[0] == '.') && IsZeroNumber(text[1..]))
  }

  /** Python truthiness of the decoded value: `None`, `False`, zero and the empty containers are false. */
  predicate Truthy(j: Json)
    ensures Truthy(j) ==> j != JNull && j != JBool(false) && j != JStr("") && j != JArr([]) && j != JObj([])
    ensures j.JNumber? ==> (Truthy(j) <==> !IsZeroNumber(j.text))
    ensures j.JStr? || j.JArr? || j.JObj? ==> (Truthy(j) <==> j != JStr("") && j != JArr([]) && j != JObj([]))
  {
    match j
    case JNull => false
    case JBool(b) => b
    case JNumber(t) => !IsZeroNumber(t)
    case JStr(s) => s != []
    case JArr(a) => a != []
    case JObj(m) => m != []
  }

  /** The position of the last member with that key, or -1 when there is none. */
  function LastIndex(members: seq<(string, Json)>, key: string): (i: int)
    ensures -1 <= i < |members|
    ensures i >= 0 ==> members[i].0 == key && forall j :: i < j < |members| ==> members[j].0 != key
    ensures i < 0 ==> forall j :: 0 <= j < |members| ==> members[j].0 != key
  {
    if members == [] then -1
    else if members[|members| - 1].0 == key then |members| - 1
    else
      var init := members[..|members| - 1];
      assert forall j :: 0 <= j < |init| ==> init[j] == members[j];
      LastIndex(init, key)
  }

  /**
   * `d.get(key)` on a dictionary read by `json.loads`: the value of the last member with that key,
   * since a later duplicate key replaces an earlier one.
   */
  function Lookup(members: seq<(string, Json)>, key: string): (r: Option<Json>)
    ensures r.Some? <==> exists i :: 0 <= i < |members| && members[i].0 == key
    ensures r.Some? ==>
      exists i :: 0 <= i < |members| && members[i] == (key, r.value) && (forall j :: i < j < |members| ==> members[j].0 != key)
  {
    var i := LastIndex(members, key);
    if i < 0 then None else Some(members[i].1)
  }

  /** `d.get(key)` where `d` must be a dictionary; `None` when the key is absent. */
  function Get(d: Json, key: string): Option<Json>
    requires d.JObj?
  {
    Lookup(d.members, key)
  }

  /** `d.get(key, default)` */
  function GetOr(d: Json, key: string, default: Json): Json
    requires d.JObj?
  {
    Get(d, key).GetOr(default)
  }

  /** Python's `x or y` */
  function Or(x: Json, y: Json): (r: Json)
    ensures Truthy(x) ==> r == x
    ensures !Truthy(x) ==> r == y
  {
    if Truthy(x) then x else y
  }

  /** `d.get(key) or default`, treating an absent key as `None`. */
  function GetOrElse(d: Json, key: string, default: Json): (r: Json)
    requires d.JObj?
    ensures Truthy(default) ==> Truthy(r)
    ensures Get(d, key).Some? && Truthy(Get(d, key).value) ==> r == Get(d, key).value
    ensures Get(d, key).None? || !Truthy(Get(d, key).value) ==> r == default
  {
    Or(Get(d, key).GetOr(JNull), default)
  }

  /** `type(x).__name__`, as it appears in Python's error messages. */
  function TypeName(j: Json): string {
    match j
    case JNull => "NoneType"
    case JBool(_) => "bool"
    case JNumber(t) => if '.' in t || 'e' in t || 'E' in t then "float" else "int"
    case JStr(_) => "str"
    case JArr(_) => "list"
    case JObj(_) => "dict"
  }

  /** The text of the `AttributeError` raised by `x.get(...)` when `x` is not a dictionary. */
  function NoGetMessage(j: Json): string {
    "'" + TypeName(j) + "' object has no attribute 'get'"
  }

  /** The quote `repr` puts around a string: `"` when it holds a `'` and no `"`, `'` otherwise. */
  function ReprQuote(s: string): (q: char)
    ensures q == '"' || q == '\''
    ensures q == '"' <==> '\'' in s && '"' !in s
  {
    if '\'' in s && '"' !in s then '"' else '\''
  }

  /**
   * The characters below U+0100 that `repr` writes as `\xhh`: the control characters other than
   * tab, newline and carriage return, DEL up to NO-BREAK SPACE, and SOFT HYPHEN.
   */
  predicate HexEscaped(c: char) {
    && c != '\t' && c != '\n' && c != '\r'
    && (c as int < 0x20 || (0x7f <= c as int <= 0xa0) || c as int == 0xad)
  }

  /** A lower-case hexadecimal digit. */
  function HexDigit(d: nat): (c: char)
    requires d < 16
    ensures HexValue(c) == Some(d)
  {
    "0123456789abcdef"[d]
  }

  /** The value of a hexadecimal digit of either case. */
  function HexValue(c: char): (r: Option<nat>)
    ensures r.Some? ==> r.value < 16
  {
    if '0' <= c <= '9' then Some(c as int - '0' as int)
    else if 'a' <= c <= 'f' then Some(c as int - 'a' as int + 10)
    else if 'A' <= c <= 'F' then Some(c as int - 'A' as int + 10)
    else None
  }

  /** How `repr` writes one character of a string quoted with `q`. */
  function EscapeChar(c: char, q: char): (e: string)
    ensures 1 <= |e| <= 4
    ensures |e| == 1 <==> e == [c]
  {
    if c == '\\' then "\\\\"
    else if c == q then ['\\', q]
    else if c == '\n' then "\\n"
    else if c == '\r' then "\\r"
    else if c == '\t' then "\\t"
    else if HexEscaped(c) then ['\\', 'x', HexDigit(c as int / 16), HexDigit(c as int % 16)]
    else [c]
  }

  function EscapeChars(s: string, q: char): string {
    if s == [] then []
    else EscapeChar(s[0], q) + EscapeChars(s[1..], q)
  }

  /** `repr` of a string: its quote, the escaped characters, the quote again. */
  function QuoteString(s: string): (r: string)
    ensures |r| >= 2 && r[0] == ReprQuote(s) && r[|r| - 1] == ReprQuote(s)
    ensures Unescape(r[1..|r| - 1]) == Some(s)
  {
    var q := ReprQuote(s);
    var r := [q] + EscapeChars(s, q) + [q];
    assert r[1..|r| - 1] == EscapeChars(s, q);
    EscapeRoundTrip(s, q);
    r
  }

  /** `c` in front of a decoded text, if there is one. */
  function Prepend(c: char, rest: Option<string>): Option<string> {
    if rest.Some? then Some([c] + rest.value) else None
  }

  /**
   * Reading the inside of a Python string literal back: a backslash followed by a quote, a
   * backslash, `n`, `r`, `t` or `x` and two hexadecimal digits stands for one character; any
   * other character stands for itself. `None` for any other escape.
   */
  function Unescape(t: string): Option<string>
    decreases |t|
  {
    if t == [] then Some([])
    else if t[0] != '\\' then Prepend(t[0], Unescape(t[1..]))
    else if |t| < 2 then None
    else
      var k := t[1];
      if k == '\\' || k == '\'' || k == '"' then Prepend(k, Unescape(t[2..]))
      else if k == 'n' then Prepend('\n', Unescape(t[2..]))
      else if k == 'r' then Prepend('\r', Unescape(t[2..]))
      else if k == 't' then Prepend('\t', Unescape(t[2..]))
      else if k == 'x' && |t| >= 4 && HexValue(t[2]).Some? && HexValue(t[3]).Some? then
        Prepend((16 * HexValue(t[2]).value + HexValue(t[3]).value) as char, Unescape(t[4..]))
      else None
  }

  /** Reading back one escaped character gives that character in front of whatever follows. */
  lemma UnescapeChar(c: char, q: char, rest: string)
    requires q == '"' || q == '\''
    ensures Unescape(EscapeChar(c, q) + rest) == Prepend(c, Unescape(rest))
  {
    var e := EscapeChar(c, q);
    var t := e + rest;
    if |e| == 1 {
      assert t[0] == c && t[1..] == rest;
    } else if |e| == 2 {
      assert t[2..] == rest;
    } else {
      var n := c as int;
      assert t[4..] == rest;
      assert HexValue(t[2]) == Some(n / 16) && HexValue(t[3]) == Some(n % 16);
      assert 16 * (n / 16) + n % 16 == n;
    }
  }

  /** Every string reads back from what `repr` writes for it, whichever quote is used. */
  lemma {:induction false} EscapeRoundTrip(s: string, q: char)
    requires q == '"' || q == '\''
    ensures Unescape(EscapeChars(s, q)) == Some(s)
  {
    if s != [] {
      EscapeRoundTrip(s[1..], q);
      UnescapeChar(s[0], q, EscapeChars(s[1..], q));
      assert [s[0]] + s[1..] == s;
    }
  }

  /** `repr(x)` */
  function Repr(j: Json): string
    decreases j, 1
  {
    match j
    case JNull => "None"
    case JBool(b) => if b then "True" else "False"
    case JNumber(t) => t
    case JStr(s) => QuoteString(s)
    case JArr(a) => "[" + ReprItems(j, a) + "]"
    case JObj(m) => "{" + ReprMembers(j, m) + "}"
  }

  function ReprItems(parent: Json, a: seq<Json>): string
    requires forall x :: x in a ==> x < parent
    decreases parent, 0, |a|
  {
    if a == [] then ""
    else
      assert a[0] in a;
      assert forall x :: x in a[1..] ==> x in a;
      if |a| == 1 then Repr(a[0])
      else Repr(a[0]) + ", " + ReprItems(parent, a[1..])
  }

  function ReprMembers(parent: Json, m: seq<(string, Json)>): string
    requires forall i :: 0 <= i < |m| ==> m[i].1 < parent
    decreases parent, 0, |m|
  {
    if m == [] then ""
    else
      var first := QuoteString(m[0].0) + ": " + Repr(m[0].1);
      if |m| == 1 then first else first + ", " + ReprMembers(parent, m[1..])
  }

  /** `str(x)`: the text itself for a string, `repr` otherwise. */
  function PyStr(j: Json): (r: string)
    ensures j.JStr? ==> r == j.s
  {
    if j.JStr? then j.s else Repr(j)
  }

  /** A truthy value never prints as the empty string. */
  lemma TruthyTextNonEmpty(j: Json)
    requires Truthy(j)
    ensures PyStr(j) != ""
  {
    match j {
      case JNumber(t) =>
      case JStr(s) =>
      case JBool(b) =>
      case JArr(a) =>
      case JObj(m) =>
    }
  }
}
