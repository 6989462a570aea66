/** The JSON values that flow through the webhook service, with the few pieces
    of Python's built-in behaviour the service relies on: truthiness, `str()`,
    `str.lower()`, `dict.get` on a value that may not be a dict, and `in`. */
module PyJson {
  import opened Dicts

  /** A decoded JSON document. Objects keep their keys in document order,
      as `json.load` does. Floating-point numbers are not modelled. */
  datatype Json =
    | Null
    | Bool(b: bool)
    | Int(i: int)
    | Str(s: string)
    | Arr(items: seq<Json>)
    | Obj(fields: Dict<string, Json>)

  /** Python truthiness: None, False, 0, "", [] and {} are false. */
  predicate Truthy(v: Json)
  {
    match v
    case Null => false
    case Bool(b) => b
    case Int(i) => i != 0
    case Str(s) => s != ""
    case Arr(items) => items != []
    case Obj(fields) => fields != []
  }

  /** Whether the value can be a dict key (lists and dicts cannot). */
  predicate Hashable(v: Json)
  {
    !v.Arr? && !v.Obj?
  }

  function DigitChar(d: nat): char
    requires d < 10
  {
    "0123456789"[d]
  }

  predicate IsDigit(c: char)
  {
    '0' <= c <= '9'
  }

  /** Decimal notation of a natural number, as `str(n)`. */
  function NatToString(n: nat): (r: string)
    ensures r != [] && forall i :: 0 <= i < |r| ==> IsDigit(r[i])
  {
    if n < 10 then [DigitChar(n)] else NatToString(n / 10) + [DigitChar(n % 10)]
  }

  function IntToString(i: int): string
  {
    if i < 0 then "-" + NatToString(-i) else NatToString(i)
  }

  const HEX_DIGITS := "0123456789abcdef"

  /** One character inside the quotes of a string's `repr`: the quote in use
      and the backslash are escaped, tab, newline and carriage return get
      their short escapes, and the other ASCII control characters a `\xhh`
      escape. */
  function EscapeChar(c: char, quote: char): string
  {
    if c == quote || c == '\\' then ['\\', c]
    else if c == '\t' then "\\t"
    else if c == '\n' then "\\n"
    else if c == '\r' then "\\r"
    else if c as int < 0x20 || c as int == 0x7f then
      ['\\', 'x', HEX_DIGITS[c as int / 16], HEX_DIGITS[c as int % 16]]
    else [c]
  }

  function Escaped(s: string, quote: char): string
  {
    if s == [] then [] else EscapeChar(s[0], quote) + Escaped(s[1..], quote)
  }

  /** `repr(s)`: single quotes, unless the string holds a single quote and
      no double quote. */
  function StrRepr(s: string): string
  {
    var quote := if '\'' in s && '"' !in s then '"' else '\'';
    [quote] + Escaped(s, quote) + [quote]
  }

  /** `", ".join(parts)` */
  function JoinComma(parts: seq<string>): string
  {
    if parts == [] then []
    else if |parts| == 1 then parts[0]
    else parts[0] + ", " + JoinComma(parts[1..])
  }

  /** `repr(v)`, which is also how `str()` shows the items of a list and the
      keys and values of a dict. */
  function Repr(v: Json): string
  {
    match v
    case Null => "None"
    case Bool(b) => if b then "True" else "False"
    case Int(i) => IntToString(i)
    case Str(s) => StrRepr(s)
    case Arr(items) =>
      "[" + JoinComma(seq(|items|, i requires 0 <= i < |items| => Repr(items[i]))) + "]"
    case Obj(fields) =>
      "{" + JoinComma(seq(|fields|, i requires 0 <= i < |fields| => StrRepr(fields[i].0) + ": " + Repr(fields[i].1))) + "}"
  }

  /** `str(v)`: a string is itself, anything else its `repr`. */
  function PyStr(v: Json): string
  {
    if v.Str? then v.s else Repr(v)
  }

  /** `str.lower()` on the ASCII letters. */
  function LowerChar(c: char): char
  {
    if 'A' <= c <= 'Z' then (c as int + 32) as char else c
  }

  function Lower(s: string): (r: string)
    ensures |r| == |s| && forall i :: 0 <= i < |s| ==> r[i] == LowerChar(s[i])
  {
    if s == [] then [] else [LowerChar(s[0])] + Lower(s[1..])
  }

  predicate StartsWith(s: string, prefix: string)
  {
    |prefix| <= |s| && s[..|prefix|] == prefix
  }

  predicate IsSubstring(needle: string, hay: string)
  {
    StartsWith(hay, needle) || (hay != [] && IsSubstring(needle, hay[1..]))
  }

  predicate AllAscii(s: string)
  {
    forall i :: 0 <= i < |s| ==> s[i] as int < 128
  }

  /** `v.get(k, default)` where `v` may not be a dict: None stands for the
      AttributeError Python raises then. */
  function GetAttr(v: Json, k: string, default: Json): Option<Json>
  {
    if v.Obj? then Some(GetOr(v.fields, k, default)) else None
  }

  /** `key in container`: None stands for the TypeError Python raises when
      the container is a number, a boolean or None. */
  function PyIn(key: string, container: Json): Option<bool>
  {
    match container
    case Obj(fields) => Some(HasKey(fields, key))
    case Arr(items) => Some(Str(key) in items)
    case Str(s) => Some(IsSubstring(key, s))
    case _ => None
  }

  /** No decimal numeral, with or without a sign, lower-cases to a word made
      of letters. */
  lemma IntNeverLowersToWord(i: int, w: string)
    requires w != [] && !IsDigit(w[|w| - 1])
    ensures Lower(IntToString(i)) != w
  {
    var s := IntToString(i);
    var tail := NatToString(if i < 0 then -i else i);
    assert s[|s| - 1] == tail[|tail| - 1];
    assert IsDigit(s[|s| - 1]);
    assert Lower(s)[|s| - 1] == s[|s| - 1];
  }

  /** Distinct naturals have distinct decimal notations. */
  lemma {:induction false} NatToStringInjective(n: nat, m: nat)
    requires NatToString(n) == NatToString(m)
    ensures n == m
  {
    var a, b := NatToString(n), NatToString(m);
    if n >= 10 && m >= 10 {
      assert a[..|a| - 1] == NatToString(n / 10);
      assert b[..|b| - 1] == NatToString(m / 10);
      NatToStringInjective(n / 10, m / 10);
      assert DigitChar(n % 10) == a[|a| - 1] == DigitChar(m % 10);
    } else if n < 10 && m < 10 {
      assert DigitChar(n) == a[0] == DigitChar(m);
    }
  }

  /** The notation starts with a minus sign exactly for negative numbers. */
  lemma SignShown(i: int)
    ensures IntToString(i) != [] && (IntToString(i)[0] == '-' <==> i < 0)
  {
    if i >= 0 {
      assert IsDigit(NatToString(i)[0]);
    }
  }

  /** Distinct integers have distinct decimal notations. */
  lemma IntToStringInjective(i: int, j: int)
    requires IntToString(i) == IntToString(j)
    ensures i == j
  {
    SignShown(i);
    SignShown(j);
    if i < 0 {
      assert IntToString(i)[1..] == NatToString(-i) && IntToString(j)[1..] == NatToString(-j);
      NatToStringInjective(-i, -j);
    } else {
      NatToStringInjective(i, j);
    }
  }

  /** A character that needs no escape stands for itself. */
  predicate Plain(c: char, quote: char)
  {
    c != quote && c != '\\' && 0x20 <= c as int && c as int != 0x7f
  }

  /** A string of plain characters appears unchanged between the quotes. */
  lemma {:induction false} EscapedPlain(s: string, quote: char)
    requires forall i :: 0 <= i < |s| ==> Plain(s[i], quote)
    ensures Escaped(s, quote) == s
  {
    if s != [] {
      EscapedPlain(s[1..], quote);
    }
  }

  /** `str()` of a one-item list shows the item's `repr` in brackets. */
  lemma SingletonListStr(v: Json)
    ensures PyStr(Arr([v])) == "[" + Repr(v) + "]"
  {
    assert seq(1, i requires 0 <= i < 1 => Repr([v][i])) == [Repr(v)];
  }

  /** Numbers, None and booleans inside a list, as Python writes them. */
  lemma ListStrExample()
    ensures PyStr(Arr([Int(7)])) == "[7]"
    ensures PyStr(Arr([Int(1), Null, Bool(true)])) == "[1, None, True]"
    ensures PyStr(Arr([])) == "[]"
  {
    SingletonListStr(Int(7));
    assert PyStr(Int(7)) == "7";
    var three := [Int(1), Null, Bool(true)];
    assert seq(3, i requires 0 <= i < 3 => Repr(three[i])) == ["1", "None", "True"];
    assert JoinComma(["True"]) == "True";
    assert JoinComma(["None", "True"]) == "None, True";
    assert JoinComma(["1", "None", "True"]) == "1, None, True";
  }

  /** Keys and string values of a dict are quoted. */
  lemma DictStrExample()
    ensures PyStr(Obj([("a", Str("x"))])) == "{'a': 'x'}"
    ensures PyStr(Obj([])) == "{}"
  {
    EscapedPlain("a", '\'');
    EscapedPlain("x", '\'');
    assert StrRepr("a") == "'a'" && Repr(Str("x")) == "'x'";
    var f: Dict<string, Json> := [("a", Str("x"))];
    assert StrRepr(f[0].0) + ": " + Repr(f[0].1) == "'a': 'x'";
    assert seq(1, i requires 0 <= i < 1 => StrRepr(f[i].0) + ": " + Repr(f[i].1)) == ["'a': 'x'"];
  }

  /** Python switches to double quotes for a string holding an apostrophe. */
  lemma QuoteChoiceExample()
    ensures PyStr(Arr([Str("it's")])) == "[\"it's\"]"
  {
    var s := "it's";
    assert s[0] != '"' && s[1] != '"' && s[2] == '\'' && s[3] != '"';
    assert '"' !in s;
    assert forall i :: 0 <= i < |s| ==> Plain(s[i], '"');
    EscapedPlain(s, '"');
    assert StrRepr(s) == "\"it's\"";
    SingletonListStr(Str(s));
  }
}
