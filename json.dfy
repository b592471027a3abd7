/**
  A small JSON value type and the serializer used for the `data:` line of every
  protocol frame. The serializer follows JSON.stringify: no white space, object
  keys in the order the value lists them, strings quoted with the short escapes
  for `"`, `\`, backspace, form feed, newline, carriage return and tab and
  `\u00XX` for the other control characters.

  The string decoder is the inverse used by consumers of the protocol stream
  (JSON.parse of a data line that holds a string); the round trip
  `DecodeString(Encode(Str(s))) == Some(s)` is proved below.
*/
module Json {
  import opened Optional

  datatype Json =
    | Null
    | Bool(b: bool)
    | Num(n: int)
    | Str(s: string)
    | Arr(items: seq<Json>)
    | Obj(fields: seq<(string, Json)>)

  const HexDigits: string := "0123456789abcdef"

  /** The number a string of decimal digits denotes, most significant first. */
  function DigitsValue(s: string): nat
    requires forall k :: 0 <= k < |s| ==> '0' <= s[k] <= '9'
    decreases |s|
  {
    if s == [] then 0 else DigitsValue(s[..|s| - 1]) * 10 + (s[|s| - 1] as int - '0' as int)
  }

  /** Decimal digits of a natural number, most significant first. */
  function NatToString(n: nat): (r: string)
    ensures |r| >= 1
    ensures forall k :: 0 <= k < |r| ==> '0' <= r[k] <= '9'
    ensures DigitsValue(r) == n
    ensures n < 10 <==> |r| == 1
    decreases n
  {
    if n < 10 then ["0123456789"[n]]
    else
      var init := NatToString(n / 10);
      var r := init + ["0123456789"[n % 10]];
      assert r[..|r| - 1] == init;
      r
  }

  function IntToString(n: int): string
  {
    if n < 0 then "-" + NatToString(-n) else NatToString(n)
  }

  /** How JSON.stringify writes one character inside a string literal. */
  function EscapeChar(c: char): string
  {
    if c == '"' then "\\\""
    else if c == '\\' then "\\\\"
    else if c == '\n' then "\\n"
    else if c == '\r' then "\\r"
    else if c == '\t' then "\\t"
    else if c as int == 8 then "\\b"
    else if c as int == 12 then "\\f"
    else if c as int < 0x20 then "\\u00" + [HexDigits[c as int / 16], HexDigits[c as int % 16]]
    else [c]
  }

  function Escape(s: string): string
    decreases |s|
  {
    if s == [] then [] else EscapeChar(s[0]) + Escape(s[1..])
  }

  /** A character JSON.stringify writes as itself. */
  predicate Plain(c: char)
  {
    c != '"' && c != '\\' && c as int >= 0x20
  }

  /** A string without quotes, backslashes or control characters is written verbatim. */
  lemma {:induction false} EscapePlain(s: string)
    requires forall k :: 0 <= k < |s| ==> Plain(s[k])
    ensures Escape(s) == s
    decreases |s|
  {
    if s != [] {
      EscapePlain(s[1..]);
      assert [s[0]] + s[1..] == s;
    }
  }

  /** The JSON text of a string: the escaped characters between double quotes. */
  function Quote(s: string): string
  {
    "\"" + Escape(s) + "\""
  }

  function Join(parts: seq<string>): string
    decreases |parts|
  {
    if parts == [] then []
    else if |parts| == 1 then parts[0]
    else parts[0] + "," + Join(parts[1..])
  }

  /** The value stored under `key` in an object, looked up the way a consumer
      reads a property; None for a missing key or a value that is no object. */
  function Field(j: Json, key: string): Option<Json>
  {
    if j.Obj? then FieldIn(j.fields, key) else None
  }

  function FieldIn(fields: seq<(string, Json)>, key: string): Option<Json>
    decreases |fields|
  {
    if fields == [] then None
    else if fields[0].0 == key then Some(fields[0].1)
    else FieldIn(fields[1..], key)
  }

  /** The value reached by following a path of keys from `j`. */
  function Path(j: Json, keys: seq<string>): Option<Json>
    decreases |keys|
  {
    if keys == [] then Some(j)
    else
      match Field(j, keys[0])
      case None => None
      case Some(v) => Path(v, keys[1..])
  }

  /** A key that the first field does not have but the second does is found there. */
  lemma FieldInSecond(fields: seq<(string, Json)>, key: string)
    requires |fields| >= 2 && fields[0].0 != key && fields[1].0 == key
    ensures FieldIn(fields, key) == Some(fields[1].1)
  {
    assert fields[1..][0] == fields[1];
  }

  /** Following a non-empty path is one lookup followed by the rest of the path. */
  lemma PathStep(j: Json, keys: seq<string>)
    requires keys != []
    ensures Path(j, keys) == if Field(j, keys[0]).Some? then Path(Field(j, keys[0]).value, keys[1..]) else None
  {
  }

  /** Serializes a JSON value without white space (JSON.stringify). */
  function Encode(j: Json): (r: string)
    ensures |r| >= 1
    ensures j.Str? ==> r == Quote(j.s)
    decreases j
  {
    match j
    case Null => "null"
    case Bool(b) => if b then "true" else "false"
    case Num(n) => IntToString(n)
    case Str(s) => Quote(s)
    case Arr(items) =>
      "[" + Join(seq(|items|, k requires 0 <= k < |items| => Encode(items[k]))) + "]"
    case Obj(fields) =>
      "{" + Join(seq(|fields|, k requires 0 <= k < |fields| =>
                       assert fields[k].1 < fields[k];
                       Quote(fields[k].0) + ":" + Encode(fields[k].1))) + "}"
  }

  function HexValue(c: char): Option<nat>
  {
    if '0' <= c <= '9' then Some(c as int - '0' as int)
    else if 'a' <= c <= 'f' then Some(c as int - 'a' as int + 10)
    else if 'A' <= c <= 'F' then Some(c as int - 'A' as int + 10)
    else None
  }

  /** The character denoted by the escape sequence that follows a backslash,
      and how many characters after the backslash it occupies. */
  function Unescape(t: string): (r: Option<(char, nat)>)
    ensures r.Some? ==> 1 <= r.value.1 <= |t|
  {
    if t == [] then None
    else if t[0] == '"' then Some(('"', 1))
    else if t[0] == '\\' then Some(('\\', 1))
    else if t[0] == '/' then Some(('/', 1))
    else if t[0] == 'b' then Some((8 as char, 1))
    else if t[0] == 'f' then Some((12 as char, 1))
    else if t[0] == 'n' then Some(('\n', 1))
    else if t[0] == 'r' then Some(('\r', 1))
    else if t[0] == 't' then Some(('\t', 1))
    else if t[0] == 'u' && |t| >= 5 then
      match (HexValue(t[1]), HexValue(t[2]), HexValue(t[3]), HexValue(t[4]))
      case (Some(a), Some(b), Some(c), Some(d)) =>
        var code := a * 4096 + b * 256 + c * 16 + d;
        if 0xD800 <= code < 0xE000 then None else Some((code as char, 5))
      case _ => None
    else None
  }

  /** Reads the characters of a string literal up to and including its closing
      quote; gives the decoded characters and the text after the quote. */
  function ParseChars(t: string): (r: Option<(string, string)>)
    ensures r.Some? ==> |r.value.1| < |t|
    decreases |t|
  {
    if t == [] then None
    else if t[0] == '"' then Some(([], t[1..]))
    else if t[0] == '\\' then
      match Unescape(t[1..])
      case None => None
      case Some((c, k)) =>
        match ParseChars(t[1 + k..])
        case None => None
        case Some((s, rest)) => Some(([c] + s, rest))
    else if (t[0] as int) < 0x20 then None
    else
      match ParseChars(t[1..])
      case None => None
      case Some((s, rest)) => Some(([t[0]] + s, rest))
  }

  /** JSON.parse restricted to a text that is exactly one string literal. */
  function DecodeString(t: string): Option<string>
  {
    if t == [] || t[0] != '"' then None
    else
      match ParseChars(t[1..])
      case Some((s, rest)) => if rest == [] then Some(s) else None
      case None => None
  }

  lemma HexDigitValue(d: nat)
    requires d < 16
    ensures HexValue(HexDigits[d]) == Some(d)
  {
  }

  /** One escaped character is read back as that character. */
  lemma ParseEscapedChar(c: char, u: string)
    ensures ParseChars(EscapeChar(c) + u) ==
              match ParseChars(u)
              case None => None
              case Some((s, rest)) => Some(([c] + s, rest))
  {
    var t := EscapeChar(c) + u;
    var n := c as int;
    if c == '"' || c == '\\' || c == '\n' || c == '\r' || c == '\t' || n == 8 || n == 12 {
      assert t[1..][0] == t[1];
      assert t[2..] == u;
    } else if n < 0x20 {
      HexDigitValue(n / 16);
      HexDigitValue(n % 16);
      assert t[1..][..5] == "u00" + [HexDigits[n / 16], HexDigits[n % 16]];
      assert Unescape(t[1..]) == Some((c, 5));
      assert t[6..] == u;
    } else {
      assert t[1..] == u;
    }
  }

  lemma {:induction false} ParseEscaped(s: string, rest: string)
    ensures ParseChars(Escape(s) + "\"" + rest) == Some((s, rest))
    decreases |s|
  {
    if s == [] {
      assert Escape(s) + "\"" + rest == "\"" + rest;
    } else {
      assert Escape(s) + "\"" + rest == EscapeChar(s[0]) + (Escape(s[1..]) + "\"" + rest);
      ParseEscaped(s[1..], rest);
      ParseEscapedChar(s[0], Escape(s[1..]) + "\"" + rest);
      assert [s[0]] + s[1..] == s;
    }
  }

  /** Decoding the serialization of a string gives the string back. */
  lemma {:induction false} DecodeQuote(s: string)
    ensures DecodeString(Encode(Str(s))) == Some(s)
  {
    var t := Quote(s);
    assert t[1..] == Escape(s) + "\"" + [];
    ParseEscaped(s, []);
  }
}
