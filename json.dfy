/**
 * The JSON text forms the client and the edge functions rely on: a model of
 * JSON values, `JSON.stringify` over it (integers in decimal, strings with
 * the escapes of section 25.5.2.3 of ECMA-262), and the reading side that
 * restoring a session needs: integers and string literals.
 */
module Json {
  import opened Wrappers

  /**
   * A JSON value. Numbers are integers: every number the model handles is one.
   * An `Obj` is an object as `JSON.parse` or an object literal gives it: its
   * properties in order, each key once.
   */
  datatype Json =
    | Null
    | Bool(b: bool)
    | Num(n: int)
    | Str(s: string)
    | Arr(items: seq<Json>)
    | Obj(members: seq<(string, Json)>)

  // ---------------------------------------------------------------------
  // Decimal integers

  predicate IsDigit(c: char) {
    '0' <= c <= '9'
  }

  predicate AllDigits(ds: string) {
    forall i :: 0 <= i < |ds| ==> IsDigit(ds[i])
  }

  function DigitChar(d: nat): (c: char)
    requires d < 10
    ensures IsDigit(c) && c as int - '0' as int == d
  {
    ('0' as int + d) as char
  }

  /** The decimal digits of `n`, most significant first, without leading zeros. */
  function NatToDigits(n: nat): (ds: string)
    ensures |ds| > 0 && AllDigits(ds)
    ensures ds[0] == '0' <==> n == 0
  {
    if n < 10 then [DigitChar(n)] else NatToDigits(n / 10) + [DigitChar(n % 10)]
  }

  /** The number a string of decimal digits denotes. */
  function DigitsValue(ds: string): nat
    requires AllDigits(ds)
  {
    if ds == [] then 0
    else DigitsValue(ds[..|ds| - 1]) * 10 + (ds[|ds| - 1] as int - '0' as int)
  }

  /** `String(i)` and `JSON.stringify(i)` for an integer `i`. */
  function IntToText(i: int): (t: string)
    ensures |t| > 0 && t[0] != '"'
  {
    if i < 0 then "-" + NatToDigits(-i) else NatToDigits(i)
  }

  /** The length of the run of digits that starts `t`. */
  function DigitSpan(t: string): (k: nat)
    ensures k <= |t| && AllDigits(t[..k])
    ensures k < |t| ==> !IsDigit(t[k])
  {
    if |t| > 0 && IsDigit(t[0]) then
      var k := 1 + DigitSpan(t[1..]);
      assert t[..k] == [t[0]] + t[1..][..k - 1];
      k
    else 0
  }

  /** A run of digits that starts with `0` and goes on: JSON's grammar has no such number. */
  predicate LeadingZero(ds: string) {
    |ds| > 1 && ds[0] == '0' && IsDigit(ds[1])
  }

  /**
   * Reads an optionally negative decimal integer from the front of `t`, as
   * JSON's grammar writes one; gives it and the rest.
   */
  function ParseInt(t: string): (r: Option<(int, string)>)
    ensures LeadingZero(t) || (|t| > 0 && t[0] == '-' && LeadingZero(t[1..])) ==> r == None
    ensures r.Some? ==> r.value.1 == [] || !IsDigit(r.value.1[0])
  {
    if |t| > 0 && t[0] == '-' then
      var k := DigitSpan(t[1..]);
      var v: int := DigitsValue(t[1..][..k]);
      if k == 0 || LeadingZero(t[1..]) then None else Some((-v, t[1..][k..]))
    else
      var k := DigitSpan(t);
      var v: int := DigitsValue(t[..k]);
      if k == 0 || LeadingZero(t) then None else Some((v, t[k..]))
  }

  lemma {:induction false} DigitsRoundTrip(n: nat)
    ensures DigitsValue(NatToDigits(n)) == n
  {
    if n >= 10 {
      var ds := NatToDigits(n);
      assert ds[..|ds| - 1] == NatToDigits(n / 10);
      DigitsRoundTrip(n / 10);
    }
  }

  /** The digit run of `ds + rest` is exactly `ds` when `rest` does not start with a digit. */
  lemma DigitSpanOf(ds: string, rest: string)
    requires AllDigits(ds)
    requires rest == [] || !IsDigit(rest[0])
    ensures DigitSpan(ds + rest) == |ds|
    ensures (ds + rest)[..|ds|] == ds && (ds + rest)[|ds|..] == rest
  {
    var body := ds + rest;
    assert forall j :: 0 <= j < |ds| ==> body[j] == ds[j];
    assert |rest| > 0 ==> body[|ds|] == rest[0];
  }

  /** Reading back the decimal text of `i` gives `i`, as long as no digit follows it. */
  lemma IntRoundTrip(i: int, rest: string)
    requires rest == [] || !IsDigit(rest[0])
    ensures ParseInt(IntToText(i) + rest) == Some((i, rest))
  {
    var m: nat := if i < 0 then -i else i;
    var ds := NatToDigits(m);
    DigitsRoundTrip(m);
    DigitSpanOf(ds, rest);
    if i < 0 {
      var t := IntToText(i) + rest;
      assert t == "-" + (ds + rest);
      assert t[0] == '-' && t[1..] == ds + rest;
    } else {
      assert IntToText(i) + rest == ds + rest;
      assert ds[0] != '-';
    }
  }

  // ---------------------------------------------------------------------
  // String literals

  function HexDigit(d: nat): (c: char)
    requires d < 16
  {
    if d < 10 then DigitChar(d) else ('a' as int + d - 10) as char
  }

  function HexValue(c: char): Option<nat>
  {
    if '0' <= c <= '9' then Some(c as int - '0' as int)
    else if 'a' <= c <= 'f' then Some(c as int - 'a' as int + 10)
    else if 'A' <= c <= 'F' then Some(c as int - 'A' as int + 10)
    else None
  }

  /** The code written by four hexadecimal digits. */
  function Hex4Value(t: string): (r: Option<nat>)
    requires |t| == 4
    ensures r.Some? ==> r.value < 0x1_0000
  {
    match (HexValue(t[0]), HexValue(t[1]), HexValue(t[2]), HexValue(t[3]))
    case (Some(a), Some(b), Some(c), Some(d)) =>
      if a < 16 && b < 16 && c < 16 && d < 16 then Some(((a * 16 + b) * 16 + c) * 16 + d) else None
    case _ => None
  }

  /** How `JSON.stringify` writes one character inside a string literal. */
  function EscapeChar(c: char): string
  {
    if c == '"' then "\\\""
    else if c == '\\' then "\\\\"
    else if c == '\U{8}' then "\\b"
    else if c == '\U{C}' then "\\f"
    else if c == '\n' then "\\n"
    else if c == '\r' then "\\r"
    else if c == '\t' then "\\t"
    else if c < ' ' then "\\u00" + [HexDigit(c as int / 16), HexDigit(c as int % 16)]
    else [c]
  }

  function Escape(s: string): string
  {
    if s == [] then [] else EscapeChar(s[0]) + Escape(s[1..])
  }

  /** The string literal `JSON.stringify` writes for `s`. */
  function Quote(s: string): string
  {
    "\"" + Escape(s) + "\""
  }

  /** What the escape `\c` stands for, for the one-letter escapes of JSON. */
  function EscapedChar(c: char): Option<char>
  {
    if c == '"' then Some('"')
    else if c == '\\' then Some('\\')
    else if c == '/' then Some('/')
    else if c == 'b' then Some('\U{8}')
    else if c == 'f' then Some('\U{C}')
    else if c == 'n' then Some('\n')
    else if c == 'r' then Some('\r')
    else if c == 't' then Some('\t')
    else None
  }

  function Cons(c: char, r: Option<(string, string)>): Option<(string, string)>
  {
    match r
    case None => None
    case Some((s, rest)) => Some(([c] + s, rest))
  }

  /**
   * Reads the rest of a string literal whose opening quote has been consumed:
   * gives the characters it denotes and the text after the closing quote.
   * A `\u` escape naming a surrogate code unit is refused.
   */
  function Unquote(t: string): Option<(string, string)>
    decreases |t|
  {
    if t == [] then None
    else if t[0] == '"' then Some(([], t[1..]))
    else if t[0] == '\\' then
      if |t| < 2 then None
      else if t[1] == 'u' then
        if |t| < 6 then None
        else match Hex4Value(t[2..6])
          case None => None
          case Some(v) => if 0xD800 <= v < 0xE000 then None else Cons(v as char, Unquote(t[6..]))
      else match EscapedChar(t[1])
        case None => None
        case Some(c) => Cons(c, Unquote(t[2..]))
    else if t[0] < ' ' then None
    else Cons(t[0], Unquote(t[1..]))
  }

  lemma HexRoundTrip(c: char)
    requires c < ' '
    ensures Hex4Value("00" + [HexDigit(c as int / 16), HexDigit(c as int % 16)]) == Some(c as int)
  {
    var hi, lo := c as int / 16, c as int % 16;
    assert HexValue(HexDigit(hi)) == Some(hi);
    assert HexValue(HexDigit(lo)) == Some(lo);
  }

  /** Reading one escaped character gives back that character. */
  lemma UnquoteEscapeChar(c: char, tail: string)
    ensures Unquote(EscapeChar(c) + tail) == Cons(c, Unquote(tail))
  {
    if c == '"' || c == '\\' || c == '\U{8}' || c == '\U{C}' || c == '\n' || c == '\r' || c == '\t' {
      UnquoteShortEscape(c, tail);
    } else if c < ' ' {
      UnquoteHexEscape(c, tail);
    } else {
      var t := EscapeChar(c) + tail;
      assert t[0] == c && t[1..] == tail;
    }
  }

  lemma UnquoteShortEscape(c: char, tail: string)
    requires c == '"' || c == '\\' || c == '\U{8}' || c == '\U{C}' || c == '\n' || c == '\r' || c == '\t'
    ensures Unquote(EscapeChar(c) + tail) == Cons(c, Unquote(tail))
  {
    var e := EscapeChar(c);
    assert |e| == 2 && e[0] == '\\' && e[1] != 'u' && EscapedChar(e[1]) == Some(c);
    var t := e + tail;
    assert t[0] == '\\' && t[1] == e[1] && t[2..] == tail;
  }

  lemma UnquoteHexEscape(c: char, tail: string)
    requires c < ' ' && c != '\U{8}' && c != '\U{C}' && c != '\n' && c != '\r' && c != '\t'
    ensures Unquote(EscapeChar(c) + tail) == Cons(c, Unquote(tail))
  {
    var t := EscapeChar(c) + tail;
    HexRoundTrip(c);
    assert t[0] == '\\' && t[1] == 'u';
    assert t[2..6] == "00" + [HexDigit(c as int / 16), HexDigit(c as int % 16)];
    assert t[6..] == tail;
  }

  /** Reading back the escaped text of `s` up to its closing quote gives `s` and what follows. */
  lemma {:induction false} UnquoteRoundTrip(s: string, rest: string)
    ensures Unquote(Escape(s) + "\"" + rest) == Some((s, rest))
  {
    if s == [] {
      assert Escape(s) + "\"" + rest == "\"" + rest;
    } else {
      var tail := Escape(s[1..]) + "\"" + rest;
      assert Escape(s) + "\"" + rest == EscapeChar(s[0]) + tail;
      UnquoteRoundTrip(s[1..], rest);
      UnquoteEscapeChar(s[0], tail);
      assert [s[0]] + s[1..] == s;
    }
  }

  /** A character `JSON.stringify` writes as it is: neither a quote, nor a backslash, nor a control character. */
  predicate PlainChar(c: char) {
    c != '"' && c != '\\' && c >= ' '
  }

  lemma {:induction false} EscapePlain(s: string)
    requires forall i :: 0 <= i < |s| ==> PlainChar(s[i])
    ensures Escape(s) == s
  {
    if s != [] {
      EscapePlain(s[1..]);
      assert [s[0]] + s[1..] == s;
    }
  }

  // ---------------------------------------------------------------------
  // Values

  /** The parts joined with commas, as in array and object texts. */
  function Join(parts: seq<string>): string
  {
    if |parts| == 0 then ""
    else if |parts| == 1 then parts[0]
    else parts[0] + "," + Join(parts[1..])
  }

  /** `JSON.stringify(j)`: the compact text of `j`, members in their order. */
  function Stringify(j: Json): (t: string)
    ensures |t| > 0
  {
    match j
    case Null => "null"
    case Bool(b) => if b then "true" else "false"
    case Num(n) => IntToText(n)
    case Str(s) => Quote(s)
    case Arr(items) =>
      "[" + Join(seq(|items|, i requires 0 <= i < |items| => Stringify(items[i]))) + "]"
    case Obj(ms) =>
      "{" + Join(seq(|ms|, i requires 0 <= i < |ms| => Quote(ms[i].0) + ":" + Stringify(ms[i].1))) + "}"
  }

  function MemberText(m: (string, Json)): string
  {
    Quote(m.0) + ":" + Stringify(m.1)
  }

  lemma JoinTwo(x: string, y: string)
    ensures Join([x, y]) == x + "," + y
  {
    assert [x, y][1..] == [y];
  }

  lemma JoinThree(x: string, y: string, z: string)
    ensures Join([x, y, z]) == x + "," + y + "," + z
  {
    assert [x, y, z][1..] == [y, z];
    JoinTwo(y, z);
  }

  lemma StringifyObject1(a: (string, Json))
    ensures Stringify(Obj([a])) == "{" + MemberText(a) + "}"
  {
    var ms := [a];
    var parts := seq(|ms|, i requires 0 <= i < |ms| => Quote(ms[i].0) + ":" + Stringify(ms[i].1));
    assert parts == [MemberText(a)];
  }

  lemma StringifyObject2(a: (string, Json), b: (string, Json))
    ensures Stringify(Obj([a, b])) == "{" + MemberText(a) + "," + MemberText(b) + "}"
  {
    var ms := [a, b];
    var parts := seq(|ms|, i requires 0 <= i < |ms| => Quote(ms[i].0) + ":" + Stringify(ms[i].1));
    assert parts == [MemberText(a), MemberText(b)];
    JoinTwo(MemberText(a), MemberText(b));
  }

  lemma StringifyObject3(a: (string, Json), b: (string, Json), c: (string, Json))
    ensures Stringify(Obj([a, b, c])) == "{" + MemberText(a) + "," + MemberText(b) + "," + MemberText(c) + "}"
  {
    var ms := [a, b, c];
    var parts := seq(|ms|, i requires 0 <= i < |ms| => Quote(ms[i].0) + ":" + Stringify(ms[i].1));
    var x, y, z := MemberText(a), MemberText(b), MemberText(c);
    assert parts == [x, y, z];
    assert Stringify(Obj(ms)) == "{" + Join(parts) + "}";
    JoinThree(x, y, z);
    BracesAround(x, y, z);
  }

  lemma BracesAround(x: string, y: string, z: string)
    ensures "{" + (x + "," + y + "," + z) + "}" == "{" + x + "," + y + "," + z + "}"
  {
  }

  /** No member after the `i`-th has the key `key`. */
  predicate LastWith(ms: seq<(string, Json)>, key: string, i: int)
    requires 0 <= i < |ms|
  {
    ms[i].0 == key && forall j :: i < j < |ms| ==> ms[j].0 != key
  }

  /** The property `key` of an object: the value of its member with that key (the last one, were there two). */
  function Lookup(ms: seq<(string, Json)>, key: string): (r: Option<Json>)
    ensures r.Some? <==> exists i :: 0 <= i < |ms| && ms[i].0 == key
    ensures r.Some? ==> exists i :: 0 <= i < |ms| && ms[i].1 == r.value && LastWith(ms, key, i)
  {
    if ms == [] then None
    else if ms[|ms| - 1].0 == key then Some(ms[|ms| - 1].1)
    else
      var r := Lookup(ms[..|ms| - 1], key);
      assert forall i :: 0 <= i < |ms| - 1 ==> ms[..|ms| - 1][i] == ms[i];
      assert r.Some? ==> exists i :: 0 <= i < |ms| && ms[i].1 == r.value && LastWith(ms, key, i) by {
        if r.Some? {
          var i :| 0 <= i < |ms| - 1 && ms[..|ms| - 1][i].1 == r.value && LastWith(ms[..|ms| - 1], key, i);
          assert LastWith(ms, key, i);
        }
      }
      r
  }

  lemma LookupLast(ms: seq<(string, Json)>, key: string, v: Json)
    ensures Lookup(ms + [(key, v)], key) == Some(v)
  {
  }

  lemma LookupEarlier(ms: seq<(string, Json)>, m: (string, Json), key: string)
    requires m.0 != key
    ensures Lookup(ms + [m], key) == Lookup(ms, key)
  {
    assert (ms + [m])[..|ms|] == ms;
  }

  /** `data?.key` when it is a string, and "" (falsy) when `data` is not an object, lacks `key` or holds something else there. */
  function TextField(data: Json, key: string): (r: string)
    ensures r != "" ==> data.Obj? && Lookup(data.members, key) == Some(Str(r))
    ensures data.Obj? && Lookup(data.members, key).Some? && Lookup(data.members, key).value.Str? ==> r == Lookup(data.members, key).value.s
  {
    if data.Obj? then
      match Lookup(data.members, key)
      case Some(Str(s)) => s
      case _ => ""
    else ""
  }
}
