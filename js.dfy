/**
  The pieces of JavaScript semantics the TypeScript sources lean on:
  truthiness and `||` on values that are strings or `undefined`, `parseInt`
  without a radix (section 19.2.5 of ECMA-262), and the string quoting of
  `JSON.stringify` (QuoteJSONString, section 25.5.2.3 of ECMA-262).
 */
module Js {
  import opened Common
  import Decimal

  /** A string-or-undefined value is truthy when it is a non-empty string. */
  predicate Truthy(v: Option<string>) {
    v.Some? && v.value != ""
  }

  /** JavaScript `a || b` on strings-or-undefined: `a` if truthy, otherwise `b` whatever it is. */
  function Or(a: Option<string>, b: Option<string>): (r: Option<string>)
    ensures Truthy(a) ==> r == a
    ensures !Truthy(a) ==> r == b
    ensures Truthy(r) <==> Truthy(a) || Truthy(b)
  {
    if Truthy(a) then a else b
  }

  /** JavaScript `a || d` with a string default `d`. */
  function OrElse(a: Option<string>, d: string): (r: string)
    ensures Truthy(a) ==> r == a.value
    ensures !Truthy(a) ==> r == d
  {
    if Truthy(a) then a.value else d
  }

  // ---------------------------------------------------------------------------
  // parseInt

  /** StrWhiteSpaceChar: WhiteSpace and LineTerminator code points. */
  predicate IsWhiteSpace(c: char) {
    var n := c as int;
    n == 0x09 || n == 0x0B || n == 0x0C || n == 0x20 || n == 0xA0 || n == 0xFEFF
    || n == 0x0A || n == 0x0D || n == 0x2028 || n == 0x2029
    || n == 0x1680 || (0x2000 <= n <= 0x200A) || n == 0x202F || n == 0x205F || n == 0x3000
  }

  /** The string with its leading white space removed. */
  function TrimStart(s: string): (r: string)
    ensures EndsWith(s, r)
    ensures r == [] || !IsWhiteSpace(r[0])
    ensures forall i :: 0 <= i < |s| - |r| ==> IsWhiteSpace(s[i])
  {
    if s != [] && IsWhiteSpace(s[0]) then
      var r := TrimStart(s[1..]);
      assert s[|s| - |r|..] == s[1..][|s[1..]| - |r|..];
      r
    else s
  }

  predicate IsHexDigit(c: char) {
    Decimal.IsDigit(c) || 'a' <= c <= 'f' || 'A' <= c <= 'F'
  }

  function HexDigitValue(c: char): (d: nat)
    requires IsHexDigit(c)
    ensures d < 16
  {
    if Decimal.IsDigit(c) then c as int - '0' as int
    else if 'a' <= c <= 'f' then c as int - 'a' as int + 10
    else c as int - 'A' as int + 10
  }

  predicate AllHex(s: string) {
    forall i :: 0 <= i < |s| ==> IsHexDigit(s[i])
  }

  function HexValue(s: string): nat
    requires AllHex(s)
    decreases |s|
  {
    if s == [] then 0 else HexValue(s[..|s| - 1]) * 16 + HexDigitValue(s[|s| - 1])
  }

  /** The longest prefix of `s` made of decimal digits. */
  function DigitPrefix(s: string): (p: string)
    ensures Decimal.AllDigits(p) && StartsWith(s, p)
    ensures |p| < |s| ==> !Decimal.IsDigit(s[|p|])
  {
    if s == [] || !Decimal.IsDigit(s[0]) then [] else [s[0]] + DigitPrefix(s[1..])
  }

  /** The longest prefix of `s` made of hexadecimal digits. */
  function HexPrefix(s: string): (p: string)
    ensures AllHex(p) && StartsWith(s, p)
    ensures |p| < |s| ==> !IsHexDigit(s[|p|])
  {
    if s == [] || !IsHexDigit(s[0]) then [] else [s[0]] + HexPrefix(s[1..])
  }

  /** The digits after the sign: base 16 after "0x"/"0X", base 10 otherwise; `None` when there are none. */
  function ParseUnsigned(u: string): Option<nat> {
    if |u| >= 2 && u[0] == '0' && (u[1] == 'x' || u[1] == 'X') then
      var h := HexPrefix(u[2..]);
      if h == [] then None else Some(HexValue(h))
    else
      var d := DigitPrefix(u);
      if d == [] then None else Some(Decimal.DigitsValue(d))
  }

  function Signed(negative: bool, r: Option<nat>): Option<int> {
    if r.None? then None else if negative then Some(-(r.value as int)) else Some(r.value as int)
  }

  /**
    `parseInt(s)` with no radix; `None` stands for NaN. Leading white space and
    one sign are skipped, a "0x"/"0X" prefix selects base 16, and the longest
    run of digits that follows is read; trailing text is ignored.
   */
  function ParseInt(s: string): Option<int> {
    var t := TrimStart(s);
    if t != [] && t[0] == '-' then Signed(true, ParseUnsigned(t[1..]))
    else if t != [] && t[0] == '+' then Signed(false, ParseUnsigned(t[1..]))
    else Signed(false, ParseUnsigned(t))
  }

  lemma {:induction false} DigitPrefixOfDigits(d: string, rest: string)
    requires Decimal.AllDigits(d)
    requires rest == [] || !Decimal.IsDigit(rest[0])
    ensures DigitPrefix(d + rest) == d
    decreases |d|
  {
    if d == [] {
      assert d + rest == rest;
    } else {
      assert (d + rest)[1..] == d[1..] + rest;
      DigitPrefixOfDigits(d[1..], rest);
    }
  }

  lemma ParseUnsignedOfNatToString(m: nat, rest: string)
    requires rest == [] || !Decimal.IsDigit(rest[0])
    requires m == 0 ==> rest == [] || (rest[0] != 'x' && rest[0] != 'X')
    ensures ParseUnsigned(Decimal.NatToString(m) + rest) == Some(m)
  {
    var digits := Decimal.NatToString(m);
    var u := digits + rest;
    assert u[0] == digits[0];
    if m == 0 {
      assert digits == "0";
      if |u| >= 2 { assert u[1] == rest[0]; }
    }
    DigitPrefixOfDigits(digits, rest);
    Decimal.NatToStringRoundTrip(m);
  }

  /** Text that starts with a sign or a digit has no white space to trim. */
  lemma NoLeadingWhiteSpace(s: string)
    requires s != [] && (s[0] == '-' || Decimal.IsDigit(s[0]))
    ensures TrimStart(s) == s
  {
    assert !IsWhiteSpace(s[0]);
  }

  /**
    `parseInt` reads back the decimal text of any integer, whatever non-digit
    text follows it (except "x" right after a lone "0", which selects base 16).
   */
  lemma ParseIntOfIntToString(n: int, rest: string)
    requires rest == [] || !Decimal.IsDigit(rest[0])
    requires n == 0 ==> rest == [] || (rest[0] != 'x' && rest[0] != 'X')
    ensures ParseInt(Decimal.IntToString(n) + rest) == Some(n)
  {
    var s := Decimal.IntToString(n) + rest;
    assert s[0] == Decimal.IntToString(n)[0];
    NoLeadingWhiteSpace(s);
    if n < 0 {
      assert s[1..] == Decimal.NatToString(-n) + rest;
      ParseUnsignedOfNatToString(-n, rest);
      assert ParseInt(s) == Signed(true, ParseUnsigned(s[1..]));
    } else {
      ParseUnsignedOfNatToString(n, rest);
      assert ParseInt(s) == Signed(false, ParseUnsigned(s));
    }
  }

  /** Text whose first visible character is neither a sign nor a digit parses to NaN. */
  lemma ParseIntNaN(s: string)
    requires var t := TrimStart(s); t == [] || (!Decimal.IsDigit(t[0]) && t[0] != '-' && t[0] != '+')
    ensures ParseInt(s) == None
  {
  }

  // ---------------------------------------------------------------------------
  // JSON string quoting

  function HexLower(d: nat): (c: char)
    requires d < 16
    ensures IsHexDigit(c) && HexDigitValue(c) == d
  {
    if d < 10 then Decimal.DigitChar(d) else (d - 10 + 'a' as int) as char
  }

  /** The escape QuoteJSONString writes for one code point. */
  function EscapeChar(c: char): (e: string)
    ensures |e| > 0
  {
    var n := c as int;
    if c == '"' then "\\\""
    else if c == '\\' then "\\\\"
    else if n == 0x08 then "\\b"
    else if n == 0x0C then "\\f"
    else if c == '\n' then "\\n"
    else if c == '\r' then "\\r"
    else if c == '\t' then "\\t"
    else if n < 0x20 then "\\u00" + [HexLower(n / 16), HexLower(n % 16)]
    else [c]
  }

  function Escape(s: string): string {
    if s == [] then [] else EscapeChar(s[0]) + Escape(s[1..])
  }

  /** `JSON.stringify` of a string. */
  function JsonQuote(s: string): (q: string)
    ensures |q| >= 2 && q[0] == '"' && q[|q| - 1] == '"'
  {
    "\"" + Escape(s) + "\""
  }

  function Prepend(c: char, r: Option<string>): Option<string> {
    if r.Some? then Some([c] + r.value) else None
  }

  /** The characters a JSON string body denotes, as a JSON parser reads it; `None` if malformed. */
  function Unescape(t: string): Option<string>
    decreases |t|
  {
    if t == [] then Some([])
    else if t[0] == '\\' then
      if |t| < 2 then None
      else if t[1] == 'u' then
        if |t| < 6 || !AllHex(t[2..6]) then None
        else
          var v := HexValue(t[2..6]);
          if 0xD800 <= v < 0xE000 || v >= 0x11_0000 then None else Prepend(v as char, Unescape(t[6..]))
      else if t[1] == '"' || t[1] == '\\' || t[1] == '/' then Prepend(t[1], Unescape(t[2..]))
      else if t[1] == 'b' then Prepend(8 as char, Unescape(t[2..]))
      else if t[1] == 'f' then Prepend(12 as char, Unescape(t[2..]))
      else if t[1] == 'n' then Prepend('\n', Unescape(t[2..]))
      else if t[1] == 'r' then Prepend('\r', Unescape(t[2..]))
      else if t[1] == 't' then Prepend('\t', Unescape(t[2..]))
      else None
    else if t[0] == '"' || t[0] as int < 0x20 then None
    else Prepend(t[0], Unescape(t[1..]))
  }

  /** Reading a quoted JSON string back: strip the quotes, then unescape. */
  function JsonUnquote(q: string): Option<string> {
    if |q| >= 2 && q[0] == '"' && q[|q| - 1] == '"' then Unescape(q[1..|q| - 1]) else None
  }

  lemma UnescapeEscapeChar(c: char, rest: string)
    ensures Unescape(EscapeChar(c) + rest) == Prepend(c, Unescape(rest))
  {
    var n := c as int;
    var t := EscapeChar(c) + rest;
    if c == '"' || c == '\\' || n == 0x08 || n == 0x0C || c == '\n' || c == '\r' || c == '\t' {
      assert t[2..] == rest;
    } else if n < 0x20 {
      var h := [HexLower(n / 16), HexLower(n % 16)];
      assert t == "\\u00" + h + rest;
      assert t[2..6] == "00" + h;
      assert t[6..] == rest;
      var w := t[2..6];
      assert AllHex(w);
      assert w[..3][..2] == "00";
      assert HexValue("00") == 0;
      assert HexValue(w[..3]) == HexDigitValue(h[0]);
      assert HexValue(w) == n;
    } else {
      assert t[1..] == rest;
    }
  }

  lemma {:induction false} UnescapeEscape(s: string)
    ensures Unescape(Escape(s)) == Some(s)
    decreases |s|
  {
    if s != [] {
      UnescapeEscapeChar(s[0], Escape(s[1..]));
      UnescapeEscape(s[1..]);
      assert [s[0]] + s[1..] == s;
    }
  }

  /** `JSON.stringify` of a string reads back as that string. */
  lemma JsonQuoteRoundTrip(s: string)
    ensures JsonUnquote(JsonQuote(s)) == Some(s)
  {
    var q := JsonQuote(s);
    assert q[1..|q| - 1] == Escape(s);
    UnescapeEscape(s);
  }
}
