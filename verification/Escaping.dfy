/** The text of a JSON string literal between its quotes, as Go's encoder writes it. */
module Escaping {

  function HexDigit(n: nat): char
    requires n < 16
  {
    if n < 10 then (48 + n) as char else (87 + n) as char
  }

  function Hex4(n: nat): (s: string)
    requires n < 0x10000
    ensures |s| == 4
  {
    [HexDigit(n / 4096), HexDigit(n / 256 % 16), HexDigit(n / 16 % 16), HexDigit(n % 16)]
  }

  predicate NeedsHex(c: char) {
    c < ' ' || c == '<' || c == '>' || c == '&' || c == '\U{2028}' || c == '\U{2029}'
  }

  /** The letter after the backslash for the characters that have one. */
  function ShortEscape(c: char): (letter: string)
    ensures |letter| <= 1
  {
    if c == '"' then "\""
    else if c == '\\' then "\\"
    else if c == '\n' then "n"
    else if c == '\r' then "r"
    else if c == '\t' then "t"
    else if c == '\U{8}' then "b"
    else if c == '\U{c}' then "f"
    else ""
  }

  function EscapeChar(c: char): (s: string)
    ensures s != ""
  {
    if ShortEscape(c) != "" then "\\" + ShortEscape(c)
    else if NeedsHex(c) then "\\u" + Hex4(c as int)
    else [c]
  }

  function Escape(s: string): (escaped: string)
    ensures |escaped| >= |s|
  {
    if s == "" then "" else EscapeChar(s[0]) + Escape(s[1..])
  }

  lemma HexIsInjective(a: nat, b: nat)
    requires a < 0x10000 && b < 0x10000 && Hex4(a) == Hex4(b)
    ensures a == b
  {
    var s, t := Hex4(a), Hex4(b);
    assert s[0] == t[0] && s[1] == t[1] && s[2] == t[2] && s[3] == t[3];
    DigitsDetermine(a);
    DigitsDetermine(b);
  }

  lemma DigitsDetermine(n: nat)
    requires n < 0x10000
    ensures n == n / 4096 * 4096 + n / 256 % 16 * 256 + n / 16 % 16 * 16 + n % 16
  {
    assert n / 16 / 16 == n / 256 && n / 256 / 16 == n / 4096;
  }

  /** No character's escape is the beginning of another's. */
  lemma EscapeCharIsPrefixFree(a: char, b: char, u: string, v: string)
    requires EscapeChar(a) + u == EscapeChar(b) + v
    ensures a == b && u == v
  {
    var whole := EscapeChar(a) + u;
    assert whole[0] == EscapeChar(a)[0] == EscapeChar(b)[0];
    if whole[0] == '\\' {
      assert whole[1] == EscapeChar(a)[1] == EscapeChar(b)[1];
      if whole[1] == 'u' {
        assert EscapeChar(a) == whole[..6] == EscapeChar(b);
        assert Hex4(a as int) == EscapeChar(a)[2..] == Hex4(b as int);
        HexIsInjective(a as int, b as int);
      }
    }
    assert u == whole[|EscapeChar(a)|..] && v == whole[|EscapeChar(b)|..];
  }

  lemma {:induction false} EscapeIsInjective(a: string, b: string)
    requires Escape(a) == Escape(b)
    ensures a == b
  {
    if a != "" && b != "" {
      EscapeCharIsPrefixFree(a[0], b[0], Escape(a[1..]), Escape(b[1..]));
      EscapeIsInjective(a[1..], b[1..]);
      assert a == [a[0]] + a[1..] && b == [b[0]] + b[1..];
    }
  }

  /** A quote inside a literal always stands behind a backslash. */
  lemma {:induction false} QuotesAreEscaped(s: string, i: nat)
    requires i < |Escape(s)| && Escape(s)[i] == '"'
    ensures i > 0 && Escape(s)[i - 1] == '\\'
  {
    var first := EscapeChar(s[0]);
    if i >= |first| {
      QuotesAreEscaped(s[1..], i - |first|);
    }
  }

  /** One literal can begin another only at the end of one of its characters. */
  lemma {:induction false} EscapedPrefix(a: string, b: string, rest: string)
    requires Escape(b) == Escape(a) + rest
    ensures |a| <= |b| && b[..|a|] == a && rest == Escape(b[|a|..])
  {
    if a == "" {
      assert b[0..] == b;
    } else {
      var later := Escape(a[1..]) + rest;
      assert Escape(b) == EscapeChar(a[0]) + later;
      assert b != "";
      EscapeCharIsPrefixFree(a[0], b[0], later, Escape(b[1..]));
      EscapedPrefix(a[1..], b[1..], rest);
      SuffixOfTail(b, |a|);
    }
  }

  lemma {:induction false} EscapeOfConcat(a: string, b: string)
    ensures Escape(a + b) == Escape(a) + Escape(b)
  {
    if a == "" {
      assert a + b == b && Escape(a) == "";
    } else {
      EscapeOfConcat(a[1..], b);
      assert (a + b)[0] == a[0] && (a + b)[1..] == a[1..] + b;
      Regroup(EscapeChar(a[0]), Escape(a[1..]), Escape(b));
    }
  }

  lemma Regroup(a: string, b: string, c: string)
    ensures a + b + c == a + (b + c)
  {
  }

  lemma SuffixOfTail(b: string, n: nat)
    requires 0 < n <= |b|
    ensures b[1..][n - 1..] == b[n..] && b[..n] == [b[0]] + b[1..][..n - 1]
  {
  }

  /* ---- what is written ---- */

  lemma OrdinaryCharacter(c: char)
    requires c >= ' ' && c !in "\"\\<>&\U{2028}\U{2029}"
    ensures EscapeChar(c) == [c]
  {
    assert ShortEscape(c) == "";
  }

  lemma BackslashLetter()
    ensures EscapeChar('"') == "\\\"" && EscapeChar('\\') == "\\\\"
    ensures EscapeChar('\n') == "\\n" && EscapeChar('\r') == "\\r" && EscapeChar('\t') == "\\t"
    ensures EscapeChar('\U{8}') == "\\b" && EscapeChar('\U{c}') == "\\f"
  {
  }

  lemma HexDigits(n: nat)
    requires n < 16
    ensures HexDigit(n) == "0123456789abcdef"[n]
  {
  }

  lemma DigitsOf(a: nat, b: nat, c: nat, d: nat, n: nat)
    requires a < 16 && b < 16 && c < 16 && d < 16 && n == a * 4096 + b * 256 + c * 16 + d
    ensures n < 0x10000 && n / 4096 == a && n / 256 % 16 == b && n / 16 % 16 == c && n % 16 == d
  {
    assert n / 256 == a * 16 + b && n / 16 == a * 256 + b * 16 + c;
  }

  lemma FourDigits(a: nat, b: nat, c: nat, d: nat, n: nat)
    requires a < 16 && b < 16 && c < 16 && d < 16 && n == a * 4096 + b * 256 + c * 16 + d
    ensures n < 0x10000 && Hex4(n) == [HexDigit(a), HexDigit(b), HexDigit(c), HexDigit(d)]
  {
    DigitsOf(a, b, c, d, n);
  }

  lemma MarkupCharacter()
    ensures EscapeChar('<') == "\\u003c" && EscapeChar('>') == "\\u003e" && EscapeChar('&') == "\\u0026"
    ensures EscapeChar('\U{2028}') == "\\u2028" && EscapeChar('\U{2029}') == "\\u2029"
  {
    FourDigits(0, 0, 3, 12, 0x3c);
    FourDigits(0, 0, 3, 14, 0x3e);
    FourDigits(0, 0, 2, 6, 0x26);
    FourDigits(2, 0, 2, 8, 0x2028);
    FourDigits(2, 0, 2, 9, 0x2029);
  }

  lemma ControlCharacter(c: char)
    requires c < ' ' && c !in "\n\r\t\U{8}\U{c}"
    ensures EscapeChar(c) == "\\u00" + [if c < '\U{10}' then '0' else '1', "0123456789abcdef"[c as int % 16]]
  {
    assert ShortEscape(c) == "";
    HexDigits(c as int % 16);
    FourDigits(0, 0, c as int / 16, c as int % 16, c as int);
  }

  /** What stands for each character: itself, or the escape that Go's encoder gives it. */
  lemma EscapeTable(c: char)
    ensures c >= ' ' && c !in "\"\\<>&\U{2028}\U{2029}" ==> EscapeChar(c) == [c]
    ensures EscapeChar('"') == "\\\"" && EscapeChar('\\') == "\\\\"
    ensures EscapeChar('<') == "\\u003c" && EscapeChar('>') == "\\u003e" && EscapeChar('&') == "\\u0026"
    ensures EscapeChar('\U{2028}') == "\\u2028" && EscapeChar('\U{2029}') == "\\u2029"
    ensures EscapeChar('\n') == "\\n" && EscapeChar('\r') == "\\r" && EscapeChar('\t') == "\\t"
    ensures EscapeChar('\U{8}') == "\\b" && EscapeChar('\U{c}') == "\\f"
    ensures c < ' ' && c !in "\n\r\t\U{8}\U{c}" ==>
      EscapeChar(c) == "\\u00" + [if c < '\U{10}' then '0' else '1', "0123456789abcdef"[c as int % 16]]
  {
    BackslashLetter();
    MarkupCharacter();
    if c < ' ' && c !in "\n\r\t\U{8}\U{c}" {
      ControlCharacter(c);
    } else if c >= ' ' && c !in "\"\\<>&\U{2028}\U{2029}" {
      OrdinaryCharacter(c);
    }
  }

  /** Text of characters that are written as themselves. */
  predicate PlainText(s: string) {
    forall i :: 0 <= i < |s| ==> s[i] >= ' ' && s[i] !in "\"\\<>&\U{2028}\U{2029}"
  }

  /** Text without special characters is written as it is. */
  lemma {:induction false} PlainTextIsUnchanged(s: string)
    requires PlainText(s)
    ensures Escape(s) == s
  {
    if s != "" {
      OrdinaryCharacter(s[0]);
      PlainTextIsUnchanged(s[1..]);
      assert s == [s[0]] + s[1..];
    }
  }
}
