/** Percent-encoding as `urllib.parse.quote` (default `safe='/'`) does it, and
    `urllib.parse.unquote` as it does it over ASCII text. */
module Percent {

  predicate IsHexDigit(c: char) {
    '0' <= c <= '9' || 'a' <= c <= 'f' || 'A' <= c <= 'F'
  }

  function HexValue(c: char): (v: nat)
    requires IsHexDigit(c)
    ensures v < 16
  {
    if '0' <= c <= '9' then c as nat - '0' as nat
    else if 'a' <= c <= 'f' then c as nat - 'a' as nat + 10
    else c as nat - 'A' as nat + 10
  }

  /** The characters `quote` never escapes: ASCII letters, digits, `_.-~`, and the
      default extra safe character `/`. */
  predicate QuoteSafe(c: char) {
    'A' <= c <= 'Z' || 'a' <= c <= 'z' || '0' <= c <= '9'
    || c == '_' || c == '.' || c == '-' || c == '~' || c == '/'
  }

  /** The UTF-8 bytes of a character, which `quote` escapes one by one. */
  function Utf8(c: char): (bytes: seq<nat>)
    ensures 1 <= |bytes| <= 4
    ensures forall k :: 0 <= k < |bytes| ==> bytes[k] < 256
    ensures (c as nat < 0x80) == (bytes == [c as nat])
  {
    var n := c as nat;
    if n < 0x80 then [n]
    else if n < 0x800 then [0xC0 + n / 0x40, 0x80 + n % 0x40]
    else if n < 0x1_0000 then [0xE0 + n / 0x1000, 0x80 + n / 0x40 % 0x40, 0x80 + n % 0x40]
    else [0xF0 + n / 0x4_0000, 0x80 + n / 0x1000 % 0x40, 0x80 + n / 0x40 % 0x40, 0x80 + n % 0x40]
  }

  /** The upper-case hex digit for `d`. */
  function HexDigit(d: nat): (c: char)
    requires d < 16
    ensures IsHexDigit(c) && HexValue(c) == d
  {
    if d < 10 then ('0' as nat + d) as char else ('A' as nat + d - 10) as char
  }

  /** `%XY` with upper-case hex digits, as `quote` writes a byte. */
  function Escape(b: nat): (r: string)
    requires b < 256
    ensures |r| == 3 && r[0] == '%' && IsHexDigit(r[1]) && IsHexDigit(r[2])
    ensures HexValue(r[1]) * 16 + HexValue(r[2]) == b
  {
    ['%', HexDigit(b / 16), HexDigit(b % 16)]
  }

  function EscapeAll(bytes: seq<nat>): string
    requires forall k :: 0 <= k < |bytes| ==> bytes[k] < 256
  {
    if bytes == [] then "" else Escape(bytes[0]) + EscapeAll(bytes[1..])
  }

  function QuoteChar(c: char): string {
    if QuoteSafe(c) then [c] else EscapeAll(Utf8(c))
  }

  /** `urllib.parse.quote(s)`. */
  function Quote(s: string): string
    decreases |s|
  {
    if s == [] then "" else QuoteChar(s[0]) + Quote(s[1..])
  }

  /** `urllib.parse.unquote(s)`: every `%` followed by two hex digits becomes the
      character with that code; anything else is copied. */
  function Unquote(s: string): string
    decreases |s|
  {
    if s == [] then ""
    else if |s| >= 3 && s[0] == '%' && IsHexDigit(s[1]) && IsHexDigit(s[2]) then
      [(HexValue(s[1]) * 16 + HexValue(s[2])) as char] + Unquote(s[3..])
    else [s[0]] + Unquote(s[1..])
  }

  predicate IsAscii(s: string) {
    forall k :: 0 <= k < |s| ==> s[k] < 128 as char
  }

  /** What `quote` may emit: safe characters, `%`, and hex digits. */
  predicate QuotedChar(c: char) {
    QuoteSafe(c) || c == '%' || IsHexDigit(c)
  }

  lemma {:induction false} EscapeAllAlphabet(bytes: seq<nat>)
    requires forall k :: 0 <= k < |bytes| ==> bytes[k] < 256
    ensures forall c :: c in EscapeAll(bytes) ==> QuotedChar(c)
    decreases |bytes|
  {
    if bytes != [] {
      EscapeAllAlphabet(bytes[1..]);
    }
  }

  /** Everything `quote` emits is a safe character, `%` or a hex digit; in
      particular it never emits the `&` and `=` that structure a query string. */
  lemma {:induction false} QuoteAlphabet(s: string)
    ensures forall c :: c in Quote(s) ==> QuotedChar(c)
    ensures '&' !in Quote(s) && '=' !in Quote(s)
    decreases |s|
  {
    if s != [] {
      QuoteAlphabet(s[1..]);
      if !QuoteSafe(s[0]) {
        EscapeAllAlphabet(Utf8(s[0]));
      }
      assert Quote(s) == QuoteChar(s[0]) + Quote(s[1..]);
    }
  }

  /** A string made only of safe characters is left as it is by `quote`. */
  lemma {:induction false} QuoteSafeIdentity(s: string)
    requires forall k :: 0 <= k < |s| ==> QuoteSafe(s[k])
    ensures Quote(s) == s
    decreases |s|
  {
    if s != [] {
      QuoteSafeIdentity(s[1..]);
    }
  }

  /** `unquote` undoes `quote` on ASCII text. */
  lemma {:induction false} UnquoteQuote(s: string)
    requires IsAscii(s)
    ensures Unquote(Quote(s)) == s
    decreases |s|
  {
    if s != [] {
      var c, rest := s[0], s[1..];
      assert IsAscii(rest);
      UnquoteQuote(rest);
      var q := Quote(rest);
      assert Quote(s) == QuoteChar(c) + q;
      if QuoteSafe(c) {
        assert Unquote([c] + q) == [c] + Unquote(q);
      } else {
        var e := Escape(c as nat);
        assert QuoteChar(c) == e by {
          assert Utf8(c) == [c as nat];
          assert EscapeAll([c as nat]) == e + EscapeAll([]);
        }
        assert (e + q)[3..] == q;
        assert Unquote(e + q) == [c] + Unquote(q);
      }
    }
  }

  /** `quote` emits ASCII only, so its output can be quoted and unquoted again
      without leaving the range where `unquote` undoes `quote`. */
  lemma QuoteAscii(s: string)
    ensures IsAscii(Quote(s))
  {
    QuoteAlphabet(s);
    var q := Quote(s);
    forall k | 0 <= k < |q|
      ensures q[k] < 128 as char
    {
      assert q[k] in q;
    }
  }
}
