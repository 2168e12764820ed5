/** `urllib.parse.quote_plus`, through which the ODBC connection string of
    `analytics/sql_to_adls_bis.py` reaches the SQLAlchemy URL, and the
    decoding that reads an ASCII string back out of it. */
module UrlQuote {
  import opened Common

  /** Characters `quote_plus` leaves unchanged: ASCII letters, digits and `_.-~`. */
  predicate Unreserved(c: char) {
    ('A' <= c <= 'Z') || ('a' <= c <= 'z') || ('0' <= c <= '9') || c == '_' || c == '.' || c == '-' || c == '~'
  }

  /** Characters that can appear in quoted text. */
  predicate QuotedChar(c: char) {
    Unreserved(c) || c == '+' || c == '%'
  }

  const HexDigits: string := "0123456789ABCDEF"

  function HexValue(c: char): (r: Option<nat>)
    ensures r.Some? ==> r.value < 16
  {
    if '0' <= c <= '9' then Some((c - '0') as nat)
    else if 'A' <= c <= 'F' then Some((c - 'A') as nat + 10)
    else if 'a' <= c <= 'f' then Some((c - 'a') as nat + 10)
    else None
  }

  lemma HexDigitValue(n: nat)
    requires n < 16
    ensures HexValue(HexDigits[n]) == Some(n)
  {
  }

  /** The UTF-8 encoding of one character, as byte values. */
  function Utf8(c: char): (r: seq<nat>)
    ensures 1 <= |r| <= 4
    ensures forall k :: 0 <= k < |r| ==> r[k] < 256
    ensures c as int < 0x80 <==> r == [c as int]
  {
    var n := c as int;
    if n < 0x80 then [n]
    else if n < 0x800 then [0xC0 + n / 0x40, 0x80 + n % 0x40]
    else if n < 0x1_0000 then [0xE0 + n / 0x1000, 0x80 + (n / 0x40) % 0x40, 0x80 + n % 0x40]
    else [0xF0 + n / 0x4_0000, 0x80 + (n / 0x1000) % 0x40, 0x80 + (n / 0x40) % 0x40, 0x80 + n % 0x40]
  }

  /** `%XY` for one byte, with upper-case hexadecimal digits. */
  function PercentByte(b: nat): (r: string)
    requires b < 256
    ensures |r| == 3 && r[0] == '%'
    ensures HexValue(r[1]).Some? && HexValue(r[2]).Some?
    ensures HexValue(r[1]).value * 16 + HexValue(r[2]).value == b
    ensures forall k :: 0 <= k < |r| ==> QuotedChar(r[k])
  {
    HexDigitValue(b / 16);
    HexDigitValue(b % 16);
    ['%', HexDigits[b / 16], HexDigits[b % 16]]
  }

  function PercentBytes(bs: seq<nat>): (r: string)
    requires forall k :: 0 <= k < |bs| ==> bs[k] < 256
    ensures |r| == 3 * |bs|
    ensures forall k :: 0 <= k < |r| ==> QuotedChar(r[k])
  {
    if bs == [] then [] else PercentByte(bs[0]) + PercentBytes(bs[1..])
  }

  /** One character as `quote_plus` writes it: unreserved characters stay, a
      space becomes `+`, anything else becomes the escapes of its UTF-8 bytes. */
  function QuoteChar(c: char): (r: string)
    ensures r != []
    ensures forall k :: 0 <= k < |r| ==> QuotedChar(r[k])
    ensures Unreserved(c) <==> r == [c]
  {
    if Unreserved(c) then [c]
    else if c == ' ' then "+"
    else PercentBytes(Utf8(c))
  }

  /** `urllib.parse.quote_plus(s)` with the default empty `safe` set. */
  function QuotePlus(s: string): (r: string)
    ensures |r| >= |s|
    ensures forall k :: 0 <= k < |r| ==> QuotedChar(r[k])
  {
    if s == [] then [] else QuoteChar(s[0]) + QuotePlus(s[1..])
  }

  predicate IsAscii(s: string) {
    forall k :: 0 <= k < |s| ==> s[k] as int < 0x80
  }

  function Prepend(c: char, r: Option<string>): (o: Option<string>)
    ensures o.Some? <==> r.Some?
    ensures o.Some? ==> o.value == [c] + r.value
  {
    if r.Some? then Some([c] + r.value) else None
  }

  /** `urllib.parse.unquote_plus(s)` for text whose escapes are ASCII bytes:
      `+` is a space, `%XY` is the byte `XY`, a `%` that starts no escape is
      kept. An escape of a byte of 0x80 or more (part of a multi-byte UTF-8
      character) gives `None`: decoding those is not modelled. */
  function UnquotePlus(s: string): (r: Option<string>)
  {
    if s == [] then Some([])
    else if s[0] == '+' then Prepend(' ', UnquotePlus(s[1..]))
    else if s[0] == '%' && |s| >= 3 && HexValue(s[1]).Some? && HexValue(s[2]).Some? then
      var b := HexValue(s[1]).value * 16 + HexValue(s[2]).value;
      if b < 0x80 then Prepend(b as char, UnquotePlus(s[3..])) else None
    else Prepend(s[0], UnquotePlus(s[1..]))
  }

  lemma UnquoteQuoteChar(c: char, rest: string)
    requires c as int < 0x80
    ensures UnquotePlus(QuoteChar(c) + rest) == Prepend(c, UnquotePlus(rest))
  {
    var q := QuoteChar(c);
    if Unreserved(c) {
      assert (q + rest)[1..] == rest;
    } else if c == ' ' {
      assert (q + rest)[1..] == rest;
    } else {
      assert Utf8(c) == [c as int];
      assert q == PercentByte(c as int) + [];
      assert (q + rest)[..3] == q && (q + rest)[3..] == rest;
    }
  }

  /** Quoting an ASCII string and unquoting the result gives the string back. */
  lemma {:induction false} QuotePlusRoundTrip(s: string)
    requires IsAscii(s)
    ensures UnquotePlus(QuotePlus(s)) == Some(s)
  {
    if s != [] {
      assert IsAscii(s[1..]) by {
        forall k | 0 <= k < |s[1..]| ensures s[1..][k] as int < 0x80 {
          assert s[1..][k] == s[k + 1];
        }
      }
      QuotePlusRoundTrip(s[1..]);
      UnquoteQuoteChar(s[0], QuotePlus(s[1..]));
      HeadTail(s);
    }
  }

  /** Quoted text holds none of the characters that delimit an ODBC string
      or a URL query, so it is always a single query parameter value. */
  lemma QuotedHasNoDelimiters(s: string)
    ensures ';' !in QuotePlus(s) && '=' !in QuotePlus(s) && '&' !in QuotePlus(s)
    ensures '{' !in QuotePlus(s) && '}' !in QuotePlus(s) && ' ' !in QuotePlus(s)
  {
    var r := QuotePlus(s);
    forall k | 0 <= k < |r|
      ensures r[k] != ';' && r[k] != '=' && r[k] != '&' && r[k] != '{' && r[k] != '}' && r[k] != ' '
    {
      assert QuotedChar(r[k]);
    }
  }
}
