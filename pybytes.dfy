/**
 * Python `bytes` values and the two ways the client could turn the body of an
 * HTTP error into text: `str(b)`, which gives the printable representation
 * `b'...'`, and decoding, which gives the text itself.
 */
module PyBytes {

  type byte = x: int | 0 <= x < 256

  /** A lower-case hexadecimal digit, as in the `\xhh` escapes of `repr`. */
  function HexDigit(n: int): (c: char)
    requires 0 <= n < 16
    ensures '0' <= c <= '9' || 'a' <= c <= 'f'
  {
    if n < 10 then ('0' as int + n) as char else ('a' as int + n - 10) as char
  }

  /** The quote `repr` puts around the bytes: `"` only when they hold a `'` and no `"`. */
  function ReprQuote(b: seq<byte>): (q: byte)
    ensures q == '\'' as int || q == '"' as int
  {
    if '\'' as int in b && '"' as int !in b then '"' as int else '\'' as int
  }

  /** How `repr` writes one byte between the given quotes. */
  function EscapeByte(c: byte, quote: byte): (s: string)
    ensures 1 <= |s| <= 4
    ensures |s| == 1 <==> (c != quote && c != '\\' as int && 0x20 <= c < 0x7f)
  {
    if c == quote || c == '\\' as int then ['\\', c as char]
    else if c == '\t' as int then "\\t"
    else if c == '\n' as int then "\\n"
    else if c == '\r' as int then "\\r"
    else if c < 0x20 || c >= 0x7f then ['\\', 'x', HexDigit(c / 16), HexDigit(c % 16)]
    else [c as char]
  }

  function EscapeAll(b: seq<byte>, quote: byte): (s: string)
    ensures |s| >= |b|
  {
    if b == [] then [] else EscapeByte(b[0], quote) + EscapeAll(b[1..], quote)
  }

  /** `str(b)` for a `bytes` value `b`: CPython's `bytes.__repr__`. */
  function BytesRepr(b: seq<byte>): (s: string)
    ensures |s| >= |b| + 3
    ensures s[0] == 'b' && s[1] == s[|s| - 1] && (s[1] == '\'' || s[1] == '"')
  {
    var q := ReprQuote(b);
    ['b', q as char] + EscapeAll(b, q) + [q as char]
  }

  /** The text of `b`, one character per byte (UTF-8 decoding agrees on ASCII bytes). */
  function DecodeText(b: seq<byte>): (s: string)
    ensures |s| == |b|
    ensures forall i :: 0 <= i < |b| ==> s[i] as int == b[i]
  {
    seq(|b|, i requires 0 <= i < |b| => b[i] as char)
  }

  /** The bytes of a text whose characters are all below 256. */
  function EncodeText(s: string): (b: seq<byte>)
    requires forall i :: 0 <= i < |s| ==> s[i] as int < 256
    ensures |b| == |s|
  {
    if s == [] then [] else [s[0] as int] + EncodeText(s[1..])
  }

  /** Decoding loses nothing: the text gives back exactly the bytes. */
  lemma {:induction false} DecodeTextRoundTrip(b: seq<byte>)
    ensures forall i :: 0 <= i < |DecodeText(b)| ==> DecodeText(b)[i] as int < 256
    ensures EncodeText(DecodeText(b)) == b
  {
    if b != [] {
      DecodeTextRoundTrip(b[1..]);
      assert DecodeText(b)[1..] == DecodeText(b[1..]);
    }
  }

  /** Printable ASCII other than the quote `'` and the backslash: the bytes `repr` writes as themselves. */
  predicate PlainAscii(b: seq<byte>)
  {
    forall i :: 0 <= i < |b| ==> 0x20 <= b[i] < 0x7f && b[i] != '\'' as int && b[i] != '\\' as int
  }

  /** Between single quotes, plain ASCII bytes are written as their own characters. */
  lemma {:induction false} EscapeAllPlain(b: seq<byte>)
    requires PlainAscii(b)
    ensures EscapeAll(b, '\'' as int) == DecodeText(b)
  {
    if b != [] {
      EscapeAllPlain(b[1..]);
      assert DecodeText(b) == [b[0] as char] + DecodeText(b[1..]);
    }
  }

  /** `str(b)` of a plain ASCII body is the body's text wrapped in `b'` and `'`. */
  lemma BytesReprPlain(b: seq<byte>)
    requires PlainAscii(b)
    ensures BytesRepr(b) == "b'" + DecodeText(b) + "'"
  {
    EscapeAllPlain(b);
    assert '\'' as int !in b by {
      forall i | 0 <= i < |b| ensures b[i] != '\'' as int {
      }
    }
  }

  /** A concrete case: the JSON body `{}` is surfaced as `b'{}'`, not as `{}`. */
  lemma ReprOfEmptyObject()
    ensures DecodeText(['{' as int, '}' as int]) == "{}"
    ensures BytesRepr(['{' as int, '}' as int]) == "b'{}'"
  {
    var b: seq<byte> := ['{' as int, '}' as int];
    assert ReprQuote(b) == '\'' as int;
    assert EscapeAll(b[1..][1..], '\'' as int) == [];
    assert EscapeAll(b, '\'' as int) == "{}";
  }
}
