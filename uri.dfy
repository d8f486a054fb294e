/** `encodeURIComponent` and the inverse used for the redirect target. Characters
    are Unicode scalar values; every other character than the unreserved ones is
    written as the percent-encoded bytes of its UTF-8 form. */
module Uri {

  /** The characters `encodeURIComponent` leaves alone. */
  predicate Unreserved(c: char) {
    ('A' <= c <= 'Z') || ('a' <= c <= 'z') || ('0' <= c <= '9') ||
    c in {'-', '_', '.', '!', '~', '*', '\'', '(', ')'}
  }

  function HexDigit(d: nat): (c: char)
    requires d < 16
    ensures Unreserved(c)
  {
    if d < 10 then ('0' as int + d) as char else ('A' as int + d - 10) as char
  }

  function HexValue(c: char): (r: int)
    ensures -1 <= r < 16
  {
    if '0' <= c <= '9' then (c as int) - ('0' as int)
    else if 'A' <= c <= 'F' then (c as int) - ('A' as int) + 10
    else if 'a' <= c <= 'f' then (c as int) - ('a' as int) + 10
    else -1
  }

  lemma HexRoundTrip(d: nat)
    requires d < 16
    ensures HexValue(HexDigit(d)) == d
  {
  }

  /** The UTF-8 bytes of one scalar value. */
  function Utf8(c: char): (bytes: seq<nat>)
    ensures 1 <= |bytes| <= 4
    ensures forall i :: 0 <= i < |bytes| ==> bytes[i] < 256
  {
    var v := c as int;
    if v < 0x80 then [v]
    else if v < 0x800 then [0xC0 + v / 64, 0x80 + v % 64]
    else if v < 0x10000 then [0xE0 + v / 4096, 0x80 + (v / 64) % 64, 0x80 + v % 64]
    else [0xF0 + v / 262144, 0x80 + (v / 4096) % 64, 0x80 + (v / 64) % 64, 0x80 + v % 64]
  }

  function PercentBytes(bytes: seq<nat>): (r: string)
    requires forall i :: 0 <= i < |bytes| ==> bytes[i] < 256
    ensures |r| == 3 * |bytes|
    ensures forall i :: 0 <= i < |r| ==> Unreserved(r[i]) || r[i] == '%'
  {
    if |bytes| == 0 then ""
    else ['%', HexDigit(bytes[0] / 16), HexDigit(bytes[0] % 16)] + PercentBytes(bytes[1..])
  }

  /** JavaScript's `encodeURIComponent`. Its output never holds a '/', '?', '&', '='
      or any other character with a meaning inside a URL, and unreserved text is kept. */
  function EncodeURIComponent(s: string): (r: string)
    ensures forall i :: 0 <= i < |r| ==> Unreserved(r[i]) || r[i] == '%'
    ensures (forall i :: 0 <= i < |s| ==> Unreserved(s[i])) ==> r == s
  {
    if |s| == 0 then ""
    else EncodeChar(s[0]) + EncodeURIComponent(s[1..])
  }

  /** Decoding of percent escapes of single ASCII bytes; other text is copied. */
  function DecodeAscii(s: string): string
    decreases |s|
  {
    if |s| >= 3 && s[0] == '%' && HexValue(s[1]) >= 0 && HexValue(s[2]) >= 0
       && HexValue(s[1]) * 16 + HexValue(s[2]) < 0x80
    then [(HexValue(s[1]) * 16 + HexValue(s[2])) as char] + DecodeAscii(s[3..])
    else if |s| == 0 then ""
    else [s[0]] + DecodeAscii(s[1..])
  }

  /** An encoded component holds none of the URL's delimiters. */
  lemma EncodedHasNoDelimiters(s: string)
    ensures forall i :: 0 <= i < |EncodeURIComponent(s)| ==>
      EncodeURIComponent(s)[i] !in {'/', '?', '&', '=', '#'}
  {
    var callback := EncodeURIComponent(s);
    forall i | 0 <= i < |callback| ensures callback[i] !in {'/', '?', '&', '=', '#'} {
      assert Unreserved(callback[i]) || callback[i] == '%';
    }
  }

  predicate IsAscii(s: string) {
    forall i :: 0 <= i < |s| ==> (s[i] as int) < 0x80
  }

  /** How `EncodeURIComponent` writes one character. */
  function EncodeChar(c: char): string {
    if Unreserved(c) then [c] else PercentBytes(Utf8(c))
  }

  lemma EncodeCons(s: string)
    requires |s| > 0
    ensures EncodeURIComponent(s) == EncodeChar(s[0]) + EncodeURIComponent(s[1..])
  {
  }

  /** Decoding the encoding of one ASCII character, followed by anything, gives the
      character back followed by the decoding of the rest. */
  lemma DecodeEncodedChar(c: char, rest: string)
    requires (c as int) < 0x80
    ensures DecodeAscii(EncodeChar(c) + rest) == [c] + DecodeAscii(rest)
  {
    if Unreserved(c) {
      assert ([c] + rest)[1..] == rest;
    } else {
      var v := c as int;
      assert Utf8(c) == [v];
      var e := ['%', HexDigit(v / 16), HexDigit(v % 16)];
      assert PercentBytes([v]) == e;
      HexRoundTrip(v / 16);
      HexRoundTrip(v % 16);
      assert (e + rest)[3..] == rest;
      assert (v / 16 * 16 + v % 16) as char == c;
    }
  }

  /** Encoding an ASCII string and decoding it again gives it back. */
  lemma {:induction false} DecodeEncodeAscii(s: string)
    requires IsAscii(s)
    ensures DecodeAscii(EncodeURIComponent(s)) == s
  {
    if |s| > 0 {
      EncodeCons(s);
      DecodeEncodedChar(s[0], EncodeURIComponent(s[1..]));
      DecodeEncodeAscii(s[1..]);
      assert s == [s[0]] + s[1..];
    }
  }
}
