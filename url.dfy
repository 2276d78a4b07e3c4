/** `application/x-www-form-urlencoded` query strings as `urlencode` builds
    them (each key and value through `quote_plus`), and the decoding that
    reads one back. */
module UrlEncoding {
  import opened Text

  /** The characters `quote_plus` leaves as they are: ASCII letters, digits and `_.-~`. */
  predicate Unreserved(c: char) {
    'a' <= c <= 'z' || 'A' <= c <= 'Z' || '0' <= c <= '9' || c == '_' || c == '.' || c == '-' || c == '~'
  }

  predicate IsHexDigit(c: char) {
    '0' <= c <= '9' || 'A' <= c <= 'F'
  }

  function HexDigit(d: int): (c: char)
    requires 0 <= d < 16
    ensures IsHexDigit(c)
  {
    "0123456789ABCDEF"[d]
  }

  function HexValue(c: char): (d: int)
    requires IsHexDigit(c)
    ensures 0 <= d < 16
  {
    if c <= '9' then c as int - '0' as int else c as int - 'A' as int + 10
  }

  /** The UTF-8 encoding of one character. */
  function Utf8(c: char): (bytes: seq<int>)
    ensures 1 <= |bytes| <= 4
    ensures forall i :: 0 <= i < |bytes| ==> 0 <= bytes[i] < 256
    ensures c as int < 0x80 ==> bytes == [c as int]
  {
    var n := c as int;
    if n < 0x80 then [n]
    else if n < 0x800 then [0xC0 + n / 64, 0x80 + n % 64]
    else if n < 0x10000 then [0xE0 + n / 4096, 0x80 + (n / 64) % 64, 0x80 + n % 64]
    else [0xF0 + n / 262144, 0x80 + (n / 4096) % 64, 0x80 + (n / 64) % 64, 0x80 + n % 64]
  }

  /** `%XY` for each byte, with upper-case hexadecimal digits. */
  function PercentBytes(bytes: seq<int>): (s: string)
    requires forall i :: 0 <= i < |bytes| ==> 0 <= bytes[i] < 256
    ensures |s| == 3 * |bytes|
  {
    if bytes == [] then []
    else ['%', HexDigit(bytes[0] / 16), HexDigit(bytes[0] % 16)] + PercentBytes(bytes[1..])
  }

  /** `quote_plus` of one character. */
  function QuoteChar(c: char): string {
    if Unreserved(c) then [c] else if c == ' ' then "+" else PercentBytes(Utf8(c))
  }

  /** `quote_plus(s)` with no extra safe characters. */
  function QuotePlus(s: string): string {
    if s == [] then [] else QuoteChar(s[0]) + QuotePlus(s[1..])
  }

  /** Text made of unreserved characters only is its own encoding. */
  lemma {:induction false} QuotePlusUnreserved(s: string)
    requires forall i :: 0 <= i < |s| ==> Unreserved(s[i])
    ensures QuotePlus(s) == s
  {
    if s != [] {
      QuotePlusUnreserved(s[1..]);
      assert s == [s[0]] + s[1..];
    }
  }

  /** The characters an encoded value may contain. */
  predicate EncodedChar(c: char) {
    Unreserved(c) || c == '+' || c == '%' || IsHexDigit(c)
  }

  lemma {:induction false} PercentBytesEncoded(bytes: seq<int>)
    requires forall i :: 0 <= i < |bytes| ==> 0 <= bytes[i] < 256
    ensures forall i :: 0 <= i < |PercentBytes(bytes)| ==> EncodedChar(PercentBytes(bytes)[i])
  {
    if bytes != [] {
      PercentBytesEncoded(bytes[1..]);
      var head := ['%', HexDigit(bytes[0] / 16), HexDigit(bytes[0] % 16)];
      var tail := PercentBytes(bytes[1..]);
      assert PercentBytes(bytes) == head + tail;
      forall i | 0 <= i < |head + tail| ensures EncodedChar((head + tail)[i]) {
        if i >= 3 {
          assert (head + tail)[i] == tail[i - 3];
        }
      }
    }
  }

  /** Whatever the input, the encoding consists of unreserved characters,
      `+`, `%` and hexadecimal digits only: an encoded value can never carry
      the `&`, `=`, `?` or `#` that would end its parameter. */
  lemma {:induction false} QuotePlusEncoded(s: string)
    ensures forall i :: 0 <= i < |QuotePlus(s)| ==> EncodedChar(QuotePlus(s)[i])
  {
    if s != [] {
      QuotePlusEncoded(s[1..]);
      var head := QuoteChar(s[0]);
      var tail := QuotePlus(s[1..]);
      if !Unreserved(s[0]) && s[0] != ' ' {
        PercentBytesEncoded(Utf8(s[0]));
      }
      forall i | 0 <= i < |head + tail| ensures EncodedChar((head + tail)[i]) {
        if i >= |head| {
          assert (head + tail)[i] == tail[i - |head|];
        }
      }
    }
  }

  lemma QuotePlusHasNoDelimiters(s: string)
    ensures !HasChar(QuotePlus(s), '&') && !HasChar(QuotePlus(s), '=')
  {
    QuotePlusEncoded(s);
  }

  /** `unquote_plus` for text whose escapes are single bytes: `+` is a space,
      `%XY` the character with that code, anything else itself. */
  function UnquotePlus(s: string): string
    decreases |s|
  {
    if s == [] then []
    else if s[0] == '+' then " " + UnquotePlus(s[1..])
    else if s[0] == '%' && |s| >= 3 && IsHexDigit(s[1]) && IsHexDigit(s[2]) then
      [(16 * HexValue(s[1]) + HexValue(s[2])) as char] + UnquotePlus(s[3..])
    else [s[0]] + UnquotePlus(s[1..])
  }

  predicate Ascii(s: string) {
    forall i :: 0 <= i < |s| ==> s[i] as int < 0x80
  }

  lemma UnquoteQuoteChar(c: char, rest: string)
    requires c as int < 0x80
    ensures UnquotePlus(QuoteChar(c) + rest) == [c] + UnquotePlus(rest)
  {
    if Unreserved(c) || c == ' ' {
      assert (QuoteChar(c) + rest)[1..] == rest;
    } else {
      UnquoteEscape(c as int, rest);
    }
  }

  lemma UnquoteEscape(n: int, rest: string)
    requires 0 <= n < 0x80
    ensures UnquotePlus(['%', HexDigit(n / 16), HexDigit(n % 16)] + rest) == [n as char] + UnquotePlus(rest)
  {
    var t := ['%', HexDigit(n / 16), HexDigit(n % 16)] + rest;
    assert t[0] == '%' && t[1] == HexDigit(n / 16) && t[2] == HexDigit(n % 16);
    assert HexValue(HexDigit(n / 16)) == n / 16;
    assert HexValue(HexDigit(n % 16)) == n % 16;
    assert 16 * (n / 16) + n % 16 == n;
    assert t[3..] == rest;
  }

  /** Decoding undoes `quote_plus` on ASCII text. */
  lemma {:induction false} QuotePlusRoundTrip(s: string)
    requires Ascii(s)
    ensures UnquotePlus(QuotePlus(s)) == s
  {
    if s != [] {
      QuotePlusRoundTrip(s[1..]);
      UnquoteQuoteChar(s[0], QuotePlus(s[1..]));
    }
  }

  /** `key=value` with both halves encoded. */
  function EncodePair(key: string, value: string): string {
    QuotePlus(key) + "=" + QuotePlus(value)
  }

  /** `urlencode(pairs)`: the encoded pairs joined by `&`, in order. */
  function Urlencode(pairs: seq<(string, string)>): string {
    Join(seq(|pairs|, i requires 0 <= i < |pairs| => EncodePair(pairs[i].0, pairs[i].1)), "&")
  }

  /** Reads one `key=value` piece back. */
  function DecodePair(piece: string): (string, string) {
    var key := FirstField(piece, '=');
    FirstFieldIsPrefix(piece, '=');
    (UnquotePlus(key), if |key| < |piece| then UnquotePlus(piece[|key| + 1..]) else "")
  }

  /** `parse_qsl` of a query string (every piece kept, in order). */
  function ParseQuery(query: string): seq<(string, string)> {
    var pieces := Split(query, '&');
    seq(|pieces|, i requires 0 <= i < |pieces| => DecodePair(pieces[i]))
  }

  lemma DecodeEncodedPair(key: string, value: string)
    requires Ascii(key) && Ascii(value)
    ensures DecodePair(EncodePair(key, value)) == (key, value)
  {
    QuotePlusHasNoDelimiters(key);
    FirstFieldBeforeSeparator(QuotePlus(key), '=', QuotePlus(value));
    assert EncodePair(key, value) == QuotePlus(key) + ['='] + QuotePlus(value);
    assert EncodePair(key, value)[|QuotePlus(key)| + 1..] == QuotePlus(value);
    QuotePlusRoundTrip(key);
    QuotePlusRoundTrip(value);
  }

  lemma EncodedPairHasNoAmpersand(key: string, value: string)
    ensures !HasChar(EncodePair(key, value), '&')
  {
    QuotePlusHasNoDelimiters(key);
    QuotePlusHasNoDelimiters(value);
    var e := EncodePair(key, value);
    forall i | 0 <= i < |e| ensures e[i] != '&' {
      if i < |QuotePlus(key)| {
        assert e[i] == QuotePlus(key)[i];
      } else if i > |QuotePlus(key)| {
        assert e[i] == QuotePlus(value)[i - |QuotePlus(key)| - 1];
      }
    }
  }

  /** Parsing an encoded query gives back the pairs, in order, when every key
      and value is ASCII. */
  lemma ParseUrlencode(pairs: seq<(string, string)>)
    requires |pairs| >= 1
    requires forall i :: 0 <= i < |pairs| ==> Ascii(pairs[i].0) && Ascii(pairs[i].1)
    ensures ParseQuery(Urlencode(pairs)) == pairs
  {
    var pieces := seq(|pairs|, i requires 0 <= i < |pairs| => EncodePair(pairs[i].0, pairs[i].1));
    forall i | 0 <= i < |pieces| ensures !HasChar(pieces[i], '&') {
      EncodedPairHasNoAmpersand(pairs[i].0, pairs[i].1);
    }
    SplitJoin(pieces, '&');
    forall i | 0 <= i < |pairs| ensures DecodePair(pieces[i]) == pairs[i] {
      DecodeEncodedPair(pairs[i].0, pairs[i].1);
    }
  }
}
