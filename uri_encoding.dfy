/** `encodeURIComponent`, used to put an e-mail address inside a cache key.
    ASCII characters are encoded exactly as ECMAScript does (the unreserved
    marks kept, every other ASCII character written `%XX` in upper-case
    hexadecimal); characters beyond ASCII are kept as they are (see README,
    "Left out"). `DecodeUriComponent` is its inverse, which makes the encoding
    injective. */
module UriEncoding {
  import opened Outcomes

  /** The characters `encodeURIComponent` never escapes. */
  predicate IsUnreserved(c: char)
  {
    ('A' <= c <= 'Z') || ('a' <= c <= 'z') || ('0' <= c <= '9')
    || c == '-' || c == '_' || c == '.' || c == '!' || c == '~'
    || c == '*' || c == '\'' || c == '(' || c == ')'
  }

  function HexDigit(d: nat): (c: char)
    requires d < 16
  {
    "0123456789ABCDEF"[d]
  }

  /** The value of an upper-case hexadecimal digit, if `c` is one. */
  function HexValue(c: char): (r: Option<nat>)
    ensures r.Some? ==> r.value < 16 && HexDigit(r.value) == c
  {
    if '0' <= c <= '9' then Some(c as int - '0' as int)
    else if 'A' <= c <= 'F' then Some(c as int - 'A' as int + 10)
    else None
  }

  lemma HexValueOfDigit(d: nat)
    requires d < 16
    ensures HexValue(HexDigit(d)) == Some(d)
  {
  }

  /** The encoding of one character. */
  function EncodeChar(c: char): (r: string)
    ensures |r| == 1 || |r| == 3
    ensures |r| == 1 <==> r == [c]
    ensures |r| == 1 ==> c != '%'
  {
    if IsUnreserved(c) || c as int >= 128 then [c]
    else ['%', HexDigit(c as int / 16), HexDigit(c as int % 16)]
  }

  /** `encodeURIComponent(s)`. */
  function EncodeUriComponent(s: string): string
  {
    if |s| == 0 then "" else EncodeChar(s[0]) + EncodeUriComponent(s[1..])
  }

  /** Reverses `EncodeUriComponent`; `None` for text it cannot have produced. */
  function DecodeUriComponent(s: string): Option<string>
  {
    if |s| == 0 then Some("")
    else if s[0] != '%' then
      match DecodeUriComponent(s[1..])
      case Some(rest) => Some([s[0]] + rest)
      case None => None
    else if |s| < 3 then None
    else
      match (HexValue(s[1]), HexValue(s[2]))
      case (Some(hi), Some(lo)) =>
        (match DecodeUriComponent(s[3..])
         case Some(rest) => Some([(hi * 16 + lo) as char] + rest)
         case None => None)
      case _ => None
  }

  /** Decoding the encoding of a character followed by more text decodes the
      character and then the rest. */
  lemma DecodeEncodedChar(c: char, tail: string)
    ensures DecodeUriComponent(EncodeChar(c) + tail) ==
            match DecodeUriComponent(tail)
            case Some(rest) => Some([c] + rest)
            case None => None
  {
    var e := EncodeChar(c);
    if |e| == 1 {
      assert (e + tail)[1..] == tail;
    } else {
      var n := c as int;
      HexValueOfDigit(n / 16);
      HexValueOfDigit(n % 16);
      assert (e + tail)[1] == HexDigit(n / 16);
      assert (e + tail)[2] == HexDigit(n % 16);
      assert (e + tail)[3..] == tail;
      assert ((n / 16) * 16 + n % 16) as char == c;
    }
  }

  /** Decoding inverts encoding. */
  lemma {:induction false} UriRoundTrip(s: string)
    ensures DecodeUriComponent(EncodeUriComponent(s)) == Some(s)
  {
    if |s| > 0 {
      UriRoundTrip(s[1..]);
      DecodeEncodedChar(s[0], EncodeUriComponent(s[1..]));
      assert [s[0]] + s[1..] == s;
    }
  }

  /** Different texts encode differently. */
  lemma EncodeInjective(a: string, b: string)
    requires EncodeUriComponent(a) == EncodeUriComponent(b)
    ensures a == b
  {
    UriRoundTrip(a);
    UriRoundTrip(b);
  }
}
