/** The `application/x-www-form-urlencoded` format of the WHATWG URL Standard (section 5),
    which `URLSearchParams.toString()` writes: UTF-8 (RFC 3629) bytes, percent-encoding of every
    byte outside the unreserved set, `+` for a space, `name=value` pairs joined with `&`.
    The parser follows the standard's reader of that format, but is stricter: where the
    percent-decoded bytes are not valid UTF-8 it fails, instead of substituting U+FFFD. It is
    the partner of the serializer. */
module FormUrlEncoding {
  import opened Wrappers

  type Byte = b: int | 0 <= b < 256

  /** A name/value pair of a query, in the order `URLSearchParams` keeps it. */
  datatype Param = Param(name: string, value: string)

  // ---------------------------------------------------------------- UTF-8

  predicate IsContinuation(b: Byte) {
    0x80 <= b < 0xC0
  }

  /** The UTF-8 encoding of one Unicode scalar value. */
  function Utf8(c: char): (r: seq<Byte>)
    ensures 1 <= |r| <= 4
    ensures (|r| == 1) == (c as int < 0x80)
  {
    var n := c as int;
    if n < 0x80 then [n]
    else if n < 0x800 then [0xC0 + n / 64, 0x80 + n % 64]
    else if n < 0x10000 then [0xE0 + n / 4096, 0x80 + (n / 64) % 64, 0x80 + n % 64]
    else [0xF0 + n / 262144, 0x80 + (n / 4096) % 64, 0x80 + (n / 64) % 64, 0x80 + n % 64]
  }

  function Utf8String(s: string): seq<Byte> {
    if s == [] then [] else Utf8(s[0]) + Utf8String(s[1..])
  }

  /** The first character of a UTF-8 byte sequence and how many bytes it takes, or None when the
      bytes do not start with a well-formed (shortest-form, non-surrogate) sequence. */
  function DecodeFirst(bs: seq<Byte>): (r: Option<(char, nat)>)
    requires |bs| > 0
    ensures r.Some? ==> 1 <= r.value.1 <= |bs|
  {
    var b0: int := bs[0];
    if b0 < 0x80 then Some((b0 as char, 1))
    else if 0xC0 <= b0 < 0xE0 && |bs| >= 2 && IsContinuation(bs[1]) then
      var n := (b0 - 0xC0) * 64 + (bs[1] as int - 0x80);
      if 0x80 <= n then Some((n as char, 2)) else None
    else if 0xE0 <= b0 < 0xF0 && |bs| >= 3 && IsContinuation(bs[1]) && IsContinuation(bs[2]) then
      var n := (b0 - 0xE0) * 4096 + (bs[1] as int - 0x80) * 64 + (bs[2] as int - 0x80);
      if 0x800 <= n && (n < 0xD800 || 0xE000 <= n) then Some((n as char, 3)) else None
    else if 0xF0 <= b0 < 0xF8 && |bs| >= 4 && IsContinuation(bs[1]) && IsContinuation(bs[2])
            && IsContinuation(bs[3]) then
      var n := (b0 - 0xF0) * 262144 + (bs[1] as int - 0x80) * 4096 + (bs[2] as int - 0x80) * 64
        + (bs[3] as int - 0x80);
      if 0x10000 <= n < 0x110000 then Some((n as char, 4)) else None
    else None
  }

  /** Decodes UTF-8 bytes into characters; None on the first malformed sequence. */
  function Utf8Decode(bs: seq<Byte>): Option<string>
    decreases |bs|
  {
    if bs == [] then Some([])
    else match DecodeFirst(bs)
      case None => None
      case Some((c, len)) =>
        match Utf8Decode(bs[len..])
        case None => None
        case Some(rest) => Some([c] + rest)
  }

  /** The bytes of one character, whatever follows, decode back to that character. */
  lemma DecodeFirstUtf8(c: char, rest: seq<Byte>)
    ensures DecodeFirst(Utf8(c) + rest) == Some((c, |Utf8(c)|))
  {
    var n := c as int;
    if n < 0x80 {
    } else if n < 0x800 {
      DecodeFirstTwoBytes(c, rest);
    } else if n < 0x10000 {
      DecodeFirstThreeBytes(c, rest);
    } else {
      DecodeFirstFourBytes(c, rest);
    }
  }

  lemma DecodeFirstTwoBytes(c: char, rest: seq<Byte>)
    requires 0x80 <= c as int < 0x800
    ensures DecodeFirst(Utf8(c) + rest) == Some((c, 2))
  {
    var n := c as int;
    var bs := Utf8(c) + rest;
    assert bs[0] == 0xC0 + n / 64 && bs[1] == 0x80 + n % 64;
    assert (n / 64) * 64 + n % 64 == n;
  }

  lemma DecodeFirstThreeBytes(c: char, rest: seq<Byte>)
    requires 0x800 <= c as int < 0x10000
    ensures DecodeFirst(Utf8(c) + rest) == Some((c, 3))
  {
    var n := c as int;
    var bs := Utf8(c) + rest;
    assert bs[0] == 0xE0 + n / 4096 && bs[1] == 0x80 + (n / 64) % 64 && bs[2] == 0x80 + n % 64;
    assert (n / 4096) * 64 + (n / 64) % 64 == n / 64;
    assert (n / 64) * 64 + n % 64 == n;
  }

  lemma DecodeFirstFourBytes(c: char, rest: seq<Byte>)
    requires 0x10000 <= c as int
    ensures DecodeFirst(Utf8(c) + rest) == Some((c, 4))
  {
    var n := c as int;
    var bs := Utf8(c) + rest;
    assert bs[0] == 0xF0 + n / 262144 && bs[1] == 0x80 + (n / 4096) % 64;
    assert bs[2] == 0x80 + (n / 64) % 64 && bs[3] == 0x80 + n % 64;
    assert (n / 262144) * 64 + (n / 4096) % 64 == n / 4096;
    assert (n / 4096) * 64 + (n / 64) % 64 == n / 64;
    assert (n / 64) * 64 + n % 64 == n;
  }

  /** UTF-8 decoding undoes UTF-8 encoding. */
  lemma {:induction false} Utf8RoundTrip(s: string)
    ensures Utf8Decode(Utf8String(s)) == Some(s)
  {
    if s != [] {
      var bs := Utf8String(s);
      DecodeFirstUtf8(s[0], Utf8String(s[1..]));
      assert bs[|Utf8(s[0])|..] == Utf8String(s[1..]);
      Utf8RoundTrip(s[1..]);
      assert [s[0]] + s[1..] == s;
    }
  }

  // ---------------------------------------------------------------- percent-encoding

  /** The characters `URLSearchParams` writes unescaped: ASCII letters and digits, `*-._`. */
  predicate Unreserved(c: char) {
    'a' <= c <= 'z' || 'A' <= c <= 'Z' || '0' <= c <= '9' || c == '*' || c == '-' || c == '.' || c == '_'
  }

  predicate IsHex(c: char) {
    '0' <= c <= '9' || 'A' <= c <= 'F' || 'a' <= c <= 'f'
  }

  /** Upper-case hexadecimal digit, as the serializer writes it. */
  function HexDigit(d: nat): (c: char)
    requires d < 16
    ensures IsHex(c)
  {
    if d < 10 then (('0' as int) + d) as char else (('A' as int) + d - 10) as char
  }

  function HexValue(c: char): (d: nat)
    requires IsHex(c)
    ensures d < 16
  {
    if '0' <= c <= '9' then (c as int) - ('0' as int)
    else if 'A' <= c <= 'F' then (c as int) - ('A' as int) + 10
    else (c as int) - ('a' as int) + 10
  }

  lemma HexValueOfDigit(d: nat)
    requires d < 16
    ensures HexValue(HexDigit(d)) == d
  {
  }

  function PercentByte(b: Byte): string {
    ['%', HexDigit(b / 16), HexDigit(b % 16)]
  }

  function PercentBytes(bs: seq<Byte>): (r: string)
    ensures |r| == 3 * |bs|
  {
    if bs == [] then [] else PercentByte(bs[0]) + PercentBytes(bs[1..])
  }

  /** How the serializer writes one character of a name or a value. */
  function EncodeChar(c: char): (r: string)
    ensures |r| >= 1
    ensures Unreserved(c) ==> r == [c]
  {
    if c == ' ' then "+"
    else if Unreserved(c) then [c]
    else PercentBytes(Utf8(c))
  }

  /** The serializer's encoding of a name or a value. */
  function Encode(s: string): (r: string)
    ensures |r| >= |s|
    ensures (forall i | 0 <= i < |s| :: Unreserved(s[i])) ==> r == s
  {
    if s == [] then [] else EncodeChar(s[0]) + Encode(s[1..])
  }

  /** The parser's byte reading of a name or a value: `+` is a space, `%XY` is a byte, any other
      character stands for its own UTF-8 bytes. */
  function PercentDecode(s: string): seq<Byte>
    decreases |s|
  {
    if s == [] then []
    else if s[0] == '+' then [0x20] + PercentDecode(s[1..])
    else if s[0] == '%' && |s| >= 3 && IsHex(s[1]) && IsHex(s[2]) then
      [HexValue(s[1]) * 16 + HexValue(s[2])] + PercentDecode(s[3..])
    else Utf8(s[0]) + PercentDecode(s[1..])
  }

  /** The parser's reading of a name or a value. */
  function Decode(s: string): Option<string> {
    Utf8Decode(PercentDecode(s))
  }

  lemma {:induction false} PercentDecodeBytes(bs: seq<Byte>, rest: string)
    ensures PercentDecode(PercentBytes(bs) + rest) == bs + PercentDecode(rest)
  {
    if bs != [] {
      var b := bs[0];
      var t := PercentBytes(bs[1..]) + rest;
      var s := ['%', HexDigit(b / 16), HexDigit(b % 16)] + t;
      assert PercentBytes(bs) + rest == s;
      HexValueOfDigit(b / 16);
      HexValueOfDigit(b % 16);
      assert s[0] == '%' && s[1] == HexDigit(b / 16) && s[2] == HexDigit(b % 16) && s[3..] == t;
      assert HexValue(s[1]) * 16 + HexValue(s[2]) == b;
      assert PercentDecode(s) == [b] + PercentDecode(t);
      PercentDecodeBytes(bs[1..], rest);
      assert [b] + (bs[1..] + PercentDecode(rest)) == bs + PercentDecode(rest);
    } else {
      assert PercentBytes(bs) + rest == rest;
    }
  }

  lemma EncodeCharDecodes(c: char, rest: string)
    ensures PercentDecode(EncodeChar(c) + rest) == Utf8(c) + PercentDecode(rest)
  {
    if c == ' ' {
      assert (EncodeChar(c) + rest)[1..] == rest;
    } else if Unreserved(c) {
      assert (EncodeChar(c) + rest)[1..] == rest;
    } else {
      PercentDecodeBytes(Utf8(c), rest);
    }
  }

  /** Reading the encoded text as bytes gives the UTF-8 bytes of the original text. */
  lemma {:induction false} PercentDecodeEncode(s: string)
    ensures PercentDecode(Encode(s)) == Utf8String(s)
  {
    if s != [] {
      EncodeCharDecodes(s[0], Encode(s[1..]));
      PercentDecodeEncode(s[1..]);
    }
  }

  /** Round trip: the parser reads back exactly the text the serializer encoded. */
  lemma DecodeEncode(s: string)
    ensures Decode(Encode(s)) == Some(s)
  {
    PercentDecodeEncode(s);
    Utf8RoundTrip(s);
  }

  /** The characters an encoded text can contain; `&` and `=` are not among them. */
  predicate EncodedChar(c: char) {
    Unreserved(c) || c == '+' || c == '%'
  }

  lemma {:induction false} PercentBytesChars(bs: seq<Byte>)
    ensures forall i | 0 <= i < |PercentBytes(bs)| :: EncodedChar(PercentBytes(bs)[i])
  {
    if bs != [] {
      PercentBytesChars(bs[1..]);
    }
  }

  lemma {:induction false} EncodeChars(s: string)
    ensures forall i | 0 <= i < |Encode(s)| :: EncodedChar(Encode(s)[i])
  {
    if s != [] {
      PercentBytesChars(Utf8(s[0]));
      EncodeChars(s[1..]);
    }
  }

  // ---------------------------------------------------------------- queries

  function PairText(p: Param): string {
    Encode(p.name) + "=" + Encode(p.value)
  }

  /** `URLSearchParams.toString()`: the pairs in order, each `name=value`, joined by `&`. */
  function Serialize(ps: seq<Param>): (r: string)
    ensures r == "" <==> ps == []
  {
    if ps == [] then ""
    else if |ps| == 1 then PairText(ps[0])
    else PairText(ps[0]) + "&" + Serialize(ps[1..])
  }

  /** `s` cut at every `sep`; there is always at least one piece. */
  function SplitOn(s: string, sep: char): (r: seq<string>)
    ensures |r| >= 1
  {
    if s == [] then [[]]
    else
      var rest := SplitOn(s[1..], sep);
      if s[0] == sep then [[]] + rest else [[s[0]] + rest[0]] + rest[1..]
  }

  /** Position of the first `c` in `s`, or `|s|` when there is none. */
  function FirstIndex(s: string, c: char): (r: nat)
    ensures r <= |s|
    ensures forall j | 0 <= j < r :: s[j] != c
    ensures r < |s| ==> s[r] == c
  {
    if s == [] then 0 else if s[0] == c then 0 else 1 + FirstIndex(s[1..], c)
  }

  /** One `name=value` piece: split at the first `=`; a piece without `=` is a name with an empty
      value. */
  function ParsePair(piece: string): Option<Param> {
    var i := FirstIndex(piece, '=');
    var name := Decode(piece[..i]);
    var value := Decode(if i < |piece| then piece[i + 1..] else "");
    if name.Some? && value.Some? then Some(Param(name.value, value.value)) else None
  }

  function ParsePieces(pieces: seq<string>): Option<seq<Param>> {
    if pieces == [] then Some([])
    else if pieces[0] == [] then ParsePieces(pieces[1..])
    else match (ParsePair(pieces[0]), ParsePieces(pieces[1..]))
      case (Some(p), Some(rest)) => Some([p] + rest)
      case _ => None
  }

  /** A strict variant of the standard's parser: pieces between `&`, empty pieces skipped, each
      read as a pair; bytes that are not valid UTF-8 make it fail. */
  function ParseQuery(q: string): Option<seq<Param>> {
    ParsePieces(SplitOn(q, '&'))
  }

  lemma {:induction false} SplitOnFree(p: string, sep: char)
    requires forall i | 0 <= i < |p| :: p[i] != sep
    ensures SplitOn(p, sep) == [p]
  {
    if p != [] {
      SplitOnFree(p[1..], sep);
      assert [p[0]] + p[1..] == p;
    }
  }

  lemma {:induction false} SplitOnFirst(p: string, sep: char, t: string)
    requires forall i | 0 <= i < |p| :: p[i] != sep
    ensures SplitOn(p + [sep] + t, sep) == [p] + SplitOn(t, sep)
  {
    if p == [] {
      assert p + [sep] + t == [sep] + t;
      assert ([sep] + t)[1..] == t;
    } else {
      SplitOnFirst(p[1..], sep, t);
      assert (p + [sep] + t)[1..] == p[1..] + [sep] + t;
      assert [p[0]] + p[1..] == p;
    }
  }

  lemma PairTextChars(p: Param)
    ensures forall i | 0 <= i < |PairText(p)| :: PairText(p)[i] != '&'
    ensures |PairText(p)| > 0
  {
    EncodeChars(p.name);
    EncodeChars(p.value);
    var t := PairText(p);
    forall i | 0 <= i < |t| ensures t[i] != '&' {
      if i < |Encode(p.name)| {
        assert t[i] == Encode(p.name)[i];
      } else if i > |Encode(p.name)| {
        assert t[i] == Encode(p.value)[i - |Encode(p.name)| - 1];
      }
    }
  }

  lemma ParsePairText(p: Param)
    ensures ParsePair(PairText(p)) == Some(p)
  {
    var t := PairText(p);
    var en := Encode(p.name);
    EncodeChars(p.name);
    assert forall j | 0 <= j < |en| :: t[j] == en[j] && EncodedChar(en[j]);
    assert t[|en|] == '=';
    assert FirstIndex(t, '=') == |en|;
    assert t[..|en|] == en;
    assert t[|en| + 1..] == Encode(p.value);
    DecodeEncode(p.name);
    DecodeEncode(p.value);
  }

  lemma ParsePiecesCons(t: string, rest: seq<string>, p: Param, ps: seq<Param>)
    requires t != [] && ParsePair(t) == Some(p) && ParsePieces(rest) == Some(ps)
    ensures ParsePieces([t] + rest) == Some([p] + ps)
  {
    assert ([t] + rest)[0] == t && ([t] + rest)[1..] == rest;
  }

  /** A pair's text, free of `&`, placed before `&` and a parsable query parses to the pair
      followed by that query's pairs. */
  lemma ParseQueryCons(t: string, p: Param, q: string, ps: seq<Param>)
    requires t != [] && (forall i | 0 <= i < |t| :: t[i] != '&')
    requires ParsePair(t) == Some(p) && ParseQuery(q) == Some(ps)
    ensures ParseQuery(t + "&" + q) == Some([p] + ps)
  {
    SplitOnFirst(t, '&', q);
    ParsePiecesCons(t, SplitOn(q, '&'), p, ps);
  }

  /** A pair's text, free of `&`, parses on its own to the pair. */
  lemma ParseQuerySingle(t: string, p: Param)
    requires t != [] && (forall i | 0 <= i < |t| :: t[i] != '&')
    requires ParsePair(t) == Some(p)
    ensures ParseQuery(t) == Some([p])
  {
    SplitOnFree(t, '&');
    assert ParsePieces([]) == Some([]);
    ParsePiecesCons(t, [], p, []);
    assert [t] + [] == [t] && [p] + [] == [p];
  }

  /** Round trip of a whole query: parsing the serialized pairs gives back the pairs, in order. */
  lemma {:induction false} ParseSerialize(ps: seq<Param>)
    ensures ParseQuery(Serialize(ps)) == Some(ps)
  {
    if ps != [] {
      var t := PairText(ps[0]);
      PairTextChars(ps[0]);
      ParsePairText(ps[0]);
      if |ps| == 1 {
        ParseQuerySingle(t, ps[0]);
        assert ps == [ps[0]];
      } else {
        ParseSerialize(ps[1..]);
        ParseQueryCons(t, ps[0], Serialize(ps[1..]), ps[1..]);
        assert [ps[0]] + ps[1..] == ps;
      }
    }
  }
}
