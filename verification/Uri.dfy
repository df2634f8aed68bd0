/**
 * `encodeURIComponent`, written out: a character from the unreserved set is
 * kept, every other character becomes the `%XX` escapes of its UTF-8 bytes,
 * with upper-case hexadecimal digits.
 */
module Uri {
  import opened Common

  /** The characters `encodeURIComponent` leaves as they are. */
  predicate IsUnreserved(c: char) {
    || ('A' <= c <= 'Z') || ('a' <= c <= 'z') || ('0' <= c <= '9')
    || c == '-' || c == '_' || c == '.' || c == '!' || c == '~'
    || c == '*' || c == '\'' || c == '(' || c == ')'
  }

  /** What an encoded component may contain: unreserved characters and the `%` that starts an escape. */
  predicate IsEncodedChar(c: char) {
    IsUnreserved(c) || c == '%'
  }

  /** The UTF-8 encoding of one Unicode scalar value. */
  function Utf8(c: char): (bytes: seq<int>)
    ensures 1 <= |bytes| <= 4
    ensures forall i :: 0 <= i < |bytes| ==> 0 <= bytes[i] < 256
    ensures (c as int < 0x80) <==> |bytes| == 1
  {
    var cp := c as int;
    if cp < 0x80 then [cp]
    else if cp < 0x800 then [0xC0 + cp / 64, 0x80 + cp % 64]
    else if cp < 0x1_0000 then [0xE0 + cp / 4096, 0x80 + (cp / 64) % 64, 0x80 + cp % 64]
    else [0xF0 + cp / 262144, 0x80 + (cp / 4096) % 64, 0x80 + (cp / 64) % 64, 0x80 + cp % 64]
  }

  /** A hexadecimal digit of either case, as an escape may hold. */
  predicate IsHexDigit(c: char) {
    ('0' <= c <= '9') || ('A' <= c <= 'F') || ('a' <= c <= 'f')
  }

  /** The value of a hexadecimal digit. */
  function HexValue(c: char): (v: int)
    requires IsHexDigit(c)
    ensures 0 <= v < 16
  {
    if c <= '9' then c as int - '0' as int
    else if c <= 'F' then c as int - 'A' as int + 10
    else c as int - 'a' as int + 10
  }

  /** A hexadecimal digit as `encodeURIComponent` writes it: a decimal digit or an upper-case letter. */
  predicate IsUpperHexDigit(c: char) {
    ('0' <= c <= '9') || ('A' <= c <= 'F')
  }

  /** The upper-case hexadecimal digit for `n`; it reads back as `n`. */
  function HexDigit(n: int): (c: char)
    requires 0 <= n < 16
    ensures IsUnreserved(c) && IsUpperHexDigit(c) && IsHexDigit(c) && HexValue(c) == n
  {
    if n < 10 then ('0' as int + n) as char else ('A' as int + n - 10) as char
  }

  /** The escape `%XX` of one byte, upper-case hexadecimal. */
  function Escape(b: int): (r: string)
    requires 0 <= b < 256
    ensures |r| == 3 && r[0] == '%'
    ensures forall i :: 0 <= i < 3 ==> IsEncodedChar(r[i])
    ensures IsUpperHexDigit(r[1]) && IsUpperHexDigit(r[2])
    ensures IsHexDigit(r[1]) && IsHexDigit(r[2]) && HexValue(r[1]) * 16 + HexValue(r[2]) == b
  {
    var hi := b / 16;
    var lo := b % 16;
    assert 0 <= hi < 16 && 0 <= lo < 16;
    ['%', HexDigit(hi), HexDigit(lo)]
  }

  /** `%XX` for each byte, in order. */
  function PercentEscapes(bytes: seq<int>): (r: string)
    requires forall i :: 0 <= i < |bytes| ==> 0 <= bytes[i] < 256
    ensures |r| == 3 * |bytes|
    ensures forall i :: 0 <= i < |r| ==> IsEncodedChar(r[i])
  {
    if bytes == [] then []
    else
      var head := Escape(bytes[0]);
      var tail := PercentEscapes(bytes[1..]);
      assert forall i :: 3 <= i < 3 + |tail| ==> (head + tail)[i] == tail[i - 3];
      head + tail
  }

  function EncodeChar(c: char): (r: string)
    ensures IsUnreserved(c) ==> r == [c]
    ensures !IsUnreserved(c) ==> r != [] && r[0] == '%'
    ensures forall i :: 0 <= i < |r| ==> IsEncodedChar(r[i])
  {
    if IsUnreserved(c) then [c] else PercentEscapes(Utf8(c))
  }

  /**
   * `encodeURIComponent(s)`. Its output holds only unreserved characters and
   * `%`, so no `&`, `=`, `#` or `?` of the input survives into a query string.
   */
  function EncodeUriComponent(s: string): (r: string)
    ensures |r| >= |s|
    ensures forall i :: 0 <= i < |r| ==> IsEncodedChar(r[i])
    ensures (forall i :: 0 <= i < |s| ==> IsUnreserved(s[i])) ==> r == s
  {
    if s == [] then []
    else
      var head := EncodeChar(s[0]);
      var tail := EncodeUriComponent(s[1..]);
      assert forall i :: |head| <= i < |head| + |tail| ==> (head + tail)[i] == tail[i - |head|];
      head + tail
  }

  // ---------------------------------------------------------------------------
  // Decoding: `decodeURIComponent`, the inverse that shows nothing is lost
  // ---------------------------------------------------------------------------

  /** One piece of an encoded component: a character that stands for itself, or the byte of a `%XX` escape. */
  datatype Piece = Literal(c: char) | Byte(b: int)

  /**
   * The first pass of `decodeURIComponent`: the component as literal
   * characters and escaped bytes, or `None` (a URIError) where a `%` is not
   * followed by two hexadecimal digits.
   */
  function Unescape(s: string): Option<seq<Piece>>
    decreases |s|
  {
    if s == [] then Some([])
    else if s[0] != '%' then
      match Unescape(s[1..])
      case None => None
      case Some(rest) => Some([Literal(s[0])] + rest)
    else if |s| >= 3 && IsHexDigit(s[1]) && IsHexDigit(s[2]) then
      match Unescape(s[3..])
      case None => None
      case Some(rest) => Some([Byte(HexValue(s[1]) * 16 + HexValue(s[2]))] + rest)
    else None
  }

  /** The length of the UTF-8 sequence a leading byte opens, read from its leading one bits; 0 for a byte no sequence opens with. */
  function SequenceLength(b: int): nat {
    if b < 0x80 then 1
    else if 0xC0 <= b < 0xE0 then 2
    else if 0xE0 <= b < 0xF0 then 3
    else if 0xF0 <= b < 0xF8 then 4
    else 0
  }

  /** The pieces at 1 up to `n - 1` are continuation bytes `10xxxxxx`. */
  predicate Continued(pieces: seq<Piece>, n: nat)
    requires n <= |pieces|
  {
    forall i :: 1 <= i < n ==> pieces[i].Byte? && 0x80 <= pieces[i].b < 0xC0
  }

  /** The code point the payload bits of an `n`-byte sequence spell. */
  function CodePoint(pieces: seq<Piece>, n: nat): int
    requires 1 <= n <= 4 && n <= |pieces| && pieces[0].Byte? && Continued(pieces, n)
  {
    var b0 := pieces[0].b;
    if n == 1 then b0
    else if n == 2 then (b0 - 0xC0) * 64 + (pieces[1].b - 0x80)
    else if n == 3 then (b0 - 0xE0) * 4096 + (pieces[1].b - 0x80) * 64 + (pieces[2].b - 0x80)
    else (b0 - 0xF0) * 262144 + (pieces[1].b - 0x80) * 4096 + (pieces[2].b - 0x80) * 64 + (pieces[3].b - 0x80)
  }

  /** The smallest code point an `n`-byte sequence may carry; a smaller one is an overlong form. */
  function ShortestFor(n: nat): int {
    if n <= 1 then 0 else if n == 2 then 0x80 else if n == 3 then 0x800 else 0x1_0000
  }

  /** A Unicode scalar value: a code point up to U+10FFFF that is not a surrogate. */
  predicate IsScalar(cp: int) {
    0 <= cp < 0xD800 || 0xE000 <= cp < 0x11_0000
  }

  /**
   * The second pass: literal characters stay, and each run of bytes must be
   * the shortest UTF-8 form of a scalar value, which it becomes; a stray
   * continuation byte, a cut-off sequence, an overlong form, a surrogate or
   * a value past U+10FFFF is `None` (a URIError).
   */
  function Assemble(pieces: seq<Piece>): Option<string>
    decreases |pieces|
  {
    if pieces == [] then Some([])
    else if pieces[0].Literal? then
      match Assemble(pieces[1..])
      case None => None
      case Some(rest) => Some([pieces[0].c] + rest)
    else
      var n := SequenceLength(pieces[0].b);
      if n == 0 || |pieces| < n || !Continued(pieces, n) then None
      else
        var cp := CodePoint(pieces, n);
        if cp < ShortestFor(n) || !IsScalar(cp) then None
        else
          match Assemble(pieces[n..])
          case None => None
          case Some(rest) => Some([cp as char] + rest)
  }

  /**
   * `decodeURIComponent(s)` (section 19.2.6.2 of ECMA-262, 2023 edition, with
   * an empty reserved set), `None` where it throws a URIError.
   */
  function DecodeUriComponent(s: string): Option<string> {
    match Unescape(s)
    case None => None
    case Some(pieces) => Assemble(pieces)
  }

  /** The pieces of one escaped byte sequence. */
  function BytePieces(bytes: seq<int>): (r: seq<Piece>)
    ensures |r| == |bytes| && forall i :: 0 <= i < |bytes| ==> r[i] == Byte(bytes[i])
  {
    seq(|bytes|, i requires 0 <= i < |bytes| => Byte(bytes[i]))
  }

  /** The pieces the encoding of `c` unescapes to. */
  function CharPieces(c: char): seq<Piece> {
    if IsUnreserved(c) then [Literal(c)] else BytePieces(Utf8(c))
  }

  /** The pieces the encoding of `s` unescapes to, character by character. */
  function Pieces(s: string): seq<Piece> {
    if s == [] then [] else CharPieces(s[0]) + Pieces(s[1..])
  }

  /** One escape unescapes to its byte, whatever follows. */
  lemma UnescapeEscape(b: int, tail: string, rest: seq<Piece>)
    requires 0 <= b < 256
    requires Unescape(tail) == Some(rest)
    ensures Unescape(Escape(b) + tail) == Some([Byte(b)] + rest)
  {
    var s := Escape(b) + tail;
    assert s[0] == '%' && s[1] == Escape(b)[1] && s[2] == Escape(b)[2];
    assert s[3..] == tail;
  }

  /** Escaped bytes unescape to those bytes, whatever follows. */
  lemma {:induction false} UnescapeEscapes(bytes: seq<int>, t: string, rest: seq<Piece>)
    requires forall i :: 0 <= i < |bytes| ==> 0 <= bytes[i] < 256
    requires Unescape(t) == Some(rest)
    ensures Unescape(PercentEscapes(bytes) + t) == Some(BytePieces(bytes) + rest)
  {
    if bytes == [] {
      assert PercentEscapes(bytes) + t == t;
      assert BytePieces(bytes) + rest == rest;
    } else {
      var tail := PercentEscapes(bytes[1..]) + t;
      var tailPieces := BytePieces(bytes[1..]) + rest;
      UnescapeEscapes(bytes[1..], t, rest);
      UnescapeEscape(bytes[0], tail, tailPieces);
      FirstEscape(bytes, t);
      FirstPiece(bytes, rest);
    }
  }

  /** Escaping bytes then appending `t` is escaping the first byte, then the rest, then `t`. */
  lemma FirstEscape(bytes: seq<int>, t: string)
    requires bytes != [] && forall i :: 0 <= i < |bytes| ==> 0 <= bytes[i] < 256
    ensures PercentEscapes(bytes) + t == Escape(bytes[0]) + (PercentEscapes(bytes[1..]) + t)
  {
    EscapesUnfold(bytes);
    Regroup(Escape(bytes[0]), PercentEscapes(bytes[1..]), t);
  }

  /** The escapes of bytes are the first byte's escape followed by the escapes of the rest. */
  lemma EscapesUnfold(bytes: seq<int>)
    requires bytes != [] && forall i :: 0 <= i < |bytes| ==> 0 <= bytes[i] < 256
    ensures PercentEscapes(bytes) == Escape(bytes[0]) + PercentEscapes(bytes[1..])
  {
  }

  lemma Regroup<T>(a: seq<T>, b: seq<T>, c: seq<T>)
    ensures (a + b) + c == a + (b + c)
  {
  }

  /** The pieces of bytes followed by `rest` start with the first byte. */
  lemma FirstPiece(bytes: seq<int>, rest: seq<Piece>)
    requires bytes != []
    ensures BytePieces(bytes) + rest == [Byte(bytes[0])] + (BytePieces(bytes[1..]) + rest)
  {
    assert BytePieces(bytes) == [Byte(bytes[0])] + BytePieces(bytes[1..]);
  }

  /** The encoding of one character unescapes to its pieces, whatever follows. */
  lemma UnescapeChar(c: char, t: string, rest: seq<Piece>)
    requires Unescape(t) == Some(rest)
    ensures Unescape(EncodeChar(c) + t) == Some(CharPieces(c) + rest)
  {
    if IsUnreserved(c) {
      assert ([c] + t)[1..] == t;
    } else {
      UnescapeEscapes(Utf8(c), t, rest);
    }
  }

  /** An encoded component unescapes without error, to the pieces of its characters. */
  lemma {:induction false} UnescapeEncoded(s: string)
    ensures Unescape(EncodeUriComponent(s)) == Some(Pieces(s))
  {
    if s != [] {
      UnescapeEncoded(s[1..]);
      UnescapeChar(s[0], EncodeUriComponent(s[1..]), Pieces(s[1..]));
    }
  }

  /** `q * 64 + r` with `0 <= r < 64` splits off the last six bits: `q` is the quotient and `r` the remainder. */
  lemma SixBits(x: int, q: int, r: int)
    requires 0 <= r < 64 && x == q * 64 + r
    ensures x / 64 == q && x % 64 == r
  {
  }

  /** The bytes of a three-byte sequence put back together. */
  lemma Utf8Three(cp: int)
    requires 0x800 <= cp < 0x1_0000
    ensures (cp / 4096) * 4096 + ((cp / 64) % 64) * 64 + cp % 64 == cp
  {
    var q := cp / 64;
    SixBits(q, q / 64, q % 64);
    assert cp == (q / 64) * 4096 + (q % 64) * 64 + cp % 64;
    assert cp / 4096 == q / 64;
  }

  /** The bytes of a four-byte sequence put back together. */
  lemma Utf8Four(cp: int)
    requires 0x1_0000 <= cp < 0x11_0000
    ensures (cp / 262144) * 262144 + ((cp / 4096) % 64) * 4096 + ((cp / 64) % 64) * 64 + cp % 64 == cp
  {
    var q := cp / 64;
    var q2 := q / 64;
    assert cp == q * 64 + cp % 64;
    assert q == q2 * 64 + q % 64;
    assert q2 == (q2 / 64) * 64 + q2 % 64;
    assert cp == (q2 / 64) * 262144 + (q2 % 64) * 4096 + (q % 64) * 64 + cp % 64;
    assert cp / 4096 == q2;
    assert cp / 262144 == q2 / 64;
  }

  /**
   * `Utf8(c)` is one well-formed sequence: its leading byte announces its
   * length, the rest are continuation bytes, and its payload bits are `c`.
   */
  lemma Utf8WellFormed(c: char, pieces: seq<Piece>)
    requires |Utf8(c)| <= |pieces| && forall i :: 0 <= i < |Utf8(c)| ==> pieces[i] == Byte(Utf8(c)[i])
    ensures pieces[0].Byte? && SequenceLength(pieces[0].b) == |Utf8(c)| && Continued(pieces, |Utf8(c)|)
    ensures CodePoint(pieces, |Utf8(c)|) == c as int
    ensures ShortestFor(|Utf8(c)|) <= c as int
  {
    var cp := c as int;
    if 0x800 <= cp < 0x1_0000 {
      Utf8Three(cp);
    } else if 0x1_0000 <= cp {
      Utf8Four(cp);
    }
  }

  /** The pieces of one character assemble back to that character, whatever follows. */
  lemma AssembleChar(c: char, rest: seq<Piece>, t: string)
    requires Assemble(rest) == Some(t)
    ensures Assemble(CharPieces(c) + rest) == Some([c] + t)
  {
    var p := CharPieces(c) + rest;
    if IsUnreserved(c) {
      assert p[1..] == rest;
    } else {
      var n := |Utf8(c)|;
      Utf8WellFormed(c, p);
      assert IsScalar(c as int);
      assert p[n..] == rest;
    }
  }

  /** The pieces of an encoded component assemble back to the component. */
  lemma {:induction false} AssemblePieces(s: string)
    ensures Assemble(Pieces(s)) == Some(s)
  {
    if s != [] {
      AssemblePieces(s[1..]);
      AssembleChar(s[0], Pieces(s[1..]), s[1..]);
      assert [s[0]] + s[1..] == s;
    }
  }

  /** `decodeURIComponent(encodeURIComponent(s)) === s`: the encoding loses nothing. */
  lemma EncodeRoundTrip(s: string)
    ensures DecodeUriComponent(EncodeUriComponent(s)) == Some(s)
  {
    UnescapeEncoded(s);
    AssemblePieces(s);
  }

  /** Distinct components encode to distinct strings. */
  lemma EncodeInjective(s: string, t: string)
    ensures EncodeUriComponent(s) == EncodeUriComponent(t) ==> s == t
  {
    EncodeRoundTrip(s);
    EncodeRoundTrip(t);
  }
}
