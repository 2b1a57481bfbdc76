/** The query part of a route: application/x-www-form-urlencoded, sections 5.1 and 5.2 of the
    WHATWG URL Standard. A byte is a character below 256. */
module Forms {
  import opened Text

  /** UTF-8. */
  datatype Utf8 = Utf8(encode: string -> string, decode: string -> string)

  predicate IsBytes(s: string) {
    forall i :: 0 <= i < |s| ==> s[i] < '\U{0100}'
  }

  predicate IsAscii(s: string) {
    forall i :: 0 <= i < |s| ==> s[i] < '\U{0080}'
  }

  /** Encoding can be undone, yields bytes, and leaves ASCII as it is. */
  ghost predicate Utf8Laws(u: Utf8) {
    && (forall s :: u.decode(u.encode(s)) == s)
    && (forall s :: IsBytes(u.encode(s)))
    && (forall s :: IsAscii(s) ==> u.encode(s) == s)
  }

  type Pair = (string, string)

  // ----- percent-encoding

  predicate Kept(c: char) {
    'a' <= c <= 'z' || 'A' <= c <= 'Z' || '0' <= c <= '9' || c == '*' || c == '-' || c == '.' || c == '_'
  }

  function HexDigit(n: nat): char
    requires n < 16
  {
    if n < 10 then '0' + n as char else 'A' + (n - 10) as char
  }

  function HexValue(c: char): int {
    if '0' <= c <= '9' then c as int - '0' as int
    else if 'A' <= c <= 'F' then c as int - 'A' as int + 10
    else if 'a' <= c <= 'f' then c as int - 'a' as int + 10
    else -1
  }

  function EncodeByte(c: char): string
    requires c < '\U{0100}'
  {
    if Kept(c) then [c]
    else if c == ' ' then "+"
    else ['%', HexDigit(c as int / 16), HexDigit(c as int % 16)]
  }

  function EncodeBytes(s: string): string
    requires IsBytes(s)
  {
    if s == "" then "" else EncodeByte(s[0]) + EncodeBytes(s[1..])
  }

  /** Plus signs to spaces, then percent-decoding; a percent sign without two hex digits stays. */
  function DecodeBytes(s: string): string {
    if s == "" then ""
    else if s[0] == '+' then " " + DecodeBytes(s[1..])
    else if s[0] == '%' && |s| >= 3 && HexValue(s[1]) >= 0 && HexValue(s[2]) >= 0 then
      [(HexValue(s[1]) * 16 + HexValue(s[2])) as char] + DecodeBytes(s[3..])
    else [s[0]] + DecodeBytes(s[1..])
  }

  lemma HexInverse(n: nat)
    requires n < 16
    ensures HexValue(HexDigit(n)) == n && HexDigit(n) < '\U{0080}' && HexDigit(n) != '&' && HexDigit(n) != '='
  {
  }

  lemma DecodeByte(c: char, rest: string)
    requires c < '\U{0100}'
    ensures DecodeBytes(EncodeByte(c) + rest) == [c] + DecodeBytes(rest)
  {
    var e := EncodeByte(c);
    var s := e + rest;
    if Kept(c) || c == ' ' {
      assert s[1..] == rest;
    } else {
      HexInverse(c as int / 16);
      HexInverse(c as int % 16);
      assert s[0] == '%' && s[1] == e[1] && s[2] == e[2] && s[3..] == rest;
    }
  }

  lemma {:induction false} BytesRoundTrip(s: string)
    requires IsBytes(s)
    ensures DecodeBytes(EncodeBytes(s)) == s
  {
    if s != "" {
      BytesRoundTrip(s[1..]);
      DecodeByte(s[0], EncodeBytes(s[1..]));
    }
  }

  /** No separator of the format survives in an encoded text. */
  predicate Plain(s: string) {
    forall i :: 0 <= i < |s| ==> s[i] < '\U{0080}' && s[i] != '&' && s[i] != '=' && s[i] != '?' && s[i] != '/' && s[i] != '#'
  }

  lemma PlainJoin(a: string, b: string)
    requires Plain(a) && Plain(b)
    ensures Plain(a + b)
  {
  }

  lemma PlainByte(c: char)
    requires c < '\U{0100}'
    ensures Plain(EncodeByte(c))
  {
  }

  lemma {:induction false} EncodedPlain(s: string)
    requires IsBytes(s)
    ensures Plain(EncodeBytes(s))
  {
    if s != "" {
      EncodedPlain(s[1..]);
      PlainByte(s[0]);
      PlainJoin(EncodeByte(s[0]), EncodeBytes(s[1..]));
    }
  }

  // ----- splitting

  predicate Lacks(s: string, c: char) {
    forall i :: 0 <= i < |s| ==> s[i] != c
  }

  function JoinWith(pieces: seq<string>, c: char): string {
    if pieces == [] then "" else if |pieces| == 1 then pieces[0] else pieces[0] + [c] + JoinWith(pieces[1..], c)
  }

  lemma {:induction false} SplitFirst(a: string, c: char, rest: string)
    requires Lacks(a, c)
    ensures Split(a + [c] + rest, c) == [a] + Split(rest, c)
    ensures Split(a, c) == [a]
  {
    if a == "" {
      assert (a + [c] + rest)[1..] == rest;
    } else {
      SplitFirst(a[1..], c, rest);
      assert (a + [c] + rest)[1..] == a[1..] + [c] + rest;
      assert [a[0]] + a[1..] == a;
    }
  }

  lemma {:induction false} SplitJoined(pieces: seq<string>, c: char)
    requires pieces != [] && forall i :: 0 <= i < |pieces| ==> Lacks(pieces[i], c)
    ensures Split(JoinWith(pieces, c), c) == pieces
  {
    SplitFirst(pieces[0], c, JoinWith(pieces[1..], c));
    if |pieces| > 1 {
      SplitJoined(pieces[1..], c);
    }
  }

  function Upto(s: string, c: char): (n: nat)
    ensures n <= |s| && (n < |s| ==> s[n] == c) && forall i :: 0 <= i < n ==> s[i] != c
  {
    if s == "" || s[0] == c then 0 else 1 + Upto(s[1..], c)
  }

  // ----- pairs

  function EncodeText(u: Utf8, s: string): string
    requires Utf8Laws(u)
  {
    EncodeBytes(u.encode(s))
  }

  function EncodePair(u: Utf8, p: Pair): string
    requires Utf8Laws(u)
  {
    EncodeText(u, p.0) + "=" + EncodeText(u, p.1)
  }

  function EncodePairs(u: Utf8, pairs: seq<Pair>): (r: seq<string>)
    requires Utf8Laws(u)
    ensures |r| == |pairs| && forall i :: 0 <= i < |r| ==> r[i] == EncodePair(u, pairs[i])
  {
    seq(|pairs|, i requires 0 <= i < |pairs| => EncodePair(u, pairs[i]))
  }

  /** Section 5.2: the serializer. */
  function Serialize(u: Utf8, pairs: seq<Pair>): string
    requires Utf8Laws(u)
  {
    JoinWith(EncodePairs(u, pairs), '&')
  }

  function DecodePair(u: Utf8, piece: string): Pair {
    var n := Upto(piece, '=');
    (u.decode(DecodeBytes(piece[..n])), u.decode(DecodeBytes(if n < |piece| then piece[n + 1..] else "")))
  }

  function DecodePieces(u: Utf8, pieces: seq<string>): seq<Pair> {
    if pieces == [] then []
    else (if pieces[0] == "" then [] else [DecodePair(u, pieces[0])]) + DecodePieces(u, pieces[1..])
  }

  /** Section 5.1: the parser. */
  function Parse(u: Utf8, query: string): seq<Pair> {
    DecodePieces(u, Split(u.encode(query), '&'))
  }

  lemma TextRoundTrip(u: Utf8, s: string)
    requires Utf8Laws(u)
    ensures u.decode(DecodeBytes(EncodeText(u, s))) == s && Plain(EncodeText(u, s))
  {
    BytesRoundTrip(u.encode(s));
    EncodedPlain(u.encode(s));
  }

  lemma UptoFirst(a: string, c: char, rest: string)
    requires Lacks(a, c)
    ensures Upto(a + [c] + rest, c) == |a|
  {
    var s := a + [c] + rest;
    assert s[|a|] == c && forall i :: 0 <= i < |a| ==> s[i] == a[i];
  }

  /** A piece falls apart at its first equals sign. */
  lemma PieceApart(u: Utf8, name: string, value: string)
    requires Plain(name) && Plain(value)
    ensures DecodePair(u, name + "=" + value) == (u.decode(DecodeBytes(name)), u.decode(DecodeBytes(value)))
  {
    var piece := name + "=" + value;
    UptoFirst(name, '=', value);
    assert piece[..|name|] == name && piece[|name| + 1..] == value;
  }

  lemma PieceLacks(name: string, value: string)
    requires Plain(name) && Plain(value)
    ensures name + "=" + value != "" && Lacks(name + "=" + value, '&')
  {
    assert (name + "=" + value)[|name|] == '=';
  }

  lemma PairRoundTrip(u: Utf8, p: Pair)
    requires Utf8Laws(u)
    ensures DecodePair(u, EncodePair(u, p)) == p
    ensures EncodePair(u, p) != "" && Lacks(EncodePair(u, p), '&')
  {
    TextRoundTrip(u, p.0);
    TextRoundTrip(u, p.1);
    PieceApart(u, EncodeText(u, p.0), EncodeText(u, p.1));
    PieceLacks(EncodeText(u, p.0), EncodeText(u, p.1));
  }

  lemma {:induction false} PiecesRoundTrip(u: Utf8, pairs: seq<Pair>)
    requires Utf8Laws(u)
    ensures DecodePieces(u, EncodePairs(u, pairs)) == pairs
  {
    if pairs != [] {
      PairRoundTrip(u, pairs[0]);
      PiecesRoundTrip(u, pairs[1..]);
      assert EncodePairs(u, pairs)[1..] == EncodePairs(u, pairs[1..]);
    }
  }

  ghost predicate Clean(s: string) {
    IsAscii(s) && Lacks(s, '?') && Lacks(s, '#')
  }

  lemma PlainTogether(a: string, b: string)
    requires Plain(a) && Plain(b)
    ensures Clean(a + "=" + b)
  {
  }

  lemma PairClean(u: Utf8, p: Pair)
    requires Utf8Laws(u)
    ensures Clean(EncodePair(u, p))
  {
    TextRoundTrip(u, p.0);
    TextRoundTrip(u, p.1);
    PlainTogether(EncodeText(u, p.0), EncodeText(u, p.1));
  }

  lemma {:induction false} JoinedClean(pieces: seq<string>)
    requires forall i :: 0 <= i < |pieces| ==> Clean(pieces[i])
    ensures Clean(JoinWith(pieces, '&'))
  {
    if |pieces| > 1 {
      JoinedClean(pieces[1..]);
    }
  }

  /** Whatever pairs of texts are serialized, parsing gives them back, in their order. */
  lemma FormRoundTrip(u: Utf8, pairs: seq<Pair>)
    requires Utf8Laws(u)
    ensures Parse(u, Serialize(u, pairs)) == pairs && Clean(Serialize(u, pairs))
  {
    var pieces := EncodePairs(u, pairs);
    forall i | 0 <= i < |pieces| ensures Clean(pieces[i]) && Lacks(pieces[i], '&') {
      PairRoundTrip(u, pairs[i]);
      PairClean(u, pairs[i]);
    }
    JoinedClean(pieces);
    if pairs == [] {
      assert Split("", '&') == [""] && [""][1..] == [];
      assert DecodePieces(u, [""]) == [];
    } else {
      SplitJoined(pieces, '&');
      PiecesRoundTrip(u, pairs);
    }
  }
}
