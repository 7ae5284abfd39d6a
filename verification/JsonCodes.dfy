/** Which code points a spelling stands for. The decoding of strings is checked against an
    encoder that knows nothing of it: section 7 of RFC 8259 writes a code point as four
    hexadecimal digits, or as the surrogate pair of one beyond the basic plane. */
module JsonCodes {
  import opened Basics
  import opened JsonReader
  import opened JsonSyntax

  /** A Unicode scalar value. */
  predicate Scalar(c: int) { 0 <= c <= 0x10ffff && !(0xd800 <= c <= 0xdfff) }

  function HexChar(n: int): (c: char)
    requires 0 <= n < 16
    ensures HexDigit(c)
  {
    if n < 10 then (48 + n) as char else (87 + n) as char
  }

  /** A backslash, a `u` and four digits. */
  function Escape(n: int): (p: Piece)
    requires 0 <= n < 0x10000
    ensures LegalPiece(p)
  {
    var a, b, c := n / 16, n / 16 / 16, n / 16 / 16 / 16;
    Hex(HexChar(c), HexChar(b % 16), HexChar(a % 16), HexChar(n % 16))
  }

  function Escaped(c: int): seq<Piece>
    requires Scalar(c)
  {
    if c < 0x10000 then [Escape(c)]
    else [Escape(High(c)), Escape(Low(c))]
  }

  /** The surrogates of a code point beyond the basic plane. */
  function High(c: int): int { 0xd800 + (c - 0x10000) / 1024 }

  function Low(c: int): int { 0xdc00 + (c - 0x10000) % 1024 }

  function AllEscaped(cs: seq<int>): (ps: seq<Piece>)
    requires forall i :: 0 <= i < |cs| ==> Scalar(cs[i])
  {
    if cs == [] then [] else Escaped(cs[0]) + AllEscaped(cs[1..])
  }

  lemma HexCharValue(n: int)
    requires 0 <= n < 16
    ensures HexValue(HexChar(n)) == n
  {
  }

  /** Four digits of base 16, the last one first. */
  lemma FourDigits(n: int)
    requires 0 <= n < 0x10000
    ensures
      var a, b, c := n / 16, n / 16 / 16, n / 16 / 16 / 16;
      0 <= c < 16 && ((c * 16 + b % 16) * 16 + a % 16) * 16 + n % 16 == n
  {
    var a, b, c := n / 16, n / 16 / 16, n / 16 / 16 / 16;
    assert c * 16 + b % 16 == b;
    assert b * 16 + a % 16 == a;
    assert a * 16 + n % 16 == n;
  }

  lemma EscapeCode(n: int)
    requires 0 <= n < 0x10000
    ensures Escape(n).Hex? && CodeOf(Escape(n)) == n
  {
    FourDigits(n);
    HexCharValue(n / 16 / 16 / 16);
    HexCharValue(n / 16 / 16 % 16);
    HexCharValue(n / 16 % 16);
    HexCharValue(n % 16);
  }

  /** Every sequence of scalar values can be written, and is what its escapes decode to. */
  lemma {:induction false} EveryText(cs: seq<int>)
    requires forall i :: 0 <= i < |cs| ==> Scalar(cs[i])
    ensures LegalPieces(AllEscaped(cs)) && Decoded(AllEscaped(cs)) == cs
    decreases |cs|
  {
    if cs != [] {
      EveryText(cs[1..]);
      OneMore(cs[0], AllEscaped(cs[1..]));
      assert cs == [cs[0]] + cs[1..];
    }
  }

  lemma OneMore(c: int, rest: seq<Piece>)
    requires Scalar(c)
    ensures Decoded(Escaped(c) + rest) == [c] + Decoded(rest)
  {
    if c < 0x10000 {
      EscapeCode(c);
      SingleCode(Escape(c), rest);
    } else {
      PairSplits(c);
      OnePair(c, High(c), Low(c), rest);
    }
  }

  lemma PairSplits(c: int)
    requires 0x10000 <= c <= 0x10ffff
    ensures 0xd800 <= High(c) <= 0xdbff && 0xdc00 <= Low(c) <= 0xdfff
    ensures c == 0x10000 + (High(c) - 0xd800) * 1024 + (Low(c) - 0xdc00)
  {
  }

  lemma OnePair(c: int, high: int, low: int, rest: seq<Piece>)
    requires 0xd800 <= high <= 0xdbff && 0xdc00 <= low <= 0xdfff && c == 0x10000 + (high - 0xd800) * 1024 + (low - 0xdc00)
    ensures Decoded([Escape(high), Escape(low)] + rest) == [c] + Decoded(rest)
  {
    EscapeCode(high);
    EscapeCode(low);
    PairCode(Escape(high), Escape(low), rest);
  }

  lemma SingleCode(p: Piece, rest: seq<Piece>)
    requires !(0xd800 <= CodeOf(p) <= 0xdfff)
    ensures Decoded([p] + rest) == [CodeOf(p)] + Decoded(rest)
  {
    assert ([p] + rest)[1..] == rest;
  }

  lemma PairCode(high: Piece, low: Piece, rest: seq<Piece>)
    requires high.Hex? && low.Hex? && 0xd800 <= CodeOf(high) <= 0xdbff && 0xdc00 <= CodeOf(low) <= 0xdfff
    ensures Decoded([high, low] + rest) == [0x10000 + (CodeOf(high) - 0xd800) * 1024 + (CodeOf(low) - 0xdc00)] + Decoded(rest)
  {
    assert ([high, low] + rest)[2..] == rest;
  }

  /** A plain character stands for itself, and each short escape for its control character,
      quote, slash or backslash. */
  lemma {:induction false} PlainText(s: string)
    ensures
      var ps := seq(|s|, i requires 0 <= i < |s| => Raw(s[i]));
      Decoded(ps) == seq(|s|, i requires 0 <= i < |s| => s[i] as int)
    decreases |s|
  {
    var ps := seq(|s|, i requires 0 <= i < |s| => Raw(s[i]));
    var codes := seq(|s|, i requires 0 <= i < |s| => s[i] as int);
    if s != "" {
      PlainText(s[1..]);
      var rest := seq(|s[1..]|, i requires 0 <= i < |s[1..]| => Raw(s[1..][i]));
      assert ps[1..] == rest && codes == [codes[0]] + codes[1..];
      assert codes[1..] == seq(|s[1..]|, i requires 0 <= i < |s[1..]| => s[1..][i] as int);
    }
  }

  lemma ShortCodes()
    ensures Decoded([Short('"'), Short('\\'), Short('/'), Short('b'), Short('f'), Short('n'), Short('r'), Short('t')])
         == [34, 92, 47, 8, 12, 10, 13, 9]
  {
    var ps := [Short('"'), Short('\\'), Short('/'), Short('b'), Short('f'), Short('n'), Short('r'), Short('t')];
    var cs := [34, 92, 47, 8, 12, 10, 13, 9];
    ShortRun(ps, cs);
  }

  lemma {:induction false} ShortRun(ps: seq<Piece>, cs: seq<int>)
    requires |ps| == |cs| && forall i :: 0 <= i < |ps| ==> ps[i].Short? && CodeOf(ps[i]) == cs[i]
    ensures Decoded(ps) == cs
    decreases |ps|
  {
    if ps != [] { ShortRun(ps[1..], cs[1..]); }
  }
}
