/** Every way of writing a JSON value: where the blanks go, how each character of each
    string is escaped, how each number is spelled. The reader of `JsonReader` returns
    the value that was written, so its peak, and with it the scanner's, is the depth of
    that value whatever the spelling. */
module JsonSyntax {
  import opened Basics
  import opened DepthScanner
  import opened JsonReader
  import JsonDepth

  datatype Numeral = Numeral(negative: bool, whole: string, fraction: string, exponent: string, mark: string)

  datatype Syntax =
    | NullWord
    | TrueWord
    | FalseWord
    | Numeric(n: Numeral)
    | Quoted(pieces: seq<Piece>)
    | Brackets(gap: string, items: seq<Item>)
    | Braces(gap: string, entries: seq<Entry>)

  datatype Item = Item(before: string, value: Syntax, after: string)

  datatype Entry = Entry(before: string, name: seq<Piece>, mid: string, lead: string, value: Syntax, after: string)

  predicate AllBlank(s: string) { forall k :: 0 <= k < |s| ==> Blank(s[k]) }

  predicate LegalPieces(ps: seq<Piece>) { forall k :: 0 <= k < |ps| ==> LegalPiece(ps[k]) }

  /** `mark` is the exponent's letter with its optional sign. */
  predicate LegalNumeral(n: Numeral) {
    && n.whole != "" && AllDigits(n.whole) && (n.whole[0] == '0' ==> |n.whole| == 1)
    && AllDigits(n.fraction) && AllDigits(n.exponent)
    && (n.mark == "" <==> n.exponent == "")
    && (n.mark != "" ==> |n.mark| <= 2 && (n.mark[0] == 'e' || n.mark[0] == 'E')
                         && (|n.mark| == 2 ==> n.mark[1] == '+' || n.mark[1] == '-'))
  }

  predicate Legal(s: Syntax)
    decreases s
  {
    match s
    case Numeric(n) => LegalNumeral(n)
    case Quoted(ps) => LegalPieces(ps)
    case Brackets(gap, items) =>
      AllBlank(gap) && forall k :: 0 <= k < |items| ==>
        AllBlank(items[k].before) && Legal(items[k].value) && AllBlank(items[k].after)
    case Braces(gap, entries) =>
      AllBlank(gap) && forall k :: 0 <= k < |entries| ==>
        AllBlank(entries[k].before) && LegalPieces(entries[k].name) && AllBlank(entries[k].mid)
        && AllBlank(entries[k].lead) && Legal(entries[k].value) && AllBlank(entries[k].after)
    case _ => true
  }

  // -------------------------------------------------------------------- the printer
  // Each function prints in front of the text `rest` that follows.

  function SignText(n: Numeral): string { if n.negative then "-" else "" }

  function FractionText(n: Numeral): string { if n.fraction == "" then "" else "." + n.fraction }

  function NumeralText(n: Numeral): string {
    SignText(n) + (n.whole + (FractionText(n) + (n.mark + n.exponent)))
  }

  function PieceText(p: Piece): string {
    match p
    case Raw(c) => [c]
    case Short(e) => ['\\', e]
    case Hex(a, b, c, d) => ['\\', 'u', a, b, c, d]
  }

  function PrintPieces(ps: seq<Piece>, rest: string): string {
    if ps == [] then "\"" + rest else PieceText(ps[0]) + PrintPieces(ps[1..], rest)
  }

  function Print(s: Syntax, rest: string): string
    decreases s
  {
    match s
    case NullWord => "null" + rest
    case TrueWord => "true" + rest
    case FalseWord => "false" + rest
    case Numeric(n) => NumeralText(n) + rest
    case Quoted(ps) => "\"" + PrintPieces(ps, rest)
    case Brackets(gap, items) => "[" + if items == [] then gap + ("]" + rest) else PrintItems(items, rest)
    case Braces(gap, entries) => "{" + if entries == [] then gap + ("}" + rest) else PrintEntries(entries, rest)
  }

  function PrintItems(items: seq<Item>, rest: string): string
    requires items != []
    decreases items, 1
  {
    items[0].before + Print(items[0].value, items[0].after + MoreItems(items, rest))
  }

  function MoreItems(items: seq<Item>, rest: string): string
    requires items != []
    decreases items, 0
  {
    if |items| == 1 then "]" + rest else "," + PrintItems(items[1..], rest)
  }

  function PrintEntries(entries: seq<Entry>, rest: string): string
    requires entries != []
    decreases entries, 1
  {
    entries[0].before + ("\"" + PrintPieces(entries[0].name, PrintNamed(entries, rest)))
  }

  /** What follows the first entry's name. */
  function PrintNamed(entries: seq<Entry>, rest: string): string
    requires entries != []
    decreases entries, 0, 1
  {
    var e := entries[0];
    e.mid + (":" + (e.lead + Print(e.value, e.after + MoreEntries(entries, rest))))
  }

  function MoreEntries(entries: seq<Entry>, rest: string): string
    requires entries != []
    decreases entries, 0, 0
  {
    if |entries| == 1 then "}" + rest else "," + PrintEntries(entries[1..], rest)
  }

  // ------------------------------------------------------------- the value written

  function Value(s: Syntax): Json
    decreases s
  {
    match s
    case NullWord => Null
    case TrueWord => Bool(true)
    case FalseWord => Bool(false)
    case Numeric(n) => Number(NumeralText(n))
    case Quoted(ps) => String(Decoded(ps))
    case Brackets(_, items) => Array(ItemValues(items))
    case Braces(_, entries) => Object(EntryValues(entries))
  }

  function ItemValues(items: seq<Item>): (vs: seq<Json>)
    ensures |vs| == |items|
    decreases items
  {
    if items == [] then [] else [Value(items[0].value)] + ItemValues(items[1..])
  }

  function EntryValues(entries: seq<Entry>): (ms: seq<Member>)
    ensures |ms| == |entries|
    decreases entries
  {
    if entries == [] then []
    else [Member(Decoded(entries[0].name), Value(entries[0].value))] + EntryValues(entries[1..])
  }

  /** Every number in `s` passes the hook. */
  predicate Numbers(s: Syntax, hooks: Hooks)
    decreases s
  {
    match s
    case Numeric(n) => hooks.number(NumeralText(n))
    case Brackets(_, items) => forall k :: 0 <= k < |items| ==> Numbers(items[k].value, hooks)
    case Braces(_, entries) => forall k :: 0 <= k < |entries| ==> Numbers(entries[k].value, hooks)
    case _ => true
  }

  // ------------------------------------------------------------ text at a position

  /** What is left of `t` from position `i` is `w`. */
  predicate From(t: string, i: int, w: string) {
    0 <= i <= |t| && t[i..] == w
  }

  lemma Pass(t: string, i: nat, a: string, w: string)
    requires From(t, i, a + w)
    ensures From(t, i + |a|, w)
    ensures i + |a| == |t| - |w|
    ensures forall k :: 0 <= k < |a| ==> t[i + k] == a[k]
  {
    assert t[i + |a|..] == t[i..][|a|..] == (a + w)[|a|..] == w;
    forall k | 0 <= k < |a| ensures t[i + k] == a[k] {
      assert t[i + k] == t[i..][k] == (a + w)[k];
    }
  }

  /** What may follow a value: nothing, a blank, or a structural character. */
  predicate Boundary(w: string) {
    w == "" || Blank(w[0]) || w[0] == ',' || w[0] == ']' || w[0] == '}'
  }

  lemma One(t: string, i: nat, c: char, w: string)
    requires From(t, i, [c] + w)
    ensures i < |t| && t[i] == c && From(t, i + 1, w)
  {
    Pass(t, i, [c], w);
    assert t[i + 0] == c;
  }

  lemma First(t: string, i: nat, w: string)
    requires From(t, i, w)
    ensures i == |t| - |w|
    ensures if w == "" then i == |t| else i < |t| && t[i] == w[0]
  {
    if w != "" { assert t[i] == t[i..][0]; }
  }

  lemma {:induction false} BlanksRead(t: string, i: nat, b: string, w: string)
    requires From(t, i, b + w) && AllBlank(b) && (w == "" || !Blank(w[0]))
    ensures SkipBlanks(t, i) == |t| - |w| && From(t, |t| - |w|, w)
    decreases |b|
  {
    First(t, i, b + w);
    if b == "" {
      assert b + w == w;
    } else {
      assert b + w == b[..1] + (b[1..] + w);
      Pass(t, i, b[..1], b[1..] + w);
      BlanksRead(t, i + 1, b[1..], w);
    }
  }

  lemma {:induction false} DigitsRead(t: string, i: nat, d: string, w: string)
    requires From(t, i, d + w) && AllDigits(d) && (w == "" || !Digit(w[0]))
    ensures SkipDigits(t, i) == |t| - |w| && From(t, |t| - |w|, w)
    decreases |d|
  {
    First(t, i, d + w);
    if d == "" {
      assert d + w == w;
    } else {
      assert d + w == d[..1] + (d[1..] + w);
      Pass(t, i, d[..1], d[1..] + w);
      DigitsRead(t, i + 1, d[1..], w);
    }
  }

  // --------------------------------------------------------------- numbers and strings

  /** A nonempty digit run: its first digit is seen, the rest is skipped. */
  lemma RunRead(t: string, i: nat, d: string, w: string)
    requires From(t, i, d + w) && AllDigits(d) && d != "" && (w == "" || !Digit(w[0]))
    ensures i < |t| && t[i] == d[0] && SkipDigits(t, i + 1) == |t| - |w| && From(t, |t| - |w|, w)
    ensures i + |d| == |t| - |w|
  {
    assert d + w == d[..1] + (d[1..] + w);
    Pass(t, i, d[..1], d[1..] + w);
    Pass(t, i, d, w);
    DigitsRead(t, i + 1, d[1..], w);
  }

  lemma WholeRead(t: string, i: nat, n: Numeral, w: string)
    requires LegalNumeral(n)
    requires From(t, i, SignText(n) + (n.whole + w)) && (w == "" || !Digit(w[0]))
    ensures IntegerEnd(t, i) == |t| - |w| > i && From(t, |t| - |w|, w)
  {
    Pass(t, i, SignText(n), n.whole + w);
    RunRead(t, i + |SignText(n)|, n.whole, w);
  }

  lemma FractionRead(t: string, i: nat, n: Numeral, w: string)
    requires LegalNumeral(n)
    requires From(t, i, FractionText(n) + w) && (w == "" || (!Digit(w[0]) && w[0] != '.'))
    ensures FractionEnd(t, i) == |t| - |w| && From(t, |t| - |w|, w)
  {
    if n.fraction == "" {
      assert FractionText(n) + w == w;
      First(t, i, w);
    } else {
      assert FractionText(n) + w == "." + (n.fraction + w);
      Pass(t, i, ".", n.fraction + w);
      RunRead(t, i + 1, n.fraction, w);
    }
  }

  lemma ExponentRead(t: string, i: nat, n: Numeral, w: string)
    requires LegalNumeral(n) && Boundary(w)
    requires From(t, i, n.mark + (n.exponent + w))
    ensures ExponentEnd(t, i) == |t| - |w|
  {
    if n.mark == "" {
      assert n.mark + (n.exponent + w) == w;
      First(t, i, w);
    } else {
      Pass(t, i, n.mark, n.exponent + w);
      RunRead(t, i + |n.mark|, n.exponent, w);
    }
  }

  /** What follows the whole part and the fraction starts with no digit. */
  lemma NumeralSeams(n: Numeral, w: string)
    requires LegalNumeral(n) && Boundary(w)
    ensures
      var tail := n.mark + (n.exponent + w);
      var body := FractionText(n) + tail;
      (tail == "" || (!Digit(tail[0]) && tail[0] != '.')) && (body == "" || !Digit(body[0]))
  {
    var tail := n.mark + (n.exponent + w);
    if n.mark == "" { assert tail == w; }
  }

  lemma NumeralRead(t: string, i: nat, n: Numeral, tail: string, body: string, w: string)
    requires LegalNumeral(n) && Boundary(w)
    requires tail == n.mark + (n.exponent + w) && (tail == "" || (!Digit(tail[0]) && tail[0] != '.'))
    requires body == FractionText(n) + tail && (body == "" || !Digit(body[0]))
    requires From(t, i, SignText(n) + (n.whole + body))
    ensures i < NumberEnd(t, i) == |t| - |w|
  {
    WholeRead(t, i, n, body);
    NumeralTailRead(t, IntegerEnd(t, i), n, tail, w);
  }

  lemma NumeralTailRead(t: string, i: nat, n: Numeral, tail: string, w: string)
    requires LegalNumeral(n) && Boundary(w)
    requires tail == n.mark + (n.exponent + w) && (tail == "" || (!Digit(tail[0]) && tail[0] != '.'))
    requires From(t, i, FractionText(n) + tail)
    ensures ExponentEnd(t, FractionEnd(t, i)) == |t| - |w|
  {
    FractionRead(t, i, n, tail);
    ExponentRead(t, FractionEnd(t, i), n, w);
  }

  lemma NumeralSplit(n: Numeral, w: string)
    ensures NumeralText(n) + w == SignText(n) + (n.whole + (FractionText(n) + (n.mark + (n.exponent + w))))
  {
    var e := n.mark + n.exponent;
    assert e + w == n.mark + (n.exponent + w);
    var f := FractionText(n) + e;
    assert f + w == FractionText(n) + (e + w);
    assert (n.whole + f) + w == n.whole + (f + w);
  }

  lemma NumeralSlice(t: string, i: nat, a: string, w: string)
    requires From(t, i, a + w)
    ensures |t| - |w| >= i && t[i..|t| - |w|] == a && From(t, |t| - |w|, w)
    ensures a != "" ==> i < |t| && t[i] == a[0]
  {
    Pass(t, i, a, w);
    if a != "" { assert t[i + 0] == a[0]; }
  }

  lemma NumeralStart(n: Numeral)
    requires LegalNumeral(n)
    ensures
      var x := NumeralText(n);
      x != "" && (x[0] == '-' || Digit(x[0]))
  {
    var rest := n.whole + (FractionText(n) + (n.mark + n.exponent));
    assert rest[0] == n.whole[0];
  }

  lemma PieceRead(t: string, i: nat, p: Piece, w: string)
    requires LegalPiece(p) && From(t, i, PieceText(p) + w)
    ensures From(t, i + |PieceText(p)|, w)
    ensures ReadPieces(t, i) == Prepend(p, ReadPieces(t, i + |PieceText(p)|))
  {
    Pass(t, i, PieceText(p), w);
    var x := PieceText(p);
    assert t[i + 0] == x[0];
    if !p.Raw? { assert t[i + 1] == x[1]; }
    if p.Hex? { assert t[i + 2] == x[2] && t[i + 3] == x[3] && t[i + 4] == x[4] && t[i + 5] == x[5]; }
  }

  lemma {:induction false} PiecesRead(t: string, i: nat, ps: seq<Piece>, rest: string)
    requires LegalPieces(ps) && From(t, i, PrintPieces(ps, rest))
    ensures From(t, |t| - |rest|, rest) && ReadPieces(t, i) == Lexed(ps, |t| - |rest|)
    decreases |ps|
  {
    if ps == [] {
      One(t, i, '"', rest);
    } else {
      PieceRead(t, i, ps[0], PrintPieces(ps[1..], rest));
      PiecesRead(t, i + |PieceText(ps[0])|, ps[1..], rest);
      assert ps == [ps[0]] + ps[1..];
    }
  }

  // ------------------------------------------------------------------- whole values

  lemma PrintStart(s: Syntax, rest: string)
    requires Legal(s)
    ensures
      var w := Print(s, rest);
      w != "" && !Blank(w[0]) && w[0] != ']' && w[0] != '}' && w[0] != ','
  {
    if s.Numeric? { NumeralStart(s.n); }
  }

  /** Everything `ValueRead` needs to know about the syntax. */
  ghost predicate Readable(s: Syntax, hooks: Hooks) {
    Legal(s) && Numbers(s, hooks) && Passes(Value(s), hooks.pairs)
  }

  ghost predicate ReadableItems(items: seq<Item>, hooks: Hooks) {
    forall k :: 0 <= k < |items| ==>
      AllBlank(items[k].before) && AllBlank(items[k].after) && Readable(items[k].value, hooks)
  }

  ghost predicate ReadableEntries(entries: seq<Entry>, hooks: Hooks) {
    forall k :: 0 <= k < |entries| ==>
      AllBlank(entries[k].before) && LegalPieces(entries[k].name) && AllBlank(entries[k].mid)
      && AllBlank(entries[k].lead) && AllBlank(entries[k].after) && Readable(entries[k].value, hooks)
  }

  lemma {:induction false} ItemValuesAt(items: seq<Item>, k: nat)
    requires k < |items|
    ensures ItemValues(items)[k] == Value(items[k].value)
    decreases k
  {
    if k > 0 { ItemValuesAt(items[1..], k - 1); }
  }

  lemma {:induction false} EntryValuesAt(entries: seq<Entry>, k: nat)
    requires k < |entries|
    ensures EntryValues(entries)[k] == Member(Decoded(entries[k].name), Value(entries[k].value))
    decreases k
  {
    if k > 0 { EntryValuesAt(entries[1..], k - 1); }
  }

  lemma Inner(s: Syntax, hooks: Hooks)
    requires Readable(s, hooks)
    ensures s.Brackets? ==> ReadableItems(s.items, hooks)
    ensures s.Braces? ==> ReadableEntries(s.entries, hooks)
  {
    if s.Brackets? {
      forall k | 0 <= k < |s.items| ensures Passes(Value(s.items[k].value), hooks.pairs) {
        ItemValuesAt(s.items, k);
      }
    } else if s.Braces? {
      forall k | 0 <= k < |s.entries| ensures Passes(Value(s.entries[k].value), hooks.pairs) {
        EntryValuesAt(s.entries, k);
      }
    }
  }

  ghost predicate Returns<T(!new)>(r: Read<T>, value: T, at: int) {
    r.Good? && r.value == value && r.at == at
  }

  lemma {:induction false} ValueRead(t: string, i: nat, open: nat, s: Syntax, rest: string, hooks: Hooks)
    requires Readable(s, hooks) && Boundary(rest) && From(t, i, Print(s, rest))
    ensures From(t, |t| - |rest|, rest) && Returns(ReadValue(t, i, open, hooks), Value(s), |t| - |rest|)
    decreases s, 1
  {
    match s
    case NullWord =>
      NullRead(t, i, open, rest, hooks);
      ScalarRead(t, i, open, hooks);
    case TrueWord =>
      TrueRead(t, i, open, rest, hooks);
      ScalarRead(t, i, open, hooks);
    case FalseWord =>
      FalseRead(t, i, open, rest, hooks);
      ScalarRead(t, i, open, hooks);
    case Numeric(n) =>
      NumericRead(t, i, open, n, rest, hooks);
      ScalarRead(t, i, open, hooks);
    case Quoted(ps) => QuotedRead(t, i, ps, rest);
    case Brackets(_, _) => BracketsRead(t, i, open, s, rest, hooks);
    case Braces(_, _) => BracesRead(t, i, open, s, rest, hooks);
  }

  lemma {:induction false} BracketsRead(t: string, i: nat, open: nat, s: Syntax, rest: string, hooks: Hooks)
    requires s.Brackets? && Readable(s, hooks) && From(t, i, Print(s, rest))
    ensures From(t, |t| - |rest|, rest) && Returns(ReadValue(t, i, open, hooks), Value(s), |t| - |rest|)
    decreases s, 0
  {
    Inner(s, hooks);
    if s.items == [] {
      EmptyRead(t, i, '[', s.gap, ']', rest);
    } else {
      One(t, i, '[', PrintItems(s.items, rest));
      ItemsRead(t, i + 1, open + 1, s.items, rest, hooks);
    }
  }

  lemma {:induction false} BracesRead(t: string, i: nat, open: nat, s: Syntax, rest: string, hooks: Hooks)
    requires s.Braces? && Readable(s, hooks) && From(t, i, Print(s, rest))
    ensures From(t, |t| - |rest|, rest) && Returns(ReadValue(t, i, open, hooks), Value(s), |t| - |rest|)
    decreases s, 0
  {
    Inner(s, hooks);
    if s.entries == [] {
      EmptyRead(t, i, '{', s.gap, '}', rest);
    } else {
      One(t, i, '{', PrintEntries(s.entries, rest));
      EntriesRead(t, i + 1, open + 1, s.entries, rest, hooks);
    }
  }

  lemma WordRead(t: string, i: nat, word: string, rest: string)
    requires From(t, i, word + rest) && word != ""
    ensures Starts(t, i, word) && t[i] == word[0] && i + |word| == |t| - |rest| && From(t, |t| - |rest|, rest)
  {
    Pass(t, i, word, rest);
    assert t[i + 0] == word[0];
  }

  lemma NullRead(t: string, i: nat, open: nat, rest: string, hooks: Hooks)
    requires From(t, i, "null" + rest)
    ensures i < |t| && t[i] == "null"[0] && From(t, |t| - |rest|, rest)
    ensures Returns(ReadScalar(t, i, open, hooks), Value(NullWord), |t| - |rest|)
  {
    WordRead(t, i, "null", rest);
    OtherWord(t, i);
  }

  lemma TrueRead(t: string, i: nat, open: nat, rest: string, hooks: Hooks)
    requires From(t, i, "true" + rest)
    ensures i < |t| && t[i] == "true"[0] && From(t, |t| - |rest|, rest)
    ensures Returns(ReadScalar(t, i, open, hooks), Value(TrueWord), |t| - |rest|)
  {
    WordRead(t, i, "true", rest);
    OtherWord(t, i);
  }

  lemma FalseRead(t: string, i: nat, open: nat, rest: string, hooks: Hooks)
    requires From(t, i, "false" + rest)
    ensures i < |t| && t[i] == "false"[0] && From(t, |t| - |rest|, rest)
    ensures Returns(ReadScalar(t, i, open, hooks), Value(FalseWord), |t| - |rest|)
  {
    WordRead(t, i, "false", rest);
    OtherWord(t, i);
  }

  /** A word starts with its first letter. */
  lemma OtherWord(t: string, i: nat)
    requires i < |t|
    ensures t[i] != 'n' ==> !Starts(t, i, "null")
    ensures t[i] != 't' ==> !Starts(t, i, "true")
  {
    if Starts(t, i, "null") { assert t[i..i + 4][0] == "null"[0]; }
    if Starts(t, i, "true") { assert t[i..i + 4][0] == "true"[0]; }
  }

  lemma ScalarRead(t: string, i: nat, open: nat, hooks: Hooks)
    requires i < |t| && t[i] != '"' && t[i] != '[' && t[i] != '{'
    ensures ReadValue(t, i, open, hooks) == ReadScalar(t, i, open, hooks)
  {
  }

  /** One step of the reader over members. */
  lemma MembersNamed(t: string, j: nat, name: seq<Piece>, at: nat, open: nat, hooks: Hooks)
    requires j < |t| && t[j] == '"' && ReadPieces(t, j + 1) == Lexed(name, at) && at <= |t|
    ensures ReadMembers(t, j, open, hooks) == ReadNamed(t, Decoded(name), at, open, hooks)
  {
  }

  lemma MembersClose(t: string, m: Member, at: nat, peak: nat, open: nat, hooks: Hooks)
    requires at <= |t| && open <= peak && SkipBlanks(t, at) < |t| && t[SkipBlanks(t, at)] == '}'
    ensures Returns(MembersTail(t, m, at, peak, open, hooks), [m], SkipBlanks(t, at) + 1)
  {
  }

  lemma MembersMore(t: string, m: Member, at: nat, peak: nat, open: nat, ms: seq<Member>, end: nat, hooks: Hooks)
    requires at <= |t| && open <= peak && SkipBlanks(t, at) < |t| && t[SkipBlanks(t, at)] == ','
    requires Returns(ReadMembers(t, SkipBlanks(t, SkipBlanks(t, at) + 1), open, hooks), ms, end)
    ensures Returns(MembersTail(t, m, at, peak, open, hooks), [m] + ms, end)
  {
  }

  lemma NumericEnd(t: string, i: nat, n: Numeral, rest: string)
    requires LegalNumeral(n) && Boundary(rest) && From(t, i, NumeralText(n) + rest)
    ensures i < NumberEnd(t, i) == |t| - |rest|
  {
    NumeralSeams(n, rest);
    NumeralSplit(n, rest);
    var tail := n.mark + (n.exponent + rest);
    NumeralRead(t, i, n, tail, FractionText(n) + tail, rest);
  }

  lemma NumericRead(t: string, i: nat, open: nat, n: Numeral, rest: string, hooks: Hooks)
    requires LegalNumeral(n) && hooks.number(NumeralText(n)) && Boundary(rest)
    requires From(t, i, NumeralText(n) + rest)
    ensures From(t, |t| - |rest|, rest) && i < |t| && (Digit(t[i]) || t[i] == '-')
    ensures Returns(ReadScalar(t, i, open, hooks), Number(NumeralText(n)), |t| - |rest|)
  {
    NumericEnd(t, i, n, rest);
    NumeralStart(n);
    NumericAt(t, i, open, NumeralText(n), rest, hooks);
  }

  lemma NumericAt(t: string, i: nat, open: nat, text: string, rest: string, hooks: Hooks)
    requires text != "" && (Digit(text[0]) || text[0] == '-') && hooks.number(text)
    requires From(t, i, text + rest) && i < NumberEnd(t, i) == |t| - |rest|
    ensures From(t, |t| - |rest|, rest) && i < |t| && (Digit(t[i]) || t[i] == '-')
    ensures Returns(ReadScalar(t, i, open, hooks), Number(text), |t| - |rest|)
  {
    NumeralSlice(t, i, text, rest);
    NumberRead(t, i, open, text, hooks);
  }

  lemma NumberRead(t: string, i: nat, open: nat, text: string, hooks: Hooks)
    requires i < |t| && (Digit(t[i]) || t[i] == '-') && hooks.number(text)
    requires i < NumberEnd(t, i) && t[i..NumberEnd(t, i)] == text
    ensures Returns(ReadScalar(t, i, open, hooks), Number(text), NumberEnd(t, i))
  {
    NotWord(t, i);
  }

  lemma NotWord(t: string, i: nat)
    requires i < |t| && (Digit(t[i]) || t[i] == '-')
    ensures !Starts(t, i, "null") && !Starts(t, i, "true") && !Starts(t, i, "false")
  {
    assert "null"[0] == 'n' && "true"[0] == 't' && "false"[0] == 'f';
    assert forall w: string :: w != "" && Starts(t, i, w) ==> t[i..i + |w|][0] == w[0];
  }

  lemma EmptyRead(t: string, i: nat, left: char, gap: string, right: char, rest: string)
    requires AllBlank(gap) && !Blank(right)
    requires From(t, i, [left] + (gap + ([right] + rest)))
    ensures i < |t| && t[i] == left
    ensures
      var j := SkipBlanks(t, i + 1);
      j < |t| && t[j] == right && j + 1 == |t| - |rest| && From(t, |t| - |rest|, rest)
  {
    One(t, i, left, gap + ([right] + rest));
    BlanksRead(t, i + 1, gap, [right] + rest);
    One(t, SkipBlanks(t, i + 1), right, rest);
  }

  lemma {:induction false} ItemsRead(t: string, i: nat, open: nat, items: seq<Item>, rest: string, hooks: Hooks)
    requires items != [] && ReadableItems(items, hooks) && From(t, i, PrintItems(items, rest))
    ensures
      var j := SkipBlanks(t, i);
      j < |t| && t[j] != ']'
      && From(t, |t| - |rest|, rest) && Returns(ReadItems(t, j, open, hooks), ItemValues(items), |t| - |rest|)
    decreases items, 1
  {
    var it := items[0];
    var more := MoreItems(items, rest);
    PrintStart(it.value, it.after + more);
    BlanksRead(t, i, it.before, Print(it.value, it.after + more));
    var j := SkipBlanks(t, i);
    First(t, j, Print(it.value, it.after + more));
    ValueRead(t, j, open, it.value, it.after + more, hooks);
    var r := ReadValue(t, j, open, hooks);
    ItemsTailRead(t, r.at, r.peak, open, items, rest, hooks);
  }

  lemma {:induction false} ItemsTailRead(t: string, at: nat, peak: nat, open: nat, items: seq<Item>, rest: string, hooks: Hooks)
    requires items != [] && ReadableItems(items, hooks) && open <= peak
    requires From(t, at, items[0].after + MoreItems(items, rest))
    ensures From(t, |t| - |rest|, rest)
    ensures Returns(ItemsTail(t, Value(items[0].value), at, peak, open, hooks), ItemValues(items), |t| - |rest|)
    decreases items, 0
  {
    BlanksRead(t, at, items[0].after, MoreItems(items, rest));
    if |items| == 1 {
      One(t, SkipBlanks(t, at), ']', rest);
      assert ItemValues(items) == [Value(items[0].value)];
    } else {
      NextItemsRead(t, SkipBlanks(t, at), open, items, rest, hooks);
    }
  }

  lemma {:induction false} NextItemsRead(t: string, j: nat, open: nat, items: seq<Item>, rest: string, hooks: Hooks)
    requires |items| > 1 && ReadableItems(items, hooks) && From(t, j, MoreItems(items, rest))
    ensures From(t, |t| - |rest|, rest)
    ensures j < |t| && t[j] == ','
    ensures Returns(ReadItems(t, SkipBlanks(t, j + 1), open, hooks), ItemValues(items[1..]), |t| - |rest|)
    decreases items[1..], 2
  {
    One(t, j, ',', PrintItems(items[1..], rest));
    ItemsRead(t, j + 1, open, items[1..], rest, hooks);
  }

  lemma QuotedRead(t: string, j: nat, name: seq<Piece>, w: string)
    requires LegalPieces(name) && From(t, j, "\"" + PrintPieces(name, w))
    ensures j < |t| && t[j] == '"' && From(t, |t| - |w|, w) && ReadPieces(t, j + 1) == Lexed(name, |t| - |w|)
  {
    One(t, j, '"', PrintPieces(name, w));
    PiecesRead(t, j + 1, name, w);
  }

  /** A member name, after blanks. */
  lemma NameRead(t: string, i: nat, before: string, name: seq<Piece>, named: string, w: string)
    requires AllBlank(before) && LegalPieces(name) && w == "\"" + PrintPieces(name, named) && From(t, i, before + w)
    ensures SkipBlanks(t, i) == |t| - |w| && Named(t, |t| - |w|, name, named)
  {
    assert w[0] == '"';
    BlanksRead(t, i, before, w);
    QuotedRead(t, |t| - |w|, name, named);
  }

  /** A name between quotes stands at `j`, and `named` after it. */
  ghost predicate Named(t: string, j: int, name: seq<Piece>, named: string) {
    && 0 <= j < |t| && t[j] == '"' && From(t, |t| - |named|, named)
    && ReadPieces(t, j + 1) == Lexed(name, |t| - |named|)
  }

  lemma EntryStart(t: string, i: nat, entries: seq<Entry>, rest: string, hooks: Hooks)
    requires entries != [] && ReadableEntries(entries, hooks) && From(t, i, PrintEntries(entries, rest))
    ensures Named(t, SkipBlanks(t, i), entries[0].name, PrintNamed(entries, rest))
  {
    var named := PrintNamed(entries, rest);
    NameRead(t, i, entries[0].before, entries[0].name, named, "\"" + PrintPieces(entries[0].name, named));
  }

  lemma {:induction false} MembersRead(t: string, j: nat, open: nat, entries: seq<Entry>, rest: string, hooks: Hooks)
    requires entries != [] && ReadableEntries(entries, hooks) && Named(t, j, entries[0].name, PrintNamed(entries, rest))
    ensures From(t, |t| - |rest|, rest) && Returns(ReadMembers(t, j, open, hooks), EntryValues(entries), |t| - |rest|)
    decreases entries, 3
  {
    var at := |t| - |PrintNamed(entries, rest)|;
    MembersNamed(t, j, entries[0].name, at, open, hooks);
    NamedRead(t, at, open, entries, rest, hooks);
  }

  lemma {:induction false} EntriesRead(t: string, i: nat, open: nat, entries: seq<Entry>, rest: string, hooks: Hooks)
    requires entries != [] && ReadableEntries(entries, hooks) && From(t, i, PrintEntries(entries, rest))
    ensures
      var j := SkipBlanks(t, i);
      j < |t| && t[j] != '}'
      && From(t, |t| - |rest|, rest) && Returns(ReadMembers(t, j, open, hooks), EntryValues(entries), |t| - |rest|)
    decreases entries, 4
  {
    EntryStart(t, i, entries, rest, hooks);
    MembersRead(t, SkipBlanks(t, i), open, entries, rest, hooks);
  }

  /** The text after a member's value. */
  function AfterValue(entries: seq<Entry>, rest: string): string
    requires entries != []
  {
    entries[0].after + MoreEntries(entries, rest)
  }

  lemma ValueStart(t: string, at: nat, entries: seq<Entry>, rest: string, hooks: Hooks)
    requires entries != [] && ReadableEntries(entries, hooks) && From(t, at, PrintNamed(entries, rest))
    ensures Boundary(AfterValue(entries, rest))
    ensures
      var colon := SkipBlanks(t, at);
      colon < |t| && t[colon] == ':' && From(t, SkipBlanks(t, colon + 1), Print(entries[0].value, AfterValue(entries, rest)))
  {
    var e := entries[0];
    var body := Print(e.value, AfterValue(entries, rest));
    PrintStart(e.value, AfterValue(entries, rest));
    ColonRead(t, at, e.mid, e.lead, body);
  }

  lemma {:induction false} NamedRead(t: string, at: nat, open: nat, entries: seq<Entry>, rest: string, hooks: Hooks)
    requires entries != [] && ReadableEntries(entries, hooks) && From(t, at, PrintNamed(entries, rest))
    ensures From(t, |t| - |rest|, rest)
    ensures Returns(ReadNamed(t, Decoded(entries[0].name), at, open, hooks), EntryValues(entries), |t| - |rest|)
    decreases entries, 2
  {
    ValueStart(t, at, entries, rest, hooks);
    NamedValueRead(t, SkipBlanks(t, SkipBlanks(t, at) + 1), open, entries, rest, hooks);
  }

  /** A member's value and all that follows it in the object. */
  lemma {:induction false} NamedValueRead(t: string, j: nat, open: nat, entries: seq<Entry>, rest: string, hooks: Hooks)
    requires entries != [] && ReadableEntries(entries, hooks) && Boundary(AfterValue(entries, rest))
    requires From(t, j, Print(entries[0].value, AfterValue(entries, rest)))
    ensures From(t, |t| - |rest|, rest) && j <= |t|
    ensures
      var r := ReadValue(t, j, open, hooks);
      && r.Good?
      && Returns(MembersTail(t, Member(Decoded(entries[0].name), r.value), r.at, r.peak, open, hooks), EntryValues(entries), |t| - |rest|)
    decreases entries, 1
  {
    ValueRead(t, j, open, entries[0].value, AfterValue(entries, rest), hooks);
    var r := ReadValue(t, j, open, hooks);
    EntriesTailRead(t, r.at, r.peak, open, entries, rest, hooks);
  }

  /** A structural character after blanks. */
  lemma MarkRead(t: string, at: nat, gap: string, c: char, more: string, w: string)
    requires AllBlank(gap) && !Blank(c) && w == [c] + more && From(t, at, gap + w)
    ensures
      var j := SkipBlanks(t, at);
      j < |t| && t[j] == c && From(t, j + 1, more)
  {
    assert w[0] == c;
    BlanksRead(t, at, gap, w);
    One(t, |t| - |w|, c, more);
  }

  lemma ColonRead(t: string, at: nat, mid: string, lead: string, body: string)
    requires AllBlank(mid) && AllBlank(lead) && body != "" && !Blank(body[0])
    requires From(t, at, mid + (":" + (lead + body)))
    ensures
      var colon := SkipBlanks(t, at);
      colon < |t| && t[colon] == ':' && From(t, SkipBlanks(t, colon + 1), body)
  {
    MarkRead(t, at, mid, ':', lead + body, ":" + (lead + body));
    BlanksRead(t, SkipBlanks(t, at) + 1, lead, body);
  }

  /** The last entry's blanks and the closing brace. */
  lemma LastEntryRead(t: string, at: nat, peak: nat, open: nat, m: Member, after: string, rest: string, hooks: Hooks)
    requires AllBlank(after) && open <= peak && From(t, at, after + ("}" + rest))
    ensures From(t, |t| - |rest|, rest) && Returns(MembersTail(t, m, at, peak, open, hooks), [m], |t| - |rest|)
  {
    BlanksRead(t, at, after, "}" + rest);
    One(t, SkipBlanks(t, at), '}', rest);
    MembersClose(t, m, at, peak, open, hooks);
  }

  lemma {:induction false} EntriesTailRead(t: string, at: nat, peak: nat, open: nat, entries: seq<Entry>, rest: string, hooks: Hooks)
    requires entries != [] && ReadableEntries(entries, hooks) && open <= peak
    requires From(t, at, entries[0].after + MoreEntries(entries, rest))
    ensures From(t, |t| - |rest|, rest)
    ensures
      var m := Member(Decoded(entries[0].name), Value(entries[0].value));
      Returns(MembersTail(t, m, at, peak, open, hooks), EntryValues(entries), |t| - |rest|)
    decreases entries, 0
  {
    var m := Member(Decoded(entries[0].name), Value(entries[0].value));
    if |entries| == 1 {
      LastEntryRead(t, at, peak, open, m, entries[0].after, rest, hooks);
      assert EntryValues(entries) == [m];
    } else {
      EntryComma(t, at, entries, rest, hooks);
      ReadableTail(entries, hooks);
      EntriesRead(t, SkipBlanks(t, at) + 1, open, entries[1..], rest, hooks);
      MembersMore(t, m, at, peak, open, EntryValues(entries[1..]), |t| - |rest|, hooks);
    }
  }

  lemma EntryComma(t: string, at: nat, entries: seq<Entry>, rest: string, hooks: Hooks)
    requires |entries| > 1 && ReadableEntries(entries, hooks) && From(t, at, entries[0].after + MoreEntries(entries, rest))
    ensures
      var j := SkipBlanks(t, at);
      j < |t| && t[j] == ',' && From(t, j + 1, PrintEntries(entries[1..], rest))
  {
    var more := PrintEntries(entries[1..], rest);
    MarkRead(t, at, entries[0].after, ',', more, "," + more);
  }

  lemma ReadableTail(entries: seq<Entry>, hooks: Hooks)
    requires entries != [] && ReadableEntries(entries, hooks)
    ensures ReadableEntries(entries[1..], hooks)
  {
  }

  /** A whole document, with blanks around the value. */
  function Document(before: string, s: Syntax, after: string): string {
    before + Print(s, after)
  }

  /** Round trip: whatever the spelling, the reader returns the value that was written. */
  lemma DocumentReads(before: string, s: Syntax, after: string, hooks: Hooks)
    requires AllBlank(before) && AllBlank(after) && Readable(s, hooks)
    ensures
      var r := Load(Document(before, s, after), hooks);
      r.Good? && r.value == Value(s)
  {
    var t := Document(before, s, after);
    PrintStart(s, after);
    assert From(t, 0, before + Print(s, after));
    BlanksRead(t, 0, before, Print(s, after));
    ValueRead(t, SkipBlanks(t, 0), 0, s, after, hooks);
    assert From(t, |t| - |after|, after + "") by { assert after + "" == after; }
    BlanksRead(t, |t| - |after|, after, "");
  }

  lemma {:induction false} AllPass(v: Json)
    ensures Passes(v, Lenient().pairs)
    decreases v
  {
    if v.Array? {
      forall i | 0 <= i < |v.items| ensures Passes(v.items[i], Lenient().pairs) { AllPass(v.items[i]); }
    } else if v.Object? {
      forall i | 0 <= i < |v.members| ensures Passes(v.members[i].value, Lenient().pairs) { AllPass(v.members[i].value); }
    }
  }

  lemma {:induction false} AllNumbers(s: Syntax)
    ensures Numbers(s, Lenient())
    decreases s
  {
    if s.Brackets? {
      forall k | 0 <= k < |s.items| ensures Numbers(s.items[k].value, Lenient()) { AllNumbers(s.items[k].value); }
    } else if s.Braces? {
      forall k | 0 <= k < |s.entries| ensures Numbers(s.entries[k].value, Lenient()) { AllNumbers(s.entries[k].value); }
    }
  }

  /** For every value of the grammar and every way of writing it, repeated members included,
      the scanner ends at its starting depth, outside any string, its peak is the value's
      nesting depth, and so it accepts exactly when that depth is within the bound. */
  lemma DocumentAccepted(before: string, s: Syntax, after: string, maximum: nat)
    requires AllBlank(before) && AllBlank(after) && Legal(s)
    ensures
      var t := Document(before, s, after);
      && After(t, |t|).depth == 0 && !After(t, |t|).quoted && After(t, |t|).peak == Depth(Value(s))
      && (Within(t, maximum) <==> Depth(Value(s)) <= maximum)
  {
    AllNumbers(s);
    AllPass(Value(s));
    DocumentReads(before, s, after, Lenient());
    JsonDepth.AcceptsExactlyShallow(Document(before, s, after), maximum, Lenient());
    JsonDepth.LoadSync(Document(before, s, after), Lenient());
    JsonDepth.LoadFacts(Document(before, s, after), Lenient());
  }
}
