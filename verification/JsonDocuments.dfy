/** The converse of the round trip: every text that the reader accepts is a document of the
    grammar, and the value is the one that was written. So the reader accepts exactly the
    documents whose numbers and objects the hooks let pass. */
module JsonDocuments {
  import opened Basics
  import opened DepthScanner
  import opened JsonReader
  import opened JsonSyntax
  import JsonDepth

  // ------------------------------------------------------------------ text at a position

  lemma Cons(t: string, i: nat)
    requires i < |t|
    ensures t[i..] == [t[i]] + t[i + 1..]
  {
  }

  lemma Gap(t: string, i: nat, j: nat)
    requires i <= j <= |t|
    ensures t[i..] == t[i..j] + t[j..]
  {
  }

  /** One character, and what follows it. */
  lemma ConsText(t: string, i: nat, c: char, w: string)
    requires i < |t| && t[i] == c && t[i + 1..] == w
    ensures t[i..] == [c] + w
  {
  }

  lemma GapText(t: string, i: nat, j: nat, w: string)
    requires i <= j <= |t| && t[j..] == w
    ensures t[i..] == t[i..j] + w
  {
  }

  /** A stretch, one character, and what follows it. */
  lemma MarkText(t: string, i: nat, j: nat, c: char, w: string)
    requires i <= j < |t| && t[j] == c && t[j + 1..] == w
    ensures t[i..] == t[i..j] + ([c] + w)
  {
    ConsText(t, j, c, w);
    GapText(t, i, j, [c] + w);
  }

  /** A stretch, the colon, a stretch, and what follows it. */
  lemma ColonText(t: string, at: nat, colon: nat, j: nat, w: string)
    requires at <= colon < j <= |t| && t[colon] == ':' && t[j..] == w
    ensures t[at..] == t[at..colon] + (":" + (t[colon + 1..j] + w))
  {
    GapText(t, colon + 1, j, w);
    MarkText(t, at, colon, ':', t[colon + 1..j] + w);
  }

  lemma Blanks(t: string, i: nat)
    requires i <= |t|
    ensures AllBlank(t[i..SkipBlanks(t, i)])
  {
    var j := SkipBlanks(t, i);
    forall k | 0 <= k < j - i ensures Blank(t[i..j][k]) { assert t[i..j][k] == t[i + k]; }
  }

  // ----------------------------------------------------------------------------- strings

  /** The text of the next piece, when there is one. */
  lemma PieceWritten(t: string, i: nat, p: Piece, next: nat)
    requires i < |t| && next == i + |PieceText(p)| <= |t|
    requires forall k :: 0 <= k < |PieceText(p)| ==> t[i + k] == PieceText(p)[k]
    ensures t[i..] == PieceText(p) + t[next..]
  {
    Gap(t, i, next);
    assert t[i..next] == PieceText(p);
  }

  lemma {:induction false} PiecesWritten(t: string, i: nat)
    requires i <= |t| && ReadPieces(t, i).Lexed?
    ensures
      var r := ReadPieces(t, i);
      LegalPieces(r.pieces) && t[i..] == PrintPieces(r.pieces, t[r.at..])
    decreases |t| - i
  {
    if t[i] == '"' {
      Cons(t, i);
    } else {
      var p, next := FirstPiece(t, i);
      PiecesWritten(t, next);
      PieceWritten(t, i, p, next);
      var rest := ReadPieces(t, next);
      assert ([p] + rest.pieces)[1..] == rest.pieces;
    }
  }

  lemma FirstPiece(t: string, i: nat) returns (p: Piece, next: nat)
    requires i < |t| && t[i] != '"' && ReadPieces(t, i).Lexed?
    ensures LegalPiece(p) && i < next <= |t| && next == i + |PieceText(p)|
    ensures forall k :: 0 <= k < |PieceText(p)| ==> t[i + k] == PieceText(p)[k]
    ensures ReadPieces(t, next).Lexed? && ReadPieces(t, i) == Prepend(p, ReadPieces(t, next))
  {
    if t[i] == '\\' {
      if i + 1 < |t| && ShortEscape(t[i + 1]) {
        p, next := Short(t[i + 1]), i + 2;
      } else {
        p, next := Hex(t[i + 2], t[i + 3], t[i + 4], t[i + 5]), i + 6;
      }
    } else {
      p, next := Raw(t[i]), i + 1;
    }
  }

  // ----------------------------------------------------------------------------- numbers

  lemma Digits(t: string, i: nat, j: nat)
    requires i <= j <= |t| && forall k :: i <= k < j ==> Digit(t[k])
    ensures AllDigits(t[i..j])
  {
    forall k | 0 <= k < j - i ensures Digit(t[i..j][k]) { assert t[i..j][k] == t[i + k]; }
  }

  lemma WholeWritten(t: string, i: nat) returns (negative: bool, whole: string)
    requires i <= |t| && IntegerEnd(t, i) > i
    ensures whole != "" && AllDigits(whole) && (whole[0] == '0' ==> |whole| == 1)
    ensures t[i..IntegerEnd(t, i)] == (if negative then "-" else "") + whole
  {
    negative := t[i] == '-';
    var k := if negative then i + 1 else i;
    var end := IntegerEnd(t, i);
    whole := t[k..end];
    assert whole[0] == t[k];
    Digits(t, k, end);
    assert t[i..end] == t[i..k] + t[k..end];
  }

  lemma FractionWritten(t: string, i: nat) returns (fraction: string)
    requires i <= |t|
    ensures AllDigits(fraction) && t[i..FractionEnd(t, i)] == (if fraction == "" then "" else "." + fraction)
  {
    var end := FractionEnd(t, i);
    if end == i {
      fraction := "";
    } else {
      fraction := t[i + 1..end];
      Digits(t, i + 1, end);
      assert t[i..end] == [t[i]] + t[i + 1..end];
    }
  }

  lemma ExponentWritten(t: string, i: nat) returns (mark: string, exponent: string)
    requires i <= |t|
    ensures AllDigits(exponent) && (mark == "" <==> exponent == "") && t[i..ExponentEnd(t, i)] == mark + exponent
    ensures mark != "" ==> |mark| <= 2 && (mark[0] == 'e' || mark[0] == 'E') && (|mark| == 2 ==> mark[1] == '+' || mark[1] == '-')
  {
    var end := ExponentEnd(t, i);
    if end == i {
      mark, exponent := "", "";
    } else {
      var k := if t[i + 1] == '+' || t[i + 1] == '-' then i + 2 else i + 1;
      mark, exponent := t[i..k], t[k..end];
      Digits(t, k, end);
      assert mark[0] == t[i] && (k == i + 2 ==> mark[1] == t[i + 1]);
      assert t[i..end] == t[i..k] + t[k..end];
    }
  }

  /** What the reader takes for a number is one numeral of the grammar. */
  lemma NumeralWritten(t: string, i: nat) returns (n: Numeral)
    requires i <= |t| && NumberEnd(t, i) > i
    ensures LegalNumeral(n) && NumeralText(n) == t[i..NumberEnd(t, i)]
  {
    var whole := IntegerEnd(t, i);
    var fraction := FractionEnd(t, whole);
    var end := ExponentEnd(t, fraction);
    var negative, w := WholeWritten(t, i);
    var f := FractionWritten(t, whole);
    var mark, e := ExponentWritten(t, fraction);
    n := Numeral(negative, w, f, e, mark);
    ThreeParts(t, i, whole, fraction, end);
    Assoc(SignText(n), n.whole, FractionText(n) + (n.mark + n.exponent));
  }

  lemma Assoc(a: string, b: string, c: string)
    ensures (a + b) + c == a + (b + c)
  {
  }

  lemma ThreeParts(t: string, i: nat, a: nat, b: nat, c: nat)
    requires i <= a <= b <= c <= |t|
    ensures t[i..c] == t[i..a] + (t[a..b] + t[b..c])
  {
  }

  lemma ScalarWritten(t: string, i: nat, open: nat, hooks: Hooks) returns (s: Syntax)
    requires i < |t| && ReadScalar(t, i, open, hooks).Good?
    ensures
      var r := ReadScalar(t, i, open, hooks);
      Legal(s) && Numbers(s, hooks) && Value(s) == r.value && t[i..] == Print(s, t[r.at..])
  {
    var r := ReadScalar(t, i, open, hooks);
    Gap(t, i, r.at);
    if Starts(t, i, "null") {
      s := NullWord;
    } else if Starts(t, i, "true") {
      s := TrueWord;
    } else if Starts(t, i, "false") {
      s := FalseWord;
    } else {
      var n := NumeralWritten(t, i);
      s := Numeric(n);
    }
  }

  // ---------------------------------------------------------------------------- values

  /** What `s` spells from position `i` on, up to `at`: a legal value that the reader returned. */
  ghost predicate Spells(t: string, i: nat, s: Syntax, v: Json, at: nat, hooks: Hooks) {
    i <= |t| && at <= |t| && Legal(s) && Numbers(s, hooks) && Value(s) == v && t[i..] == Print(s, t[at..])
  }

  ghost predicate LegalItems(items: seq<Item>, hooks: Hooks) {
    forall k :: 0 <= k < |items| ==>
      AllBlank(items[k].before) && Legal(items[k].value) && Numbers(items[k].value, hooks) && AllBlank(items[k].after)
  }

  ghost predicate LegalEntries(entries: seq<Entry>, hooks: Hooks) {
    forall k :: 0 <= k < |entries| ==>
      AllBlank(entries[k].before) && LegalPieces(entries[k].name) && AllBlank(entries[k].mid)
      && AllBlank(entries[k].lead) && Legal(entries[k].value) && Numbers(entries[k].value, hooks) && AllBlank(entries[k].after)
  }

  lemma {:induction false} ValueWritten(t: string, i: nat, open: nat, hooks: Hooks) returns (s: Syntax)
    requires i <= |t| && ReadValue(t, i, open, hooks).Good?
    ensures Spells(t, i, s, ReadValue(t, i, open, hooks).value, ReadValue(t, i, open, hooks).at, hooks)
    decreases |t| - i, 1
  {
    if t[i] == '"' {
      s := QuotedWritten(t, i, open, hooks);
    } else if t[i] == '[' {
      s := ArrayWritten(t, i, open, hooks);
    } else if t[i] == '{' {
      s := ObjectWritten(t, i, open, hooks);
    } else {
      ScalarRead(t, i, open, hooks);
      s := ScalarWritten(t, i, open, hooks);
    }
  }

  /** One step of the reader at an opening bracket. */
  lemma ArrayStep(t: string, i: nat, open: nat, hooks: Hooks)
    requires i < |t| && t[i] == '[' && ReadValue(t, i, open, hooks).Good?
    ensures
      var j := SkipBlanks(t, i + 1);
      var r := ReadValue(t, i, open, hooks);
      if j < |t| && t[j] == ']' then r.value == Array([]) && r.at == j + 1
      else
        var inner := ReadItems(t, j, open + 1, hooks);
        inner.Good? && r.value == Array(inner.value) && r.at == inner.at
  {
  }

  lemma EmptyArray(t: string, i: nat, j: nat, hooks: Hooks)
    requires i < j < |t| && t[i] == '[' && t[j] == ']' && AllBlank(t[i + 1..j])
    ensures Spells(t, i, Brackets(t[i + 1..j], []), Array([]), j + 1, hooks)
  {
    MarkText(t, i + 1, j, ']', t[j + 1..]);
    ConsText(t, i, '[', t[i + 1..j] + ("]" + t[j + 1..]));
  }

  lemma FullArray(t: string, i: nat, items: seq<Item>, vs: seq<Json>, at: nat, hooks: Hooks)
    requires i < |t| && t[i] == '[' && SpellsItems(t, i + 1, items, vs, at, hooks)
    ensures Spells(t, i, Brackets("", items), Array(vs), at, hooks)
  {
    ConsText(t, i, '[', PrintItems(items, t[at..]));
  }

  lemma QuotedWritten(t: string, i: nat, open: nat, hooks: Hooks) returns (s: Syntax)
    requires i < |t| && t[i] == '"' && ReadValue(t, i, open, hooks).Good?
    ensures Spells(t, i, s, ReadValue(t, i, open, hooks).value, ReadValue(t, i, open, hooks).at, hooks)
  {
    PiecesWritten(t, i + 1);
    var r := ReadPieces(t, i + 1);
    ConsText(t, i, '"', PrintPieces(r.pieces, t[r.at..]));
    s := Quoted(r.pieces);
  }

  lemma {:induction false} ArrayWritten(t: string, i: nat, open: nat, hooks: Hooks) returns (s: Syntax)
    requires i < |t| && t[i] == '[' && ReadValue(t, i, open, hooks).Good?
    ensures Spells(t, i, s, ReadValue(t, i, open, hooks).value, ReadValue(t, i, open, hooks).at, hooks)
    decreases |t| - i, 0
  {
    ArrayStep(t, i, open, hooks);
    var j := SkipBlanks(t, i + 1);
    if j < |t| && t[j] == ']' {
      Blanks(t, i + 1);
      EmptyArray(t, i, j, hooks);
      s := Brackets(t[i + 1..j], []);
    } else {
      Blanks(t, i + 1);
      var items := ItemsWritten(t, i + 1, j, open + 1, hooks);
      var inner := ReadItems(t, j, open + 1, hooks);
      FullArray(t, i, items, inner.value, inner.at, hooks);
      s := Brackets("", items);
    }
  }

  /** One step of the reader at an opening brace. */
  lemma ObjectStep(t: string, i: nat, open: nat, hooks: Hooks)
    requires i < |t| && t[i] == '{' && ReadValue(t, i, open, hooks).Good?
    ensures
      var j := SkipBlanks(t, i + 1);
      var r := ReadValue(t, i, open, hooks);
      if j < |t| && t[j] == '}' then r.value == Object([]) && r.at == j + 1
      else
        var inner := ReadMembers(t, j, open + 1, hooks);
        inner.Good? && r.value == Object(inner.value) && r.at == inner.at
  {
  }

  lemma EmptyObject(t: string, i: nat, j: nat, hooks: Hooks)
    requires i < j < |t| && t[i] == '{' && t[j] == '}' && AllBlank(t[i + 1..j])
    ensures Spells(t, i, Braces(t[i + 1..j], []), Object([]), j + 1, hooks)
  {
    MarkText(t, i + 1, j, '}', t[j + 1..]);
    ConsText(t, i, '{', t[i + 1..j] + ("}" + t[j + 1..]));
  }

  lemma FullObject(t: string, i: nat, entries: seq<Entry>, ms: seq<Member>, at: nat, hooks: Hooks)
    requires i < |t| && t[i] == '{' && SpellsEntries(t, i + 1, entries, ms, at, hooks)
    ensures Spells(t, i, Braces("", entries), Object(ms), at, hooks)
  {
    ConsText(t, i, '{', PrintEntries(entries, t[at..]));
  }

  lemma {:induction false} ObjectWritten(t: string, i: nat, open: nat, hooks: Hooks) returns (s: Syntax)
    requires i < |t| && t[i] == '{' && ReadValue(t, i, open, hooks).Good?
    ensures Spells(t, i, s, ReadValue(t, i, open, hooks).value, ReadValue(t, i, open, hooks).at, hooks)
    decreases |t| - i, 0
  {
    ObjectStep(t, i, open, hooks);
    var j := SkipBlanks(t, i + 1);
    if j < |t| && t[j] == '}' {
      Blanks(t, i + 1);
      EmptyObject(t, i, j, hooks);
      s := Braces(t[i + 1..j], []);
    } else {
      Blanks(t, i + 1);
      var entries := EntriesWritten(t, i + 1, j, open + 1, hooks);
      var inner := ReadMembers(t, j, open + 1, hooks);
      FullObject(t, i, entries, inner.value, inner.at, hooks);
      s := Braces("", entries);
    }
  }

  // ----------------------------------------------------------------------------- arrays

  /** Items from position `i`, blanks first, up to `at`. */
  ghost predicate SpellsItems(t: string, i: nat, items: seq<Item>, vs: seq<Json>, at: nat, hooks: Hooks) {
    && i <= |t| && at <= |t| && items != [] && LegalItems(items, hooks) && ItemValues(items) == vs
    && t[i..] == PrintItems(items, t[at..])
  }

  lemma {:induction false} ItemsWritten(t: string, i: nat, j: nat, open: nat, hooks: Hooks) returns (items: seq<Item>)
    requires i <= j <= |t| && AllBlank(t[i..j]) && ReadItems(t, j, open, hooks).Good?
    ensures
      var r := ReadItems(t, j, open, hooks);
      SpellsItems(t, i, items, r.value, r.at, hooks)
    decreases |t| - j, 2
  {
    var r := ReadValue(t, j, open, hooks);
    var s := ValueWritten(t, j, open, hooks);
    var after, rest := ItemsTailWritten(t, r.value, r.at, r.peak, open, hooks);
    items := [Item(t[i..j], s, after)] + rest;
    ItemsJoin(t, i, j, s, r.value, r.at, after, rest, ReadItems(t, j, open, hooks).at, hooks);
  }

  /** What follows an item: its blanks, and the further items if there are any. */
  ghost predicate SpellsMoreItems(t: string, at: nat, after: string, rest: seq<Item>, vs: seq<Json>, end: nat, hooks: Hooks) {
    && at <= |t| && end <= |t| && AllBlank(after) && LegalItems(rest, hooks) && ItemValues(rest) == vs
    && t[at..] == after + if rest == [] then "]" + t[end..] else "," + PrintItems(rest, t[end..])
  }

  /** One step of the reader after an item: blanks up to `j`, and after a comma up to `next`. */
  lemma ItemsTailStep(t: string, v: Json, at: nat, peak: nat, open: nat, hooks: Hooks) returns (j: nat, next: nat)
    requires at <= |t| && open <= peak && ItemsTail(t, v, at, peak, open, hooks).Good?
    ensures at <= j < |t| && AllBlank(t[at..j])
    ensures
      var r := ItemsTail(t, v, at, peak, open, hooks);
      if t[j] == ']' then r.value == [v] && r.at == j + 1
      else
        && t[j] == ',' && j < next <= |t| && AllBlank(t[j + 1..next])
        && var rest := ReadItems(t, next, open, hooks);
           rest.Good? && r.value == [v] + rest.value && r.at == rest.at
  {
    j := SkipBlanks(t, at);
    Blanks(t, at);
    Blanks(t, j + 1);
    next := SkipBlanks(t, j + 1);
  }

  lemma LastItem(t: string, at: nat, j: nat, hooks: Hooks)
    requires at <= j < |t| && AllBlank(t[at..j]) && t[j] == ']'
    ensures SpellsMoreItems(t, at, t[at..j], [], [], j + 1, hooks)
  {
    MarkText(t, at, j, ']', t[j + 1..]);
  }

  lemma NextItem(t: string, at: nat, j: nat, rest: seq<Item>, vs: seq<Json>, end: nat, hooks: Hooks)
    requires at <= j < |t| && AllBlank(t[at..j]) && t[j] == ',' && SpellsItems(t, j + 1, rest, vs, end, hooks)
    ensures SpellsMoreItems(t, at, t[at..j], rest, vs, end, hooks)
  {
    MarkText(t, at, j, ',', PrintItems(rest, t[end..]));
  }

  lemma {:induction false} ItemsTailWritten(t: string, v: Json, at: nat, peak: nat, open: nat, hooks: Hooks)
    returns (after: string, rest: seq<Item>)
    requires at <= |t| && open <= peak && ItemsTail(t, v, at, peak, open, hooks).Good?
    ensures
      var r := ItemsTail(t, v, at, peak, open, hooks);
      r.value == [v] + ItemValues(rest) && SpellsMoreItems(t, at, after, rest, ItemValues(rest), r.at, hooks)
    decreases |t| - at, 4
  {
    var j, next := ItemsTailStep(t, v, at, peak, open, hooks);
    after := t[at..j];
    rest := ItemsTailOf(t, at, j, next, open, hooks);
  }

  lemma {:induction false} ItemsTailOf(t: string, at: nat, j: nat, next: nat, open: nat, hooks: Hooks) returns (rest: seq<Item>)
    requires at <= j < |t| && AllBlank(t[at..j])
    requires t[j] == ']' || (t[j] == ',' && j < next <= |t| && AllBlank(t[j + 1..next]) && ReadItems(t, next, open, hooks).Good?)
    ensures t[j] == ']' ==> rest == [] && SpellsMoreItems(t, at, t[at..j], [], [], j + 1, hooks)
    ensures t[j] != ']' ==>
              var r := ReadItems(t, next, open, hooks);
              ItemValues(rest) == r.value && SpellsMoreItems(t, at, t[at..j], rest, r.value, r.at, hooks)
    decreases |t| - j, 3
  {
    if t[j] == ']' {
      rest := [];
      LastItem(t, at, j, hooks);
    } else {
      rest := MoreItemsWritten(t, at, j, next, open, hooks);
    }
  }

  lemma {:induction false} MoreItemsWritten(t: string, at: nat, j: nat, next: nat, open: nat, hooks: Hooks) returns (rest: seq<Item>)
    requires at <= j < next <= |t| && AllBlank(t[at..j]) && t[j] == ',' && AllBlank(t[j + 1..next])
    requires ReadItems(t, next, open, hooks).Good?
    ensures
      var r := ReadItems(t, next, open, hooks);
      ItemValues(rest) == r.value && SpellsMoreItems(t, at, t[at..j], rest, r.value, r.at, hooks)
    decreases |t| - next, 3
  {
    rest := ItemsWritten(t, j + 1, next, open, hooks);
    var r := ReadItems(t, next, open, hooks);
    NextItem(t, at, j, rest, r.value, r.at, hooks);
  }

  lemma ItemsJoin(t: string, i: nat, j: nat, s: Syntax, v: Json, at: nat, after: string, rest: seq<Item>, end: nat, hooks: Hooks)
    requires i <= j <= |t| && AllBlank(t[i..j]) && Spells(t, j, s, v, at, hooks)
    requires SpellsMoreItems(t, at, after, rest, ItemValues(rest), end, hooks)
    ensures SpellsItems(t, i, [Item(t[i..j], s, after)] + rest, [v] + ItemValues(rest), end, hooks)
  {
    var items := [Item(t[i..j], s, after)] + rest;
    assert items[1..] == rest;
    assert MoreItems(items, t[end..]) == if rest == [] then "]" + t[end..] else "," + PrintItems(rest, t[end..]);
    GapText(t, i, j, Print(s, after + MoreItems(items, t[end..])));
  }

  // ---------------------------------------------------------------------------- objects

  /** Entries from position `i`, blanks first, up to `at`. */
  ghost predicate SpellsEntries(t: string, i: nat, entries: seq<Entry>, ms: seq<Member>, at: nat, hooks: Hooks) {
    && i <= |t| && at <= |t| && entries != [] && LegalEntries(entries, hooks) && EntryValues(entries) == ms
    && t[i..] == PrintEntries(entries, t[at..])
  }

  /** One step of the reader at a member: the name up to `at`, blanks, the colon, blanks up to `v`. */
  lemma MemberStep(t: string, j: nat, open: nat, hooks: Hooks) returns (name: seq<Piece>, at: nat, colon: nat, v: nat)
    requires j <= |t| && ReadMembers(t, j, open, hooks).Good?
    ensures j < at <= colon < v <= |t| && t[j] == '"' && t[colon] == ':' && AllBlank(t[at..colon]) && AllBlank(t[colon + 1..v])
    ensures LegalPieces(name) && t[j + 1..] == PrintPieces(name, t[at..])
    ensures ReadMembers(t, j, open, hooks) == ReadAfterColon(t, Decoded(name), v, open, hooks)
  {
    NameStep(t, j, open, hooks);
    PiecesWritten(t, j + 1);
    name, at := ReadPieces(t, j + 1).pieces, ReadPieces(t, j + 1).at;
    colon, v := NamedStep(t, Decoded(name), at, open, hooks);
  }

  lemma NameStep(t: string, j: nat, open: nat, hooks: Hooks)
    requires j <= |t| && ReadMembers(t, j, open, hooks).Good?
    ensures j < |t| && t[j] == '"' && ReadPieces(t, j + 1).Lexed?
    ensures ReadMembers(t, j, open, hooks) == ReadNamed(t, Decoded(ReadPieces(t, j + 1).pieces), ReadPieces(t, j + 1).at, open, hooks)
  {
  }

  lemma NamedStep(t: string, name: seq<int>, at: nat, open: nat, hooks: Hooks) returns (colon: nat, v: nat)
    requires at <= |t| && ReadNamed(t, name, at, open, hooks).Good?
    ensures at <= colon < v <= |t| && t[colon] == ':' && AllBlank(t[at..colon]) && AllBlank(t[colon + 1..v])
    ensures ReadNamed(t, name, at, open, hooks) == ReadAfterColon(t, name, v, open, hooks)
  {
    colon := SkipBlanks(t, at);
    Blanks(t, at);
    Blanks(t, colon + 1);
    v := SkipBlanks(t, colon + 1);
  }

  lemma {:induction false} EntriesWritten(t: string, i: nat, j: nat, open: nat, hooks: Hooks) returns (entries: seq<Entry>)
    requires i <= j <= |t| && AllBlank(t[i..j]) && ReadMembers(t, j, open, hooks).Good?
    ensures
      var r := ReadMembers(t, j, open, hooks);
      SpellsEntries(t, i, entries, r.value, r.at, hooks)
    decreases |t| - j, 7
  {
    var name, at, colon, v := MemberStep(t, j, open, hooks);
    entries := EntriesOf(t, i, j, name, at, colon, v, open, hooks);
  }

  lemma {:induction false} EntriesOf(t: string, i: nat, j: nat, name: seq<Piece>, at: nat, colon: nat, v: nat, open: nat, hooks: Hooks)
    returns (entries: seq<Entry>)
    requires i <= j < at <= colon < v <= |t| && AllBlank(t[i..j]) && t[j] == '"' && t[colon] == ':'
    requires AllBlank(t[at..colon]) && AllBlank(t[colon + 1..v])
    requires LegalPieces(name) && t[j + 1..] == PrintPieces(name, t[at..]) && ReadAfterColon(t, Decoded(name), v, open, hooks).Good?
    ensures
      var r := ReadAfterColon(t, Decoded(name), v, open, hooks);
      SpellsEntries(t, i, entries, r.value, r.at, hooks)
    decreases |t| - v, 6
  {
    var s, after, rest := NamedWritten(t, Decoded(name), at, colon, v, open, hooks);
    entries := [Entry(t[i..j], name, t[at..colon], t[colon + 1..v], s, after)] + rest;
    EntriesJoin(t, i, j, name, at, t[at..colon], t[colon + 1..v], s, after, rest, ReadAfterColon(t, Decoded(name), v, open, hooks).at, hooks);
  }

  ghost predicate SpellsMoreEntries(t: string, at: nat, after: string, rest: seq<Entry>, ms: seq<Member>, end: nat, hooks: Hooks) {
    && at <= |t| && end <= |t| && AllBlank(after) && LegalEntries(rest, hooks) && EntryValues(rest) == ms
    && t[at..] == after + if rest == [] then "}" + t[end..] else "," + PrintEntries(rest, t[end..])
  }

  /** One step of the reader after a member: blanks up to `j`, and after a comma up to `next`. */
  lemma EntriesTailStep(t: string, m: Member, at: nat, peak: nat, open: nat, hooks: Hooks) returns (j: nat, next: nat)
    requires at <= |t| && open <= peak && MembersTail(t, m, at, peak, open, hooks).Good?
    ensures at <= j < |t| && AllBlank(t[at..j])
    ensures
      var r := MembersTail(t, m, at, peak, open, hooks);
      if t[j] == '}' then r.value == [m] && r.at == j + 1
      else
        && t[j] == ',' && j < next <= |t| && AllBlank(t[j + 1..next])
        && var rest := ReadMembers(t, next, open, hooks);
           rest.Good? && r.value == [m] + rest.value && r.at == rest.at
  {
    j := SkipBlanks(t, at);
    Blanks(t, at);
    Blanks(t, j + 1);
    next := SkipBlanks(t, j + 1);
  }

  lemma LastEntry(t: string, at: nat, j: nat, hooks: Hooks)
    requires at <= j < |t| && AllBlank(t[at..j]) && t[j] == '}'
    ensures SpellsMoreEntries(t, at, t[at..j], [], [], j + 1, hooks)
  {
    MarkText(t, at, j, '}', t[j + 1..]);
  }

  lemma NextEntry(t: string, at: nat, j: nat, rest: seq<Entry>, ms: seq<Member>, end: nat, hooks: Hooks)
    requires at <= j < |t| && AllBlank(t[at..j]) && t[j] == ',' && SpellsEntries(t, j + 1, rest, ms, end, hooks)
    ensures SpellsMoreEntries(t, at, t[at..j], rest, ms, end, hooks)
  {
    MarkText(t, at, j, ',', PrintEntries(rest, t[end..]));
  }

  lemma {:induction false} EntriesTailWritten(t: string, m: Member, at: nat, peak: nat, open: nat, hooks: Hooks)
    returns (after: string, rest: seq<Entry>)
    requires at <= |t| && open <= peak && MembersTail(t, m, at, peak, open, hooks).Good?
    ensures
      var r := MembersTail(t, m, at, peak, open, hooks);
      r.value == [m] + EntryValues(rest) && SpellsMoreEntries(t, at, after, rest, EntryValues(rest), r.at, hooks)
    decreases |t| - at, 4
  {
    var j, next := EntriesTailStep(t, m, at, peak, open, hooks);
    after := t[at..j];
    rest := EntriesTailOf(t, at, j, next, open, hooks);
  }

  lemma {:induction false} EntriesTailOf(t: string, at: nat, j: nat, next: nat, open: nat, hooks: Hooks) returns (rest: seq<Entry>)
    requires at <= j < |t| && AllBlank(t[at..j])
    requires t[j] == '}' || (t[j] == ',' && j < next <= |t| && AllBlank(t[j + 1..next]) && ReadMembers(t, next, open, hooks).Good?)
    ensures t[j] == '}' ==> rest == [] && SpellsMoreEntries(t, at, t[at..j], [], [], j + 1, hooks)
    ensures t[j] != '}' ==>
              var r := ReadMembers(t, next, open, hooks);
              EntryValues(rest) == r.value && SpellsMoreEntries(t, at, t[at..j], rest, r.value, r.at, hooks)
    decreases |t| - j, 3
  {
    if t[j] == '}' {
      rest := [];
      LastEntry(t, at, j, hooks);
    } else {
      rest := MoreEntriesWritten(t, at, j, next, open, hooks);
    }
  }

  lemma {:induction false} MoreEntriesWritten(t: string, at: nat, j: nat, next: nat, open: nat, hooks: Hooks) returns (rest: seq<Entry>)
    requires at <= j < next <= |t| && AllBlank(t[at..j]) && t[j] == ',' && AllBlank(t[j + 1..next])
    requires ReadMembers(t, next, open, hooks).Good?
    ensures
      var r := ReadMembers(t, next, open, hooks);
      EntryValues(rest) == r.value && SpellsMoreEntries(t, at, t[at..j], rest, r.value, r.at, hooks)
    decreases |t| - next, 8
  {
    rest := EntriesWritten(t, j + 1, next, open, hooks);
    var r := ReadMembers(t, next, open, hooks);
    NextEntry(t, at, j, rest, r.value, r.at, hooks);
  }

  /** The colon, the value and all that follows a member name. */
  ghost predicate SpellsNamed(t: string, at: nat, mid: string, lead: string, s: Syntax, after: string, rest: seq<Entry>, end: nat, hooks: Hooks) {
    && at <= |t| && end <= |t| && AllBlank(mid) && AllBlank(lead) && Legal(s) && Numbers(s, hooks)
    && AllBlank(after) && LegalEntries(rest, hooks)
    && t[at..] == mid + (":" + (lead + Print(s, after + Tail(rest, t[end..]))))
  }

  function Tail(rest: seq<Entry>, w: string): string { if rest == [] then "}" + w else "," + PrintEntries(rest, w) }

  lemma NamedJoin(t: string, at: nat, colon: nat, j: nat, s: Syntax, v: Json, end: nat, after: string, rest: seq<Entry>, last: nat, hooks: Hooks)
    requires at <= colon < j <= |t| && t[colon] == ':' && AllBlank(t[at..colon]) && AllBlank(t[colon + 1..j])
    requires Spells(t, j, s, v, end, hooks) && SpellsMoreEntries(t, end, after, rest, EntryValues(rest), last, hooks)
    ensures SpellsNamed(t, at, t[at..colon], t[colon + 1..j], s, after, rest, last, hooks)
  {
    ColonText(t, at, colon, j, Print(s, after + Tail(rest, t[last..])));
  }

  /** The value at `j`, up to `end`, and all that follows it in the object. */
  lemma {:induction false} AfterColonWritten(t: string, name: seq<int>, j: nat, open: nat, hooks: Hooks)
    returns (s: Syntax, end: nat, after: string, rest: seq<Entry>)
    requires j <= |t| && ReadAfterColon(t, name, j, open, hooks).Good?
    ensures
      var r := ReadAfterColon(t, name, j, open, hooks);
      && Spells(t, j, s, Value(s), end, hooks) && SpellsMoreEntries(t, end, after, rest, EntryValues(rest), r.at, hooks)
      && r.value == [Member(name, Value(s))] + EntryValues(rest)
    decreases |t| - j, 3
  {
    var r := ReadValue(t, j, open, hooks);
    s := ValueWritten(t, j, open, hooks);
    end := r.at;
    after, rest := EntriesTailWritten(t, Member(name, r.value), r.at, r.peak, open, hooks);
  }

  lemma {:induction false} NamedWritten(t: string, name: seq<int>, at: nat, colon: nat, j: nat, open: nat, hooks: Hooks)
    returns (s: Syntax, after: string, rest: seq<Entry>)
    requires at <= colon < j <= |t| && t[colon] == ':' && AllBlank(t[at..colon]) && AllBlank(t[colon + 1..j])
    requires ReadAfterColon(t, name, j, open, hooks).Good?
    ensures
      var r := ReadAfterColon(t, name, j, open, hooks);
      && SpellsNamed(t, at, t[at..colon], t[colon + 1..j], s, after, rest, r.at, hooks)
      && r.value == [Member(name, Value(s))] + EntryValues(rest)
    decreases |t| - j, 5
  {
    var end: nat;
    s, end, after, rest := AfterColonWritten(t, name, j, open, hooks);
    NamedJoin(t, at, colon, j, s, Value(s), end, after, rest, ReadAfterColon(t, name, j, open, hooks).at, hooks);
  }

  lemma EntriesJoin(t: string, i: nat, j: nat, name: seq<Piece>, at: nat, mid: string, lead: string, s: Syntax, after: string,
                    rest: seq<Entry>, end: nat, hooks: Hooks)
    requires i <= j < |t| && AllBlank(t[i..j]) && t[j] == '"'
    requires LegalPieces(name) && at <= |t| && t[j + 1..] == PrintPieces(name, t[at..])
    requires SpellsNamed(t, at, mid, lead, s, after, rest, end, hooks)
    ensures SpellsEntries(t, i, [Entry(t[i..j], name, mid, lead, s, after)] + rest, [Member(Decoded(name), Value(s))] + EntryValues(rest), end, hooks)
  {
    var entries := [Entry(t[i..j], name, mid, lead, s, after)] + rest;
    assert entries[1..] == rest;
    assert MoreEntries(entries, t[end..]) == Tail(rest, t[end..]);
    assert PrintNamed(entries, t[end..]) == t[at..];
    MarkText(t, i, j, '"', PrintPieces(name, t[at..]));
  }

  // ------------------------------------------------------------------------ whole texts

  /** The text is a document of the grammar for `v` that the hooks let pass. */
  ghost predicate Spelling(t: string, before: string, s: Syntax, after: string, hooks: Hooks) {
    AllBlank(before) && AllBlank(after) && Readable(s, hooks) && t == Document(before, s, after)
  }

  ghost predicate IsDocument(t: string, hooks: Hooks) {
    exists before: string, s: Syntax, after: string :: Spelling(t, before, s, after, hooks)
  }

  /** What the reader accepts was written by the grammar, and is the value that was written. */
  lemma LoadWritten(t: string, hooks: Hooks) returns (before: string, s: Syntax, after: string)
    requires Load(t, hooks).Good?
    ensures Spelling(t, before, s, after, hooks) && Load(t, hooks).value == Value(s)
  {
    var i := SkipBlanks(t, 0);
    var r := ReadValue(t, i, 0, hooks);
    s := ValueWritten(t, i, 0, hooks);
    Blanks(t, 0);
    Blanks(t, r.at);
    before, after := t[..i], t[r.at..];
    JsonDepth.LoadFacts(t, hooks);
    assert t[0..] == t && t[0..i] == before && t[r.at..] == t[r.at..|t|];
    GapText(t, 0, i, Print(s, after));
  }

  /** The reader accepts exactly the documents. */
  lemma LoadsExactlyDocuments(t: string, hooks: Hooks)
    ensures Load(t, hooks).Good? <==> IsDocument(t, hooks)
  {
    if Load(t, hooks).Good? {
      var before, s, after := LoadWritten(t, hooks);
    }
    if IsDocument(t, hooks) {
      var before: string, s: Syntax, after: string :| Spelling(t, before, s, after, hooks);
      DocumentReads(before, s, after, hooks);
    }
  }
}
