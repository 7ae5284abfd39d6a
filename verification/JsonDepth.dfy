/** The scanner and the reader agree on every prefix the reader consumes: outside
    strings the scanner's depth is the number of containers the reader has open, and
    the scanner's peak is the reader's. Hence the scanner bounds the reader's recursion
    on every text, and on a text that is JSON it decides the depth of the value. */
module JsonDepth {
  import opened DepthScanner
  import opened JsonReader

  /** Before position `i` the scanner is outside strings, `open` deep, with peak `high`. */
  predicate At(t: string, i: nat, open: int, high: int) {
    i <= |t| && After(t, i) == Scan(open, false, false, high) && open <= high
  }

  lemma BlanksKeep(t: string, i: nat, open: int, high: int)
    requires At(t, i, open, high)
    ensures At(t, SkipBlanks(t, i), open, high)
  {
    PlainRun(t, i, SkipBlanks(t, i));
  }

  /** Inside a string the scanner stays quoted until the reader's closing quote. */
  lemma {:induction false} PiecesSync(t: string, i: nat, open: int, high: int)
    requires i <= |t| && After(t, i) == Scan(open, true, false, high) && open <= high
    ensures
      var r := ReadPieces(t, i);
      if r.Lexed? then At(t, r.at, open, high) else After(t, r.at).peak == high
    decreases |t| - i
  {
    if i == |t| || t[i] == '"' {
    } else if t[i] == '\\' {
      if i + 1 < |t| && ShortEscape(t[i + 1]) {
        assert After(t, i + 1) == Scan(open, true, true, high);
        PiecesSync(t, i + 2, open, high);
      } else if i + 5 < |t| && t[i + 1] == 'u' && LegalPiece(Hex(t[i + 2], t[i + 3], t[i + 4], t[i + 5])) {
        assert After(t, i + 1) == Scan(open, true, true, high);
        assert After(t, i + 2) == Scan(open, true, false, high);
        assert After(t, i + 3) == After(t, i + 4) == Scan(open, true, false, high);
        assert After(t, i + 5) == Scan(open, true, false, high);
        PiecesSync(t, i + 6, open, high);
      }
    } else if t[i] >= ' ' {
      PiecesSync(t, i + 1, open, high);
    }
  }

  /** What agreement means for a result: `close` is the depth after a success. */
  predicate Agrees<T>(t: string, r: Read<T>, close: int, high: int) {
    r.at <= |t| &&
    if r.Good? then At(t, r.at, close, Max(high, r.peak)) else After(t, r.at).peak == Max(high, r.peak)
  }

  lemma PlainWord(t: string, i: nat, word: string)
    requires i <= |t| && Starts(t, i, word)
    requires !After(t, i).quoted
    requires forall k :: 0 <= k < |word| ==> Plain(word[k])
    ensures After(t, i + |word|) == After(t, i)
  {
    forall k | i <= k < i + |word| ensures Plain(t[k]) {
      assert t[k] == t[i..i + |word|][k - i];
    }
    PlainRun(t, i, i + |word|);
  }

  lemma {:induction false} ValueSync(t: string, i: nat, open: nat, high: int, hooks: Hooks)
    requires At(t, i, open, high)
    ensures Agrees(t, ReadValue(t, i, open, hooks), open, high)
    decreases |t| - i, 1
  {
    if i < |t| {
      if t[i] == '"' {
        PiecesSync(t, i + 1, open, high);
      } else if t[i] == '[' || t[i] == '{' {
        ContainerSync(t, i, open, high, hooks);
      } else {
        ScalarSync(t, i, open, high, hooks);
      }
    }
  }

  lemma {:induction false} ContainerSync(t: string, i: nat, open: nat, high: int, hooks: Hooks)
    requires At(t, i, open, high) && i < |t| && (t[i] == '[' || t[i] == '{')
    ensures Agrees(t, ReadValue(t, i, open, hooks), open, high)
    decreases |t| - i, 0
  {
    var above := Max(high, open + 1);
    BlanksKeep(t, i + 1, open + 1, above);
    var j := SkipBlanks(t, i + 1);
    if t[i] == '[' && !(j < |t| && t[j] == ']') {
      ItemsSync(t, j, open + 1, above, hooks);
    } else if t[i] == '{' && !(j < |t| && t[j] == '}') {
      MembersSync(t, j, open + 1, above, hooks);
    }
  }

  lemma ScalarSync(t: string, i: nat, open: nat, high: int, hooks: Hooks)
    requires At(t, i, open, high) && i < |t| && t[i] != '"' && t[i] != '[' && t[i] != '{'
    ensures Agrees(t, ReadValue(t, i, open, hooks), open, high)
  {
    if Starts(t, i, "null") {
      PlainWord(t, i, "null");
    } else if Starts(t, i, "true") {
      PlainWord(t, i, "true");
    } else if Starts(t, i, "false") {
      PlainWord(t, i, "false");
    } else {
      PlainRun(t, i, NumberEnd(t, i));
    }
  }

  lemma {:induction false} ItemsSync(t: string, i: nat, open: nat, high: int, hooks: Hooks)
    requires At(t, i, open, high)
    ensures Agrees(t, ReadItems(t, i, open, hooks), open - 1, high)
    decreases |t| - i, 2
  {
    ValueSync(t, i, open, high, hooks);
    var r := ReadValue(t, i, open, hooks);
    if r.Good? { ItemsTailSync(t, r.value, r.at, r.peak, open, high, hooks); }
  }

  lemma {:induction false} ItemsTailSync(t: string, v: Json, at: nat, peak: nat, open: nat, high: int, hooks: Hooks)
    requires At(t, at, open, Max(high, peak)) && open <= peak
    ensures Agrees(t, ItemsTail(t, v, at, peak, open, hooks), open - 1, high)
    decreases |t| - at, 3
  {
    var above := Max(high, peak);
    BlanksKeep(t, at, open, above);
    var j := SkipBlanks(t, at);
    if j < |t| && t[j] == ',' {
      BlanksKeep(t, j + 1, open, above);
      ItemsSync(t, SkipBlanks(t, j + 1), open, above, hooks);
    }
  }

  lemma {:induction false} MembersSync(t: string, i: nat, open: nat, high: int, hooks: Hooks)
    requires At(t, i, open, high)
    ensures Agrees(t, ReadMembers(t, i, open, hooks), open - 1, high)
    decreases |t| - i, 2
  {
    if i < |t| && t[i] == '"' {
      PiecesSync(t, i + 1, open, high);
      var r := ReadPieces(t, i + 1);
      if r.Lexed? { NamedSync(t, Decoded(r.pieces), r.at, open, high, hooks); }
    }
  }

  lemma {:induction false} AfterColonSync(t: string, name: seq<int>, i: nat, open: nat, high: int, hooks: Hooks)
    requires At(t, i, open, high)
    ensures Agrees(t, ReadAfterColon(t, name, i, open, hooks), open - 1, high)
    decreases |t| - i, 4
  {
    ValueSync(t, i, open, high, hooks);
    var r := ReadValue(t, i, open, hooks);
    if r.Good? { MembersTailSync(t, Member(name, r.value), r.at, r.peak, open, high, hooks); }
  }

  lemma {:induction false} NamedSync(t: string, name: seq<int>, at: nat, open: nat, high: int, hooks: Hooks)
    requires At(t, at, open, high)
    ensures Agrees(t, ReadNamed(t, name, at, open, hooks), open - 1, high)
    decreases |t| - at, 5
  {
    BlanksKeep(t, at, open, high);
    var colon := SkipBlanks(t, at);
    if colon < |t| && t[colon] == ':' {
      BlanksKeep(t, colon + 1, open, high);
      AfterColonSync(t, name, SkipBlanks(t, colon + 1), open, high, hooks);
    }
  }

  lemma {:induction false} MembersTailSync(t: string, m: Member, at: nat, peak: nat, open: nat, high: int, hooks: Hooks)
    requires At(t, at, open, Max(high, peak)) && open <= peak
    ensures Agrees(t, MembersTail(t, m, at, peak, open, hooks), open - 1, high)
    decreases |t| - at, 3
  {
    var above := Max(high, peak);
    BlanksKeep(t, at, open, above);
    var j := SkipBlanks(t, at);
    if j < |t| && t[j] == ',' {
      BlanksKeep(t, j + 1, open, above);
      MembersSync(t, SkipBlanks(t, j + 1), open, above, hooks);
    }
  }

  lemma LoadSync(t: string, hooks: Hooks)
    ensures
      var r := Load(t, hooks);
      After(t, r.at).peak == r.peak && (r.Good? ==> At(t, |t|, 0, r.peak))
  {
    BlanksKeep(t, 0, 0, 0);
    var i := SkipBlanks(t, 0);
    ValueSync(t, i, 0, 0, hooks);
    var r := ReadValue(t, i, 0, hooks);
    if r.Good? { BlanksKeep(t, r.at, 0, r.peak); }
  }

  /** Main result for every text, malformed or not: an accepted text never makes the
      reader hold more than `maximum` containers open. */
  lemma AcceptedBoundsRecursion(t: string, maximum: nat, hooks: Hooks)
    requires Within(t, maximum)
    ensures Load(t, hooks).peak <= maximum
  {
    LoadSync(t, hooks);
    PeakGrows(t, Load(t, hooks).at, |t|);
  }

  // ------------------------------------------------- what a successful read returns

  lemma {:induction false} ValueFacts(t: string, i: nat, open: nat, hooks: Hooks)
    requires i <= |t|
    ensures
      var r := ReadValue(t, i, open, hooks);
      r.Good? ==> r.peak == open + Depth(r.value) && Passes(r.value, hooks.pairs)
    decreases |t| - i, 0
  {
    if i < |t| && (t[i] == '[' || t[i] == '{') {
      var j := SkipBlanks(t, i + 1);
      if t[i] == '[' && !(j < |t| && t[j] == ']') {
        ItemsFacts(t, j, open + 1, hooks);
      } else if t[i] == '{' && !(j < |t| && t[j] == '}') {
        MembersFacts(t, j, open + 1, hooks);
      }
    }
  }

  predicate ItemsGood(r: Read<seq<Json>>, open: nat, hooks: Hooks) {
    r.Good? ==> r.peak == open + ItemsDepth(r.value)
                && forall k :: 0 <= k < |r.value| ==> Passes(r.value[k], hooks.pairs)
  }

  lemma {:induction false} ItemsFacts(t: string, i: nat, open: nat, hooks: Hooks)
    requires i <= |t|
    ensures ItemsGood(ReadItems(t, i, open, hooks), open, hooks)
    decreases |t| - i, 1
  {
    ValueFacts(t, i, open, hooks);
    var r := ReadValue(t, i, open, hooks);
    if r.Good? { ItemsTailFacts(t, r.value, r.at, r.peak, open, hooks); }
  }

  lemma {:induction false} ItemsTailFacts(t: string, v: Json, at: nat, peak: nat, open: nat, hooks: Hooks)
    requires at <= |t| && peak == open + Depth(v) && Passes(v, hooks.pairs)
    ensures ItemsGood(ItemsTail(t, v, at, peak, open, hooks), open, hooks)
    decreases |t| - at, 2
  {
    assert [v][1..] == [];
    var j := SkipBlanks(t, at);
    if j < |t| && t[j] == ',' {
      ItemsFacts(t, SkipBlanks(t, j + 1), open, hooks);
      var rest := ReadItems(t, SkipBlanks(t, j + 1), open, hooks);
      if rest.Good? { assert ([v] + rest.value)[1..] == rest.value; }
    }
  }

  predicate MembersGood(r: Read<seq<Member>>, open: nat, hooks: Hooks) {
    r.Good? ==> r.peak == open + MembersDepth(r.value)
                && forall k :: 0 <= k < |r.value| ==> Passes(r.value[k].value, hooks.pairs)
  }

  lemma {:induction false} MembersFacts(t: string, i: nat, open: nat, hooks: Hooks)
    requires i <= |t|
    ensures MembersGood(ReadMembers(t, i, open, hooks), open, hooks)
    decreases |t| - i, 1
  {
    if i < |t| && t[i] == '"' {
      var r := ReadPieces(t, i + 1);
      if r.Lexed? { NamedFacts(t, Decoded(r.pieces), r.at, open, hooks); }
    }
  }

  lemma {:induction false} AfterColonFacts(t: string, name: seq<int>, i: nat, open: nat, hooks: Hooks)
    requires i <= |t|
    ensures MembersGood(ReadAfterColon(t, name, i, open, hooks), open, hooks)
    decreases |t| - i, 3
  {
    ValueFacts(t, i, open, hooks);
    var r := ReadValue(t, i, open, hooks);
    if r.Good? { MembersTailFacts(t, Member(name, r.value), r.at, r.peak, open, hooks); }
  }

  lemma {:induction false} NamedFacts(t: string, name: seq<int>, at: nat, open: nat, hooks: Hooks)
    requires at <= |t|
    ensures MembersGood(ReadNamed(t, name, at, open, hooks), open, hooks)
    decreases |t| - at, 4
  {
    var colon := SkipBlanks(t, at);
    if colon < |t| && t[colon] == ':' {
      AfterColonFacts(t, name, SkipBlanks(t, colon + 1), open, hooks);
    }
  }

  lemma {:induction false} MembersTailFacts(t: string, m: Member, at: nat, peak: nat, open: nat, hooks: Hooks)
    requires at <= |t| && peak == open + Depth(m.value) && Passes(m.value, hooks.pairs)
    ensures MembersGood(MembersTail(t, m, at, peak, open, hooks), open, hooks)
    decreases |t| - at, 2
  {
    assert [m][1..] == [];
    var j := SkipBlanks(t, at);
    if j < |t| && t[j] == ',' {
      MembersFacts(t, SkipBlanks(t, j + 1), open, hooks);
      var rest := ReadMembers(t, SkipBlanks(t, j + 1), open, hooks);
      if rest.Good? { assert ([m] + rest.value)[1..] == rest.value; }
    }
  }

  lemma LoadFacts(t: string, hooks: Hooks)
    ensures
      var r := Load(t, hooks);
      r.Good? ==> r.peak == Depth(r.value) && Passes(r.value, hooks.pairs)
  {
    ValueFacts(t, SkipBlanks(t, 0), 0, hooks);
  }

  /** Main result for JSON texts: the scanner ends where it began and accepts exactly
      the values whose nesting is within the bound. */
  lemma AcceptsExactlyShallow(t: string, maximum: nat, hooks: Hooks)
    requires Load(t, hooks).Good?
    ensures After(t, |t|).depth == 0 && !After(t, |t|).quoted
    ensures Within(t, maximum) <==> Depth(Load(t, hooks).value) <= maximum
  {
    LoadSync(t, hooks);
    LoadFacts(t, hooks);
  }
}
