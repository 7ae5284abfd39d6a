/** A recursive reader of the JSON grammar of RFC 8259 (sections 2 to 7), as the
    standard `json.loads` runs it behind `decode_bytes`: strict strings, joined
    surrogate pairs, and hooks that may refuse a number, or the members of an object at its
    closing brace. Each result carries the position where the reader stopped and
    the largest number of containers it ever had open, also when it fails. */
module JsonReader {
  import opened Basics
  import opened DepthScanner

  datatype Json =
    | Null
    | Bool(value: bool)
    | Number(lexeme: string)
    | String(text: seq<int>)
    | Array(items: seq<Json>)
    | Object(members: seq<Member>)

  datatype Member = Member(name: seq<int>, value: Json)

  /** How many containers enclose the innermost value of `v`, counting `v` itself. */
  function Depth(v: Json): nat
    decreases v
  {
    match v
    case Array(items) => 1 + ItemsDepth(items)
    case Object(members) => 1 + MembersDepth(members)
    case _ => 0
  }

  function ItemsDepth(items: seq<Json>): nat
    decreases items
  {
    if items == [] then 0 else Max(Depth(items[0]), ItemsDepth(items[1..]))
  }

  function MembersDepth(members: seq<Member>): nat
    decreases members
  {
    if members == [] then 0 else Max(Depth(members[0].value), MembersDepth(members[1..]))
  }

  /** No two members of one object share a name. */
  predicate DistinctNames(members: seq<Member>) {
    forall i, j :: 0 <= i < j < |members| ==> members[i].name != members[j].name
  }

  /** What the caller of the parser may refuse: a number, and the members of one object. */
  datatype Hooks = Hooks(number: string -> bool, pairs: seq<Member> -> bool)

  /** Every object of `v`, at any depth, passes the hook. */
  predicate Passes(v: Json, pairs: seq<Member> -> bool)
    decreases v
  {
    match v
    case Array(items) => forall i :: 0 <= i < |items| ==> Passes(items[i], pairs)
    case Object(members) => pairs(members) && forall i :: 0 <= i < |members| ==> Passes(members[i].value, pairs)
    case _ => true
  }

  /** The hook that refuses a repeated member. */
  function Strict(number: string -> bool): Hooks { Hooks(number, (members: seq<Member>) => DistinctNames(members)) }

  /** No object at any depth repeats a member name. */
  predicate NoRepeats(v: Json) { Passes(v, Strict(_ => true).pairs) }

  /** The whole grammar: nothing is refused. */
  function Lenient(): Hooks { Hooks(_ => true, _ => true) }

  // ---------------------------------------------------------------- lexical level

  predicate Blank(c: char) { c == ' ' || c == '\t' || c == '\n' || c == '\r' }

  predicate HexDigit(c: char) { Digit(c) || 'a' <= c <= 'f' || 'A' <= c <= 'F' }

  function SkipBlanks(t: string, i: nat): (j: nat)
    requires i <= |t|
    ensures i <= j <= |t|
    ensures forall k :: i <= k < j ==> Blank(t[k])
    ensures j < |t| ==> !Blank(t[j])
    decreases |t| - i
  {
    if i < |t| && Blank(t[i]) then SkipBlanks(t, i + 1) else i
  }

  function SkipDigits(t: string, i: nat): (j: nat)
    requires i <= |t|
    ensures i <= j <= |t|
    ensures forall k :: i <= k < j ==> Digit(t[k])
    ensures j < |t| ==> !Digit(t[j])
    decreases |t| - i
  {
    if i < |t| && Digit(t[i]) then SkipDigits(t, i + 1) else i
  }

  /** End of the integer part that starts at `i`, or `i` when there is none. */
  function IntegerEnd(t: string, i: nat): (j: nat)
    requires i <= |t|
    ensures i <= j <= |t|
    ensures forall k :: i <= k < j ==> Plain(t[k])
  {
    var k := if i < |t| && t[i] == '-' then i + 1 else i;
    if k < |t| && t[k] == '0' then k + 1
    else if k < |t| && Digit(t[k]) then SkipDigits(t, k + 1)
    else i
  }

  function FractionEnd(t: string, i: nat): (j: nat)
    requires i <= |t|
    ensures i <= j <= |t|
    ensures forall k :: i <= k < j ==> Plain(t[k])
  {
    if i + 1 < |t| && t[i] == '.' && Digit(t[i + 1]) then SkipDigits(t, i + 2) else i
  }

  function ExponentEnd(t: string, i: nat): (j: nat)
    requires i <= |t|
    ensures i <= j <= |t|
    ensures forall k :: i <= k < j ==> Plain(t[k])
  {
    if i < |t| && (t[i] == 'e' || t[i] == 'E') then
      var k := if i + 1 < |t| && (t[i + 1] == '+' || t[i + 1] == '-') then i + 2 else i + 1;
      if k < |t| && Digit(t[k]) then SkipDigits(t, k + 1) else i
    else i
  }

  /** End of the longest number at `i`, or `i` when there is none. */
  function NumberEnd(t: string, i: nat): (j: nat)
    requires i <= |t|
    ensures i <= j <= |t|
    ensures forall k :: i <= k < j ==> Plain(t[k])
  {
    var whole := IntegerEnd(t, i);
    if whole == i then i else ExponentEnd(t, FractionEnd(t, whole))
  }

  /** One way of writing one code unit inside a string. */
  datatype Piece = Raw(c: char) | Short(e: char) | Hex(h0: char, h1: char, h2: char, h3: char)

  predicate ShortEscape(e: char) {
    e == '"' || e == '\\' || e == '/' || e == 'b' || e == 'f' || e == 'n' || e == 'r' || e == 't'
  }

  predicate LegalPiece(p: Piece) {
    match p
    case Raw(c) => c >= ' ' && c != '"' && c != '\\'
    case Short(e) => ShortEscape(e)
    case Hex(a, b, c, d) => HexDigit(a) && HexDigit(b) && HexDigit(c) && HexDigit(d)
  }

  function HexValue(c: char): int {
    if Digit(c) then c as int - '0' as int
    else if 'a' <= c <= 'f' then c as int - 'a' as int + 10
    else c as int - 'A' as int + 10
  }

  function CodeOf(p: Piece): int {
    match p
    case Raw(c) => c as int
    case Short('b') => 8
    case Short('f') => 12
    case Short('n') => 10
    case Short('r') => 13
    case Short('t') => 9
    case Short(e) => e as int
    case Hex(a, b, c, d) => ((HexValue(a) * 16 + HexValue(b)) * 16 + HexValue(c)) * 16 + HexValue(d)
  }

  /** Code points of a string: an escaped high surrogate joins an escaped low one. */
  function Decoded(ps: seq<Piece>): seq<int>
    decreases |ps|
  {
    if ps == [] then []
    else if |ps| > 1 && ps[0].Hex? && ps[1].Hex? && 0xd800 <= CodeOf(ps[0]) <= 0xdbff && 0xdc00 <= CodeOf(ps[1]) <= 0xdfff
    then [0x10000 + (CodeOf(ps[0]) - 0xd800) * 1024 + CodeOf(ps[1]) - 0xdc00] + Decoded(ps[2..])
    else [CodeOf(ps[0])] + Decoded(ps[1..])
  }

  datatype Lexed = Lexed(pieces: seq<Piece>, at: nat) | Stuck(at: nat)

  /** The rest of a string whose opening quote is behind `i`. */
  function ReadPieces(t: string, i: nat): (r: Lexed)
    requires i <= |t|
    ensures i <= r.at <= |t|
    ensures r.Lexed? ==> i < r.at
    decreases |t| - i
  {
    if i == |t| then Stuck(i)
    else if t[i] == '"' then Lexed([], i + 1)
    else if t[i] == '\\' then
      if i + 1 < |t| && ShortEscape(t[i + 1]) then Prepend(Short(t[i + 1]), ReadPieces(t, i + 2))
      else if i + 5 < |t| && t[i + 1] == 'u' && LegalPiece(Hex(t[i + 2], t[i + 3], t[i + 4], t[i + 5]))
      then Prepend(Hex(t[i + 2], t[i + 3], t[i + 4], t[i + 5]), ReadPieces(t, i + 6))
      else Stuck(i)
    else if t[i] < ' ' then Stuck(i)
    else Prepend(Raw(t[i]), ReadPieces(t, i + 1))
  }

  function Prepend(p: Piece, r: Lexed): Lexed {
    if r.Lexed? then Lexed([p] + r.pieces, r.at) else r
  }

  // --------------------------------------------------------------- the recursive reader

  datatype Read<T> = Good(value: T, at: nat, peak: nat) | Bad(at: nat, peak: nat)

  predicate Starts(t: string, i: nat, word: string)
    requires i <= |t|
  {
    i + |word| <= |t| && t[i..i + |word|] == word
  }

  /** A word or a number. */
  function ReadScalar(t: string, i: nat, open: nat, hooks: Hooks): (r: Read<Json>)
    requires i < |t|
    ensures i <= r.at <= |t| && r.peak == open
    ensures r.Good? ==> i < r.at
  {
    if Starts(t, i, "null") then Good(Null, i + 4, open)
    else if Starts(t, i, "true") then Good(Bool(true), i + 4, open)
    else if Starts(t, i, "false") then Good(Bool(false), i + 5, open)
    else
      var end := NumberEnd(t, i);
      if end > i && hooks.number(t[i..end]) then Good(Number(t[i..end]), end, open) else Bad(i, open)
  }

  /** Reads one value at `i` while `open` containers enclose it. `hooks` may refuse it. */
  function ReadValue(t: string, i: nat, open: nat, hooks: Hooks): (r: Read<Json>)
    requires i <= |t|
    ensures i <= r.at <= |t| && r.peak >= open
    ensures r.Good? ==> i < r.at
    decreases |t| - i, 0
  {
    if i == |t| then Bad(i, open)
    else if t[i] == '"' then
      match ReadPieces(t, i + 1)
      case Lexed(ps, at) => Good(String(Decoded(ps)), at, open)
      case Stuck(at) => Bad(at, open)
    else if t[i] == '[' then
      var j := SkipBlanks(t, i + 1);
      if j < |t| && t[j] == ']' then Good(Array([]), j + 1, open + 1)
      else
        match ReadItems(t, j, open + 1, hooks)
        case Good(items, at, peak) => Good(Array(items), at, peak)
        case Bad(at, peak) => Bad(at, peak)
    else if t[i] == '{' then
      var j := SkipBlanks(t, i + 1);
      if j < |t| && t[j] == '}' then (if hooks.pairs([]) then Good(Object([]), j + 1, open + 1) else Bad(j + 1, open + 1))
      else
        match ReadMembers(t, j, open + 1, hooks)
        case Good(members, at, peak) =>
          if hooks.pairs(members) then Good(Object(members), at, peak) else Bad(at, peak)
        case Bad(at, peak) => Bad(at, peak)
    else ReadScalar(t, i, open, hooks)
  }

  /** Puts a first element in front of what the rest of the list returned. */
  function Join<T>(first: T, peak: nat, rest: Read<seq<T>>): (r: Read<seq<T>>) {
    match rest
    case Good(values, at, high) => Good([first] + values, at, Max(peak, high))
    case Bad(at, high) => Bad(at, Max(peak, high))
  }

  /** One or more items up to the closing bracket of the array counted in `open`. */
  function ReadItems(t: string, i: nat, open: nat, hooks: Hooks): (r: Read<seq<Json>>)
    requires i <= |t|
    ensures i <= r.at <= |t| && r.peak >= open
    ensures r.Good? ==> i < r.at
    decreases |t| - i, 1
  {
    match ReadValue(t, i, open, hooks)
    case Bad(at, peak) => Bad(at, peak)
    case Good(v, at, peak) => ItemsTail(t, v, at, peak, open, hooks)
  }

  /** What follows item `v`, which ended at `at`. */
  function ItemsTail(t: string, v: Json, at: nat, peak: nat, open: nat, hooks: Hooks): (r: Read<seq<Json>>)
    requires at <= |t| && open <= peak
    ensures at <= r.at <= |t| && r.peak >= open
    decreases |t| - at, 2
  {
    var j := SkipBlanks(t, at);
    if j < |t| && t[j] == ']' then Good([v], j + 1, peak)
    else if j < |t| && t[j] == ',' then Join(v, peak, ReadItems(t, SkipBlanks(t, j + 1), open, hooks))
    else Bad(j, peak)
  }

  /** One or more members up to the closing brace of the object counted in `open`. */
  function ReadMembers(t: string, i: nat, open: nat, hooks: Hooks): (r: Read<seq<Member>>)
    requires i <= |t|
    ensures i <= r.at <= |t| && r.peak >= open
    ensures r.Good? ==> i < r.at
    decreases |t| - i, 1
  {
    if i == |t| || t[i] != '"' then Bad(i, open)
    else
      match ReadPieces(t, i + 1)
      case Stuck(at) => Bad(at, open)
      case Lexed(ps, at) => ReadNamed(t, Decoded(ps), at, open, hooks)
  }

  /** The colon and the value after member name `name`, which ended at `at`. */
  function ReadNamed(t: string, name: seq<int>, at: nat, open: nat, hooks: Hooks): (r: Read<seq<Member>>)
    requires at <= |t|
    ensures at <= r.at <= |t| && r.peak >= open
    decreases |t| - at, 4
  {
    var colon := SkipBlanks(t, at);
    if colon == |t| || t[colon] != ':' then Bad(colon, open)
    else ReadAfterColon(t, name, SkipBlanks(t, colon + 1), open, hooks)
  }

  /** The value at `i`, and what follows it in the object. */
  function ReadAfterColon(t: string, name: seq<int>, i: nat, open: nat, hooks: Hooks): (r: Read<seq<Member>>)
    requires i <= |t|
    ensures i <= r.at <= |t| && r.peak >= open
    decreases |t| - i, 3
  {
    match ReadValue(t, i, open, hooks)
    case Bad(end, peak) => Bad(end, peak)
    case Good(v, end, peak) => MembersTail(t, Member(name, v), end, peak, open, hooks)
  }

  function MembersTail(t: string, m: Member, at: nat, peak: nat, open: nat, hooks: Hooks): (r: Read<seq<Member>>)
    requires at <= |t| && open <= peak
    ensures at <= r.at <= |t| && r.peak >= open
    decreases |t| - at, 2
  {
    var j := SkipBlanks(t, at);
    if j < |t| && t[j] == '}' then Good([m], j + 1, peak)
    else if j < |t| && t[j] == ',' then Join(m, peak, ReadMembers(t, SkipBlanks(t, j + 1), open, hooks))
    else Bad(j, peak)
  }

  /** `json.loads`: one value with blanks around it and nothing else. */
  function Load(t: string, hooks: Hooks): (r: Read<Json>)
    ensures r.at <= |t|
  {
    match ReadValue(t, SkipBlanks(t, 0), 0, hooks)
    case Bad(at, peak) => Bad(at, peak)
    case Good(v, at, peak) =>
      var end := SkipBlanks(t, at);
      if end == |t| then Good(v, end, peak) else Bad(end, peak)
  }
}
