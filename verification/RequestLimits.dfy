/** `santa_request_limits.decode_bytes`: byte limits, decompression, the depth scanner,
    the strict parser and the event budget, in that order. zlib, UTF-8 decoding and the
    number hooks (`_float`, `_constant`, `int`) are parameters. */
module RequestLimits {
  import opened Basics
  import opened DepthScanner
  import opened JsonReader
  import JsonDepth
  import JsonSyntax
  import JsonDocuments

  type Octets = seq<bv8>

  datatype Limits = Limits(compressed: nat, expanded: nat, depth: nat, events: nat)

  datatype Header = NotText | Absent | Named(name: string)

  /** One bounded call of a decompressor: output, input left over, end of stream, bytes after it. */
  datatype Inflated = Corrupt | Inflated(out: Octets, pending: bool, eof: bool, unused: bool)

  datatype Library = Library(
    inflate: (bool, Octets, nat) -> Inflated,
    utf8: Octets -> Option<string>,
    legal: string -> bool)

  datatype Outcome = Accepted(body: Json) | Rejected(status: int)

  // -------------------------------------------------------------- content encoding

  predicate Space(c: char) {
    var n := c as int;
    9 <= n <= 13 || 28 <= n <= 32 || n == 0x85 || n == 0xa0 || n == 0x1680 || 0x2000 <= n <= 0x200a
    || n == 0x2028 || n == 0x2029 || n == 0x202f || n == 0x205f || n == 0x3000
  }

  function Strip(s: string): string
    decreases |s|
  {
    if s != "" && Space(s[0]) then Strip(s[1..])
    else if s != "" && Space(s[|s| - 1]) then Strip(s[..|s| - 1])
    else s
  }

  function Lower(s: string): string {
    if s == "" then "" else
      [if 'A' <= s[0] <= 'Z' then (s[0] as int + 32) as char else s[0]] + Lower(s[1..])
  }

  function Encoding(h: Header): string {
    if h.Named? then Lower(Strip(h.name)) else ""
  }

  predicate Compressed(encoding: string) {
    encoding == "deflate" || encoding == "zlib" || encoding == "gzip"
  }

  predicate Supported(h: Header) {
    !h.NotText? && (Compressed(Encoding(h)) || Encoding(h) == "" || Encoding(h) == "identity")
  }

  /** The bytes of the JSON text, or the status of the rejection. */
  datatype Payload = Bytes(raw: Octets) | Refused(status: int)

  function Expand(raw: Octets, h: Header, limits: Limits, lib: Library): (p: Payload)
    ensures p.Bytes? ==> |p.raw| <= limits.expanded
  {
    if |raw| > limits.compressed then Refused(413)
    else if !Supported(h) then Refused(415)
    else if Compressed(Encoding(h)) then
      match lib.inflate(Encoding(h) == "gzip", raw, limits.expanded + 1)
      case Corrupt => Refused(400)
      case Inflated(out, pending, eof, unused) =>
        if |out| > limits.expanded || pending then Refused(413)
        else if !eof || unused then Refused(400)
        else Bytes(out)
    else if |raw| > limits.expanded then Refused(413)
    else Bytes(raw)
  }

  /** When the bytes are refused, and with which status, and what goes on otherwise. */
  lemma ExpandAnswers(raw: Octets, h: Header, limits: Limits, lib: Library)
    ensures
      var p := Expand(raw, h, limits, lib);
      var known := !h.NotText? && Encoding(h) in {"", "identity", "deflate", "zlib", "gzip"};
      var packed := Encoding(h) in {"deflate", "zlib", "gzip"};
      var out := lib.inflate(Encoding(h) == "gzip", raw, limits.expanded + 1);
      var long := out.Inflated? && (|out.out| > limits.expanded || out.pending);
      var broken := out.Corrupt? || (!long && (!out.eof || out.unused));
      && (p == Refused(415) <==> (|raw| <= limits.compressed && !known))
      && (p == Refused(400) <==> (|raw| <= limits.compressed && known && packed && broken))
      && (p == Refused(413) <==> (|raw| > limits.compressed || (known && if packed then long else |raw| > limits.expanded)))
      && (p.Bytes? ==> p.raw == if packed then out.out else raw)
      && (p.Refused? ==> p.status in {400, 413, 415})
  {
  }

  // ---------------------------------------------------------------- duplicate hook

  /** `_unique`: fill a dictionary, refuse the second use of a name. */
  method Unique(pairs: seq<Member>) returns (ok: bool, result: map<seq<int>, Json>)
    ensures ok <==> DistinctNames(pairs)
    ensures ok ==> |result| == |pairs|
    ensures ok ==> forall i :: 0 <= i < |pairs| ==> pairs[i].name in result && result[pairs[i].name] == pairs[i].value
  {
    result := map[];
    for i := 0 to |pairs|
      invariant Gathered(pairs[..i], result)
    {
      var m := pairs[i];
      assert pairs[..i + 1] == pairs[..i] + [m];
      if m.name in result {
        Repeated(pairs, i, result);
        return false, result;
      }
      GatherOne(pairs[..i], result, m);
      result := result[m.name := m.value];
    }
    assert pairs[..|pairs|] == pairs;
    return true, result;
  }

  /** The dictionary of members with distinct names. */
  ghost predicate Gathered(pairs: seq<Member>, result: map<seq<int>, Json>) {
    && DistinctNames(pairs) && |result| == |pairs|
    && (forall k :: 0 <= k < |pairs| ==> pairs[k].name in result && result[pairs[k].name] == pairs[k].value)
    && (forall n :: n in result ==> exists k :: 0 <= k < |pairs| && pairs[k].name == n)
  }

  lemma GatherOne(pairs: seq<Member>, result: map<seq<int>, Json>, m: Member)
    requires Gathered(pairs, result) && m.name !in result
    ensures Gathered(pairs + [m], result[m.name := m.value])
  {
    var more, after := pairs + [m], result[m.name := m.value];
    forall n | n in after ensures exists k :: 0 <= k < |more| && more[k].name == n {
      if n == m.name {
        assert more[|pairs|].name == n;
      } else {
        var k :| 0 <= k < |pairs| && pairs[k].name == n;
        assert more[k].name == n;
      }
    }
  }

  lemma Repeated(pairs: seq<Member>, i: nat, result: map<seq<int>, Json>)
    requires i < |pairs| && Gathered(pairs[..i], result) && pairs[i].name in result
    ensures !DistinctNames(pairs)
  {
    var k :| 0 <= k < i && pairs[..i][k].name == pairs[i].name;
    assert pairs[k].name == pairs[i].name;
  }

  // ------------------------------------------------------------------ event budget

  function Codes(s: string): seq<int> {
    if s == "" then [] else [s[0] as int] + Codes(s[1..])
  }

  const COLLECTIONS: seq<string> :=
    ["events", "file_access_events", "audit_events", "network_mount_events", "network_flow_events", "usb_mount_events"]

  /** The member called `name`, if there is one. */
  function Lookup(members: seq<Member>, name: seq<int>): (v: Option<Json>)
    ensures v.Some? ==> Member(name, v.value) in members
    ensures v.None? ==> forall m :: m in members ==> m.name != name
  {
    if members == [] then None
    else if members[0].name == name then Some(members[0].value)
    else Lookup(members[1..], name)
  }

  predicate EventList(v: Json) {
    v.Array? && forall i :: 0 <= i < |v.items| ==> v.items[i].Object?
  }

  /** Every named collection that is present is a list of objects. */
  predicate Collections(members: seq<Member>, names: seq<string>) {
    forall k :: 0 <= k < |names| ==>
      var v := Lookup(members, Codes(names[k]));
      v.Some? ==> EventList(v.value)
  }

  function Size(v: Option<Json>): nat {
    if v.Some? && v.value.Array? then |v.value.items| else 0
  }

  /** Entries of the named collections together. */
  function Total(members: seq<Member>, names: seq<string>): nat {
    if names == [] then 0
    else Total(members, names[..|names| - 1]) + Size(Lookup(members, Codes(names[|names| - 1])))
  }

  /** What a body must be to reach a handler; the scanner is not mentioned. */
  predicate Admissible(v: Json, limits: Limits, names: seq<string>) {
    v.Object? && Depth(v) <= limits.depth
    && Collections(v.members, names) && Total(v.members, names) <= limits.events
  }

  /** The event loop over one parsed object: 400, 413, or 0 for acceptance. */
  method CountEvents(members: seq<Member>, events: nat, names: seq<string>) returns (status: int)
    ensures status == 0 || status == 400 || status == 413
    ensures status == 400 <==> !Collections(members, names)
    ensures status == 0 <==> Collections(members, names) && Total(members, names) <= events
  {
    var count := 0;
    for n := 0 to |names|
      invariant Collections(members, names[..n]) && count == Total(members, names[..n])
    {
      assert names[..n + 1][..n] == names[..n];
      var v := Lookup(members, Codes(names[n]));
      if v.Some? {
        if !EventList(v.value) {
          return 400;
        }
        count := count + |v.value.items|;
      }
    }
    assert names[..|names|] == names;
    return if count > events then 413 else 0;
  }

  /** The answer to one request. A body is returned exactly when the bytes expand within
      their limits to UTF-8 text of a JSON value that is `Admissible`. */
  ghost predicate Answers(r: Outcome, raw: Octets, h: Header, limits: Limits, lib: Library, names: seq<string>) {
    var p := Expand(raw, h, limits, lib);
    if p.Refused? then r == Rejected(p.status)
    else if lib.utf8(p.raw).None? then r == Rejected(400)
    else AnswersText(r, Load(lib.utf8(p.raw).value, Strict(lib.legal)), limits, names)
  }

  ghost predicate AnswersText(r: Outcome, parsed: Read<Json>, limits: Limits, names: seq<string>) {
    if parsed.Good? && Admissible(parsed.value, limits, names) then r == Accepted(parsed.value)
    else if parsed.Good? && parsed.value.Object? && Depth(parsed.value) <= limits.depth
            && Collections(parsed.value.members, names)
    then r == Rejected(413)
    else r == Rejected(400)
  }

  /** The text is a document of the grammar, without repeated members and with numbers the
      hook lets pass, and `v` is the value it spells. */
  ghost predicate SpelledBy(v: Json, text: string, lib: Library) {
    exists before, s, after :: JsonDocuments.Spelling(text, before, s, after, Strict(lib.legal)) && v == JsonSyntax.Value(s)
  }

  /** From the scanner to the event budget: what the parser alone would decide about depth. */
  method DecodeText(text: string, limits: Limits, lib: Library, names: seq<string>) returns (r: Outcome)
    ensures AnswersText(r, Load(text, Strict(lib.legal)), limits, names)
    ensures r.Accepted? ==> NoRepeats(r.body) && SpelledBy(r.body, text, lib)
    ensures !JsonDocuments.IsDocument(text, Strict(lib.legal)) ==> r == Rejected(400)
  {
    JsonDocuments.LoadsExactlyDocuments(text, Strict(lib.legal));
    if Load(text, Strict(lib.legal)).Good? {
      var before, s, after := JsonDocuments.LoadWritten(text, Strict(lib.legal));
    }
    var shallow := CheckDepth(text, limits.depth);
    WithinIsEveryPrefix(text, limits.depth);
    if Load(text, Strict(lib.legal)).Good? {
      JsonDepth.AcceptsExactlyShallow(text, limits.depth, Strict(lib.legal));
      JsonDepth.LoadFacts(text, Strict(lib.legal));
    }
    if !shallow {
      return Rejected(400);
    }
    // The call below recurses through at most `limits.depth` open containers.
    assert Load(text, Strict(lib.legal)).peak <= limits.depth by {
      JsonDepth.AcceptedBoundsRecursion(text, limits.depth, Strict(lib.legal));
    }
    var parsed := Load(text, Strict(lib.legal));
    if parsed.Bad? || !parsed.value.Object? {
      return Rejected(400);
    }
    var status := CountEvents(parsed.value.members, limits.events, names);
    return if status == 0 then Accepted(parsed.value) else Rejected(status);
  }

  /** `decode_bytes`: besides `Answers`, no object in an accepted body repeats a member. */
  method DecodeBytes(raw: Octets, h: Header, limits: Limits, lib: Library) returns (r: Outcome)
    ensures Answers(r, raw, h, limits, lib, COLLECTIONS)
    ensures r.Accepted? ==> NoRepeats(r.body) && Admissible(r.body, limits, COLLECTIONS)
    ensures r.Accepted? ==>
              var p := Expand(raw, h, limits, lib);
              p.Bytes? && lib.utf8(p.raw).Some? && SpelledBy(r.body, lib.utf8(p.raw).value, lib)
  {
    var p := Expand(raw, h, limits, lib);
    if p.Refused? {
      return Rejected(p.status);
    }
    var decoded := lib.utf8(p.raw);
    if decoded.None? {
      return Rejected(400);
    }
    r := DecodeText(decoded.value, limits, lib, COLLECTIONS);
  }

  // ------------------------------------------------------------------ decode_request

  datatype Length = NoLength | Malformed | Declared(value: nat, digits: nat)

  /** `decode_request`: the declared length is checked first, then at most one byte more
      than the limit is read, so a longer body is refused however long it is. */
  method DecodeRequest(length: Length, stream: Octets, h: Header, limits: Limits, lib: Library)
    returns (r: Outcome, consumed: nat)
    ensures consumed <= limits.compressed + 1 && consumed <= |stream|
    ensures length.Malformed? ==> r == Rejected(400) && consumed == 0
    ensures length.Declared? && (length.digits > 12 || length.value > limits.compressed) ==>
      r == Rejected(413) && consumed == 0
    ensures |stream| > limits.compressed && !length.Malformed? ==> r == Rejected(413)
    ensures r.Accepted? ==> NoRepeats(r.body) && Admissible(r.body, limits, COLLECTIONS)
    ensures r.Accepted? ==> consumed == |stream|
    // Otherwise the answer is that of `decode_bytes` on what was read.
    ensures !length.Malformed? && !(length.Declared? && (length.digits > 12 || length.value > limits.compressed)) ==>
      && consumed == (if |stream| <= limits.compressed then |stream| else limits.compressed + 1)
      && Answers(r, stream[..consumed], h, limits, lib, COLLECTIONS)
  {
    if length.Malformed? {
      return Rejected(400), 0;
    }
    if length.Declared? && (length.digits > 12 || length.value > limits.compressed) {
      return Rejected(413), 0;
    }
    consumed := if |stream| < limits.compressed + 1 then |stream| else limits.compressed + 1;
    r := DecodeBytes(stream[..consumed], h, limits, lib);
  }
}
