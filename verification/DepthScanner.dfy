/** The flat depth scanner of `santa_request_limits._check_depth`: one pass over the
    text, tracking nesting, whether the cursor is inside a string, and whether the
    previous character escapes the next one.

    `peak` is not a variable of the program; it records the largest nesting seen so
    far, which is what the bound is compared with. */
module DepthScanner {

  datatype Scan = Scan(depth: int, quoted: bool, escaped: bool, peak: int)

  const START := Scan(0, false, false, 0)

  function Max(a: int, b: int): (m: int)
    ensures m >= a && m >= b && (m == a || m == b)
  {
    if a < b then b else a
  }

  function Step(s: Scan, c: char): Scan {
    if s.quoted then
      if s.escaped then s.(escaped := false)
      else if c == '\\' then s.(escaped := true)
      else if c == '"' then s.(quoted := false)
      else s
    else if c == '"' then s.(quoted := true)
    else if c == '[' || c == '{' then s.(depth := s.depth + 1, peak := Max(s.peak, s.depth + 1))
    else if c == ']' || c == '}' then s.(depth := s.depth - 1)
    else s
  }

  /** The scanner's state after the first `i` characters. */
  function After(t: string, i: nat): Scan
    requires i <= |t|
  {
    if i == 0 then START else Step(After(t, i - 1), t[i - 1])
  }

  /** The highest nesting over the whole text is within the bound. */
  ghost predicate Within(t: string, maximum: nat) {
    After(t, |t|).peak <= maximum
  }

  lemma {:induction false} PeakGrows(t: string, i: nat, j: nat)
    requires i <= j <= |t|
    ensures After(t, i).peak <= After(t, j).peak
    decreases j
  {
    if i < j { PeakGrows(t, i, j - 1); }
  }

  lemma {:induction false} DepthBelowPeak(t: string, i: nat)
    requires i <= |t|
    ensures After(t, i).depth <= After(t, i).peak
  {
    if i > 0 { DepthBelowPeak(t, i - 1); }
  }

  /** The peak is reached: it is the depth at some prefix. */
  lemma {:induction false} PeakReached(t: string, i: nat) returns (k: nat)
    requires i <= |t|
    ensures k <= i && After(t, k).depth == After(t, i).peak
  {
    if i == 0 || After(t, i).depth == After(t, i).peak {
      k := i;
    } else {
      k := PeakReached(t, i - 1);
    }
  }

  /** `Within` without the recording: no prefix is nested deeper than the bound. */
  lemma WithinIsEveryPrefix(t: string, maximum: nat)
    ensures Within(t, maximum) <==> forall i: nat :: i <= |t| ==> After(t, i).depth <= maximum
  {
    forall i: nat | i <= |t| ensures After(t, i).depth <= After(t, |t|).peak {
      DepthBelowPeak(t, i);
      PeakGrows(t, i, |t|);
    }
    var k := PeakReached(t, |t|);
  }

  /** `_check_depth`: false is the rejection with status 400. */
  method CheckDepth(text: string, maximum: nat) returns (accepted: bool)
    ensures accepted <==> forall i: nat :: i <= |text| ==> After(text, i).depth <= maximum
  {
    var depth, quoted, escaped := 0, false, false;
    var i := 0;
    while i < |text|
      invariant 0 <= i <= |text|
      invariant After(text, i).depth == depth
      invariant After(text, i).quoted == quoted && After(text, i).escaped == escaped
      invariant forall k: nat :: k <= i ==> After(text, k).depth <= maximum
    {
      var c := text[i];
      if quoted {
        if escaped {
          escaped := false;
        } else if c == '\\' {
          escaped := true;
        } else if c == '"' {
          quoted := false;
        }
      } else if c == '"' {
        quoted := true;
      } else if c == '[' || c == '{' {
        depth := depth + 1;
        if depth > maximum {
          ghost var next: nat := i + 1;
          assert next <= |text| && After(text, next).depth > maximum;
          assert !(forall i: nat :: i <= |text| ==> After(text, i).depth <= maximum);
          return false;
        }
      } else if c == ']' || c == '}' {
        depth := depth - 1;
      }
      i := i + 1;
    }
    return true;
  }

  /** Outside strings, characters that are neither quotes nor brackets do nothing. */
  predicate Plain(c: char) {
    c != '"' && c != '[' && c != '{' && c != ']' && c != '}'
  }

  lemma {:induction false} PlainRun(t: string, i: nat, j: nat)
    requires i <= j <= |t|
    requires !After(t, i).quoted
    requires forall k :: i <= k < j ==> Plain(t[k])
    ensures After(t, j) == After(t, i)
    decreases j
  {
    if i < j { PlainRun(t, i, j - 1); }
  }
}
