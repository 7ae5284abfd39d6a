/** Counting with a fixed window that starts at the first hit, as the expiring Redis
    counters do: the first hit sets the key with a lifetime of `span`, later ones only
    increment it, and a hit after the key has gone starts the next window. */
module Ledger {

  /** One counted event and the start of the window it was counted in. */
  datatype Hit = Hit(time: int, start: int)

  function InWindow(hits: seq<Hit>, start: int): nat {
    if hits == [] then 0
    else InWindow(hits[..|hits| - 1], start) + if hits[|hits| - 1].start == start then 1 else 0
  }

  /** Events with `from <= time <= to`. */
  function Between(hits: seq<Hit>, from: int, to: int): nat {
    if hits == [] then 0
    else Between(hits[..|hits| - 1], from, to) + if from <= hits[|hits| - 1].time <= to then 1 else 0
  }

  /** Every event lies in its window, windows follow each other without touching. */
  ghost predicate Windows(hits: seq<Hit>, span: nat) {
    && (forall i :: 0 <= i < |hits| ==> hits[i].start <= hits[i].time <= hits[i].start + span)
    && (forall i, j :: 0 <= i < j < |hits| ==>
          hits[i].start == hits[j].start || hits[i].start + span < hits[j].start)
  }

  ghost predicate Valid(hits: seq<Hit>, span: nat, limit: nat) {
    Windows(hits, span) && forall s :: InWindow(hits, s) <= limit
  }

  /** A counter as the store shows it at some moment: absent, or a value with the moment
      until which it lives. */
  datatype Counter = Gone | Counting(value: int, until: int)

  /** The counter shows exactly the current window of the history. */
  ghost predicate Shows(hits: seq<Hit>, c: Counter, span: nat, now: int) {
    && (forall i :: 0 <= i < |hits| ==> hits[i].time <= now)
    && match c
       case Gone => hits == [] || hits[|hits| - 1].start + span < now
       case Counting(value, until) =>
         hits != [] && now <= until && hits[|hits| - 1].start == until - span && InWindow(hits, until - span) == value
  }

  /** The start of the window in which a hit at `now` is counted. */
  function StartOf(c: Counter, span: nat, now: int): int {
    if c.Gone? then now else c.until - span
  }

  function Bumped(c: Counter, span: nat, now: int): Counter {
    if c.Gone? then Counting(1, now + span) else c.(value := c.value + 1)
  }

  lemma {:induction false} InWindowAppend(hits: seq<Hit>, h: Hit, s: int)
    ensures InWindow(hits + [h], s) == InWindow(hits, s) + if h.start == s then 1 else 0
  {
    assert (hits + [h])[..|hits|] == hits;
  }

  lemma {:induction false} NoneInLaterWindow(hits: seq<Hit>, span: nat, s: int)
    requires Windows(hits, span) && (hits == [] || hits[|hits| - 1].start + span < s)
    ensures InWindow(hits, s) == 0
    decreases |hits|
  {
    if hits != [] {
      var front := hits[..|hits| - 1];
      if front != [] {
        assert front[|front| - 1] == hits[|front| - 1];
        assert front[|front| - 1].start <= hits[|hits| - 1].start;
      }
      NoneInLaterWindow(front, span, s);
    }
  }

  lemma WindowsAppend(hits: seq<Hit>, h: Hit, span: nat)
    requires Windows(hits, span) && h.start <= h.time <= h.start + span
    requires hits == [] || hits[|hits| - 1].start == h.start || hits[|hits| - 1].start + span < h.start
    ensures Windows(hits + [h], span)
  {
    var after := hits + [h];
    forall i | 0 <= i < |hits| ensures after[i].start == h.start || after[i].start + span < h.start {
      var last := hits[|hits| - 1];
      assert i < |hits| - 1 ==> hits[i].start == last.start || hits[i].start + span < last.start;
    }
  }

  lemma CountsAppend(hits: seq<Hit>, h: Hit, limit: nat)
    requires forall s :: InWindow(hits, s) <= limit
    requires InWindow(hits, h.start) < limit
    ensures forall s :: InWindow(hits + [h], s) <= limit
    ensures InWindow(hits + [h], h.start) == InWindow(hits, h.start) + 1
  {
    forall s ensures InWindow(hits + [h], s) <= limit {
      InWindowAppend(hits, h, s);
    }
    InWindowAppend(hits, h, h.start);
  }

  /** Counting one more event below the limit keeps the history valid and in step. */
  lemma Append(hits: seq<Hit>, c: Counter, span: nat, limit: nat, now: int)
    requires Valid(hits, span, limit) && Shows(hits, c, span, now)
    requires c.Gone? ==> limit >= 1
    requires c.Counting? ==> c.value < limit
    ensures
      var after := hits + [Hit(now, StartOf(c, span, now))];
      Valid(after, span, limit) && Shows(after, Bumped(c, span, now), span, now)
  {
    var h := Hit(now, StartOf(c, span, now));
    if c.Gone? { NoneInLaterWindow(hits, span, now); }
    WindowsAppend(hits, h, span);
    CountsAppend(hits, h, limit);
  }

  /** Time passing cannot contradict the history, whether or not the counter expires. */
  lemma Later(hits: seq<Hit>, c: Counter, span: nat, now: int, later: int)
    requires Shows(hits, c, span, now) && now <= later
    ensures Shows(hits, if c.Counting? && later <= c.until then c else Gone, span, later)
  {
  }

  lemma {:induction false} TwoWindowsCover(hits: seq<Hit>, from: int, to: int, a: int, b: int)
    requires forall i :: 0 <= i < |hits| && from <= hits[i].time <= to ==> hits[i].start == a || hits[i].start == b
    ensures Between(hits, from, to) <= InWindow(hits, a) + InWindow(hits, b)
    decreases |hits|
  {
    if hits != [] {
      var front := hits[..|hits| - 1];
      forall i | 0 <= i < |front| && from <= front[i].time <= to
        ensures front[i].start == a || front[i].start == b
      {
        assert front[i] == hits[i];
      }
      TwoWindowsCover(front, from, to, a, b);
    }
  }

  /** The hits of an interval no longer than `span` fall in at most two windows. */
  lemma AtMostTwoWindows(hits: seq<Hit>, span: nat, from: int, to: int) returns (a: int, b: int)
    requires Windows(hits, span) && to - from <= span
    ensures forall i :: 0 <= i < |hits| && from <= hits[i].time <= to ==> hits[i].start == a || hits[i].start == b
  {
    a, b := 0, 0;
    if f: nat :| f < |hits| && from <= hits[f].time <= to {
      a, b := hits[f].start, hits[f].start;
      if g: nat :| g < |hits| && from <= hits[g].time <= to && hits[g].start != a {
        b := hits[g].start;
        forall i | 0 <= i < |hits| && from <= hits[i].time <= to
          ensures hits[i].start == a || hits[i].start == b
        {
          Apart(hits, span, f, g);
          Apart(hits, span, f, i);
          Apart(hits, span, g, i);
        }
      }
    }
  }

  lemma Apart(hits: seq<Hit>, span: nat, i: nat, j: nat)
    requires Windows(hits, span) && i < |hits| && j < |hits|
    ensures hits[i].start == hits[j].start || hits[i].start + span < hits[j].start || hits[j].start + span < hits[i].start
  {
    if i < j {
      assert hits[i].start == hits[j].start || hits[i].start + span < hits[j].start;
    } else if j < i {
      assert hits[j].start == hits[i].start || hits[j].start + span < hits[i].start;
    }
  }

  /** Main counting result: no interval as long as the window holds more than twice the limit. */
  lemma TwiceTheLimit(hits: seq<Hit>, span: nat, limit: nat, from: int, to: int)
    requires Valid(hits, span, limit) && to - from <= span
    ensures Between(hits, from, to) <= 2 * limit
  {
    var a, b := AtMostTwoWindows(hits, span, from, to);
    TwoWindowsCover(hits, from, to, a, b);
  }
}
